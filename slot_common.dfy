/**
 * Pieces both slot components rely on: the JavaScript built-ins they call
 * (`%`, `String.prototype.includes`, `Array.prototype.findIndex`,
 * `Array.prototype.every`) and the ease-out quartic that both reel animators
 * apply to their travel distance.
 */
module SlotCommon {

  datatype Option<T> = None | Some(value: T)

  // ---------------------------------------------------------------------------
  // JavaScript `%` on numbers: the remainder takes the sign of the dividend.
  // ---------------------------------------------------------------------------

  /** `a % b` as JavaScript computes it, for a positive divisor. */
  function JsRem(a: int, b: int): (r: int)
    requires b > 0
    ensures a >= 0 ==> 0 <= r < b
    ensures a < 0 ==> -b < r <= 0
  {
    if a >= 0 then a % b else -((-a) % b)
  }

  /** The quotient that goes with `JsRem`: `a / b` truncated towards zero. */
  function TruncQuot(a: int, b: int): int
    requires b > 0
  {
    if a >= 0 then a / b else -((-a) / b)
  }

  /**
   * With the ranges in `JsRem`'s contract, this pins the result down: the
   * dividend is a whole number of divisors, counted towards zero, plus the
   * remainder.
   */
  lemma JsRemIsRemainder(a: int, b: int)
    requires b > 0
    ensures a == TruncQuot(a, b) * b + JsRem(a, b)
  {
    if a < 0 {
      assert -a == ((-a) / b) * b + (-a) % b;
    }
  }

  // ---------------------------------------------------------------------------
  // `s.includes(t)`: case-sensitive substring search.
  // ---------------------------------------------------------------------------

  /** `t` occurs in `s` at position `i`, compared character by character from `k` on. */
  predicate MatchesFrom(s: string, t: string, i: nat, k: nat)
    decreases |t| - k
  {
    k >= |t| || (i + k < |s| && s[i + k] == t[k] && MatchesFrom(s, t, i, k + 1))
  }

  /** `t` occurs in `s` at some position `i` or later. */
  predicate IncludesFrom(s: string, t: string, i: nat)
    decreases |s| - i
  {
    i + |t| <= |s| && (MatchesFrom(s, t, i, 0) || IncludesFrom(s, t, i + 1))
  }

  /** `s.includes(t)`, as a left-to-right scan. */
  predicate Includes(s: string, t: string)
  {
    IncludesFrom(s, t, 0)
  }

  lemma {:induction false} MatchesFromIsSlice(s: string, t: string, i: nat, k: nat)
    requires i + |t| <= |s| && k <= |t|
    ensures MatchesFrom(s, t, i, k) <==> s[i + k..i + |t|] == t[k..]
    decreases |t| - k
  {
    if k < |t| {
      MatchesFromIsSlice(s, t, i, k + 1);
      assert s[i + k..i + |t|] == [s[i + k]] + s[i + k + 1..i + |t|];
      assert t[k..] == [t[k]] + t[k + 1..];
    }
  }

  /** `t` sits in `s` starting at index `j`. */
  predicate OccursAt(s: string, t: string, j: int)
  {
    0 <= j && j + |t| <= |s| && s[j..j + |t|] == t
  }

  lemma {:induction false} IncludesFromIsSearch(s: string, t: string, i: nat)
    ensures IncludesFrom(s, t, i) <==> exists j :: i <= j && OccursAt(s, t, j)
    decreases |s| - i
  {
    if i + |t| <= |s| {
      IncludesFromIsSearch(s, t, i + 1);
      MatchesFromIsSlice(s, t, i, 0);
      assert t[0..] == t;
      if MatchesFrom(s, t, i, 0) {
        assert OccursAt(s, t, i);
      }
      if exists j :: i <= j && OccursAt(s, t, j) {
        var j :| i <= j && OccursAt(s, t, j);
        if j != i {
          assert i + 1 <= j;
        }
      }
    }
  }

  /** The scan finds `t` exactly when some slice of `s` equals `t`. */
  lemma IncludesIsSubstring(s: string, t: string)
    ensures Includes(s, t) <==> exists j :: OccursAt(s, t, j)
  {
    IncludesFromIsSearch(s, t, 0);
  }

  // ---------------------------------------------------------------------------
  // `xs.findIndex(p)`: the first index whose element satisfies `p`, or -1.
  // ---------------------------------------------------------------------------

  /** `xs.findIndex(s => name(s).includes(needle))`, searching from `from` on. */
  function FirstIncludingFrom<T>(xs: seq<T>, name: T -> string, needle: string, from: nat): int
    decreases |xs| - from
  {
    if from >= |xs| then -1
    else if Includes(name(xs[from]), needle) then from
    else FirstIncludingFrom(xs, name, needle, from + 1)
  }

  function FirstIncluding<T>(xs: seq<T>, name: T -> string, needle: string): int
  {
    FirstIncludingFrom(xs, name, needle, 0)
  }

  lemma {:induction false} FirstIncludingFromIsFirst<T>(xs: seq<T>, name: T -> string, needle: string, from: nat)
    ensures var r := FirstIncludingFrom(xs, name, needle, from);
      && (r == -1 <==> forall j :: from <= j < |xs| ==> !Includes(name(xs[j]), needle))
      && (r != -1 ==> from <= r < |xs| && Includes(name(xs[r]), needle) &&
                      forall j :: from <= j < r ==> !Includes(name(xs[j]), needle))
    decreases |xs| - from
  {
    if from < |xs| && !Includes(name(xs[from]), needle) {
      FirstIncludingFromIsFirst(xs, name, needle, from + 1);
    }
  }

  /** The result is -1 exactly when no name includes the needle, and otherwise the first position whose name does. */
  lemma FirstIncludingIsFirst<T>(xs: seq<T>, name: T -> string, needle: string)
    ensures var r := FirstIncluding(xs, name, needle);
      && (r == -1 <==> forall j :: 0 <= j < |xs| ==> !Includes(name(xs[j]), needle))
      && (r != -1 ==> 0 <= r < |xs| && Includes(name(xs[r]), needle) &&
                      forall j :: 0 <= j < r ==> !Includes(name(xs[j]), needle))
  {
    FirstIncludingFromIsFirst(xs, name, needle, 0);
  }

  /** `xs.findIndex(s => s === x)`, searching from `from` on. */
  function IndexOfFrom<T(==)>(xs: seq<T>, x: T, from: nat): int
    decreases |xs| - from
  {
    if from >= |xs| then -1
    else if xs[from] == x then from
    else IndexOfFrom(xs, x, from + 1)
  }

  function IndexOf<T(==)>(xs: seq<T>, x: T): int
  {
    IndexOfFrom(xs, x, 0)
  }

  lemma {:induction false} IndexOfFromIsFirst<T>(xs: seq<T>, x: T, from: nat)
    ensures var r := IndexOfFrom(xs, x, from);
      && (r == -1 <==> forall j :: from <= j < |xs| ==> xs[j] != x)
      && (r != -1 ==> from <= r < |xs| && xs[r] == x && forall j :: from <= j < r ==> xs[j] != x)
    decreases |xs| - from
  {
    if from < |xs| && xs[from] != x {
      IndexOfFromIsFirst(xs, x, from + 1);
    }
  }

  /** The result is -1 exactly when `x` is absent, and otherwise the first position holding `x`. */
  lemma IndexOfIsFirst<T>(xs: seq<T>, x: T)
    ensures IndexOf(xs, x) == -1 <==> x !in xs
    ensures IndexOf(xs, x) != -1 ==> 0 <= IndexOf(xs, x) < |xs| && xs[IndexOf(xs, x)] == x && x !in xs[..IndexOf(xs, x)]
  {
    IndexOfFromIsFirst(xs, x, 0);
    var r := IndexOf(xs, x);
    if r != -1 {
      assert forall j :: 0 <= j < r ==> xs[..r][j] == xs[j];
    }
  }

  // ---------------------------------------------------------------------------
  // `xs.every(v => v === xs[0])`.
  // ---------------------------------------------------------------------------

  predicate AllSame(xs: seq<int>)
  {
    forall i :: 0 <= i < |xs| ==> xs[i] == xs[0]
  }

  /** Every element equals the first one exactly when at most one value occurs. */
  lemma AllSameIffOneValue(xs: seq<int>)
    ensures AllSame(xs) <==> forall x, y :: x in xs && y in xs ==> x == y
  {
    if AllSame(xs) {
      forall x, y | x in xs && y in xs ensures x == y {
        var i :| 0 <= i < |xs| && xs[i] == x;
        var j :| 0 <= j < |xs| && xs[j] == y;
      }
    } else {
      var i :| 0 <= i < |xs| && xs[i] != xs[0];
      assert xs[i] in xs && xs[0] in xs;
    }
  }

  /** The all-equal decision does not depend on the order the values arrived in. */
  lemma AllSameOrderFree(a: seq<int>, b: seq<int>)
    requires multiset(a) == multiset(b)
    ensures AllSame(a) == AllSame(b)
  {
    AllSameIffOneValue(a);
    AllSameIffOneValue(b);
    assert forall x :: x in a <==> x in b by {
      forall x ensures x in a <==> x in b {
        assert x in a <==> x in multiset(a);
        assert x in b <==> x in multiset(b);
      }
    }
  }

  // ---------------------------------------------------------------------------
  // Ease-out quartic, `1 - (1 - p)^4`, scaled to a whole-pixel travel distance.
  // ---------------------------------------------------------------------------

  function Pow4(x: int): int
  {
    x * x * x * x
  }

  lemma SquareMonotone(a: int, b: int)
    requires 0 <= a <= b
    ensures 0 <= a * a <= b * b
  {
    assert a * a <= a * b by {
      assert a * (b - a) >= 0;
    }
    assert a * b <= b * b by {
      assert (b - a) * b >= 0;
    }
  }

  lemma Pow4Monotone(a: int, b: int)
    requires 0 <= a <= b
    ensures 0 <= Pow4(a) <= Pow4(b)
  {
    SquareMonotone(a, b);
    SquareMonotone(a * a, b * b);
    assert Pow4(a) == (a * a) * (a * a) && Pow4(b) == (b * b) * (b * b);
  }

  lemma ScaledFractionBounded(travel: nat, num: int, den: int)
    requires 0 <= num <= den && den > 0
    ensures 0 <= travel * num / den <= travel
  {
    var x, q := travel * num, travel * num / den;
    assert 0 <= x <= travel * den;
    assert x == q * den + x % den && 0 <= x % den < den;
    assert q * den <= travel * den;
    assert q <= travel;
    assert q >= 0;
  }

  /**
   * The distance the reel has scrolled after `elapsed` ms of a `duration` ms
   * animation: `travel * eased`, where `eased = 1 - (1 - progress)^4` and
   * `progress = min(elapsed / duration, 1)`, rounded down to a whole unit.
   */
  function EasedDistance(travel: nat, elapsed: int, duration: int): (r: int)
    requires duration > 0
    ensures 0 <= r <= travel
    ensures elapsed <= 0 ==> r == 0
    ensures elapsed >= duration ==> r == travel
  {
    if elapsed >= duration then travel
    else if elapsed <= 0 then 0
    else
      var d4, rest4 := Pow4(duration), Pow4(duration - elapsed);
      Pow4Monotone(duration - elapsed, duration);
      assert d4 > 0 by { Pow4Monotone(1, duration); }
      ScaledFractionBounded(travel, d4 - rest4, d4);
      travel * (d4 - rest4) / d4
  }
}
