/**
 * Angle arithmetic shared by the layout and the hit test: the constant
 * TWOPI, JavaScript's remainder operator applied to it, and the fold of an
 * `atan2` result into (0, 2*PI].
 */
module Angles {

  /** JavaScript's `Math.PI`, an IEEE double, written out exactly. */
  const Pi: real := 3.141592653589793115997963468544185161590576171875

  /** `TWOPI = 2 * Math.PI` (the doubling is exact in double arithmetic too). */
  const TwoPi: real := 2.0 * Pi

  /** Rounding toward zero, the rounding behind JavaScript's `%`. */
  function Trunc(q: real): (k: int)
    ensures q >= 0.0 ==> k as real <= q < k as real + 1.0
    ensures q < 0.0 ==> k as real - 1.0 < q <= k as real
  {
    if q >= 0.0 then q.Floor else -((-q).Floor)
  }

  /** k whole turns. */
  function Turns(k: int): real {
    TwoPi * k as real
  }

  /**
   * `x % TWOPI` in JavaScript: the remainder has the sign of the dividend,
   * so it lies in [0, 2*PI) for x >= 0 and in (-2*PI, 0] for x < 0, and it
   * differs from x by a whole number of turns. These three facts determine
   * it (Mod2PiUnique).
   */
  function Mod2Pi(x: real): (r: real)
    ensures x >= 0.0 ==> 0.0 <= r < TwoPi
    ensures x < 0.0 ==> -TwoPi < r <= 0.0
    ensures exists k: int :: x - r == Turns(k)
  {
    var k := Trunc(x / TwoPi);
    assert x - (x - Turns(k)) == Turns(k);
    x - Turns(k)
  }

  /**
   * Any value with the dividend's sign, less than a turn in size and a
   * whole number of turns from x is `x % TWOPI`.
   */
  lemma Mod2PiUnique(x: real, y: real, k: int)
    requires x >= 0.0 ==> 0.0 <= y < TwoPi
    requires x < 0.0 ==> -TwoPi < y <= 0.0
    requires x - y == Turns(k)
    ensures y == Mod2Pi(x)
  {
    var m :| x - Mod2Pi(x) == Turns(m);
    assert Mod2Pi(x) - y == Turns(k - m);
  }

  /** On a non-negative value below two turns, `% TWOPI` removes at most one turn. */
  lemma Mod2PiOnTwoTurns(x: real)
    requires 0.0 <= x < 2.0 * TwoPi
    ensures Mod2Pi(x) == if x < TwoPi then x else x - TwoPi
  {
    if x < TwoPi {
      assert 0.0 <= x / TwoPi < 1.0;
    } else {
      assert 1.0 <= x / TwoPi < 2.0;
    }
  }

  /**
   * The fold `a > 0 ? a : TWOPI + a` applied to an `atan2` result: every
   * angle of (-PI, PI] lands in (0, 2*PI], and 0 goes to 2*PI rather than 0.
   */
  function Fold(a: real): (r: real)
    ensures -Pi < a <= Pi ==> 0.0 < r <= TwoPi
    ensures a == 0.0 ==> r == TwoPi
    ensures r == a || r == a + TwoPi
  {
    if a > 0.0 then a else TwoPi + a
  }

  /**
   * An `atan2` angle pointing the same way as an angle x of the first two
   * turns folds onto x or onto x taken back by one turn.
   */
  lemma FoldSameDirection(a: real, x: real, k: int)
    requires -Pi < a <= Pi && 0.0 < x < 2.0 * TwoPi
    requires a == x + TwoPi * k as real
    ensures Fold(a) == x || Fold(a) == x - TwoPi
  {
    var m: int := if Fold(a) == a then k else k + 1;
    assert Fold(a) - x == TwoPi * m as real;
    OneTurnApart(Fold(a), x, m);
  }

  /** Two angles a whole number m of turns apart, one in (0, 2*PI] and one in (0, 4*PI), are at most one turn apart. */
  lemma OneTurnApart(x: real, y: real, m: int)
    requires 0.0 < x <= TwoPi && 0.0 < y < 2.0 * TwoPi
    requires x - y == TwoPi * m as real
    ensures m == 0 || m == -1
  {
  }
}
