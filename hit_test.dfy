/**
 * The hit test of `getButton` (src/RadialMenu.js:587-641), from the
 * pointer's distance `d` to the centre and its `atan2` angle `a` onwards.
 */
module HitTesting {
  import opened Common
  import opened Angles
  import opened MenuOptions
  import opened SectorLayout

  /**
   * What `getButton` yields: the index of the button object it returns,
   * `undefined`, or the TypeError thrown when `this.rest` indexes past the
   * end of `this.buttons`.
   */
  datatype HitResult = Hit(index: nat) | NoButton | RestOutOfRange

  /** The scan's test `a >= ini && a <= fin`; false for a button without geometry. */
  predicate Covers(b: Button, a: real) {
    b.geometry.Some? && b.geometry.value.ini <= a <= b.geometry.value.fin
  }

  /** The first index from `from` on whose button covers angle a. */
  function FirstCover(bs: seq<Button>, a: real, from: nat): (r: Option<nat>)
    requires from <= |bs|
    ensures r.Some? ==> from <= r.value < |bs| && Covers(bs[r.value], a)
    ensures r.Some? ==> forall j | from <= j < r.value :: !Covers(bs[j], a)
    ensures r.None? ==> forall j | from <= j < |bs| :: !Covers(bs[j], a)
    decreases |bs| - from
  {
    if from == |bs| then None
    else if Covers(bs[from], a) then Some(from)
    else FirstCover(bs, a, from + 1)
  }

  /**
   * The retry of the wrap sector: an angle below `ini` is shifted up by a
   * turn, then compared with [ini, fin + TWOPI].
   */
  predicate RetryCovers(b: Button, a: real) {
    && b.geometry.Some?
    && var g := b.geometry.value;
       var shifted := if a < g.ini then a + TwoPi else a;
       g.ini <= shifted <= g.fin + TwoPi
  }

  /** JavaScript truthiness of `this.rest`: defined and not 0. */
  predicate Truthy(rest: Option<nat>) {
    rest.Some? && rest.value != 0
  }

  /**
   * The ring test, the fold, the scan, and, when the scan found nothing
   * and `retry` names an index, the retry of that button.
   */
  function Locate(bs: seq<Button>, retry: Option<nat>, inner: real, outer: real, d: real, a: real): (r: HitResult)
    ensures !(inner < d < outer) ==> r == NoButton
    ensures r.Hit? ==> r.index < |bs|
    ensures inner < d < outer && (exists j | 0 <= j < |bs| :: Covers(bs[j], Fold(a))) ==>
      && r.Hit? && Covers(bs[r.index], Fold(a))
      && forall j | 0 <= j < r.index :: !Covers(bs[j], Fold(a))
    ensures inner < d < outer && (forall j | 0 <= j < |bs| :: !Covers(bs[j], Fold(a))) ==>
      r == if retry.None? then NoButton
           else if retry.value >= |bs| then RestOutOfRange
           else if RetryCovers(bs[retry.value], Fold(a)) then Hit(retry.value)
           else NoButton
  {
    if !(d > inner && d < outer) then NoButton
    else
      var folded := Fold(a);
      match FirstCover(bs, folded, 0)
      case Some(i) => Hit(i)
      case None =>
        if retry.None? then NoButton
        else if retry.value >= |bs| then RestOutOfRange
        else if RetryCovers(bs[retry.value], folded) then Hit(retry.value)
        else NoButton
  }

  /** `getButton` as written: the retry is guarded by `this.rest` being truthy. */
  function HitTest(bs: seq<Button>, rest: Option<nat>, inner: real, outer: real, d: real, a: real): HitResult {
    Locate(bs, if Truthy(rest) then rest else None, inner, outer, d, a)
  }

  /**
   * The evidently intended hit test: the retry is guarded by `rest` being
   * defined, and it is given the wrap index of the current layout.
   */
  function HitTestFixed(bs: seq<Button>, wrap: Option<nat>, inner: real, outer: real, d: real, a: real): HitResult {
    Locate(bs, wrap, inner, outer, d, a)
  }

  // ---------------------------------------------------------------------
  // The tests against the layout: the scan's test is arc membership for a
  // sector that does not wrap, and the retry is arc membership for the
  // one that does.
  // ---------------------------------------------------------------------

  /**
   * The scan's test holds only on the arc of a sector that does not wrap,
   * and holds everywhere strictly inside such an arc. (At a shared end it
   * can fail: a sector starting exactly at 2*PI has `ini == 0`.)
   */
  lemma CoversOnArc(s: Settings, bs: seq<Button>, j: nat, a: real)
    requires ValidLayout(s, |bs|) && LaidOut(bs, s) && j < |bs|
    requires 0.0 < a <= TwoPi
    ensures Covers(bs[j], a) ==> InArc(s, |bs|, j, a) && !IsWrap(s, |bs|, j)
    ensures InsideArc(s, |bs|, j, a) && !IsWrap(s, |bs|, j) ==> Covers(bs[j], a)
  {
    RawBounds(s, |bs|, j);
    ReducedEnds(s, |bs|, j);
    WrapIff(s, |bs|, j);
  }

  /** The retry's test on the wrap sector is exactly membership of its arc. */
  lemma RetryIff(s: Settings, bs: seq<Button>, w: nat, a: real)
    requires ValidLayout(s, |bs|) && LaidOut(bs, s) && w < |bs| && IsWrap(s, |bs|, w)
    requires 0.0 < a <= TwoPi
    ensures RetryCovers(bs[w], a) <==> InArc(s, |bs|, w, a)
  {
    RawBounds(s, |bs|, w);
    ReducedEnds(s, |bs|, w);
    WrapIff(s, |bs|, w);
  }

  /**
   * With the wrap index of the current layout, the intended hit test only
   * ever reports a button whose arc holds the pointer's angle, and never
   * throws.
   */
  lemma HitTestFixedSound(s: Settings, bs: seq<Button>, inner: real, outer: real, d: real, a: real)
    requires ValidLayout(s, |bs|) && LaidOut(bs, s)
    requires -Pi < a <= Pi
    ensures HitTestFixed(bs, LastWrap(s, |bs|, |bs|), inner, outer, d, a) != RestOutOfRange
    ensures HitTestFixed(bs, LastWrap(s, |bs|, |bs|), inner, outer, d, a).Hit? ==>
      InArc(s, |bs|, HitTestFixed(bs, LastWrap(s, |bs|, |bs|), inner, outer, d, a).index, Fold(a))
  {
    var r := HitTestFixed(bs, LastWrap(s, |bs|, |bs|), inner, outer, d, a);
    var folded := Fold(a);
    if r.Hit? {
      if Covers(bs[r.index], folded) {
        CoversOnArc(s, bs, r.index, folded);
      } else {
        RetryIff(s, bs, r.index, folded);
      }
    }
  }

  /**
   * With the wrap index of the current layout, the intended hit test finds
   * the button whose arc holds the pointer's angle strictly inside.
   */
  lemma HitTestFixedComplete(s: Settings, bs: seq<Button>, inner: real, outer: real, d: real, a: real, i: nat)
    requires ValidLayout(s, |bs|) && LaidOut(bs, s)
    requires -Pi < a <= Pi && inner < d < outer
    requires i < |bs| && InsideArc(s, |bs|, i, Fold(a))
    ensures HitTestFixed(bs, LastWrap(s, |bs|, |bs|), inner, outer, d, a) == Hit(i)
  {
    var n, folded := |bs|, Fold(a);
    forall j | 0 <= j < n && j != i
      ensures !Covers(bs[j], folded)
    {
      CoversOnArc(s, bs, j, folded);
      ArcsDisjoint(s, n, i, j, folded);
    }
    CoversOnArc(s, bs, i, folded);
    if IsWrap(s, n, i) {
      var w := LastWrap(s, n, n);
      assert w.Some?;
      AtMostOneWrap(s, n, i, w.value);
      RetryIff(s, bs, i, folded);
    }
  }

  /**
   * A pointer in the direction of a button's label (the sector's middle),
   * anywhere across the ring, selects that button.
   */
  lemma LabelDirectionSelectsButton(s: Settings, bs: seq<Button>, inner: real, outer: real, d: real, i: nat, k: int)
    requires ValidLayout(s, |bs|) && LaidOut(bs, s)
    requires inner < d < outer && i < |bs|
    requires -Pi < LabelAngle(s, |bs|, i) + TwoPi * k as real <= Pi
    ensures HitTestFixed(bs, LastWrap(s, |bs|, |bs|), inner, outer, d, LabelAngle(s, |bs|, i) + TwoPi * k as real) == Hit(i)
  {
    var a := LabelAngle(s, |bs|, i) + TwoPi * k as real;
    LabelDirectionInside(s, |bs|, i, k);
    HitTestFixedComplete(s, bs, inner, outer, d, a, i);
  }

  // ---------------------------------------------------------------------
  // The hit test as written.
  // ---------------------------------------------------------------------

  /**
   * As long as `rest` holds the current layout's wrap index and that index
   * is not 0, the hit test as written is the intended one: it is sound,
   * and it finds the button whose arc holds the angle strictly inside.
   */
  lemma HitTestCorrectWhenWrapNotFirst(s: Settings, bs: seq<Button>, rest: Option<nat>, inner: real, outer: real, d: real, a: real)
    requires ValidLayout(s, |bs|) && LaidOut(bs, s)
    requires rest == LastWrap(s, |bs|, |bs|) && rest != Some(0)
    requires -Pi < a <= Pi
    ensures HitTest(bs, rest, inner, outer, d, a) != RestOutOfRange
    ensures HitTest(bs, rest, inner, outer, d, a).Hit? ==>
      InArc(s, |bs|, HitTest(bs, rest, inner, outer, d, a).index, Fold(a))
    ensures forall i | 0 <= i < |bs| && inner < d < outer && InsideArc(s, |bs|, i, Fold(a)) ::
      HitTest(bs, rest, inner, outer, d, a) == Hit(i)
  {
    assert HitTest(bs, rest, inner, outer, d, a) == HitTestFixed(bs, rest, inner, outer, d, a);
    HitTestFixedSound(s, bs, inner, outer, d, a);
    forall i | 0 <= i < |bs| && inner < d < outer && InsideArc(s, |bs|, i, Fold(a))
      ensures HitTest(bs, rest, inner, outer, d, a) == Hit(i)
    {
      HitTestFixedComplete(s, bs, inner, outer, d, a, i);
    }
  }
}
