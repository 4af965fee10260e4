/**
 * Consequences of the hit test as written that differ from what its
 * layout draws: the two ways the retry of the wrap sector goes wrong, the
 * fold of angle 0 to 2*PI, and a one-button menu without gap.
 */
module HitTestQuirks {
  import opened Common
  import opened Angles
  import opened MenuOptions
  import opened SectorLayout
  import opened HitTesting

  /**
   * When sector 0 is the one that wraps, `init` sets `rest` to 0, which is
   * falsy, so the retry never runs: a pointer strictly inside sector 0's
   * arc finds no button, where the intended test finds button 0.
   */
  lemma WrapAtZeroMissed(s: Settings, bs: seq<Button>, rest0: Option<nat>, inner: real, outer: real, d: real, a: real)
    requires ValidLayout(s, |bs|) && LaidOut(bs, s) && IsWrap(s, |bs|, 0)
    requires -Pi < a <= Pi && inner < d < outer
    requires InsideArc(s, |bs|, 0, Fold(a))
    ensures RestAfterInit(rest0, s, |bs|) == Some(0)
    ensures HitTest(bs, RestAfterInit(rest0, s, |bs|), inner, outer, d, a) == NoButton
    ensures HitTestFixed(bs, RestAfterInit(rest0, s, |bs|), inner, outer, d, a) == Hit(0)
  {
    var n, folded := |bs|, Fold(a);
    var w := LastWrap(s, n, n);
    AtMostOneWrap(s, n, 0, w.value);
    forall j | 0 <= j < n
      ensures !Covers(bs[j], folded)
    {
      CoversOnArc(s, bs, j, folded);
      if j != 0 {
        ArcsDisjoint(s, n, 0, j, folded);
      }
    }
    HitTestFixedComplete(s, bs, inner, outer, d, a, 0);
  }

  /**
   * Two buttons turned by PI + 0.5 without gap: sector 0 wraps, and a
   * pointer in the direction of its middle, 0.5 - PI/2, hits nothing.
   */
  lemma WrapAtZeroExample(bs: seq<Button>)
    requires |bs| == 2 && LaidOut(bs, Settings(DefaultFontFamily, 14.0, 50.0, 100.0, Pi + 0.5, 0.0))
    ensures HitTest(bs, RestAfterInit(None, Settings(DefaultFontFamily, 14.0, 50.0, 100.0, Pi + 0.5, 0.0), 2),
                    50.0, 100.0, 75.0, 0.5 - Pi / 2.0) == NoButton
  {
    var s := Settings(DefaultFontFamily, 14.0, 50.0, 100.0, Pi + 0.5, 0.0);
    assert ValidLayout(s, 2);
    WrapIff(s, 2, 0);
    WrapAtZeroMissed(s, bs, None, 50.0, 100.0, 75.0, 0.5 - Pi / 2.0);
  }

  /**
   * `init` keeps `rest` from an earlier layout when the new one has no
   * wrap sector. A stale index k then claims every ring point that lies on
   * no sector's arc (a point in a gap): the retry test holds for any
   * sector that does not wrap. A stale index past the end throws instead.
   * The intended test finds no button there.
   */
  lemma StaleRestClaimsGaps(s: Settings, bs: seq<Button>, k: nat, inner: real, outer: real, d: real, a: real)
    requires ValidLayout(s, |bs|) && LaidOut(bs, s)
    requires forall i | 0 <= i < |bs| :: !IsWrap(s, |bs|, i)
    requires k != 0 && -Pi < a <= Pi && inner < d < outer
    requires forall i | 0 <= i < |bs| :: !InArc(s, |bs|, i, Fold(a))
    ensures RestAfterInit(Some(k), s, |bs|) == Some(k)
    ensures HitTest(bs, Some(k), inner, outer, d, a) == if k < |bs| then Hit(k) else RestOutOfRange
    ensures HitTestFixed(bs, LastWrap(s, |bs|, |bs|), inner, outer, d, a) == NoButton
  {
    var n, folded := |bs|, Fold(a);
    forall j | 0 <= j < n
      ensures !Covers(bs[j], folded)
    {
      CoversOnArc(s, bs, j, folded);
    }
    if k < n {
      OuterAnglesInRange(s, n, k);
      var g := bs[k].geometry.value;
      assert !IsWrap(s, n, k);
      assert 0.0 <= g.ini <= g.fin < TwoPi;
      assert RetryCovers(bs[k], folded);
    }
  }

  /**
   * The settings of the example below: rotation PI/2 + 0.05 and a gap of
   * 0.1, with the default radii.
   */
  function StaleExampleSettings(): Settings {
    Settings(DefaultFontFamily, 14.0, 50.0, 100.0, Pi / 2.0 + 0.05, 0.1)
  }

  /**
   * Three buttons, then `addButtons` with four: the first layout sets
   * `rest` to 2, the second has no wrap sector and keeps it, and a pointer
   * at angle 0, which lies in the gap between buttons 2 and 3, selects
   * button 2.
   */
  lemma StaleRestExample(bs: seq<Button>)
    requires |bs| == 4 && LaidOut(bs, StaleExampleSettings())
    ensures RestAfterInit(None, StaleExampleSettings(), 3) == Some(2)
    ensures RestAfterInit(Some(2), StaleExampleSettings(), 4) == Some(2)
    ensures HitTest(bs, Some(2), 50.0, 100.0, 75.0, 0.0) == Hit(2)
  {
    var s := StaleExampleSettings();
    StaleExampleThreeButtons();
    forall i | 0 <= i < 4
      ensures !IsWrap(s, 4, i) && !InArc(s, 4, i, Fold(0.0))
    {
      StaleExampleFourButtons(i);
    }
    StaleRestClaimsGaps(s, bs, 2, 50.0, 100.0, 75.0, 0.0);
  }

  /** With three buttons, sector 2 of the example settings wraps. */
  lemma StaleExampleThreeButtons()
    ensures ValidLayout(StaleExampleSettings(), 3)
    ensures IsWrap(StaleExampleSettings(), 3, 2)
  {
    var s := StaleExampleSettings();
    assert Step(3) * 3.0 == TwoPi;
    WrapIff(s, 3, 2);
  }

  /** With four buttons, no sector of the example settings wraps, and angle 2*PI is on no arc. */
  lemma StaleExampleFourButtons(i: nat)
    requires i < 4
    ensures ValidLayout(StaleExampleSettings(), 4)
    ensures !IsWrap(StaleExampleSettings(), 4, i)
    ensures !InArc(StaleExampleSettings(), 4, i, TwoPi)
  {
    var s := StaleExampleSettings();
    assert Step(4) == Pi / 2.0;
    OffsetIsProduct(4, i);
    WrapIff(s, 4, i);
  }

  /**
   * Four buttons, no rotation, no gap: button 0's span is [0, PI/2], yet a
   * pointer on the positive x axis (angle 0, folded to 2*PI) selects button
   * 3, whose span ends at 2*PI.
   */
  lemma PositiveXAxisSelectsLastButton(bs: seq<Button>)
    requires |bs| == 4 && LaidOut(bs, Settings(DefaultFontFamily, 14.0, 50.0, 100.0, 0.0, 0.0))
    ensures RestAfterInit(None, Settings(DefaultFontFamily, 14.0, 50.0, 100.0, 0.0, 0.0), 4) == Some(3)
    ensures HitTest(bs, Some(3), 50.0, 100.0, 75.0, 0.0) == Hit(3)
  {
    var s := Settings(DefaultFontFamily, 14.0, 50.0, 100.0, 0.0, 0.0);
    assert ValidLayout(s, 4);
    WrapIff(s, 4, 3);
    forall j | 0 <= j < 4
      ensures !Covers(bs[j], TwoPi)
    {
      CoversOnArc(s, bs, j, TwoPi);
    }
    RetryIff(s, bs, 3, TwoPi);
  }

  /**
   * With two or more buttons, no rotation and no gap, the last button's
   * unreduced span ends at 2*PI, so it is the wrap sector recorded in
   * `rest`, and a pointer on the positive x axis selects it.
   */
  lemma PositiveXAxisSelectsLast(s: Settings, bs: seq<Button>, inner: real, outer: real, d: real)
    requires |bs| >= 2 && LaidOut(bs, s)
    requires s.rotation == 0.0 && s.buttonGap == 0.0
    requires inner < d < outer
    ensures RestAfterInit(None, s, |bs|) == Some(|bs| - 1)
    ensures HitTest(bs, Some(|bs| - 1), inner, outer, d, 0.0) == Hit(|bs| - 1)
  {
    var n := |bs|;
    assert ValidLayout(s, n);
    OffsetAdd(n, n - 1, 1);
    FullTurn(n);
    WrapIff(s, n, n - 1);
    forall j | 0 <= j < n
      ensures !Covers(bs[j], TwoPi)
    {
      CoversOnArc(s, bs, j, TwoPi);
    }
    RetryIff(s, bs, n - 1, TwoPi);
  }

  /**
   * A single button without gap gets `ini == fin == rotation`, so it is hit
   * only by a pointer at exactly that angle; with the default rotation 0
   * (folded angles are never 0) it is never hit.
   */
  lemma SingleButtonWithoutGap(s: Settings, bs: seq<Button>, inner: real, outer: real, d: real, a: real)
    requires |bs| == 1 && LaidOut(bs, s)
    requires s.buttonGap == 0.0 && 0.0 <= s.rotation < TwoPi
    requires inner < d < outer
    ensures RestAfterInit(None, s, 1) == None
    ensures HitTest(bs, None, inner, outer, d, a) == if Fold(a) == s.rotation then Hit(0) else NoButton
  {
    Mod2PiOnTwoTurns(s.rotation);
    Mod2PiOnTwoTurns(s.rotation + TwoPi);
    assert OuterIni(s, 1, 0) == s.rotation;
  }
}
