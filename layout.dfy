/**
 * The sector layout computed by `init` (src/RadialMenu.js:181-263): the
 * split of a full turn into one sector per button, the outer and inner
 * angles of each sector, its label anchor, and the wrap sector recorded in
 * `rest`.
 */
module SectorLayout {
  import opened Common
  import opened Angles
  import opened MenuOptions

  /**
   * The values `init` writes into a button: the outer angles `ini`/`fin`,
   * the inner angles `ini_inner`/`fin_inner` (`None` where JavaScript gets
   * `NaN`, which happens when the outer radius is 0) and the label anchor
   * `centerX`/`centerY`.
   */
  datatype Sector = Sector(
    ini: real,
    fin: real,
    iniInner: Option<real>,
    finInner: Option<real>,
    centerX: real,
    centerY: real)

  /**
   * A button object: the `text` and `action` keys (absent or present), the
   * per-button style keys, and the geometry `init` adds to it (absent until
   * the button has been laid out). `action` identifies the callback.
   */
  datatype Button = Button(
    text: Option<string>,
    action: Option<nat>,
    style: map<string, string>,
    geometry: Option<Sector>)

  /** `step = TWOPI / buttons.length`: n steps make exactly one turn. */
  function Step(n: nat): (r: real)
    requires n > 0
    ensures r > 0.0
  {
    TwoPi / n as real
  }

  /**
   * `i * step`, the start of button i's step, written as i steps laid end
   * to end so that reasoning about it stays linear; OffsetIsProduct shows
   * it is the product.
   */
  function Offset(n: nat, i: nat): (r: real)
    requires n > 0
    ensures r >= 0.0
    ensures i > 0 ==> r >= Step(n)
  {
    if i == 0 then 0.0 else Offset(n, i - 1) + Step(n)
  }

  lemma {:induction false} OffsetIsProduct(n: nat, i: nat)
    requires n > 0
    ensures Offset(n, i) == i as real * Step(n)
  {
    if i > 0 {
      OffsetIsProduct(n, i - 1);
      assert (i - 1) as real * Step(n) + Step(n) == i as real * Step(n);
    }
  }

  /** Offsets add up: j + k steps are j steps followed by k steps. */
  lemma {:induction false} OffsetAdd(n: nat, j: nat, k: nat)
    requires n > 0
    ensures Offset(n, j + k) == Offset(n, j) + Offset(n, k)
  {
    if k > 0 {
      OffsetAdd(n, j, k - 1);
    }
  }

  /** n steps make exactly one turn. */
  lemma FullTurn(n: nat)
    requires n > 0
    ensures Offset(n, n) == TwoPi
  {
    OffsetIsProduct(n, n);
  }

  /** `ini` of button i: `(i * step + rotation + margin) % TWOPI`. */
  function OuterIni(s: Settings, n: nat, i: nat): (r: real)
    requires i < n
    ensures s.rotation + s.buttonGap >= 0.0 ==> 0.0 <= r < TwoPi
  {
    Mod2Pi(Offset(n, i) + s.rotation + s.buttonGap)
  }

  /** `fin` of button i: `(ini + step - 2 * margin) % TWOPI`. */
  function OuterFin(s: Settings, n: nat, i: nat): real
    requires i < n
  {
    Mod2Pi(OuterIni(s, n, i) + Step(n) - 2.0 * s.buttonGap)
  }

  /**
   * `innerMargin = margin * Math.PI * innerCircle / outerCircle`; with an
   * outer radius of 0 JavaScript computes `NaN` here.
   */
  function InnerGap(s: Settings): (r: Option<real>)
    ensures r.None? <==> s.outerCircle == 0.0
  {
    if s.outerCircle == 0.0 then None
    else Some(s.buttonGap * Pi * s.innerCircle / s.outerCircle)
  }

  /** `ini_inner` of button i (`None` for `NaN`). */
  function InnerIni(s: Settings, n: nat, i: nat): (r: Option<real>)
    requires i < n
    ensures r.None? <==> s.outerCircle == 0.0
  {
    match InnerGap(s)
    case None => None
    case Some(g) => Some(Mod2Pi(Offset(n, i) + s.rotation + g))
  }

  /** `fin_inner` of button i (`None` for `NaN`). */
  function InnerFin(s: Settings, n: nat, i: nat): (r: Option<real>)
    requires i < n
    ensures r.None? <==> s.outerCircle == 0.0
  {
    match InnerGap(s)
    case None => None
    case Some(g) => Some(Mod2Pi(InnerIni(s, n, i).value + Step(n) - 2.0 * g))
  }

  /** The angle of the label anchor, `ini + step / 2 - margin`. */
  function LabelAngle(s: Settings, n: nat, i: nat): real
    requires i < n
  {
    OuterIni(s, n, i) + Step(n) / 2.0 - s.buttonGap
  }

  /** The radius of the label anchor, halfway across the ring. */
  function LabelRadius(s: Settings): real {
    s.innerCircle + (s.outerCircle - s.innerCircle) / 2.0
  }

  /**
   * Everything `init` writes into button i of n; `cos` and `sin` stand for
   * `Math.cos` and `Math.sin`.
   */
  function SectorAt(s: Settings, n: nat, i: nat, cos: real -> real, sin: real -> real): Sector
    requires i < n
  {
    Sector(
      OuterIni(s, n, i),
      OuterFin(s, n, i),
      InnerIni(s, n, i),
      InnerFin(s, n, i),
      LabelX(s, LabelAngle(s, n, i), cos),
      LabelY(s, LabelAngle(s, n, i), sin))
  }

  /** `centerX` of a label at angle a: `Math.cos(a) * radius - fontSize / 2`. */
  function LabelX(s: Settings, a: real, cos: real -> real): real {
    cos(a) * LabelRadius(s) - s.fontSize / 2.0
  }

  /** `centerY` of a label at angle a: `Math.sin(a) * radius + fontSize / 4`. */
  function LabelY(s: Settings, a: real, sin: real -> real): real {
    sin(a) * LabelRadius(s) + s.fontSize / 4.0
  }

  /** Button i's outer span wraps past angle 0: `ini > fin`. */
  predicate IsWrap(s: Settings, n: nat, i: nat)
    requires i < n
  {
    OuterIni(s, n, i) > OuterFin(s, n, i)
  }

  /** The last index below k whose sector wraps, if any. */
  function LastWrap(s: Settings, n: nat, k: nat): (r: Option<nat>)
    requires k <= n
    ensures r.Some? ==> r.value < k && IsWrap(s, n, r.value)
    ensures r.Some? ==> forall j | r.value < j < k :: !IsWrap(s, n, j)
    ensures r.None? ==> forall j | 0 <= j < k :: !IsWrap(s, n, j)
    decreases k
  {
    if k == 0 then None
    else if IsWrap(s, n, k - 1) then Some(k - 1)
    else LastWrap(s, n, k - 1)
  }

  /**
   * `rest` after `init` over n buttons: the largest wrapping index when
   * some sector wraps; otherwise whatever `rest` held before, since `init`
   * never clears it.
   */
  function RestAfterInit(rest: Option<nat>, s: Settings, n: nat): (r: Option<nat>)
    ensures (exists i | 0 <= i < n :: IsWrap(s, n, i)) ==>
      && r.Some? && r.value < n && IsWrap(s, n, r.value)
      && forall j | r.value < j < n :: !IsWrap(s, n, j)
    ensures (forall i | 0 <= i < n :: !IsWrap(s, n, i)) ==> r == rest
  {
    var w := LastWrap(s, n, n);
    if w.Some? then w else rest
  }

  /**
   * Solver aid, not a property: unfolds LabelX and LabelY for the radius
   * `init` computes, so that LayOutButton can match its arithmetic.
   */
  lemma LabelAt(s: Settings, a: real, radius: real, cos: real -> real, sin: real -> real)
    requires radius == LabelRadius(s)
    ensures LabelX(s, a, cos) == cos(a) * radius - s.fontSize / 2.0
    ensures LabelY(s, a, sin) == sin(a) * radius + s.fontSize / 4.0
  {
  }

  /** The outer angles of every button in bs are those `init` computes for |bs| buttons. */
  predicate LaidOut(bs: seq<Button>, s: Settings) {
    forall i | 0 <= i < |bs| ::
      && bs[i].geometry.Some?
      && bs[i].geometry.value.ini == OuterIni(s, |bs|, i)
      && bs[i].geometry.value.fin == OuterFin(s, |bs|, i)
  }

  /**
   * Solver aid, not a property: unfolds LaidOut for buttons carrying the
   * sectors `init` computes, so that Init can conclude it after its loop.
   */
  lemma SectorsLaidOut(bs: seq<Button>, s: Settings, cos: real -> real, sin: real -> real)
    requires forall i | 0 <= i < |bs| :: bs[i].geometry == Some(SectorAt(s, |bs|, i, cos, sin))
    ensures LaidOut(bs, s)
  {
  }

  /**
   * When the rotation and the gap are non-negative and two gaps fit in a
   * step, every outer angle lies in [0, 2*PI).
   */
  lemma OuterAnglesInRange(s: Settings, n: nat, i: nat)
    requires i < n
    requires s.rotation >= 0.0 && s.buttonGap >= 0.0 && 2.0 * s.buttonGap <= Step(n)
    ensures 0.0 <= OuterIni(s, n, i) < TwoPi
    ensures 0.0 <= OuterFin(s, n, i) < TwoPi
  {
    StepBounds(n, i);
  }

  /**
   * The inner gap is wider than the outer one exactly when the inner
   * radius exceeds outer / PI: the formula scales by PI * inner / outer,
   * which is above 1 for rings thinner than that.
   */
  lemma InnerGapWiderIff(s: Settings)
    requires s.buttonGap > 0.0 && s.innerCircle >= 0.0 && s.outerCircle > 0.0
    ensures InnerGap(s).Some?
    ensures InnerGap(s).value > s.buttonGap <==> Pi * s.innerCircle > s.outerCircle
  {
    var g, inner, outer := s.buttonGap, s.innerCircle, s.outerCircle;
    var q := Pi * inner / outer;
    assert InnerGap(s).value == g * q;
    assert q * outer == Pi * inner;
    if q > 1.0 {
      assert g * q > g * 1.0;
      assert q * outer > 1.0 * outer;
    } else {
      assert g * q <= g * 1.0;
      assert q * outer <= 1.0 * outer;
    }
  }

  // ---------------------------------------------------------------------
  // Sectors before the reduction modulo 2*PI. For a well-formed layout
  // (rotation in [0, 2*PI), gap >= 0, two gaps narrower than a step, and a
  // sector narrower than a full turn), sector i spans the unreduced
  // interval [RawStart, RawEnd]; the sectors follow each other around the
  // circle without overlapping, and `ini`/`fin` are these ends taken
  // modulo one turn.
  // ---------------------------------------------------------------------

  predicate ValidLayout(s: Settings, n: nat) {
    && n > 0
    && 0.0 <= s.rotation < TwoPi
    && 0.0 <= s.buttonGap
    && 2.0 * s.buttonGap < Step(n)
    && (n >= 2 || s.buttonGap > 0.0)
  }

  function RawStart(s: Settings, n: nat, i: nat): real
    requires n > 0
  {
    Offset(n, i) + s.rotation + s.buttonGap
  }

  function RawEnd(s: Settings, n: nat, i: nat): real
    requires n > 0
  {
    RawStart(s, n, i) + Step(n) - 2.0 * s.buttonGap
  }

  /** One turn taken off an angle of the second lap. */
  function Lap(x: real): real {
    if x < TwoPi then x else x - TwoPi
  }

  /** Angle A (in (0, 2*PI]) lies on sector i's arc, ends included. */
  predicate InArc(s: Settings, n: nat, i: nat, a: real)
    requires n > 0
  {
    || RawStart(s, n, i) <= a <= RawEnd(s, n, i)
    || RawStart(s, n, i) <= a + TwoPi <= RawEnd(s, n, i)
  }

  /** Angle A lies strictly inside sector i's arc. */
  predicate InsideArc(s: Settings, n: nat, i: nat, a: real)
    requires n > 0
  {
    || RawStart(s, n, i) < a < RawEnd(s, n, i)
    || RawStart(s, n, i) < a + TwoPi < RawEnd(s, n, i)
  }

  /** Every button's step lies within the first turn. */
  lemma StepBounds(n: nat, i: nat)
    requires i < n
    ensures Offset(n, i) + Step(n) <= TwoPi
  {
    OffsetAdd(n, i + 1, n - i - 1);
    FullTurn(n);
  }

  /** A later button's step starts after an earlier one's ends, less than a turn on. */
  lemma StepOrder(n: nat, j: nat, i: nat)
    requires j < i < n
    ensures Offset(n, j) + Step(n) <= Offset(n, i)
    ensures Offset(n, i) - Offset(n, j) + Step(n) <= TwoPi
  {
    OffsetAdd(n, j + 1, i - j - 1);
    OffsetAdd(n, j, i - j);
    StepBounds(n, i - j);
  }

  /** Each sector's ends lie within two turns, in order, less than a turn apart. */
  lemma RawBounds(s: Settings, n: nat, i: nat)
    requires ValidLayout(s, n) && i < n
    ensures 0.0 <= RawStart(s, n, i) < RawEnd(s, n, i) < 2.0 * TwoPi
    ensures RawEnd(s, n, i) - RawStart(s, n, i) < TwoPi
  {
    StepBounds(n, i);
  }

  /** `ini` and `fin` are the sector's unreduced ends, each reduced by at most one turn. */
  lemma ReducedEnds(s: Settings, n: nat, i: nat)
    requires ValidLayout(s, n) && i < n
    ensures OuterIni(s, n, i) == Lap(RawStart(s, n, i))
    ensures OuterFin(s, n, i) == Lap(RawEnd(s, n, i))
  {
    RawBounds(s, n, i);
    var start, end := RawStart(s, n, i), RawEnd(s, n, i);
    Mod2PiOnTwoTurns(start);
    Mod2PiOnTwoTurns(end);
    if start >= TwoPi {
      Mod2PiOnTwoTurns(end - TwoPi);
    }
  }

  /** The label angle, put back on the sector's lap, lies strictly inside the sector's arc. */
  lemma LabelAngleInside(s: Settings, n: nat, i: nat)
    requires ValidLayout(s, n) && i < n
    ensures var mid := LabelAngle(s, n, i) + (if RawStart(s, n, i) >= TwoPi then TwoPi else 0.0);
      RawStart(s, n, i) < mid < RawEnd(s, n, i)
  {
    RawBounds(s, n, i);
    ReducedEnds(s, n, i);
  }

  /** An `atan2` angle in the direction of sector i's label folds strictly inside its arc. */
  lemma LabelDirectionInside(s: Settings, n: nat, i: nat, k: int)
    requires ValidLayout(s, n) && i < n
    requires -Pi < LabelAngle(s, n, i) + TwoPi * k as real <= Pi
    ensures InsideArc(s, n, i, Fold(LabelAngle(s, n, i) + TwoPi * k as real))
  {
    RawBounds(s, n, i);
    LabelAngleInside(s, n, i);
    var lapped := RawStart(s, n, i) >= TwoPi;
    var mid := LabelAngle(s, n, i) + (if lapped then TwoPi else 0.0);
    FoldSameDirection(LabelAngle(s, n, i) + TwoPi * k as real, mid, if lapped then k - 1 else k);
  }

  /** A sector wraps exactly when its unreduced span crosses 2*PI. */
  lemma WrapIff(s: Settings, n: nat, i: nat)
    requires ValidLayout(s, n) && i < n
    ensures IsWrap(s, n, i) <==> RawStart(s, n, i) < TwoPi <= RawEnd(s, n, i)
  {
    RawBounds(s, n, i);
    ReducedEnds(s, n, i);
  }

  /** Sectors follow each other: a later sector starts after an earlier one ends, within a turn. */
  lemma RawOrder(s: Settings, n: nat, j: nat, i: nat)
    requires ValidLayout(s, n) && j < i < n
    ensures RawEnd(s, n, j) <= RawStart(s, n, i)
    ensures RawEnd(s, n, i) <= RawStart(s, n, j) + TwoPi
  {
    StepOrder(n, j, i);
    SpansInOrder(Offset(n, j), Offset(n, i), Step(n), s.rotation, s.buttonGap);
  }

  /** Sector i ends two gaps before sector i + 1 starts: a margin after the one, a margin before the other. */
  lemma SectorsAdjoin(s: Settings, n: nat, i: nat)
    requires i + 1 < n
    ensures RawStart(s, n, i + 1) == RawEnd(s, n, i) + 2.0 * s.buttonGap
  {
  }

  /** The last sector ends two gaps short of the first one's start a turn later: sectors and gaps make one turn. */
  lemma LayoutClosesTurn(s: Settings, n: nat)
    requires n > 0
    ensures RawStart(s, n, 0) + TwoPi == RawEnd(s, n, n - 1) + 2.0 * s.buttonGap
  {
    OffsetAdd(n, n - 1, 1);
    FullTurn(n);
  }

  /** A point of the first m steps lies on one of them. */
  lemma {:induction false} StepContaining(n: nat, m: nat, y: real) returns (i: nat)
    requires 0 < m <= n
    requires 0.0 <= y <= Offset(n, m)
    ensures i < m && Offset(n, i) <= y <= Offset(n, i) + Step(n)
  {
    if m == 1 || y >= Offset(n, m - 1) {
      i := m - 1;
    } else {
      i := StepContaining(n, m - 1, y);
    }
  }

  /** Without a gap the sectors leave no angle uncovered: every angle of (0, 2*PI] is on some arc. */
  lemma NoGapCoversTurn(s: Settings, n: nat, a: real)
    requires ValidLayout(s, n) && s.buttonGap == 0.0
    requires 0.0 < a <= TwoPi
    ensures exists i | 0 <= i < n :: InArc(s, n, i, a)
  {
    FullTurn(n);
    var x := if a >= s.rotation then a else a + TwoPi;
    var i := StepContaining(n, n, x - s.rotation);
    assert InArc(s, n, i, a);
  }

  /** Two spans of width st - 2g starting g after offsets sj and si, at least a step and at most a turn apart. */
  lemma SpansInOrder(sj: real, si: real, st: real, r: real, g: real)
    requires sj + st <= si && si - sj + st <= TwoPi && g >= 0.0
    ensures sj + r + g + st - 2.0 * g <= si + r + g
    ensures si + r + g + st - 2.0 * g <= sj + r + g + TwoPi
  {
  }

  /** At most one sector of a well-formed layout wraps past angle 0. */
  lemma AtMostOneWrap(s: Settings, n: nat, i: nat, j: nat)
    requires ValidLayout(s, n) && i < n && j < n
    requires IsWrap(s, n, i) && IsWrap(s, n, j)
    ensures i == j
  {
    WrapIff(s, n, i);
    WrapIff(s, n, j);
    if i < j {
      RawOrder(s, n, i, j);
    } else if j < i {
      RawOrder(s, n, j, i);
    }
  }

  /**
   * A point strictly inside sector i is, however many turns it is shifted
   * by, on no other sector's unreduced span.
   */
  lemma Separated(s: Settings, n: nat, i: nat, j: nat, x: real, k: int)
    requires ValidLayout(s, n) && i < n && j < n && i != j
    requires RawStart(s, n, i) < x < RawEnd(s, n, i)
    ensures !(RawStart(s, n, j) <= x + TwoPi * k as real <= RawEnd(s, n, j))
  {
    RawBounds(s, n, i);
    RawBounds(s, n, j);
    if j < i {
      RawOrder(s, n, j, i);
    } else {
      RawOrder(s, n, i, j);
    }
    if k >= 1 {
      assert TwoPi * k as real >= TwoPi;
    } else if k <= -1 {
      assert TwoPi * k as real <= -TwoPi;
    }
  }

  /** Sector arcs overlap nowhere but at shared ends: a point strictly inside one is on no other. */
  lemma ArcsDisjoint(s: Settings, n: nat, i: nat, j: nat, a: real)
    requires ValidLayout(s, n) && i < n && j < n && i != j
    requires InsideArc(s, n, i, a)
    ensures !InArc(s, n, j, a)
  {
    if RawStart(s, n, i) < a < RawEnd(s, n, i) {
      Separated(s, n, i, j, a, 0);
      Separated(s, n, i, j, a, 1);
    } else {
      Separated(s, n, i, j, a + TwoPi, -1);
      Separated(s, n, i, j, a + TwoPi, 0);
    }
  }
}
