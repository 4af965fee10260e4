/**
 * The `RadialMenu` object (src/RadialMenu.js:71-643) with the state the
 * layout and the hit test work on: the resolved options, the `buttons`
 * array that `init` writes sector geometry into, and `rest`, the wrap
 * index `init` records and `getButton` retries.
 */
module RadialMenus {
  import opened Common
  import opened Angles
  import opened MenuOptions
  import opened SectorLayout
  import opened HitTesting

  /**
   * The `buttons` option: falsy (the defaults are used), an Array (used
   * as it is, not copied), or any other truthy value.
   */
  datatype ButtonsOption = NoButtons | ButtonArray(arr: array<Button>) | NotAnArray

  /** `"text" in button && "action" in button`. */
  predicate HasTextAndAction(b: Button) {
    b.text.Some? && b.action.Some?
  }

  /** The three buttons used when none are given; action k stands for `alert(k)`. */
  function DefaultButtons(): seq<Button> {
    [ Button(Some("\U{F000}"), Some(1), map[], None),
      Button(Some("\U{F001}"), Some(2), map[], None),
      Button(Some("\U{F002}"), Some(3), map[], None) ]
  }

  /** `checkButtons`: every button must carry a text and an action. */
  method CheckButtons(bs: array<Button>) returns (r: Outcome<MenuError>)
    ensures r.Pass? <==> forall i | 0 <= i < bs.Length :: HasTextAndAction(bs[i])
    ensures r.Fail? ==> r.error == ButtonWithoutTextOrAction
  {
    var i := 0;
    while i < bs.Length
      invariant 0 <= i <= bs.Length
      invariant forall j | 0 <= j < i :: HasTextAndAction(bs[j])
    {
      var button := bs[i];
      if button.text.None? || button.action.None? {
        return Fail(ButtonWithoutTextOrAction);
      }
      i := i + 1;
    }
    return Pass;
  }

  class RadialMenu {
    var fontFamily: string
    var fontSize: real
    var innerCircle: real
    var outerCircle: real
    var rotation: real
    var buttonGap: real
    var buttons: array<Button>
    /** `this.rest`; `None` while it is `undefined`. */
    var rest: Option<nat>

    /** The resolved options the menu holds. */
    function Config(): Settings
      reads this`fontFamily, this`fontSize, this`innerCircle, this`outerCircle, this`rotation, this`buttonGap
    {
      Settings(fontFamily, fontSize, innerCircle, outerCircle, rotation, buttonGap)
    }

    ghost predicate Valid()
      reads this
    {
      ValidSettings(Config())
    }

    /**
     * The part of the constructor after the options are resolved and the
     * buttons checked: store them, with `rest` undefined, and run `init`.
     */
    constructor (s: Settings, bs: array<Button>, cos: real -> real, sin: real -> real)
      requires ValidSettings(s)
      modifies bs
      ensures Valid() && Config() == s && buttons == bs
      ensures forall i | 0 <= i < bs.Length ::
        bs[i] == old(bs[i]).(geometry := Some(SectorAt(s, bs.Length, i, cos, sin)))
      ensures rest == RestAfterInit(None, s, bs.Length)
      ensures LaidOut(bs[..], s)
    {
      fontFamily, fontSize := s.fontFamily, s.fontSize;
      innerCircle, outerCircle := s.innerCircle, s.outerCircle;
      rotation, buttonGap := s.rotation, s.buttonGap;
      buttons := bs;
      rest := None;
      new;
      Init(cos, sin);
    }

    /**
     * `init`, without the canvas work: lay the buttons out around the
     * circle, writing each one's sector into it, and record in `rest` the
     * last button whose outer span wraps past 0. `rest` is not cleared
     * first, and nothing but the geometry of each button changes.
     */
    method Init(cos: real -> real, sin: real -> real)
      modifies this`rest, buttons
      ensures Config() == old(Config()) && Valid() == old(Valid())
      ensures forall i | 0 <= i < buttons.Length ::
        buttons[i] == old(buttons[i]).(geometry := Some(SectorAt(Config(), buttons.Length, i, cos, sin)))
      ensures rest == RestAfterInit(old(rest), Config(), buttons.Length)
      ensures LaidOut(buttons[..], Config())
    {
      var n := buttons.Length;
      var cfg := Config();
      // JavaScript divides by 0 here when there are no buttons; the loop
      // below then does not run and the quotient is never used.
      var step := if n > 0 then TwoPi / n as real else 0.0;
      var margin := buttonGap;
      // `innerMargin`: the gap measured on the inner circle, as InnerGap computes it.
      var innerMargin := InnerGap(cfg);
      ghost var orig := buttons[..];
      var i := 0;
      while i < n
        invariant 0 <= i <= n
        invariant forall j | 0 <= j < i ::
          buttons[j] == orig[j].(geometry := Some(SectorAt(cfg, n, j, cos, sin)))
        invariant forall j | i <= j < n :: buttons[j] == orig[j]
        invariant rest == if LastWrap(cfg, n, i).Some? then LastWrap(cfg, n, i) else old(rest)
      {
        var sector := LayOutButton(i, n, step, margin, innerMargin, cos, sin);
        assert sector.ini > sector.fin <==> IsWrap(cfg, n, i);
        assert LastWrap(cfg, n, i + 1) == if IsWrap(cfg, n, i) then Some(i) else LastWrap(cfg, n, i);
        if sector.ini > sector.fin {
          rest := Some(i);
        }
        assert rest == if LastWrap(cfg, n, i + 1).Some? then LastWrap(cfg, n, i + 1) else old(rest);
        var laid := buttons[i].(geometry := Some(sector));
        assert laid == orig[i].(geometry := Some(SectorAt(cfg, n, i, cos, sin)));
        ghost var before := buttons[..];
        buttons[i] := laid;
        assert buttons[..] == before[i := laid];
        i := i + 1;
      }
      assert Config() == cfg;
      SectorsLaidOut(buttons[..], cfg, cos, sin);
    }

    /** The body of `init`'s loop for button i: its sector, computed as the source does. */
    method LayOutButton(i: nat, n: nat, step: real, margin: real, innerMargin: Option<real>,
                        cos: real -> real, sin: real -> real) returns (sector: Sector)
      requires i < n && step == TwoPi / n as real && margin == buttonGap && innerMargin == InnerGap(Config())
      ensures sector == SectorAt(Config(), n, i, cos, sin)
    {
      ghost var cfg := Config();
      OffsetIsProduct(n, i);
      assert i as real * step + rotation + margin == Offset(n, i) + cfg.rotation + cfg.buttonGap;
      var ini := Mod2Pi(i as real * step + rotation + margin);
      assert ini + step - 2.0 * margin == OuterIni(cfg, n, i) + Step(n) - 2.0 * cfg.buttonGap;
      var fin := Mod2Pi(ini + step - 2.0 * margin);
      var iniInner, finInner := None, None;
      if innerMargin.Some? {
        var m := innerMargin.value;
        assert i as real * step + rotation + m == Offset(n, i) + cfg.rotation + m;
        var x := Mod2Pi(i as real * step + rotation + m);
        assert x + step - 2.0 * m == InnerIni(cfg, n, i).value + Step(n) - 2.0 * m;
        iniInner, finInner := Some(x), Some(Mod2Pi(x + step - 2.0 * m));
      }
      assert ini == OuterIni(cfg, n, i) && fin == OuterFin(cfg, n, i);
      assert iniInner == InnerIni(cfg, n, i) && finInner == InnerFin(cfg, n, i);
      var a := ini + step / 2.0 - margin;
      assert a == LabelAngle(cfg, n, i);
      var radius := innerCircle + (outerCircle - innerCircle) / 2.0;
      assert radius == LabelRadius(cfg);
      LabelAt(cfg, a, radius, cos, sin);
      var centerX := cos(a) * radius - fontSize / 2.0;
      var centerY := sin(a) * radius + fontSize / 4.0;
      sector := Sector(ini, fin, iniInner, finInner, centerX, centerY);
    }

    /**
     * `addButtons`: the new array replaces `buttons` before it is checked,
     * so a failed check leaves the menu holding the unchecked buttons, not
     * laid out and with `rest` as it was.
     */
    method AddButtons(bs: array<Button>, cos: real -> real, sin: real -> real) returns (r: Outcome<MenuError>)
      modifies this`buttons, this`rest, bs
      ensures buttons == bs
      ensures Config() == old(Config()) && Valid() == old(Valid())
      ensures r.Pass? <==> forall i | 0 <= i < bs.Length :: HasTextAndAction(old(bs[i]))
      ensures r.Fail? ==> r.error == ButtonWithoutTextOrAction && bs[..] == old(bs[..]) && rest == old(rest)
      ensures r.Pass? ==>
        && (forall i | 0 <= i < bs.Length ::
              bs[i] == old(bs[i]).(geometry := Some(SectorAt(Config(), bs.Length, i, cos, sin))))
        && rest == RestAfterInit(old(rest), Config(), bs.Length)
    {
      buttons := bs;
      r := CheckButtons(buttons);
      if r.Pass? {
        Init(cos, sin);
      }
    }

    /**
     * `getButton`, given the pointer's distance d to the centre and its
     * `atan2` angle a: the button whose sector holds the pointer, following
     * the hit test as written.
     */
    method GetButton(d: real, a: real) returns (r: HitResult)
      ensures r == HitTest(buttons[..], rest, innerCircle, outerCircle, d, a)
    {
      r := NoButton;
      if d > innerCircle && d < outerCircle {
        var angle := if a > 0.0 then a else TwoPi + a;
        var i := 0;
        while i < buttons.Length
          invariant 0 <= i <= buttons.Length
          invariant forall j | 0 <= j < i :: !Covers(buttons[j], angle)
        {
          var b := buttons[i];
          if b.geometry.Some? && angle >= b.geometry.value.ini && angle <= b.geometry.value.fin {
            r := Hit(i);
            break;
          }
          i := i + 1;
        }
        if r == NoButton && rest.Some? && rest.value != 0 {
          var w := rest.value;
          if w >= buttons.Length {
            // `this.buttons[this.rest]` is undefined and reading "ini" throws
            r := RestOutOfRange;
          } else {
            var b := buttons[w];
            if b.geometry.Some? {
              if angle < b.geometry.value.ini {
                angle := angle + TwoPi;
              }
              if angle >= b.geometry.value.ini && angle <= b.geometry.value.fin + TwoPi {
                r := Hit(w);
              }
            }
          }
        }
      }
    }
  }

  /**
   * The constructor as a whole: resolve the options, fall back to the
   * default buttons, check them, then lay them out. Any of the checks can
   * throw, in that order.
   */
  method NewRadialMenu(o: Options, buttons: ButtonsOption, cos: real -> real, sin: real -> real)
    returns (r: Result<RadialMenu, MenuError>)
    modifies if buttons.ButtonArray? then {buttons.arr} else {}
    ensures ResolveOptions(o).Failure? ==> r == Failure(ResolveOptions(o).error)
    ensures ResolveOptions(o).Success? && buttons.NotAnArray? ==> r == Failure(ButtonsNotAnArray)
    ensures ResolveOptions(o).Success? && buttons.ButtonArray? ==>
      (r.Success? <==> forall i | 0 <= i < buttons.arr.Length :: HasTextAndAction(old(buttons.arr[i])))
    ensures ResolveOptions(o).Success? && buttons.NoButtons? ==> r.Success?
    ensures ResolveOptions(o).Success? && buttons.ButtonArray? && r.Failure? ==>
      r.error == ButtonWithoutTextOrAction
    ensures r.Failure? && buttons.ButtonArray? ==> buttons.arr[..] == old(buttons.arr[..])
    ensures r.Success? ==>
      && fresh(r.value)
      && r.value.Valid()
      && r.value.Config() == ResolveOptions(o).value
      && r.value.rest == RestAfterInit(None, r.value.Config(), r.value.buttons.Length)
      && LaidOut(r.value.buttons[..], r.value.Config())
    ensures r.Success? && buttons.ButtonArray? ==>
      && r.value.buttons == buttons.arr
      && forall i | 0 <= i < buttons.arr.Length ::
           buttons.arr[i] == old(buttons.arr[i]).(geometry := Some(SectorAt(r.value.Config(), buttons.arr.Length, i, cos, sin)))
    ensures r.Success? && buttons.NoButtons? ==>
      && fresh(r.value.buttons)
      && r.value.buttons.Length == 3
      && forall i | 0 <= i < 3 ::
           r.value.buttons[i] == DefaultButtons()[i].(geometry := Some(SectorAt(r.value.Config(), 3, i, cos, sin)))
  {
    var settings := ResolveOptions(o);
    if settings.Failure? {
      return Failure(settings.error);
    }
    if buttons.NotAnArray? {
      return Failure(ButtonsNotAnArray);
    }
    var bs: array<Button>;
    if buttons.ButtonArray? {
      bs := buttons.arr;
    } else {
      var defaults := DefaultButtons();
      bs := new Button[3];
      bs[0], bs[1], bs[2] := defaults[0], defaults[1], defaults[2];
    }
    ghost var given := bs[..];
    assert buttons.NoButtons? ==> given == DefaultButtons();
    var check := CheckButtons(bs);
    if check.Fail? {
      return Failure(check.error);
    }
    var menu := new RadialMenu(settings.value, bs, cos, sin);
    assert forall i | 0 <= i < bs.Length ::
      bs[i] == given[i].(geometry := Some(SectorAt(settings.value, bs.Length, i, cos, sin)));
    return Success(menu);
  }
}
