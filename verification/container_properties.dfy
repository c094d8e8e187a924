/** Properties of the `Container` style computation: how scroll tokens are
    read, which keys always override the caller's base style and which only
    do so when their prop is given, and how the layers are ordered. */
module ContainerProperties {
  import opened Wrappers
  import opened JsStrings
  import opened Styles
  import opened Container

  // ----- Scroll tokens -----

  /** An `x-` or `y-` token selects one axis: that axis gets the piece after
      the hyphen, and the other axis and `overflow` are written as
      `undefined`. */
  lemma {:induction false} AxisQualifiedScroll(axis: char, v: string)
    requires axis == 'x' || axis == 'y'
    ensures var r := ScrollStyles(Some([axis, '-'] + v));
      && r[OverflowX] == (if axis == 'x' then Str(Split(v, '-')[0]) else Undefined)
      && r[OverflowY] == (if axis == 'y' then Str(Split(v, '-')[0]) else Undefined)
      && r[Overflow] == Undefined
  {
    var s := [axis, '-'] + v;
    assert s[..2] == [axis, '-'];
    assert s[1] == '-';
    assert IndexOf(s, '-') == 1;
    assert s[..1] == [axis];
    assert s[2..] == v;
    assert Split(s, '-') == [[axis]] + Split(v, '-');
  }

  /** A token without a hyphen sets the unqualified `overflow`; both axis
      keys are written as `undefined`. */
  lemma UnqualifiedScroll(s: string)
    requires '-' !in s
    ensures ScrollStyles(Some(s)) == map[OverflowX := Undefined, OverflowY := Undefined, Overflow := Str(s)]
  {
  }

  /** A token with a hyphen but no `x-` or `y-` prefix (`z-auto`, `-x`)
      sets no overflow: all three keys are written as `undefined`. */
  lemma OtherHyphenatedScroll(s: string)
    requires '-' in s && !StartsWith(s, "x-") && !StartsWith(s, "y-")
    ensures ScrollStyles(Some(s)) == map[OverflowX := Undefined, OverflowY := Undefined, Overflow := Undefined]
  {
  }

  /** An absent `scroll` also writes all three keys as `undefined`. With
      `AxisQualifiedScroll`, `UnqualifiedScroll` and `OtherHyphenatedScroll`
      this covers every value of the prop. */
  lemma AbsentScroll()
    ensures ScrollStyles(None) == map[OverflowX := Undefined, OverflowY := Undefined, Overflow := Undefined]
  {
  }

  /** The nine tokens the `scroll` prop's type admits, as data. */
  datatype Axis = Both | X | Y
  datatype OverflowKind = Auto | Scroll | Hidden
  datatype ScrollToken = ScrollToken(axis: Axis, overflow: OverflowKind)

  function OverflowName(o: OverflowKind): string
  {
    match o
    case Auto => "auto"
    case Scroll => "scroll"
    case Hidden => "hidden"
  }

  /** How a token is written: `auto`, `x-scroll`, `y-hidden`, ... */
  function TokenText(t: ScrollToken): string
  {
    match t.axis
    case Both => OverflowName(t.overflow)
    case X => "x-" + OverflowName(t.overflow)
    case Y => "y-" + OverflowName(t.overflow)
  }

  /** What a token is meant to do: set the overflow of its axis, or of both
      axes, and write the other overflow keys as `undefined`. */
  function IntendedScroll(t: ScrollToken): Style
  {
    var v := Str(OverflowName(t.overflow));
    map[
      OverflowX := if t.axis == X then v else Undefined,
      OverflowY := if t.axis == Y then v else Undefined,
      Overflow := if t.axis == Both then v else Undefined
    ]
  }

  /** `scrollStyles` reads every admitted token as intended. */
  lemma ScrollTokenReadsAsIntended(t: ScrollToken)
    ensures ScrollStyles(Some(TokenText(t))) == IntendedScroll(t)
  {
    var name := OverflowName(t.overflow);
    assert '-' !in name;
    match t.axis
    case Both =>
      UnqualifiedScroll(name);
    case X =>
      AxisQualifiedScroll('x', name);
      assert ['x', '-'] + name == TokenText(t);
    case Y =>
      AxisQualifiedScroll('y', name);
      assert ['y', '-'] + name == TokenText(t);
  }

  /** Different tokens produce different overflow layers. */
  lemma ScrollTokensDistinct(t1: ScrollToken, t2: ScrollToken)
    requires t1 != t2
    ensures ScrollStyles(Some(TokenText(t1))) != ScrollStyles(Some(TokenText(t2)))
  {
    ScrollTokenReadsAsIntended(t1);
    ScrollTokenReadsAsIntended(t2);
    var i1 := IntendedScroll(t1);
    var i2 := IntendedScroll(t2);
    if t1.axis == t2.axis {
      assert t1.overflow != t2.overflow;
      match t1.axis
      case Both => assert i1[Overflow] != i2[Overflow];
      case X => assert i1[OverflowX] != i2[OverflowX];
      case Y => assert i1[OverflowY] != i2[OverflowY];
    } else {
      match t1.axis
      case Both => assert i1[Overflow] != i2[Overflow];
      case X => assert i1[OverflowX] != i2[OverflowX];
      case Y => assert i1[OverflowY] != i2[OverflowY];
    }
  }

  // ----- The merged style -----

  /** A key the shorthand layers write takes their value, whatever the base
      style held. */
  lemma WrittenKeyOverridden(p: Props, theme: Theme, k: Key)
    requires Writes(p.style, k)
    ensures k in MergedSx(p, theme) && MergedSx(p, theme)[k] == ShorthandValue(p.style, k)
  {
    WrittenKeyValue(p.style, k);
  }

  /** The merged style agrees with the base style at `k`. */
  ghost predicate KeptFromBase(p: Props, theme: Theme, k: Key) {
    && (k in MergedSx(p, theme) <==> k in BaseSx(p.sx, theme))
    && (k in BaseSx(p.sx, theme) ==> MergedSx(p, theme)[k] == BaseSx(p.sx, theme)[k])
  }

  /** A key no shorthand layer writes is left as the base style has it. */
  lemma UnwrittenKeyKept(p: Props, theme: Theme, k: Key)
    requires !Writes(p.style, k)
    ensures KeptFromBase(p, theme, k)
  {
    UnwrittenKeyAbsent(p.style, k);
  }

  /** The merged style has the base style's keys and the written keys, and
      no others. */
  lemma MergedKeys(p: Props, theme: Theme, k: Key)
    ensures k in MergedSx(p, theme) <==> k in BaseSx(p.sx, theme) || Writes(p.style, k)
  {
    if Writes(p.style, k) {
      WrittenKeyOverridden(p, theme, k);
    } else {
      UnwrittenKeyKept(p, theme, k);
    }
  }

  /** The merged style is an object: no property name appears under two
      keys, for instance as both `Position` and `Named("position")`. */
  lemma MergedNamesDistinct(p: Props, theme: Theme, k1: Key, k2: Key)
    requires k1 in MergedSx(p, theme) && k2 in MergedSx(p, theme)
    requires KeyName(k1) == KeyName(k2)
    ensures k1 == k2
  {
  }

  /** The three overflow keys in the merged style always come from
      `scrollStyles`, whatever the base style held. */
  lemma ScrollAlwaysOverridesBase(p: Props, theme: Theme, k: Key)
    requires k in OverflowKeys
    ensures k in MergedSx(p, theme) && MergedSx(p, theme)[k] == ScrollStyles(p.style.scroll)[k]
  {
    WrittenKeyOverridden(p, theme, k);
  }

  /** With no `scroll` prop the merged style still holds all three overflow
      keys, as `undefined`: an overflow set in the base style is cleared. */
  lemma AbsentScrollClearsOverflow(p: Props, theme: Theme)
    requires p.style.scroll.None?
    ensures forall k :: k in OverflowKeys ==> k in MergedSx(p, theme) && MergedSx(p, theme)[k] == Undefined
  {
    forall k | k in OverflowKeys
      ensures k in MergedSx(p, theme) && MergedSx(p, theme)[k] == Undefined
    {
      ScrollAlwaysOverridesBase(p, theme, k);
    }
  }

  /** `position` is overridden only by a truthy `pos`; otherwise the base
      style's `position`, present or absent, is what the merged style has. */
  lemma PositionOnlyWhenGiven(p: Props, theme: Theme)
    ensures StringTruthy(p.style.pos) ==>
      Position in MergedSx(p, theme) && MergedSx(p, theme)[Position] == Str(p.style.pos.value)
    ensures !StringTruthy(p.style.pos) ==> KeptFromBase(p, theme, Position)
  {
    if StringTruthy(p.style.pos) {
      WrittenKeyOverridden(p, theme, Position);
    } else {
      UnwrittenKeyKept(p, theme, Position);
    }
  }

  /** `color`, `backgroundColor` and `pointerEvents` are always written; the
      pointer-events value is `unset`, `none` or `all` for an absent, false or
      true `pEvents`. */
  lemma ColorStylesAlwaysWritten(p: Props, theme: Theme)
    ensures Color in MergedSx(p, theme) && MergedSx(p, theme)[Color] == OrUndefined(p.style.color)
    ensures BackgroundColor in MergedSx(p, theme)
    ensures MergedSx(p, theme)[BackgroundColor] == OrUndefined(p.style.bg)
    ensures PointerEvents in MergedSx(p, theme)
    ensures MergedSx(p, theme)[PointerEvents] == Str(if p.style.pEvents.None? then "unset"
                                                       else if p.style.pEvents == Some(false) then "none"
                                                       else "all")
  {
    WrittenKeyOverridden(p, theme, Color);
    WrittenKeyOverridden(p, theme, BackgroundColor);
    WrittenKeyOverridden(p, theme, PointerEvents);
  }

  /** `borderRadius` is always written: the table entry for `rounded`, or
      `undefined` when `rounded` is absent or off the table. */
  lemma RadiusAlwaysWritten(p: Props, theme: Theme)
    ensures BorderRadius in MergedSx(p, theme)
    ensures p.style.rounded.None? ==> MergedSx(p, theme)[BorderRadius] == Undefined
    ensures p.style.rounded.Some? && 0 <= p.style.rounded.value <= 6 ==>
      MergedSx(p, theme)[BorderRadius] == Str(RadiusTable[p.style.rounded.value])
    ensures p.style.rounded.Some? && !(0 <= p.style.rounded.value <= 6) ==>
      MergedSx(p, theme)[BorderRadius] == Undefined
  {
    hide MergedSx, Spread, ShorthandLayers, AllLayers;
    WrittenKeyOverridden(p, theme, BorderRadius);
  }

  /** The radius table, entry by entry; distinct sizes give distinct radii. */
  lemma RadiusTableEntries()
    ensures RadiusOf(Some(0)) == Str("0rem") && RadiusOf(Some(1)) == Str("0.25rem")
    ensures RadiusOf(Some(2)) == Str("0.375rem") && RadiusOf(Some(3)) == Str("0.5rem")
    ensures RadiusOf(Some(4)) == Str("1rem") && RadiusOf(Some(5)) == Str("2rem")
    ensures RadiusOf(Some(6)) == Str("50%")
    ensures forall i, j :: 0 <= i < j < |RadiusTable| ==> RadiusTable[i] != RadiusTable[j]
  {
  }

  /** The boolean flag props and the one declaration each may add. */
  datatype Flag = CursorPointer | Wrap | Grow

  function FlagProp(s: Shorthands, f: Flag): Option<bool>
  {
    match f
    case CursorPointer => s.cursorPointer
    case Wrap => s.wrap
    case Grow => s.grow
  }

  function FlagKey(f: Flag): Key
  {
    match f
    case CursorPointer => Cursor
    case Wrap => FlexWrap
    case Grow => FlexGrow
  }

  function FlagValue(f: Flag): Value
  {
    match f
    case CursorPointer => Str("pointer")
    case Wrap => Str("wrap")
    case Grow => Num(1)
  }

  /** A flag writes its one declaration only when it is `true`; when it is
      `false` or absent, the base style's value for that key, present or
      absent, is kept. */
  lemma FlagOnlyWhenSet(p: Props, theme: Theme, f: Flag)
    ensures FlagSet(FlagProp(p.style, f)) ==>
      FlagKey(f) in MergedSx(p, theme) && MergedSx(p, theme)[FlagKey(f)] == FlagValue(f)
    ensures !FlagSet(FlagProp(p.style, f)) ==> KeptFromBase(p, theme, FlagKey(f))
  {
    if FlagSet(FlagProp(p.style, f)) {
      WrittenKeyOverridden(p, theme, FlagKey(f));
    } else {
      UnwrittenKeyKept(p, theme, FlagKey(f));
    }
  }

  /** Merge order: a key takes its value from the last of base, scroll,
      position, colour, radius, cursor, wrap and grow layers that has it. */
  lemma MergeOrder(p: Props, theme: Theme, i: int, k: Key)
    requires LastHolder(AllLayers(p, theme), i, k)
    ensures k in MergedSx(p, theme) && MergedSx(p, theme)[k] == AllLayers(p, theme)[i][k]
  {
    SpreadLastWins(AllLayers(p, theme), i, k);
  }

  /** The layers ignore the theme: it reaches the result only through a
      function-valued `sx`. */
  lemma ThemeOnlyThroughSx(p: Props, t1: Theme, t2: Theme)
    requires BaseSx(p.sx, t1) == BaseSx(p.sx, t2)
    ensures MergedSx(p, t1) == MergedSx(p, t2)
  {
  }

  /** Passing the merged style back in as `sx` changes nothing: the
      shorthand layers only override, they never depend on the base. */
  lemma MergedSxIsFixedPoint(p: Props, theme: Theme)
    ensures MergedSx(p.(sx := Some(StyleObject(MergedSx(p, theme)))), theme) == MergedSx(p, theme)
  {
  }

  /** `scroll: 'x-auto', rounded: 2, grow: true`, nothing else given. */
  const ExampleProps: Shorthands :=
    Shorthands(Some("x-auto"), None, None, None, Some(2), None, None, None, Some(true))

  /** What the component renders for `ExampleProps` over no base style. */
  const ExampleStyle: Style := map[
    OverflowX := Str("auto"), OverflowY := Undefined, Overflow := Undefined,
    Color := Undefined, BackgroundColor := Undefined, PointerEvents := Str("unset"),
    BorderRadius := Str("0.375rem"), FlexGrow := Num(1)]

  /** The merged style for `ExampleProps`, whatever the sizing props and
      the theme. */
  lemma ExampleRender(theme: Theme, sizing: Sizing)
    ensures MergedSx(Props(None, None, sizing, ExampleProps), theme) == ExampleStyle
  {
    hide ScrollStyles, Spread, ShorthandLayers, AllLayers;
    var r := MergedSx(Props(None, None, sizing, ExampleProps), theme);
    forall k ensures (k in r <==> k in ExampleStyle) && (k in r ==> r[k] == ExampleStyle[k]) {
      ExampleAt(theme, sizing, k);
    }
    assert r.Keys == ExampleStyle.Keys;
  }

  /** The scroll layer for `x-auto`. */
  lemma ExampleScroll()
    ensures ScrollStyles(Some("x-auto"))
            == map[OverflowX := Str("auto"), OverflowY := Undefined, Overflow := Undefined]
  {
    hide ScrollStyles;
    var t := ScrollToken(X, Auto);
    ScrollTokenReadsAsIntended(t);
    assert TokenText(t) == "x-auto";
  }

  /** `ExampleRender` at one key. */
  lemma ExampleAt(theme: Theme, sizing: Sizing, k: Key)
    ensures var r := MergedSx(Props(None, None, sizing, ExampleProps), theme);
      (k in r <==> k in ExampleStyle) && (k in r ==> r[k] == ExampleStyle[k])
  {
    hide ScrollStyles, MergedSx, Spread, ShorthandLayers, AllLayers;
    var p := Props(None, None, sizing, ExampleProps);
    match k
    case OverflowX | OverflowY | Overflow =>
      WrittenKeyOverridden(p, theme, k);
      ExampleScroll();
    case Color | BackgroundColor | PointerEvents | BorderRadius | FlexGrow =>
      WrittenKeyOverridden(p, theme, k);
    case Position | Cursor | FlexWrap | Named(_) =>
      UnwrittenKeyKept(p, theme, k);
  }

  // ----- Class name and sizing props -----

  /** Each shorthand names one sizing prop and no two name the same one. */
  lemma SizingAliasesOneToOne(a: Alias, b: Alias)
    ensures PropertyName(a) == PropertyName(b) <==> a == b
    ensures ShorthandName(a) == ShorthandName(b) <==> a == b
  {
  }
}
