/** The `Container` component of `src/Modules/Container.tsx`: the shorthand
    props it takes, the style layers it builds from them, the merged `sx`
    record it hands to MUI's `Box`, the `className` string and the sizing
    aliases it forwards as `Box` props. */
module Container {
  import opened Wrappers
  import opened JsStrings
  import opened Styles

  /** Stand-in for the MUI theme. Every layer receives it as `_theme` and
      ignores it; only a caller's function-valued `sx` may read it. */
  datatype Theme = Theme(tokens: map<string, string>)

  /** The caller's base style: a plain record or a function of the theme. */
  datatype Sx = StyleObject(style: ObjectStyle) | StyleFunction(apply: Theme -> ObjectStyle)

  /** The eight sizing shorthands; an absent one is `Undefined`. */
  datatype Sizing = Sizing(w: Value, h: Value, lh: Value, g: Value,
                           maxW: Value, minW: Value, maxH: Value, minH: Value)

  /** The shorthand style props. Optional props that are tested only for
      truthiness (`cursorPointer`, `wrap`, `grow`) keep their three states
      so that the test itself is modelled. */
  datatype Shorthands = Shorthands(
    scroll: Option<string>,
    pos: Option<string>,
    color: Option<string>,
    bg: Option<string>,
    rounded: Option<int>,
    pEvents: Option<bool>,
    cursorPointer: Option<bool>,
    wrap: Option<bool>,
    grow: Option<bool>)

  /** The destructured props of the component that this model covers. */
  datatype Props = Props(sx: Option<Sx>, cls: Option<string>, sizing: Sizing, style: Shorthands)

  /** JavaScript truthiness of an optional string: given and non-empty. */
  predicate StringTruthy(o: Option<string>)
    ensures StringTruthy(o) <==> o.GetOr("") != ""
  {
    o.Some? && o.value != ""
  }

  /** JavaScript truthiness of an optional boolean. */
  predicate FlagSet(o: Option<bool>)
    ensures FlagSet(o) <==> o.GetOr(false)
  {
    o == Some(true)
  }

  const OverflowKeys: set<Key> := {OverflowX, OverflowY, Overflow}

  predicate Defined(v: Value) {
    !v.Undefined?
  }

  /** `s.split('-')[1]`: the piece after the first hyphen, `undefined` when
      there is no second piece. */
  function SecondPiece(s: string): (v: Value)
    ensures Defined(v) <==> '-' in s
  {
    var parts := Split(s, '-');
    if |parts| > 1 then Str(parts[1]) else Undefined
  }

  /** `scrollStyles`: all three overflow keys are always written. An `x-` or
      `y-` prefix selects one axis; a token without a hyphen sets the
      unqualified `overflow`; everything else is `undefined`. */
  function ScrollStyles(scroll: Option<string>): (r: Style)
    ensures r.Keys == OverflowKeys
    ensures !(Defined(r[OverflowX]) && Defined(r[OverflowY]))
    ensures !(Defined(r[Overflow]) && (Defined(r[OverflowX]) || Defined(r[OverflowY])))
  {
    map[
      OverflowX := if scroll.Some? && StartsWith(scroll.value, "x-")
                     then SecondPiece(scroll.value) else Undefined,
      OverflowY := if scroll.Some? && StartsWith(scroll.value, "y-")
                     then SecondPiece(scroll.value) else Undefined,
      Overflow := if !(scroll.Some? && Includes(scroll.value, '-'))
                    then OrUndefined(scroll) else Undefined
    ]
  }

  /** `positionStyle`: the `position` key exists only when `pos` is truthy. */
  function PositionStyle(pos: Option<string>): (r: Style)
    ensures r.Keys == if StringTruthy(pos) then {Position} else {}
    ensures Position in r ==> r[Position] == Str(pos.value)
  {
    if StringTruthy(pos) then map[Position := Str(pos.value)] else map[]
  }

  /** The `pointerEvents` value for the tri-state `pEvents`. */
  function PointerEventsValue(pEvents: Option<bool>): (r: string)
    ensures r == "unset" <==> pEvents.None?
    ensures r == "none" <==> pEvents == Some(false)
    ensures r == "all" <==> pEvents == Some(true)
  {
    if pEvents.None? then "unset"
    else if !pEvents.value then "none"
    else "all"
  }

  /** `colorStyles`: colour, background colour and pointer events, each key
      always present. */
  function ColorStyles(color: Option<string>, bg: Option<string>, pEvents: Option<bool>): (r: Style)
    ensures r.Keys == {Color, BackgroundColor, PointerEvents}
    ensures r[Color].Undefined? <==> color.None?
    ensures r[BackgroundColor].Undefined? <==> bg.None?
    ensures Defined(r[PointerEvents])
  {
    map[
      Color := OrUndefined(color),
      BackgroundColor := OrUndefined(bg),
      PointerEvents := Str(PointerEventsValue(pEvents))
    ]
  }

  /** `borderRadiusMap`, indexed by `rounded`. */
  const RadiusTable: seq<string> := ["0rem", "0.25rem", "0.375rem", "0.5rem", "1rem", "2rem", "50%"]

  /** `rounded !== undefined ? borderRadiusMap[rounded] : undefined`; an
      index outside the table reads as `undefined`. */
  function RadiusOf(rounded: Option<int>): (v: Value)
    ensures Defined(v) <==> rounded.Some? && 0 <= rounded.value < |RadiusTable|
    ensures Defined(v) ==> v == Str(RadiusTable[rounded.value])
  {
    if rounded.Some? && 0 <= rounded.value < |RadiusTable|
    then Str(RadiusTable[rounded.value])
    else Undefined
  }

  /** `borderRadiusStyles`: the `borderRadius` key is always present. */
  function BorderRadiusStyles(rounded: Option<int>): (r: Style)
    ensures r.Keys == {BorderRadius}
  {
    map[BorderRadius := RadiusOf(rounded)]
  }

  /** `flag ? {key: value} : {}` */
  function FlagStyle(flag: Option<bool>, key: Key, value: Value): (r: Style)
    requires Normal(key)
    ensures r.Keys == if FlagSet(flag) then {key} else {}
    ensures key in r ==> r[key] == value
  {
    if FlagSet(flag) then map[key := value] else map[]
  }

  /** The caller's `sx`, defaulting to `{}`; a function is applied to the theme. */
  function BaseSx(sx: Option<Sx>, theme: Theme): (r: ObjectStyle)
    ensures sx.None? ==> r == map[]
    ensures sx.Some? && sx.value.StyleObject? ==> r == sx.value.style
    ensures sx.Some? && sx.value.StyleFunction? ==> r == sx.value.apply(theme)
  {
    match sx
    case None => map[]
    case Some(StyleObject(style)) => style
    case Some(StyleFunction(f)) => f(theme)
  }

  /** The layers the component spreads over the base style, in source order. */
  function ShorthandLayers(s: Shorthands): seq<Style>
  {
    [ ScrollStyles(s.scroll),
      PositionStyle(s.pos),
      ColorStyles(s.color, s.bg, s.pEvents),
      BorderRadiusStyles(s.rounded),
      FlagStyle(s.cursorPointer, Cursor, Str("pointer")),
      FlagStyle(s.wrap, FlexWrap, Str("wrap")),
      FlagStyle(s.grow, FlexGrow, Num(1)) ]
  }

  /** `ShorthandLayers`, element by element. */
  lemma LayersAre(s: Shorthands)
    ensures var ls := ShorthandLayers(s);
      && |ls| == 7
      && ls[0] == ScrollStyles(s.scroll)
      && ls[1] == PositionStyle(s.pos)
      && ls[2] == ColorStyles(s.color, s.bg, s.pEvents)
      && ls[3] == BorderRadiusStyles(s.rounded)
      && ls[4] == FlagStyle(s.cursorPointer, Cursor, Str("pointer"))
      && ls[5] == FlagStyle(s.wrap, FlexWrap, Str("wrap"))
      && ls[6] == FlagStyle(s.grow, FlexGrow, Num(1))
  {
  }

  /** The base style followed by the shorthand layers, as in the `sx` callback. */
  function AllLayers(p: Props, theme: Theme): seq<Style>
  {
    [BaseSx(p.sx, theme)] + ShorthandLayers(p.style)
  }

  /** The `sx` callback, `{...baseSx, ...scrollStyles(theme), ...,
      ...(grow ? {flexGrow: 1} : {})}`: the spread of all eight layers in
      source order. It is the base style overridden, key by key, by the
      spread of the shorthand layers alone. */
  function MergedSx(p: Props, theme: Theme): (r: ObjectStyle)
    ensures r == BaseSx(p.sx, theme) + Spread(ShorthandLayers(p.style))
  {
    SpreadCons(BaseSx(p.sx, theme), ShorthandLayers(p.style));
    ShorthandKeysNormal(p.style);
    Spread(AllLayers(p, theme))
  }

  /** The shorthand layers write key `k`, whatever the base style: the
      overflow, colour and radius keys always, the others only when their
      prop is truthy. */
  predicate Writes(s: Shorthands, k: Key) {
    || k in OverflowKeys
    || k == Color || k == BackgroundColor || k == PointerEvents
    || k == BorderRadius
    || (k == Position && StringTruthy(s.pos))
    || (k == Cursor && FlagSet(s.cursorPointer))
    || (k == FlexWrap && FlagSet(s.wrap))
    || (k == FlexGrow && FlagSet(s.grow))
  }

  /** A key `Writes` does not name is in no shorthand layer. */
  lemma UnwrittenKeyAbsent(s: Shorthands, k: Key)
    requires !Writes(s, k)
    ensures k !in Spread(ShorthandLayers(s))
  {
    var ls := ShorthandLayers(s);
    assert k !in ls[0] && k !in ls[1] && k !in ls[2] && k !in ls[3];
    assert k !in ls[4] && k !in ls[5] && k !in ls[6];
    SpreadKeys(ls, k);
    forall i | 0 <= i < |ls| ensures k !in ls[i] {
      if i == 0 {} else if i == 1 {} else if i == 2 {} else if i == 3 {}
      else if i == 4 {} else if i == 5 {} else {}
    }
  }

  /** The layer of `ShorthandLayers` that writes key `k`. */
  function WriterLayer(k: Key): (i: nat)
    ensures i < 7
  {
    match k
    case OverflowX => 0 case OverflowY => 0 case Overflow => 0
    case Position => 1
    case Color => 2 case BackgroundColor => 2 case PointerEvents => 2
    case BorderRadius => 3
    case Cursor => 4 case FlexWrap => 5 case FlexGrow => 6
    case Named(_) => 0
  }

  /** What the shorthand props say key `k` should be, read off the props
      one property at a time. */
  function ShorthandValue(s: Shorthands, k: Key): Value
    requires Writes(s, k)
  {
    match k
    case Position => Str(s.pos.value)
    case Color => OrUndefined(s.color)
    case BackgroundColor => OrUndefined(s.bg)
    case PointerEvents => Str(PointerEventsValue(s.pEvents))
    case BorderRadius => RadiusOf(s.rounded)
    case Cursor => Str("pointer")
    case FlexWrap => Str("wrap")
    case FlexGrow => Num(1)
    case _ => ScrollStyles(s.scroll)[k]
  }

  /** The layer `WriterLayer(k)` is the last shorthand layer holding a
      written key `k`. */
  lemma WriterLayerIsLast(s: Shorthands, k: Key)
    requires Writes(s, k)
    ensures LastHolder(ShorthandLayers(s), WriterLayer(k), k)
  {
    hide ShorthandLayers, ScrollStyles, PositionStyle, ColorStyles, BorderRadiusStyles, FlagStyle;
    LayersAre(s);
    var ls := ShorthandLayers(s);
    var i := WriterLayer(k);
    assert k in ls[i];
    forall j | i < j < |ls| ensures k !in ls[j] {
      if j == 1 {} else if j == 2 {} else if j == 3 {}
      else if j == 4 {} else if j == 5 {} else {}
    }
  }

  /** The writing layer holds the value the props give the key. */
  lemma WriterLayerValue(s: Shorthands, k: Key)
    requires Writes(s, k)
    ensures k in ShorthandLayers(s)[WriterLayer(k)]
    ensures ShorthandLayers(s)[WriterLayer(k)][k] == ShorthandValue(s, k)
  {
  }

  /** A key `Writes` names is in the spread of the shorthand layers, with
      the value the props give it. */
  lemma WrittenKeyValue(s: Shorthands, k: Key)
    requires Writes(s, k)
    ensures k in Spread(ShorthandLayers(s))
    ensures Spread(ShorthandLayers(s))[k] == ShorthandValue(s, k)
  {
    WriterLayerIsLast(s, k);
    WriterLayerValue(s, k);
    SpreadLastWins(ShorthandLayers(s), WriterLayer(k), k);
  }

  /** The shorthand layers write only properties with their own key, so
      merging them over an object keeps its keys in normal form. */
  lemma ShorthandKeysNormal(s: Shorthands)
    ensures forall k | k in Spread(ShorthandLayers(s)) :: !k.Named?
  {
    forall k | k in Spread(ShorthandLayers(s)) ensures !k.Named? {
      if k.Named? {
        UnwrittenKeyAbsent(s, k);
      }
    }
  }

  /** The template literal `${cls ?? ''} ${scroll ? 'no-scrollbar' : ''}`.
      Read as a class list, it is the caller's classes followed by
      `no-scrollbar` exactly when `scroll` is truthy. */
  function ClassName(cls: Option<string>, scroll: Option<string>): (r: string)
    ensures ClassTokens(r) == ClassTokens(cls.GetOr(""))
                              + (if StringTruthy(scroll) then ["no-scrollbar"] else [])
  {
    var own := cls.GetOr("");
    var suffix := if StringTruthy(scroll) then "no-scrollbar" else "";
    ClassTokensOfSpaceJoin(own, suffix);
    SingleClassToken("no-scrollbar");
    own + " " + suffix
  }

  /** The sizing shorthands and the `Box` props they stand for. */
  datatype Alias = W | H | LH | G | MaxW | MinW | MaxH | MinH

  function ShorthandName(a: Alias): string
  {
    match a
    case W => "w"       case H => "h"       case LH => "lh"     case G => "g"
    case MaxW => "maxW" case MinW => "minW" case MaxH => "maxH" case MinH => "minH"
  }

  function PropertyName(a: Alias): string
  {
    match a
    case W => "width"        case H => "height"       case LH => "lineHeight" case G => "gap"
    case MaxW => "maxWidth"  case MinW => "minWidth"  case MaxH => "maxHeight" case MinH => "minHeight"
  }

  function SizeOf(s: Sizing, a: Alias): Value
  {
    match a
    case W => s.w       case H => s.h       case LH => s.lh     case G => s.g
    case MaxW => s.maxW case MinW => s.minW case MaxH => s.maxH case MinH => s.minH
  }

  const PropertyNames: set<string> :=
    {"width", "height", "lineHeight", "gap", "maxWidth", "minWidth", "maxHeight", "minHeight"}

  /** `additionalBoxProps`: every sizing prop is present, holding its
      shorthand's value, `undefined` when the shorthand was not given. */
  function AdditionalBoxProps(s: Sizing): (r: map<string, Value>)
    ensures r.Keys == PropertyNames
    ensures forall a :: r[PropertyName(a)] == SizeOf(s, a)
  {
    map[
      "width" := s.w, "height" := s.h, "lineHeight" := s.lh, "gap" := s.g,
      "maxWidth" := s.maxW, "minWidth" := s.minW, "maxHeight" := s.maxH, "minHeight" := s.minH
    ]
  }
}
