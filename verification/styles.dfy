/** Style records and the object-spread merge that combines them.

    A style record is a map from CSS property names to values. A key that is
    not in the map is ABSENT; a key mapped to `Undefined` is PRESENT WITH VALUE
    `undefined`. Object spread (`{...a, ...b}`) copies every own key of `b`
    over `a`, including keys whose value is `undefined`, so the second form
    clears a value inherited from an earlier layer while the first keeps it.
    Dafny's right-biased map union `a + b` behaves the same way. */
module Styles {
  import opened Wrappers

  /** A style value, kept abstract: plain strings and numbers, anything else
      (arrays, responsive objects, callbacks) as an uninterpreted tag, and the
      JavaScript `undefined` as its own constructor. */
  datatype Value = Undefined | Str(text: string) | Num(n: int) | Other(tag: nat)

  /** CSS property names: the ones the container writes, each as its own
      constructor, and every other property by its name. */
  datatype Key =
    | OverflowX | OverflowY | Overflow | Position | Color | BackgroundColor
    | PointerEvents | BorderRadius | Cursor | FlexWrap | FlexGrow
    | Named(name: string)

  /** The property name as it appears in a style object. */
  function KeyName(k: Key): string
  {
    match k
    case OverflowX => "overflowX"
    case OverflowY => "overflowY"
    case Overflow => "overflow"
    case Position => "position"
    case Color => "color"
    case BackgroundColor => "backgroundColor"
    case PointerEvents => "pointerEvents"
    case BorderRadius => "borderRadius"
    case Cursor => "cursor"
    case FlexWrap => "flexWrap"
    case FlexGrow => "flexGrow"
    case Named(n) => n
  }

  /** The key for a property name: its own constructor when it has one. */
  function KeyOf(name: string): (k: Key)
    ensures KeyName(k) == name
  {
    if name == "overflowX" then OverflowX
    else if name == "overflowY" then OverflowY
    else if name == "overflow" then Overflow
    else if name == "position" then Position
    else if name == "color" then Color
    else if name == "backgroundColor" then BackgroundColor
    else if name == "pointerEvents" then PointerEvents
    else if name == "borderRadius" then BorderRadius
    else if name == "cursor" then Cursor
    else if name == "flexWrap" then FlexWrap
    else if name == "flexGrow" then FlexGrow
    else Named(name)
  }

  /** A key in normal form: a property with its own constructor is never
      spelled `Named`. */
  predicate Normal(k: Key) {
    k.Named? ==> KeyOf(k.name) == k
  }

  /** Keys in normal form and property names correspond one to one, so a
      map over normal keys is a record over property names. */
  lemma NormalKeyNames(k1: Key, k2: Key)
    requires Normal(k1) && Normal(k2)
    ensures KeyName(k1) == KeyName(k2) <==> k1 == k2
    ensures KeyOf(KeyName(k1)) == k1
  {
  }

  /** A style record. */
  type Style = map<Key, Value>

  /** A style record whose keys are in normal form: a JavaScript object holds
      each property name at most once. */
  predicate NormalStyle(m: Style) {
    forall k | k in m :: Normal(k)
  }

  /** A style record that comes from outside, as an object. */
  type ObjectStyle = m: Style | NormalStyle(m)

  /** Reading an optional string property: `undefined` when it was not given. */
  function OrUndefined(o: Option<string>): (v: Value)
    ensures v.Undefined? <==> o.None?
    ensures o.Some? ==> v.Str? && v.text == o.value
  {
    match o
    case None => Undefined
    case Some(s) => Str(s)
  }

  /** Layer `i` is the last of `layers` that has key `k`. */
  ghost predicate LastHolder(layers: seq<Style>, i: int, k: Key) {
    && 0 <= i < |layers|
    && k in layers[i]
    && forall j :: i < j < |layers| ==> k !in layers[j]
  }

  /** `{...layers[0], ...layers[1], ...}`, one layer at a time from the left. */
  function Spread(layers: seq<Style>): Style
  {
    if |layers| == 0 then map[]
    else Spread(layers[..|layers| - 1]) + layers[|layers| - 1]
  }

  /** The merged record has exactly the keys that some layer has. */
  lemma {:induction false} SpreadKeys(layers: seq<Style>, k: Key)
    ensures k in Spread(layers) <==> exists i :: 0 <= i < |layers| && k in layers[i]
    decreases |layers|
  {
    if |layers| > 0 {
      var init := layers[..|layers| - 1];
      SpreadKeys(init, k);
      if k in Spread(init) {
        var i :| 0 <= i < |init| && k in init[i];
        assert k in layers[i];
      }
      if exists i :: 0 <= i < |layers| && k in layers[i] {
        var i :| 0 <= i < |layers| && k in layers[i];
        if i < |init| {
          assert k in init[i];
        }
      }
    }
  }

  /** A key takes its value from the last layer that has it: a later layer wins. */
  lemma {:induction false} SpreadLastWins(layers: seq<Style>, i: int, k: Key)
    requires LastHolder(layers, i, k)
    ensures k in Spread(layers) && Spread(layers)[k] == layers[i][k]
    decreases |layers|
  {
    var n := |layers|;
    if i < n - 1 {
      var init := layers[..n - 1];
      assert k !in layers[n - 1];
      assert LastHolder(init, i, k) by {
        forall j | i < j < |init| ensures k !in init[j] {
          assert init[j] == layers[j];
        }
      }
      SpreadLastWins(init, i, k);
    }
  }

  /** Spreading a record in front of some layers is map union with the
      spread of the layers. */
  lemma {:induction false} SpreadCons(base: Style, layers: seq<Style>)
    ensures Spread([base] + layers) == base + Spread(layers)
    decreases |layers|
  {
    if |layers| == 0 {
      assert [base] + layers == [base];
      assert [base][..0] == [];
    } else {
      var all := [base] + layers;
      var init := layers[..|layers| - 1];
      var last := layers[|layers| - 1];
      assert all[..|all| - 1] == [base] + init;
      assert all[|all| - 1] == last;
      SpreadCons(base, init);
      MapUnionAssociative(base, Spread(init), last);
    }
  }

  /** `{...a, ...{...b, ...c}}` equals `{...{...a, ...b}, ...c}`. */
  lemma MapUnionAssociative(a: Style, b: Style, c: Style)
    ensures (a + b) + c == a + (b + c)
  {
  }
}
