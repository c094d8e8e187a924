# wide-containers: the `Container` style merge

`Container` is a React component that wraps MUI's `Box`. It takes a few
shorthand style props and turns them into style declarations:

- `scroll` (an overflow token)
- `pos`
- `color` and `bg`
- `rounded` (an index into a radius table)
- `pEvents` (pointer events)
- `cursorPointer`, `wrap` and `grow` (boolean flags)

It merges those declarations over the caller's base `sx` style. It also builds
a `className` string and forwards eight sizing aliases (`w`, `h`, ...) as
`Box` props.

This project models that computation as pure functions and proves what it
does. It covers:

- how scroll tokens are read;
- which style keys the shorthand props always overwrite and which they write
  only when given;
- the order of the layers;
- what the class string contains, read as a class list;
- how the sizing aliases map to property names.

Files:

- `wrappers.dfy`: `Option`.
- `js_strings.dfy`: the JavaScript string operations the component uses:
  - `startsWith`, `includes` and `split`, with `split`/`join` round trips;
  - how a `class` attribute is read as a token list.
- `styles.dfy`: style records and object spread:
  - values carry an explicit `undefined`;
  - a record is a `map<Key, Value>`;
  - `{...a, ...b}` is the right-biased union `a + b`.
  - It proves which layer of a spread a key comes from.
- `container.dfy`: the component's layer functions, the merged `sx` record,
  `className` and `additionalBoxProps`.
- `container_properties.dfy`: properties of the merged record and of the
  scroll tokens, plus a worked example.

An absent key and a key that is present with value `undefined` are different
things in this model, as they are under object spread:

- A layer that returns `{}` leaves the base value in place.
- A layer that writes `undefined` clears the base value.

The component does both. `Writes` says which keys the shorthand layers
always write. `ShorthandValue` says what value each of those keys gets.
`UnwrittenKeyKept` shows that every other key keeps the base value.

Style keys are a `Key` datatype: one constructor per property the
component writes, and `Named` for every other property. A key is in normal
form when no property with its own constructor is spelled `Named`. The
caller's base style is an `ObjectStyle`, a record whose keys are all in
normal form, so each property name appears at most once, as in a JavaScript
object. The merged style is proved to keep that form.

Behaviour of the code worth noting:

- The background key is `backgroundColor`. It is always written, as
  `undefined` when `bg` is absent.
- `borderRadius` is always written. It is `undefined` when `rounded` is
  absent.
- A `rounded` outside 0..6 reads as `undefined`. There is no error.
- With `scroll` absent, all three overflow keys are written as `undefined`.

## Model

| member | source | states |
|---|---|---|
| Option.GetOr | src/Modules/Container.tsx:108 | `cls ?? ''` is the caller's string when given and the fallback `''` otherwise |
| JsStrings.StartsWith | src/Modules/Container.tsx:55 | `s.startsWith(p)` holds exactly when `s` is `p` followed by some rest |
| JsStrings.Includes | src/Modules/Container.tsx:61 | `s.includes('-')` holds exactly when some position of `s` holds a hyphen |
| JsStrings.IndexOf | src/Modules/Container.tsx:56 | the position of the first separator: it holds the separator and no earlier position does |
| JsStrings.Split | src/Modules/Container.tsx:56 | `split('-')` gives at least one piece, no piece contains the separator, and there is exactly one piece iff the string has no separator |
| JsStrings.JoinSplit | src/Modules/Container.tsx:56 | splitting loses nothing: joining the pieces with the separator gives back the original string |
| JsStrings.SplitJoin | src/Modules/Container.tsx:59 | splitting is the inverse of joining pieces that contain no separator |
| JsStrings.ClassTokens | src/Modules/Container.tsx:108 | reading a class string gives a list of non-empty tokens free of whitespace |
| JsStrings.ClassTokensOfSpaceJoin | src/Modules/Container.tsx:108 | the class list of `a + ' ' + b` is the class list of `a` followed by that of `b` |
| JsStrings.SingleClassToken | src/Modules/Container.tsx:108 | a single well-formed class name reads as exactly that one class |
| Styles.NormalKeyNames | src/Modules/Container.tsx:110-119 | keys in normal form and property names correspond one to one, so a record over normal keys names each property once |
| Styles.Spread | src/Modules/Container.tsx:110-119 | `{...l0, ...l1, ...}` taken from the left; its contract is stated by `SpreadKeys` and `SpreadLastWins` |
| Styles.KeyOf | src/Modules/Container.tsx:110-119 | every property name is the name of exactly the key it parses to |
| Styles.OrUndefined | src/Modules/Container.tsx:71-72 | an optional string prop reads as `undefined` exactly when it was not given, and as its text otherwise |
| Styles.SpreadKeys | src/Modules/Container.tsx:110-119 | a record built by spreading layers has a key iff some layer has it |
| Styles.SpreadLastWins | src/Modules/Container.tsx:110-119 | a spread key takes its value from the last layer that has it |
| Styles.SpreadCons | src/Modules/Container.tsx:110-112 | spreading a base record before some layers overrides the base with the spread of those layers |
| Styles.MapUnionAssociative | src/Modules/Container.tsx:110-119 | nested spreads can be regrouped without changing the result |
| Container.SecondPiece | src/Modules/Container.tsx:55-60 | `split('-')[1]` is defined exactly when the token contains a hyphen |
| Container.StringTruthy | src/Modules/Container.tsx:67 | an optional string is truthy exactly when, read with `?? ''`, it is not the empty string |
| Container.FlagSet | src/Modules/Container.tsx:116-118 | an optional boolean is truthy exactly when, read with `?? false`, it is true |
| Container.ScrollStyles | src/Modules/Container.tsx:54-64 | the scroll layer always has the three overflow keys; it never defines both axes, and never the unqualified key together with an axis |
| Container.PositionStyle | src/Modules/Container.tsx:66-68 | the position layer has a `position` key iff `pos` is truthy, and that key holds `pos` |
| Container.PointerEventsValue | src/Modules/Container.tsx:73-75 | pointer events is `unset`, `none` or `all` exactly when `pEvents` is absent, false or true |
| Container.ColorStyles | src/Modules/Container.tsx:70-76 | the colour layer always has `color`, `backgroundColor` and `pointerEvents`; the first two are `undefined` exactly when their prop is absent, and pointer events is always defined |
| Container.RadiusOf | src/Modules/Container.tsx:89-91 | the radius is defined iff `rounded` is given and indexes the table, and then it is that table entry |
| Container.BorderRadiusStyles | src/Modules/Container.tsx:88-92 | the radius layer always has exactly the `borderRadius` key |
| Container.FlagStyle | src/Modules/Container.tsx:116-118 | a flag layer has its one key iff the flag is true, holding the flag's value; otherwise it is empty |
| Container.BaseSx | src/Modules/Container.tsx:109 | an absent `sx` is the default `{}` of line 32; a record is used as given and a function is applied to the theme |
| Container.AllLayers | src/Modules/Container.tsx:111-118 | the base style followed by the seven shorthand layers in source order |
| Container.MergedSx | src/Modules/Container.tsx:108-119 | the spread of base, scroll, position, colour, radius and the three flag layers is the base overridden by the spread of the shorthand layers, and it is again an object whose keys are in normal form |
| Container.WriterLayerIsLast | src/Modules/Container.tsx:111-118 | for each written key, the layer that produces it is the last shorthand layer that has it |
| Container.WrittenKeyValue | src/Modules/Container.tsx:111-118 | every key in `Writes` is in the spread of the shorthand layers, holding its `ShorthandValue` |
| Container.UnwrittenKeyAbsent | src/Modules/Container.tsx:111-118 | no shorthand layer produces a key outside `Writes` |
| Container.ShorthandKeysNormal | src/Modules/Container.tsx:111-118 | the shorthand layers only write properties that have their own key, never a `Named` one |
| Container.ClassName | src/Modules/Container.tsx:108 | the class list is the caller's classes (none for an absent `cls`) followed by `no-scrollbar` exactly when `scroll` is truthy |
| Container.AdditionalBoxProps | src/Modules/Container.tsx:95-104 | all eight sizing props are present; each holds its alias's value, `undefined` when the alias was not given |
| ContainerProperties.AxisQualifiedScroll | src/Modules/Container.tsx:55-63 | for an `x-v` or `y-v` token, that axis gets the first hyphen-free piece of `v`; the other axis and `overflow` are `undefined` |
| ContainerProperties.UnqualifiedScroll | src/Modules/Container.tsx:61-63 | a token without a hyphen sets `overflow` to itself, and both axis keys are `undefined` |
| ContainerProperties.OtherHyphenatedScroll | src/Modules/Container.tsx:55-63 | a token with a hyphen but no `x-` or `y-` prefix writes all three overflow keys as `undefined` |
| ContainerProperties.AbsentScroll | src/Modules/Container.tsx:54-64 | an absent `scroll` writes all three overflow keys as `undefined` |
| ContainerProperties.ScrollTokenReadsAsIntended | src/Modules/Container.tsx:9 | each of the nine admitted scroll tokens sets the overflow of its own axis, or of both axes, and writes the rest as `undefined` |
| ContainerProperties.ScrollTokensDistinct | src/Modules/Container.tsx:54-64 | different admitted tokens give different overflow layers |
| ContainerProperties.WrittenKeyOverridden | src/Modules/Container.tsx:109-119 | a written key has the props' value in the merged style, whatever the base held |
| ContainerProperties.UnwrittenKeyKept | src/Modules/Container.tsx:109-119 | any other key is in the merged style iff it is in the base, with the base's value |
| ContainerProperties.MergedKeys | src/Modules/Container.tsx:109-119 | the merged style's keys are the base's keys plus the written keys |
| ContainerProperties.MergedNamesDistinct | src/Modules/Container.tsx:110-119 | the merged style never holds one property name under two keys |
| ContainerProperties.ScrollAlwaysOverridesBase | src/Modules/Container.tsx:111-112 | the three overflow keys always come from the scroll layer, over any base value |
| ContainerProperties.AbsentScrollClearsOverflow | src/Modules/Container.tsx:54-64 | with no `scroll`, all three overflow keys are present as `undefined`, clearing any base overflow |
| ContainerProperties.PositionOnlyWhenGiven | src/Modules/Container.tsx:66-68 | a truthy `pos` sets `position`; otherwise the base's `position`, present or absent, survives |
| ContainerProperties.ColorStylesAlwaysWritten | src/Modules/Container.tsx:70-76 | `color`, `backgroundColor` and `pointerEvents` are always in the merged style: the props' values, or `undefined`, and `unset`/`none`/`all` |
| ContainerProperties.RadiusAlwaysWritten | src/Modules/Container.tsx:88-92 | `borderRadius` is always in the merged style: `undefined` for an absent `rounded` or one outside the table, the table entry for 0..6 |
| ContainerProperties.RadiusTableEntries | src/Modules/Container.tsx:79-87 | `rounded` 0..6 give `0rem`, `0.25rem`, `0.375rem`, `0.5rem`, `1rem`, `2rem` and `50%`, all distinct |
| ContainerProperties.FlagOnlyWhenSet | src/Modules/Container.tsx:116-118 | `cursor`, `flexWrap` and `flexGrow` are set only by a true flag; otherwise the base's entry, present or absent, survives |
| ContainerProperties.MergeOrder | src/Modules/Container.tsx:110-119 | in the order base, scroll, position, colour, radius, cursor, wrap, grow, a key takes the value of the last layer holding it |
| ContainerProperties.ThemeOnlyThroughSx | src/Modules/Container.tsx:109 | the theme reaches the merged style only through a function-valued `sx` |
| ContainerProperties.MergedSxIsFixedPoint | src/Modules/Container.tsx:110-119 | passing the merged style back in as `sx` gives the same merged style |
| ContainerProperties.ExampleRender | src/Modules/Container.tsx:54-119 | `scroll: 'x-auto', rounded: 2, grow: true` over no base renders exactly the eight declarations listed in `ExampleStyle` |
| ContainerProperties.SizingAliasesOneToOne | src/Modules/Container.tsx:95-104 | each sizing alias names its own property: no two aliases share a shorthand or a property name |

## Left out

- The bundler configuration (`webpack.config.js`) has no behaviour to state.
- React and MUI plumbing is not modelled: `forwardRef`, ref forwarding, rendering `Box` and its `children`, and `displayName`.
- The remaining `...props` spread onto `Box` is not modelled. In particular, a `width` (or other sizing prop) passed directly is overwritten by `additionalBoxProps` writing `undefined` for an absent alias.
- The MUI theme is an opaque `Theme` value. Every layer ignores it.
- A function-valued `sx` is an opaque Dafny function from `Theme` to `ObjectStyle`.
- The array form of `sx` is not modelled, and neither is `null`.
- Style values are an abstract `Value`: `undefined`, a string, a number or an opaque `Other`. They are not typed CSS values.
- The MUI style engine's handling of `undefined` declarations is not modelled.
- Key insertion order of the merged object is not modelled: a record is a `map`.
- The `scroll` prop is modelled as a free string, not just the nine tokens its type admits. `AxisQualifiedScroll`, `UnqualifiedScroll`, `OtherHyphenatedScroll` and `AbsentScroll` together cover every value.
- `rounded` is a JavaScript number, modelled as an integer. A fractional index reads as `undefined` in JavaScript and is not modelled.
