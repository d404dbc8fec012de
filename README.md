# Flyer layout engine in Dafny

This project models `FlyerEngine`, the flyer layout engine in `template-engine.js`. The engine reads a configuration record and does the following:
- It writes the theme's colour and font variables onto the document root.
- It resolves the page size from the active format and orientation, and writes the `@page` rule.
- It splits the layout's panels into spreads (printed sheet sides) using a fixed imposition table.
- It builds every spread's panels, with fold-line markers, and writes a summary line.

The model follows the code as written:
- Layout keys are the German `einfach`, `2-falz` and `3-falz`. Any other key, including the English `simple`, `2-fold` and `3-fold`, takes the fallback branch: one spread `[1..n]`.
- Only the orientation `querformat` swaps width and height.
- The simple card also gets a fold line on its first panel.
- Spread width and height come from the unswapped format entry.
- No layout adds a gap.
- Nothing falls back to A6.

Modules:
- `FlyerConfig` (config.dfy): the configuration record. Each panel content field is optional, and JavaScript truthiness is `Truthy`.
- `Text` (text.dfy): `String(n)` for panel indices, reading leading digits (the `parseFloat` of a whole-millimetre length), and the pieces of `split(',')[0]`, `replace(/'/g, '')` and `trim()`.
- `Theme` (theme.dfy): the colour and font variables, and the bare font-family name.
- `PageFormat` (format.dfy): the orientation swap and the `@page` rule text.
- `Imposition` (imposition.dfy): `groupPanelsIntoSpreads` and its partition and reversal facts.
- `PanelContent` (panels.dfy): `createPanel` as a mapping from a content record to an abstract panel element.
- `Render` (render.dfy): the functions that define the container's children after `buildSpreads`, and the summary line. It also holds the lemmas about shape, order, fold lines, cover and idempotence.
- `Engine` (engine.dfy): two classes.
  - `Document` holds the parts of the page the engine touches: the root style map, the `@page` text, the container's children and the info summary. Each element also has a flag saying whether it exists.
  - `FlyerEngine` holds `config` and has one method per engine step, each proved against the `Render`, `Theme` and `PageFormat` functions.

The code disagrees with the project's own documentation (components/Documentation.tsx:82, 232-238) in two places. In each case the model follows the code:
- The documentation offers "portrait or landscape". In the code only `querformat` swaps the sides (template-engine.js:67).
- The documentation names the layouts with English keys. The code's table knows only the German keys, so the English ones reach the fallback (template-engine.js:140-164).

A format missing from the table does not stop rendering early. `applyFormat` warns and returns (template-engine.js:61-64). `buildSpreads` then still runs:
- it clears the container (template-engine.js:97);
- it appends the first spread's label (template-engine.js:104-107);
- it throws while reading `dims.width` (template-engine.js:111).

The exception ends `init` before `updateInfoHeader`. `BuildResult.DimsUndefined` and `InitError.UndefinedDims` model this path.

Every variable is written with `style.setProperty`. The CSS Object Model's `setProperty` removes a property when the value is the empty string. `Engine.SetProperty` models that rule (values the browser cannot parse are listed under "Left out"), so an empty colour, an empty page side, or a font stack whose family name comes out empty removes its variable.

## Model

| member | source | states |
|---|---|---|
| FlyerConfig.ActiveDims | template-engine.js:60 | `fmt.options[fmt.active]`: the entry of the active format, or none when the table has no such key |
| FlyerConfig.ActiveLayout | template-engine.js:88 | `layout.options[layoutKey]`: the definition of the active layout, or none when the table has no such key |
| Text.NatToString | template-engine.js:121 | `String(index)` is a non-empty run of decimal digits with no leading zero |
| Text.DigitsValueOfNatToString | template-engine.js:121 | reading the decimal spelling of an index back gives the index |
| Text.NatToStringInjective | template-engine.js:121 | two indices share a content key iff they are equal |
| Text.LeadingDigits | template-engine.js:111 | the longest digit prefix of a length string: a prefix, all digits, followed by a non-digit or the end |
| Text.LeadingDigitsOfNumberThenUnit | template-engine.js:111 | digits followed by a unit such as "mm" read as exactly those digits |
| Text.FirstSegment | template-engine.js:52-54 | `split(',')[0]` is the prefix before the first comma and holds no comma |
| Text.RemoveQuotes | template-engine.js:52-54 | `replace(/'/g, '')` keeps exactly the non-quote characters and changes a quote-free string not at all |
| Text.TrimStart | template-engine.js:52-54 | a suffix of the input with only whitespace dropped, starting with a non-whitespace character |
| Text.TrimEnd | template-engine.js:52-54 | a prefix of the input with only whitespace dropped, ending with a non-whitespace character |
| Text.RemoveQuotesConcat | template-engine.js:52-54 | removing the quotes of a concatenation removes them from each part and concatenates the results |
| Text.Trim | template-engine.js:52-54 | `trim()` has no whitespace at either end, adds no character, and leaves an already trimmed string as it is |
| Text.TrimIsSlice | template-engine.js:52-54 | `trim()` is the slice of the input left between a whitespace-only prefix and a whitespace-only suffix |
| Theme.ColorVariables | template-engine.js:33-41 | the nine `--color-*` names, each paired with the configured colour verbatim |
| Theme.FontName | template-engine.js:52-54 | the bare family name of a stack: `split(',')[0]`, then `replace(/'/g, '')`, then `trim()` |
| Theme.FontVariables | template-engine.js:48-54 | `--font-heading`, `--font-body` and `--font-mono` paired with the stacks verbatim, and the three `-name` variables paired with their bare family names |
| Theme.FontNameShape | template-engine.js:52-54 | the bare family name has no comma, no quote and no surrounding whitespace, and uses only characters of the stack |
| Theme.FontNameOfBareName | template-engine.js:52-54 | a name without comma, quote or surrounding whitespace is its own family name |
| Theme.FontNameIdempotent | template-engine.js:52-54 | extracting the family name twice gives the same name as once |
| Theme.FontNameOfStack | template-engine.js:52-54 | a stack that starts with a bare name, quoted or not, followed by a comma, yields that name |
| Theme.FontNameOfQuotedStack | template-engine.js:52-54 | `'Name', rest` yields `Name` |
| Theme.VariableNamesDisjoint | template-engine.js:30-55 | colour, font and page variable names are pairwise distinct, so no step overwrites another's variables |
| PageFormat.OrientedSize | template-engine.js:66-69 | the page sides: the entry's width and height, exchanged when the orientation is exactly "querformat" |
| PageFormat.PageRule | template-engine.js:78 | the `@page` text: `@page { size: <w> <h>; margin: 0; }` |
| PageFormat.SwapExactlyWhenLandscape | template-engine.js:66-69 | the sides change iff the orientation is exactly "querformat" (and the entry is not square) |
| PageFormat.OrientTwiceIsIdentity | template-engine.js:66-69 | applying the swap twice returns the original pair |
| PageFormat.LandscapeIsSwappedPortrait | template-engine.js:66-69 | landscape gives portrait's height as width and portrait's width as height |
| PageFormat.EnglishLandscapeIsPortrait | template-engine.js:67 | the English "landscape" leaves the sides unchanged |
| PageFormat.A6Example | template-engine.js:60-69 | A6 105mm x 148mm stays upright for "hochformat" and becomes 148mm x 105mm for "querformat" |
| Imposition.GroupPanelsIntoSpreads | template-engine.js:139-166 | the three literal tables for "einfach", "2-falz" and "3-falz", and the fallback single spread `[1..n]` for any other key |
| Imposition.AscendingIsExactCover | template-engine.js:163 | `[1..n]` holds each of 1..n exactly once and nothing else |
| Imposition.TableIgnoresPanelCount | template-engine.js:139-159 | for the three table keys the spreads do not depend on the declared panel count |
| Imposition.SpreadsListPanelsInOrder | template-engine.js:139-165 | the spreads' indices, read in order, are `[1..N]`, where N is 2, 4 or 6 for table keys and the declared count otherwise |
| Imposition.SpreadsPartitionIff | template-engine.js:139-165 | the spreads partition 1..panelCount iff the key is not in the table or its declared count is the table's own |
| Imposition.ReversalRule | template-engine.js:139-165 | a spread is reversed iff it is the first spread of "2-falz" or "3-falz" |
| Imposition.SpreadCount | template-engine.js:139-165 | two spreads for the folded layouts, one for the simple card and for the fallback |
| Imposition.EnglishKeysFallBack | template-engine.js:140-164 | "simple", "2-fold" and "3-fold" all give the single fallback spread `[1..n]` |
| PanelContent.CreatePanel | template-engine.js:169-222 | role defaults to ""; heading, subheading and footer appear iff truthy and then verbatim; the body is the markup iff it is truthy, otherwise a placeholder |
| PanelContent.PlaceholderIdentifiesPanel | template-engine.js:199-206 | the placeholder reads "Panel " followed by digits that spell the index, captioned by the role or "content" |
| PanelContent.MissingRecordGivesPlaceholder | template-engine.js:121 | a missing content record (`{}`) gives an empty role, no texts, and the placeholder "Panel i" / "content" |
| Render.ParseLength | template-engine.js:111 | `parseFloat` of a length: the number its leading digits spell, or NaN when it has none |
| Render.SpreadWidth | template-engine.js:111 | `parseFloat(dims.width) * count`: the parsed width times the number of panels, NaN staying NaN |
| Render.ContentOf | template-engine.js:121 | `this.config.panels[String(index)] \|\| {}`: the record under the index's decimal spelling, or the empty record |
| Render.SpreadNode | template-engine.js:109-132 | one spread: the width of its panel count, the unswapped height, row-reverse as the group says, and its panels in order |
| Render.RenderGroups | template-engine.js:102-135 | the container's children after the forEach over the groups: a label and then a spread for each group |
| Render.ParseLengthOfNumberWithUnit | template-engine.js:111 | a whole-millimetre length such as "148mm" parses to its number |
| Render.RenderGroupsShape | template-engine.js:102-135 | the container holds a label and then a spread for each group, in group order |
| Render.SpreadPanelsAndFoldLines | template-engine.js:109-132 | a spread's panels follow its indices in array order; all but the last carry a fold line (n-1 in all); row-reverse iff the group is reversed; the height is the unswapped entry's; the width is the entry's width in millimetres times the number of panels, or NaN when the width has no leading number |
| Render.ShownPanelsOfRender | template-engine.js:102-135 | the panel indices shown across the spreads are the groups' indices in order |
| Render.RenderShowsEachPanelOnce | template-engine.js:100-135 | the built flyer shows 1..N in ascending order, each once |
| Render.BuildOutcome | template-engine.js:84-111 | how buildSpreads ends: no container, layout not found, the throw on a missing format, or built |
| Render.ContainerAfterBuild | template-engine.js:84-111 | the children after buildSpreads: unchanged on the early returns, the first label alone after the throw, the rendered groups otherwise |
| Render.BuildKeepsOrReplaces | template-engine.js:84-97 | the early returns leave the container untouched; otherwise its previous content does not matter |
| Render.ContainerAfterBuildIdempotent | template-engine.js:83-136 | rebuilding on an unchanged config leaves the container as after the first build |
| Render.BuiltContainerShape | template-engine.js:100-135 | a successful build holds 2 nodes per group of the active layout: its label and its spread |
| Render.BuildIgnoresOrientation | template-engine.js:95-114 | the outcome and the container's children do not depend on the orientation, because the spreads are sized from the unswapped format entry |
| Render.SimpleCardScenario | template-engine.js:121-129 | the simple card with no record for panel 1: a placeholder "Panel 1" with a fold line, and exactly one fold line in the spread |
| Render.TwoFoldScenario | template-engine.js:147-152 | "2-falz": a reversed spread [1, 2], then a spread [3, 4] in reading order |
| Render.InfoSummary | template-engine.js:225-242 | the summary shows the company name or "Flyer Template", the active format, the layout label or "–", and the declared panel count or 0 |
| Render.SummaryCountMatchesRender | template-engine.js:94 | the summary's panel count equals the number of panels built iff the key is not in the table or its declared count is the table's own |
| Engine.SetProperty | template-engine.js:72-73 | `setProperty(k, v)` removes k when v is empty and sets it to v otherwise; every other property is untouched |
| Engine.SetProperties | template-engine.js:33-41 | setting each entry of a set of distinct names: each holds its value or is gone when the value is empty; every other property is as it was |
| Engine.SetPropertyThenRest | template-engine.js:33-41 | one setProperty followed by the rest equals setting all at once, so the order of writes to distinct names does not matter |
| Engine.PageWritesAreSetProperties | template-engine.js:72-73 | writing the page width and then the page height sets exactly the page variables |
| Engine.ThemeVariablesAfterInit | template-engine.js:15-17 | after colours, fonts and format, each variable holds its configured value (or is absent when that value is empty) and all other properties are unchanged |
| Engine.FlyerEngine.constructor | template-engine.js:8-11 | a new engine has its config path and no config |
| Engine.FlyerEngine.WithDefaultPath | template-engine.js:8-11 | an engine created without a path reads `flyer-config.json` and has no config |
| Engine.FlyerEngine.LoadConfig | template-engine.js:23-27 | a not-ok response fails with the path, an unparsable body fails, and in both cases config is unchanged; otherwise config is the parsed record |
| Engine.FlyerEngine.ApplyColors | template-engine.js:30-42 | the style is the old style with the nine colour variables set through setProperty |
| Engine.FlyerEngine.ApplyFonts | template-engine.js:45-55 | the style is the old style with the three stacks and their bare family names set through setProperty |
| Engine.FlyerEngine.ApplyFormat | template-engine.js:58-80 | a missing format changes nothing; otherwise the page variables hold the oriented size and the `@page` text is `@page { size: w h; margin: 0; }` when that element exists |
| Engine.FlyerEngine.BuildSpreads | template-engine.js:83-136 | the outcome and the container's new children are those the `Render` functions define for the config and the old children |
| Engine.FlyerEngine.BuildPanels | template-engine.js:120-132 | the panels built for a spread are the specified ones: content by index, with a fold line on every panel but the last |
| Engine.FlyerEngine.UpdateInfoHeader | template-engine.js:225-242 | the info element, when present, holds the config's summary; otherwise nothing changes |
| Engine.FlyerEngine.Init | template-engine.js:13-20 | a failed load changes nothing on the page. Otherwise the steps run in order: a missing format aborts in buildSpreads before the info header, and every other loaded config completes and writes the summary when the info element exists |
| Engine.RebuildIsIdempotent | template-engine.js:83-136 | two builds in a row report the same outcome and leave the same children |

## Left out

- Fetching and parsing the configuration file is I/O. The result enters as a `Fetched` value: a not-ok response, an unparsable body, or a parsed record. A rejected `fetch` (network failure) is not modelled separately.
- The `DOMContentLoaded` bootstrap is not modelled. It catches the error and replaces the page body with an error message. `Init` returns the error instead.
- `console.warn`, CSS class strings, element creation and the exact HTML of panels, placeholders and the info header are presentation. Panels, spreads, labels and the summary are abstract records.
- `Engine.FlyerEngine.ApplyColors` and `ApplyFonts` apply the nine (resp. six) writes in one `SetProperties` step instead of one `setProperty` call after another. The names within a step are pairwise distinct, so the order of the writes does not matter (`Engine.SetPropertyThenRest`).
- `Render.ParseLength` reads only the leading decimal digits. It stands in for `parseFloat`, whose handling of fractions, signs, exponents and leading whitespace involves floating point and is not modelled. A length without leading digits gives `NaN`, as `parseFloat` does. The exception is a width starting with `Infinity`: `parseFloat` reads it as infinity, and the model gives `NaN`.
- Imposition.GroupPanelsIntoSpreads: the fallback builds `[1..n]` for every natural n. In the code, `Array.from({ length: n })` throws a RangeError for n of 2^32 or more (template-engine.js:163), which would end `init`. That bound is not modelled.
- FlyerConfig.ActiveDims and FlyerConfig.ActiveLayout treat a key that names an `Object.prototype` member (such as `toString` or `constructor`) as absent when the table has no entry of its own. In JavaScript, `fmt.options[fmt.active]` and `layout.options[layoutKey]` find the inherited member, which is truthy. The code then writes `undefined` to the page variables and the `@page` text, builds spreads of NaN width, or builds an empty fallback spread. The model takes the missing-format or missing-layout path instead.
- Engine.SetProperty models only the empty-value rule of `setProperty`. The CSS Object Model also leaves the property unchanged when the value does not parse as a custom-property value, for example with a top-level `;` or `!`, or an unmatched `)`, `]` or `}`. The model writes such values verbatim.
- Configuration values are strings and numbers as the documented format gives them. A missing colour, font or branding object is not modelled; in the code it would throw or write `undefined`. A panel record's own fields may be absent.
- The React marketing site is user-interface chrome: `App.tsx`, `components/*.tsx`, the animated mock-up and the icon URL builder.
