# Quote builder core, modelled in Dafny

This project models the logic of a single-page quote builder ("Construtor de Orçamentos").
A user edits one quote document: a client name, three ordered item lists (services,
observations, details), header and footer choices, images and company data. A print
preview is derived from that document. The model covers:

- the document's shapes (`QuoteTypes`, from `types.ts`): `QuoteItem` with an optional
  `real` value, `DisplayType` with exactly the two values `Image` and `Template`, and
  `QuoteData` with nullable opaque image handles;
- the per-section list handlers (`Sections`): edit-by-id as a map, add as an append of a
  blank item, remove-by-id as a filter, and the two input callbacks that feed the edit;
- the total (`Totals`): the `reduce` over services ++ observations ++ details, with an
  absent value adding 0, proved equal to an independent recursive sum;
- the preview's visibility rules (`Preview`): header and footer variant, background layer,
  section blocks, shown items, the TOTAL line, and the absent-value guard of `formatCurrency`;
- the state cell (`State`): `updateQuoteData` as a typed single-field replacement `With`,
  and a `QuoteStore` class whose methods replace the document the way the editor does.

Inputs that come from outside are parameters:
- `parse: string -> Option<real>` stands for `parseFloat`, with `None` for NaN;
- `show: real -> string` stands for `String(number)`;
- `format: real -> string` stands for the pt-BR currency formatter;
- `now` stands for the `Date.now()` id;
- `year` stands for the current year.

In these points the model follows the code's actual behaviour:
- Presence tests use JavaScript truthiness (`x ? … : …`, `x && …`). So an empty image
  handle, like `null`, shows the placeholder or no background. An item with empty text is
  not printed.
- Item ids are not unique by construction: the id is a clock reading. Uniqueness
  (`Sections.UniqueIds`) is a hypothesis of the lemmas that need it. The lemmas prove that
  edit and remove preserve it, and that add preserves it when the new id is fresh.
- Nothing stops a negative value from being typed: `min="0"` is only advisory. So
  "total ≥ 0" is proved under `Totals.NonNegative`.
- `backgroundOpacity` is stored as given. The core does not keep it in [0, 1].

## Model

| member | source | states |
|---|---|---|
| `Sections.ChangeItem` | App.tsx:84-92 | same length; every item whose id differs is unchanged; every item whose id matches (duplicates included) becomes that id with the new text and the parsed value, absent when the parse gives NaN |
| `Sections.AddItem` | App.tsx:95-97 | exactly one item is appended: the earlier items are kept as a prefix, the new last item has the given id, empty text and no value |
| `Sections.RemoveItem` | App.tsx:99-101 | an item is kept iff it was in the list and its id differs; the result is no longer than the input |
| `Sections.ValueText` | App.tsx:57 | `String(item.value \|\| '')`: an absent value and a value of 0 both give ""; specified by `TextEditDropsZero` |
| `Sections.OnTextInput` | App.tsx:57 | the description input's callback: an edit of the item's id with the new text and the re-sent value; specified by `TextEditDropsZero` |
| `Sections.OnValueInput` | App.tsx:66 | the value input's callback: an edit of the item's id with the item's text and the typed string; specified by `ValueEditKeepsText` |
| `Sections.ChangeKeepsIds` | App.tsx:85-91 | an edit keeps the id at every position |
| `Sections.ChangeUnknownId` | App.tsx:84-92 | editing an id no item carries is a no-op |
| `Sections.ChangeKeepsUniqueIds` | App.tsx:84-92 | an edit preserves unique ids |
| `Sections.RemoveAppend` | App.tsx:99-101 | remove distributes over concatenation, so the kept items keep their original order |
| `Sections.RemoveUnknownId` | App.tsx:99-101 | removing an id no item carries is a no-op |
| `Sections.RemoveIdempotent` | App.tsx:99-101 | removing the same id twice equals removing it once |
| `Sections.RemoveKeepsUniqueIds` | App.tsx:99-101 | a remove preserves unique ids |
| `Sections.AddKeepsUniqueIds` | App.tsx:95-97 | an add with an id not yet in the list preserves unique ids |
| `Sections.AddThenRemove` | App.tsx:95-101 | adding an item with a fresh id and then removing that id restores the original list |
| `Sections.TextEditDropsZero` | App.tsx:57 | a description edit gives every item that shares the edited item's id the new text and that item's value, except that a value of 0 becomes absent |
| `Sections.ValueEditKeepsText` | App.tsx:66 | a value edit keeps the item's id and text and stores the parsed value |
| `Totals.Amount` | App.tsx:147 | `item.value \|\| 0`: what one item adds, 0 when absent; used by `Sum` and `FoldValues` |
| `Totals.FoldValues` | App.tsx:146-147 | the `reduce` from an accumulator, left to right; specified by `FoldIsSum` |
| `Totals.Total` | App.tsx:145-148 | the reduce over services ++ observations ++ details from 0; specified by `FoldIsSum`, `TotalIsSectionSum` and `TotalPositiveIff` |
| `Totals.FoldIsSum` | App.tsx:145-148 | the left fold from an accumulator equals the accumulator plus the recursive sum of amounts |
| `Totals.SumAppend` | App.tsx:145-148 | the sum is additive over list concatenation |
| `Totals.TotalIsSectionSum` | App.tsx:145-148 | the total equals the sum over services plus observations plus details |
| `Totals.TotalOfEmptyLists` | App.tsx:145-148 | three empty lists total 0 |
| `Totals.SumPositiveIff` | App.tsx:145-148 | with non-negative values a list sums to at least 0, and to more than 0 iff some item has a positive amount |
| `Totals.TotalPositiveIff` | App.tsx:145-148 | with non-negative values the total is at least 0, and positive iff some item of some section has a positive amount |
| `Totals.SumAddItem` | App.tsx:95-97 | adding a blank item leaves the sum unchanged |
| `Totals.SumRemoveItem` | App.tsx:99-101 | with unique ids, removing an item takes exactly its amount off the sum |
| `Totals.SumChangeItem` | App.tsx:84-92 | with unique ids, an edit replaces the edited item's amount in the sum by the parsed amount |
| `Preview.Present` | App.tsx:271 | a nullable string tested as a JavaScript condition: false for null and for "" (the same test at lines 119, 259 and 334); used by `Header`, `Footer` and `Background` |
| `Preview.FormatCurrency` | App.tsx:40-43 | an absent value formats as ""; a present value formats as the formatter gives it |
| `Preview.Header` | App.tsx:270-280 | picture iff the type is image and a header image is present; placeholder iff the type is image and none is present; the text template, with company name, email, phone and the logo only when present, iff the type is template |
| `Preview.Footer` | App.tsx:333-343 | picture iff the type is image and a footer image is present; placeholder iff the type is image and none is present; the copyright line with the given year and the company name iff the type is template |
| `Preview.Background` | App.tsx:259-267 | the background layer exists iff a background image is present, and it carries that image and the configured opacity |
| `Preview.Shown` | App.tsx:289-294 | an item is printed iff it is in the list and its text is non-empty; with `ShownAppend`, every such occurrence is printed once, in list order |
| `Preview.SectionBlock` | App.tsx:287-321 | a block is drawn iff its list is non-empty, with one line per shown item, in order, each with the item's text and its formatted value |
| `Preview.TotalLine` | App.tsx:324-329 | the TOTAL line is drawn iff the total is positive, and it shows the formatted total |
| `Preview.ShownAppend` | App.tsx:289 | the shown-items filter distributes over concatenation, so every occurrence of an item with text is printed once, in list order (the same map at lines 302 and 314) |
| `Preview.SuppressedStillCount` | App.tsx:287-321 | the sum over a list equals the sum over its printed items plus the sum over its suppressed empty-text items |
| `Preview.AllShown` | App.tsx:289-294 | a list whose items all have text is printed in full |
| `Preview.Render` | App.tsx:258-346 | the printed page of a document: background, header, client name, three blocks, TOTAL line, footer; specified by the contracts of its parts and by `RenderVisibility` |
| `Preview.RenderVisibility` | App.tsx:259-343 | on the rendered page each block is present iff its list is non-empty; the TOTAL line is present iff the three section sums add up to more than 0; the background is present iff a background image is |
| `Preview.TotalLineIffPositiveItem` | App.tsx:324-329 | with non-negative values the TOTAL line is printed iff some item of some section has a positive value |
| `State.With` | App.tsx:137-139 | the named field holds the new value and every other field is unchanged |
| `State.FieldsDetermine` | types.ts:7-24 | two documents that agree on every field are equal |
| `State.WithCurrentValue` | App.tsx:137-139 | storing a field's current value changes nothing |
| `State.WithTwice` | App.tsx:137-139 | of two updates to the same field, the later one wins |
| `State.WithCommutes` | App.tsx:137-139 | updates to two different fields commute |
| `State.Initial` | App.tsx:9-37 | the starting document, field by field; specified by `InitialTotal` and `InitialServiceEdit` |
| `State.InitialTotal` | App.tsx:9-37 | the starting document totals 2900 |
| `State.InitialServiceEdit` | App.tsx:84-92 | editing service "2" of the starting document to "Novo texto" with "800" rewrites that item and no other |
| `State.AddThenRemoveDocument` | App.tsx:141-143 | at document level, add with a fresh id followed by remove of that id leaves the document unchanged |
| `State.QuoteStore.constructor` | App.tsx:135 | the state starts as the initial document |
| `State.QuoteStore.Update` | App.tsx:137-139 | the named field now holds the value and every other field keeps its old value |
| `State.QuoteStore.SetItems` | App.tsx:141-143 | the section's list is replaced and every other field keeps its old value |
| `State.QuoteStore.ChangeItem` | App.tsx:84-92 | the section's list becomes the edit of its old list and every other field keeps its old value |
| `State.QuoteStore.AddItem` | App.tsx:95-97 | the section's list becomes its old list with a blank item appended and every other field keeps its old value |
| `State.QuoteStore.RemoveItem` | App.tsx:99-101 | the section's list becomes its old list without the given id and every other field keeps its old value |

## Left out

- Preview.FormatCurrency: a present value is formatted by a parameter. The pt-BR currency format (`Intl.NumberFormat`, for example "R$ 1.500,00") is a foreign library call and is not modelled.
- `parseFloat` and `String(number)` are parameters. `Sections.TextEditDropsZero` assumes only the two facts it needs: `parseFloat("")` is NaN, and a number survives `String` then `parseFloat`.
- Floating point: values are exact reals. IEEE-754 rounding in the sum, NaN stored as a value, and `Infinity` are not modelled. The edit never stores NaN.
- `Date.now()` ids and `new Date().getFullYear()` are clock reads, passed in as `now` and `year`.
- `updateQuoteData` takes `value: any`. `State.With` requires the value to have the field's declared type (`State.Fits`), and every caller in App.tsx passes such a value.
- React mechanics (`useState`, `useMemo`, re-rendering) are framework plumbing. The state is one field that is replaced, and the total is a function of it. The section handlers build their list from the list of the last render. The model assumes, as single-threaded event dispatch gives, that each event sees the current state.
- JSX markup, CSS classes, A4 sizing, the fixed headings, the "Cliente:" label, the text alignment of the template header, and the font family and text colour applied to the preview are presentational. The fonts (`FONT_OPTIONS`) and the colour are stored by `State.With` but have no other logic.
- The editing form's own conditional layout (lines 191-213) and the value input showing 0 as empty (line 65) are form presentation. They do not change the document.
- Image selection (`ImageUploader`, `BackgroundImageSelector`), `window.print()` and the icons are browser I/O or components whose source is not part of this model.
