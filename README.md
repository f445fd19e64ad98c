# Planting-record form: a Dafny model of its submit path

The app is a single React Native screen (`App.js`) on which a farmer records
a planting: crop (`cultura`), planting date (`dataPlantio`, text
`DD/MM/AAAA`), seed quantity in kg (`quantidadeSementes`, text) and whether
the soil is fertile (`soloFertil`). Pressing the register button runs
`registrarPlantacao`. It validates the form with `validarDados`, which runs
three checks in a fixed order and stops at the first failure. It then builds
a record stamped with `Date.now()`, puts it in front of the history list
`plantacoes` and clears the form.

This project models that path:

- `decimal.dfy` (module `Decimal`): ASCII digits and the value of a digit
  string, with the canonical rendering of a natural number and round trips
  both ways.
- `js_number.dfy` (module `JsNumber`): JavaScript `parseFloat` over exact
  reals. It skips leading white space (ECMA-262's StrWhiteSpaceChar), reads an
  optional sign, then either `Infinity` or the longest decimal prefix
  `digits[.digits][e±digits]`, and ignores the rest. NaN is `None`.
- `date_shape.dfy` (module `DateShape`): the expression
  `^\d{2}\/\d{2}\/\d{4}$` as pieces with exact repeat counts, matched against
  the whole text, and proved equal to a character-by-character description of
  `DD/MM/YYYY`.
- `validation.dfy` (module `Validation`): the three checks, their order and
  their exact Portuguese messages.
- `records.dfy` (module `Records`): the record and its soil label.
- `planting_app.dfy` (module `PlantingApp`): the component state as a value
  (`FormState`) with the specification functions `Validated`, `Submit`,
  `Step` and `Run`. The class `App` holds the same state as fields (App.js:21-26).
  Its methods `ValidarDados` and `RegistrarPlantacao` and the four field
  setters are proved to change the fields exactly as those functions say.

`Date.now()` is a parameter (`timestamp`) of `RegistrarPlantacao`.

React does not apply a state update at the moment the setter is called, and
reads inside the handler see the values from before it started. The updates
made before the `await` at App.js:94 are committed when the handler stops
there, and the form reset after it is committed later. The handlers only read
fields they have not yet written, so the model applies each update at once
and ends in the same state. In particular, `erro` is first cleared and then
possibly set again, so the value left is the last one written.

Storage errors are caught and logged (App.js:37-39, 51-53). The new list is
set before the save (App.js:92-94), so a failed save leaves the record in the
list and nothing rolls it back. The crop is not checked against the picker's
four values (App.js:124-127).

## Model

| member | source | states |
|---|---|---|
| `JsNumber.TrimStartDropsWhiteSpace` | App.js:71 | `parseFloat` skips leading white space: the part dropped is all white space, and what remains does not start with white space |
| `JsNumber.DigitRunIsLongest` | App.js:71 | the digit run read by `parseFloat` is the longest run of digits: it stops at the end or at a non-digit |
| `JsNumber.UnsignedDecimalPrefix` | App.js:71 | a decimal literal without a sign never reads as a negative value |
| `JsNumber.NaNExactly` | App.js:71 | `parseFloat` gives NaN exactly when the text after white space and sign starts with neither `Infinity`, nor a digit, nor a dot followed by a digit |
| `JsNumber.ParseDecimalText` | App.js:71 | a natural number written in decimal, followed by text that does not continue the literal (such as `kg`), reads back as that number |
| `JsNumber.LeadingWhiteSpaceIgnored` | App.js:71 | adding white space in front of the text never changes what `parseFloat` returns |
| `JsNumber.SignApplied` | App.js:71 | a leading `-` negates the value that follows (NaN stays NaN) and a leading `+` changes nothing |
| `JsNumber.NegatedDecimalText` | App.js:71 | minus a natural number reads as its negation and is never positive |
| `JsNumber.EmptyIsNaN` | App.js:71 | `parseFloat` of the empty text is NaN |
| `DateShape.DatePatternIsShape` | App.js:64-69 | the date expression accepts a text exactly when it has length 10, digits at positions 0-1, 3-4 and 6-9, and `/` at positions 2 and 5 |
| `DateShape.ShortTextRejected` | App.js:65 | no text shorter than ten characters matches the date expression |
| `DateShape.ShapeOnly` | App.js:65-66 | no calendar check: `31/13/9999` passes; `15-09-2025`, `5/9/2025` and a date followed by a newline fail |
| `Validation.ErrorTextDecodes` | App.js:59-75 | the error text is empty exactly when no check failed, and different failures leave different texts |
| `Validation.RequiredFieldsFirst` | App.js:60-63 | the result is "missing field" exactly when the date or the quantity text is empty, whatever the other holds |
| `Validation.DateCheckSecond` | App.js:64-69 | the result is "bad date" exactly when both texts are non-empty and the date lacks the `DD/MM/YYYY` shape |
| `Validation.QuantityCheckThird` | App.js:71-74 | the result is "bad quantity" exactly when both earlier checks pass and `parseFloat` of the quantity is NaN or not positive |
| `Validation.AcceptedExactly` | App.js:58-76 | validation passes exactly when the date has the shape and the quantity reads as a positive number |
| `Validation.SamplesBeforeQuantity` | App.js:60-69 | an empty date beside the quantity `abc` is a missing field, not a bad quantity; `15-09-2025` is a bad date |
| `Validation.NegativeQuantityRejected` | App.js:71-74 | with a good date, any negative whole number is rejected as a bad quantity |
| `Validation.WholeNumberQuantity` | App.js:71-74 | with a good date, a whole number, alone or followed by text that does not continue the literal (such as `kg`), passes exactly when it is not zero; zero is a bad quantity |
| `Validation.NonNumericQuantityRejected` | App.js:71-74 | with a good date, a quantity whose first character cannot start a number (such as `abc`) is NaN and so a bad quantity |
| `Records.SoilLabel` | App.js:88 | the label is `Fértil` exactly when the switch is on, and `Não Fértil` otherwise |
| `Records.SoilLabelRoundTrip` | App.js:88 | the check `item.solo === 'Fértil'` made when the list is drawn (App.js:180) recovers the switch state from the label |
| `Records.NewRecord` | App.js:83-89 | the record's id is the timestamp; crop and date are copied unchanged; the quantity is `parseFloat` of the text; the label reflects the switch |
| `PlantingApp.SubmitRejected` | App.js:79-81 | a rejected press leaves the list and all four form fields unchanged and sets `erro` to the failing check's message |
| `PlantingApp.SubmitAccepted` | App.js:83-99 | an accepted press grows the list by one. The new head is the new record (timestamp, crop, date, parsed quantity, label) and passed validation, and the tail is the old list. Date, quantity and switch are reset, the crop is kept and `erro` is empty |
| `PlantingApp.ErrorTextTellsOutcome` | App.js:58-99 | after a press, `erro` is empty exactly when the list grew by one record |
| `PlantingApp.NewestFirst` | App.js:91-92 | two accepted presses, with the date, quantity and switch re-entered between them, leave `[R2, R1] + old`; different timestamps give different ids |
| `PlantingApp.PressEditPress` | App.js:78-101 | a press, three field edits and a press amount to two submissions around the three field updates |
| `PlantingApp.RunEdits` | App.js:135-155 | re-entering date, quantity and switch replaces exactly those three fields |
| `PlantingApp.EditsThenAcceptedPress` | App.js:83-92 | re-entering an acceptable date and quantity and pressing prepends a record of exactly those entries, with the current crop |
| `PlantingApp.StepHistory` | App.js:79-92 | one action changes the list only when it is an accepted press, which prepends the new record; only the picker changes the crop |
| `PlantingApp.StepGrowsAtFront` | App.js:91-92 | any single user action either leaves the list alone or puts one validated record in front |
| `PlantingApp.GrownAtFrontTransitive` | App.js:91 | growing the list at the front twice is growing it at the front |
| `PlantingApp.HistoryGrowsAtFront` | App.js:91-92 | over any sequence of edits and presses, the old list stays intact at the back, and every record added in front passed validation |
| `PlantingApp.OrderedWhileClockAdvances` | App.js:84-91 | if each press happens later than the one before, the list stays ordered newest first by id |
| `PlantingApp.PrependKeepsOrder` | App.js:84-91 | a record whose id is larger than every id in an ordered list can go in front and the list stays ordered |
| `PlantingApp.App.constructor` | App.js:21-26 | the mount state: crop `soja`, empty date and quantity, switch off, empty list, empty `erro` |
| `PlantingApp.App.SetCultura` | App.js:123 | the crop picker replaces `cultura` and nothing else |
| `PlantingApp.App.SetDataPlantio` | App.js:135 | the date input replaces `dataPlantio` and nothing else |
| `PlantingApp.App.SetQuantidadeSementes` | App.js:145 | the quantity input replaces `quantidadeSementes` and nothing else |
| `PlantingApp.App.SetSoloFertil` | App.js:155 | the switch replaces `soloFertil` and nothing else |
| `PlantingApp.App.ValidarDados` | App.js:58-76 | returns true exactly when no check fails; `erro` ends up holding the first failing check's message, or empty; nothing else changes |
| `PlantingApp.App.RegistrarPlantacao` | App.js:78-101 | the new state is `Submit` of the old one. On rejection the list is unchanged; on acceptance the old list is the tail of the new one |

## Left out

- Persistence: `salvarPlantacoes` and `carregarPlantacoes` (App.js:33-54) are not part of this model. They write and read the list through AsyncStorage as JSON. Errors are only logged, and there is no rollback. The model neither claims nor models a stored copy. Records that a load brings in are not validated by the code, so `HistoryGrowsAtFront` speaks only about records added by presses.
- The mount effect (`useEffect`, App.js:105-107), the success dialog (`Alert.alert`, App.js:100) and `console.error`: framework and side-channel calls.
- Rendering: JSX, picker items, switch colours, the list and the styles (App.js:110-301). The only part used is the label test at App.js:180, which `Records.ShowsFertile` models.
- The `await` at App.js:94: the form is cleared after the save finishes. Edits made while the save is pending, and a second press before the first finishes, are not modelled; each handler runs to completion.
- JsNumber.ParseFloat: values are exact reals, not IEEE-754 doubles. A number too small for a double (`1e-400`) reads as 0 and fails the quantity check in the app, but reads as positive here. Overflow to `Infinity` and rounding of long fractions are not modelled either. `Infinity`, exponents and all StrWhiteSpaceChar code points are modelled.
- Uniqueness of `id`: the code relies on `Date.now()` being unique and never checks it. `PlantingApp.OrderedWhileClockAdvances` therefore takes a clock that moves forward between presses as an assumption.
- The crop is free text in the model. The code takes whatever the picker supplies and does not check it against the four crops.
- The mount load: `carregarPlantacoes` calls `setPlantacoes(JSON.parse(...))` (App.js:45-50) when the read finishes, which can be after a press, and it then replaces the whole list. `Event` has no case for it, so `PlantingApp.HistoryGrowsAtFront` and `PlantingApp.OrderedWhileClockAdvances` describe sessions that start after the load has finished.
