# Maize yield prediction form — verified model

This project models the logic inside the maize yield prediction form. The form collects
nine agronomic inputs: sowing date, nitrogen and phosphorus applied, soil pH, average
temperature, rainfall and humidity, plant density and seed type. It checks them against
fixed ranges and sends them in one request to a prediction endpoint. It then labels the
predicted yield (kg/ha) with a category.

Modules:

- `Wrappers`: an `Option` type.
- `Prediction`: the records of `project/src/types/prediction.ts`. These are `FormData`, the
  `SeedType` enum, `PredictionResult` and `FormErrors` (a `map<Field, string>`). `Field`
  names the nine fields, and `Get` reads a field by name.
- `PredictionForm`: the form controller of `project/src/components/PredictionForm.tsx`.
  - `Validate` is the rule table. It is stated against `FieldValid`, a per-field range
    predicate.
  - `Controller` is a class whose fields are the component's five state cells (`formData`,
    `errors`, `isLoading`, `result`, `apiError`). It also has a ghost log of the request
    bodies it has sent.
  - The change handler and the submit handler are methods of `Controller`. The submit
    handler is split at its one suspension point: `BeginSubmit` runs up to the request and
    `CompleteRequest` runs after it resolves. `HandleSubmit` runs both.
  - The network is an abstract `FetchOutcome` parameter: a 2xx response with a yield, a
    non-ok status, or a thrown value.
- `Decimal`: the decimal text of an HTTP status, as the error message interpolates it. It
  comes with a parser that reads the text back.
- `ResultsCard`: `getYieldCategory` from `project/src/components/ResultsCard.tsx`.

`parseFloat` is a parameter `parse: string -> Option<real>` of the change handler. `None`
stands for a `NaN` result. Numbers are `real`.

## Model

| member | source | states |
|---|---|---|
| `Prediction.ParseSeedType` | project/src/types/prediction.ts:10 | only the three option texts are read as a seed type, and each is read as the seed whose name it is |
| `Prediction.GetDeterminesRecord` | project/src/types/prediction.ts:1-11 | two records that agree on each of the nine fields are the same record, so "every other field is unchanged" pins down the whole record |
| `PredictionForm.Validate` | project/src/components/PredictionForm.tsx:27-64 | a field is in the error map exactly when it is out of range. The ranges are: date non-empty, nitrogen > 0, phosphorus > 0, 0 < pH <= 14, -50 < temperature <= 60, rainfall >= 0, 0 <= humidity <= 100, density > 0, seed type non-empty. Each entry is that field's own message |
| `PredictionForm.ValidateEmptyIffAllValid` | project/src/components/PredictionForm.tsx:66-67 | validation succeeds (the map is empty) if and only if every field is in range |
| `PredictionForm.RuleDependsOnlyOnItsField` | project/src/components/PredictionForm.tsx:30-64 | whether a field is reported depends only on that field's value; an invalid field never hides or causes an error on another |
| `PredictionForm.NoSeedTypeError` | project/src/components/PredictionForm.tsx:62-64 | no seed-type error is ever produced, since every seed type has a non-empty name |
| `PredictionForm.InitialFormDataFails` | project/src/components/PredictionForm.tsx:10-20 | the initial record fails on exactly the sowing date, nitrogen, phosphorus, pH and plant density |
| `PredictionForm.ExampleRecordScenarios` | project/src/components/PredictionForm.tsx:34-36 | a complete in-range record passes; the same record with nitrogen 0 gives an error on nitrogen only |
| `PredictionForm.FailureMessage` | project/src/components/PredictionForm.tsx:103-114 | the message a failed request leaves is never empty. For a non-ok status it is longer than the status prefix. For a thrown `Error` it is "Failed to get prediction: " followed by exactly that error's message. For any other thrown value it is the generic "please try again" text |
| `PredictionForm.HttpStatusInMessage` | project/src/components/PredictionForm.tsx:104 | the message of a non-ok response contains its status, which can be parsed back out of it |
| `PredictionForm.HttpErrorMessagesDiffer` | project/src/components/PredictionForm.tsx:104 | different statuses give different messages |
| `PredictionForm.Controller.constructor` | project/src/components/PredictionForm.tsx:10-25 | the initial record, no errors, not loading, no result, no message; lifecycle state Idle |
| `PredictionForm.Controller.ValidateForm` | project/src/components/PredictionForm.tsx:27-68 | the stored errors are replaced wholesale by the new map, keeping no old entry; the result is true exactly when that map is empty |
| `PredictionForm.Controller.HandleInputChange` | project/src/components/PredictionForm.tsx:70-81 | only the named field changes. A number control stores the parsed number, or 0 when parsing fails; the date and the select store the raw text. A non-empty error on that field becomes '' and stays in the map. Other error entries, loading, result and message are unchanged |
| `PredictionForm.Controller.BeginSubmit` | project/src/components/PredictionForm.tsx:83-101 | callable only while the submit button is enabled. Errors become the new validation map. On failure nothing else changes and no request is sent. On success: loading on, result and message cleared, exactly one request whose body is the current record, state InFlight |
| `PredictionForm.Controller.CompleteRequest` | project/src/components/PredictionForm.tsx:103-117 | a 2xx response stores its yield (Succeeded); any other outcome stores the catch block's message (Failed). Loading always ends false |
| `PredictionForm.Controller.HandleSubmit` | project/src/components/PredictionForm.tsx:83-118 | callable only while the submit button is enabled (not loading). Once the handler runs, a request is sent exactly when every field is in range. Without one, loading, result, message and state are unchanged. With one, it ends not loading, with either the yield or the failure message |
| `Decimal.NatToString` | project/src/components/PredictionForm.tsx:104 | the status text is a non-empty run of digits with no leading zero |
| `Decimal.ParseNatToString` | project/src/components/PredictionForm.tsx:104 | parsing the decimal text of a number gives the number back |
| `Decimal.NatToStringInjective` | project/src/components/PredictionForm.tsx:104 | different numbers have different texts |
| `ResultsCard.GetYieldCategory` | project/src/components/ResultsCard.tsx:19-24 | Excellent iff yield >= 8000; Good iff 6000 <= yield < 8000; Average iff 4000 <= yield < 6000; Below Average iff yield < 4000, negatives included. The result is always one of the four fixed category/color/bg triples |
| `ResultsCard.CategoryMonotone` | project/src/components/ResultsCard.tsx:19-24 | a larger yield never gets a lower-ranked category |
| `ResultsCard.CategoryDeterminesColors` | project/src/components/ResultsCard.tsx:20-23 | two yields with the same label get the same colors, so the triples are never mixed |
| `ResultsCard.BoundaryYields` | project/src/components/ResultsCard.tsx:19-24 | 8000 is Excellent; 7999.99, 7200 and 6000 are Good; 4000 is Average; 3999.99 and -1 are Below Average |

## Left out

- Rendering is left out: the JSX of both components, the Tailwind classes, `FormInput`, `LoadingSpinner` and `App`. So are `formatDate` and the `toLocaleString` calls in the results card, which are locale library calls.
- The browser's own constraint validation is not modelled. The inputs carry `required`, `min`, `max` and `step`, and the step is 1 where none is given. The browser can block a submit before `handleSubmit` runs; for example, nitrogen 12.5 passes `Validate` but breaks the default step. The submit contracts describe the handler once it runs, not every click.
- `FormSelect` is not part of this model. `HandleInputChange` requires that a select emits one of the three option texts.
- The change event's `name` is modelled as one of the nine fields. Each field's control kind (number, date or select) is fixed as the form wires it. An event naming any other key is not modelled.
- `fetch`, the JSON request and response bodies and `response.json()` are left out. The outcome of the one request is a parameter. The request body is recorded as the `FormData` value that `JSON.stringify` would serialise.
- `FetchOutcome.HttpError` stands for any response whose `ok` flag is false. The mapping from status ranges to `ok` is not modelled.
- The `await` suspension, React's batching of state updates and the stale read of `errors` in the change handler are not modelled. Each handler is one sequential transition, and the submit handler is two: before and after the request.
- IEEE floating point is not modelled: `NaN`, `-0`, infinities and how `parseFloat` reads text. Numbers are reals and `parse` is a parameter.
- `e.preventDefault()` is browser behaviour and is left out.
