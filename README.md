# Lead scoring: a verified model of the decision logic

The system is a small lead-scoring web application. A React client collects
about thirty-five attributes of a sales lead in a form and posts them to a
FastAPI service. The service runs a trained classifier and answers with a
quality label: High, Medium or Low. The client then builds a complete result
from that label. It draws a score inside the band the label names, sets
acceptance for High and Medium, and draws a confidence. It lists the first four
attribute names as the factors used. When the request fails, the client records
an error message and still shows a randomly drawn stand-in result. Other views
sort leads into three quality tiers and five score ranges, and show an
acceptance rate.

This project models that decision logic in Dafny and proves what each piece
promises:

- `Quality`: the three tiers and their thresholds, 0.8 and 0.6.
- `LeadCard` and `PredictionResult`: both copies of the colour and caption
  helpers, the numeric safeguards and the "N other factors" summary.
- `QualityChart`: the tier count and the range count, as loops proved against
  recursive counting functions.
- `LeadStats`: the acceptance rate.
- `Backend`: the label-to-triple mapping and the 400 error translation.
- `LeadData`: the hook state (`result`, `loading`, `error`) as a class with
  methods for the start of a prediction, its settlement and its dismissal.
- `LeadInputForm`: the form state as a class. It covers field coercion,
  section toggling and the initial record.
- `IndexPage`: which of spinner, error banner, form and result is on the page,
  and one visit from the form to the result and back.
- `Records`, `Text` and `Wrappers` are supporting modules:
  - `Records` is an ordered record, so that `Object.keys` and Python `dict`
    key order are explicit.
  - `Text` holds decimal printing and a `parseFloat` prefix parser.
  - `Wrappers` holds `Option` and `Result`.

Modelling conventions:

- Scores are `real`.
- Each `Math.random()` draw is a parameter `r` with `0 <= r < 1`.
- How a request ends is an input (`FetchOutcome`): a response with a status,
  its text reading and its JSON reading (either of which may fail), or a
  rejected fetch.
- On the service side, a run of the trained model is an input (`ModelRun`): a
  label, or the text of the exception it raised.

Points where the code decides something worth knowing:

- A response whose JSON has no `prediction` field is not an error. It yields
  a Low-band result whose `prediction` is missing.
- JavaScript truthiness is kept. An `Error` thrown with an empty message
  leaves `error` as the empty string. The banner then stays hidden and, once
  the result is dismissed, the form shows again.
- After a failure, the page shows the error banner and the stand-in result
  together.
- The stand-in's label, score and acceptance come from independent draws. A
  stand-in can be labelled Low yet carry a High-tier score and be rejected
  (`LeadData.FallbackCanContradictItself`).
- The tier count and the range count split at 0.8 and 0.6 differently. The
  tiers include the boundary in the upper tier; the ranges include it in the
  lower range.

## Model

| member | source | states |
|---|---|---|
| `Quality.TierOf` | src/components/QualityChart.tsx:24-26 | the tier chosen by the two thresholds is one whose interval holds the score |
| `Quality.TiersPartition` | src/components/PredictionResult.tsx:49-53 | every real score lies in some tier, and a tier holds the score exactly when it is the one chosen by the thresholds: the tiers are total and exclusive |
| `Quality.NamesDistinct` | src/components/LeadCard.tsx:24-34 | distinct tiers have distinct captions and distinct colour classes |
| `Quality.TierNamesInjective` | src/components/PredictionResult.tsx:42-53 | a caption or a colour class identifies its tier |
| `LeadCard.QualityColor` | src/components/LeadCard.tsx:24-28 | the colour returned is a tier's colour exactly when the score lies in that tier (green High, yellow Medium, red Low) |
| `LeadCard.QualityLabel` | src/components/LeadCard.tsx:30-34 | the caption returned is a tier's caption exactly when the score lies in that tier |
| `LeadCard.BadgeText` | src/components/LeadCard.tsx:42-49 | the badge reads "Accepted" exactly when the lead is accepted and "Rejected" exactly when it is not |
| `LeadCard.ColorMatchesLabel` | src/components/LeadCard.tsx:24-34 | for every score and tier, the colour is the tier's colour exactly when the caption is the tier's caption |
| `PredictionResult.DisplayNumber` | src/components/PredictionResult.tsx:38-39 | a missing value is shown as 0 and a present number is shown as itself |
| `PredictionResult.Features` | src/components/PredictionResult.tsx:56 | a missing factor list reads as empty, and a present one reads as itself |
| `PredictionResult.QualityColor` | src/components/PredictionResult.tsx:42-46 | the colour is a tier's colour exactly when the score lies in that tier |
| `PredictionResult.QualityLabel` | src/components/PredictionResult.tsx:49-53 | the caption is a tier's caption exactly when the score lies in that tier |
| `PredictionResult.CopiesAgree` | src/components/PredictionResult.tsx:42-53 | this view's colour and caption helpers equal the lead card's on every score |
| `PredictionResult.ColorMatchesLabel` | src/components/PredictionResult.tsx:96-97 | the colour dot and the caption always name the same tier |
| `PredictionResult.SummaryOf` | src/components/PredictionResult.tsx:138-139 | exactly the first min(3, n) factors are named, in order, and the other n - 3 (or none) are counted; some are counted exactly when there are more than three |
| `PredictionResult.SummaryText` | src/components/PredictionResult.tsx:138-139 | definition of the factor sentence; its shape is stated by `PredictionResult.SummaryTextShape` |
| `PredictionResult.SummaryTextShape` | src/components/PredictionResult.tsx:138-139 | with more than three factors the text is the first three joined by ", " followed by " and N other factors" with N = length - 3; otherwise it is all factors joined |
| `PredictionResult.AcceptedBadge` | src/components/PredictionResult.tsx:74-76 | definition of the badge text; its properties are stated by `PredictionResult.AcceptanceWordingAgrees` |
| `PredictionResult.PotentialText` | src/components/PredictionResult.tsx:131-133 | definition of the summary's potential word; its properties are stated by `PredictionResult.AcceptanceWordingAgrees` |
| `PredictionResult.AcceptanceWordingAgrees` | src/components/PredictionResult.tsx:69-133 | the badge reads "Lead Accepted" and the summary says "high-potential" each exactly when `accepted` is true |
| `PredictionResult.ShownTierMatchesLabel` | src/components/PredictionResult.tsx:84-97 | for a result built from a label, the safeguards show the drawn score unchanged, the caption is that of the label's tier, and the factors are the first four attribute names |
| `QualityChart.RangeOf` | src/components/QualityChart.tsx:45-50 | the range chosen holds the score, and no other range does (upper-inclusive on score × 100; below 0 goes to the first range, above 1 to the last) |
| `QualityChart.QualityDistribution` | src/components/QualityChart.tsx:23-28 | the high, medium and low counters equal the number of leads whose score lies in each tier |
| `QualityChart.ScoreRanges` | src/components/QualityChart.tsx:36-51 | five bars with the captions "0-20%" to "81-100%", each counting the leads whose score lies in its range |
| `QualityChart.TierCountsSum` | src/components/QualityChart.tsx:23-28 | the three tier counts add up to the number of leads |
| `QualityChart.RangeCountsSum` | src/components/QualityChart.tsx:44-51 | the five range counts add up to the number of leads |
| `QualityChart.EmptyCountsNothing` | src/components/QualityChart.tsx:28-42 | no leads give all counters zero |
| `QualityChart.AddOneLead` | src/components/QualityChart.tsx:23-51 | one more lead adds one to the counter of its tier and of its range and leaves every other counter unchanged |
| `QualityChart.TiersVersusRanges` | src/components/QualityChart.tsx:24-49 | the tiers and the ranges agree everywhere except at 0.8 and 0.6, where the tiers take the boundary upward and the ranges take it downward |
| `QualityChart.BoundaryScores` | src/components/QualityChart.tsx:24-49 | 0.8 is High yet falls in "61-80%"; 0.6 is Medium yet falls in "41-60%" |
| `QualityChart.FourLeadExample` | src/components/QualityChart.tsx:23-28 | scores 0.9, 0.7, 0.5 and 0.85 give two High, one Medium and one Low |
| `LeadStats.AcceptanceRate` | src/components/LeadStats.tsx:19 | no leads give 0 without dividing; otherwise rate × total = accepted × 100 |
| `LeadStats.AcceptanceRateBounds` | src/components/LeadStats.tsx:19 | with 0 ≤ accepted ≤ total the rate lies in [0, 100] |
| `LeadStats.AllAcceptedIsHundred` | src/components/LeadStats.tsx:19 | every lead accepted gives exactly 100 |
| `LeadStats.AcceptanceRateMonotone` | src/components/LeadStats.tsx:19 | more accepted leads never give a lower rate |
| `Backend.ScoreLabel` | backend/app.py:52-67 | High gives (0.9, accepted, 0.95), Medium (0.7, accepted, 0.8), any other label (0.3, rejected, 0.7); accepted exactly for High and Medium; each score lies in the client tier of the same name |
| `Backend.PredictSingle` | backend/app.py:40-79 | a completed run answers with its label, the label's fixed score (0.9, 0.7 or 0.3) and confidence (0.95, 0.8 or 0.7), acceptance exactly for High and Medium, and the first four keys of the submitted data; a raised exception becomes a 400 whose detail is "Prediction error: " followed by its text |
| `Backend.PredictCsv` | backend/app.py:81-91 | a completed run answers with all the labels; a raised exception becomes a 400 whose detail is "CSV error: " followed by its text |
| `LeadData.Settle` | src/hooks/useLeadData.ts:108-156 | a label is received exactly for a 2xx response with a JSON body and is echoed as received; a non-2xx status whose body is read fails with "HTTP error! status: S - text"; a thrown `Error`, including a body of either kind that cannot be read, fails with its own message; a non-`Error` throw fails with the default text; the message is empty only for an `Error` thrown without one |
| `LeadData.PredictedTier` | src/hooks/useLeadData.ts:129-138 | definition of the band a received label selects (a missing or unknown label is Low); its properties are stated by `LeadData.SuccessResult` and `PredictionResult.ShownTierMatchesLabel` |
| `LeadData.SuccessResult` | src/hooks/useLeadData.ts:122-146 | the label is echoed; the score lies in the tier the label names and below 1, with a missing or unknown label as Low; accepted exactly when that tier is not Low; confidence in [0.8, 1); factors are the first min(4, n) keys in order |
| `LeadData.FallbackResult` | src/hooks/useLeadData.ts:167-173 | label High or Low by its draw, score in [0.6, 1), accepted exactly when its draw exceeds 0.3, confidence in [0.8, 1), the fixed four factor names |
| `LeadData.FallbackCanContradictItself` | src/hooks/useLeadData.ts:167-170 | some draws give a stand-in labelled Low with a High-tier score that is rejected |
| `LeadData.LeadDataHook.constructor` | src/hooks/useLeadData.ts:77-79 | the hook starts with no result, not loading and no error |
| `LeadData.LeadDataHook.BeginPredict` | src/hooks/useLeadData.ts:86-88 | starting a prediction sets loading and clears the error and the result |
| `LeadData.LeadDataHook.SettlePredict` | src/hooks/useLeadData.ts:122-177 | after settling, loading is false and a populated result is present: the label's result with the error unchanged, or the stand-in with the failure message as the error |
| `LeadData.LeadDataHook.ClearResult` | src/hooks/useLeadData.ts:180-183 | the result and the error are cleared and loading is unchanged |
| `LeadInputForm.InitialSections` | src/components/LeadInputForm.tsx:98-108 | exactly the nine sections are present and every one starts expanded |
| `LeadInputForm.ProcessedValue` | src/components/LeadInputForm.tsx:131-144 | a numeric field stores the number read from the input, or 0; a boolean stores 1/0 for "Converted" and "Yes"/"No" elsewhere; any other value is stored unchanged |
| `LeadInputForm.Toggled` | src/components/LeadInputForm.tsx:110-115 | the named section is negated (an unknown one becomes expanded) and every other section keeps its flag |
| `LeadInputForm.FormState.constructor` | src/components/LeadInputForm.tsx:60-108 | the form starts with the initial record and all sections expanded |
| `LeadInputForm.FormState.HandleInputChange` | src/components/LeadInputForm.tsx:131-149 | the coerced value is stored under the field, and every other field reads as before |
| `LeadInputForm.FormState.ToggleSection` | src/components/LeadInputForm.tsx:110-115 | the sections become their toggled map |
| `LeadInputForm.IsChecked` | src/components/LeadInputForm.tsx:240-259 | definition of the checkbox `checked` expressions (`=== 1` for "Converted", `=== 'Yes'` for the flags, also at lines 474 and 615-655); its properties are stated by `LeadInputForm.CheckboxRoundTrip` and `LeadInputForm.InitialFlagsUnticked` |
| `LeadInputForm.CheckboxRoundTrip` | src/components/LeadInputForm.tsx:134-140 | after a checkbox edit, its `checked` expression (`=== 1` for "Converted", `=== 'Yes'` otherwise) equals the value given |
| `LeadInputForm.NumericFieldReadsNumber` | src/components/LeadInputForm.tsx:142-144 | typing a whole number into a numeric field stores that number |
| `LeadInputForm.NumericFieldReadsDecimal` | src/components/LeadInputForm.tsx:142-144 | typing a decimal such as "2.5" into a numeric field stores its value, whole part plus digits over a power of ten |
| `LeadInputForm.ToggleTwice` | src/components/LeadInputForm.tsx:110-115 | toggling a known section twice restores the sections |
| `LeadInputForm.InitialKeysDistinct` | src/components/LeadInputForm.tsx:60-96 | the initial record names each attribute once |
| `LeadInputForm.InitialFlagsUnticked` | src/components/LeadInputForm.tsx:60-96 | initially every yes/no flag is "No" and "Converted" is 0, so no checkbox is ticked |
| `LeadInputForm.InitialFirstKeys` | src/components/LeadInputForm.tsx:60-64 | the first four attribute names of a fresh form are "Lead Origin", "Lead Source", "Do Not Email", "Do Not Call" |
| `LeadInputForm.EditKeepsFirstKeys` | src/components/LeadInputForm.tsx:146-149 | editing an existing field never changes the first four attribute names |
| `IndexPage.ShowsSpinner` | src/pages/Index.tsx:15 | definition of `loading && …`; its properties are stated by `IndexPage.LoadingShowsOnlySpinner` and `IndexPage.Session` |
| `IndexPage.ShowsErrorBanner` | src/pages/Index.tsx:23 | definition of `error && …` under JavaScript truthiness (a missing or empty message hides the banner); its properties are stated by `IndexPage.Session` |
| `IndexPage.ShowsForm` | src/pages/Index.tsx:36 | definition of `!loading && !result && !error`; its properties are stated by `IndexPage.FormAndResultExclusive` and `IndexPage.Session` |
| `IndexPage.ShowsResult` | src/pages/Index.tsx:43 | definition of `!loading && result`; its properties are stated by `IndexPage.FormAndResultExclusive` and `IndexPage.Session` |
| `IndexPage.FormAndResultExclusive` | src/pages/Index.tsx:36-43 | the form and the result are never shown together; with no loading and no error exactly one of them is shown |
| `IndexPage.LoadingShowsOnlySpinner` | src/pages/Index.tsx:15-43 | while loading, the spinner is shown and neither the form nor the result |
| `IndexPage.Session` | src/pages/Index.tsx:10-46 | form first; then only the spinner; then the result, with the banner exactly when the request failed with a non-empty message; dismissing returns the page to its first state, showing the form |
| `Records.FirstKeys` | src/hooks/useLeadData.ts:145 | the first min(4, n) keys of the record, as a prefix of its keys in order |
| `Records.Put` | src/components/LeadInputForm.tsx:146-149 | definition of `{...prev, [field]: v}`; its properties are stated by `Records.PutThenLookup`, `Records.PutKeepsOthers`, `Records.PutKeys` and `Records.PutDistinct` |
| `Records.Lookup` | src/components/LeadInputForm.tsx:240 | definition of reading one field of the record; its properties are stated by `Records.PutThenLookup`, `Records.PutKeepsOthers` and `Records.LookupDistinct` |
| `Records.PutThenLookup` | src/components/LeadInputForm.tsx:146-149 | after `{...prev, [field]: v}` the field reads v |
| `Records.PutKeepsOthers` | src/components/LeadInputForm.tsx:146-149 | every other field keeps its value |
| `Records.PutKeys` | src/components/LeadInputForm.tsx:146-149 | an existing field keeps its place among the keys, and a new one is appended |
| `Records.PutDistinct` | src/components/LeadInputForm.tsx:146-149 | the update never introduces a duplicate key |
| `Text.NatToString` | src/hooks/useLeadData.ts:111 | a status is printed as a non-empty string of digits with no leading zero |
| `Text.NatToStringValue` | src/hooks/useLeadData.ts:111 | the printed digits denote the number printed |
| `Text.ParseFloat` | src/components/LeadInputForm.tsx:143 | definition of the decimal prefix `parseFloat` reads; its properties are stated by `Text.NatToStringParses`, `Text.NegatedNatParses`, `Text.LeadingSpaceIgnored` and `Text.NoDigitNoNumber` |
| `Text.Join` | src/components/PredictionResult.tsx:138 | definition of `join(', ')`; the sentence it builds is stated by `PredictionResult.SummaryTextShape` |
| `Text.TrimStart` | src/components/LeadInputForm.tsx:143 | `parseFloat` skips exactly the leading white space and line terminators that ECMA-262 lists for it (section 7.1.4.1, StrWhiteSpaceChar) |
| `Text.NatToStringParses` | src/components/LeadInputForm.tsx:143 | `parseFloat` reads a printed whole number back, whatever non-numeric text follows it |
| `Text.DecimalParses` | src/components/LeadInputForm.tsx:143 | `parseFloat` reads "m.d" as m plus the digits d over 10^|d| |
| `Text.NegatedNatParses` | src/components/LeadInputForm.tsx:143 | a minus sign before the digits gives the negated number |
| `Text.LeadingSpaceIgnored` | src/components/LeadInputForm.tsx:143 | leading white space does not change what `parseFloat` reads |
| `Text.NoDigitNoNumber` | src/components/LeadInputForm.tsx:143 | text with no digit yields no number, so the field stores 0 |

## Left out

- Network and side effects: `fetch`, its headers, `JSON.stringify`, `console` output and the toast notifications. How a request ends is an input (`FetchOutcome`).
- A JSON `prediction` that is not a string (a number, an object) is read as missing. The client would echo it; it would still fall to the Low band.
- Randomness: only the range of each `Math.random()` draw is modelled, not its distribution (for example the roughly 70% acceptance chance of the stand-in).
- IEEE floating point: scores are exact reals. `Math.round(x * 100)`, percentage strings and progress-bar widths are not modelled. NaN cannot arise, so the `|| 0` safeguards only act on a missing value.
- `PredictionResult.DisplayNumber`: takes an optional real; `Number()` coercion of strings and booleans is not modelled.
- `Text.ParseFloat`: reads optional white space, a sign, digits, a point and digits. Exponents and `Infinity` are not modelled.
- All JSX, styling, icons and chart components, and `src/components/LoadingSpinner.tsx`, which is presentation only.
- `backend/classification.py`, the offline training script; the trained model, `joblib` loading, the label encoder and pandas `reindex`/`read_csv`. A model run is an input (`ModelRun`). `decision_scores` and `predicted_class_idx` are computed but unused by the handler.
- The root endpoint and the CORS set-up of `backend/app.py`, and the upload reading and UTF-8 decoding of `/predict_csv`: their failures are part of the raised exception.
- The scores the service returns never reach the page: the client reads only `prediction` and draws the rest, so nothing connects `Backend` results to `LeadData` results.
- React's asynchronous state batching and an unguarded double submission: each hook method runs to completion before the next one starts.
- The dropdown option lists of the form: static data that `handleInputChange` does not enforce.
- `pieData` in `QualityChart.tsx`, a fixed literal of three captions and colours over the tier counters.
- `handleSubmit` hands the form's current record to the hook; `LeadInputForm.FormState.Submitted` reads that record, but `IndexPage.Session` takes an arbitrary record as its input and does not build it through a `FormState`.
