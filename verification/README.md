# AgroCare-AI client logic and ML API, modelled in Dafny

This project models the parts of AgroCare-AI that carry logic. Everything else in the repository is markup.

- **Session store** (`AuthProvider`). It holds the bearer token, the admin flag, the cached profile and the loading gate. The token is mirrored in the browser's persistent storage under `accessToken`.
- **Application shell.** This covers:
  - protected and public-only route gating;
  - the route table with its catch-all redirect;
  - the header's page titles and the sidebar menu;
  - the dark-mode toggle.
- **Registration page.** The submit flow and the message it shows.
- **Farm list.** Add, edit and delete by `id`, plus the statistics cards.
- **Yield-prediction page.** This covers:
  - building the payload;
  - reading the yield from several reply shapes;
  - clamping and rounding;
  - the target and the percentage;
  - choosing the error message.
- **ML API** (`api/ml_api.py`). This covers:
  - required-field validation;
  - the success and error envelopes;
  - the conversions done by preprocessing;
  - the guard and exception order of `predict_yield`;
  - the health endpoint, the two unimplemented endpoints and the error handlers.
- **Pest identifier and crop recommender pages.** Their form state, submit guards, outcomes and reset.
- **The yield page and the ML API together** (`YieldService`). The page never sends `Area`, but the API requires it. So once a model is loaded, every request the page sends is refused with `Missing required fields: Area`. The page shows that message and never a prediction (`YieldService.PageNeverPredicts`).

Modules follow the source files:

| module | file | source |
|---|---|---|
| `Values` | `values.dfy` | shared JSON values, JS and Python truthiness, `trim`/`strip`, `join` |
| `Numbers` | `numbers.dfy` | JavaScript `parseInt`, `Number`, `Math.round`; the decimal grammar Python's `float` shares |
| `Auth` | `auth.dfy` | `client/src/store/Auth.jsx` |
| `App` | `app.dfy` | `client/src/App.jsx` |
| `Signup` | `signup.dfy` | `client/src/pages/Signup.jsx` |
| `MyFarms` | `farms.dfy` | `client/src/pages/MyFarms.jsx` |
| `YieldPrediction` | `yield.dfy` | `client/src/pages/YieldPrediction.jsx` |
| `MlApi` | `mlapi.dfy` | `api/ml_api.py` |
| `PestIdentifier` | `pest.dfy` | `client/src/pages/PestIdentifier.jsx` |
| `CropRecommender` | `crop.dfy` | `client/src/pages/CropRecommender.jsx` |
| `YieldService` | `yieldservice.dfy` | the page's request against the API's handler |

Network requests, `fetch`/`axios`, the confirmation prompt, `Date.now()`, today's date and the regression model are not performed. Their outcomes are parameters:

- `Values.Fetched` is either `Answered(ok, body)` or `Threw`.
- `YieldPrediction.Reply` and `YieldPrediction.Failure` carry the axios outcome.
- `MlApi.Prediction` is the outcome of the model call.
- The new farm's id and date, and the user's answer to the prompt, are plain arguments.

Toasts and navigation are returned as values.

Behaviours of the code that the model makes explicit:

- **Failed liveness check.** Only a non-ok reply to the session liveness check logs out (`client/src/store/Auth.jsx:50-53`). A thrown error leaves the session as it was (`client/src/store/Auth.jsx:54-58`, `Auth.NetworkFailureKeepsSession`). A thrown error is a network failure or a body that is not JSON.
- **No timeout on the liveness check.** Its `fetch` (`client/src/store/Auth.jsx:40-43`) sets none. Timing is not modelled.
- **`null` reply bodies.** Reading a property of a JSON `null` body throws a `TypeError`, and the handler's `catch` runs. In the liveness check, an ok `null` reply is cached, and then `null.isAdmin` throws, so the admin flag is kept. In registration, any `null` reply ends in the connection-error toast: nothing is stored and there is no navigation. In the pest and crop pages, a non-ok `null` reply does the same (`Signup.NullReplyIsConnectionError`, `PestIdentifier.NullRejectionIsConnectionError`, `CropRecommender.NullRejectionIsConnectionError`).

- **Registration reply without a token.** `storeTokenInLS(undefined)` keeps `undefined` in memory, which counts as logged out. It also persists the text `"undefined"`, so after a reload the user reads as logged in (`Auth.AbsentTokenLooksLoggedInAfterReload`).
- **Blank State field.** A `State` field that holds only blanks is sent as `""`, not `"Punjab"`, because `||` tests the text before `trim()` (`YieldPrediction.BuildPayload`).
- **Unparsable farm area.** The total-area card becomes `NaN` as soon as one farm's area does not start with a number (`MyFarms.TotalArea`).

## Model

| member | source | states |
|---|---|---|
| Numbers.ParseIntReadsNumberBeforeText | client/src/pages/MyFarms.jsx:210 | `parseInt` reads a canonical whole number back, even when text such as " acres" follows it after a blank |
| Numbers.JsNumberReadsNat | client/src/pages/YieldPrediction.jsx:69-72 | `Number` reads the decimal spelling of any natural number back as that number |
| Numbers.JsNumberRejectsText | client/src/pages/YieldPrediction.jsx:69-72 | text whose first non-blank character cannot start a number is NaN to `Number` |
| Numbers.RoundHalfUp | client/src/pages/YieldPrediction.jsx:128 | `Math.round` gives the integer within half of its argument, rounding halves up |
| Values.Trim | client/src/pages/YieldPrediction.jsx:83-85 | `trim()` returns a slice of its input that neither starts nor ends with white space |
| Values.TrimRemovesOnlySpace | client/src/pages/YieldPrediction.jsx:83-85 | the characters `trim()` cuts off before and after the slice it keeps are all white space |
| Values.TrimOfTrimmed | client/src/pages/YieldPrediction.jsx:83-85 | a string without white space at either end is its own trim |
| Values.TrimIdempotent | client/src/pages/YieldPrediction.jsx:160 | trimming an already trimmed string changes nothing |
| Auth.Init | client/src/store/Auth.jsx:5-8 | the initial token is the persisted one (or ""), memory and storage agree, isAdmin is false, userData is null, and loading is on so children are not rendered |
| Auth.TokenBearer | client/src/store/Auth.jsx:15-16 | the header is non-empty exactly when logged in, and is then "Bearer " followed by the token |
| Auth.StoreTokenInLS | client/src/store/Auth.jsx:19-22 | memory and persisted token both become `t`; logged in iff `t` is non-empty; nothing else in memory or storage changes |
| Auth.StoreAbsentToken | client/src/store/Auth.jsx:19-22 | storing `undefined` leaves memory logged out while storage holds the text "undefined", so the two disagree |
| Auth.RemoveTokenFromLS | client/src/store/Auth.jsx:25-30 | the logged-out state: token "", userData null, isAdmin false, key removed, other keys and loading kept |
| Auth.RemoveIdempotent | client/src/store/Auth.jsx:25-30 | removing the token twice equals removing it once |
| Auth.AdminFlag | client/src/store/Auth.jsx:49 | the admin flag is the body's `isAdmin` when truthy, otherwise false |
| Auth.AuthenticateUser | client/src/store/Auth.jsx:33-59 | loading always ends; without a token only loading changes; a non-ok reply collapses to the logged-out state; an ok reply keeps the token and caches the body; its admin flag is taken from a non-`null` body and kept for a `null` one, whose `isAdmin` read throws; a thrown error changes nothing but loading |
| Auth.AuthenticateIdempotent | client/src/store/Auth.jsx:33-59 | two checks with the same outcome leave the same state as one |
| Auth.NetworkFailureKeepsSession | client/src/store/Auth.jsx:54-58 | a thrown check keeps the login status, the profile and the admin flag |
| Auth.RejectionLogsOut | client/src/store/Auth.jsx:50-53 | a non-ok reply with a token yields exactly the logged-out state of `removeTokenFromLS` |
| Auth.ApplyKeepsSynced | client/src/store/Auth.jsx:19-64 | storing a string token, clearing and checking each keep the persisted token equal to the in-memory one |
| Auth.ApplyKeepsRendering | client/src/store/Auth.jsx:56-88 | once children render, no step brings the loading screen back |
| Auth.RunKeepsSynced | client/src/store/Auth.jsx:19-64 | any sequence of such steps (string tokens only) keeps memory and storage in agreement |
| Auth.RunRenders | client/src/store/Auth.jsx:56-88 | any sequence of steps from a rendering state keeps rendering |
| Auth.RunAfterStart | client/src/store/Auth.jsx:5-88 | after start-up and the first check, every state reached by storing string tokens, clearing and checking renders its children and is synced |
| Auth.AbsentTokenLooksLoggedInAfterReload | client/src/store/Auth.jsx:5-22 | after `storeTokenInLS(undefined)` memory is logged out, but the state re-read from storage is logged in |
| App.Lookup | client/src/App.jsx:242-257 | a found route belongs to the table and has the path; none found means no route has it |
| App.LookupRoutes | client/src/App.jsx:242-257 | the table has a public-only route for each of the three public paths, a protected one for each of the five protected paths, and none for any other path |
| App.ProtectedRoute | client/src/App.jsx:194-200 | shows its children iff logged in, otherwise redirects to `/login` |
| App.UnProtected | client/src/App.jsx:186-192 | shows its children iff logged out, otherwise redirects to `/dashboard` |
| App.Resolve | client/src/App.jsx:242-257 | public paths get the `UnProtected` guard, protected paths `ProtectedRoute`, and every other path redirects to `/` |
| App.ExactlyOneGuardShows | client/src/App.jsx:186-200 | in any session state exactly one of the two guards shows its page |
| App.EveryPathLands | client/src/App.jsx:186-257 | following redirects lands on a page within two hops: a protected page iff logged in; `/login` from protected paths when logged out; `/dashboard` from public or unknown paths when logged in; `/` from unknown paths when logged out |
| App.LandsFromProtected | client/src/App.jsx:194-200 | from a protected path: the page itself when logged in, `/login`'s page otherwise |
| App.LandsFromPublic | client/src/App.jsx:186-192 | from a public path: the dashboard when logged in, the page itself otherwise |
| App.LandsFromUnknown | client/src/App.jsx:256 | from an unknown path: the dashboard when logged in, the home page otherwise |
| App.RoutesAgreeWithAccess | client/src/App.jsx:244-253 | each route's guard matches its page, and a route is protected iff its path is one of the five protected paths |
| App.TitlesNameProtectedPages | client/src/App.jsx:22-37 | a path has a title other than "Farm Management" iff it is protected, and distinct protected paths have distinct titles |
| App.MenuMatchesProtectedRoutes | client/src/App.jsx:79-85 | the menu lists each protected path exactly once, each entry's label is that page's title, and no entry redirects a logged-in user |
| App.ToggleDarkMode | client/src/App.jsx:229-238 | the mode flips, the saved text reads back as the new mode, and other storage keys are untouched |
| App.ToggleTwiceRestores | client/src/App.jsx:222-238 | toggling twice restores the mode, and the saved value reads back as it |
| Signup.HandleInput | client/src/pages/Signup.jsx:22-27 | only the named field changes |
| Signup.Submitting | client/src/pages/Signup.jsx:31 | loading is on while the request is in flight, form kept |
| Signup.RejectionText | client/src/pages/Signup.jsx:53 | the rejection toast shows one of the reply's own fields, and it says something exactly when `extraDetails` or `message` is truthy |
| Signup.HandleSubmit | client/src/pages/Signup.jsx:29-67 | loading always ends; an ok non-`null` reply: token stored, form cleared, welcome toast, go to `/dashboard`; otherwise: store and form untouched, no navigation; a non-ok object shows the rejection text; a thrown request or a `null` body (whose property read throws) shows the connection message |
| Signup.NullReplyIsConnectionError | client/src/pages/Signup.jsx:42-63 | a `null` reply, ok or not, has exactly the effect of a failed request |
| Signup.RegistrationLogsIn | client/src/pages/Signup.jsx:44-46 | an ok reply with a non-empty token logs in with exactly that token, persisted |
| MyFarms.HandleInputChange | client/src/pages/MyFarms.jsx:72-77 | only the named form field changes |
| MyFarms.HandleAddFarm | client/src/pages/MyFarms.jsx:79-90 | nothing is being edited, all six fields are blank, the modal opens, the list is kept |
| MyFarms.HandleEditFarm | client/src/pages/MyFarms.jsx:92-103 | the farm is being edited and the form holds exactly its six fields |
| MyFarms.Merge | client/src/pages/MyFarms.jsx:117 | the six editable fields come from the form; id and creation date stay |
| MyFarms.UpdateFarms | client/src/pages/MyFarms.jsx:117 | length and order kept; farms with the edited id take the form's fields and keep id and date; all others are unchanged |
| MyFarms.NewFarm | client/src/pages/MyFarms.jsx:124-128 | the new farm carries the form's fields, the given id and the given date |
| MyFarms.AppendFarm | client/src/pages/MyFarms.jsx:129 | exactly one farm is added, at the end, and the earlier farms are unchanged |
| MyFarms.DeleteFarm | client/src/pages/MyFarms.jsx:153 | a farm survives iff it was there with another id; the length drops by the number of farms with the id |
| MyFarms.DeleteFarmSplits | client/src/pages/MyFarms.jsx:153 | deleting commutes with concatenation, so the survivors keep their order |
| MyFarms.DeleteAbsentId | client/src/pages/MyFarms.jsx:153 | deleting an id no farm carries leaves the list unchanged |
| MyFarms.DeleteIdempotent | client/src/pages/MyFarms.jsx:153 | deleting twice equals deleting once |
| MyFarms.HandleSubmit | client/src/pages/MyFarms.jsx:105-143 | editing updates in place, otherwise one farm is appended; the modal closes |
| MyFarms.HandleDeleteFarm | client/src/pages/MyFarms.jsx:145-157 | unconfirmed: nothing changes; confirmed: no farm with the id remains and every other farm stays |
| MyFarms.TotalArea | client/src/pages/MyFarms.jsx:210 | the total is a number iff every farm's area parses |
| MyFarms.TotalAreaAppend | client/src/pages/MyFarms.jsx:210 | a farm added at the end adds its parsed area, or makes the total NaN |
| MyFarms.StatsAfterAdd | client/src/pages/MyFarms.jsx:198-222 | an empty list shows 0, 0 and 0; adding a farm raises both counters by one and the area by the farm's parsed area |
| MyFarms.AreaTextAddsItsNumber | client/src/pages/MyFarms.jsx:210 | an area written as a whole number, alone or followed by a blank and any text ("25 acres"), adds exactly that number to the total |
| YieldPrediction.HandleInfoChange | client/src/pages/YieldPrediction.jsx:60-63 | only the named field changes |
| YieldPrediction.ParseNumberOfNat | client/src/pages/YieldPrediction.jsx:69-72 | a whole number is read as itself |
| YieldPrediction.ParseNumberOfText | client/src/pages/YieldPrediction.jsx:69-72 | text that does not start like a number is read as 0 instead of failing |
| YieldPrediction.BuildPayload | client/src/pages/YieldPrediction.jsx:82-89 | Crop and Season are trimmed; State is "Punjab" when the field is empty, else the trimmed field; the numbers are the parsed fields |
| YieldPrediction.PayloadJson | client/src/pages/YieldPrediction.jsx:82-89 | the body has exactly the six keys, never `Area`, each holding its payload value |
| YieldPrediction.RawYield | client/src/pages/YieldPrediction.jsx:102-120 | a found yield is never null |
| YieldPrediction.EnvelopeYieldFirst | client/src/pages/YieldPrediction.jsx:105-107 | with `success` and `data`, `data.yield` wins over a top-level `yield` |
| YieldPrediction.EnvelopePredictedYield | client/src/pages/YieldPrediction.jsx:105-107 | without `data.yield`, `data.predicted_yield` is used |
| YieldPrediction.TopLevelYield | client/src/pages/YieldPrediction.jsx:108-110 | without the envelope, the top-level `yield` is used |
| YieldPrediction.DataYieldWithoutSuccess | client/src/pages/YieldPrediction.jsx:111-113 | without a truthy `success` or a top-level `yield`, the `yield` of a `data` object is used |
| YieldPrediction.ScalarReplies | client/src/pages/YieldPrediction.jsx:102-120 | a non-zero number is the yield itself; zero, null, strings, booleans and `{}` are not recognised |
| YieldPrediction.Display | client/src/pages/YieldPrediction.jsx:122-131 | the shown value is never negative; for coconut it is a whole number within 1/2 of max(0, y), otherwise a two-decimal number within 1/200 of it |
| YieldPrediction.Interpret | client/src/pages/YieldPrediction.jsx:118-131 | no yield found fails with "Invalid response format from ML API"; a non-finite yield fails with "Non-numeric yield returned"; otherwise the displayed value, never negative |
| YieldPrediction.ErrorMessage | client/src/pages/YieldPrediction.jsx:139-146 | precedence is `msg`, then `error.message`, then "Server error"; the no-reply message; else the error's message or "Unknown error"; the message is never empty |
| YieldPrediction.Submitting | client/src/pages/YieldPrediction.jsx:76-79 | loading is on, and the error and prediction are cleared |
| YieldPrediction.HandleGetEstimate | client/src/pages/YieldPrediction.jsx:75-156 | loading ends; exactly one of a prediction and an error shows; a prediction is never negative; the error is never empty; each outcome maps to its message or value |
| YieldPrediction.TargetYield | client/src/pages/YieldPrediction.jsx:158-162 | the target is positive |
| YieldPrediction.TargetMatchesRounding | client/src/pages/YieldPrediction.jsx:126-162 | coconut rounding is used at submission iff the target shown is 5000 |
| YieldPrediction.YieldPercentage | client/src/pages/YieldPrediction.jsx:164 | 0 without a prediction; otherwise the prediction as a percentage of the target, rounded to the nearest whole number (within one half of the exact share), and never negative for a non-negative prediction |
| YieldPrediction.PercentageMonotone | client/src/pages/YieldPrediction.jsx:158-164 | for one form, a larger non-negative prediction never shows a smaller percentage |
| YieldPrediction.TargetShowsHundred | client/src/pages/YieldPrediction.jsx:158-164 | a prediction equal to the target shows exactly 100 percent |
| YieldPrediction.Remaining | client/src/pages/YieldPrediction.jsx:173 | never negative; the two slices sum to 100 up to 100 percent, and the remainder is 0 beyond |
| YieldPrediction.ChartSlicesNonNegative | client/src/pages/YieldPrediction.jsx:164-173 | after any submission both doughnut slices are non-negative |
| MlApi.SuccessResponse | api/ml_api.py:80-81 | `success` is true, `data` is the payload, there is no `error`, and the status is as given |
| MlApi.ErrorResponse | api/ml_api.py:84-85 | `success` is false, `error.message` is the message, there is no `data`, and the status is as given |
| MlApi.FieldMissing | api/ml_api.py:74 | on a dict: missing iff absent or null; on a list or string the test never reports present |
| MlApi.MissingFields | api/ml_api.py:74 | at most as many names as required fields |
| MlApi.MissingFieldsMembers | api/ml_api.py:74 | it raises iff some test raises; otherwise it lists exactly the missing required fields |
| MlApi.MissingFieldsSplits | api/ml_api.py:74 | the missing names follow the required-list order |
| MlApi.ValidateRequiredFields | api/ml_api.py:73-77 | on a dict: no message iff every field is present and non-null; a message is "Missing required fields: " followed by the missing names joined by ", " |
| MlApi.PyFloat | api/ml_api.py:98-101 | numbers are kept; None, lists and dicts raise TypeError; strings never raise TypeError |
| MlApi.TextField | api/ml_api.py:95-97 | the text is stripped, the default applies only to an absent key, and null becomes "None" |
| MlApi.FirstFloats | api/ml_api.py:94-102 | no failure iff all four conversions succeed; a reported failure is the first in the dict literal's order, all earlier conversions having succeeded |
| MlApi.Preprocess | api/ml_api.py:88-104 | the row exists iff all four numbers convert; its strings are the stripped texts, with State defaulting to 'Odisha' |
| MlApi.PreprocessDefaults | api/ml_api.py:97-98 | an absent Area converts to 0 and an absent State strips to 'Odisha', the values the row then holds |
| MlApi.Round4 | api/ml_api.py:195 | the result is a multiple of 1/10000 within 1/20000 of the prediction |
| MlApi.ResultJson | api/ml_api.py:194-202 | the result carries the rounded yield, unit 'tons/hectare' and a summary echoing Crop, Season and Area |
| MlApi.Respond | api/ml_api.py:194-219 | after preprocessing: a prediction gives the 200 success envelope of the result; KeyError and ValueError give 400; any other model failure and a conversion TypeError give 500 |
| MlApi.RespondAnswersWithEnvelope | api/ml_api.py:194-219 | every reply after preprocessing is a well-formed envelope |
| MlApi.PredictFromFields | api/ml_api.py:177-219 | the status is 200, 400 or 500; a conversion TypeError and an unexpected model error give 500; a ValueError gives 400; a prediction gives the success envelope |
| MlApi.PredictYield | api/ml_api.py:146-219 | the guards run in order: OPTIONS gives 204 with an empty body; no model gives 503; an unparsable body gives 500; a falsy body gives 400; then validation (raise 500, message 400); then prediction |
| MlApi.ErrorEnvelope | api/ml_api.py:84-85 | an error reply with a message is a well-formed envelope |
| MlApi.FromFieldsAnswersWithEnvelope | api/ml_api.py:177-219 | every reply after validation is a well-formed envelope |
| MlApi.PostAnswersWithEnvelope | api/ml_api.py:152-219 | every POST gets an envelope whose `success` says whether the status is 200, with a non-empty error message otherwise; the status is one of 200, 400, 500 and 503 |
| MlApi.MissingKeyIsRejected | api/ml_api.py:161-173 | a non-empty dict lacking a required key, or with null there, gets 400 with the validator's message |
| MlApi.Health | api/ml_api.py:134-143 | 200 envelope whose `model_status` is "loaded" iff a model is loaded |
| MlApi.DebugFlag | api/ml_api.py:34 | debug is on when the variable is unset, and otherwise exactly when its value spells "true" with each letter in either case |
| MlApi.TrueInAnyCase | api/ml_api.py:34 | `lower() == 'true'` holds exactly for the sixteen casings of "true" |
| MlApi.RecommendCrop | api/ml_api.py:222-226 | always a 501 error envelope |
| MlApi.IdentifyPest | api/ml_api.py:229-233 | always a 501 error envelope |
| MlApi.HandleError | api/ml_api.py:236-251 | 404, 405 and 500 each give an error envelope with that status |
| PestIdentifier.HandleFileSelect | client/src/pages/PestIdentifier.jsx:13-28 | an accepted file is selected and the result cleared; anything else leaves the page unchanged and shows the invalid-file toast |
| PestIdentifier.AcceptsExamples | client/src/pages/PestIdentifier.jsx:14 | every `image/` type is accepted; "", "application/pdf", "IMAGE/PNG" and no file are refused |
| PestIdentifier.PreviewLoaded | client/src/pages/PestIdentifier.jsx:16-20 | the preview shows the data URL and nothing else changes |
| PestIdentifier.Submitting | client/src/pages/PestIdentifier.jsx:63 | loading is on, selection and result kept |
| PestIdentifier.HandleSubmit | client/src/pages/PestIdentifier.jsx:52-96 | no image: no request and the page unchanged; otherwise loading ends; ok sets the result; a non-ok object keeps it and shows `error` or "Failed to identify pest"; a thrown request or a non-ok `null` body (whose `error` read throws) shows the connection message |
| PestIdentifier.NullRejectionIsConnectionError | client/src/pages/PestIdentifier.jsx:73-92 | a non-ok `null` reply has exactly the effect of a failed request |
| PestIdentifier.FailureToastIsTruthy | client/src/pages/PestIdentifier.jsx:81-92 | a failed identification always shows a non-empty message |
| PestIdentifier.HandleReset | client/src/pages/PestIdentifier.jsx:98-105 | selection, preview and result are cleared, loading kept |
| PestIdentifier.ResetReturnsToInitial | client/src/pages/PestIdentifier.jsx:6-105 | an idle page resets to its first rendering; a submission then makes no request until an accepted file is chosen |
| PestIdentifier.DisplayedPestName | client/src/pages/PestIdentifier.jsx:243 | the name shown is one of the result's own fields, and it is blank exactly when both `predicted_pest` and `pest_name` are |
| PestIdentifier.PestNamePrecedence | client/src/pages/PestIdentifier.jsx:243 | a non-empty predicted name wins; an empty one falls back |
| PestIdentifier.ShownNameComesFromReply | client/src/pages/PestIdentifier.jsx:75-76 | after an ok identification the name on screen is a field of the reply, shown whenever either name field of the reply is truthy |
| CropRecommender.FieldNamed | client/src/pages/CropRecommender.jsx:6-14 | a recognised name is the key of the field it returns |
| CropRecommender.KeyRoundTrip | client/src/pages/CropRecommender.jsx:6-14 | every field is found by its key, and keys are distinct |
| CropRecommender.HandleChange | client/src/pages/CropRecommender.jsx:19-24 | only the named field changes |
| CropRecommender.InputFieldsNameTheForm | client/src/pages/CropRecommender.jsx:78-135 | the seven descriptors name the seven form keys in declaration order, and every field has one |
| CropRecommender.RequestBody | client/src/pages/CropRecommender.jsx:37 | the body holds every field's text under its key, and no other key |
| CropRecommender.Submitting | client/src/pages/CropRecommender.jsx:27-29 | loading is on and the old result is cleared |
| CropRecommender.HandleSubmit | client/src/pages/CropRecommender.jsx:26-63 | loading ends and the form is kept; ok sets the result; a non-ok object shows `error` or "Failed to get recommendation" with no result; a thrown request or a non-ok `null` body (whose `error` read throws) shows the connection message; error toasts are never empty |
| CropRecommender.NullRejectionIsConnectionError | client/src/pages/CropRecommender.jsx:40-59 | a non-ok `null` reply has exactly the effect of a failed request |
| CropRecommender.HandleReset | client/src/pages/CropRecommender.jsx:65-76 | all seven fields are blank and there is no result |
| CropRecommender.ResultOnlyFromOk | client/src/pages/CropRecommender.jsx:29-53 | a result is shown only after an ok reply |
| YieldService.Axios | client/src/pages/YieldPrediction.jsx:94-98 | a 2xx status resolves with the body; any other status rejects carrying it |
| YieldService.PayloadMissesOnlyArea | api/ml_api.py:168-169 | of the required fields, the page's payload lacks exactly `Area` |
| YieldService.OnlyAreaMissing | api/ml_api.py:73-77 | a body whose only missing required field is `Area` is refused with "Missing required fields: Area" |
| YieldService.ValidationNamesArea | api/ml_api.py:73-77 | validating any payload the page builds gives "Missing required fields: Area" |
| YieldService.PayloadIsRefused | api/ml_api.py:157-173 | any page payload gets 503 without a model, and otherwise 400 naming `Area`; the model is never consulted |
| YieldService.ClientPayloadIsRefused | client/src/pages/YieldPrediction.jsx:82-98 | the same, for the request built from any form |
| YieldService.ErrorEnvelopeIsShown | client/src/pages/YieldPrediction.jsx:139-147 | an API error envelope is shown with the API's own message, and no prediction |
| YieldService.PageNeverPredicts | client/src/pages/YieldPrediction.jsx:75-156 | end to end, the page shows the missing-model or missing-`Area` message, never a prediction |
| YieldService.SuccessEnvelopeIsRead | client/src/pages/YieldPrediction.jsx:105-131 | were the API to answer with its success envelope, the page would show its rounded yield, clamped and rounded again for display |

## Left out

- **Floating point.** Numbers are exact reals, so doubles, overflow to infinity, `toFixed`'s binary representation and `round(…, 4)` on binary values are not modelled. `Number` and `parseInt` of huge digit strings always give finite values here.
- **Text.** White space is the ASCII set (space, tab, line feed, vertical tab, form feed, carriage return) and letter case is ASCII. Unicode white space and case mapping are left out. So are the separator characters `\x1c`–`\x1f`, which Python's `strip()` and `float()` also remove but JavaScript's `trim()` keeps. Python's `float` extras are left out too: `inf`, `nan` and `_` separators.
- **Number() of arrays.** `YieldPrediction.ToNumber` treats arrays as non-numeric; JavaScript would read `[5]` as 5.
- **Python `str()`.** `MlApi.PyStr` renders only strings, `None` and booleans. Numbers, lists and dicts give no text, and `repr` quoting inside error texts is not modelled.
- **The model call.** `model.predict` and the reshaping of its array are opaque; `MlApi.Prediction` is their outcome.
- **Routing.** Paths match exactly as written; react-router's case-insensitive and trailing-slash matching is left out. `App.Navigate` follows at most the given number of redirects.
- **The yield page's own login redirect.** The `useEffect` in `client/src/pages/YieldPrediction.jsx:55-57` is subsumed by `ProtectedRoute` and left out.
- **Sidebar logout.** It calls a `logout` the session store does not provide; logout is only `removeTokenFromLS`.
- **Session steps.** `Auth.Step` stores string tokens only. The `storeTokenInLS(undefined)` that a registration reply without a token performs is not a step, because it breaks the agreement between memory and storage (`Auth.StoreAbsentToken`). So `Auth.RunKeepsSynced` and `Auth.RunAfterStart` hold for runs that store string tokens only.
- **Concurrency.** An in-flight liveness check racing a later token change is not modelled. Each token change is followed by exactly one check (`Auth.Apply`).
- **Signup tokens.** A registration reply whose `token` is not a string is treated as absent (`Signup.StoreReplyToken`). The server side of registration and login is not part of this model, and neither is `/api/user`.
- **I/O.** Toasts are values and navigation is a returned path. `FileReader` is the separate `PestIdentifier.PreviewLoaded` event. Timeouts, the drag-and-drop flags and Chart.js configuration are left out. So is the `dark` class the dark-mode toggle adds to or removes from `document.documentElement` (`client/src/App.jsx:233-237`), since the model has no document.
- **Dashboard, Home and presentation components.** Static markup or timer stubs. The farm list's `fetchFarms` stub is left out too.
- **`api_info` and `home`.** Constant text and a clock timestamp. The CORS configuration, `HOST`/`PORT` parsing and start-up logging are left out.
- **Unparsable request bodies.** `request.get_json()` on a body that is not JSON raises, and the handler's catch-all answers 500. Older Flask versions returned `None` there (a 400); the model follows the raising behaviour.
- MyFarms.TotalArea: states when the total is a number, not its value for lists longer than one append; `MyFarms.TotalAreaAppend` gives the value step by step.
- YieldPrediction.RawYield: its own contract states only that a found yield is never null; the order of the places it reads is stated by the precedence lemmas `EnvelopeYieldFirst`, `EnvelopePredictedYield`, `TopLevelYield`, `DataYieldWithoutSuccess` and `ScalarReplies`.
