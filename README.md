# ChurnWise Insights — a Dafny model of the dashboard's logic

ChurnWise Insights is a telecom churn dashboard. It has a React front end and a FastAPI back end.
This project models the parts of it that decide something. The other parts draw charts, show
toasts or pass data along.

- **Prediction form** (`ChurnPrediction`). The form has sixteen answers. A submit guard refuses the
  form while any answer is empty. The encoder (`formattedData`) turns the answers into a record of
  39 keys: 36 one-hot indicators, then `tenure`, `MonthlyCharges` and `TotalCharges`. The form
  state is a class whose fields change one answer at a time.
- **Chat** (`Chatbot`, `CapturePattern`). `extractRelevantInfo` tries a keyword table on the
  lower-cased query, first match wins. It then captures `label([^,.]+)` from the lower-cased
  response. The pattern is modelled directly: the leftmost position where the label is
  followed by a character other than `,` and `.`, the longest such run, then `trim()`. The
  session (`handleSendMessage`) is a class holding the typed message, the history and the
  loading flag.
- **Customer profile** (`CustomerProfile`). It holds the nine service statuses, the retention-offer
  gate on `Churn === "Yes"`, and the search. The search refuses a blank ID, sends the ID as
  typed, and ends loading in every case.
- **Dashboard** (`DashboardStats`). It covers:
  - the choice of the churn rate, including JavaScript truthiness;
  - the two-slice distribution;
  - the built-in trend and reason data;
  - the pie and bar colours;
  - the order of checks in `DisplayData`.
- **API** (`Backend`). It covers:
  - aligning a prediction request to the model's feature list;
  - the Yes/No tally behind `/dashboard-data`;
  - the users table of `/register` and `/token`;
  - the reply of `/chat`;
  - the `/customer-profile` lookup.

  The classifier, the retriever and password hashing are function parameters.
- **End to end** (`EndToEnd`). These lemmas connect the front end to the API's answers.

Shared pieces:
- `Text` holds ASCII lower-casing, substring search, and the two trimming sets. JavaScript's
  `trim()` uses ECMAScript WhiteSpace plus LineTerminator. Python's `strip()` uses the
  characters for which `str.isspace()` holds.
- `Wrappers` holds `Option`.
- `CustomerRecord` holds the data-set row.

Behaviour of the code worth knowing:

- The prediction record has 39 keys: 36 one-hot indicators, then `tenure`, `MonthlyCharges` and
  `TotalCharges`.
- `"Monthly Charges: 70.35"` with the label `monthly charges:` gives `"70"`. The full stop ends
  the capture group (`Chatbot.DecimalAmountIsTruncated`).
- `/predict` answers only `churn_prediction`. The form then stores `undefined` as its churn risk,
  where it started with `null`. The card's `churnRisk !== null` test passes, so the probability
  line is shown with no number in it (`EndToEnd.PredictionRiskUndefined`).
- The customer search trims the ID only to test it for blankness. The ID is sent untrimmed
  (`CustomerProfile.ProfileView.BeginSearch`, `EndToEnd.PaddedIdFindsNobody`).

## Model

| member | source | states |
|---|---|---|
| ChurnPrediction.FieldNamed | src/components/ChurnPrediction.tsx:13-30 | an element id names a form field exactly when it is one of the sixteen state keys, and then names the field with that key |
| ChurnPrediction.Set | src/components/ChurnPrediction.tsx:37-39 | writing a field changes that field to the new value and leaves the other fifteen as they were |
| ChurnPrediction.PredictionForm.HandleChange | src/components/ChurnPrediction.tsx:37-39 | `handleChange` overwrites only the field named by the event id; an id naming no field changes none of the sixteen fields |
| ChurnPrediction.MissingField | src/components/ChurnPrediction.tsx:63-87 | the guard finds a field exactly when some field is the empty string, and the field it finds is empty |
| ChurnPrediction.PrepareRequest | src/components/ChurnPrediction.tsx:63-132 | nothing is encoded exactly when some field is empty; otherwise the request is the encoded record |
| ChurnPrediction.Encode | src/components/ChurnPrediction.tsx:92-132 | the record has exactly 39 entries with the fixed key list; the first 36 are indicators of value 0 or 1; the last three carry the numeric fields' text |
| ChurnPrediction.WireKeysDistinct | src/components/ChurnPrediction.tsx:92-132 | no key occurs twice in the record |
| ChurnPrediction.LookupIndicator | src/components/ChurnPrediction.tsx:92-128 | each indicator read by key is 1 exactly when its field equals its value, compared case-sensitively |
| ChurnPrediction.LookupPassthrough | src/components/ChurnPrediction.tsx:129-131 | `tenure`, `MonthlyCharges` and `TotalCharges` carry the fields' text unchanged |
| ChurnPrediction.OneHotGroupShape | src/components/ChurnPrediction.tsx:93-101 | each one-hot family has one indicator per option of its select, in the select's order, and the options are distinct |
| ChurnPrediction.FamilyExactlyOne | src/components/ChurnPrediction.tsx:93-101 | for SeniorCitizen, Partner, Dependents, InternetService, Contract, PaperlessBilling and PaymentMethod, exactly one indicator is 1 when the answer is an option of the select, and none is 1 for any other string, including one that differs only in case |
| ChurnPrediction.AddOnGroupShape | src/components/ChurnPrediction.tsx:102-119 | each add-on family is `_No` on its own field, then `_NoInternetService` on InternetService = "No", then `_Yes` on its own field |
| ChurnPrediction.AddOnIndicators | src/components/ChurnPrediction.tsx:101-119 | an add-on's `_No` and `_Yes` depend only on its own answer, so at most one of them is 1; its `_NoInternetService` equals `InternetService_No` whatever the add-on's answer |
| ChurnPrediction.YesAndNoInternetTogether | src/components/ChurnPrediction.tsx:101-119 | with no internet service and an add-on answered "Yes", both `_Yes` and `_NoInternetService` are 1 |
| ChurnPrediction.ChooseOption | src/components/ChurnPrediction.tsx:216-285 | a disabled add-on select changes nothing; an enabled select sets its own field only |
| ChurnPrediction.PredictionForm.SelectValue | src/components/ChurnPrediction.tsx:159-325 | a select's `onValueChange` updates the form as `ChooseOption` does |
| ChurnPrediction.DisabledAddOnStillRequired | src/components/ChurnPrediction.tsx:69-74 | with no internet service, an unanswered add-on is disabled yet still blocks submission, whatever other select is changed |
| ChurnPrediction.RiskOf | src/components/ChurnPrediction.tsx:136 | `setChurnRisk(result.churn_probability)` never stores `null`: it stores `undefined` exactly when the answer has no probability, and the probability otherwise |
| ChurnPrediction.PredictionForm.HandleSubmit | src/components/ChurnPrediction.tsx:41-147 | a missing field raises the missing-information notice and changes no state; otherwise the encoded record is sent and loading ends; an answer sets the prediction and stores its probability, or `undefined` when it has none, so the probability line is shown; a failure raises the prediction-failed notice and keeps the prediction and risk |
| ChurnPrediction.PredictionForm.constructor | src/components/ChurnPrediction.tsx:13-34 | the form starts with sixteen empty answers, no prediction, a `null` churn risk, so no probability line, and not loading |
| Chatbot.FirstKeyword | src/components/Chatbot.tsx:37-43 | the table index found is the first whose keyword occurs in the query, or the table's end when none occurs |
| Chatbot.SelectLabelIsFirstKeyword | src/components/Chatbot.tsx:26-43 | no label exactly when no keyword occurs in the lower-cased query; otherwise the label of the first keyword, in table order, that occurs |
| Chatbot.ChargesSelectMonthlyCharges | src/components/Chatbot.tsx:29-35 | "offer" wins over every other keyword; "charges" without "offer" selects `monthly charges:` |
| Chatbot.CaptureShape | src/components/Chatbot.tsx:40-41 | the answer is "No relevant information found." exactly when the pattern matches nowhere in the lower-cased response; otherwise it is a trimmed, lower-case substring of that response with no comma and no full stop |
| Chatbot.ExtractShape | src/components/Chatbot.tsx:25-46 | with no keyword in the query the response comes back unchanged; with one, the answer is the notice or a comma-free, stop-free, lower-case substring of the lower-cased response |
| Chatbot.DecimalAmountIsTruncated | src/components/Chatbot.tsx:40-41 | `"Monthly Charges: 70.35"` under the label `monthly charges:` gives `"70"` |
| Chatbot.NoticeIsNoCapture | src/components/Chatbot.tsx:41 | a capture can never equal the notice, since the notice contains a full stop |
| Chatbot.GroupShape | src/components/Chatbot.tsx:40-41 | the group of a match in lower-case text is trimmed lower-case text of it with no comma and no full stop, and never the no-information notice |
| CapturePattern.FindMatch | src/components/Chatbot.tsx:40 | the position found is the leftmost at which the label stands and is followed by a character other than `,` and `.` |
| CapturePattern.RunEnd | src/components/Chatbot.tsx:40 | the group `[^,.]+` extends to the first comma or full stop, or to the end |
| CapturePattern.CaptureIsLeftmostLongest | src/components/Chatbot.tsx:40-41 | given the leftmost match and the first stop after the label, the capture is the trimmed text between them |
| CapturePattern.CaptureInNone | src/components/Chatbot.tsx:40-41 | there is no capture exactly when the pattern matches nowhere |
| CapturePattern.FindMatchIsLeftmost | src/components/Chatbot.tsx:40 | any position where the pattern matches and no earlier one does is the position the search finds |
| CapturePattern.RunEndIsFirstStop | src/components/Chatbot.tsx:40 | any end that follows a run of allowed characters and stands at a comma, a full stop or the text's end is the group's end |
| CapturePattern.CaptureOfRun | src/components/Chatbot.tsx:40-41 | the capture is the trimmed text between the match found and the end of its run |
| CapturePattern.RunShape | src/components/Chatbot.tsx:40-41 | a trimmed run is a substring of the text, with no comma, no full stop and no surrounding whitespace |
| Chatbot.ExchangeLogAppend | src/components/Chatbot.tsx:52-89 | appending a non-blank user message and one bot reply keeps the history a sequence of whole exchanges |
| Chatbot.ChatSession.BeginSend | src/components/Chatbot.tsx:49-54 | a message blank after `trim()`, or a send while loading, changes nothing; otherwise the trimmed message is appended, the input cleared and loading set |
| Chatbot.ChatSession.FinishSend | src/components/Chatbot.tsx:61-92 | exactly one bot message is appended, the reply `BotReply` picks for how the request ended (connection error, server failure, processing error, not understood, or the extract of the `response` field); the toast is raised exactly when the request threw; loading ends |
| Chatbot.ChatSession.SendMessage | src/components/Chatbot.tsx:48-93 | a blank or overlapping send leaves the history unchanged; otherwise the history grows by exactly the trimmed user text and one reply, and stays a sequence of whole exchanges |
| Chatbot.ChatSession.Type | src/components/Chatbot.tsx:15 | typing replaces the message |
| Chatbot.ChatSession.constructor | src/components/Chatbot.tsx:15-17 | a session starts with no message, no history and not loading |
| CustomerProfile.ServiceStatusesShape | src/components/CustomerProfile.tsx:60-109 | no customer gives no statuses; a customer gives the nine services in fixed order, internet active unless its column is "No", every other service active exactly when its column is "Yes" |
| CustomerProfile.ServiceNamesDistinct | src/components/CustomerProfile.tsx:63-109 | the nine status names are distinct |
| CustomerProfile.RetentionNeedsProfile | src/components/CustomerProfile.tsx:24-30 | offers are only shown with a loaded customer, whose statuses are then all nine, and never unless the churn column is exactly "Yes" |
| CustomerProfile.Loaded | src/components/CustomerProfile.tsx:45-54 | after the lookup, the customer is the record found, or none when the lookup gave null or threw |
| CustomerProfile.ProfileView.BeginSearch | src/components/CustomerProfile.tsx:33-42 | an ID blank after `trim()` raises the missing-ID toast and starts nothing; otherwise loading starts and the ID is looked up exactly as typed |
| CustomerProfile.ProfileView.FinishSearch | src/components/CustomerProfile.tsx:44-57 | loading ends; the customer becomes the record or none; only a thrown lookup raises the not-found toast |
| CustomerProfile.ProfileView.RetentionEffect | src/components/CustomerProfile.tsx:24-30 | the offers flag becomes true exactly for a loaded customer who churned |
| CustomerProfile.ProfileView.Search | src/components/CustomerProfile.tsx:24-58 | a blank ID leaves customer, loading and offers unchanged; otherwise loading ends, the customer is the lookup's record or none, and the offers follow the new customer |
| CustomerProfile.ProfileView.TypeId | src/components/CustomerProfile.tsx:125 | typing replaces the ID |
| CustomerProfile.ProfileView.constructor | src/components/CustomerProfile.tsx:18-22 | the view starts with an empty ID, no customer, no offers and not loading |
| DashboardStats.ChurnRateValueCases | src/components/DashboardStats.tsx:146-155 | no rate exactly when there is no payload, no rate, a rate of 0, or an object missing a count; a non-zero number is used as is; both counts give exactly Yes/(Yes+No), or a non-finite number when Yes+No is 0; the share lies in [0, 1] for counts that are not negative and not both zero |
| DashboardStats.OrZero | src/components/DashboardStats.tsx:55-56 | `x \|\| 0` on a count is the count, or 0 when it is missing |
| DashboardStats.DistributionShape | src/components/DashboardStats.tsx:51-58 | no distribution gives no slices; otherwise exactly Retained (No) then Churned (Yes), a missing count giving 0 |
| DashboardStats.DistributionChartCases | src/components/DashboardStats.tsx:64-109 | the distribution card is a skeleton while loading; otherwise it is unavailable exactly without a distribution; otherwise Retained is drawn in the first colour and Churned in the second |
| DashboardStats.PieColorsAlternate | src/components/DashboardStats.tsx:99-101 | slice colours alternate between the two colours, `COLORS[index % COLORS.length]` with two colours |
| DashboardStats.FallbackTrendShape | src/components/DashboardStats.tsx:158-171 | without a trend, the fallback has twelve points, January to December, each rate within the axis range 4 to 7 |
| DashboardStats.FallbackReasonsShape | src/components/DashboardStats.tsx:174-181 | without reasons, the fallback is six reasons from Price to Other, which add up to 100 percent |
| DashboardStats.PayloadReplacesFallbacks | src/components/DashboardStats.tsx:158-181 | a trend or a reasons array in the payload, even an empty one, replaces the fallback |
| DashboardStats.BarColorsDistinctThenFixed | src/components/DashboardStats.tsx:323-338 | bars 0 to 5 have six different colours, and every bar from index 5 on is "#8b5cf6" |
| DashboardStats.DisplayDataOrder | src/components/DashboardStats.tsx:20-46 | loading is checked first; a missing value shows "Data not available"; otherwise the value is shown with `$` exactly for currency and a space plus the unit exactly when the unit is not empty |
| DashboardStats.SummaryCardsShow | src/components/DashboardStats.tsx:186-259 | while loading every card is a skeleton; once loaded, total customers are shown rounded, the churn rate as a percent with " %", the average tenure rounded with " mo" and the average monthly charge with "$", each card unavailable exactly when its figure is missing |
| DashboardStats.NoPayloadShowsFallbacks | src/components/DashboardStats.tsx:146-181 | without a payload, once loading ends, every figure and the pie are unavailable and both charts fall back |
| Backend.AlignFeatures | backend/main.py:167-172 | the aligned row has exactly the model's features, in order, each with the request's value or 0 |
| Backend.AlignIgnoresOtherKeys | backend/main.py:167 | request keys the model does not know are dropped: requests that agree on the model's features align to the same row |
| Backend.AlignEmpty | backend/main.py:167 | an empty request aligns to all zeros |
| Backend.PredictChurnCases | backend/main.py:156-182 | only a missing token gives a status other than 500; any token is accepted; a missing model and a failing classifier both give 500 "Prediction error"; otherwise the answer is the classifier's prediction for the aligned row |
| Backend.ChurnFlag | backend/main.py:236 | "Yes" maps to 1 and every other value to 0 |
| Backend.CountsSplit | backend/main.py:253-255 | every row is counted once, as churned or as retained |
| Backend.SumOfFlags | backend/main.py:236-260 | the sum of the mapped churn column is the churned count |
| Backend.DashboardTally | backend/main.py:226-279 | figures come back exactly when the data loaded with its three columns and at least one row; churned plus retained equals the total; active customers equal retained; the churn rate is churned over total, in [0, 1] |
| Backend.AppendKeepsUnique | backend/main.py:129-136 | appending an email not yet in the table keeps emails unique |
| Backend.UserStore.Register | backend/main.py:125-140 | an email already in the table it reads appends nothing and answers 500, the 400 being swallowed; a new email appends exactly one row; with a readable table, emails stay unique |
| Backend.UserStore.constructor | backend/main.py:43-53 | the store holds the given rows |
| Backend.FirstUser | backend/main.py:146 | the row found is the first with the email, or none |
| Backend.LoginCases | backend/main.py:142-154 | a login succeeds exactly when the first row with that email verifies the password, with the username itself as token; an unknown email or a failed verify gives 500, the 401 being swallowed |
| Backend.LoginAfterRegister | backend/main.py:125-154 | after a new email is registered with a password's hash, that password logs in, and every other user's login answer is unchanged |
| Backend.ChatCases | backend/main.py:197-223 | 400 exactly when the query is all Python whitespace; otherwise the unavailable notice without a retriever, 500 when retrieval raises, else the first retrieved document or the fixed fallback when none is found. The retriever is always built at import (backend/main.py:103), so the unavailable branch is dead code in the source; the `EndToEnd` lemmas about a delivered reply pass `retrieverReady` as true |
| Backend.ChatIgnoresSurroundingSpace | backend/main.py:200 | a query and its stripped form get the same reply |
| Backend.FirstCustomer | backend/main.py:188 | the row found is the first with the ID, or none |
| Backend.CustomerProfileCases | backend/main.py:185-195 | 404 "Customer not found" exactly when no record has the ID; otherwise the first record with that ID |
| EndToEnd.PieMatchesTally | backend/main.py:253-267 | the pie from a summary shows the active (retained) customers, then the churned ones, and the two slices add up to the total |
| EndToEnd.ZeroChurnRateNotShown | src/components/DashboardStats.tsx:147-149 | a data set where nobody churned shows its churn rate as "Data not available"; one with a churned customer shows the churned share |
| EndToEnd.ErrorDictShowsNothing | backend/main.py:275-279 | the error dictionary leaves every figure and the pie unavailable, and both charts fall back |
| EndToEnd.SeparatorPassesGuardButIsRefused | backend/main.py:200-203 | a message of one information separator passes the browser's `trim()` guard; the server strips it to nothing and answers 400, so the user sees the server-failure reply |
| EndToEnd.DocumentReply | src/components/Chatbot.tsx:64-71 | a document returned for the message is shown through `extractRelevantInfo` applied to the trimmed message |
| EndToEnd.PaddedIdFindsNobody | src/components/CustomerProfile.tsx:45 | an ID typed with a leading space finds no record in data whose IDs never start with one; the server answers 404, the view receives null, for which no toast is raised, and no customer and no offers are shown |
| EndToEnd.OffersFollowRecord | backend/main.py:188-191 | a search shows offers exactly when the first record with that ID has churned |
| EndToEnd.InternetStatusMatchesEncoding | src/components/CustomerProfile.tsx:75-78 | the profile shows internet as active exactly when the encoding of the record's answers has `InternetService_No` = 0 |
| EndToEnd.AddOnStatusMatchesEncoding | src/components/CustomerProfile.tsx:79-108 | the profile shows an add-on as active exactly when the encoding of the record's answers has its `_Yes` = 1 |
| EndToEnd.RequestBodyLookup | src/components/ChurnPrediction.tsx:92-134 | the posted dictionary has a key exactly when the record does, with the record's value |
| EndToEnd.AlignedIndicator | backend/main.py:167 | a model feature that is one of the form's indicators gets 1.0 or 0.0, as the field's answer says |
| EndToEnd.UnsentFeatureIsZero | backend/main.py:167 | a model feature the form never sends, such as a phone-service or gender column, is always 0 |
| EndToEnd.PredictionRiskUndefined | backend/main.py:179 | a successful prediction carries no probability, so the form's risk becomes `undefined` and the probability line is shown empty; a token, a model and a classifier answer give a successful prediction; a missing model always fails |
| Text.Lower | src/components/Chatbot.tsx:26 | lower-casing keeps the length, maps each upper-case ASCII letter to its lower-case letter and changes no other character |
| Text.LowerChar | src/components/Chatbot.tsx:26 | an upper-case ASCII letter becomes the letter 32 code points on, its lower-case form; every other character is left alone; no upper-case ASCII letter remains |
| Text.LowerOfLower | src/components/Chatbot.tsx:40 | lower-casing text that has no upper-case ASCII letter changes nothing |
| Text.InfixOfLower | src/components/Chatbot.tsx:40 | every substring of lower-cased text is lower-case |
| Text.TrimJs | src/components/Chatbot.tsx:49 | `trim()` cuts exactly a leading and a trailing run of JavaScript whitespace and nothing between them, leaves no whitespace at either end, and is empty exactly when the text is all whitespace |
| Text.TrimJsIsInfix | src/components/Chatbot.tsx:41 | the trimmed text is a substring of the original |
| Text.StripPy | backend/main.py:200 | `strip()` cuts exactly a leading and a trailing run of Python whitespace and nothing between them, leaves no whitespace at either end, and is empty exactly when the text is all whitespace |
| Text.TrimBy | backend/main.py:200 | the result is the slice of the text between a leading and a trailing run of characters of the set, starting and ending outside the set, and is empty exactly when every character is in the set |
| Text.TrimByIdempotent | backend/main.py:200 | trimming twice is trimming once |
| Text.TrimByOfTrimmed | src/components/Chatbot.tsx:49 | text with no whitespace at either end is its own trimmed form |
| Text.StripPyIsInfix | backend/main.py:200 | the stripped query is a substring of the original |

## Left out

- JSX rendering, icons, styling, chart configuration, the retention-offer copy and scrolling the chat.
- `src/components/DashboardService.ts` and the `@/services/api` module behind it are not part of
  this model. `EndToEnd` assumes the wrapper returns null in place of a rejected request, and that
  the prediction record is posted as the request's `features`.
- Number formatting: `Number(...)` for the numeric fields is a `parse` parameter, and the
  record keeps their text. `toFixed` and `Math.round` in `DisplayData` are not modelled: a shown
  figure keeps the raw value and its format.
- Floating point: the churn share, the means and the counts are exact reals. A zero denominator
  in `Yes/(Yes+No)` is one non-finite value; NaN coming in as a churn rate is not represented.
- A `churn_probability` of JSON `null` is not told apart from a missing one: the answer's
  `churnProbability` is `None` for both, and `RiskOf` maps `None` to `undefined`. The back end
  never sends `null`; it leaves the key out.
- Null members inside the churn-rate object (`Yes: null`) are not distinguished from missing ones.
- Unicode lower-casing: `Lower` maps only the ASCII letters.
- Concurrency: sends and searches that overlap. `BeginSend`/`FinishSend` and
  `BeginSearch`/`FinishSearch` split an operation at its `await`. `SendMessage` and `Search`
  model a call that no other call interleaves.
- The stale-closure behaviour of React state setters is not modelled.
- `handleChange` with an id that is no form key adds that key to the JavaScript object. The model
  keeps the sixteen fields unchanged and drops the extra key.
- A `data.response` that is truthy but not a string is not modelled.
- I/O and libraries:
  - CSV reading and writing, `dropna` on load, joblib/sklearn loading, haystack BM25 retrieval,
    bcrypt, logging, CORS, uvicorn and `/health`.
  - The classifier, the retriever and the password hash or verify step are parameters.
  - A failing `load_users` read is the boolean `readFailed` on `Register`. `LoginReply` takes the
    table as it was read.
  - A password verify that raises is not distinguished from one that fails.
  - A failure while appending to the users file is not modelled.
- Backend.UserStore.Register: assumes the users file gives each email back exactly as written.
  `pd.read_csv` reads an email such as `"NA"`, `"N/A"`, `"null"`, `"None"`, `"nan"` or `""` back as
  NaN, and an all-digit email column may come back as integers. For such an email the source's
  duplicate test never matches, so registering it twice appends two rows and answers 200 both
  times; the model answers 500 the second time.
- Backend.LoginAfterRegister: makes the same assumption. For an email that `read_csv` turns into
  NaN or a number, the source's comparison with the submitted username never matches and login
  answers 500; the lemma promises `Ok` for every registered email.
- Backend.CustomerProfile: the generic-exception branch (500 "Error retrieving customer profile")
  is not modelled, because no exception can arise from an exact column comparison over loaded data.
- Backend.PredictChurn: the 422 answer that request validation gives for a non-numeric feature
  value is not modelled.
- Whether the 39 keys the form sends match the model's `feature_names_in_` is not settled. The
  feature list comes from a model file that is not part of this model. `EndToEnd.UnsentFeatureIsZero`
  states what the classifier sees for a feature that is not sent.
- Backend.DashboardData: the averages are means of the parsed columns, with unparsable values as
  0. `pd.to_numeric` itself is the input `ChurnRow` carries.
