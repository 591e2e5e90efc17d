# Microloan client: underwriting forms and fraud rules

This project models the decision logic of a microloan web client and of its
Flask backend's fraud rule, in Dafny:

- **Loan application page** (`LoanApplication`): form edits; a submit that
  asks the credit-score endpoint, then the fraud-check endpoint; and the rule
  that folds both replies into `approved`, `rejected` or `error`.
- **Fraud-check page** (`FraudDetection`): the ordered amount validator; the
  form state and the early return on a recorded amount error; how a reply
  becomes a shown assessment or an error message; the 70/40 colour band and
  the 1.3/1.0 severity band; and the `snake_case` to "Title Case" factor label.
- **Credit-scoring page** (`CreditScoring`): form edits under the literal key
  name, so a dotted name like `phoneData.callFrequency` adds a flat key and
  never fills the nested object; a submit that keeps the previous score on
  any failure; and the 650/550 score band with its message.
- **Backend fraud rule** (`FraudRules`): `detect_fraud`'s nine weighted
  patterns, their mean times 100, the 70/40 level and recommendation, the
  seven reported factors, and the 650/550 credit risk level.

Shared pieces: `Js` holds form values, the `{...prev, [name]: value}` update
(`Assign`), the result of JavaScript's ToNumber coercion (`Number`, with NaN
and the infinities) and thrown messages. `Services` holds what `fetch`
returns (`NoResponse` when the promise rejects, otherwise `Reply(ok, body)`),
the JSON bodies with their optional fields, and the requests.

The pages are classes whose fields are the component state (`formData`,
`loading`, `result`/`score`, `errors.amount`). Each keeps a ghost record of
the requests it sent. Each entry holds the page's `loading` flag and its shown
result at the moment of sending. This is how "loading is on during the call",
"the result is cleared first" and "the fraud endpoint is not contacted after a
credit failure" are stated. The endpoints are passed to the submit methods as
functions from request to response. The runtime's string-to-number coercion
is passed to the amount validator the same way.

Four facts about the code shape the model:
- The loan page's error texts are fixed strings, such as "Failed to
  calculate credit score". The server's own error message is not shown.
- The loan page makes its two calls one after the other. The fraud call
  starts only once the credit reply has come back ok.
- The loan page checks only the HTTP `ok` flag, never the body's `status`.
- Each page keeps its own copy of its thresholds: 600/50 on the loan page,
  70/40 and 1.3/1.0 on the fraud page, and 650/550 on the credit page and
  in the backend.

Some behaviour of the source that the model makes explicit:
- The recommendation banner on the fraud page is coloured by
  `getRiskFactorSeverity(score / 50)`. Its bands are at 65 and 50, not at the
  70 and 40 used for the score colour (`FraudDetection.BannerBands`).
- Through the endpoint, only three fraud conditions can hold, so the risk
  score never reaches 50. For any credit service that answers ok, the loan
  decision then rests on the credit score alone
  (`LoanApplication.BackendRiskNeverRejects`). This repository's own credit
  endpoint never answers ok, however: `predict_credit_score` reads the
  undefined name `weights` (sp/backend/app.py:60-61), so the endpoint takes
  its 400 branch (sp/backend/app.py:129-133). Against this backend the loan
  page therefore always shows "Failed to calculate credit score".
- The fraud page's amount error starts empty although the amount starts
  empty. The early return in `handleSubmit` therefore does not stop a submit
  of the untouched form. In the browser, the field's `required` attribute
  does.

## Model

| member | source | states |
|---|---|---|
| `Js.Assign` | sp/src/components/LoanApplication.jsx:19-22 | the spread update sets the literal key `name` and leaves every other key as it was |
| `LoanApplication.Decide` | sp/src/components/LoanApplication.jsx:81 | approved iff the credit score is present and above 600 and the risk score is below 50; 600 or 50 is rejected |
| `LoanApplication.Underwrite` | sp/src/components/LoanApplication.jsx:37-91 | no credit reply gives the browser's error text, and a non-ok credit reply gives "Failed to calculate credit score"; after an ok credit reply, no fraud reply gives the browser's error text and a non-ok one gives "Failed to perform fraud check", and an ok one without an assessment gives the browser's error text; a result is scored exactly when both replies are ok and an assessment is present, and then it carries both raw scores unchanged and is approved iff score > 600 and risk < 50 |
| `LoanApplication.FraudIgnoredAfterCreditFailure` | sp/src/components/LoanApplication.jsx:53-55 | after a failed credit reply, no fraud reply can change the outcome |
| `LoanApplication.CreditStatusIgnored` | sp/src/components/LoanApplication.jsx:53-57 | the credit body's `status` never affects the outcome: success is the HTTP `ok` flag alone |
| `LoanApplication.RequestsAgree` | sp/src/components/LoanApplication.jsx:44-69 | both requests send frequency 1 and the same loan-amount text and new-account flag from the form |
| `LoanApplication.RequestsReadFourKeys` | sp/src/components/LoanApplication.jsx:44-69 | the credit body always has the same five keys; editing the name, e-mail or purpose changes neither request; the loan amount typed is what both requests send as the amount |
| `LoanApplication.BackendRiskNeverRejects` | sp/src/components/LoanApplication.jsx:78-82 | for any credit service that answers ok, with the backend's fraud reply the outcome is always scored and approval depends only on the credit score |
| `LoanApplication.LoanForm.constructor` | sp/src/components/LoanApplication.jsx:5-15 | the initial form fields, not loading, no result, nothing sent |
| `LoanApplication.LoanForm.HandleInputChange` | sp/src/components/LoanApplication.jsx:17-23 | only the named form key changes, to the text; nothing else changes |
| `LoanApplication.LoanForm.HandleCheckboxChange` | sp/src/components/LoanApplication.jsx:25-31 | only the named form key changes, to the flag; nothing else changes |
| `LoanApplication.LoanForm.HandleSubmit` | sp/src/components/LoanApplication.jsx:33-92 | the credit request goes first with loading on; the fraud request is sent only after an ok credit reply; afterwards loading is off and the result is the outcome of the replies |
| `FraudDetection.ValidateAmount` | sp/src/components/FraudDetection.jsx:33-39 | each message holds exactly when its check is the first to fail (empty, NaN, not positive, over 1,000,000); the empty string holds exactly for a finite amount in (0, 1,000,000] |
| `FraudDetection.Classify` | sp/src/components/FraudDetection.jsx:81-104 | an assessment is shown iff the reply is ok with status `success` and an assessment, and it is exactly that assessment; a non-ok reply shows the server error or the fixed text; another ok reply shows the invalid-format text; the shown message is never empty |
| `FraudDetection.BackendReplyShown` | sp/src/components/FraudDetection.jsx:87-95 | the backend's reply is shown as its assessment, whose level is never high and whose colour is never the error colour |
| `FraudDetection.RiskColor` | sp/src/components/FraudDetection.jsx:110-114 | error above 70, warning in (40, 70], success at 40 or below |
| `FraudDetection.RiskFactorSeverity` | sp/src/components/FraudDetection.jsx:116-120 | error above 1.3, warning in (1.0, 1.3], success at 1.0 or below |
| `FraudDetection.RiskColorMonotone` | sp/src/components/FraudDetection.jsx:110-114 | a higher score never gets a milder colour |
| `FraudDetection.RiskFactorSeverityMonotone` | sp/src/components/FraudDetection.jsx:116-120 | a higher value never gets a milder severity |
| `FraudDetection.BannerBands` | sp/src/components/FraudDetection.jsx:245 | the banner severity of score/50 is error above 65 and warning in (50, 65]; in (65, 70] it disagrees with the score colour |
| `FraudDetection.AssembleIsTitled` | sp/src/components/FraudDetection.jsx:220-222 | split, capitalise and join equals the character-by-character reference definition |
| `FraudDetection.FactorLabel` | sp/src/components/FraudDetection.jsx:220-222 | the split/capitalise/join label equals the character-by-character reference definition, starting at a word boundary |
| `FraudDetection.FactorLabelAt` | sp/src/components/FraudDetection.jsx:220-222 | the label is as long as the name; an underscore becomes a space, the first letter of each word is upper-cased, every other character is kept |
| `FraudDetection.FactorLabelHasNoUnderscore` | sp/src/components/FraudDetection.jsx:220-222 | no underscore remains in a label |
| `FraudDetection.RequestReadsThreeKeys` | sp/src/components/FraudDetection.jsx:74-78 | the request reads only the amount, frequency and new-account keys; a typed amount is sent through `parseFloat`, a frequency through `parseInt`, the flag as it is |
| `FraudDetection.FraudForm.constructor` | sp/src/components/FraudDetection.jsx:22-31 | the initial form (empty amount, frequency '1', new account), no amount error, not loading, no result |
| `FraudDetection.FraudForm.HandleInputChange` | sp/src/components/FraudDetection.jsx:41-51 | only the named key changes; the amount error is recomputed only when the key is `amount` |
| `FraudDetection.FraudForm.HandleCheckboxChange` | sp/src/components/FraudDetection.jsx:53-59 | only the named key changes, to the flag |
| `FraudDetection.FraudForm.HandleSubmit` | sp/src/components/FraudDetection.jsx:61-108 | with an amount error nothing changes and nothing is sent; otherwise one request goes out with loading on and the result cleared, then loading is off and the result is the classified reply |
| `CreditScoring.NestedObjectsNeverFilled` | sp/src/components/CreditScoring.jsx:25-31 | edits under the page's field names never change the nested `phoneData`/`transactionData` objects; each dotted name becomes a flat key |
| `CreditScoring.RequestOf` | sp/src/components/CreditScoring.jsx:43 | the request body has exactly the form's keys, each sent as it stands |
| `CreditScoring.RequestSendsInitialNested` | sp/src/components/CreditScoring.jsx:25-43 | whatever is typed into the page's fields, the request sends the nested `phoneData` and `transactionData` objects exactly as initialised, so the backend's nested reads (sp/backend/app.py:113-118) never see the typed values |
| `CreditScoring.ScoreAfter` | sp/src/components/CreditScoring.jsx:46-58 | an ok reply with status `success` sets the score to its `score`; any other reply keeps the previous score |
| `CreditScoring.ScoreBand` | sp/src/components/CreditScoring.jsx:190 | success above 650, warning in (550, 650], error at 550 or below |
| `CreditScoring.ScoreMessage` | sp/src/components/CreditScoring.jsx:195-199 | Excellent above 650, Fair in (550, 650], Poor at 550 or below |
| `CreditScoring.BandAndMessageAgree` | sp/src/components/CreditScoring.jsx:190-199 | severity and message always name the same band |
| `CreditScoring.ScoreBandMonotone` | sp/src/components/CreditScoring.jsx:190 | a higher score never gets a worse severity |
| `CreditScoring.ScorePanel` | sp/src/components/CreditScoring.jsx:188-203 | the panel shows exactly when the score is present and non-zero, with the band and message of that score |
| `CreditScoring.CreditForm.constructor` | sp/src/components/CreditScoring.jsx:5-23 | the initial form with its two nested objects, not loading, no score |
| `CreditScoring.CreditForm.HandleInputChange` | sp/src/components/CreditScoring.jsx:25-31 | the value goes under the literal name; every other key, the nested objects included, is unchanged |
| `CreditScoring.CreditForm.HandleSubmit` | sp/src/components/CreditScoring.jsx:33-61 | one request with the whole form goes out with loading on; afterwards loading is off and the score is replaced only by an accepted reply |
| `FraudRules.Patterns` | sp/backend/app.py:70-85 | there are nine patterns; each is its weight (1.5, 1.3, 1.2, 1.4, 1.2, 1.6, 1.5, 1.3, 1.4) when its own condition holds and 0 otherwise; the 1.0 and 0.8 weights never show |
| `FraudRules.PatternValue` | sp/backend/app.py:70-85 | the same for any index: pattern i is the i-th weight when the i-th condition holds and 0 otherwise |
| `FraudRules.RiskScore` | sp/backend/app.py:97 | the score lies between 0 and 1240/9 |
| `FraudRules.RiskScoreMonotone` | sp/backend/app.py:75-97 | a condition turning true never lowers the score |
| `FraudRules.RiskLevel` | sp/backend/app.py:101 | high above 70, medium in (40, 70], low at 40 or below |
| `FraudRules.Recommendation` | sp/backend/app.py:103 | reject above 70, review in (40, 70], approve at 40 or below |
| `FraudRules.LevelMatchesRecommendation` | sp/backend/app.py:101-103 | high goes with reject, medium with review, low with approve |
| `FraudRules.RiskFactors` | sp/backend/app.py:87-95 | the factors are the seven named ones, each holding the value of its pattern (the first seven patterns, in order) |
| `FraudRules.DetectFraud` | sp/backend/app.py:67-104 | the assessment's score is the mean of the patterns times 100, its level and recommendation follow that score, and its seven factors hold 1.5, 1.3, 1.2, 1.4, 1.2, 1.6 and 1.5 exactly when their conditions hold, 0 otherwise |
| `FraudRules.FactorNamesCount` | sp/backend/app.py:87-95 | the seven factor names are distinct |
| `FraudRules.ReportedFactors` | sp/backend/app.py:87-97 | exactly seven factors are reported; the score is those seven plus the unreported velocity and device-risk values, over nine, times 100 |
| `FraudRules.EndpointRisk` | sp/backend/app.py:139-143 | with only amount, frequency and new account given, the score is at most 400/9 < 50, the level is never high, and review occurs iff all three conditions hold |
| `FraudRules.CreditRiskLevel` | sp/backend/app.py:125 | low above 650, medium in (550, 650], high at 550 or below |
| `FraudRules.FraudCheckReply` | sp/backend/app.py:145-149 | the endpoint answers ok with status `success` and the assessment of its three inputs |

## Left out

- The dashboard's stats polling (`LoanDashboard.jsx`) is not modelled. It is a timer and `fetch` effect whose only logic is to replace the stats on success and log on failure. It has no single-flight guard and no stopped state.
- `LoanDetails.jsx` (mock data behind a timer) and `App.jsx` (routing and theme) are display only.
- `predict_credit_score` is not modelled. It reads an undefined name (`weights`), so the credit endpoint always takes its error branch.
- Flask routing, `jsonify`, timestamps, CORS and `request.json` are not modelled. `float()`/`int()` in `check_fraud` are taken as already applied: `FraudCheckReply` receives the converted numbers.
- JSON bodies are assumed to parse. A non-JSON reply, for which `response.json()` throws, is not modelled.
- Non-string `error` fields and non-boolean `newAccount` values are not modelled.
- A `risk_assessment` without a `risk_score` is not modelled: the backend always sends one.
- Python floats are modelled as exact reals. They differ only at exact threshold ties, which the endpoint cannot reach. `float('nan')` and `float('inf')` amounts are not modelled.
- JavaScript's string-to-number coercion is a parameter of `FraudDetection.ValidateAmount`, not a definition. `parseFloat`/`parseInt` in the fraud request are kept symbolic (`Sent.ParseFloat`, `Sent.ParseInt`), and the numbers they give are not modelled.
- Browser-generated error texts (a rejected `fetch`, a property read on `undefined`) are one value, `EngineText`.
- Console logging, MUI rendering, `Math.round`, `toFixed` and the `Rating` widget are not modelled.
- The browser's constraint validation (`required`, `type="number"`) that runs before `onSubmit` is not modelled. So is the submit button being disabled while loading.
- React's asynchronous state batching and a second submit while one is in flight are not modelled. Each submit runs to completion.
- FraudDetection.Upper: upper-cases ASCII letters only. Unicode case mapping (for example 'ß' to "SS", which changes length) is not modelled, so the label properties hold as stated only for ASCII factor names.
