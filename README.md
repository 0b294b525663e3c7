# ROI calculator: a Dafny model

The system is a lead-generation page for a CRM + chatbot bundle. A visitor enters business figures and the page shows an ROI estimate. The visitor then leaves contact details, and the figures go to the sales team by e-mail. The ROI arithmetic exists in three copies:

- `calculateROI` in the React page (`frontend/src/App.js`);
- `calculate_roi` in the FastAPI back end (`backend/server.py`);
- an inline block in the Cloudflare Workers function `functions/api/calculate-roi.js`.

A second Workers function, `functions/api/submit-roi.js`, validates a submission, e-mails it and optionally stores it in a KV namespace.

The model has one Dafny module per source file, plus shared modules:

- `Basics` holds `Option` and `Result`.
- `JsValues` holds JavaScript strings as UTF-16 code units, and the non-finite numbers that a division by zero gives.
- `RoiApp` (App.js) holds the engine as a function over `real` and the form as a class. The class has the fields `calculationData`, `contactData`, `showContactForm`, `isSubmitting`, `showConfirmation` and `calculationResult`. Each handler is a method with a `modifies` clause. The class invariant says the stored result is the preview of the current data whenever the contact form is shown.
- `RoiServer` (server.py) holds the calculation input and output records, with the input's defaults, `calculate_roi`, and the two endpoints' responses.
- `RoiWire` holds the JSON bodies the two Workers read. A member there is missing, `null` or a number.
- `CalculateRoiFunction` (calculate-roi.js) holds the handler and its inline computation.
- `SubmitRoiFunction` (submit-roi.js) holds the validation chain and the KV key sanitiser. It also has the KV namespace as a class with a `map`, and the handler as a method that writes into it.
- `CopiesAgree` proves that the three copies compute the same fields on every request the server accepts, when every member is posted, except at zero investment. There:
  - the browser gets `Infinity`, `-Infinity` or `NaN` as the ROI;
  - Python raises `ZeroDivisionError`, which becomes HTTP 500;
  - the Workers function still answers success, provided inquiries and hourly cost are nonzero.

  The endpoints also differ when inquiries or hourly cost is 0. The Workers function then answers 400 "Missing required calculation data", while the server computes and answers success (`CopiesAgree.ZeroInquiriesOrCostDiverge`).

The ROI percentage for the default form includes the `× personas_involucradas` factor (App.js:58, server.py:93). So the CRM saving is 1728 hours and 3456000 a year, the total saving is 4016000, the investment is 1400000, and the ROI is 1308/7 ≈ 186.857 %. A `0` in any optional revenue input is treated exactly like an empty input, as the source does. `RoiApp.ZeroIsNotGiven` proves this.

## Model

| member | source | states |
|---|---|---|
| `JsValues.Divide` | frontend/src/App.js:64 | JavaScript division: finite exactly when the divisor is nonzero, and then the quotient times the divisor gives back the dividend. Otherwise the result is +Infinity, -Infinity or NaN according to the sign of the dividend. |
| `RoiApp.CalculationData.With` | frontend/src/App.js:35-41 | The spread update `{...prev, [name]: value}`: the named field holds the new value and every other field is unchanged. |
| `RoiApp.CalculateRoi` | frontend/src/App.js:51-86 | Chatbot hours/month × 6000 = inquiries × percent × minutes. The yearly chatbot saving is those hours × 12 × the hourly cost. CRM hours/year × 100 = 12 × monthly hours × percent × persons, and the CRM saving is those hours × the cost. The total is the sum of the two savings. The investment is licence + implementation. The ROI is finite iff the investment is nonzero, and then ROI × investment = (saving − investment) × 100. With zero investment the ROI is +Infinity iff the saving is positive and NaN iff it is zero. The revenue estimate exists iff all three optional inputs are truthy, and then equals 12 × inquiries × (expected − current rate)/100 × ticket. Blank required inputs count as 0. |
| `RoiApp.RoiSign` | frontend/src/App.js:62-64 | With positive investment the ROI is positive, zero or negative exactly as the total saving exceeds, equals or falls short of the investment. |
| `RoiApp.ChatbotSavingMonotone` | frontend/src/App.js:53-55 | With non-negative inquiries, response time and hourly cost, raising the automatable chatbot percentage never lowers the yearly chatbot saving. |
| `RoiApp.InitialFormResult` | frontend/src/App.js:7-20 | The initial form gives 70/3 chatbot hours a month and 560000 chatbot saving. It also gives 1728 CRM hours, 3456000 CRM saving, 4016000 total, 1400000 investment, an ROI of 1308/7 % and no revenue estimate. |
| `RoiApp.AdditionalRevenueExample` | frontend/src/App.js:67-74 | 500 inquiries a month, conversion 2 % → 5 % and a ticket of 1000 give an estimate of 180000. |
| `RoiApp.ZeroIsNotGiven` | frontend/src/App.js:67-68 | A value of 0, or an empty value, in any one optional input gives no revenue estimate, whatever the other two hold. |
| `RoiApp.ContactData.With` | frontend/src/App.js:43-49 | `handleContactChange`'s update changes the named contact field only. |
| `RoiApp.OrNull` | frontend/src/App.js:104-106 | The `or null` fallback is non-null exactly for a truthy value, which it keeps. |
| `RoiApp.SubmissionPayload` | frontend/src/App.js:101-110 | Each posted optional input is non-null iff the form value is truthy, and is then that value. The nine required inputs are copied field by field, and so is the contact data. The output is the stored result, not recomputed. |
| `RoiApp.PayloadOptionalsMatchGate` | frontend/src/App.js:101-110 | The three posted optional inputs are all non-null exactly when the preview has a revenue estimate. |
| `RoiApp.RoiForm.constructor` | frontend/src/App.js:7-33 | The initial state: the default figures, empty contact fields, all flags false and no result. |
| `RoiApp.RoiForm.HandleCalculationChange` | frontend/src/App.js:35-41 | Only `calculationData` changes, and only in the named field. The handler runs only while the calculation form is rendered. |
| `RoiApp.RoiForm.HandleContactChange` | frontend/src/App.js:43-49 | Only `contactData` changes, and only in the named field. |
| `RoiApp.RoiForm.HandleCalculate` | frontend/src/App.js:88-92 | `calculationResult` becomes `calculateROI(calculationData)` and the contact form is shown. Nothing else changes. |
| `RoiApp.RoiForm.HandleBack` | frontend/src/App.js:406-412 | The "Volver" button hides the contact form and keeps the stored result and the data. |
| `RoiApp.RoiForm.BeginSubmit` | frontend/src/App.js:94-111 | Sets `isSubmitting` and returns the payload. The payload's output is the preview of exactly the data being sent. |
| `RoiApp.RoiForm.FinishSubmit` | frontend/src/App.js:112-119 | After the POST settles, the confirmation is shown iff it succeeded, and `isSubmitting` is cleared either way. |
| `RoiServer.CalculateRoi` | backend/server.py:84-119 | Raises `ZeroDivisionError` iff licence + implementation is 0. Otherwise it gives the same relations as the JavaScript copy for hours, savings, total, investment and ROI. The revenue estimate exists iff `all([...])` holds, meaning none of the three is `None` or 0, and it has the same formula. |
| `RoiServer.DefaultInputResult` | backend/server.py:37-49 | The pydantic defaults give investment 1400000, total saving 4016000 and ROI 1308/7 %. |
| `RoiServer.CalculateEndpoint` | backend/server.py:182-189 | The response is HTTP 500 "Error en el cálculo" iff the investment is 0. Otherwise it is a success message without the result. |
| `RoiServer.SubmitEndpoint` | backend/server.py:191-211 | Success iff the e-mail was sent and the record stored. Every failure, the failed e-mail included, answers 500 "Error procesando la solicitud". |
| `CalculateRoiFunction.Compute` | functions/api/calculate-roi.js:17-50 | No result (NaN) iff a member the arithmetic reads is absent. Otherwise: total = sum of savings, investment = licence + implementation (`null` as 0), and the ROI is finite iff the investment is nonzero, with the same ROI equation. The revenue estimate exists iff all three optional members are truthy. |
| `CalculateRoiFunction.HandleRequest` | functions/api/calculate-roi.js:3-69 | A non-POST request gets 405. An unparsable body gets 500. Given a body, the response is 400 iff `consultas_mensuales` or `costo_horario_empleado` is falsy. Success is exactly a POST with a body passing that check, which implies both are nonzero numbers. The success body holds only status and message. |
| `CalculateRoiFunction.ZeroInquiriesRefused` | functions/api/calculate-roi.js:13-15 | A zero number of inquiries is refused with 400, like a missing one. |
| `SubmitRoiFunction.Validate` | functions/api/submit-roi.js:12-20 | The body passes iff all three parts are present and e-mail, name and company are non-empty. A missing part is reported as "Missing required data" before any contact check. Any other failure is "Missing required contact information". |
| `SubmitRoiFunction.TelefonoShown` | functions/api/submit-roi.js:30 | The telephone shown is the given one when non-empty, otherwise "No proporcionado". |
| `SubmitRoiFunction.Outcome` | functions/api/submit-roi.js:3-115 | A non-POST request gets 405. A 400 arises iff validation fails, and it is the validation's response. An unparsable or `null` body, an e-mail text that throws and an unreachable MailChannels each give 500 "Internal server error". The response is 200 iff the body is valid, the e-mail text builds and the e-mail is accepted. A rejected e-mail gives 500 "Error sending email". Every other status is 500. |
| `SubmitRoiFunction.Sanitize` | functions/api/submit-roi.js:92 | Same length as the input. Alphanumeric code units stay in place and every other code unit becomes `_`. |
| `SubmitRoiFunction.SanitizedIsKeySafe` | functions/api/submit-roi.js:92 | A sanitised name holds only `[a-zA-Z0-9_]`. |
| `SubmitRoiFunction.SanitizeIdempotent` | functions/api/submit-roi.js:92 | Sanitising twice equals sanitising once. |
| `SubmitRoiFunction.StorageKey` | functions/api/submit-roi.js:92 | The key is "roi_", then the timestamp, then "_", then the sanitised company. Its length is the sum of the parts plus 5. |
| `SubmitRoiFunction.StorageKeyDeterminesParts` | functions/api/submit-roi.js:91-92 | For timestamps of equal length, equal keys mean equal timestamps and equal sanitised names. |
| `SubmitRoiFunction.DistinctCompaniesShareKey` | functions/api/submit-roi.js:92 | "A&B" and "A B" are different names that get the same key at the same instant, so one write replaces the other. |
| `SubmitRoiFunction.KvNamespace.Put` | functions/api/submit-roi.js:93-96 | `put` binds the key to the value and leaves every other key as it was. |
| `SubmitRoiFunction.HandleRequest` | functions/api/submit-roi.js:3-115 | The response is `Outcome`'s. With a bound namespace, exactly one entry is written, under the sanitised key, holding the body and the timestamp, and only when the response is 200. Otherwise the namespace is unchanged. |
| `CopiesAgree.ServerAgreesWithApp` | backend/server.py:84-119 | `calculate_roi` raises exactly where `calculateROI` gives a non-finite ROI. Otherwise every output field of the two is equal. |
| `CopiesAgree.WorkerAgreesWithApp` | functions/api/calculate-roi.js:17-50 | When no member it reads is absent, the Workers computation equals `calculateROI` on the same numbers, with `null` read as an empty input. |
| `CopiesAgree.WorkerSavingsAgree` | functions/api/calculate-roi.js:17-28 | The Workers hours, savings, total and investment equal the App.js ones. |
| `CopiesAgree.WorkerRoiAgrees` | functions/api/calculate-roi.js:29 | The Workers ROI equals the App.js ROI, finite or not. |
| `CopiesAgree.WorkerRevenueAgrees` | functions/api/calculate-roi.js:31-39 | The Workers revenue gate and estimate equal the App.js ones. |
| `CopiesAgree.ThreeCopiesAgree` | backend/server.py:84-119 | For any request with nonzero investment, the server, the Workers function and the browser produce one and the same result. |
| `CopiesAgree.ZeroInvestmentDiverges` | backend/server.py:185-189 | With zero investment (and nonzero inquiries and hourly cost) the server answers 500, while the Workers function answers 200 and the browser shows a non-finite ROI. |
| `CopiesAgree.ZeroInquiriesOrCostDiverge` | functions/api/calculate-roi.js:13-15 | With a nonzero investment but zero inquiries or zero hourly cost, the server computes and answers success, while the Workers function answers 400 "Missing required calculation data". |

## Left out

- Rendering, CSS, the `alert` on a failed POST and `console` logging (App.js:114-116, 122-433): user interface. Only the `showContactForm` / `showConfirmation` branching shapes which handlers can run.
- The axios POST (App.js:112) is network I/O. `BeginSubmit` returns the payload, and `FinishSubmit` takes whether the POST succeeded.
- `Number(value)` on the input text (App.js:39) is string parsing. `HandleCalculationChange` receives the already converted value, `''` or a number.
- The browser's `type="email"` format check is not modelled. `BeginSubmit` only requires the three `required` inputs to be non-empty.
- `RoiApp.CalculateRoi`: when at least one of licence and implementation is `''`, JavaScript's `+` concatenates and `inversion_total` becomes a string. Only its numeric value, which the model gives, is modelled.
- IEEE-754 rounding and signed zero: all arithmetic is exact over `real`.
- `RoiServer.CalculateRoi`: does not model Python's `OverflowError`, raised when an `int` beyond the double range is converted to float (server.py:88). Its error case is stated only for inputs within range.
- `RoiServer.CalculateEndpoint`: the 500 that an `OverflowError` would also produce is not modelled, for the same reason.
- JavaScript's overflow of a huge product to `Infinity` is not modelled in any copy, because all arithmetic is over unbounded `real`.
- The copies also differ outside what `CopiesAgree` covers. A Workers body without a member the arithmetic reads computes NaN, while the server fills in the pydantic default (server.py:37-49). Fractional inputs, which the JavaScript copies compute with, are refused or truncated by the server's `int` fields. No lemma states agreement on such requests.
- `CalculateRoiFunction.Compute`: a result in which only some fields are NaN (one required member absent) is modelled as no result at all. It does not say which fields stay finite.
- JSON values of other types (strings or booleans where numbers are expected) and bodies that are JSON but not objects, other than `null`, are not modelled. `JSON.stringify` of the stored record and the response headers (CORS) are not modelled either.
- E-mail composition and delivery (server.py:121-179, submit-roi.js:22-87): text formatting (`toLocaleString`, `toFixed`, `:,.0f`), SMTP and MailChannels. What is modelled: which members make building the text throw, the telephone fallback, and the delivery outcome as a parameter.
- MongoDB insert, `uuid4` and `datetime.utcnow` (server.py:201-205) are storage and the clock. `SubmitEndpoint` takes whether the record was stored. The Workers timestamp (`toISOString`) is a parameter.
- A failing KV `put` is not modelled.
- pydantic validation (type coercion, HTTP 422, `EmailStr`), FastAPI routing, the `GET /api/` root route, CORS middleware, dotenv and logging (server.py:1-33, 213-238) are framework glue.
