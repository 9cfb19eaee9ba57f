# HridayMitra heart-health app — Dafny model

HridayMitra is a browser app for tracking heart health. A user signs up or
signs in. The app keeps an account list and the current session in browser
storage. The user can:

- answer a two-step questionnaire and get a heart-disease risk estimate;
- run a simulated camera heart-rate measurement;
- chat with a canned assistant called "Cura";
- see the latest readings on dashboard cards.

This project models the logic of those pages, one module per source file:

- `HealthAssessment` (`health_assessment.dfy`) — the risk score. Ten parsed
  inputs each add a fixed number of points. The total is clamped to a
  percentage in [5, 95], which picks a tier (Low, Medium, High) and that
  tier's fixed advice. The score is specified as a function, `RiskScore` /
  `Assess`. The page's step-by-step `+=` accumulation is the method
  `PredictHeartDisease`, proved equal to it. The module also covers:
  - the presence-only validators of the two steps;
  - the health record saved after scoring (the diastolic value is the exact
    integer form of `Math.round(0.6 * bp)`);
  - the three-step page flow as the class `AssessmentPage`.
- `AuthContext` — the authentication provider as a class. It holds the
  account list (`seq<UserRow>`), the session, its stored copy and the
  loading flag. Sign-up, login, Google sign-in, logout and avatar change are
  methods.
- `AuthPage` — the sign-in page. The starting mode comes from the query
  string, and there is a toggle. `Submit` adds a blank-name guard before
  sign-up, resets loading at the end, and either navigates or shows the
  error message.
- `HeartRateMeasure` — the measurement as a class. A measurement is started,
  advanced by interval ticks and stopped. Stopping shows a reading in
  [65, 89] and saves a heart-rate-only record.
- `AIAssistant` — the chat window as a class. The message list only grows.
  A question is appended trimmed, and each pending reply appends one of five
  canned answers.
- `DashboardHome` — the latest record and the four quick-stat card texts.
  A missing or zero value shows `--`.
- Shared modules:
  - `HealthData` holds the health record and the record store as its
    callers see it: a list that `AddHealthRecord` appends to.
  - `Text` holds `String.prototype.trim` and the decimal rendering of an
    integer.
  - `Wrappers` holds `Option`.

Timer callbacks are separate method calls: the measurement interval is
`Tick` and the chat's delayed answer is `Reply`. An `async` handler, by
contrast, runs to completion in one method call, including the code after
its `await`. `Math.random()` is a parameter `random` with
`0 <= random < 1`. Fresh ids from `crypto.randomUUID()` are a parameter
`newId`. Today's date is a parameter `today`.

The assessment page checks only that fields are filled in; it has no range
checks. An out-of-range value, such as age 10 or a resting pressure of 300,
passes validation and is scored. The model follows the code here, and
`HealthAssessment.OutOfRangeValuesAreScored` states it.

## Model

| member | source | states |
|---|---|---|
| HealthAssessment.BandedFactors | src/pages/dashboard/HealthAssessment.tsx:80-117 | Age, blood pressure, cholesterol, ECG and ST depression each fall into exactly one band. Each band is given by strict thresholds: age >60 gives 20, 46..60 gives 10; BP >140 gives 15, 121..140 gives 5; cholesterol >240 gives 15, 201..240 gives 8; ECG 2 gives 10, ECG 1 gives 5; oldpeak >2 gives 15, (1,2] gives 8; everything else gives 0. |
| HealthAssessment.ConditionalFactors | src/pages/dashboard/HealthAssessment.tsx:84-112 | Male adds 10. Chest pain adds 15 exactly for codes 0 and 1. A high fasting sugar adds 10. A peak heart rate below 120 adds 10 only when age is over 40 too. Exercise angina adds 15. |
| HealthAssessment.RiskScore | src/pages/dashboard/HealthAssessment.tsx:77-117 | The raw score always lies in [0, 135]. |
| HealthAssessment.Percentage | src/pages/dashboard/HealthAssessment.tsx:120 | The percentage lies in [5, 95]. It equals the score inside that range, is 5 below it and 95 above it. |
| HealthAssessment.Tier | src/pages/dashboard/HealthAssessment.tsx:125-152 | Low iff the percentage is below 30, Medium iff it is in [30, 59], High iff it is 60 or more. So 29 is Low, 30 Medium, 59 Medium and 60 High. |
| HealthAssessment.Recommendations | src/pages/dashboard/HealthAssessment.tsx:127-151 | The advice depends only on the tier: 4 items for Low, 5 for Medium, 6 for High, each list starting with its fixed first item. |
| HealthAssessment.Assess | src/pages/dashboard/HealthAssessment.tsx:75-155 | The prediction has a percentage in [5, 95], a tier consistent with the percentage in both directions, and that tier's advice. |
| HealthAssessment.AccumulateRiskScore | src/pages/dashboard/HealthAssessment.tsx:77-117 | Adding each factor's points in the page's order gives exactly the score function. |
| HealthAssessment.PredictHeartDisease | src/pages/dashboard/HealthAssessment.tsx:75-155 | The clamp followed by the tier branches returns exactly `Assess(p)`. A raw score of 5 or less is reported as 5%, Low. |
| HealthAssessment.AllFactorsGiveMaximum | src/pages/dashboard/HealthAssessment.tsx:77-120 | When every factor fires, the raw score is 135 and the report is 95%, High, with six recommendations. |
| HealthAssessment.ScoreZeroIffNoFactor | src/pages/dashboard/HealthAssessment.tsx:77-120 | The raw score is 0 iff no factor fires, and then the report is 5%, Low. |
| HealthAssessment.RiskScoreMonotone | src/pages/dashboard/HealthAssessment.tsx:80-117 | Raising age, BP, cholesterol, ECG code or oldpeak, or lowering the peak heart rate, never lowers the raw score. |
| HealthAssessment.AssessMonotone | src/pages/dashboard/HealthAssessment.tsx:119-152 | Under the same changes the percentage and the tier never go down. |
| HealthAssessment.InitialForm | src/pages/dashboard/HealthAssessment.tsx:58-69 | The initial form has every text field empty. Chest pain and ECG are both preset to code 0, so an untouched chest-pain choice scores 15 and an untouched ECG scores 0. |
| HealthAssessment.ValidationIsPresenceOnly | src/pages/dashboard/HealthAssessment.tsx:186-208 | Both step validators, `ValidateStep1` and `ValidateStep2` (`validateStep1`/`validateStep2`), depend only on which fields are filled in, never on their values. |
| HealthAssessment.ParsedParams | src/pages/dashboard/HealthAssessment.tsx:80-115 | A form that passes both steps is scored on exactly the values entered: each of the ten parameters equals its form field. |
| HealthAssessment.OutOfRangeValuesAreScored | src/pages/dashboard/HealthAssessment.tsx:186-208 | Age 10 and resting BP 300 pass both validators. The BP is scored (raw 30, Medium): no range check exists. |
| HealthAssessment.Diastolic | src/pages/dashboard/HealthAssessment.tsx:170 | The saved diastolic value is within 0.4 of 0.6 × systolic: 10·dia − 6·bp lies in [−4, 4]. |
| HealthAssessment.DiastolicIsMathRound | src/pages/dashboard/HealthAssessment.tsx:170 | The integer formula equals `Math.round(bp * 0.6)`, with halves rounded up, for every integer bp. |
| HealthAssessment.FastingBloodSugar | src/pages/dashboard/HealthAssessment.tsx:172 | The stored sugar exceeds 120 iff the fasting answer was 'yes' (130 against 95). |
| HealthAssessment.AssessmentRecord | src/pages/dashboard/HealthAssessment.tsx:167-175 | The saved record carries the date, systolic = resting BP, the derived diastolic, cholesterol, the stand-in sugar value, and the prediction's tier and percentage unchanged. It has no heart rate and no weight. |
| HealthAssessment.AssessmentPage.constructor | src/pages/dashboard/HealthAssessment.tsx:53-69 | The page opens on step 1 with the initial form and no result. |
| HealthAssessment.AssessmentPage.EditBasicInfo | src/pages/dashboard/HealthAssessment.tsx:71-73 | An edit on step 1 changes only the step-1 fields it sets. |
| HealthAssessment.AssessmentPage.EditHealthMetrics | src/pages/dashboard/HealthAssessment.tsx:71-73 | An edit on step 2 changes only the step-2 fields it sets. |
| HealthAssessment.AssessmentPage.Continue | src/pages/dashboard/HealthAssessment.tsx:389 | Moves to step 2 iff step 1 validates; otherwise stays. The invariant "step ≥ 2 ⇒ step 1 valid" is kept. |
| HealthAssessment.AssessmentPage.Back | src/pages/dashboard/HealthAssessment.tsx:514 | Returns to step 1 with the form unchanged. |
| HealthAssessment.AssessmentPage.Submit | src/pages/dashboard/HealthAssessment.tsx:521 | On an incomplete step 2 nothing changes. Otherwise the result is `Assess` of the form, exactly one assessment record is appended to the store, and the page shows step 3. |
| HealthAssessment.AssessmentPage.NewAssessment | src/pages/dashboard/HealthAssessment.tsx:618-633 | Returns to step 1 with the initial form and no result. |
| HealthData.HealthStore.AddHealthRecord | src/pages/dashboard/HeartRateMeasure.tsx:41-44 | The record is appended at the end; earlier records are unchanged. |
| AuthContext.FindByEmail | src/contexts/AuthContext.tsx:41 | Returns the position of the first account with the email, or none iff no account has it. |
| AuthContext.WithAvatar | src/contexts/AuthContext.tsx:127-131 | Same length. Accounts whose id matches get the new avatar. Every other field of every account, and every other account, is unchanged. |
| AuthContext.SignupKeepsEmailsDistinct | src/contexts/AuthContext.tsx:69-85 | Appending an account whose email is not yet present keeps all emails pairwise distinct. |
| AuthContext.FindAfterAppend | src/contexts/AuthContext.tsx:84 | After a sign-up, its email is found at the new account, and every other email is found where it was. |
| AuthContext.WithAvatarKeepsLogin | src/contexts/AuthContext.tsx:127-131 | Changing avatars moves no email lookup, and the account a lookup finds keeps its password, so every login ends as before. |
| AuthContext.WithAvatarIdempotent | src/contexts/AuthContext.tsx:127-131 | Setting the same avatar twice equals setting it once. |
| AuthContext.AuthProvider.constructor | src/contexts/AuthContext.tsx:26-33 | On mount the session is restored from storage and loading ends. |
| AuthContext.AuthProvider.Login | src/contexts/AuthContext.tsx:35-61 | "User not found" iff no account has the email. "Invalid password" iff the first match has another password. Neither failure changes the session, and loading stays on after a failure. On success the session is `SessionOf` the first match: the `userData` object, every field but the password. The account list never changes. |
| AuthContext.AuthProvider.Signup | src/contexts/AuthContext.tsx:63-96 | "User already exists" iff the email is registered: list and session unchanged, loading reset. Otherwise exactly one account without an avatar is appended and becomes the session, without its password. |
| AuthContext.AuthProvider.LoginWithGoogle | src/contexts/AuthContext.tsx:98-113 | The session becomes the fixed Google demo user with the fresh id. Accounts are untouched. |
| AuthContext.AuthProvider.Logout | src/contexts/AuthContext.tsx:115-118 | The session and its stored copy are cleared. Accounts and the loading flag are unchanged. |
| AuthContext.AuthProvider.UpdateAvatar | src/contexts/AuthContext.tsx:120-133 | With no session nothing changes. Otherwise only the avatar of the session and of accounts with the session's id changes. |
| AuthPage.InitialMode | src/pages/Auth.tsx:11-13 | Sign-up iff the `mode` query value is exactly "signup"; login otherwise, including when absent. |
| AuthPage.Toggled | src/pages/Auth.tsx:223 | The toggle always switches to the other mode (so two toggles return to the start). |
| AuthPage.LoginResult | src/pages/Auth.tsx:41-53 | Login navigates to /dashboard iff an account with the email exists and its password matches. It shows "User not found" iff no account has the email. It shows "Invalid password" iff the account exists and the password differs. |
| AuthPage.AuthForm.constructor | src/pages/Auth.tsx:10-20 | The mode comes from the query; the form is empty; not loading. |
| AuthPage.AuthForm.EditFields | src/pages/Auth.tsx:16-20 | Only the three fields change. |
| AuthPage.AuthForm.Toggle | src/pages/Auth.tsx:223 | Only the mode changes, to the other one. |
| AuthPage.AuthForm.Submit | src/pages/Auth.tsx:26-57 | In sign-up mode a name that trims to "" shows "Please enter your name" and leaves the provider's accounts, session and loading flag untouched. Otherwise sign-up gets the untrimmed name and navigates iff the email was new. A duplicate email leaves accounts and session unchanged. In login mode the accounts are unchanged and the result is `LoginResult`. Navigation happens only on success, and then the provider has stopped loading. A failed login leaves the session unchanged and the provider's loading flag on. The page's own loading flag is off afterwards in every case. |
| AuthPage.AuthForm.GoogleLogin | src/pages/Auth.tsx:59-77 | Always signs in as the Google demo user and navigates to /dashboard. The accounts are unchanged, and both the page and the provider have stopped loading. |
| HeartRateMeasure.MeasuredBpm | src/pages/dashboard/HeartRateMeasure.tsx:37 | Every reading lies in [65, 89]. |
| HeartRateMeasure.EveryBpmInRangeIsDrawn | src/pages/dashboard/HeartRateMeasure.tsx:37 | Every value in [65, 89] is produced by some draw in [0, 1). |
| HeartRateMeasure.HeartRateRecord | src/pages/dashboard/HeartRateMeasure.tsx:41-44 | The saved record has only the date and the heart rate. |
| HeartRateMeasure.ProgressAfterTicks | src/pages/dashboard/HeartRateMeasure.tsx:23-29 | After n ticks progress is 2n up to 100, then stays at 100. |
| HeartRateMeasure.FiftyFirstTickStops | src/pages/dashboard/HeartRateMeasure.tsx:22-29 | The tick that sees progress at 100 is the 51st; no earlier tick stops the measurement. |
| HeartRateMeasure.HeartRateMonitor.constructor | src/pages/dashboard/HeartRateMeasure.tsx:8-14 | Idle: not recording, no reading, progress 0, "Place finger on camera". |
| HeartRateMeasure.HeartRateMonitor.Start | src/pages/dashboard/HeartRateMeasure.tsx:16-31 | Recording, no reading, progress 0, the interval set. |
| HeartRateMeasure.HeartRateMonitor.Stop | src/pages/dashboard/HeartRateMeasure.tsx:33-47 | Not recording and the interval cleared. The displayed reading is the draw's BPM in [65, 89]. Exactly one record holding that reading is appended. Progress is kept. |
| HeartRateMeasure.HeartRateMonitor.Tick | src/pages/dashboard/HeartRateMeasure.tsx:23-29 | Progress becomes `NextProgress` of the old value (the `setProgress` updater). Below 100, progress goes up by 2, and the signal text, reading and records are unchanged. At 100 the measurement stops, one record is saved, the signal reads "Measurement complete ✓" and progress stays 100. Progress stays even and within [0, 100]. |
| HeartRateMeasure.HeartRateMonitor.Press | src/pages/dashboard/HeartRateMeasure.tsx:85 | While recording it stops: one record is saved, the signal reads "Measurement complete ✓" and progress is kept. Otherwise it starts: progress 0, no reading, and the signal reads "Measuring... Hold still". |
| AIAssistant.ResponseIndex | src/components/dashboard/AIAssistant.tsx:38 | The drawn index always selects one of the five answers. |
| AIAssistant.EveryResponseIsDrawn | src/components/dashboard/AIAssistant.tsx:38 | Each of the five answers is reachable by some draw. |
| AIAssistant.Question | src/components/dashboard/AIAssistant.tsx:20-22 | No question iff the input is blank (all whitespace). Otherwise the question is the trimmed input, which is non-empty and neither starts nor ends with whitespace. |
| AIAssistant.CountRoleAppend | src/components/dashboard/AIAssistant.tsx:24-39 | Appending a message raises its own role's count by one and leaves the other role's count unchanged. |
| AIAssistant.RoleCountsPartition | src/components/dashboard/AIAssistant.tsx:6-9 | Every message is the user's or the assistant's: the two counts add up to the conversation's length. |
| AIAssistant.AskKeepsConversation | src/components/dashboard/AIAssistant.tsx:22-25 | A trimmed question keeps the conversation invariant, with one more reply pending. |
| AIAssistant.AnswerKeepsConversation | src/components/dashboard/AIAssistant.tsx:36-40 | A canned answer keeps the conversation invariant, with one fewer reply pending. |
| AIAssistant.ChatWindow.constructor | src/components/dashboard/AIAssistant.tsx:13-17 | The list is exactly the greeting; the input is empty; not loading. |
| AIAssistant.ChatWindow.SetInput | src/components/dashboard/AIAssistant.tsx:102 | Only the input changes. |
| AIAssistant.ChatWindow.Send | src/components/dashboard/AIAssistant.tsx:19-26 | Blank or whitespace-only input (no `Question`) changes nothing, not even the input. Otherwise exactly one user message holding the trimmed input is appended, the input is cleared, loading is on and one reply is pending. |
| AIAssistant.ChatWindow.Reply | src/components/dashboard/AIAssistant.tsx:28-41 | Exactly one assistant message holding the drawn canned answer is appended, and loading ends. |
| AIAssistant.AllAnswered | src/components/dashboard/AIAssistant.tsx:19-41 | With no reply pending there is exactly one more assistant message than user messages, so the conversation has odd length 2q+1 for q questions, and loading is off. |
| DashboardHome.LatestRecord | src/pages/dashboard/DashboardHome.tsx:23 | Absent iff there are no records; otherwise the last record. |
| DashboardHome.LatestAfterAppend | src/pages/dashboard/DashboardHome.tsx:23 | After an append, the latest record is the one appended. |
| DashboardHome.StatText | src/pages/dashboard/DashboardHome.tsx:29-52 | A card shows "--" iff its value is missing or zero. Otherwise it shows the value's decimal text followed by its unit. |
| DashboardHome.BloodPressureText | src/pages/dashboard/DashboardHome.tsx:36-38 | The pressure card shows "--" iff the systolic value is missing or zero; the diastolic value plays no part in that choice. Otherwise it shows systolic "/" diastolic, with "undefined" for a missing diastolic value. |
| DashboardHome.QuickStats | src/pages/dashboard/DashboardHome.tsx:25-56 | Always four cards, in the order Heart Rate, Blood Pressure, Blood Sugar, Weight. All four show "--" when there is no record. Given a latest record, each card shows that record's heart rate (BPM), pressure, blood sugar (mg/dL) and weight (kg). |
| DashboardHome.StatTextDeterminesReading | src/pages/dashboard/DashboardHome.tsx:29-52 | Two non-placeholder cards with the same text come from the same reading. |
| DashboardHome.DashboardAfterMeasurement | src/pages/dashboard/DashboardHome.tsx:25-56 | After a heart-rate measurement the cards are "<bpm> BPM", "--", "--", "--". |
| DashboardHome.DashboardAfterAssessment | src/pages/dashboard/DashboardHome.tsx:25-56 | After an assessment the heart-rate and weight cards show "--", even if earlier records had values. Blood sugar shows "130 mg/dL" or "95 mg/dL". Blood pressure shows "bp/dia" for a non-zero bp and "--" for 0. |
| Text.Trim | src/components/dashboard/AIAssistant.tsx:20-22 | The trimmed string is the input's middle: what remains once a whitespace-only prefix and a whitespace-only suffix are removed. It neither starts nor ends with whitespace. |
| Text.TrimEmptyIffBlank | src/pages/Auth.tsx:32 | `trim()` gives "" iff every character is whitespace. |
| Text.TrimIdempotent | src/components/dashboard/AIAssistant.tsx:22 | Trimming twice is trimming once. |
| Text.NatToStringRoundTrip | src/pages/dashboard/DashboardHome.tsx:29 | Reading back the decimal digits of n gives n. |
| Text.IntToStringInjective | src/pages/dashboard/DashboardHome.tsx:29 | Distinct integers render as distinct strings. |

## Left out

- The health-record store's own source is not part of this model. Its windowing of recent readings, its ordering and its persistence are therefore absent. The store is only an append-only list, and the dashboard's chart data and the tracker page are not modelled.
- String parsing: `parseInt`/`parseFloat`, including `NaN` and truncation, is not modelled. The form holds already-parsed values, and an empty field is `None`.
- Floating point: `oldpeak` is an exact `real`. `0.6 * bp` is exact arithmetic, proved to round as `Math.round` would on exact values.
- Browser storage, JSON and `crypto.randomUUID`: storage keys are fields, and fresh ids are parameters. Unparsable stored JSON is not modelled.
- Timers and clocks: `setTimeout`/`setInterval` delays are not modelled, and callbacks are method calls. Each `async` handler runs to completion in one call, so concurrent or interleaved submissions are not modelled. The date stamp is a parameter.
- `Math.random()` is a parameter in [0, 1).
- HealthAssessment.AssessmentPage: the 2-second wait in `handleSubmit` (HealthAssessment.tsx:161) is not modelled, and neither is the page's `isLoading` flag during it: `Submit` runs the whole handler in one call. The Back button (HealthAssessment.tsx:511-517) is not disabled during the wait. In the page the user can therefore return to step 1 and edit the form, and the handler still saves the record, sets the result computed from the form as it was at submission, and moves to step 3 (HealthAssessment.tsx:163-178). The page then shows step 3 with a result that does not match the current form. `AssessmentPage.Valid` excludes that state, so the model does not capture it. Input changes are modelled as one edit per step's field group rather than one field at a time.
- HeartRateMeasure.HeartRateMonitor: the unmount cleanup that clears the interval is not modelled.
- AIAssistant.ChatWindow: opening and closing the chat panel is not modelled. The send button is disabled while loading (AIAssistant.tsx:106); that guard keeps at most one reply pending. `Send` leaves the guard out and may be called while loading, so the model over-approximates the page: `Valid` allows any number of pending replies.
- AIAssistant.ChatWindow.Valid: does not include "every assistant message is the greeting or a canned answer". Each method's contract names the exact message it appends, so this follows from them.
- Text.IsWhitespace covers ECMAScript's WhiteSpace and LineTerminator code points.
- Text.IntToString: JavaScript numbers are modelled as unbounded integers. The exponent rendering of `${n}` from 10^21 up (a resting pressure typed as 1000000000000000000000 passes validation and would show as "1e+21/600000000000000000000") and the loss of precision above 2^53 are not modelled. The assessment and heart-rate pages, the only pages in this model that add records, write integers only; `weight`, which neither of them writes, is modelled as an integer too.
- AuthPage.AuthForm.Submit: the browser's own form validation is not modelled (the `required` fields, `type="email"` and `minLength={6}` on the password, Auth.tsx:151-196). `Submit` accepts any field values. In the page, only a non-empty whitespace-only name reaches the blank-name guard.
- Presentation: JSX, colours, charts, toasts and their texts, the landing pages, the doctor list and the settings page are not modelled.
