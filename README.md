# The Living Room signup portal, modelled in Dafny

This project models the client-side core of the signup portal. It covers
three parts:

- **Field validation** (`validation.dfy`). The zod schemas of the two signup
  steps are modelled as ordered lists of checks per field:
  - every failing check of a field reports its message, in declaration order;
  - the form resolver keeps the first message of each field;
  - a record is accepted when no field has a message.

  zod's e-mail test is library code, so it is the parameter `isEmail`; the
  model assumes nothing about it. The `^\d{3}$` pattern is modelled by a
  recursive matcher, which is proved equal to "three ASCII digits".
- **The signup wizard** (`signup.dfy`). `SignupApp` is a class whose fields
  are the component's state variables and the values of its two forms. Its
  handlers are methods:
  - `OnStep1Submit`, `OnStep2Submit`, `HandleCancel`;
  - `Dispatch`, which routes one user action the way the rendered page does.

  Each method is specified by a pure transition function on `WizardState`.
  Network calls, the 8-second redirect timer and navigation are recorded as a
  sequence of effects. The awaited outcome of a call (decoded answer or thrown
  error) is a parameter. `Reach` replays a sequence of user actions from the
  first render. The invariant `Inv` is proved for every reachable state:
  - step 2 is entered only together with verified step-1 data;
  - requests leave only with schema-valid data;
  - registration carries the verified e-mail and TLR code;
  - the error banner is never empty;
  - at most one redirect is scheduled, and one exactly when registration
    succeeded.
- **The password-reset view and routing** (`password_reset.dfy`,
  `routing.dfy`):
  - `PasswordResetView` is a class holding the view's token, its state
    variables and its form. `OnSubmit` returns the change-password request it
    posts.
  - `Routing.Route` is `App`'s choice between the reset route and the
    catch-all wizard route. `Routing.ResetRoute` is the token gate of
    `PasswordResetRoute`.

`shared.dfy` holds what several modules use:
- `Option`;
- the awaited-call `Outcome`;
- JavaScript's `message || fallback` on strings (`OrElse`);
- the external signup origin.

Two details of the code shape what the model records:
- The reset view posts to a fixed URL (`src/components/PasswordReset.tsx:45`)
  rather than through the API client's configurable base origin. The model
  records the request body only.
- The API client rethrows any `Error` it catches (`src/services/api.ts:71-75`),
  so the wizard shows that error's own message and uses its fallback only
  when the message is empty. The model's `Thrown(message)` carries whatever
  message the error has.

## Model

| member | source | states |
|---|---|---|
| Shared.OrElse | src/App.tsx:81 | JavaScript `or` on strings: the message when it is non-empty, else the fallback; non-empty whenever the fallback is |
| Validation.DigitRunIff | src/utils/validation.ts:13 | `^\d{n}$` matches a string exactly when it has length n and consists of ASCII digits |
| Validation.IssuesEmptyIff | src/utils/validation.ts:4-43 | a field reports no message exactly when every one of its checks passes |
| Validation.FirstIssueIsFirstFailure | src/utils/validation.ts:4-43 | the first message a field reports is that of its first failing check, so the resolver shows the earliest declared failure |
| Validation.Step1Errors | src/utils/validation.ts:4-14 | only Email and TlrCode can be flagged; the e-mail exactly when empty or rejected by the e-mail test, showing "required" for the empty one and the invalid-address message otherwise; the TLR code exactly when it is not three ASCII digits, showing "required" for "", the exact-length message for any other length, else the digits-only message |
| Validation.Step1EmailIssues | src/utils/validation.ts:5-8 | the step-1 e-mail reports "Email is required" when empty, then the invalid-address message when the e-mail test fails, in that order |
| Validation.Step1TlrIssues | src/utils/validation.ts:9-13 | the step-1 TLR code reports required, exact-length and digits-only messages, each exactly when its check fails, in declaration order |
| Validation.Step1Accepts | src/utils/validation.ts:4-14 | step 1 accepts a record exactly when the e-mail is non-empty and e-mail-shaped and the TLR code is three ASCII digits |
| Validation.Step2Errors | src/utils/validation.ts:17-43 | a step-2 field is flagged exactly when it fails its own condition (e-mail test; names at least 2; date of birth non-empty; phone and NIF at least 9; address at least 10; TLR code exactly 3 characters), showing "required" for an empty value and the length message for a short one |
| Validation.Step2IssuesAt | src/utils/validation.ts:17-43 | the exact list of messages each step-2 field reports, per field, in declaration order |
| Validation.Step2IssuesMeaning | src/utils/validation.ts:17-43 | a step-2 field reports no message exactly when it meets its own condition, and its first message is the "required" one for an empty value, else the length one |
| Validation.Step2Accepts | src/utils/validation.ts:17-43 | step 2 accepts a record exactly when all eight field conditions hold together |
| Validation.CarriedFieldsStayValid | src/utils/validation.ts:5-42 | an e-mail and TLR code step 1 accepts are also accepted by step 2 |
| Validation.Step2TlrCodeIsWeaker | src/utils/validation.ts:9-42 | step 2 checks only the TLR code's length: "abc" passes step 2 while step 1 rejects it with the digits-only message |
| Validation.ParseStep1 | src/utils/validation.ts:4-14 | the resolver accepts exactly a non-empty, e-mail-shaped e-mail with a three-ASCII-digit TLR code and hands on the record unchanged; a rejection carries a non-empty set of field messages |
| Validation.ParseStep2 | src/utils/validation.ts:17-43 | the resolver accepts exactly the records whose eight fields meet their conditions and hands on the record unchanged; a rejection carries a non-empty set of field messages |
| Validation.RevalidationIsStable | src/utils/validation.ts:4-43 | validating an accepted record again accepts it again with the same value |
| Signup.Step1SubmitSettles | src/App.tsx:66-89 | after a verify call: loading cleared; one verify request recorded; on success step 2 with the stored data and the e-mail and TLR code copied into the step-2 form; otherwise the step is unchanged and the error is the server message or the fallback |
| Signup.Step2SubmitSettles | src/App.tsx:91-113 | after a register call: loading cleared; one register request recorded; on success the success screen and a single 8000 ms redirect to the signup origin; otherwise the server message or the fallback |
| Signup.SubmittingDisablesSubmit | src/App.tsx:67-68 | while a call is awaited the error is cleared and both submit buttons are disabled |
| Signup.Step2SubmitEnabledIff | src/App.tsx:392 | the register button is enabled exactly when nothing is awaited and every step-2 field meets its condition |
| Signup.InitialInv | src/App.tsx:38-64 | the first render satisfies the invariant and shows the step-1 form |
| Signup.Step1SubmitKeepsInv | src/App.tsx:66-89 | a step-1 submit with accepted data keeps the invariant, whatever the outcome |
| Signup.Step2SubmitKeepsInv | src/App.tsx:91-113 | a step-2 submit of the form's accepted values keeps the invariant, whatever the outcome |
| Signup.CancelKeepsInv | src/App.tsx:115-117 | cancelling only records the navigation and keeps the invariant |
| Signup.NextKeepsInv | src/App.tsx:165-392 | every user action on the rendered page keeps the invariant |
| Signup.ReachableInv | src/App.tsx:37-117 | every reachable state satisfies the invariant, and at most one redirect is ever scheduled |
| Signup.Step2OnlyAfterVerify | src/App.tsx:74-78 | the wizard reaches step 2 only through a step-1 submit whose verify call answered with success, and that submit is the event that moved it from step 1 to step 2 |
| Signup.NextKeepsStepTwo | src/App.tsx:75-78 | no single user action in step 2 leaves step 2 or replaces the stored step-1 data |
| Signup.StepTwoIsKept | src/App.tsx:75-78 | once in step 2 the wizard stays in step 2 after any further actions, and the stored step-1 data never changes |
| Signup.SuccessIsAbsorbing | src/App.tsx:119-136 | once the success screen shows, no further action changes the state |
| Signup.CarriedFieldsValidInStep2 | src/App.tsx:75-77 | in step 2 the e-mail and TLR code copied from step 1 never carry a step-2 error |
| Signup.SignupApp.constructor | src/App.tsx:38-64 | the component starts in the initial state, which satisfies the invariant |
| Signup.SignupApp.OnStep1Submit | src/App.tsx:66-89 | the handler's new state is the step-1 transition of the old state, and the invariant is kept |
| Signup.SignupApp.OnStep2Submit | src/App.tsx:91-113 | the handler's new state is the step-2 transition of the old state, and the invariant is kept |
| Signup.SignupApp.HandleCancel | src/App.tsx:115-117 | the handler only records navigation to the signup origin, and the invariant is kept |
| Signup.SignupApp.Dispatch | src/App.tsx:165-392 | one user action moves the component to `Next` of its old state, and the invariant is kept |
| PasswordReset.ResetErrors | src/components/PasswordReset.tsx:8-14 | the password is flagged exactly when shorter than 8 characters, with the length message; the confirmation exactly when shorter than 8 or different, with the length message when short and the mismatch message only when its length check passed |
| PasswordReset.ResetIssuesAt | src/components/PasswordReset.tsx:8-14 | the password reports only its length message; the confirmation reports its length message, then the mismatch message |
| PasswordReset.ResetAccepts | src/components/PasswordReset.tsx:8-14 | the schema accepts a form exactly when both passwords have at least 8 characters and are equal |
| PasswordReset.ResetExamples | src/components/PasswordReset.tsx:11-13 | "password1"/"password1" is accepted; "password1"/"password2" fails on the confirmation only, with the mismatch message |
| PasswordReset.MatchGuardIsWeakerThanSchema | src/components/PasswordReset.tsx:36-38 | a form the schema accepts always enables the submit button; "abc"/"abc" enables it but is rejected |
| PasswordReset.ResetSubmitEnabledIff | src/components/PasswordReset.tsx:156 | the submit button is enabled exactly when nothing is awaited and both fields hold the same non-empty text; with a password of at least 8 characters an enabled button submits a form the schema accepts |
| PasswordReset.ResetSubmitSettles | src/components/PasswordReset.tsx:40-61 | after the change-password call: loading cleared; the request carries the token and new password; success sets the success flag; otherwise the server message or the fallback |
| PasswordReset.ResetSubmitKeepsInv | src/components/PasswordReset.tsx:40-61 | a submit of an accepted form from the editing screen keeps the view's invariant |
| PasswordReset.NextResetKeepsInv | src/components/PasswordReset.tsx:63-156 | every user action on the rendered view keeps the invariant |
| PasswordReset.ReachableResetInv | src/components/PasswordReset.tsx:22-61 | in every reachable state: not loading, no empty error, success only after a request and without an error, and every request carries the view's token and a password of at least 8 characters |
| PasswordReset.ResetSuccessIsAbsorbing | src/components/PasswordReset.tsx:63-83 | after success the view stays on the success screen, sends no further request and can only navigate to the signup origin |
| PasswordReset.PasswordResetView.constructor | src/components/PasswordReset.tsx:22-33 | the view starts with its token, empty passwords and no error, satisfying the invariant |
| PasswordReset.PasswordResetView.OnSubmit | src/components/PasswordReset.tsx:40-61 | the handler posts the view's token with the submitted password, and its new state is the submit transition of the old state |
| PasswordReset.PasswordResetView.Dispatch | src/components/PasswordReset.tsx:107-156 | one user action moves the view to `NextReset` of its old state, and the invariant is kept |
| Routing.ResetRoute | src/App.tsx:12-34 | the reset view is shown exactly for a present, non-empty token and receives that token; otherwise the invalid-link page |
| Routing.RouteIff | src/App.tsx:419-428 | the wizard exactly off the reset path; on it, the invalid-link page for a missing or empty token, else the reset view with the token |
| Routing.ResetPathExamples | src/App.tsx:423-424 | the reset path in any ASCII letter case and with trailing slashes takes the reset route; "/", "/password_reset/x" and "/password_resets" do not |
| Routing.RequestsCarryUrlToken | src/App.tsx:14-33 | every change-password request sent from a reset page carries the URL's token verbatim, which is never empty |

## Left out

- The API client (`src/services/api.ts`) is not part of this model. This covers its request helper, its error translation, the base-origin override and the health-check call. Each call is replaced by the outcome it produced.
- The axios transport of the reset view is not modelled beyond the request body and the decoded answer or error message.
- The e-mail syntax test is the uninterpreted parameter `isEmail`. No property depends on what it accepts.
- The model assumes zod 3 behaviour: every check of a string field runs and reports. The object refinement of the reset schema runs even when a field check failed. The resolver keeps the first message per field.
- Some react-hook-form internals are not modelled:
  - when messages become visible;
  - the timing of `formState.isValid`;
  - what a disabled input contributes to submitted values.
  The model takes the step-2 values to include the e-mail and TLR code set by `setValue`, and takes `isValid` to be the schema's verdict on the current values.
- Asynchronous interleaving is not modelled. Each submit runs to completion before the next user action, and the buttons are disabled while loading.
- Timers and `window.location` are recorded as effects and not executed. Actions after a navigation effect are still accepted, although the page would have been left.
- Rendering, styling, icons and the "Step n of 2" indicator are not modelled. Neither are the inputs' `type`, `maxLength`, `placeholder` and `autoComplete` attributes.
- Lengths are counted in Dafny characters. JavaScript counts UTF-16 code units, so the two differ for characters outside the Basic Multilingual Plane.
- URL parsing and query-string decoding are not modelled. The path is taken as already decoded, and the `token` parameter as an `Option`. Route matching follows the routing library's default: ASCII case is ignored and trailing slashes are allowed.
- The invalid-link page's "Return to Signup" button is not modelled as an action (`src/App.tsx:22-27`); it only navigates to the signup origin.
