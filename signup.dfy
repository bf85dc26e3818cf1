/** The two-step signup wizard (`SignupApp`): step 1 verifies an e-mail and a
    TLR code with the server, step 2 collects the member's details and
    registers them, and a successful registration shows a success screen and
    schedules a redirect to the external signup origin.

    The network is not modelled: each submit handler receives the awaited
    call's outcome as a parameter, and the calls, the timer and navigation are
    recorded as effects. One submit runs to completion before the next event. */
module Signup {
  import opened Shared
  import opened Validation

  /** What the wizard asks of the outside world, in the order it asks. */
  datatype Effect =
    | VerifyCall(verify: Step1Data)                // verifyCredentials(data)
    | RegisterCall(register: Step2Data)            // registerUser(data)
    | ScheduleRedirect(delayMs: nat, url: string)  // setTimeout(() => location.href = url, delayMs)
    | Navigate(url: string)                        // window.location.href = url

  const RedirectDelayMs: nat := 8000
  const VerifyFallback := "Invalid TLR code or email already exists"
  const VerifyNetworkFallback := "Network error occurred. Please try again."
  const RegisterFallback := "Registration failed"
  const RegisterNetworkFallback := "Network error occurred"

  /** The component's state variables and the values of its two forms. */
  datatype WizardState = WizardState(
    step: int,
    isLoading: bool,
    error: Option<string>,
    showSuccess: bool,
    step1Data: Option<Step1Data>,
    step1Values: Step1Data,
    step2Values: Step2Data,
    effects: seq<Effect>)

  /** The state after the first render: the `useState` initial values and the
      forms' default values. */
  function Initial(): (w0: WizardState) {
    WizardState(
      1, false, None, false, None,
      Step1Data("", ""),
      Step2Data("", "", "", "1970-01-01", "", "", "", ""),
      [])
  }

  /** The first two statements of both submit handlers. */
  function Submitting(w: WizardState): (awaiting: WizardState) {
    w.(isLoading := true, error := None)
  }

  /** `onStep1Submit(data)` once the verify call has produced `outcome`. */
  function AfterStep1Submit(w: WizardState, data: Step1Data, outcome: Outcome): (settled: WizardState) {
    var s := Submitting(w).(effects := w.effects + [VerifyCall(data)]);
    var settled :=
      match outcome
      case Ok(success, message) =>
        if success then
          s.(step1Data := Some(data),
             step2Values := s.step2Values.(email := data.email, tlrCode := data.tlrCode),
             step := 2)
        else
          s.(error := Some(OrElse(message, VerifyFallback)))
      case Thrown(message) =>
        s.(error := Some(OrElse(message, VerifyNetworkFallback)));
    settled.(isLoading := false)
  }

  /** `onStep2Submit(data)` once the register call has produced `outcome`. */
  function AfterStep2Submit(w: WizardState, data: Step2Data, outcome: Outcome): (settled: WizardState) {
    var s := Submitting(w).(effects := w.effects + [RegisterCall(data)]);
    var settled :=
      match outcome
      case Ok(success, message) =>
        if success then
          s.(showSuccess := true,
             effects := s.effects + [ScheduleRedirect(RedirectDelayMs, SignupOrigin)])
        else
          s.(error := Some(OrElse(message, RegisterFallback)))
      case Thrown(message) =>
        s.(error := Some(OrElse(message, RegisterNetworkFallback)));
    settled.(isLoading := false)
  }

  /** `handleCancel`: leave for the external signup origin. */
  function AfterCancel(w: WizardState): (left: WizardState) {
    w.(effects := w.effects + [Navigate(SignupOrigin)])
  }

  /** What the component renders: the success screen wins over both forms,
      and a form is rendered only for its own step. */
  datatype Screen = SuccessScreen | Step1Screen | Step2Screen | NoForm

  function View(w: WizardState): (screen: Screen) {
    if w.showSuccess then SuccessScreen
    else if w.step == 1 then Step1Screen
    else if w.step == 2 then Step2Screen
    else NoForm
  }

  /** The `disabled` expressions of the two submit buttons. */
  function Step1SubmitDisabled(w: WizardState): (disabled: bool) {
    w.isLoading
  }

  function Step2SubmitDisabled(w: WizardState, isEmail: EmailRule): (disabled: bool) {
    w.isLoading || !Step2Valid(w.step2Values, isEmail)
  }

  /** The register button is enabled exactly when nothing is awaited and
      every step-2 field meets its condition. */
  lemma Step2SubmitEnabledIff(w: WizardState, isEmail: EmailRule)
    ensures !Step2SubmitDisabled(w, isEmail) <==>
      && !w.isLoading
      && isEmail(w.step2Values.email)
      && |w.step2Values.firstName| >= 2 && |w.step2Values.lastName| >= 2
      && |w.step2Values.dateOfBirth| >= 1
      && |w.step2Values.phone| >= 9 && |w.step2Values.nif| >= 9
      && |w.step2Values.address| >= 10
      && |w.step2Values.tlrCode| == 3
  {
    Step2Accepts(w.step2Values, isEmail);
  }

  /** Typing into a step-1 input; the form has inputs for Email and TlrCode only. */
  function WithStep1Field(d: Step1Data, f: Field, v: string): (edited: Step1Data) {
    match f
    case Email => d.(email := v)
    case TlrCode => d.(tlrCode := v)
    case _ => d
  }

  /** Typing into a step-2 input. */
  function WithStep2Field(d: Step2Data, f: Field, v: string): (edited: Step2Data) {
    match f
    case Email => d.(email := v)
    case FirstName => d.(firstName := v)
    case LastName => d.(lastName := v)
    case DateOfBirth => d.(dateOfBirth := v)
    case Phone => d.(phone := v)
    case Nif => d.(nif := v)
    case Address => d.(address := v)
    case TlrCode => d.(tlrCode := v)
  }

  /** A user action on the rendered page. A submit carries the outcome its
      network call would have. */
  datatype Event =
    | EditStep1(field: Field, value: string)
    | SubmitStep1(outcome: Outcome)
    | EditStep2(field: Field, value: string)
    | SubmitStep2(outcome: Outcome)
    | Cancel

  /** The effect of one event. An event reaches a handler only when its form is
      rendered; a submit needs an enabled button and, through `handleSubmit`,
      values the form's schema accepts; the step-2 e-mail and TLR-code inputs
      are disabled and cannot be typed into. */
  function Next(w: WizardState, e: Event, isEmail: EmailRule): (next: WizardState) {
    match e
    case EditStep1(f, v) =>
      if View(w) == Step1Screen then w.(step1Values := WithStep1Field(w.step1Values, f, v)) else w
    case SubmitStep1(o) =>
      if View(w) == Step1Screen && !Step1SubmitDisabled(w) && Step1Valid(w.step1Values, isEmail)
      then AfterStep1Submit(w, w.step1Values, o)
      else w
    case EditStep2(f, v) =>
      if View(w) == Step2Screen && f != Email && f != TlrCode
      then w.(step2Values := WithStep2Field(w.step2Values, f, v))
      else w
    case SubmitStep2(o) =>
      if View(w) == Step2Screen && !Step2SubmitDisabled(w, isEmail)
      then AfterStep2Submit(w, w.step2Values, o)
      else w
    case Cancel =>
      if View(w) == Step2Screen then AfterCancel(w) else w
  }

  /** The state after a sequence of events from the first render. */
  function Reach(es: seq<Event>, isEmail: EmailRule): (reached: WizardState)
    decreases |es|
  {
    if es == [] then Initial()
    else Next(Reach(es[..|es| - 1], isEmail), es[|es| - 1], isEmail)
  }

  function CountRedirects(effects: seq<Effect>): (count: nat) {
    if effects == [] then 0
    else CountRedirects(effects[..|effects| - 1]) + (if effects[|effects| - 1].ScheduleRedirect? then 1 else 0)
  }

  lemma {:induction false} CountRedirectsAppend(a: seq<Effect>, b: seq<Effect>)
    ensures CountRedirects(a + b) == CountRedirects(a) + CountRedirects(b)
    decreases |b|
  {
    if b != [] {
      var b' := b[..|b| - 1];
      assert (a + b)[..|a + b| - 1] == a + b';
      assert (a + b)[|a + b| - 1] == b[|b| - 1];
      CountRedirectsAppend(a, b');
    } else {
      assert a + b == a;
    }
  }

  /** What holds between events. */
  ghost predicate Inv(w: WizardState, isEmail: EmailRule) {
    && (w.step == 1 || w.step == 2)
    // step 2 is entered together with storing the verified step-1 data
    && (w.step == 2 <==> w.step1Data.Some?)
    && (w.step1Data.Some? ==>
          && Step1Valid(w.step1Data.value, isEmail)
          && w.step2Values.email == w.step1Data.value.email
          && w.step2Values.tlrCode == w.step1Data.value.tlrCode)
    && !w.isLoading
    // the error banner, when shown, is never empty
    && w.error != Some("")
    && (w.showSuccess ==> w.step == 2 && w.error == None)
    // one redirect is scheduled, and only once registration succeeded
    && CountRedirects(w.effects) == (if w.showSuccess then 1 else 0)
    // requests leave only with data their schema accepts; registration only
    // after verification, carrying the verified e-mail and TLR code
    && (forall i :: 0 <= i < |w.effects| && w.effects[i].VerifyCall? ==>
          Step1Valid(w.effects[i].verify, isEmail))
    && (forall i :: 0 <= i < |w.effects| && w.effects[i].RegisterCall? ==>
          && Step2Valid(w.effects[i].register, isEmail)
          && w.step1Data.Some?
          && w.effects[i].register.email == w.step1Data.value.email
          && w.effects[i].register.tlrCode == w.step1Data.value.tlrCode)
  }

  /** What a step-1 submit does, by outcome. */
  lemma Step1SubmitSettles(w: WizardState, data: Step1Data, outcome: Outcome)
    ensures var r := AfterStep1Submit(w, data, outcome);
      && !r.isLoading
      && r.effects == w.effects + [VerifyCall(data)]
      && r.showSuccess == w.showSuccess
      && (outcome.Ok? && outcome.success ==>
            && r.step == 2 && r.step1Data == Some(data) && r.error == None
            && r.step2Values == w.step2Values.(email := data.email, tlrCode := data.tlrCode))
      && (!(outcome.Ok? && outcome.success) ==>
            r.step == w.step && r.step1Data == w.step1Data && r.step2Values == w.step2Values)
      && (outcome.Ok? && !outcome.success ==>
            r.error == Some(if outcome.message != "" then outcome.message else VerifyFallback))
      && (outcome.Thrown? ==>
            r.error == Some(if outcome.message != "" then outcome.message else VerifyNetworkFallback))
  {
  }

  /** What a step-2 submit does, by outcome. */
  lemma Step2SubmitSettles(w: WizardState, data: Step2Data, outcome: Outcome)
    ensures var r := AfterStep2Submit(w, data, outcome);
      && !r.isLoading
      && r.step == w.step && r.step1Data == w.step1Data && r.step2Values == w.step2Values
      && (outcome.Ok? && outcome.success ==>
            && r.showSuccess && r.error == None
            && r.effects == w.effects + [RegisterCall(data), ScheduleRedirect(8000, SignupOrigin)])
      && (!(outcome.Ok? && outcome.success) ==>
            r.showSuccess == w.showSuccess && r.effects == w.effects + [RegisterCall(data)])
      && (outcome.Ok? && !outcome.success ==>
            r.error == Some(if outcome.message != "" then outcome.message else RegisterFallback))
      && (outcome.Thrown? ==>
            r.error == Some(if outcome.message != "" then outcome.message else RegisterNetworkFallback))
  {
  }

  /** While a call is awaited the error is cleared and the active button is disabled. */
  lemma SubmittingDisablesSubmit(w: WizardState, isEmail: EmailRule)
    ensures Submitting(w).isLoading && Submitting(w).error == None
    ensures Step1SubmitDisabled(Submitting(w)) && Step2SubmitDisabled(Submitting(w), isEmail)
  {
  }

  lemma InitialInv(isEmail: EmailRule)
    ensures Inv(Initial(), isEmail)
    ensures View(Initial()) == Step1Screen
  {
  }

  lemma Step1SubmitKeepsInv(w: WizardState, data: Step1Data, outcome: Outcome, isEmail: EmailRule)
    requires Inv(w, isEmail) && View(w) == Step1Screen && Step1Valid(data, isEmail)
    ensures Inv(AfterStep1Submit(w, data, outcome), isEmail)
  {
    var r := AfterStep1Submit(w, data, outcome);
    CountRedirectsAppend(w.effects, [VerifyCall(data)]);
    assert forall i :: 0 <= i < |w.effects| ==> !w.effects[i].RegisterCall?;
    assert forall i :: 0 <= i < |r.effects| ==> r.effects[i] == (w.effects + [VerifyCall(data)])[i];
  }

  lemma Step2SubmitKeepsInv(w: WizardState, data: Step2Data, outcome: Outcome, isEmail: EmailRule)
    requires Inv(w, isEmail) && View(w) == Step2Screen
    requires Step2Valid(data, isEmail) && data.email == w.step2Values.email && data.tlrCode == w.step2Values.tlrCode
    ensures Inv(AfterStep2Submit(w, data, outcome), isEmail)
  {
    var r := AfterStep2Submit(w, data, outcome);
    CountRedirectsAppend(w.effects, [RegisterCall(data)]);
    if outcome.Ok? && outcome.success {
      CountRedirectsAppend(w.effects + [RegisterCall(data)], [ScheduleRedirect(RedirectDelayMs, SignupOrigin)]);
      assert r.effects == w.effects + [RegisterCall(data)] + [ScheduleRedirect(RedirectDelayMs, SignupOrigin)];
    } else {
      assert r.effects == w.effects + [RegisterCall(data)];
    }
  }

  lemma CancelKeepsInv(w: WizardState, isEmail: EmailRule)
    requires Inv(w, isEmail)
    ensures Inv(AfterCancel(w), isEmail)
  {
    CountRedirectsAppend(w.effects, [Navigate(SignupOrigin)]);
  }

  /** Every event keeps the invariant. */
  lemma NextKeepsInv(w: WizardState, e: Event, isEmail: EmailRule)
    requires Inv(w, isEmail)
    ensures Inv(Next(w, e, isEmail), isEmail)
  {
    match e
    case EditStep1(f, v) =>
    case SubmitStep1(o) =>
      if View(w) == Step1Screen && !Step1SubmitDisabled(w) && Step1Valid(w.step1Values, isEmail) {
        Step1SubmitKeepsInv(w, w.step1Values, o, isEmail);
      }
    case EditStep2(f, v) =>
    case SubmitStep2(o) =>
      if View(w) == Step2Screen && !Step2SubmitDisabled(w, isEmail) {
        Step2SubmitKeepsInv(w, w.step2Values, o, isEmail);
      }
    case Cancel =>
      if View(w) == Step2Screen {
        CancelKeepsInv(w, isEmail);
      }
  }

  /** Every reachable state satisfies the invariant; in particular at most one
      redirect is ever scheduled, and exactly one once registration succeeded. */
  lemma {:induction false} ReachableInv(es: seq<Event>, isEmail: EmailRule)
    ensures Inv(Reach(es, isEmail), isEmail)
    ensures CountRedirects(Reach(es, isEmail).effects) <= 1
    decreases |es|
  {
    if es == [] {
      InitialInv(isEmail);
    } else {
      ReachableInv(es[..|es| - 1], isEmail);
      NextKeepsInv(Reach(es[..|es| - 1], isEmail), es[|es| - 1], isEmail);
    }
  }

  /** A step-1 submit whose verify call answered with success. */
  predicate VerifiedSubmit(e: Event) {
    e.SubmitStep1? && e.outcome.Ok? && e.outcome.success
  }

  /** Step 2 is reached only through a successful verify: some step-1 submit
      whose verify call answered with success is the event that moved the
      wizard from step 1 to step 2. */
  lemma {:induction false} Step2OnlyAfterVerify(es: seq<Event>, isEmail: EmailRule)
    requires Reach(es, isEmail).step == 2
    ensures exists i ::
      && 0 <= i < |es|
      && VerifiedSubmit(es[i])
      && Reach(es[..i], isEmail).step == 1
      && Reach(es[..i + 1], isEmail).step == 2
    decreases |es|
  {
    var prefix := es[..|es| - 1];
    var w := Reach(prefix, isEmail);
    if w.step == 2 {
      Step2OnlyAfterVerify(prefix, isEmail);
      var i :| 0 <= i < |prefix| && VerifiedSubmit(prefix[i])
        && Reach(prefix[..i], isEmail).step == 1 && Reach(prefix[..i + 1], isEmail).step == 2;
      assert es[i] == prefix[i] && es[..i] == prefix[..i] && es[..i + 1] == prefix[..i + 1];
    } else {
      ReachableInv(prefix, isEmail);
      var i := |es| - 1;
      assert es[..i] == prefix && es[..i + 1] == es;
      assert VerifiedSubmit(es[i]);
    }
  }

  /** No single event leaves step 2 or replaces the verified step-1 data. */
  lemma NextKeepsStepTwo(w: WizardState, e: Event, isEmail: EmailRule)
    requires w.step == 2
    ensures Next(w, e, isEmail).step == 2 && Next(w, e, isEmail).step1Data == w.step1Data
  {
  }

  /** Once in step 2 the wizard stays there, and the step-1 data it stored
      never changes again. */
  lemma {:induction false} StepTwoIsKept(es: seq<Event>, more: seq<Event>, isEmail: EmailRule)
    requires Reach(es, isEmail).step == 2
    ensures Reach(es + more, isEmail).step == 2
    ensures Reach(es + more, isEmail).step1Data == Reach(es, isEmail).step1Data
    decreases |more|
  {
    if more == [] {
      assert es + more == es;
    } else {
      var more' := more[..|more| - 1];
      assert (es + more)[..|es + more| - 1] == es + more';
      StepTwoIsKept(es, more', isEmail);
      NextKeepsStepTwo(Reach(es + more', isEmail), (es + more)[|es + more| - 1], isEmail);
    }
  }

  /** Once the success screen shows, no event changes anything: no form is
      rendered and nothing sets `showSuccess` back. */
  lemma {:induction false} SuccessIsAbsorbing(es: seq<Event>, more: seq<Event>, isEmail: EmailRule)
    requires Reach(es, isEmail).showSuccess
    ensures Reach(es + more, isEmail) == Reach(es, isEmail)
    ensures View(Reach(es + more, isEmail)) == SuccessScreen
    decreases |more|
  {
    if more == [] {
      assert es + more == es;
    } else {
      var more' := more[..|more| - 1];
      assert (es + more)[..|es + more| - 1] == es + more';
      SuccessIsAbsorbing(es, more', isEmail);
    }
  }

  /** In step 2 the e-mail and TLR code carried over from step 1 always pass
      the step-2 schema. */
  lemma CarriedFieldsValidInStep2(es: seq<Event>, isEmail: EmailRule)
    requires Reach(es, isEmail).step == 2
    ensures Email !in Step2Errors(Reach(es, isEmail).step2Values, isEmail)
    ensures TlrCode !in Step2Errors(Reach(es, isEmail).step2Values, isEmail)
  {
    ReachableInv(es, isEmail);
    var w := Reach(es, isEmail);
    assert Step1Data(w.step2Values.email, w.step2Values.tlrCode) == w.step1Data.value;
    CarriedFieldsStayValid(w.step2Values, isEmail);
  }

  /** The `SignupApp` component: its state variables and form values as fields,
      its handlers as methods. */
  class SignupApp {
    const isEmail: EmailRule
    var step: int
    var isLoading: bool
    var error: Option<string>
    var showSuccess: bool
    var step1Data: Option<Step1Data>
    var step1Values: Step1Data
    var step2Values: Step2Data
    var effects: seq<Effect>

    function State(): (state: WizardState)
      reads this
    {
      WizardState(step, isLoading, error, showSuccess, step1Data, step1Values, step2Values, effects)
    }

    ghost predicate Valid()
      reads this
    {
      Inv(State(), isEmail)
    }

    constructor (isEmail: EmailRule)
      ensures this.isEmail == isEmail
      ensures State() == Initial() && Valid()
    {
      this.isEmail := isEmail;
      step := 1;
      isLoading := false;
      error := None;
      showSuccess := false;
      step1Data := None;
      step1Values := Step1Data("", "");
      step2Values := Step2Data("", "", "", "1970-01-01", "", "", "", "");
      effects := [];
      new;
      InitialInv(isEmail);
    }

    /** The step-1 form's submit handler, called by `handleSubmit` with values
        the step-1 schema accepted. */
    method OnStep1Submit(data: Step1Data, outcome: Outcome)
      requires Valid() && View(State()) == Step1Screen && Step1Valid(data, isEmail)
      modifies this
      ensures State() == AfterStep1Submit(old(State()), data, outcome)
      ensures Valid()
    {
      ghost var before := State();
      isLoading := true;
      error := None;
      effects := effects + [VerifyCall(data)];
      match outcome {
        case Ok(success, message) =>
          if success {
            step1Data := Some(data);
            step2Values := step2Values.(email := data.email);
            step2Values := step2Values.(tlrCode := data.tlrCode);
            step := 2;
          } else {
            error := Some(OrElse(message, VerifyFallback));
          }
        case Thrown(message) =>
          error := Some(OrElse(message, VerifyNetworkFallback));
      }
      isLoading := false;
      Step1SubmitKeepsInv(before, data, outcome, isEmail);
    }

    /** The step-2 form's submit handler, called by `handleSubmit` with the
        form's current values once the step-2 schema accepted them. */
    method OnStep2Submit(data: Step2Data, outcome: Outcome)
      requires Valid() && View(State()) == Step2Screen
      requires data == step2Values && Step2Valid(data, isEmail)
      modifies this
      ensures State() == AfterStep2Submit(old(State()), data, outcome)
      ensures Valid()
    {
      ghost var before := State();
      isLoading := true;
      error := None;
      effects := effects + [RegisterCall(data)];
      match outcome {
        case Ok(success, message) =>
          if success {
            showSuccess := true;
            effects := effects + [ScheduleRedirect(RedirectDelayMs, SignupOrigin)];
          } else {
            error := Some(OrElse(message, RegisterFallback));
          }
        case Thrown(message) =>
          error := Some(OrElse(message, RegisterNetworkFallback));
      }
      isLoading := false;
      Step2SubmitKeepsInv(before, data, outcome, isEmail);
    }

    method HandleCancel()
      requires Valid()
      modifies this
      ensures State() == AfterCancel(old(State()))
      ensures Valid()
    {
      CancelKeepsInv(State(), isEmail);
      effects := effects + [Navigate(SignupOrigin)];
    }

    /** One user action, routed as the rendered page routes it. */
    method Dispatch(e: Event)
      requires Valid()
      modifies this
      ensures State() == Next(old(State()), e, isEmail)
      ensures Valid()
    {
      ghost var before := State();
      match e {
        case EditStep1(f, v) =>
          if View(State()) == Step1Screen {
            step1Values := WithStep1Field(step1Values, f, v);
          }
        case SubmitStep1(o) =>
          if View(State()) == Step1Screen && !isLoading && Step1Valid(step1Values, isEmail) {
            OnStep1Submit(step1Values, o);
          }
        case EditStep2(f, v) =>
          if View(State()) == Step2Screen && f != Email && f != TlrCode {
            step2Values := WithStep2Field(step2Values, f, v);
          }
        case SubmitStep2(o) =>
          if View(State()) == Step2Screen && !isLoading && Step2Valid(step2Values, isEmail) {
            OnStep2Submit(step2Values, o);
          }
        case Cancel =>
          if View(State()) == Step2Screen {
            HandleCancel();
          }
      }
      NextKeepsInv(before, e, isEmail);
    }
  }
}
