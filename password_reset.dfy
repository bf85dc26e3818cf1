/** The password-reset view (`PasswordReset`): a form of two password fields,
    validated by `passwordResetSchema`, whose submit sends the view's token and
    the new password to the change-password endpoint. A successful answer
    switches to a success screen that offers a manual return to signup. */
module PasswordReset {
  import opened Shared
  import opened Validation

  datatype ResetField = Password | ConfirmPassword

  datatype ResetForm = ResetForm(password: string, confirmPassword: string)

  const PasswordTooShort := "Password must be at least 8 characters"
  const PasswordsDiffer := "Passwords don't match"
  const ResetFallback := "Failed to reset password"
  const ResetNetworkFallback := "Network error occurred. Please try again."

  /** Every message `passwordResetSchema` reports for a field, in order: the
      field's own length check, then, for the confirmation only, the
      object-level equality refinement, which runs after the field checks. */
  function ResetIssues(f: ResetForm, k: ResetField): (messages: seq<string>) {
    match k
    case Password => Issues([MinLength(8, PasswordTooShort)], f.password)
    case ConfirmPassword =>
      Issues([MinLength(8, PasswordTooShort)], f.confirmPassword)
        + (if f.password == f.confirmPassword then [] else [PasswordsDiffer])
  }

  /** The schema as the resolver reports it: the length message on each
      field shorter than 8 characters, and the mismatch message only on the
      confirmation, only when its own length check passed. */
  function ResetErrors(f: ResetForm): (e: map<ResetField, string>)
    ensures Password in e <==> |f.password| < 8
    ensures Password in e ==> e[Password] == PasswordTooShort
    ensures ConfirmPassword in e <==> |f.confirmPassword| < 8 || f.password != f.confirmPassword
    ensures ConfirmPassword in e ==>
      e[ConfirmPassword] == (if |f.confirmPassword| < 8 then PasswordTooShort else PasswordsDiffer)
  {
    ResetIssuesAt(f);
    map k | k in {Password, ConfirmPassword} && ResetIssues(f, k) != [] :: ResetIssues(f, k)[0]
  }

  predicate ResetValid(f: ResetForm) {
    ResetErrors(f) == map[]
  }

  lemma ResetIssuesAt(f: ResetForm)
    ensures ResetIssues(f, Password) == if |f.password| >= 8 then [] else [PasswordTooShort]
    ensures ResetIssues(f, ConfirmPassword) ==
      (if |f.confirmPassword| >= 8 then [] else [PasswordTooShort])
      + (if f.password == f.confirmPassword then [] else [PasswordsDiffer])
  {
    SingleCheckIssues(MinLength(8, PasswordTooShort), f.password);
    SingleCheckIssues(MinLength(8, PasswordTooShort), f.confirmPassword);
  }

  /** Exactly the forms the schema accepts. */
  lemma ResetAccepts(f: ResetForm)
    ensures ResetValid(f) <==> |f.password| >= 8 && |f.confirmPassword| >= 8 && f.password == f.confirmPassword
  {
    ResetIssuesAt(f);
    if !ResetValid(f) {
      var k :| k in ResetErrors(f);
    }
  }

  /** The cross-field rule on two sample forms. */
  lemma ResetExamples()
    ensures ResetValid(ResetForm("password1", "password1"))
    ensures var e := ResetErrors(ResetForm("password1", "password2"));
      Password !in e && ConfirmPassword in e && e[ConfirmPassword] == PasswordsDiffer
  {
    ResetAccepts(ResetForm("password1", "password1"));
  }

  /** The `passwordsMatch` expression: both fields non-empty and equal. */
  predicate PasswordsMatch(f: ResetForm) {
    f.password != "" && f.confirmPassword != "" && f.password == f.confirmPassword
  }

  /** A form the schema accepts always enables the button; the converse fails,
      since the button does not look at lengths and `handleSubmit` then
      rejects the form. */
  lemma MatchGuardIsWeakerThanSchema(f: ResetForm)
    ensures ResetValid(f) ==> PasswordsMatch(f)
    ensures PasswordsMatch(ResetForm("abc", "abc")) && !ResetValid(ResetForm("abc", "abc"))
  {
    ResetAccepts(f);
    ResetAccepts(ResetForm("abc", "abc"));
  }

  /** The body of the change-password request. */
  datatype ChangePasswordRequest = ChangePasswordRequest(token: string, password: string)

  datatype ResetEffect =
    | ChangePasswordCall(request: ChangePasswordRequest)  // axios.post(change_password, request)
    | NavigateTo(url: string)                             // window.location.href = url

  datatype ResetState = ResetState(
    isLoading: bool,
    error: Option<string>,
    success: bool,
    form: ResetForm,
    effects: seq<ResetEffect>)

  function InitialReset(): (s0: ResetState) {
    ResetState(false, None, false, ResetForm("", ""), [])
  }

  /** The `disabled` expression of the submit button. */
  function SubmitDisabled(s: ResetState): (disabled: bool) {
    s.isLoading || !PasswordsMatch(s.form)
  }

  /** The button is enabled exactly when nothing is awaited and both fields
      hold the same non-empty text; with a password of at least 8 characters
      an enabled button submits a form the schema accepts. */
  lemma ResetSubmitEnabledIff(s: ResetState)
    ensures !SubmitDisabled(s) <==>
      !s.isLoading && s.form.password != "" && s.form.password == s.form.confirmPassword
    ensures !SubmitDisabled(s) && |s.form.password| >= 8 ==> ResetValid(s.form)
  {
    ResetAccepts(s.form);
  }

  /** `onSubmit(data)` once the change-password call has produced `outcome`.
      For a thrown call the outcome's message is the one in the error's
      response body, empty when there was no response. */
  function AfterResetSubmit(s: ResetState, token: string, data: ResetForm, outcome: Outcome): (settled: ResetState) {
    var t := s.(isLoading := true, error := None,
                effects := s.effects + [ChangePasswordCall(ChangePasswordRequest(token, data.password))]);
    var settled :=
      match outcome
      case Ok(success, message) =>
        if success then t.(success := true)
        else t.(error := Some(OrElse(message, ResetFallback)))
      case Thrown(message) =>
        t.(error := Some(OrElse(message, ResetNetworkFallback)));
    settled.(isLoading := false)
  }

  /** What a submit does, by outcome. */
  lemma ResetSubmitSettles(s: ResetState, token: string, data: ResetForm, outcome: Outcome)
    ensures var r := AfterResetSubmit(s, token, data, outcome);
      && !r.isLoading
      && r.form == s.form
      && r.effects == s.effects + [ChangePasswordCall(ChangePasswordRequest(token, data.password))]
      && (outcome.Ok? && outcome.success ==> r.success && r.error == None)
      && (!(outcome.Ok? && outcome.success) ==> r.success == s.success)
      && (outcome.Ok? && !outcome.success ==>
            r.error == Some(if outcome.message != "" then outcome.message else ResetFallback))
      && (outcome.Thrown? ==>
            r.error == Some(if outcome.message != "" then outcome.message else ResetNetworkFallback))
  {
  }

  datatype ResetScreen = ResetSuccessScreen | EditingScreen

  function ResetView(s: ResetState): (screen: ResetScreen) {
    if s.success then ResetSuccessScreen else EditingScreen
  }

  function WithResetField(f: ResetForm, k: ResetField, v: string): (edited: ResetForm) {
    match k
    case Password => f.(password := v)
    case ConfirmPassword => f.(confirmPassword := v)
  }

  datatype ResetEvent =
    | Edit(field: ResetField, value: string)
    | Submit(outcome: Outcome)
    | ReturnToSignup

  /** One user action: the form exists only on the editing screen, its submit
      needs an enabled button and a form the schema accepts, and the return
      button exists only on the success screen. */
  function NextReset(s: ResetState, token: string, e: ResetEvent): (next: ResetState) {
    match e
    case Edit(k, v) =>
      if ResetView(s) == EditingScreen then s.(form := WithResetField(s.form, k, v)) else s
    case Submit(o) =>
      if ResetView(s) == EditingScreen && !SubmitDisabled(s) && ResetValid(s.form)
      then AfterResetSubmit(s, token, s.form, o)
      else s
    case ReturnToSignup =>
      if ResetView(s) == ResetSuccessScreen then s.(effects := s.effects + [NavigateTo(SignupOrigin)]) else s
  }

  function ReachReset(token: string, es: seq<ResetEvent>): (reached: ResetState)
    decreases |es|
  {
    if es == [] then InitialReset()
    else NextReset(ReachReset(token, es[..|es| - 1]), token, es[|es| - 1])
  }

  /** What holds between events of a view created with `token`. */
  ghost predicate ResetInv(s: ResetState, token: string) {
    && !s.isLoading
    && s.error != Some("")
    && (s.success ==> s.error == None)
    // success follows a request
    && (s.success ==> exists i :: 0 <= i < |s.effects| && s.effects[i].ChangePasswordCall?)
    // every request carries the view's token and a password the schema accepted
    && (forall i :: 0 <= i < |s.effects| && s.effects[i].ChangePasswordCall? ==>
          s.effects[i].request.token == token && |s.effects[i].request.password| >= 8)
  }

  lemma ResetSubmitKeepsInv(s: ResetState, token: string, data: ResetForm, outcome: Outcome)
    requires ResetInv(s, token) && ResetView(s) == EditingScreen && ResetValid(data)
    ensures ResetInv(AfterResetSubmit(s, token, data, outcome), token)
  {
    ResetAccepts(data);
    var r := AfterResetSubmit(s, token, data, outcome);
    assert r.effects[|s.effects|].ChangePasswordCall?;
  }

  lemma NextResetKeepsInv(s: ResetState, token: string, e: ResetEvent)
    requires ResetInv(s, token)
    ensures ResetInv(NextReset(s, token, e), token)
  {
    match e
    case Edit(k, v) =>
    case Submit(o) =>
      if ResetView(s) == EditingScreen && !SubmitDisabled(s) && ResetValid(s.form) {
        ResetSubmitKeepsInv(s, token, s.form, o);
      }
    case ReturnToSignup =>
      if ResetView(s) == ResetSuccessScreen {
        var r := NextReset(s, token, e);
        var i :| 0 <= i < |s.effects| && s.effects[i].ChangePasswordCall?;
        assert r.effects[i] == s.effects[i];
      }
  }

  lemma {:induction false} ReachableResetInv(token: string, es: seq<ResetEvent>)
    ensures ResetInv(ReachReset(token, es), token)
    decreases |es|
  {
    if es != [] {
      ReachableResetInv(token, es[..|es| - 1]);
      NextResetKeepsInv(ReachReset(token, es[..|es| - 1]), token, es[|es| - 1]);
    }
  }

  /** Once the password was changed the view stays on the success screen; the
      only thing left to do is to navigate away, and no request is sent again. */
  lemma {:induction false} ResetSuccessIsAbsorbing(token: string, es: seq<ResetEvent>, more: seq<ResetEvent>)
    requires ReachReset(token, es).success
    ensures var before, after := ReachReset(token, es), ReachReset(token, es + more);
      && after.success && after.error == before.error && after.form == before.form
      && !after.isLoading
      && |before.effects| <= |after.effects| && after.effects[..|before.effects|] == before.effects
      && (forall i :: |before.effects| <= i < |after.effects| ==> after.effects[i] == NavigateTo(SignupOrigin))
    decreases |more|
  {
    ReachableResetInv(token, es);
    if more == [] {
      assert es + more == es;
    } else {
      var more' := more[..|more| - 1];
      assert (es + more)[..|es + more| - 1] == es + more';
      ResetSuccessIsAbsorbing(token, es, more');
    }
  }

  /** The `PasswordReset` component created with a `token` prop. */
  class PasswordResetView {
    const token: string
    var isLoading: bool
    var error: Option<string>
    var success: bool
    var form: ResetForm
    var effects: seq<ResetEffect>

    function State(): (state: ResetState)
      reads this
    {
      ResetState(isLoading, error, success, form, effects)
    }

    ghost predicate Valid()
      reads this
    {
      ResetInv(State(), token)
    }

    constructor (token: string)
      ensures this.token == token
      ensures State() == InitialReset() && Valid()
    {
      this.token := token;
      isLoading := false;
      error := None;
      success := false;
      form := ResetForm("", "");
      effects := [];
    }

    /** The form's submit handler, called by `handleSubmit` with values the
        schema accepted; returns the request it posts. */
    method OnSubmit(data: ResetForm, outcome: Outcome) returns (request: ChangePasswordRequest)
      requires Valid() && ResetView(State()) == EditingScreen && ResetValid(data)
      modifies this
      ensures request == ChangePasswordRequest(token, data.password)
      ensures State() == AfterResetSubmit(old(State()), token, data, outcome)
      ensures Valid()
    {
      ghost var before := State();
      isLoading := true;
      error := None;
      request := ChangePasswordRequest(token, data.password);
      effects := effects + [ChangePasswordCall(request)];
      match outcome {
        case Ok(succeeded, message) =>
          if succeeded {
            success := true;
          } else {
            error := Some(OrElse(message, ResetFallback));
          }
        case Thrown(message) =>
          error := Some(OrElse(message, ResetNetworkFallback));
      }
      isLoading := false;
      ResetSubmitKeepsInv(before, token, data, outcome);
    }

    /** One user action, routed as the rendered page routes it. */
    method Dispatch(e: ResetEvent)
      requires Valid()
      modifies this
      ensures State() == NextReset(old(State()), token, e)
      ensures Valid()
    {
      ghost var before := State();
      match e {
        case Edit(k, v) =>
          if !success {
            form := WithResetField(form, k, v);
          }
        case Submit(o) =>
          if !success && !isLoading && PasswordsMatch(form) && ResetValid(form) {
            var _ := OnSubmit(form, o);
          }
        case ReturnToSignup =>
          if success {
            effects := effects + [NavigateTo(SignupOrigin)];
          }
      }
      NextResetKeepsInv(before, token, e);
    }
  }
}
