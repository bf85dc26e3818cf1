/** The page dispatch of `App` and the token gate of `PasswordResetRoute`.

    `App` declares two routes: the reset path and a catch-all. The routing
    library matches a route path by default without regard to ASCII letter
    case and allows trailing slashes, so the reset route is taken exactly for
    `/password_reset` in any ASCII letter case followed by any number of
    slashes. */
module Routing {
  import opened Shared
  import PasswordReset

  datatype Page =
    | SignupWizard            // <SignupApp />
    | InvalidResetLink        // the "Invalid Reset Link" view
    | ResetPage(token: string) // <PasswordReset token={token} />

  const ResetRoutePath := "/password_reset"

  /** ASCII case folding, the only folding a case-insensitive pattern without
      the `u` flag applies to the ASCII letters of the reset path. */
  function AsciiLower(c: char): (lower: char) {
    if 'A' <= c <= 'Z' then (c as int + 32) as char else c
  }

  predicate SameIgnoringAsciiCase(a: string, b: string) {
    |a| == |b| && forall i :: 0 <= i < |a| ==> AsciiLower(a[i]) == AsciiLower(b[i])
  }

  /** Whether `path` takes the reset route. */
  predicate IsResetPath(path: string) {
    && |path| >= |ResetRoutePath|
    && SameIgnoringAsciiCase(path[..|ResetRoutePath|], ResetRoutePath)
    && forall i :: |ResetRoutePath| <= i < |path| ==> path[i] == '/'
  }

  /** `PasswordResetRoute`: `token` is the `token` query parameter, `None` when
      it is absent; a missing or empty token never reaches the reset view. */
  function ResetRoute(token: Option<string>): (p: Page)
    ensures p.ResetPage? <==> token.Some? && token.value != ""
    ensures p.ResetPage? ==> p.token == token.value
    ensures !p.ResetPage? ==> p == InvalidResetLink
  {
    match token
    case None => InvalidResetLink
    case Some(t) => if t == "" then InvalidResetLink else ResetPage(t)
  }

  /** `App`: the reset route for the reset path, the wizard for every other path. */
  function Route(path: string, token: Option<string>): (page: Page) {
    if IsResetPath(path) then ResetRoute(token) else SignupWizard
  }

  /** Which page every URL shows. */
  lemma RouteIff(path: string, token: Option<string>)
    ensures Route(path, token) == SignupWizard <==> !IsResetPath(path)
    ensures Route(path, token) == InvalidResetLink <==>
      IsResetPath(path) && (token.None? || token.value == "")
    ensures Route(path, token).ResetPage? <==>
      IsResetPath(path) && token.Some? && token.value != ""
    ensures Route(path, token).ResetPage? ==> Route(path, token).token == token.value
  {
  }

  /** The reset path with any letter case and trailing slashes takes the reset
      route; the root and a longer path do not. */
  lemma ResetPathExamples()
    ensures IsResetPath("/password_reset")
    ensures IsResetPath("/Password_Reset//")
    ensures !IsResetPath("/")
    ensures !IsResetPath("/password_reset/x")
    ensures !IsResetPath("/password_resets")
  {
    var p := "/password_reset/x";
    assert p[|p| - 1] != '/';
    var q := "/password_resets";
    assert q[|q| - 1] != '/';
  }

  /** Every change-password request a reset page sends carries the token of
      its URL verbatim, which is never empty. */
  lemma {:induction false} RequestsCarryUrlToken(path: string, token: Option<string>, es: seq<PasswordReset.ResetEvent>)
    requires Route(path, token).ResetPage?
    ensures var s := PasswordReset.ReachReset(Route(path, token).token, es);
      forall i :: 0 <= i < |s.effects| && s.effects[i].ChangePasswordCall? ==>
        token == Some(s.effects[i].request.token) && s.effects[i].request.token != ""
  {
    PasswordReset.ReachableResetInv(Route(path, token).token, es);
  }
}
