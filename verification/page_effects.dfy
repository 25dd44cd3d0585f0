/** What a page load does to the outside world, recorded as data: the
    navigation, the localStorage keys removed and the toasts shown. */
module PageEffects {
  import opened Wrappers

  const LoginRoute: string := "/auth/loginPage"
  const AppHomeRoute: string := "/app/homepage"

  /** The localStorage keys holding the session artifacts. */
  const TokenKey: string := "token"
  const IdKey: string := "id"

  datatype Severity = Success | Error

  /** A toast notification: its text and severity. */
  datatype Toast = Toast(message: string, severity: Severity)

  /** The recorded effects of one decision: where the router is sent (if
      anywhere), which localStorage keys are removed, and the toasts shown in
      order. */
  datatype Effects = Effects(redirect: Option<string>, removed: set<string>, toasts: seq<Toast>)

  /** A decision that does nothing visible. */
  const NoEffects: Effects := Effects(None, {}, [])

  /** JavaScript truthiness of an optional string: `null`, `undefined` and
      `""` are falsy. */
  predicate Truthy(s: Option<string>)
  {
    s.Some? && s.value != ""
  }

  /** An error thrown by an HTTP service: the response status when there was a
      response, and the error's `toString()` text. */
  datatype HttpError = HttpError(status: Option<int>, text: string)

  /** The outcome of `AuthAPI.verifyToken`: the decoded role claim when the
      token is accepted (absent when the claim is missing), or the error. */
  datatype Verification = Verified(role: Option<string>) | VerifyThrew(err: HttpError)

  /** `s.includes(sub)`: `sub` occurs somewhere in `s`. */
  predicate Contains(s: string, sub: string)
    decreases |s|
  {
    sub <= s || (|s| > 0 && Contains(s[1..], sub))
  }

  /** `Contains` holds exactly when `sub` starts at some position of `s`. */
  lemma {:induction false} ContainsIffOccurs(s: string, sub: string)
    ensures Contains(s, sub) <==> exists i :: 0 <= i <= |s| && sub <= s[i..]
    decreases |s|
  {
    if |s| > 0 {
      ContainsIffOccurs(s[1..], sub);
      if exists i :: 0 <= i <= |s| && sub <= s[i..] {
        var i :| 0 <= i <= |s| && sub <= s[i..];
        if i > 0 {
          assert s[1..][i - 1..] == s[i..];
        }
      }
      if Contains(s[1..], sub) {
        var i :| 0 <= i <= |s[1..]| && sub <= s[1..][i..];
        assert s[1..][i..] == s[i + 1..];
      }
    } else {
      if exists i :: 0 <= i <= |s| && sub <= s[i..] {
        var i :| 0 <= i <= |s| && sub <= s[i..];
        assert s[i..] == s;
      }
    }
  }

  /** The session discipline both dashboards keep: localStorage keys are only
      ever the two session keys, and they are removed only on the way to the
      login page. */
  predicate KeepsSessionDiscipline(e: Effects)
  {
    && e.removed <= {TokenKey, IdKey}
    && (e.removed != {} ==> e.redirect == Some(LoginRoute))
  }
}
