/** The admin dashboard's page load: the credentials guard, the role check
    (`verifyUserRole`), the fleet fetch (`fetchAllUsers`) and the shared error
    handler (`handleErrors`), as pure decisions over the services' answers. */
module AdminPage {
  import opened Wrappers
  import opened Sums
  import opened Storage
  import opened Fleet
  import opened PageEffects

  const ReconnectMessage: string := "Une erreur est survenue, veuillez vous reconnecter."
  const NoRightsMessage: string := "Vous n'avez pas les droits pour accéder à cette page."
  const FetchUsersFailedMessage: string :=
    "Une erreur est survenue lors de la récupération des utilisateurs."

  /** The role claim that grants access to the admin dashboard. */
  const AdminRole: string := "admin"

  /** The outcome of `UsersAPI.getAllUsers`: the returned value (absent for
      `null`/`undefined`) or the thrown error. */
  datatype UsersResult = UsersReturned(users: Option<seq<User>>) | UsersThrew(err: HttpError)

  /** The fleet data a successful fetch stores in the page state. */
  datatype Loaded = Loaded(users: seq<User>, totals: Totals)

  /** What `fetchAllUsers` does: its effects and the data it stores, if any. */
  datatype FetchOutcome = FetchOutcome(effects: Effects, loaded: Option<Loaded>)

  /** The page load: either the credentials guard fails and nothing else is
      started, or the role check and the fleet fetch are both started, neither
      waiting for the other, and each has its own effects. */
  datatype AdminLoad =
    | CredentialsMissing(effects: Effects)
    | Started(role: Effects, fetch: FetchOutcome)

  /** `handleErrors`: always clears both session keys and goes to the login
      page; shows the message as an error toast when one is given. */
  function HandleErrors(message: Option<string>): (e: Effects)
    ensures e.removed == {TokenKey, IdKey}
    ensures e.redirect == Some(LoginRoute)
    ensures |e.toasts| <= 1
    ensures e.toasts != [] <==> Truthy(message)
    ensures forall i :: 0 <= i < |e.toasts| ==> e.toasts[i] == Toast(message.value, Error)
  {
    Effects(Some(LoginRoute), {TokenKey, IdKey},
            if Truthy(message) then [Toast(message.value, Error)] else [])
  }

  /** `verifyUserRole`: an admin role claim passes silently; any other or
      missing claim is refused with one toast and a move to the user area,
      keeping the session; a failing verification ends the session. */
  function VerifyUserRole(v: Verification): (e: Effects)
    ensures v == Verified(Some(AdminRole)) ==> e == NoEffects
    ensures v.Verified? && v.role != Some(AdminRole) ==>
      e == Effects(Some(AppHomeRoute), {}, [Toast(NoRightsMessage, Error)])
    ensures v.VerifyThrew? ==>
      e == Effects(Some(LoginRoute), {TokenKey, IdKey}, [Toast(ReconnectMessage, Error)])
  {
    match v
    case Verified(role) =>
      if role != Some(AdminRole) then
        Effects(Some(AppHomeRoute), {}, [Toast(NoRightsMessage, Error)])
      else
        NoEffects
    case VerifyThrew(_) => HandleErrors(Some(ReconnectMessage))
  }

  /** `fetchAllUsers`: a returned list (an array is truthy even when empty)
      is stored with all three totals computed from that same list; otherwise
      the page moves to the user area and the `finally` block shows exactly one
      error toast, whose text depends on whether the error mentions 401. */
  function FetchAllUsers(r: UsersResult): (o: FetchOutcome)
    ensures o.loaded.Some? <==> r.UsersReturned? && r.users.Some?
    ensures o.loaded.Some? ==>
      && o.effects == NoEffects
      && o.loaded.value.users == r.users.value
      && o.loaded.value.totals.bought == SumOf(r.users.value, Quota)
      && o.loaded.value.totals.used == SumOf(AllFiles(r.users.value), Size)
      && o.loaded.value.totals.files == |AllFiles(r.users.value)|
      && o.loaded.value.totals.userCount == |r.users.value|
    ensures o.loaded.None? ==>
      && o.effects.redirect == Some(AppHomeRoute)
      && o.effects.removed == {}
      && |o.effects.toasts| == 1
      && o.effects.toasts[0].severity == Error
    ensures r.UsersThrew? && Contains(r.err.text, "401") ==>
      o.effects.toasts == [Toast(NoRightsMessage, Error)]
    ensures r.UsersThrew? && !Contains(r.err.text, "401") ==>
      o.effects.toasts == [Toast(FetchUsersFailedMessage, Error)]
    ensures r == UsersReturned(None) ==>
      o.effects.toasts == [Toast(FetchUsersFailedMessage, Error)]
  {
    var (errorMessage, redirect, loaded) :=
      match r
      case UsersReturned(Some(users)) =>
        ("", None, Some(Loaded(users, Aggregate(users))))
      case UsersReturned(None) =>
        (FetchUsersFailedMessage, Some(AppHomeRoute), None)
      case UsersThrew(err) =>
        if Contains(err.text, "401") then (NoRightsMessage, Some(AppHomeRoute), None)
        else (FetchUsersFailedMessage, Some(AppHomeRoute), None);
    // the `finally` block: one toast when an error message was set
    var toasts := if errorMessage != "" then [Toast(errorMessage, Error)] else [];
    FetchOutcome(Effects(redirect, {}, toasts), loaded)
  }

  /** The page-load effect: without a truthy id and token the session is
      cleared and the user sent to login before any service is called;
      otherwise the role check and the fleet fetch both start. */
  function AdminPageLoad(id: Option<string>, token: Option<string>,
                         verification: Verification, fetched: UsersResult): (r: AdminLoad)
    ensures r.CredentialsMissing? <==> !Truthy(id) || !Truthy(token)
    ensures r.CredentialsMissing? ==>
      r.effects == Effects(Some(LoginRoute), {TokenKey, IdKey}, [Toast(ReconnectMessage, Error)])
    ensures r.Started? ==> r.role == VerifyUserRole(verification) && r.fetch == FetchAllUsers(fetched)
    ensures r.Started? ==> KeepsSessionDiscipline(r.role) && KeepsSessionDiscipline(r.fetch.effects)
  {
    if !Truthy(id) || !Truthy(token) then
      CredentialsMissing(HandleErrors(Some(ReconnectMessage)))
    else
      Started(VerifyUserRole(verification), FetchAllUsers(fetched))
  }

  /** The role check and the fleet fetch are independent: each one's effects
      depend only on its own service's answer. */
  lemma AdminDecisionsIndependent(id: Option<string>, token: Option<string>,
                                  v1: Verification, v2: Verification,
                                  u1: UsersResult, u2: UsersResult)
    requires Truthy(id) && Truthy(token)
    ensures AdminPageLoad(id, token, v1, u1).role == AdminPageLoad(id, token, v1, u2).role
    ensures AdminPageLoad(id, token, v1, u1).fetch == AdminPageLoad(id, token, v2, u1).fetch
  {
  }

  /** The fleet fetch never touches the session, while a refused role keeps
      it too: only a failing verification or missing credentials end it. */
  lemma AdminSessionEndsOnlyOnAuthFailure(id: Option<string>, token: Option<string>,
                                          v: Verification, u: UsersResult)
    ensures match AdminPageLoad(id, token, v, u)
      case CredentialsMissing(e) => e.removed == {TokenKey, IdKey}
      case Started(role, fetch) =>
        && fetch.effects.removed == {}
        && (role.removed != {} <==> v.VerifyThrew?)
  {
  }

  /** Every failing branch of the admin page shows exactly one error toast
      and navigates exactly once. */
  lemma AdminFailuresNotifyOnce(id: Option<string>, token: Option<string>,
                                v: Verification, u: UsersResult)
    ensures match AdminPageLoad(id, token, v, u)
      case CredentialsMissing(e) => |e.toasts| == 1 && e.redirect.Some?
      case Started(role, fetch) =>
        && (role != NoEffects ==> |role.toasts| == 1 && role.redirect.Some?)
        && (fetch.loaded.None? ==> |fetch.effects.toasts| == 1 && fetch.effects.redirect.Some?)
  {
  }
}
