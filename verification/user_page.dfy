/** The user homepage's page load: the query-string toast, the token check
    (`verifyUserAccessToken`) and the data load (`fetchData`), as pure
    decisions over the services' answers and the page's inputs. */
module UserPage {
  import opened Wrappers
  import opened Storage
  import opened PageEffects

  const AccountCreatedMessage: string := "Votre compte a été créer avec succès !"
  const SessionExpiredMessage: string := "Votre session a expiré, veuillez vous reconnecter."
  const GenericErrorMessage: string := "Une erreur est survenue."
  /** Shown by `fetchUserData` before it rethrows. */
  const FetchUserDataMessage: string :=
    "Oups ! Une erreur c'est produite veuillez réessayer plus tard."
  /** Shown by `fetchData` when loading the user's data failed. */
  const LoadDataFailedMessage: string :=
    "Une erreur est survenue lors de la récupération de vos données"

  /** The HTTP status that marks an expired session. */
  const Unauthorized: int := 401

  /** The outcome of `UsersAPI.getAllData`: the returned record (absent for
      `null`/`undefined`) or the thrown error. */
  datatype UserDataResult = DataReturned(user: Option<User>) | DataThrew(err: HttpError)

  /** An action dispatched to the Redux store: `update` with the user record
      (absent when the service returned nothing) or `updateStorage`. */
  datatype Dispatch = Update(user: Option<User>) | UpdateStorage(usage: StorageUsage)

  /** What a page load does: its effects, whether the token verification and
      the user-data fetch were called, and the actions dispatched in order. */
  datatype HomeLoad = HomeLoad(effects: Effects, verifyCalled: bool, fetchCalled: bool,
                               dispatched: seq<Dispatch>)

  /** The toast the query string asks for: one after sign-up, that is when
      the `success` query value is truthy (present and non-empty); none after
      a login (the welcome-back toast is switched off) or otherwise. */
  function QueryToasts(success: Option<string>, successLogin: Option<string>): (toasts: seq<Toast>)
    ensures toasts != [] <==> Truthy(success)
    ensures Truthy(success) ==> toasts == [Toast(AccountCreatedMessage, Severity.Success)]
  {
    if Truthy(success) then [Toast(AccountCreatedMessage, Severity.Success)] else []
  }

  /** A bare `?success` or `?success=` in the address gives an empty query
      value, which is falsy: no toast. */
  lemma EmptySuccessValueShowsNoToast(successLogin: Option<string>)
    ensures QueryToasts(Some(""), successLogin) == []
  {
  }

  /** `fetchData`: nothing until the router is ready; without a truthy id,
      a move to login; a fetch error is caught here (toasted by
      `fetchUserData`, then by `fetchData`) with no navigation; a returned
      record is dispatched, followed by its storage usage when there is one. */
  function FetchData(isReady: bool, id: Option<string>, data: UserDataResult): (r: HomeLoad)
    ensures !r.verifyCalled
    ensures !isReady ==> r == HomeLoad(NoEffects, false, false, [])
    ensures r.fetchCalled <==> isReady && Truthy(id)
    ensures isReady && !Truthy(id) ==>
      r.effects == Effects(Some(LoginRoute), {}, []) && r.dispatched == []
    ensures r.fetchCalled && data.DataThrew? ==>
      && r.effects.redirect == None
      && r.effects.removed == {}
      && r.effects.toasts == [Toast(FetchUserDataMessage, Error), Toast(LoadDataFailedMessage, Error)]
      && r.dispatched == []
    ensures r.fetchCalled && data.DataReturned? ==> r.effects == NoEffects
    ensures r.fetchCalled && data == DataReturned(None) ==> r.dispatched == [Update(None)]
    ensures r.fetchCalled && data.DataReturned? && data.user.Some? ==>
      r.dispatched == [Update(data.user),
                       UpdateStorage(StorageUsage(data.user.value.totalUserStorage - UsedBy(data.user.value),
                                                  UsedBy(data.user.value)))]
    ensures !r.fetchCalled ==> r.dispatched == []
  {
    if !isReady then HomeLoad(NoEffects, false, false, [])
    else if !Truthy(id) then HomeLoad(Effects(Some(LoginRoute), {}, []), false, false, [])
    else
      match data
      case DataThrew(_) =>
        HomeLoad(Effects(None, {}, [Toast(FetchUserDataMessage, Error),
                                    Toast(LoadDataFailedMessage, Error)]),
                 false, true, [])
      case DataReturned(userData) =>
        var userStorage := CreateStorageUsage(userData);
        var storageUpdate := if userStorage.Some? then [UpdateStorage(userStorage.value)] else [];
        HomeLoad(NoEffects, false, true, [Update(userData)] + storageUpdate)
  }

  /** `verifyUserAccessToken`: without a truthy token, a move to login and no
      call to the Auth service; a failing verification goes to login, and
      only a 401 status also drops the token (the id is kept); a verified
      token with a user already in the store loads nothing; otherwise the
      data load follows. */
  function VerifyUserAccessToken(token: Option<string>, verification: Verification,
                                 cachedFirstName: Option<string>,
                                 isReady: bool, id: Option<string>,
                                 data: UserDataResult): (r: HomeLoad)
    ensures r.verifyCalled <==> Truthy(token)
    ensures !Truthy(token) ==> r == HomeLoad(Effects(Some(LoginRoute), {}, []), false, false, [])
    ensures r.fetchCalled <==>
      Truthy(token) && verification.Verified? && !Truthy(cachedFirstName) && isReady && Truthy(id)
    ensures Truthy(token) && verification.Verified? && Truthy(cachedFirstName) ==>
      r.effects == NoEffects && r.dispatched == []
    ensures Truthy(token) && verification.VerifyThrew? ==>
      && r.effects.redirect == Some(LoginRoute)
      && r.dispatched == []
      && (verification.err.status == Some(Unauthorized) ==>
            r.effects.removed == {TokenKey}
            && r.effects.toasts == [Toast(SessionExpiredMessage, Error)])
      && (verification.err.status != Some(Unauthorized) ==>
            r.effects.removed == {}
            && r.effects.toasts == [Toast(GenericErrorMessage, Error)])
    ensures Truthy(token) && verification.Verified? && !Truthy(cachedFirstName) ==>
      && r.effects == FetchData(isReady, id, data).effects
      && r.dispatched == FetchData(isReady, id, data).dispatched
    ensures Truthy(token) && verification.Verified? && !Truthy(cachedFirstName) && !isReady ==>
      r.effects == NoEffects && r.dispatched == []
    ensures Truthy(token) && verification.Verified? && !Truthy(cachedFirstName)
            && isReady && !Truthy(id) ==>
      r.effects == Effects(Some(LoginRoute), {}, []) && r.dispatched == []
    ensures Truthy(token) && verification.Verified? && !Truthy(cachedFirstName)
            && isReady && Truthy(id) && data.DataThrew? ==>
      && r.effects == Effects(None, {}, [Toast(FetchUserDataMessage, Error),
                                         Toast(LoadDataFailedMessage, Error)])
      && r.dispatched == []
    ensures Truthy(token) && verification.Verified? && !Truthy(cachedFirstName)
            && isReady && Truthy(id) && data.DataReturned? ==>
      && r.effects == NoEffects
      && r.dispatched[0] == Update(data.user)
      && (data.user.None? ==> r.dispatched == [Update(None)])
      && (data.user.Some? ==>
            && |r.dispatched| == 2
            && r.dispatched[1].UpdateStorage?
            && r.dispatched[1].usage.usedStorage == UsedBy(data.user.value)
            && r.dispatched[1].usage.usedStorage + r.dispatched[1].usage.availableStorage
               == data.user.value.totalUserStorage)
    ensures KeepsSessionDiscipline(r.effects)
  {
    if !Truthy(token) then
      HomeLoad(Effects(Some(LoginRoute), {}, []), false, false, [])
    else
      match verification
      case VerifyThrew(err) =>
        if err.status == Some(Unauthorized) then
          HomeLoad(Effects(Some(LoginRoute), {TokenKey}, [Toast(SessionExpiredMessage, Error)]),
                   true, false, [])
        else
          HomeLoad(Effects(Some(LoginRoute), {}, [Toast(GenericErrorMessage, Error)]),
                   true, false, [])
      case Verified(_) =>
        if Truthy(cachedFirstName) then HomeLoad(NoEffects, true, false, [])
        else FetchData(isReady, id, data).(verifyCalled := true)
  }

  /** A successful load stores the user record and then exactly the usage
      `createStorageUsage` computes for it, and shows nothing. */
  lemma SuccessfulLoadDispatchesUsage(token: Option<string>, role: Option<string>,
                                      id: Option<string>, u: User)
    requires Truthy(token) && Truthy(id)
    ensures VerifyUserAccessToken(token, Verified(role), None, true, id, DataReturned(Some(u)))
         == HomeLoad(NoEffects, true, true,
                     [Update(Some(u)), UpdateStorage(CreateStorageUsage(Some(u)).value)])
  {
  }

  /** The role claim plays no part on the user homepage: any verified token
      leads to the same load. */
  lemma UserLoadIgnoresRole(token: Option<string>, r1: Option<string>, r2: Option<string>,
                            cachedFirstName: Option<string>, isReady: bool,
                            id: Option<string>, data: UserDataResult)
    ensures VerifyUserAccessToken(token, Verified(r1), cachedFirstName, isReady, id, data)
         == VerifyUserAccessToken(token, Verified(r2), cachedFirstName, isReady, id, data)
  {
  }

  /** Whatever the inputs, the id is never removed by the user homepage, and
      the store is written only after a verified token and a fetch. */
  lemma UserLoadKeepsId(token: Option<string>, v: Verification, cachedFirstName: Option<string>,
                        isReady: bool, id: Option<string>, data: UserDataResult)
    ensures IdKey !in VerifyUserAccessToken(token, v, cachedFirstName, isReady, id, data).effects.removed
    ensures VerifyUserAccessToken(token, v, cachedFirstName, isReady, id, data).dispatched != [] ==>
      v.Verified? && VerifyUserAccessToken(token, v, cachedFirstName, isReady, id, data).fetchCalled
  {
  }
}
