/** `lib/auth.js`: the tokens kept in `localStorage` under `access_token`,
    `refresh_token` and `user`, written by sign-in and refresh and cleared
    by sign-out. The token endpoints' answers are parameters. */
module Auth {
  import opened Base
  import opened Domain

  const AccessKey: string := "access_token"
  const RefreshKey: string := "refresh_token"
  const UserKey: string := "user"

  /** The browser's `localStorage`: string values by key. */
  class Storage {
    var items: map<string, string>

    constructor (initial: map<string, string>)
      ensures items == initial
    {
      items := initial;
    }

    /** `getItem`: `None` stands for `null`. */
    function GetItem(key: string): (v: Option<string>)
      reads this
      ensures v.Some? <==> key in items
      ensures v.Some? ==> v.value == items[key]
    {
      if key in items then Some(items[key]) else None
    }

    method SetItem(key: string, value: string)
      modifies this
      ensures items == old(items)[key := value]
    {
      items := items[key := value];
    }

    method RemoveItem(key: string)
      modifies this
      ensures items == old(items) - {key}
    {
      items := items - {key};
    }
  }

  predicate Truthy(v: Option<string>) {
    v.Some? && v.value != ""
  }

  /** What `POST /api/token/` returned: an answer whose fields may be
      missing (`user` as the JSON text of the user object), an error
      response with optional `detail` and `message`, or no response. */
  datatype TokenAnswer =
    | Answer(access: Option<string>, refresh: Option<string>, user: Option<string>)
    | ErrorResponse(detail: Option<string>, message: Option<string>)
    | NoResponse

  datatype SignInResult = SignedIn(access: string, refresh: string, user: string) | SignInFailed(message: string)

  /** The message `signIn` throws with: `detail`, else `message`, else
      "Authentication failed" (also for its own "Invalid response" error,
      which carries no response). */
  function SignInError(answer: TokenAnswer): (msg: string)
    ensures answer.ErrorResponse? && Truthy(answer.detail) ==> msg == answer.detail.value
    ensures answer.ErrorResponse? && !Truthy(answer.detail) && Truthy(answer.message) ==> msg == answer.message.value
    ensures !answer.ErrorResponse? || (!Truthy(answer.detail) && !Truthy(answer.message)) ==> msg == "Authentication failed"
  {
    if answer.ErrorResponse? then
      if Truthy(answer.detail) then answer.detail.value
      else if Truthy(answer.message) then answer.message.value
      else "Authentication failed"
    else "Authentication failed"
  }

  predicate CompleteAnswer(answer: TokenAnswer) {
    answer.Answer? && Truthy(answer.access) && Truthy(answer.refresh) && Truthy(answer.user)
  }

  /** `signIn`: all three keys are stored when the answer has access,
      refresh and user; otherwise nothing is stored and the error is thrown. */
  method SignIn(store: Storage, answer: TokenAnswer) returns (result: SignInResult)
    modifies store
    ensures CompleteAnswer(answer) ==>
              && result == SignedIn(answer.access.value, answer.refresh.value, answer.user.value)
              && store.items == old(store.items)[AccessKey := answer.access.value]
                                [RefreshKey := answer.refresh.value][UserKey := answer.user.value]
              && IsAuthenticated(store, true) && AuthHeader(store) == "Bearer " + answer.access.value
    ensures !CompleteAnswer(answer) ==>
              result == SignInFailed(SignInError(answer)) && store.items == old(store.items)
  {
    if !CompleteAnswer(answer) {
      // the "Invalid response from server" error has no response, so the
      // catch block reports the default message
      return SignInFailed(SignInError(answer));
    }
    store.SetItem(AccessKey, answer.access.value);
    store.SetItem(RefreshKey, answer.refresh.value);
    store.SetItem(UserKey, answer.user.value);
    result := SignedIn(answer.access.value, answer.refresh.value, answer.user.value);
  }

  /** `signOut`: the refresh token is sent to the logout endpoint when one
      is stored (whatever that call's outcome), then the three keys are
      removed and every other key kept. */
  method SignOut(store: Storage) returns (logoutSent: Option<string>)
    modifies store
    ensures Truthy(old(store.GetItem(RefreshKey))) ==> logoutSent == old(store.GetItem(RefreshKey))
    ensures !Truthy(old(store.GetItem(RefreshKey))) ==> logoutSent == None
    ensures store.items == old(store.items) - {AccessKey, RefreshKey, UserKey}
    ensures !IsAuthenticated(store, true) && AuthHeader(store) == ""
  {
    var refresh := store.GetItem(RefreshKey);
    logoutSent := if Truthy(refresh) then refresh else None;
    store.RemoveItem(AccessKey);
    store.RemoveItem(RefreshKey);
    store.RemoveItem(UserKey);
  }

  /** What `POST /api/token/refresh/` returned: an answer (its `access`
      possibly missing) or a failure. */
  datatype RefreshAnswer = Refreshed(access: Option<string>) | RefreshFailed

  /** How `refreshToken` settles: resolved with the answer's `access`
      (`None` for `undefined`), or rejected. */
  datatype RefreshResult = NewAccess(token: Option<string>) | RefreshError(noToken: bool)

  /** `localStorage.setItem` stores `String(value)`: a missing value becomes "undefined". */
  function Stored(v: Option<string>): string {
    if v.Some? then v.value else "undefined"
  }

  /** `refreshToken`. Without a stored refresh token it signs out and
      throws; on an answer it overwrites only `access_token` with the
      text of `access` and resolves with `access` itself; on a failed
      request it signs out and rethrows. */
  method RefreshToken(store: Storage, answer: RefreshAnswer) returns (result: RefreshResult, logoutSent: Option<string>)
    modifies store
    ensures !Truthy(old(store.GetItem(RefreshKey))) ==>
              result == RefreshError(true) && logoutSent == None
              && store.items == old(store.items) - {AccessKey, RefreshKey, UserKey}
    ensures Truthy(old(store.GetItem(RefreshKey))) && answer.Refreshed? ==>
              result == NewAccess(answer.access) && logoutSent == None
              && store.items == old(store.items)[AccessKey := Stored(answer.access)]
    ensures Truthy(old(store.GetItem(RefreshKey))) && answer.RefreshFailed? ==>
              result == RefreshError(false) && logoutSent == old(store.GetItem(RefreshKey))
              && store.items == old(store.items) - {AccessKey, RefreshKey, UserKey}
  {
    var refresh := store.GetItem(RefreshKey);
    if !Truthy(refresh) {
      logoutSent := SignOut(store);
      return RefreshError(true), logoutSent;
    }
    if answer.Refreshed? {
      store.SetItem(AccessKey, Stored(answer.access));
      return NewAccess(answer.access), None;
    }
    logoutSent := SignOut(store);
    result := RefreshError(false);
  }

  /** `isAuthenticated`: false on the server, else whether a non-empty
      access token is stored. */
  function IsAuthenticated(store: Storage, hasWindow: bool): (yes: bool)
    reads store
    ensures yes <==> hasWindow && AccessKey in store.items && store.items[AccessKey] != ""
  {
    hasWindow && Truthy(store.GetItem(AccessKey))
  }

  /** `getAuthHeader`. */
  function AuthHeader(store: Storage): (h: string)
    reads store
    ensures Truthy(store.GetItem(AccessKey)) ==> h == "Bearer " + store.items[AccessKey]
    ensures !Truthy(store.GetItem(AccessKey)) ==> h == ""
  {
    var token := store.GetItem(AccessKey);
    if Truthy(token) then "Bearer " + token.value else ""
  }
}
