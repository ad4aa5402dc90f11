/** The auth slice: the logged-in user and token, the login request's loading and error
    state, and the two storage entries that let a session survive a restart. */
module Auth {
  import opened Wrappers

  const TokenKey: string := "userToken"
  const UserDataKey: string := "userData"
  const LoginFailedMessage: string := "Login failed"
  const CheckFailedMessage: string := "Failed to check stored auth"

  /** The body of a successful login response; `token` is its `token` field. */
  datatype User = User(id: int, username: string, email: string, firstName: string,
                       lastName: string, token: string)

  /** A value in the key-value storage: a plain string (the token, or text that is not
      JSON) or the JSON text of a user, kept here as the user it parses back to. */
  datatype StoredValue = Text(text: string) | Json(user: User)

  /** `AsyncStorage.getItem(key)`; `None` is `null`. */
  function GetItem(storage: map<string, StoredValue>, key: string): Option<StoredValue> {
    if key in storage then Some(storage[key]) else None
  }

  /** JavaScript truthiness of what `getItem` returned: present and not the empty string
      (JSON text of an object is never empty). */
  predicate IsTruthy(item: Option<StoredValue>) {
    item.Some? && (item.value.Text? ==> item.value.text != "")
  }

  /** `token && userData` in `checkStoredAuth`. */
  predicate BothKeysPresent(storage: map<string, StoredValue>) {
    IsTruthy(GetItem(storage, TokenKey)) && IsTruthy(GetItem(storage, UserDataKey))
  }

  /** The settled value of the `checkStoredAuth` thunk. `readFails` is a storage read that
      throws; a `Text` user entry is text that `JSON.parse` rejects. Both reject. */
  function StoredSession(storage: map<string, StoredValue>, readFails: bool): (r: Result<Option<User>, string>)
    ensures r.Err? ==> r.error == CheckFailedMessage
    ensures r == Ok(None) <==> !readFails && !BothKeysPresent(storage)
    ensures r.Ok? && r.value.Some? <==>
              !readFails && BothKeysPresent(storage) && storage[UserDataKey].Json?
    ensures r.Ok? && r.value.Some? ==> storage[UserDataKey] == Json(r.value.value)
  {
    if readFails then Err(CheckFailedMessage)
    else if !BothKeysPresent(storage) then Ok(None)
    else match storage[UserDataKey]
      case Json(user) => Ok(Some(user))
      case Text(_) => Err(CheckFailedMessage)
  }

  /** What the login request produced: a user, or an error whose response may carry a
      server `message`. */
  datatype LoginResponse = LoginSucceeded(data: User) | LoginFailed(serverMessage: Option<string>)

  /** `error.response?.data?.message || 'Login failed'`: never empty, and the server's
      message whenever it sent a non-empty one. */
  function RejectionMessage(serverMessage: Option<string>): (m: string)
    ensures m != ""
    ensures serverMessage.Some? && serverMessage.value != "" ==> m == serverMessage.value
    ensures serverMessage.None? || serverMessage.value == "" ==> m == LoginFailedMessage
  {
    if serverMessage.Some? && serverMessage.value != "" then serverMessage.value else LoginFailedMessage
  }

  /** Which of the two awaited storage writes after a successful login throws, if any. */
  datatype WriteFault = NoFault | TokenWriteFails | UserDataWriteFails

  /** The storage a successful login leaves behind restores that user, unless its token
      is the empty string, which `checkStoredAuth` treats as absent. */
  lemma LoginStorageRestores(storage: map<string, StoredValue>, user: User)
    ensures var stored := storage[TokenKey := Text(user.token)][UserDataKey := Json(user)];
            StoredSession(stored, false) == if user.token != "" then Ok(Some(user)) else Ok(None)
  {
  }

  /** After logout's removals nothing is restored. */
  lemma LogoutStorageRestoresNothing(storage: map<string, StoredValue>)
    ensures StoredSession(storage - {TokenKey, UserDataKey}, false) == Ok(None)
  {
  }

  /** The slice state the store exposes. */
  datatype AuthState = AuthState(user: Option<User>, token: Option<string>, isAuthenticated: bool,
                                 isLoading: bool, error: Option<string>)

  class AuthSlice {
    var user: Option<User>
    var token: Option<string>
    var isAuthenticated: bool
    var isLoading: bool
    var error: Option<string>
    /** The key-value storage as seen by this slice. */
    var storage: map<string, StoredValue>

    function State(): AuthState
      reads this
    {
      AuthState(user, token, isAuthenticated, isLoading, error)
    }

    /** The invariant every transition keeps: an authenticated state has a user, and
        `user` and `token` are set and cleared together, the token being the user's. */
    ghost predicate Valid()
      reads this
    {
      && (isAuthenticated ==> user.Some?)
      && (user.Some? ==> token == Some(user.value.token))
      && (user.None? ==> token.None?)
    }

    /** The initial state, over whatever the storage already holds. */
    constructor (stored: map<string, StoredValue>)
      ensures Valid()
      ensures State() == AuthState(None, None, false, false, None) && storage == stored
    {
      user, token, isAuthenticated, isLoading, error := None, None, false, false, None;
      storage := stored;
    }

    /** Clears the session in memory and removes both storage entries; `isLoading` is
        left as it was. */
    method Logout()
      requires Valid()
      modifies this
      ensures Valid()
      ensures State() == old(State()).(user := None, token := None, isAuthenticated := false, error := None)
      ensures storage == old(storage) - {TokenKey, UserDataKey}
      ensures StoredSession(storage, false) == Ok(None)
    {
      user := None;
      token := None;
      isAuthenticated := false;
      error := None;
      storage := storage - {TokenKey};
      storage := storage - {UserDataKey};
      assert storage == old(storage) - {TokenKey, UserDataKey};
      LogoutStorageRestoresNothing(old(storage));
    }

    method ClearError()
      requires Valid()
      modifies this
      ensures Valid()
      ensures State() == old(State()).(error := None) && storage == old(storage)
    {
      error := None;
    }

    method LoginPending()
      requires Valid()
      modifies this
      ensures Valid()
      ensures State() == old(State()).(isLoading := true, error := None) && storage == old(storage)
    {
      isLoading := true;
      error := None;
    }

    method LoginFulfilled(payload: User)
      requires Valid()
      modifies this
      ensures Valid()
      ensures State() == AuthState(Some(payload), Some(payload.token), true, false, None)
      ensures storage == old(storage)
    {
      isLoading := false;
      user := Some(payload);
      token := Some(payload.token);
      isAuthenticated := true;
      error := None;
    }

    /** A failed login clears `isAuthenticated` but keeps an earlier user and token. */
    method LoginRejected(payload: string)
      requires Valid()
      modifies this
      ensures Valid()
      ensures State() == old(State()).(isLoading := false, error := Some(payload), isAuthenticated := false)
      ensures storage == old(storage)
    {
      isLoading := false;
      error := Some(payload);
      isAuthenticated := false;
    }

    /** A restored session authenticates; `null` leaves the state untouched. */
    method CheckStoredAuthFulfilled(payload: Option<User>)
      requires Valid()
      modifies this
      ensures Valid()
      ensures payload.None? ==> State() == old(State())
      ensures payload.Some? ==>
                State() == old(State()).(user := payload, token := Some(payload.value.token),
                                         isAuthenticated := true)
      ensures storage == old(storage)
    {
      if payload.Some? {
        user := payload;
        token := Some(payload.value.token);
        isAuthenticated := true;
      }
    }

    /** The body of the `loginUser` thunk: on a successful response it awaits the two
        storage writes, token first; a write that throws rejects with the generic message,
        since that error carries no response. */
    method LoginRequest(response: LoginResponse, fault: WriteFault) returns (outcome: Result<User, string>)
      modifies this`storage
      ensures response.LoginFailed? ==>
                outcome == Err(RejectionMessage(response.serverMessage)) && storage == old(storage)
      ensures response.LoginSucceeded? && fault == TokenWriteFails ==>
                outcome == Err(LoginFailedMessage) && storage == old(storage)
      ensures response.LoginSucceeded? && fault == UserDataWriteFails ==>
                && outcome == Err(LoginFailedMessage)
                && storage == old(storage)[TokenKey := Text(response.data.token)]
      ensures response.LoginSucceeded? && fault == NoFault ==>
                && outcome == Ok(response.data)
                && storage == old(storage)[TokenKey := Text(response.data.token)]
                                          [UserDataKey := Json(response.data)]
    {
      match response
      case LoginFailed(message) =>
        outcome := Err(RejectionMessage(message));
      case LoginSucceeded(data) =>
        if fault == TokenWriteFails {
          outcome := Err(LoginFailedMessage);
        } else {
          storage := storage[TokenKey := Text(data.token)];
          if fault == UserDataWriteFails {
            outcome := Err(LoginFailedMessage);
          } else {
            storage := storage[UserDataKey := Json(data)];
            outcome := Ok(data);
          }
        }
    }

    /** Dispatching `loginUser(credentials)`: pending, the request, then fulfilled or
        rejected. Success authenticates and persists a session that `checkStoredAuth`
        restores; failure leaves the state unauthenticated with a non-empty error. */
    method Login(response: LoginResponse, fault: WriteFault)
      requires Valid()
      modifies this
      ensures Valid()
      ensures response.LoginSucceeded? && fault == NoFault ==>
                && State() == AuthState(Some(response.data), Some(response.data.token), true, false, None)
                && (response.data.token != "" ==> StoredSession(storage, false) == Ok(Some(response.data)))
      ensures !(response.LoginSucceeded? && fault == NoFault) ==>
                && !isAuthenticated && !isLoading
                && error.Some? && error.value != ""
                && user == old(user) && token == old(token)
      ensures response.LoginSucceeded? && fault == NoFault ==>
                storage == old(storage)[TokenKey := Text(response.data.token)]
                                       [UserDataKey := Json(response.data)]
      ensures response.LoginFailed? ==>
                error == Some(RejectionMessage(response.serverMessage)) && storage == old(storage)
      ensures response.LoginSucceeded? && fault == TokenWriteFails ==>
                error == Some(LoginFailedMessage) && storage == old(storage)
      ensures response.LoginSucceeded? && fault == UserDataWriteFails ==>
                && error == Some(LoginFailedMessage)
                && storage == old(storage)[TokenKey := Text(response.data.token)]
    {
      LoginPending();
      ghost var before := storage;
      var outcome := LoginRequest(response, fault);
      match outcome
      case Ok(data) =>
        LoginStorageRestores(before, data);
        LoginFulfilled(data);
      case Err(message) =>
        LoginRejected(message);
    }

    /** Dispatching `checkStoredAuth()`: there is no pending case and no rejected case, so
        only a restored user changes the state. */
    method CheckStoredAuth(readFails: bool)
      requires Valid()
      modifies this
      ensures Valid()
      ensures storage == old(storage)
      ensures StoredSession(storage, readFails).Ok? && StoredSession(storage, readFails).value.Some? ==>
                var restored := StoredSession(storage, readFails).value.value;
                State() == old(State()).(user := Some(restored), token := Some(restored.token),
                                         isAuthenticated := true)
      ensures !(StoredSession(storage, readFails).Ok? && StoredSession(storage, readFails).value.Some?) ==>
                State() == old(State())
    {
      var outcome := StoredSession(storage, readFails);
      match outcome
      case Ok(payload) => CheckStoredAuthFulfilled(payload);
      case Err(_) =>
    }
  }
}
