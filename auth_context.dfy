/** The session manager of the client: the provider's state (`accessToken`,
    `user`, `loading`), the browser's `localStorage` it mirrors that state
    into, the two request interceptors, and `login`, `register`, `logout`
    and the session restoration run on mount. Every reply of the server is a
    parameter of the operation that awaits it. */
module AuthContext {
  import opened Js
  import opened Text

  /** The identity held in state: `{ role, username }`. */
  datatype User = User(role: string, username: string)

  /** The `localStorage` keys of the session. */
  const TokenKey: string := "accessToken"
  const RoleKey: string := "userRole"
  const NameKey: string := "username"
  const SessionKeys: set<string> := {TokenKey, RoleKey, NameKey}

  /** The endpoint whose own failures never trigger a refresh. */
  const RefreshPath: string := "/refresh-token"
  const Unauthorized: int := 401

  const LoginFallback: string := "Login failed. Please try again."
  const RegisterFallback: string := "Registration failed due to server error"

  /** The settled promise of a request. */
  datatype Outcome = Fulfilled(data: string) | Rejected(error: HttpError)

  /** The reply of the login or the refresh endpoint. */
  datatype AuthReply =
    | Granted(accessToken: string, role: string, username: string)
    | Denied(error: HttpError)

  /** What `login` resolves to: `{success: true}` or `{success: false, message}`. */
  datatype LoginResult = LoginOk | LoginFailed(message: string)

  /** What `register` resolves to: `{success: true, data}` or `{success: false, message}`. */
  datatype RegisterResult = Registered(data: string) | RegisterFailed(message: string)

  /** `localStorage.getItem("accessToken") || null`. */
  function StoredToken(storage: map<string, string>): (t: Option<string>)
    ensures t.Some? <==> TokenKey in storage && Truthy(storage[TokenKey])
    ensures t.Some? ==> t.value == storage[TokenKey]
  {
    if TokenKey in storage && Truthy(storage[TokenKey]) then Some(storage[TokenKey]) else None
  }

  /** The user the provider starts with: rebuilt from storage only when both
      the saved role and the saved name are present and non-empty. */
  function StoredUser(storage: map<string, string>): (u: Option<User>)
    ensures u.Some? <==> RoleKey in storage && NameKey in storage
                         && Truthy(storage[RoleKey]) && Truthy(storage[NameKey])
    ensures u.Some? ==> u.value == User(storage[RoleKey], storage[NameKey])
  {
    if RoleKey in storage && NameKey in storage && Truthy(storage[RoleKey]) && Truthy(storage[NameKey])
    then Some(User(storage[RoleKey], storage[NameKey]))
    else None
  }

  /** The part of a token in state that a reload could get back: a present,
      non-empty one. */
  function ReloadableToken(t: Option<string>): Option<string> {
    if TruthyOpt(t) then t else None
  }

  /** The part of a user in state that a reload could get back. */
  function ReloadableUser(u: Option<User>): Option<User> {
    if u.Some? && Truthy(u.value.role) && Truthy(u.value.username) then u else None
  }

  /** `storage` after `setItem` of the three session values. */
  function Saved(storage: map<string, string>, token: string, role: string, username: string): (s: map<string, string>)
    ensures s.Keys == storage.Keys + SessionKeys
    ensures s[TokenKey] == token && s[RoleKey] == role && s[NameKey] == username
    ensures forall k :: k in storage && k !in SessionKeys ==> s[k] == storage[k]
  {
    storage[TokenKey := token][RoleKey := role][NameKey := username]
  }

  /** What a save writes, a reload reads back: the token and the user
      return exactly as far as they are non-empty. */
  lemma SaveThenReload(storage: map<string, string>, token: string, role: string, username: string)
    ensures StoredToken(Saved(storage, token, role, username)) == ReloadableToken(Some(token))
    ensures StoredUser(Saved(storage, token, role, username)) == ReloadableUser(Some(User(role, username)))
  {
  }

  /** Removing the session keys leaves no session to reload, and removing
      them again changes nothing, so a second logout ends where the first
      one did. */
  lemma ClearSessionIdempotent(storage: map<string, string>)
    ensures StoredToken(storage - SessionKeys).None? && StoredUser(storage - SessionKeys).None?
    ensures (storage - SessionKeys) - SessionKeys == storage - SessionKeys
  {
  }

  /** The refresh rule of the response interceptor: only a 401, only for a
      request not yet marked as retried, never for the refresh URL. */
  predicate ShouldRefresh(error: HttpError, retried: bool, url: string) {
    error.status == Some(Unauthorized) && !retried && !Includes(url, RefreshPath)
  }

  /** Each request is refreshed at most once: once marked as retried it
      never triggers a refresh again, and no request whose URL contains the
      refresh path ever does, whatever comes before or after it. Only a 401
      can trigger one. */
  lemma RefreshAtMostOnce(error: HttpError, retried: bool, url: string, prefix: string, suffix: string)
    ensures !ShouldRefresh(error, true, url)
    ensures !ShouldRefresh(error, retried, prefix + RefreshPath + suffix)
    ensures error.status != Some(401) ==> !ShouldRefresh(error, retried, url)
  {
    var url := prefix + RefreshPath + suffix;
    assert url[|prefix|..|prefix| + |RefreshPath|] == RefreshPath;
    assert OccursAt(url, RefreshPath, |prefix|);
  }

  /** The headers after the request interceptor: `header`, when there is
      one, becomes the Authorization header. */
  function AttachedHeaders(headers: map<string, string>, header: Option<string>): (h: map<string, string>)
    ensures header.None? ==> h == headers
    ensures header.Some? ==> "Authorization" in h && h["Authorization"] == header.value
    ensures forall k :: k != "Authorization" ==> (k in h <==> k in headers)
    ensures forall k :: k != "Authorization" && k in h ==> h[k] == headers[k]
  {
    match header
    case None => headers
    case Some(value) => headers["Authorization" := value]
  }

  /** A request's configuration, which the interceptors change in place. */
  class Request {
    var url: string
    var headers: map<string, string>
    var retry: bool

    constructor (url: string, headers: map<string, string>)
      ensures this.url == url && this.headers == headers && !retry
    {
      this.url := url;
      this.headers := headers;
      retry := false;
    }
  }

  class AuthProvider {
    var accessToken: Option<string>
    var user: Option<User>
    var loading: bool
    var storage: map<string, string>

    /** Storage agrees with state: a reload of the page would start from the
        same token and the same user, as far as they are non-empty. */
    ghost predicate InSync()
      reads this
    {
      StoredToken(storage) == ReloadableToken(accessToken)
      && StoredUser(storage) == ReloadableUser(user)
    }

    /** The provider's first render: token and user are read back from
        storage, and `loading` is true until the restoration settles. */
    constructor (storage: map<string, string>)
      ensures this.storage == storage && loading
      ensures accessToken == StoredToken(storage) && user == StoredUser(storage)
      ensures InSync()
    {
      this.storage := storage;
      accessToken := StoredToken(storage);
      user := StoredUser(storage);
      loading := true;
    }

    /** The header the request interceptor attaches: present exactly when
        the token in state is truthy, and then "Bearer " and the token. */
    function Authorization(): (h: Option<string>)
      reads this
      ensures h.Some? <==> TruthyOpt(accessToken)
      ensures h.Some? ==> h.value == "Bearer " + accessToken.value
    {
      if TruthyOpt(accessToken) then Some("Bearer " + accessToken.value) else None
    }

    /** The request interceptor. */
    method AttachAuthorization(req: Request)
      modifies req`headers
      ensures Authorization().Some? ==> req.headers == old(req.headers)["Authorization" := Authorization().value]
      ensures Authorization().None? ==> req.headers == old(req.headers)
      ensures req.headers == AttachedHeaders(old(req.headers), Authorization())
    {
      if TruthyOpt(accessToken) {
        req.headers := req.headers["Authorization" := "Bearer " + accessToken.value];
      }
    }

    /** Takes a granted reply into state and storage. */
    method Adopt(token: string, role: string, username: string)
      modifies this
      ensures accessToken == Some(token) && user == Some(User(role, username))
      ensures storage == Saved(old(storage), token, role, username)
      ensures loading == old(loading)
      ensures InSync()
    {
      accessToken := Some(token);
      user := Some(User(role, username));
      storage := Saved(storage, token, role, username);
    }

    /** `login`: a granted reply becomes the session; a denied one leaves
        state and storage as they were and reports the server's message or
        the fallback. */
    method Login(reply: AuthReply) returns (r: LoginResult)
      modifies this
      ensures r.LoginOk? <==> reply.Granted?
      ensures reply.Granted? ==>
                && accessToken == Some(reply.accessToken)
                && user == Some(User(reply.role, reply.username))
                && storage == Saved(old(storage), reply.accessToken, reply.role, reply.username)
                && loading == old(loading)
                && InSync()
      ensures reply.Denied? ==>
                && r == LoginFailed(OrElse(reply.error.message, LoginFallback))
                && unchanged(this)
    {
      match reply
      case Granted(token, role, username) =>
        Adopt(token, role, username);
        r := LoginOk;
      case Denied(error) =>
        r := LoginFailed(OrElse(error.message, LoginFallback));
    }

    /** `register`: reports the server's verdict and changes nothing; the
        caller is not logged in. */
    method Register(reply: Outcome) returns (r: RegisterResult)
      ensures r.Registered? <==> reply.Fulfilled?
      ensures reply.Fulfilled? ==> r.data == reply.data
      ensures reply.Rejected? ==> r.message == OrElse(reply.error.message, RegisterFallback)
      ensures r.RegisterFailed? ==> Truthy(r.message)
    {
      match reply
      case Fulfilled(data) =>
        r := Registered(data);
      case Rejected(error) =>
        r := RegisterFailed(OrElse(error.message, RegisterFallback));
    }

    /** `logout`: whatever the network call does, the session ends and the
        three session keys leave storage; other keys stay. */
    method Logout()
      modifies this
      ensures accessToken == None && user == None
      ensures storage == old(storage) - SessionKeys
      ensures loading == old(loading)
      ensures InSync()
    {
      accessToken := None;
      user := None;
      storage := storage - SessionKeys;
    }

    /** The session restoration run once on mount: a granted refresh
        overwrites the session, a denied one clears state and ALL of storage;
        either way loading ends. */
    method RestoreSession(reply: AuthReply)
      modifies this
      ensures !loading
      ensures reply.Granted? ==>
                && accessToken == Some(reply.accessToken)
                && user == Some(User(reply.role, reply.username))
                && storage == Saved(old(storage), reply.accessToken, reply.role, reply.username)
      ensures reply.Denied? ==> accessToken == None && user == None && storage == map[]
      ensures InSync()
    {
      match reply {
        case Granted(token, role, username) =>
          Adopt(token, role, username);
        case Denied(_) =>
          accessToken := None;
          user := None;
          storage := map[];
      }
      loading := false;
    }

    /** The response interceptor's error path. `refresh` is the refresh
        endpoint's reply and `replay` the outcome of re-sending `req`; both
        are consulted only when the refresh rule fires. */
    method OnResponseError(req: Request, error: HttpError, refresh: AuthReply, replay: Outcome)
      returns (r: Outcome, refreshed: bool)
      modifies this, req
      ensures refreshed == ShouldRefresh(error, old(req.retry), old(req.url))
      ensures req.url == old(req.url)
      ensures !refreshed ==> r == Rejected(error) && unchanged(this) && unchanged(req)
      ensures refreshed ==> req.retry
      ensures refreshed && refresh.Granted? ==>
                && accessToken == Some(refresh.accessToken)
                && user == Some(User(refresh.role, refresh.username))
                && storage == Saved(old(storage), refresh.accessToken, refresh.role, refresh.username)
                && req.headers == old(req.headers)["Authorization" := "Bearer " + refresh.accessToken]
                && r == replay
      ensures refreshed && refresh.Denied? ==>
                && accessToken == None && user == None
                && storage == old(storage) - SessionKeys
                && req.headers == old(req.headers)
                && r == Rejected(refresh.error)
      ensures loading == old(loading)
      ensures old(InSync()) ==> InSync()
    {
      refreshed := ShouldRefresh(error, req.retry, req.url);
      if !refreshed {
        r := Rejected(error);
        return;
      }
      req.retry := true;
      match refresh
      case Granted(token, role, username) =>
        Adopt(token, role, username);
        req.headers := req.headers["Authorization" := "Bearer " + token];
        r := replay;
      case Denied(refreshError) =>
        Logout();
        r := Rejected(refreshError);
    }

    /** The same request failing twice: however each failure and each
        refresh turns out, the interceptor refreshes for it at most once,
        because the first refresh marks it as retried. */
    method FailTwice(req: Request, first: HttpError, second: HttpError,
                     refresh1: AuthReply, refresh2: AuthReply, replay1: Outcome, replay2: Outcome)
      returns (r: Outcome, refreshed1: bool, refreshed2: bool)
      modifies this, req
      ensures !(refreshed1 && refreshed2)
      ensures refreshed1 || refreshed2 ==> req.retry
      ensures old(InSync()) ==> InSync()
    {
      r, refreshed1 := OnResponseError(req, first, refresh1, replay1);
      r, refreshed2 := OnResponseError(req, second, refresh2, replay2);
    }

    /** A call through the provider's axios instance: the request
        interceptor, the server's `response`, and on failure the response
        interceptor, whose replay goes out without interceptors. */
    method Send(req: Request, response: Outcome, refresh: AuthReply, replay: Outcome)
      returns (r: Outcome, refreshed: bool)
      modifies this, req
      ensures response.Fulfilled? ==> r == response && !refreshed && unchanged(this)
      ensures refreshed <==> response.Rejected? && ShouldRefresh(response.error, old(req.retry), old(req.url))
      ensures !refreshed && response.Rejected? ==> r == response && unchanged(this)
      ensures !refreshed ==> req.headers == AttachedHeaders(old(req.headers), old(Authorization()))
      ensures refreshed && refresh.Granted? ==>
                && r == replay
                && req.headers == AttachedHeaders(old(req.headers), old(Authorization()))["Authorization" := "Bearer " + refresh.accessToken]
                && accessToken == Some(refresh.accessToken)
                && user == Some(User(refresh.role, refresh.username))
                && storage == Saved(old(storage), refresh.accessToken, refresh.role, refresh.username)
      ensures refreshed && refresh.Denied? ==>
                && r == Rejected(refresh.error) && accessToken == None && user == None
                && storage == old(storage) - SessionKeys
                && req.headers == AttachedHeaders(old(req.headers), old(Authorization()))
      ensures refreshed ==> req.retry
      ensures loading == old(loading)
      ensures old(InSync()) ==> InSync()
    {
      AttachAuthorization(req);
      refreshed := false;
      match response
      case Fulfilled(_) =>
        r := response;
      case Rejected(error) =>
        r, refreshed := OnResponseError(req, error, refresh, replay);
    }
  }
}
