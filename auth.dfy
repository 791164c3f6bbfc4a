/** The session held by the authentication context: the signed-in `user`,
    the raw `token`, the `isLoading` flag, and the `token` key of
    `localStorage`.

    The pure half (`Session`, `Event`, `Step`, `Run`) states the state
    machine and its invariant; the `AuthProvider` class is the provider
    itself, whose methods change its fields and the shared storage step by
    step and are proved to follow `Step`. The JWT decoder is the function
    `decode`: `None` where `jwtDecode` would throw. */
module Auth {
  import opened Common
  import opened Browser

  const TokenKey := "token"
  const UnauthorizedMessage := "Unauthorized"
  const OutsideProviderMessage := "useAuth must be used within an AuthProvider"

  type Decoder = string -> Option<User>

  /** The observable state: the three fields and the stored token. */
  datatype Session = Session(user: Option<User>, token: Option<string>, isLoading: bool, stored: Option<string>)

  datatype Event =
    | Started              // the mount effect
    | LoggedIn(jwt: string) // `login(jwt)`
    | LoggedOut            // `logout()`
    | Responded(status: int) // a reply seen by `fetchWithAuth`

  /** The state of a freshly rendered provider over whatever storage holds. */
  function Initial(stored: Option<string>): Session {
    Session(None, None, true, stored)
  }

  function SignedOut(s: Session): Session {
    s.(user := None, token := None, stored := None)
  }

  function Step(s: Session, e: Event, decode: Decoder): Session {
    match e
    case Started =>
      if !TruthyOption(s.stored) then s.(isLoading := false)
      else if decode(s.stored.value).Some? then
        s.(user := decode(s.stored.value), token := s.stored, isLoading := false)
      else s.(stored := None, isLoading := false)
    case LoggedIn(jwt) =>
      if decode(jwt).Some? then s.(user := decode(jwt), token := Some(jwt), stored := Some(jwt))
      else s
    case LoggedOut => SignedOut(s)
    case Responded(status) => if status == 401 then SignedOut(s) else s
  }

  function Run(s: Session, events: seq<Event>, decode: Decoder): Session
    decreases |events|
  {
    if |events| == 0 then s else Run(Step(s, events[0], decode), events[1..], decode)
  }

  /** The session invariant: `user` and `token` are null together, and a
      token held in memory is the stored one and decodes to `user`. */
  predicate Consistent(s: Session, decode: Decoder) {
    (s.user.None? <==> s.token.None?) &&
    (s.token.Some? ==> s.stored == s.token && decode(s.token.value) == s.user)
  }

  lemma StepKeepsConsistent(s: Session, e: Event, decode: Decoder)
    requires Consistent(s, decode)
    ensures Consistent(Step(s, e, decode), decode)
  {
  }

  /** Every session reachable from a freshly rendered provider, by any
      sequence of start-up, logins, logouts and replies, is consistent. */
  lemma {:induction false} RunKeepsConsistent(s: Session, events: seq<Event>, decode: Decoder)
    requires Consistent(s, decode)
    ensures Consistent(Run(s, events, decode), decode)
    decreases |events|
  {
    if |events| > 0 {
      StepKeepsConsistent(s, events[0], decode);
      RunKeepsConsistent(Step(s, events[0], decode), events[1..], decode);
    }
  }

  lemma ReachableIsConsistent(stored: Option<string>, events: seq<Event>, decode: Decoder)
    ensures Consistent(Run(Initial(stored), events, decode), decode)
  {
    RunKeepsConsistent(Initial(stored), events, decode);
  }

  /** Only the mount effect clears `isLoading`, and nothing sets it again:
      the provider is loading exactly until it has started. */
  lemma {:induction false} LoadingUntilStarted(stored: Option<string>, events: seq<Event>, decode: Decoder)
    ensures Run(Initial(stored), events, decode).isLoading <==> Started !in events
  {
    LoadingRun(Initial(stored), events, decode);
  }

  lemma {:induction false} LoadingRun(s: Session, events: seq<Event>, decode: Decoder)
    ensures Run(s, events, decode).isLoading <==> s.isLoading && Started !in events
    decreases |events|
  {
    if |events| > 0 {
      LoadingRun(Step(s, events[0], decode), events[1..], decode);
      assert events == [events[0]] + events[1..];
    }
  }

  /** Start-up from storage: a truthy stored token that decodes is adopted,
      one that does not decode is purged, and loading always ends. */
  lemma StartUp(stored: Option<string>, decode: Decoder)
    ensures var s := Step(Initial(stored), Started, decode);
      && !s.isLoading
      && (TruthyOption(stored) && decode(stored.value).Some? ==>
            s.user == decode(stored.value) && s.token == stored && s.stored == stored)
      && (TruthyOption(stored) && decode(stored.value).None? ==>
            s.user.None? && s.token.None? && s.stored.None?)
      && (!TruthyOption(stored) ==> s.user.None? && s.token.None? && s.stored == stored)
  {
  }

  /** Logging out twice is logging out once, and a logout undoes a login. */
  lemma LogoutIdempotent(s: Session, jwt: string, decode: Decoder)
    ensures Step(Step(s, LoggedOut, decode), LoggedOut, decode) == Step(s, LoggedOut, decode)
    ensures Step(Step(s, LoggedIn(jwt), decode), LoggedOut, decode) == Step(s, LoggedOut, decode)
  {
  }

  /** `fetchWithAuth` appends `Authorization: Bearer <token>` after the
      caller's headers when, and only when, the token is truthy (held and
      not empty); the caller's headers are kept as they were. */
  function WithBearer(headers: seq<Header>, token: Option<string>): (r: seq<Header>)
    ensures |r| == |headers| + (if TruthyOption(token) then 1 else 0)
    ensures r[..|headers|] == headers
    ensures TruthyOption(token) ==> r[|headers|] == ("Authorization", "Bearer " + token.value)
  {
    if TruthyOption(token) then headers + [("Authorization", "Bearer " + token.value)] else headers
  }

  /** The `RequestInit` a caller passes to `fetchWithAuth`, which rewrites
      its headers in place. */
  class RequestInit {
    var verb: string
    var headers: seq<Header>
    var form: seq<(string, string)>

    constructor (verb: string, headers: seq<Header>, form: seq<(string, string)>)
      ensures this.verb == verb && this.headers == headers && this.form == form
    {
      this.verb := verb;
      this.headers := headers;
      this.form := form;
    }
  }

  class AuthProvider {
    var user: Option<User>
    var token: Option<string>
    var isLoading: bool
    const store: Storage
    const decode: Decoder

    function Snapshot(): Session
      reads this, store
    {
      Session(user, token, isLoading, store.GetItem(TokenKey))
    }

    ghost predicate Valid()
      reads this, store
    {
      Consistent(Snapshot(), decode)
    }

    constructor (store: Storage, decode: Decoder)
      ensures this.store == store && this.decode == decode
      ensures Snapshot() == Initial(store.GetItem(TokenKey))
      ensures Valid()
    {
      this.store := store;
      this.decode := decode;
      user := None;
      token := None;
      isLoading := true;
    }

    /** The mount effect: restore the session from storage. */
    method Start()
      requires Valid()
      modifies this, store
      ensures Valid()
      ensures Snapshot() == Step(old(Snapshot()), Started, decode)
      ensures store.entries - {TokenKey} == old(store.entries) - {TokenKey}
    {
      var storedToken := store.GetItem(TokenKey);
      if storedToken.Some? && storedToken.value != "" {
        var decodedUser := decode(storedToken.value);
        if decodedUser.Some? {
          user := decodedUser;
          token := storedToken;
        } else {
          store.RemoveItem(TokenKey);
        }
      }
      isLoading := false;
      StepKeepsConsistent(old(Snapshot()), Started, decode);
    }

    /** `login(jwt)`: the token is decoded before anything is written, so a
        token that does not decode (`ok` false) changes nothing. */
    method Login(jwt: string) returns (ok: bool)
      requires Valid()
      modifies this, store
      ensures Valid()
      ensures ok <==> decode(jwt).Some?
      ensures Snapshot() == Step(old(Snapshot()), LoggedIn(jwt), decode)
      ensures store.entries - {TokenKey} == old(store.entries) - {TokenKey}
    {
      var decodedUser := decode(jwt);
      if decodedUser.None? {
        return false;
      }
      store.SetItem(TokenKey, jwt);
      user := decodedUser;
      token := Some(jwt);
      ok := true;
      StepKeepsConsistent(old(Snapshot()), LoggedIn(jwt), decode);
    }

    method Logout()
      requires Valid()
      modifies this, store
      ensures Valid()
      ensures Snapshot() == Step(old(Snapshot()), LoggedOut, decode)
      ensures store.entries == old(store.entries) - {TokenKey}
    {
      store.RemoveItem(TokenKey);
      user := None;
      token := None;
    }

    /** `fetchWithAuth(url, options)` where the server answers `status`:
        the Bearer header is added to `options` in place; a 401 logs out
        and fails with "Unauthorized"; any other status is returned and the
        session is left alone. */
    method FetchWithAuth(url: string, options: RequestInit, status: int) returns (sent: Request, outcome: Result<int>)
      requires Valid()
      modifies this, store, options
      ensures Valid()
      ensures options.headers == WithBearer(old(options.headers), old(token))
      ensures options.verb == old(options.verb) && options.form == old(options.form)
      ensures sent == Request(options.verb, url, options.headers, options.form)
      ensures outcome == if status == 401 then Failure(UnauthorizedMessage) else Success(status)
      ensures Snapshot() == Step(old(Snapshot()), Responded(status), decode)
      ensures store.entries - {TokenKey} == old(store.entries) - {TokenKey}
    {
      options.headers := WithBearer(options.headers, token);
      sent := Request(options.verb, url, options.headers, options.form);
      if status == 401 {
        Logout();
        outcome := Failure(UnauthorizedMessage);
        return;
      }
      outcome := Success(status);
    }
  }

  /** `useAuth()`: the nearest provider, or an error outside of one. */
  function UseAuth(context: Option<AuthProvider>): (r: Result<AuthProvider>)
    ensures r.Success? <==> context.Some?
    ensures r.Success? ==> r.value == context.value
    ensures r.Failure? ==> r.message == OutsideProviderMessage
  {
    match context
    case Some(provider) => Success(provider)
    case None => Failure(OutsideProviderMessage)
  }
}
