/**
 The `useAuth` hook (hooks/useAuth.ts) as a state machine over
 `(token, user, loading, store)`. Its collaborators are the device store and
 the auth service (`login`, `me`); each call's outcome is a parameter, and
 every transition records the calls it made in order.
 */
module Session {
  import opened Wrappers
  import opened Text
  import opened Http
  import opened Storage
  import opened Api

  /** `User` of hooks/useAuth.ts. */
  datatype User = User(nome: string, email: string)

  /** The body `/auth/me` answers with: one profile, or an array of them. */
  datatype MeBody = One(user: User) | Many(users: seq<User>)

  /** What `authService.me` resolves to: the first element of an array body (`undefined` when it is empty). */
  function Profile(b: MeBody): (u: Option<User>)
    ensures b.One? ==> u == Some(b.user)
    ensures b.Many? ==> (u.Some? <==> b.users != [])
    ensures b.Many? && b.users != [] ==> u == Some(b.users[0])
  {
    match b
    case One(user) => Some(user)
    case Many(users) => if users == [] then None else Some(users[0])
  }

  /**
   A collaborator call. The auth calls record the `Authorization` header the
   interceptor attaches from the store as it is at that moment.
   */
  datatype Call =
    | StoreGet(key: string)
    | StoreSet(key: string, value: string)
    | StoreRemove(key: string)
    | AuthLogin(body: Credentials, authorization: Option<string>)
    | AuthMe(authorization: Option<string>)

  datatype AuthState = AuthState(token: Option<string>, user: Option<User>, loading: bool, store: Store)

  /** A transition: the state it ends in and the calls it made. */
  datatype Step = Step(state: AuthState, calls: seq<Call>)

  /** How `login` settles: it returns the response data or rethrows the error. */
  datatype LoginResult = Returned(data: Body) | Threw(fault: Fault)

  datatype LoginStep = LoginStep(step: Step, result: LoginResult)

  /** How `logout` settles: normally, or with the store's error. */
  datatype LogoutStep = LogoutStep(step: Step, fault: Option<Fault>)

  /** The hook's state when the component mounts. */
  function Mount(store: Store): (s: AuthState)
    ensures s.token.None? && s.user.None? && s.loading && s.store == store
  {
    AuthState(None, None, true, store)
  }

  /**
   The mount effect `init`: `read` is how `getItem` settles, `me` the reply of
   `authService.me`, `remove` how the clean-up `removeItem` settles.
   */
  function Init(s: AuthState, read: IoOutcome, me: Reply<MeBody>, remove: IoOutcome): (t: Step)
    ensures !t.state.loading
    ensures read.Throws? ==> t == Step(s.(token := None, user := None, loading := false), [StoreGet(TokenKey)])
    ensures read.Completes? && !Truthy(Get(s.store, TokenKey)) ==>
      t == Step(s.(loading := false), [StoreGet(TokenKey)])
    ensures read.Completes? && Truthy(Get(s.store, TokenKey)) && me.Resolved? ==>
      && t.state == s.(token := Some(s.store[TokenKey]), user := Profile(me.value), loading := false)
      && t.calls == [StoreGet(TokenKey), AuthMe(Some(BearerCredentials(s.store[TokenKey])))]
    ensures read.Completes? && Truthy(Get(s.store, TokenKey)) && me.Rejected? ==>
      && t.state.token.None? && t.state.user.None?
      && t.state.store == Storage.Remove(s.store, TokenKey, remove)
      && t.calls == [StoreGet(TokenKey), AuthMe(Some(BearerCredentials(s.store[TokenKey]))), StoreRemove(TokenKey)]
  {
    var get := [StoreGet(TokenKey)];
    if read.Throws? then
      Step(s.(token := None, user := None, loading := false), get)
    else
      var stored := Get(s.store, TokenKey);
      if !Truthy(stored) then
        Step(s.(loading := false), get)
      else
        var t := stored.value;
        var calls := get + [AuthMe(AuthorizationFor(s.store))];
        match me
        case Resolved(body) =>
          Step(s.(token := Some(t), user := Profile(body), loading := false), calls)
        case Rejected(_) =>
          // a failing removeItem lands in the outer catch, which clears the same two fields
          Step(AuthState(None, None, false, Storage.Remove(s.store, TokenKey, remove)), calls + [StoreRemove(TokenKey)])
  }

  /**
   `login(email, senha)`: `reply` is the reply of `authService.login`,
   `write` how storing the token settles, `me` the reply of the profile fetch.
   */
  function Login(s: AuthState, email: string, senha: string, reply: Reply<Body>, write: IoOutcome, me: Reply<MeBody>): (r: LoginStep)
    ensures !r.step.state.loading
    ensures var post := AuthLogin(Credentials(email, senha), AuthorizationFor(s.store));
      && (reply.Rejected? ==> r == LoginStep(Step(s.(loading := false), [post]), Threw(reply.fault)))
      && (reply.Resolved? && !Truthy(Field(reply.value, "token")) ==>
            r == LoginStep(Step(s.(loading := false), [post]), Returned(reply.value)))
      && (reply.Resolved? && Truthy(Field(reply.value, "token")) ==>
            var t := reply.value["token"];
            && (write.Throws? ==>
                  r == LoginStep(Step(s.(loading := false), [post, StoreSet(TokenKey, t)]), Threw(Fault(None))))
            && (write.Completes? ==>
                  && r.result == Returned(reply.value)
                  && r.step.state.token == Some(t)
                  && Get(r.step.state.store, TokenKey) == Some(t)
                  && (forall k | k != TokenKey :: Get(r.step.state.store, k) == Get(s.store, k))
                  && r.step.state.user == (if me.Resolved? then Profile(me.value) else None)
                  && r.step.calls == [post, StoreSet(TokenKey, t), AuthMe(Some(BearerCredentials(t)))]))
  {
    var calls := [AuthLogin(Credentials(email, senha), AuthorizationFor(s.store))];
    var idle := s.(loading := false);
    match reply
    case Rejected(f) => LoginStep(Step(idle, calls), Threw(f))
    case Resolved(data) =>
      var token := Field(data, "token");
      if !Truthy(token) then
        LoginStep(Step(idle, calls), Returned(data))
      else
        var t := token.value;
        var calls := calls + [StoreSet(TokenKey, t)];
        if write.Throws? then
          LoginStep(Step(idle, calls), Threw(Fault(None)))
        else
          var store := Storage.Set(s.store, TokenKey, t, write);
          var user := match me case Resolved(body) => Profile(body) case Rejected(_) => None;
          LoginStep(Step(AuthState(Some(t), user, false, store), calls + [AuthMe(AuthorizationFor(store))]), Returned(data))
  }

  /** `logout`: `remove` is how `removeItem` settles; its error propagates. */
  function Logout(s: AuthState, remove: IoOutcome): (r: LogoutStep)
    ensures r.step.calls == [StoreRemove(TokenKey)] && !r.step.state.loading
    ensures remove.Completes? ==>
      && r.fault.None?
      && r.step.state.token.None? && r.step.state.user.None?
      && Get(r.step.state.store, TokenKey).None?
      && (forall k | k != TokenKey :: Get(r.step.state.store, k) == Get(s.store, k))
    ensures remove.Throws? ==> r == LogoutStep(Step(s.(loading := false), r.step.calls), Some(Fault(None)))
  {
    var calls := [StoreRemove(TokenKey)];
    if remove.Completes? then
      LogoutStep(Step(AuthState(None, None, false, Storage.Remove(s.store, TokenKey, remove)), calls), None)
    else
      LogoutStep(Step(s.(loading := false), calls), Some(Fault(None)))
  }

  /** The in-memory token, when there is one, is the token the store holds. */
  predicate TokenMatchesStore(s: AuthState) {
    s.token.Some? ==> Get(s.store, TokenKey) == s.token
  }

  /** Every transition keeps the in-memory token in agreement with the store. */
  lemma TokenMatchesStoreInvariant(s: AuthState, email: string, senha: string, read: IoOutcome,
                                   reply: Reply<Body>, me: Reply<MeBody>, io: IoOutcome)
    requires TokenMatchesStore(s)
    ensures TokenMatchesStore(Init(s, read, me, io).state)
    ensures TokenMatchesStore(Login(s, email, senha, reply, io, me).step.state)
    ensures TokenMatchesStore(Logout(s, io).step.state)
  {
  }

  /** Restoring with nothing stored never asks the server and ends logged out. */
  lemma RestoreWithoutToken(store: Store, read: IoOutcome, me: Reply<MeBody>, remove: IoOutcome)
    requires TokenKey !in store
    ensures var t := Init(Mount(store), read, me, remove);
      && t.state == AuthState(None, None, false, store)
      && forall i | 0 <= i < |t.calls| :: !t.calls[i].AuthMe?
  {
  }

  /** Whatever `logout` started from, a later restore finds no token and stays logged out. */
  lemma LogoutThenRestore(s: AuthState, read: IoOutcome, me: Reply<MeBody>, remove: IoOutcome)
    ensures var out := Logout(s, Completes).step.state;
      && out.token.None? && out.user.None?
      && Init(Mount(out.store), read, me, remove).state.token.None?
      && Init(Mount(out.store), read, me, remove).calls == [StoreGet(TokenKey)]
  {
  }

  /** After a login that stored token `t`, every request carries `Bearer t`. */
  lemma LoginAuthorizesRequests(s: AuthState, email: string, senha: string, data: Body, me: Reply<MeBody>, config: Config)
    requires Truthy(Field(data, "token")) && config.headers.Some?
    ensures var after := Login(s, email, senha, Resolved(data), Completes, me).step.state;
      var r := Intercept(config, after.store, Completes);
      && r.Forward?
      && r.config.headers.value[AuthorizationName] == BearerCredentials(data["token"])
  {
  }
}
