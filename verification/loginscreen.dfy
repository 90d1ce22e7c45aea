/**
 The login screen's own submit handler (app/login.tsx). It posts the
 credentials itself and writes the token under the key the session hook
 reads, without going through the hook.
 */
module LoginScreen {
  import opened Wrappers
  import opened Text
  import opened Http
  import opened Storage
  import opened Api
  import Session

  /**
   One press of "Entrar": the credentials posted (if any), the store
   afterwards, the route the screen is replaced with (if any), the alert
   shown (if any), and the busy flag afterwards.
   */
  datatype ScreenOutcome = ScreenOutcome(
    request: Option<Credentials>,
    store: Store,
    navigate: Option<string>,
    alert: Option<Alert>,
    loading: bool)

  const MissingFields := Alert("Atenção", "Preencha todos os campos")
  const BadCredentials := Alert("Erro", "Credenciais inválidas")
  const ConnectFallback := "Falha ao conectar com o servidor"

  /**
   `handleLogin`: `reply` is the reply of `POST /auth/login` (its `data`),
   `write` how storing the token settles.
   */
  function HandleLogin(email: string, senha: string, loading: bool, store: Store, reply: Reply<Body>, write: IoOutcome): (o: ScreenOutcome)
    ensures email == "" || senha == "" ==> o == ScreenOutcome(None, store, None, Some(MissingFields), loading)
    ensures o.request.Some? <==> email != "" && senha != ""
    ensures o.request.Some? ==> o.request.value == Credentials(email, senha) && !o.loading
    ensures o.navigate.Some? <==>
      o.request.Some? && reply.Resolved? && Truthy(Field(reply.value, "token")) && write.Completes?
    ensures o.navigate.Some? ==>
      && o.navigate == Some("/vehiclelist") && o.alert.None?
      && o.store == store[TokenKey := reply.value["token"]]
    ensures o.navigate.None? ==> o.store == store
    ensures o.request.Some? && reply.Resolved? && !Truthy(Field(reply.value, "token")) ==> o.alert == Some(BadCredentials)
    ensures o.request.Some? && reply.Rejected? ==>
      o.alert == Some(Alert("Erro", OrElse(FaultField(reply.fault, "message"), ConnectFallback)))
    ensures o.request.Some? && reply.Resolved? && Truthy(Field(reply.value, "token")) && write.Throws? ==>
      o.alert == Some(Alert("Erro", ConnectFallback))
  {
    if email == "" || senha == "" then
      ScreenOutcome(None, store, None, Some(MissingFields), loading)
    else
      var posted := Some(Credentials(email, senha));
      match reply
      case Rejected(f) =>
        ScreenOutcome(posted, store, None, Some(Alert("Erro", OrElse(FaultField(f, "message"), ConnectFallback))), false)
      case Resolved(data) =>
        var token := Field(data, "token");
        if !Truthy(token) then
          ScreenOutcome(posted, store, None, Some(BadCredentials), false)
        else if write.Throws? then
          // the failed write is caught like a request error without a response
          ScreenOutcome(posted, store, None, Some(Alert("Erro", ConnectFallback)), false)
        else
          ScreenOutcome(posted, Storage.Set(store, TokenKey, token.value, write), Some("/vehiclelist"), None, false)
  }

  /** Unlike registration, the fields are not trimmed: a blank-looking password is posted as typed. */
  lemma FieldsNotTrimmed(store: Store, reply: Reply<Body>, write: IoOutcome)
    ensures HandleLogin(" a@b.com", "   ", false, store, reply, write).request == Some(Credentials(" a@b.com", "   "))
  {
  }

  /**
   The token the login screen stores is the one the session hook restores
   on the next mount and the one the interceptor sends.
   */
  lemma ScreenTokenIsRestored(email: string, senha: string, store: Store, data: Body, me: Session.MeBody, config: Config)
    requires email != "" && senha != "" && Truthy(Field(data, "token")) && config.headers.Some?
    ensures var after := HandleLogin(email, senha, false, store, Resolved(data), Completes).store;
      && Session.Init(Session.Mount(after), Completes, Resolved(me), Completes).state.token == Some(data["token"])
      && Intercept(config, after, Completes).config.headers.value[AuthorizationName] == BearerCredentials(data["token"])
  {
  }
}
