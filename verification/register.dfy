/**
 The registration screen's submit handler (app/register.tsx): required
 fields, the e-mail check, the body posted to `/auth/register`, and the alert
 chosen for each reply.
 */
module Register {
  import opened Wrappers
  import opened Text
  import opened Http
  import opened Email

  /** The `{ nome, email, senha }` body posted to `/auth/register`. */
  datatype RegisterBody = RegisterBody(nome: string, email: string, senha: string)

  /** A resolved HTTP response: status code and body. */
  datatype Response = Response(status: int, data: Body)

  /**
   One press of "Registrar": the body posted (if any), the alert shown, the
   route the alert's OK button replaces the screen with (if any), and the
   busy flag afterwards.
   */
  datatype RegisterOutcome = RegisterOutcome(request: Option<RegisterBody>, alert: Alert, onOk: Option<string>, loading: bool)

  const MissingFields := Alert("Atenção", "Preencha todos os campos")
  const BadEmail := Alert("Atenção", "Por favor, insira um email válido")
  const Registered := Alert("Sucesso", "Usuário registrado com sucesso")
  const RegisterFallback := "Falha ao registrar usuário"
  const ConnectFallback := "Falha ao conectar com o servidor"

  /** Registration counts as done for these two statuses only. */
  predicate IsSuccessStatus(status: int) { status == 200 || status == 201 }

  /** The alert and OK route for the reply of the register request. */
  function Answer(reply: Reply<Response>): (r: (Alert, Option<string>))
    ensures r.1.Some? <==> reply.Resolved? && IsSuccessStatus(reply.value.status)
    ensures r.1.Some? ==> r == (Registered, Some("/login"))
    ensures reply.Resolved? && !IsSuccessStatus(reply.value.status) ==>
      r.0 == Alert("Erro", OrElse(Field(reply.value.data, "message"), RegisterFallback))
    ensures reply.Rejected? ==> r.0 == Alert("Erro", OrElse(FaultField(reply.fault, "message"), ConnectFallback))
  {
    match reply
    case Resolved(res) =>
      if IsSuccessStatus(res.status) then (Registered, Some("/login"))
      else (Alert("Erro", OrElse(Field(res.data, "message"), RegisterFallback)), None)
    case Rejected(f) =>
      (Alert("Erro", OrElse(FaultField(f, "message"), ConnectFallback)), None)
  }

  /** `handleRegister`, given the reply the register endpoint would give. */
  function HandleRegister(nome: string, email: string, senha: string, loading: bool, reply: Reply<Response>): (o: RegisterOutcome)
    ensures Trim(nome) == "" || Trim(email) == "" || senha == "" ==>
      o == RegisterOutcome(None, MissingFields, None, loading)
    ensures o.request.Some? <==>
      Trim(nome) != "" && Trim(email) != "" && senha != "" && IsValidEmail(Trim(email))
    ensures o.request.Some? ==> o.request.value == RegisterBody(Trim(nome), Trim(email), senha) && !o.loading
    ensures o.onOk.Some? <==> o.request.Some? && reply.Resolved? && IsSuccessStatus(reply.value.status)
    ensures o.request.None? ==> o.loading == loading && o.onOk.None?
    ensures Trim(nome) != "" && Trim(email) != "" && senha != "" && !IsValidEmail(Trim(email)) ==>
      o == RegisterOutcome(None, BadEmail, None, loading)
    ensures o.request.Some? ==> (o.alert, o.onOk) == Answer(reply)
  {
    var nomeTrim, emailTrim := Trim(nome), Trim(email);
    if nomeTrim == "" || emailTrim == "" || senha == "" then
      RegisterOutcome(None, MissingFields, None, loading)
    else if !IsValidEmail(emailTrim) then
      RegisterOutcome(None, BadEmail, None, loading)
    else
      var (alert, onOk) := Answer(reply);
      RegisterOutcome(Some(RegisterBody(nomeTrim, emailTrim, senha)), alert, onOk, false)
  }

  /** A posted e-mail is well formed: no whitespace, one `@`, a local part and a dotted domain. */
  lemma PostedEmailWellFormed(nome: string, email: string, senha: string, loading: bool, reply: Reply<Response>)
    requires HandleRegister(nome, email, senha, loading, reply).request.Some?
    ensures WellFormedEmail(HandleRegister(nome, email, senha, loading, reply).request.value.email)
  {
    ValidEmailOfTrimmed(email);
    PatternIffWellFormed(Trim(email));
  }

  /** Name and e-mail are trimmed; the password is posted exactly as typed, spaces included. */
  lemma PasswordNotTrimmed(reply: Reply<Response>)
    ensures HandleRegister("Ana", "a@b.com", " x ", false, reply).request == Some(RegisterBody("Ana", "a@b.com", " x "))
  {
    TrimmedExample("Ana");
    TrimmedExample("a@b.com");
    EmailAccepted();
  }

  lemma TrimmedExample(s: string)
    requires s != [] && !IsWhitespace(s[0]) && !IsWhitespace(s[|s| - 1])
    ensures Trim(s) == s
  {
  }
}
