/**
 The entry and exit handlers of the bottom navigation bar
 (components/ui/BottomNavbar.tsx): which guard rejects which input, what
 reaches the vehicle service, and what the bar looks like afterwards.
 */
module Navbar {
  import opened Wrappers
  import opened Text
  import opened Plate
  import opened Http

  /** The bar's own state: the plate being typed, the two modals, the busy flag. */
  datatype NavbarState = NavbarState(plateInput: string, entryVisible: bool, exitVisible: bool, loading: bool)

  /**
   What one press of a handler does: the state afterwards, the plate sent to
   the vehicle service (`None` when no request is made), the alert shown,
   and whether `onRefresh` was called.
   */
  datatype Outcome = Outcome(state: NavbarState, request: Option<string>, alert: Alert, refreshed: bool)

  const MissingPlate := Alert("Erro", "Informe a placa do veículo.")
  const NotAuthenticated := Alert("Erro", "Usuário não autenticado.")
  const InvalidPlate := Alert("Erro", "Placa inválida. Use AAA-1234 ou AAA1A23.")

  /** The texts shown when the service answers without a `mensagem` of its own. */
  function DoneText(isEntry: bool): string {
    if isEntry then "Entrada registrada." else "Saída registrada."
  }

  function FailedText(isEntry: bool): string {
    if isEntry then "Não foi possível liberar a entrada." else "Não foi possível liberar a saída."
  }

  /** The guards both handlers run first, in order: a blank input, then a missing token. */
  function CommonGuard(input: string, token: Option<string>): (a: Option<Alert>)
    ensures a == None <==> Trim(input) != "" && Truthy(token)
  {
    if Trim(input) == "" then Some(MissingPlate)
    else if !Truthy(token) then Some(NotAuthenticated)
    else None
  }

  /** A handler that returned at a guard: nothing changes, nothing is sent. */
  function Refuse(s: NavbarState, a: Alert): Outcome {
    Outcome(s, None, a, false)
  }

  /**
   The `try`/`catch`/`finally` after the guards: on success the modal closes,
   the input is cleared and the list refreshed; on failure only the alert
   changes. `loading` is false either way.
   */
  function Settle(s: NavbarState, payload: string, reply: Reply<Body>, isEntry: bool): (o: Outcome)
    ensures o.request == Some(payload) && !o.state.loading
    ensures o.refreshed <==> reply.Resolved?
    ensures reply.Resolved? ==> o.state.plateInput == "" && (if isEntry then !o.state.entryVisible else !o.state.exitVisible)
    ensures reply.Resolved? ==>
      && o.state == (if isEntry then s.(entryVisible := false) else s.(exitVisible := false)).(plateInput := "", loading := false)
      && o.alert == Alert("Sucesso", OrElse(Field(reply.value, "mensagem"), DoneText(isEntry)))
    ensures reply.Rejected? ==>
      && o.state == s.(loading := false)
      && o.alert == Alert("Erro", OrElse(FaultField(reply.fault, "mensagem"), FailedText(isEntry)))
  {
    match reply
    case Resolved(body) =>
      var text := OrElse(Field(body, "mensagem"), DoneText(isEntry));
      var closed := if isEntry then s.(entryVisible := false) else s.(exitVisible := false);
      Outcome(closed.(plateInput := "", loading := false), Some(payload), Alert("Sucesso", text), true)
    case Rejected(f) =>
      var text := OrElse(FaultField(f, "mensagem"), FailedText(isEntry));
      Outcome(s.(loading := false), Some(payload), Alert("Erro", text), false)
  }

  /** `handleEntry` given the reply the entry endpoint would give. */
  function HandleEntry(s: NavbarState, token: Option<string>, reply: Reply<Body>): (o: Outcome)
    ensures Trim(s.plateInput) == "" ==> o == Refuse(s, MissingPlate)
    ensures Trim(s.plateInput) != "" && !Truthy(token) ==> o == Refuse(s, NotAuthenticated)
    ensures o.request.Some? <==> Trim(s.plateInput) != "" && Truthy(token) && IsPlateValid(s.plateInput)
    ensures o.request.Some? ==> o.request.value == NormalizePlate(s.plateInput) && PlateShape(o.request.value)
    ensures o.request.None? ==> o.state == s && !o.refreshed
    ensures o.refreshed ==> o.state.plateInput == "" && !o.state.entryVisible
    ensures Trim(s.plateInput) != "" && Truthy(token) && !IsPlateValid(s.plateInput) ==> o == Refuse(s, InvalidPlate)
    ensures o.request.Some? ==> o == Settle(s, o.request.value, reply, true)
  {
    match CommonGuard(s.plateInput, token)
    case Some(a) => Refuse(s, a)
    case None =>
      if !IsPlateValid(s.plateInput) then Refuse(s, InvalidPlate)
      else
        ValidIffShape(s.plateInput);
        Settle(s, NormalizePlate(s.plateInput), reply, true)
  }

  /** `handleExit`: the same two guards, no format check, and the raw input upper-cased as payload. */
  function HandleExit(s: NavbarState, token: Option<string>, reply: Reply<Body>): (o: Outcome)
    ensures Trim(s.plateInput) == "" ==> o == Refuse(s, MissingPlate)
    ensures Trim(s.plateInput) != "" && !Truthy(token) ==> o == Refuse(s, NotAuthenticated)
    ensures o.request.Some? <==> Trim(s.plateInput) != "" && Truthy(token)
    ensures o.request.Some? ==> o.request.value == ToUpper(s.plateInput)
    ensures o.request.None? ==> o.state == s && !o.refreshed
    ensures o.refreshed ==> o.state.plateInput == "" && !o.state.exitVisible
    ensures o.request.Some? ==> o == Settle(s, o.request.value, reply, false)
  {
    match CommonGuard(s.plateInput, token)
    case Some(a) => Refuse(s, a)
    case None => Settle(s, ToUpper(s.plateInput), reply, false)
  }

  /**
   The exit payload keeps every separator and every non-letter in place, yet
   normalises to the very plate the entry handler would have sent.
   */
  lemma ExitPayloadKeepsSeparators(s: NavbarState, token: Option<string>, reply: Reply<Body>)
    requires Trim(s.plateInput) != "" && Truthy(token)
    ensures HandleExit(s, token, reply).request.Some?
    ensures var p := HandleExit(s, token, reply).request.value;
      && |p| == |s.plateInput|
      && (forall i | 0 <= i < |p| :: !IsAsciiLetter(s.plateInput[i]) ==> p[i] == s.plateInput[i])
      && NormalizePlate(p) == NormalizePlate(s.plateInput)
  {
    var q := s.plateInput;
    CaseIgnored(ToUpper(q), q);
  }

  /** Whitespace-only input is refused before the token is looked at, whatever the token. */
  lemma BlankInputRefusedFirst(s: NavbarState, token: Option<string>, reply: Reply<Body>)
    requires forall i | 0 <= i < |s.plateInput| :: IsWhitespace(s.plateInput[i])
    ensures HandleEntry(s, token, reply).alert == MissingPlate
    ensures HandleExit(s, token, reply).alert == MissingPlate
    ensures HandleEntry(s, token, reply).request.None? && HandleExit(s, token, reply).request.None?
  {
  }

  /** `"abc-1234"` leaves as `"ABC-1234"`... */
  lemma ExitExample(reply: Reply<Body>)
    ensures HandleExit(NavbarState("abc-1234", false, true, false), Some("t"), reply).request == Some("ABC-1234")
  {
    NotBlank("abc-1234");
    ExitUpperCaseExample();
  }

  /** ...while entry sends `"ABC1234"`. */
  lemma EntryExample(reply: Reply<Body>)
    ensures HandleEntry(NavbarState("abc-1234", true, false, false), Some("t"), reply).request == Some("ABC1234")
  {
    NotBlank("abc-1234");
    ExampleSeparatorAndCase();
  }

  lemma ExitUpperCaseExample()
    ensures ToUpper("abc-1234") == "ABC-1234"
  {
  }

  /** Exit does not validate: `"AB1234"` is sent by exit... */
  lemma ExitSkipsValidation(reply: Reply<Body>)
    ensures HandleExit(NavbarState("AB1234", false, true, false), Some("t"), reply).request == Some("AB1234")
  {
    NotBlank("AB1234");
    ToUpperFixed("AB1234");
  }

  /** ...and refused by entry. */
  lemma EntryRefusesShortPlate(reply: Reply<Body>)
    ensures HandleEntry(NavbarState("AB1234", true, false, false), Some("t"), reply).alert == InvalidPlate
  {
  }

  lemma NotBlank(q: string)
    requires q != [] && !IsWhitespace(q[0])
    ensures Trim(q) != ""
  {
  }
}
