/**
 The vehicle search modal (components/ui/SearchModal.tsx): a trimmed query is
 classified as a numeric id or a seven-character plate, routed to the matching
 lookup, and its result shown in exactly one of two slots.
 */
module Search {
  import opened Wrappers
  import opened Text
  import opened Pattern
  import opened Http

  /** `VehicleRecord` of services/vehicleService.ts; `valorPago` is a JSON number. */
  datatype VehicleRecord = VehicleRecord(
    placa: string,
    dataEntrada: string,
    horarioEntrada: string,
    dataSaida: Option<string>,
    horarioSaida: Option<string>,
    valorPago: Option<real>)

  /** The two lookups of the vehicle service the modal can call. */
  datatype Lookup = GetById(id: string) | GetByPlate(plate: string)

  /** The modal's state: the typed query, the busy flag, the single-record slot and the list slot. */
  datatype SearchState = SearchState(
    query: string,
    loading: bool,
    single: Option<VehicleRecord>,
    list: Option<seq<VehicleRecord>>)

  /** One press of "Buscar": the state afterwards, the lookup made (if any), the alert shown (if any). */
  datatype SearchOutcome = SearchOutcome(state: SearchState, call: Option<Lookup>, alert: Option<Alert>)

  const EmptyQuery := Alert("Atenção", "Digite um id ou placa para buscar.")
  const BadFormat := Alert("Formato inválido", "Digite apenas números para ID ou 7 caracteres alfanuméricos para placa.")
  const SearchFallback := "Erro ao buscar veículo."

  /** `/^\d+$/` */
  predicate IsId(q: string) { MatchesOneOrMore(q, Digit) }

  /** `/^[A-Za-z0-9]{7}$/` */
  predicate IsPlateQuery(q: string) { MatchesExactly(q, Repeat(Alnum, 7)) }

  /** The two regular expressions, read as plain conditions on the query. */
  lemma ClassifierMeaning(q: string)
    ensures IsId(q) <==> q != "" && forall i | 0 <= i < |q| :: IsAsciiDigit(q[i])
    ensures IsPlateQuery(q) <==> |q| == 7 && forall i | 0 <= i < |q| :: IsAsciiAlnum(q[i])
  {
  }

  /** Which lookup a trimmed, non-empty query leads to: the id branch is tried first. */
  function Route(q: string): (l: Option<Lookup>)
    ensures l.None? <==> !IsId(q) && !IsPlateQuery(q)
    ensures l.Some? && l.value.GetByPlate? ==> !IsId(q) && IsPlateQuery(q)
    ensures IsId(q) ==> l == Some(GetById(q))
    ensures !IsId(q) && IsPlateQuery(q) ==> l == Some(GetByPlate(ToUpper(q)))
  {
    if IsId(q) then Some(GetById(q))
    else if IsPlateQuery(q) then Some(GetByPlate(ToUpper(q)))
    else None
  }

  /** `clearResults` */
  function ClearResults(s: SearchState): (t: SearchState)
    ensures t.single.None? && t.list.None?
    ensures t.query == s.query && t.loading == s.loading
  {
    s.(single := None, list := None)
  }

  /** The alert text of a failed lookup: the server's `mensagem` when present. */
  function SearchFailureMessage(f: Fault): (m: string)
    ensures Truthy(FaultField(f, "mensagem")) ==> m == FaultField(f, "mensagem").value
    ensures !Truthy(FaultField(f, "mensagem")) ==> m == SearchFallback
  {
    OrElse(FaultField(f, "mensagem"), SearchFallback)
  }

  /** The same text as the source computes it, reading the field `mensage`. */
  function SearchFailureMessageAsWritten(f: Fault): (m: string)
    ensures Truthy(FaultField(f, "mensage")) ==> m == FaultField(f, "mensage").value
    ensures !Truthy(FaultField(f, "mensage")) ==> m == SearchFallback
  {
    OrElse(FaultField(f, "mensage"), SearchFallback)
  }

  /** A backend error carrying `mensagem`, the field the vehicle endpoints answer with, is hidden as written. */
  lemma SearchMessageFieldTypo()
    ensures var f := Fault(Some(map["mensagem" := "Veículo não encontrado"]));
      && SearchFailureMessageAsWritten(f) == SearchFallback
      && SearchFailureMessage(f) == "Veículo não encontrado"
  {
  }

  /**
   Puts the reply of `call` into its slot; `loading` ends false. A rejected
   lookup alerts the text line 63 of the modal computes, read from `mensage`.
   */
  function Settle(cleared: SearchState, call: Lookup, byId: Reply<VehicleRecord>, byPlate: Reply<seq<VehicleRecord>>): (o: SearchOutcome)
    requires cleared.single.None? && cleared.list.None?
    ensures o.call == Some(call) && !o.state.loading && o.state.query == cleared.query
    ensures o.state.single.None? || o.state.list.None?
    ensures call.GetById? ==> o.state.list.None?
    ensures call.GetByPlate? ==> o.state.single.None?
    ensures call.GetById? && byId.Resolved? ==> o.state.single == Some(byId.value) && o.alert.None?
    ensures call.GetById? && byId.Rejected? ==>
      o.state.single.None? && o.alert == Some(Alert("Erro", SearchFailureMessageAsWritten(byId.fault)))
    ensures call.GetByPlate? && byPlate.Resolved? ==> o.state.list == Some(byPlate.value) && o.alert.None?
    ensures call.GetByPlate? && byPlate.Rejected? ==>
      o.state.list.None? && o.alert == Some(Alert("Erro", SearchFailureMessageAsWritten(byPlate.fault)))
  {
    var done := cleared.(loading := false);
    match call
    case GetById(_) =>
      (match byId
       case Resolved(r) => SearchOutcome(done.(single := Some(r)), Some(call), None)
       case Rejected(f) => SearchOutcome(done, Some(call), Some(Alert("Erro", SearchFailureMessageAsWritten(f)))))
    case GetByPlate(_) =>
      (match byPlate
       case Resolved(rs) => SearchOutcome(done.(list := Some(rs)), Some(call), None)
       case Rejected(f) => SearchOutcome(done, Some(call), Some(Alert("Erro", SearchFailureMessageAsWritten(f)))))
  }

  /**
   `validateAndSearch`, given the replies the two lookups would give (only the
   one the query is routed to is consulted).
   */
  function ValidateAndSearch(s: SearchState, byId: Reply<VehicleRecord>, byPlate: Reply<seq<VehicleRecord>>): (o: SearchOutcome)
    ensures Trim(s.query) == "" ==> o == SearchOutcome(s, None, Some(EmptyQuery))
    ensures o.call.None? <==> Trim(s.query) == "" || (!IsId(Trim(s.query)) && !IsPlateQuery(Trim(s.query)))
    ensures o.call.None? ==> o.state == s
    ensures o.call.Some? ==> !o.state.loading && (o.state.single.None? || o.state.list.None?)
    ensures o.state.query == s.query
    ensures o.call.Some? ==> o.call == Route(Trim(s.query))
    ensures var q := Trim(s.query); q != "" && !IsId(q) && !IsPlateQuery(q) ==> o == SearchOutcome(s, None, Some(BadFormat))
    ensures var q := Trim(s.query); q != "" && IsId(q) ==>
      && o.call == Some(GetById(q))
      && (byId.Resolved? ==> o.state.single == Some(byId.value) && o.state.list.None? && o.alert.None?)
      && (byId.Rejected? ==> o.state.single.None? && o.state.list.None?
                             && o.alert == Some(Alert("Erro", SearchFailureMessageAsWritten(byId.fault))))
    ensures var q := Trim(s.query); q != "" && !IsId(q) && IsPlateQuery(q) ==>
      && o.call == Some(GetByPlate(ToUpper(q)))
      && (byPlate.Resolved? ==> o.state.list == Some(byPlate.value) && o.state.single.None? && o.alert.None?)
      && (byPlate.Rejected? ==> o.state.single.None? && o.state.list.None?
                                && o.alert == Some(Alert("Erro", SearchFailureMessageAsWritten(byPlate.fault))))
  {
    var q := Trim(s.query);
    if q == "" then SearchOutcome(s, None, Some(EmptyQuery))
    else
      match Route(q)
      case None => SearchOutcome(s, None, Some(BadFormat))
      case Some(call) => Settle(ClearResults(s), call, byId, byPlate)
  }

  /**
   As written, a rejected id lookup whose error body carries the server's text
   under `mensagem` alerts only the fallback, whatever that text is.
   */
  lemma SearchHidesServerText(s: SearchState, text: string, byPlate: Reply<seq<VehicleRecord>>)
    requires var q := Trim(s.query); q != "" && IsId(q)
    ensures var f := Fault(Some(map["mensagem" := text]));
      && ValidateAndSearch(s, Rejected(f), byPlate).alert == Some(Alert("Erro", SearchFallback))
      && (text != "" ==> SearchFailureMessage(f) == text)
  {
  }

  /** The close button: both slots cleared and the query reset. */
  function Close(s: SearchState): (t: SearchState)
    ensures t.single.None? && t.list.None? && t.query == ""
    ensures t.loading == s.loading
  {
    ClearResults(s).(query := "")
  }

  /** At most one of the two result slots is filled. */
  predicate AtMostOneResult(s: SearchState) {
    s.single.None? || s.list.None?
  }

  /** Every search and every close keeps at most one slot filled. */
  lemma AtMostOneResultInvariant(s: SearchState, byId: Reply<VehicleRecord>, byPlate: Reply<seq<VehicleRecord>>)
    requires AtMostOneResult(s)
    ensures AtMostOneResult(ValidateAndSearch(s, byId, byPlate).state)
    ensures AtMostOneResult(Close(s))
  {
  }

  /** A query refused by either guard makes no lookup and leaves the results as they were. */
  lemma RejectedQueryMakesNoCall(s: SearchState, byId: Reply<VehicleRecord>, byPlate: Reply<seq<VehicleRecord>>)
    requires var q := Trim(s.query); !IsId(q) && !IsPlateQuery(q)
    ensures ValidateAndSearch(s, byId, byPlate).call.None?
    ensures ValidateAndSearch(s, byId, byPlate).state == s
    ensures ValidateAndSearch(s, byId, byPlate).alert in {Some(EmptyQuery), Some(BadFormat)}
  {
  }

  /** Seven digits satisfy both classifiers and go to the id lookup, unchanged. */
  lemma SevenDigitsRouteToId(s: SearchState, byId: Reply<VehicleRecord>, byPlate: Reply<seq<VehicleRecord>>)
    requires var q := Trim(s.query); |q| == 7 && forall i | 0 <= i < 7 :: IsAsciiDigit(q[i])
    ensures IsId(Trim(s.query)) && IsPlateQuery(Trim(s.query))
    ensures ValidateAndSearch(s, byId, byPlate).call == Some(GetById(Trim(s.query)))
    ensures ValidateAndSearch(s, byId, byPlate).state.list.None?
  {
  }

  /** A plate query is looked up upper-cased: seven characters, each an upper-case letter or a digit. */
  lemma PlateQueryUpperCased(s: SearchState, byId: Reply<VehicleRecord>, byPlate: Reply<seq<VehicleRecord>>)
    requires var q := Trim(s.query); !IsId(q) && IsPlateQuery(q)
    ensures var o := ValidateAndSearch(s, byId, byPlate);
      && o.call == Some(GetByPlate(ToUpper(Trim(s.query))))
      && |o.call.value.plate| == 7
      && (forall i | 0 <= i < 7 :: IsAsciiUpper(o.call.value.plate[i]) || IsAsciiDigit(o.call.value.plate[i]))
      && o.state.single.None?
  {
  }
}
