/** Accounts receivable: the settlement rule (`receive`) and the id-checked
    update and delete over the receivable table. */
module Receivables {
  import opened Common

  /** One stored account receivable (the row, without its id, which is the
      table key). Amounts are exact decimals. */
  datatype Receivable = Receivable(
    gsiItemId: Id,
    bankId: Id,
    personId: Id,
    origem: ReceivableOrigin,
    valorPrevisto: real,
    valorRecebido: real,
    valorGlosa: real,
    status: ReceivableStatus,
    dataPrevista: Timestamp,
    dataRecebimento: Option<Timestamp>,
    observacao: Option<string>)

  /** The body of a receive request: the amount received now, an optional
      denial ("glosa") amount, an optional receipt date and note. */
  datatype ReceiveInput = ReceiveInput(
    valorRecebido: real,
    valorGlosa: Option<real>,
    dataRecebimento: Option<Timestamp>,
    observacao: Option<string>)

  /** The body of an update request: every column optional; an absent one is
      left as stored. */
  datatype ReceivablePatch = ReceivablePatch(
    gsiItemId: Option<Id>,
    bankId: Option<Id>,
    personId: Option<Id>,
    origem: Option<ReceivableOrigin>,
    valorPrevisto: Option<real>,
    valorRecebido: Option<real>,
    valorGlosa: Option<real>,
    status: Option<ReceivableStatus>,
    dataPrevista: Option<Timestamp>,
    dataRecebimento: Option<Timestamp>,
    observacao: Option<string>)

  // ---------------------------------------------------------------------------
  // The settlement rule, as pure functions
  // ---------------------------------------------------------------------------

  /** The status a settlement leaves behind, chosen by priority: a positive
      denial wins over everything, then full receipt, then partial receipt. */
  function SettledStatus(received: real, glosa: real, expected: real): (s: ReceivableStatus)
    ensures s == Glosado <==> glosa > 0.0
    ensures s == Recebido <==> glosa <= 0.0 && received >= expected
    ensures s == Parcial <==> glosa <= 0.0 && received < expected && received > 0.0
    ensures s == ReceivableStatus.Aberto <==> glosa <= 0.0 && received < expected && received <= 0.0
  {
    if glosa > 0.0 then Glosado
    else if received >= expected then Recebido
    else if received > 0.0 then Parcial
    else ReceivableStatus.Aberto
  }

  /** The denial amount after a settlement: a given, non-zero input replaces the
      stored amount; an absent input or an input of 0 keeps it. */
  function NewGlosa(stored: real, input: Option<real>): (g: real)
    ensures input.Some? && input.value != 0.0 ==> g == input.value
    ensures input.None? || input.value == 0.0 ==> g == stored
  {
    if input.Some? && input.value != 0.0 then input.value else stored
  }

  /** Why a receive request is refused before anything is written, if it is. */
  function ReceiveGuard(r: Receivable): (e: Option<ServiceError>)
    ensures e == Some(AlreadyReceived) <==> r.status == Recebido && r.valorRecebido >= r.valorPrevisto
    ensures e == Some(GlosadoCannotReceive) <==> r.status == Glosado
    ensures e.None? <==> r.status != Glosado && !(r.status == Recebido && r.valorRecebido >= r.valorPrevisto)
  {
    if r.status == Recebido && r.valorRecebido >= r.valorPrevisto then Some(AlreadyReceived)
    else if r.status == Glosado then Some(GlosadoCannotReceive)
    else None
  }

  /** The record a successful receive writes back. */
  function Settle(r: Receivable, input: ReceiveInput, now: Timestamp): (s: Receivable)
  {
    var received := r.valorRecebido + input.valorRecebido;
    var glosa := NewGlosa(r.valorGlosa, input.valorGlosa);
    r.(valorRecebido := received,
       valorGlosa := glosa,
       status := SettledStatus(received, glosa, r.valorPrevisto),
       dataRecebimento := Some(OrElse(input.dataRecebimento, now)),
       observacao := Overwrite(input.observacao, r.observacao))
  }

  /** A receive request against one stored record. */
  function ReceiveStep(r: Receivable, input: ReceiveInput, now: Timestamp): Result<Receivable, ServiceError>
  {
    match ReceiveGuard(r)
    case Some(e) => Err(e)
    case None => Ok(Settle(r, input, now))
  }

  /** A receive request against the table. */
  function ReceiveOutcome(t: map<Id, Receivable>, id: Id, input: ReceiveInput, now: Timestamp): Result<Receivable, ServiceError>
  {
    if id !in t then Err(ReceivableNotFound) else ReceiveStep(t[id], input, now)
  }

  /** The status a record "should" have: the one settlement would compute from
      its own amounts. Settlement keeps it; create and update do not enforce it. */
  predicate StatusConsistent(r: Receivable)
  {
    r.status == SettledStatus(r.valorRecebido, r.valorGlosa, r.valorPrevisto)
  }

  /** The record `update` writes: every given column replaced, the rest kept. */
  function ApplyPatch(r: Receivable, p: ReceivablePatch): Receivable
  {
    Receivable(
      OrElse(p.gsiItemId, r.gsiItemId),
      OrElse(p.bankId, r.bankId),
      OrElse(p.personId, r.personId),
      OrElse(p.origem, r.origem),
      OrElse(p.valorPrevisto, r.valorPrevisto),
      OrElse(p.valorRecebido, r.valorRecebido),
      OrElse(p.valorGlosa, r.valorGlosa),
      OrElse(p.status, r.status),
      OrElse(p.dataPrevista, r.dataPrevista),
      Overwrite(p.dataRecebimento, r.dataRecebimento),
      Overwrite(p.observacao, r.observacao))
  }

  // ---------------------------------------------------------------------------
  // Properties of one settlement
  // ---------------------------------------------------------------------------

  /** A successful receive adds the input amount to the received total, writes
      the replacing denial amount, a receipt date and the note, recomputes the
      status from the new amounts, and touches no other column. */
  lemma SettleWrites(r: Receivable, input: ReceiveInput, now: Timestamp)
    ensures var s := Settle(r, input, now);
      && s.valorRecebido == r.valorRecebido + input.valorRecebido
      && s.valorGlosa == (if input.valorGlosa.Some? && input.valorGlosa.value != 0.0 then input.valorGlosa.value else r.valorGlosa)
      && s.dataRecebimento == (if input.dataRecebimento.Some? then input.dataRecebimento else Some(now))
      && s.observacao == (if input.observacao.Some? then input.observacao else r.observacao)
      && StatusConsistent(s)
      && s.valorPrevisto == r.valorPrevisto && s.origem == r.origem
      && s.gsiItemId == r.gsiItemId && s.bankId == r.bankId && s.personId == r.personId
      && s.dataPrevista == r.dataPrevista
  {
  }

  /** With a non-negative input the received amount never decreases. */
  lemma SettleReceivedMonotone(r: Receivable, input: ReceiveInput, now: Timestamp)
    requires input.valorRecebido >= 0.0
    ensures Settle(r, input, now).valorRecebido >= r.valorRecebido
  {
  }

  /** A denial overrides a full receipt: whenever the resulting denial amount is
      positive the record ends up GLOSADO, even if the received total covers the
      expected amount, and every later receive is refused. */
  lemma GlosaOverridesFullReceipt(r: Receivable, input: ReceiveInput, now: Timestamp, later: ReceiveInput, laterNow: Timestamp)
    requires input.valorGlosa.Some? && input.valorGlosa.value > 0.0
    ensures Settle(r, input, now).status == Glosado
    ensures ReceiveStep(Settle(r, input, now), later, laterNow) == Err(GlosadoCannotReceive)
  {
  }

  /** On a record whose status matches its amounts, receive is accepted exactly
      when there is no denial and the received total is still short. */
  lemma GuardOnConsistentRecord(r: Receivable)
    requires StatusConsistent(r)
    ensures ReceiveGuard(r).None? <==> r.valorGlosa <= 0.0 && r.valorRecebido < r.valorPrevisto
  {
  }

  /** A RECEBIDO record whose received total is still below the expected amount
      (possible after an update raised the expected amount) is accepted. */
  lemma ShortRecebidoIsAccepted(r: Receivable, input: ReceiveInput, now: Timestamp)
    requires r.status == Recebido && r.valorRecebido < r.valorPrevisto
    ensures ReceiveStep(r, input, now).Ok?
  {
  }

  // ---------------------------------------------------------------------------
  // Properties of a sequence of settlements
  // ---------------------------------------------------------------------------

  /** Successive receive requests against one record, stopping at the first
      refusal. */
  function ReceiveAll(r: Receivable, inputs: seq<ReceiveInput>, now: Timestamp): Result<Receivable, ServiceError>
    decreases |inputs|
  {
    if inputs == [] then Ok(r)
    else match ReceiveStep(r, inputs[0], now)
      case Err(e) => Err(e)
      case Ok(r') => ReceiveAll(r', inputs[1..], now)
  }

  /** The total of the amounts received over several requests. */
  function SumReceived(inputs: seq<ReceiveInput>): real
  {
    if inputs == [] then 0.0 else inputs[0].valorRecebido + SumReceived(inputs[1..])
  }

  /** The denial amount left after several requests: the last non-zero input,
      or the stored amount when no request gave one. */
  function LastGlosa(stored: real, inputs: seq<ReceiveInput>): real
    decreases |inputs|
  {
    if inputs == [] then stored else LastGlosa(NewGlosa(stored, inputs[0].valorGlosa), inputs[1..])
  }

  /** Received amounts accumulate additively, denial amounts replace, the
      expected amount is never touched and the final status is the one the
      final amounts determine. */
  lemma {:induction false} ReceiveAllAccumulates(r: Receivable, inputs: seq<ReceiveInput>, now: Timestamp)
    requires ReceiveAll(r, inputs, now).Ok?
    ensures var f := ReceiveAll(r, inputs, now).value;
      && f.valorRecebido == r.valorRecebido + SumReceived(inputs)
      && f.valorGlosa == LastGlosa(r.valorGlosa, inputs)
      && f.valorPrevisto == r.valorPrevisto
      && (inputs != [] ==> StatusConsistent(f))
    decreases |inputs|
  {
    if inputs != [] {
      var r' := Settle(r, inputs[0], now);
      ReceiveAllAccumulates(r', inputs[1..], now);
    }
  }

  /** With non-negative inputs the received amount never decreases over any
      run of successful requests. */
  lemma {:induction false} ReceiveAllMonotone(r: Receivable, inputs: seq<ReceiveInput>, now: Timestamp)
    requires forall i :: 0 <= i < |inputs| ==> inputs[i].valorRecebido >= 0.0
    requires ReceiveAll(r, inputs, now).Ok?
    ensures ReceiveAll(r, inputs, now).value.valorRecebido >= r.valorRecebido
    decreases |inputs|
  {
    if inputs != [] {
      ReceiveAllMonotone(Settle(r, inputs[0], now), inputs[1..], now);
    }
  }

  /** A GLOSADO record refuses every request, whatever its amounts, so a run
      of requests against it ends at the first one. */
  lemma GlosadoIsTerminal(r: Receivable, input: ReceiveInput, inputs: seq<ReceiveInput>, now: Timestamp)
    requires r.status == Glosado
    ensures ReceiveStep(r, input, now) == Err(GlosadoCannotReceive)
    ensures ReceiveAll(r, inputs, now) == if inputs == [] then Ok(r) else Err(GlosadoCannotReceive)
  {
  }

  /** Two partial payments on an open record of 200 leave 150 received and the
      record PARCIAL. */
  lemma TwoPartialReceipts(r: Receivable, now: Timestamp)
    requires r.status == ReceivableStatus.Aberto && r.valorPrevisto == 200.0
    requires r.valorRecebido == 0.0 && r.valorGlosa == 0.0
    ensures var inputs := [ReceiveInput(100.0, None, None, None), ReceiveInput(50.0, None, None, None)];
      && ReceiveAll(r, inputs, now).Ok?
      && ReceiveAll(r, inputs, now).value.valorRecebido == 150.0
      && ReceiveAll(r, inputs, now).value.status == Parcial
  {
    var inputs := [ReceiveInput(100.0, None, None, None), ReceiveInput(50.0, None, None, None)];
    assert inputs[1..] == [ReceiveInput(50.0, None, None, None)];
    assert inputs[1..][1..] == [];
  }

  /** Receiving the full amount without a denial makes the record RECEBIDO, and
      a further request is then refused as already received. */
  lemma FullReceiptThenRefused(r: Receivable, input: ReceiveInput, now: Timestamp, later: ReceiveInput)
    requires ReceiveGuard(r).None?
    requires r.valorGlosa <= 0.0 && (input.valorGlosa.None? || input.valorGlosa.value <= 0.0)
    requires r.valorRecebido + input.valorRecebido >= r.valorPrevisto
    ensures Settle(r, input, now).status == Recebido
    ensures ReceiveStep(Settle(r, input, now), later, now) == Err(AlreadyReceived)
  {
  }

  // ---------------------------------------------------------------------------
  // The stored table
  // ---------------------------------------------------------------------------

  /** The receivable table, keyed by id, updated in place by the service. */
  class ReceivableStore {
    var table: map<Id, Receivable>

    constructor (initial: map<Id, Receivable>)
      ensures table == initial
    {
      table := initial;
    }

    /** `findOne`: the stored record, or not-found. */
    method FindOne(id: Id) returns (res: Result<Receivable, ServiceError>)
      ensures res.Ok? <==> id in table
      ensures res.Ok? ==> res.value == table[id]
      ensures res.Err? ==> res.error == ReceivableNotFound
    {
      if id in table {
        res := Ok(table[id]);
      } else {
        res := Err(ReceivableNotFound);
      }
    }

    /** `update`: not-found when the id is missing, else the given columns are
        replaced and no other record changes. The status is written as given,
        not recomputed. */
    method Update(id: Id, patch: ReceivablePatch) returns (res: Result<Receivable, ServiceError>)
      modifies this
      ensures id !in old(table) ==> res == Err(ReceivableNotFound) && table == old(table)
      ensures id in old(table) ==>
                res == Ok(ApplyPatch(old(table)[id], patch)) && table == old(table)[id := res.value]
    {
      var found := FindOne(id);
      if found.Err? {
        return found;
      }
      var updated := ApplyPatch(found.value, patch);
      table := table[id := updated];
      res := Ok(updated);
    }

    /** `remove`: not-found when the id is missing, else exactly that record is
        deleted and returned. */
    method Remove(id: Id) returns (res: Result<Receivable, ServiceError>)
      modifies this
      ensures id !in old(table) ==> res == Err(ReceivableNotFound) && table == old(table)
      ensures id in old(table) ==> res == Ok(old(table)[id]) && table == old(table) - {id}
      ensures table.Keys == old(table).Keys - {id}
    {
      var found := FindOne(id);
      if found.Err? {
        return found;
      }
      table := table - {id};
      res := found;
    }

    /** `receive`: refuses a missing id, a fully received record and a denied
        record, changing nothing; otherwise writes the settled record back in
        place and leaves every other record as it was. */
    method Receive(id: Id, input: ReceiveInput, now: Timestamp) returns (res: Result<Receivable, ServiceError>)
      modifies this
      ensures res == ReceiveOutcome(old(table), id, input, now)
      ensures res == Err(ReceivableNotFound) <==> id !in old(table)
      ensures res.Err? ==> table == old(table)
      ensures res.Ok? ==> id in old(table) && table == old(table)[id := res.value]
      ensures res.Ok? ==> StatusConsistent(res.value)
      ensures table.Keys == old(table).Keys
    {
      var found := FindOne(id);
      if found.Err? {
        return found;
      }
      var account := found.value;
      if account.status == Recebido && account.valorRecebido >= account.valorPrevisto {
        return Err(AlreadyReceived);
      }
      if account.status == Glosado {
        return Err(GlosadoCannotReceive);
      }
      var newReceived := account.valorRecebido + input.valorRecebido;
      var glosa := if input.valorGlosa.Some? && input.valorGlosa.value != 0.0
                   then input.valorGlosa.value else account.valorGlosa;
      var expected := account.valorPrevisto;
      var newStatus: ReceivableStatus;
      if glosa > 0.0 {
        newStatus := Glosado;
      } else if newReceived >= expected {
        newStatus := Recebido;
      } else if newReceived > 0.0 {
        newStatus := Parcial;
      } else {
        newStatus := ReceivableStatus.Aberto;
      }
      var settled := account.(valorRecebido := newReceived,
                              valorGlosa := glosa,
                              status := newStatus,
                              dataRecebimento := Some(OrElse(input.dataRecebimento, now)),
                              observacao := Overwrite(input.observacao, account.observacao));
      table := table[id := settled];
      res := Ok(settled);
    }
  }
}
