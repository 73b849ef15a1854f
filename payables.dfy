/** Accounts payable: paying one payable and paying a batch of them. */
module Payables {
  import opened Common

  /** One stored account payable (the row without its id, the table key). */
  datatype Payable = Payable(
    gsiItemId: Id,
    bankId: Id,
    personId: Id,
    descricao: string,
    valor: real,
    dataVencimento: Timestamp,
    status: PayableStatus,
    dataPagamento: Option<Timestamp>,
    formaPagamento: Option<string>,
    observacao: Option<string>)

  /** The body of a pay request (shared by the batch request). */
  datatype PayInput = PayInput(
    dataPagamento: Option<Timestamp>,
    formaPagamento: Option<string>,
    observacao: Option<string>)

  /** The columns a payment writes: status PAGO, the payment date (the given
      one, else "now"), and the method and note when they are given. */
  function PaymentStamp(p: Payable, input: PayInput, now: Timestamp): Payable
  {
    p.(status := Pago,
       dataPagamento := Some(OrElse(input.dataPagamento, now)),
       formaPagamento := Overwrite(input.formaPagamento, p.formaPagamento),
       observacao := Overwrite(input.observacao, p.observacao))
  }

  /** Why `pay` refuses a stored record, if it does: only ABERTO may be paid. */
  function PayGuard(p: Payable): (e: Option<ServiceError>)
    ensures e.None? <==> p.status == PayableStatus.Aberto
    ensures e == Some(AlreadyPaid) <==> p.status == Pago
    ensures e == Some(CancelledCannotBePaid) <==> p.status == Cancelado
  {
    match p.status
    case Pago => Some(AlreadyPaid)
    case Cancelado => Some(CancelledCannotBePaid)
    case Aberto => None
  }

  /** `pay` against the table. */
  function PayOutcome(t: map<Id, Payable>, id: Id, input: PayInput, now: Timestamp): Result<Payable, ServiceError>
  {
    if id !in t then Err(PayableNotFound)
    else match PayGuard(t[id])
      case Some(e) => Err(e)
      case None => Ok(PaymentStamp(t[id], input, now))
  }

  /** The records a batch selects: listed ids that exist and are not cancelled. */
  function Eligible(t: map<Id, Payable>, ids: seq<Id>): (e: set<Id>)
    ensures forall id :: id in e <==> id in t && id in ids && t[id].status != Cancelado
  {
    set id | id in t && id in ids && t[id].status != Cancelado
  }

  /** The table after the batch's bulk update: every selected record stamped,
      every other record as it was. */
  function BatchPaid(t: map<Id, Payable>, ids: seq<Id>, input: PayInput, now: Timestamp): (u: map<Id, Payable>)
    ensures u.Keys == t.Keys
  {
    map id | id in t :: if id in ids && t[id].status != Cancelado then PaymentStamp(t[id], input, now) else t[id]
  }

  // ---------------------------------------------------------------------------
  // Properties
  // ---------------------------------------------------------------------------

  /** A successful `pay` turns an ABERTO record PAGO with a payment date, and
      writes no column other than status, date, method and note. */
  lemma PayWrites(t: map<Id, Payable>, id: Id, input: PayInput, now: Timestamp)
    requires PayOutcome(t, id, input, now).Ok?
    ensures var p := PayOutcome(t, id, input, now).value;
      && id in t && t[id].status == PayableStatus.Aberto
      && p.status == Pago
      && p.dataPagamento == Some(if input.dataPagamento.Some? then input.dataPagamento.value else now)
      && p.valor == t[id].valor && p.descricao == t[id].descricao
      && p.dataVencimento == t[id].dataVencimento
      && p.gsiItemId == t[id].gsiItemId && p.bankId == t[id].bankId && p.personId == t[id].personId
      && p.formaPagamento == (if input.formaPagamento.Some? then input.formaPagamento else t[id].formaPagamento)
      && p.observacao == (if input.observacao.Some? then input.observacao else t[id].observacao)
  {
  }

  /** Stamping twice with the same request is stamping once. */
  lemma StampIdempotent(p: Payable, input: PayInput, now: Timestamp)
    ensures PaymentStamp(PaymentStamp(p, input, now), input, now) == PaymentStamp(p, input, now)
  {
  }

  /** What the batch does record by record: selected records receive exactly
      the stamp `pay` writes (PAGO, the request's date, the given method and
      note) and keep every other column; cancelled records and unlisted
      records are untouched. */
  lemma BatchPaidRecords(t: map<Id, Payable>, ids: seq<Id>, input: PayInput, now: Timestamp, k: Id)
    requires k in t
    ensures var u := BatchPaid(t, ids, input, now);
      && (k in Eligible(t, ids) ==> u[k] == PaymentStamp(t[k], input, now))
      && (k in Eligible(t, ids) ==> u[k].status == Pago && u[k].dataPagamento == Some(OrElse(input.dataPagamento, now))
                                    && u[k].formaPagamento == (if input.formaPagamento.Some? then input.formaPagamento else t[k].formaPagamento)
                                    && u[k].observacao == (if input.observacao.Some? then input.observacao else t[k].observacao)
                                    && u[k].valor == t[k].valor && u[k].dataVencimento == t[k].dataVencimento
                                    && u[k].descricao == t[k].descricao && u[k].gsiItemId == t[k].gsiItemId
                                    && u[k].bankId == t[k].bankId && u[k].personId == t[k].personId)
      && (k !in Eligible(t, ids) ==> u[k] == t[k])
      && (t[k].status == Cancelado ==> u[k] == t[k])
  {
  }

  /** Unlike `pay`, the batch re-stamps a record that is already PAGO: `pay`
      refuses it, the batch overwrites its payment date. */
  lemma BatchRestampsPaid(t: map<Id, Payable>, id: Id, input: PayInput, now: Timestamp)
    requires id in t && t[id].status == Pago
    ensures PayOutcome(t, id, input, now) == Err(AlreadyPaid)
    ensures BatchPaid(t, [id], input, now)[id] == PaymentStamp(t[id], input, now)
    ensures BatchPaid(t, [id], input, now)[id].dataPagamento == Some(OrElse(input.dataPagamento, now))
  {
  }

  /** Running the same batch twice gives the table one run gives. */
  lemma BatchIdempotent(t: map<Id, Payable>, ids: seq<Id>, input: PayInput, now: Timestamp)
    ensures BatchPaid(BatchPaid(t, ids, input, now), ids, input, now) == BatchPaid(t, ids, input, now)
  {
    var once := BatchPaid(t, ids, input, now);
    var twice := BatchPaid(once, ids, input, now);
    forall k | k in t
      ensures twice[k] == once[k]
    {
      StampIdempotent(t[k], input, now);
    }
  }

  /** Listing one more id stamps that record, unless it is cancelled; a record
      already stamped by an earlier occurrence keeps its stamp. */
  lemma BatchPaidStep(t: map<Id, Payable>, ids: seq<Id>, i: nat, input: PayInput, now: Timestamp)
    requires i < |ids|
    ensures var before := BatchPaid(t, ids[..i], input, now);
      var id := ids[i];
      BatchPaid(t, ids[..i + 1], input, now)
        == if id in before && before[id].status != Cancelado then before[id := PaymentStamp(before[id], input, now)] else before
  {
    assert ids[..i + 1] == ids[..i] + [ids[i]];
    forall k | k in t
      ensures PaymentStamp(PaymentStamp(t[k], input, now), input, now) == PaymentStamp(t[k], input, now)
    {
      StampIdempotent(t[k], input, now);
    }
  }

  /** Paying the listed ids one at a time with `pay`, ignoring refusals. */
  function PayEach(t: map<Id, Payable>, ids: seq<Id>, input: PayInput, now: Timestamp): map<Id, Payable>
    decreases |ids|
  {
    if ids == [] then t
    else
      var t' := match PayOutcome(t, ids[0], input, now)
                case Ok(p) => t[ids[0] := p]
                case Err(_) => t;
      PayEach(t', ids[1..], input, now)
  }

  /** Every listed PAGO record already carries exactly this request's stamp
      (vacuous when no listed record is PAGO). */
  predicate StampedWhenPaid(t: map<Id, Payable>, ids: seq<Id>, input: PayInput, now: Timestamp)
  {
    forall k :: k in t && k in ids && t[k].status == Pago ==> PaymentStamp(t[k], input, now) == t[k]
  }

  /** The bulk update is the same as paying the listed ids one by one with
      `pay` and skipping the refused ones, as long as no listed record is
      already PAGO under a different stamp (those the batch re-stamps and
      `pay` refuses). */
  lemma {:induction false} BatchIsPayEach(t: map<Id, Payable>, ids: seq<Id>, input: PayInput, now: Timestamp)
    requires StampedWhenPaid(t, ids, input, now)
    ensures PayEach(t, ids, input, now) == BatchPaid(t, ids, input, now)
    decreases |ids|
  {
    if ids != [] {
      var x, rest := ids[0], ids[1..];
      var t' := match PayOutcome(t, x, input, now)
                case Ok(p) => t[x := p]
                case Err(_) => t;
      assert forall k :: k in ids <==> k == x || k in rest;
      assert StampedWhenPaid(t', rest, input, now) by {
        forall k | k in t' && k in rest && t'[k].status == Pago
          ensures PaymentStamp(t'[k], input, now) == t'[k]
        {
          if k == x && x in t && t[x].status == PayableStatus.Aberto {
            StampIdempotent(t[x], input, now);
          }
        }
      }
      BatchIsPayEach(t', rest, input, now);
      var lhs := BatchPaid(t', rest, input, now);
      var rhs := BatchPaid(t, ids, input, now);
      assert lhs.Keys == rhs.Keys;
      forall k | k in t
        ensures lhs[k] == rhs[k]
      {
        if k == x {
          StampIdempotent(t[x], input, now);
        }
      }
    }
  }

  // ---------------------------------------------------------------------------
  // The stored table
  // ---------------------------------------------------------------------------

  /** The payable table, keyed by id, updated in place by the service. */
  class PayableStore {
    var table: map<Id, Payable>

    constructor (initial: map<Id, Payable>)
      ensures table == initial
    {
      table := initial;
    }

    /** `findOne`: the stored record, or not-found. */
    method FindOne(id: Id) returns (res: Result<Payable, ServiceError>)
      ensures res.Ok? <==> id in table
      ensures res.Ok? ==> res.value == table[id]
      ensures res.Err? ==> res.error == PayableNotFound
    {
      if id in table {
        res := Ok(table[id]);
      } else {
        res := Err(PayableNotFound);
      }
    }

    /** `pay`: refuses a missing, PAGO or CANCELADO record and changes nothing;
        otherwise stamps the ABERTO record in place. */
    method Pay(id: Id, input: PayInput, now: Timestamp) returns (res: Result<Payable, ServiceError>)
      modifies this
      ensures res == PayOutcome(old(table), id, input, now)
      ensures res == Err(PayableNotFound) <==> id !in old(table)
      ensures res.Err? ==> table == old(table)
      ensures res.Ok? ==> id in old(table) && old(table)[id].status == PayableStatus.Aberto
                          && res.value.status == Pago && table == old(table)[id := res.value]
    {
      var found := FindOne(id);
      if found.Err? {
        return found;
      }
      var account := found.value;
      if account.status == Pago {
        return Err(AlreadyPaid);
      }
      if account.status == Cancelado {
        return Err(CancelledCannotBePaid);
      }
      var paid := PaymentStamp(account, input, now);
      table := table[id := paid];
      res := Ok(paid);
    }

    /** `payBatch`: refuses, changing nothing, when no listed id names a record
        that is not cancelled; otherwise stamps every such record in one bulk
        update and answers how many records it updated. */
    method PayBatch(ids: seq<Id>, input: PayInput, now: Timestamp) returns (res: Result<nat, ServiceError>)
      modifies this
      ensures res.Err? <==> Eligible(old(table), ids) == {}
      ensures res.Err? ==> res.error == NoValidAccount && table == old(table)
      ensures res.Ok? ==> res.value == |Eligible(old(table), ids)| && res.value > 0
                          && table == BatchPaid(old(table), ids, input, now)
    {
      var eligible := Eligible(table, ids);
      if eligible == {} {
        return Err(NoValidAccount);
      }
      ghost var t0 := table;
      var paidAt := OrElse(input.dataPagamento, now);
      for i := 0 to |ids|
        invariant table == BatchPaid(t0, ids[..i], input, now)
      {
        var id := ids[i];
        if id in table && table[id].status != Cancelado {
          table := table[id := PaymentStamp(table[id], PayInput(Some(paidAt), input.formaPagamento, input.observacao), now)];
        }
        BatchPaidStep(t0, ids, i, input, now);
      }
      assert ids[..|ids|] == ids;
      res := Ok(|eligible|);
    }
  }
}
