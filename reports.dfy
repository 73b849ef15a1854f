/** The report queries: filtered and ordered listings of payables and
    receivables, and the cash-flow totals. Everything here reads the tables
    (given as the sequences of their rows) and changes nothing. */
module Reports {
  import opened Common
  import opened Payables
  import opened Receivables

  // ---------------------------------------------------------------------------
  // Filters
  // ---------------------------------------------------------------------------

  /** Optional inclusive date bounds from the query string. */
  datatype DateRange = DateRange(start: Option<Timestamp>, end: Option<Timestamp>)

  /** The date clause is only added to a query when some bound is given. */
  predicate HasBounds(r: DateRange)
  {
    r.start.Some? || r.end.Some?
  }

  /** `{ gte: start, lte: end }` on a nullable column: a missing bound does not
      restrict, and a null column never satisfies a comparison. */
  predicate WithinRange(d: Option<Timestamp>, r: DateRange)
  {
    d.Some?
    && (r.start.Some? ==> r.start.value <= d.value)
    && (r.end.Some? ==> d.value <= r.end.value)
  }

  /** A date condition as the queries build it: no condition without bounds. */
  predicate DateClause(d: Option<Timestamp>, r: DateRange)
  {
    !HasBounds(r) || WithinRange(d, r)
  }

  /** `...(filter && { column: filter })`: an absent filter keeps everything. */
  predicate Matches<T(==)>(filter: Option<T>, value: T)
  {
    filter.None? || filter.value == value
  }

  /** `Array.prototype.filter`: the elements that pass, in their order. */
  function Filter<T(!new)>(s: seq<T>, keep: T -> bool): (r: seq<T>)
    ensures |r| <= |s|
    ensures forall x :: x in r <==> x in s && keep(x)
    ensures multiset(r) <= multiset(s)
    decreases |s|
  {
    if s == [] then []
    else
      var init := s[..|s| - 1];
      var last := s[|s| - 1];
      assert s == init + [last];
      Filter(init, keep) + (if keep(last) then [last] else [])
  }

  /** Filtering with two tests that agree on every element gives the same. */
  lemma {:induction false} FilterAgrees<T(!new)>(s: seq<T>, f: T -> bool, g: T -> bool)
    requires forall x :: x in s ==> f(x) == g(x)
    ensures Filter(s, f) == Filter(s, g)
    decreases |s|
  {
    if s != [] {
      FilterAgrees(s[..|s| - 1], f, g);
    }
  }

  // ---------------------------------------------------------------------------
  // Sums
  // ---------------------------------------------------------------------------

  /** `reduce((sum, x) => sum + amount(x), 0)`. */
  function SumOf<T>(s: seq<T>, amount: T -> real): real
    decreases |s|
  {
    if s == [] then 0.0 else SumOf(s[..|s| - 1], amount) + amount(s[|s| - 1])
  }

  /** A sum splits into the part a test selects and the part it rejects. */
  lemma {:induction false} SumSplits<T(!new)>(s: seq<T>, amount: T -> real, keep: T -> bool, drop: T -> bool)
    requires forall x :: drop(x) == !keep(x)
    ensures SumOf(s, amount) == SumOf(Filter(s, keep), amount) + SumOf(Filter(s, drop), amount)
    decreases |s|
  {
    if s != [] {
      var init, last := s[..|s| - 1], s[|s| - 1];
      SumSplits(init, amount, keep, drop);
      SumAppend(Filter(init, keep), if keep(last) then [last] else [], amount);
      SumAppend(Filter(init, drop), if drop(last) then [last] else [], amount);
    }
  }

  lemma {:induction false} SumAppend<T>(a: seq<T>, b: seq<T>, amount: T -> real)
    requires |b| <= 1
    ensures SumOf(a + b, amount) == SumOf(a, amount) + SumOf(b, amount)
  {
    if b != [] {
      assert (a + b)[..|a + b| - 1] == a;
      assert b[..0] == [];
    } else {
      assert a + b == a;
    }
  }

  /** A sum of non-negative amounts is non-negative. */
  lemma {:induction false} SumNonNegative<T(!new)>(s: seq<T>, amount: T -> real)
    requires forall x :: x in s ==> amount(x) >= 0.0
    ensures SumOf(s, amount) >= 0.0
    decreases |s|
  {
    if s != [] {
      SumNonNegative(s[..|s| - 1], amount);
    }
  }

  /** With non-negative amounts, the sum over a selection is at most the sum
      over everything. */
  lemma SelectedSumBounded<T(!new)>(s: seq<T>, amount: T -> real, keep: T -> bool)
    requires forall x :: x in s ==> amount(x) >= 0.0
    ensures SumOf(Filter(s, keep), amount) <= SumOf(s, amount)
  {
    var drop := x => !keep(x);
    SumSplits(s, amount, keep, drop);
    SumNonNegative(Filter(s, drop), amount);
  }

  // ---------------------------------------------------------------------------
  // Ordering
  // ---------------------------------------------------------------------------

  /** A sort key from a nullable date column; a null sorts after every date in
      ascending order and before every date in descending order. */
  datatype SortKey = At(t: Timestamp) | Missing

  function KeyOf(d: Option<Timestamp>): SortKey
  {
    if d.Some? then At(d.value) else Missing
  }

  predicate KeyLe(a: SortKey, b: SortKey)
  {
    b.Missing? || (a.At? && a.t <= b.t)
  }

  /** `a` may come before `b` in the requested direction. */
  predicate InOrder(a: SortKey, b: SortKey, descending: bool)
  {
    if descending then KeyLe(b, a) else KeyLe(a, b)
  }

  predicate SortedBy<T>(s: seq<T>, key: T -> SortKey, descending: bool)
  {
    forall i, j :: 0 <= i < j < |s| ==> InOrder(key(s[i]), key(s[j]), descending)
  }

  /** Insert one element before the first element it may precede. */
  function Insert<T>(x: T, s: seq<T>, key: T -> SortKey, descending: bool): (r: seq<T>)
    ensures multiset(r) == multiset(s) + multiset{x}
    ensures |r| == |s| + 1
    decreases |s|
  {
    if s == [] then [x]
    else if InOrder(key(x), key(s[0]), descending) then [x] + s
    else
      assert s == [s[0]] + s[1..];
      [s[0]] + Insert(x, s[1..], key, descending)
  }

  /** `orderBy` on one column, as an insertion sort. */
  function SortBy<T>(s: seq<T>, key: T -> SortKey, descending: bool): (r: seq<T>)
    ensures multiset(r) == multiset(s)
    ensures |r| == |s|
    decreases |s|
  {
    if s == [] then []
    else
      assert s == [s[0]] + s[1..];
      Insert(s[0], SortBy(s[1..], key, descending), key, descending)
  }

  /** The order is total: of two keys, one may precede the other. */
  lemma InOrderTotal(a: SortKey, b: SortKey, descending: bool)
    ensures InOrder(a, b, descending) || InOrder(b, a, descending)
  {
  }

  lemma {:induction false} InsertSorted<T(!new)>(x: T, s: seq<T>, key: T -> SortKey, descending: bool)
    requires SortedBy(s, key, descending)
    ensures SortedBy(Insert(x, s, key, descending), key, descending)
    decreases |s|
  {
    if s != [] && !InOrder(key(x), key(s[0]), descending) {
      SortedTail(s, key, descending);
      InsertSorted(x, s[1..], key, descending);
      InOrderTotal(key(x), key(s[0]), descending);
      forall y | y in s[1..]
        ensures InOrder(key(s[0]), key(y), descending)
      {
        var k :| 0 <= k < |s[1..]| && s[1..][k] == y;
        assert s[k + 1] == y;
      }
      InsertBounded(key(s[0]), x, s[1..], key, descending);
      SortedCons(s[0], Insert(x, s[1..], key, descending), key, descending);
    }
  }

  lemma SortedTail<T>(s: seq<T>, key: T -> SortKey, descending: bool)
    requires s != [] && SortedBy(s, key, descending)
    ensures SortedBy(s[1..], key, descending)
  {
    forall i, j | 0 <= i < j < |s[1..]|
      ensures InOrder(key(s[1..][i]), key(s[1..][j]), descending)
    {
      assert s[1..][i] == s[i + 1] && s[1..][j] == s[j + 1];
    }
  }

  /** Inserting an element that respects a lower bound keeps the bound. */
  lemma InsertBounded<T>(b: SortKey, x: T, s: seq<T>, key: T -> SortKey, descending: bool)
    requires InOrder(b, key(x), descending)
    requires forall y :: y in s ==> InOrder(b, key(y), descending)
    ensures forall y :: y in Insert(x, s, key, descending) ==> InOrder(b, key(y), descending)
  {
    var r := Insert(x, s, key, descending);
    forall y | y in r
      ensures InOrder(b, key(y), descending)
    {
      assert y in multiset(r);
      assert y == x || y in multiset(s);
    }
  }

  lemma SortedCons<T>(a: T, r: seq<T>, key: T -> SortKey, descending: bool)
    requires SortedBy(r, key, descending)
    requires forall y :: y in r ==> InOrder(key(a), key(y), descending)
    ensures SortedBy([a] + r, key, descending)
  {
    var c := [a] + r;
    forall i, j | 0 <= i < j < |c|
      ensures InOrder(key(c[i]), key(c[j]), descending)
    {
      assert c[j] == r[j - 1] && c[j] in r;
      if i > 0 {
        assert c[i] == r[i - 1];
      }
    }
  }

  /** The sorted sequence is in order and holds exactly the input elements. */
  lemma {:induction false} SortBySorted<T(!new)>(s: seq<T>, key: T -> SortKey, descending: bool)
    ensures SortedBy(SortBy(s, key, descending), key, descending)
    ensures multiset(SortBy(s, key, descending)) == multiset(s)
    decreases |s|
  {
    if s != [] {
      SortBySorted(s[1..], key, descending);
      InsertSorted(s[0], SortBy(s[1..], key, descending), key, descending);
    }
  }

  /** Sequences with the same multiset have the same elements. */
  lemma SameElements<T>(a: seq<T>, b: seq<T>)
    requires multiset(a) == multiset(b)
    ensures forall x :: x in a <==> x in b
  {
    forall x
      ensures x in a <==> x in b
    {
      assert x in a <==> x in multiset(a);
      assert x in b <==> x in multiset(b);
    }
  }

  /** A query's `where` followed by its `orderBy`: the selected rows, ordered. */
  function SelectAndSort<T(!new)>(rows: seq<T>, keep: T -> bool, key: T -> SortKey, descending: bool): (r: seq<T>)
    ensures multiset(r) == multiset(Filter(rows, keep))
    ensures forall x :: x in r <==> x in rows && keep(x)
    ensures SortedBy(r, key, descending)
  {
    var selected := Filter(rows, keep);
    SortBySorted(selected, key, descending);
    var r := SortBy(selected, key, descending);
    SameElements(r, selected);
    r
  }

  // ---------------------------------------------------------------------------
  // The listings
  // ---------------------------------------------------------------------------

  /** Query-string filters of the payable and receivable listings; `status`
      is ignored by `getPaidAccountsByBank`, which always asks for PAGO. */
  datatype ListingFilter<S> = ListingFilter(range: DateRange, bankId: Option<Id>, gsiItemId: Option<Id>, status: Option<S>)

  predicate PaidSelected(p: Payable, f: ListingFilter<PayableStatus>)
  {
    p.status == Pago && Matches(f.bankId, p.bankId) && Matches(f.gsiItemId, p.gsiItemId)
    && DateClause(p.dataPagamento, f.range)
  }

  predicate PayableSelected(p: Payable, f: ListingFilter<PayableStatus>)
  {
    Matches(f.status, p.status) && Matches(f.bankId, p.bankId) && Matches(f.gsiItemId, p.gsiItemId)
    && DateClause(Some(p.dataVencimento), f.range)
  }

  predicate ReceivableSelected(r: Receivable, f: ListingFilter<ReceivableStatus>)
  {
    Matches(f.status, r.status) && Matches(f.bankId, r.bankId) && Matches(f.gsiItemId, r.gsiItemId)
    && DateClause(Some(r.dataPrevista), f.range)
  }

  /** The `where` clauses as tests, one per listing. */
  function PaidTest(f: ListingFilter<PayableStatus>): Payable -> bool { p => PaidSelected(p, f) }
  function PayableListingTest(f: ListingFilter<PayableStatus>): Payable -> bool { p => PayableSelected(p, f) }
  function ReceivableListingTest(f: ListingFilter<ReceivableStatus>): Receivable -> bool { x => ReceivableSelected(x, f) }

  function PaymentDateKey(p: Payable): SortKey { KeyOf(p.dataPagamento) }
  function DueDateKey(p: Payable): SortKey { At(p.dataVencimento) }
  function ExpectedDateKey(r: Receivable): SortKey { At(r.dataPrevista) }
  function ReceiptDateKey(r: Receivable): SortKey { KeyOf(r.dataRecebimento) }

  /** `getPaidAccountsByBank`: the PAGO payables matching the bank, item and
      payment-date filters, latest payment first. */
  function PaidAccountsByBank(rows: seq<Payable>, f: ListingFilter<PayableStatus>): (r: seq<Payable>)
    ensures multiset(r) == multiset(Filter(rows, PaidTest(f)))
    ensures forall p :: p in r <==> p in rows && PaidSelected(p, f)
    ensures forall p :: p in r ==> p.status == Pago && DateClause(p.dataPagamento, f.range)
    ensures SortedBy(r, PaymentDateKey, true)
  {
    SelectAndSort(rows, PaidTest(f), PaymentDateKey, true)
  }

  /** `getPayableAccountsByBank`: payables matching the optional status, bank,
      item and due-date filters, earliest due date first. */
  function PayableAccountsByBank(rows: seq<Payable>, f: ListingFilter<PayableStatus>): (r: seq<Payable>)
    ensures multiset(r) == multiset(Filter(rows, PayableListingTest(f)))
    ensures forall p :: p in r <==> p in rows && PayableSelected(p, f)
    ensures SortedBy(r, DueDateKey, false)
  {
    SelectAndSort(rows, PayableListingTest(f), DueDateKey, false)
  }

  /** `getReceivableAccountsByBank`: receivables matching the optional status,
      bank, item and expected-date filters, earliest expected date first. */
  function ReceivableAccountsByBank(rows: seq<Receivable>, f: ListingFilter<ReceivableStatus>): (r: seq<Receivable>)
    ensures multiset(r) == multiset(Filter(rows, ReceivableListingTest(f)))
    ensures forall x :: x in r <==> x in rows && ReceivableSelected(x, f)
    ensures SortedBy(r, ExpectedDateKey, false)
  {
    SelectAndSort(rows, ReceivableListingTest(f), ExpectedDateKey, false)
  }

  /** Without any filter the payable listing holds every payable, each as
      many times as it is stored: it is a reordering of the table. */
  lemma NoFilterKeepsAll(rows: seq<Payable>, f: ListingFilter<PayableStatus>, p: Payable)
    requires f.status.None? && f.bankId.None? && f.gsiItemId.None? && !HasBounds(f.range)
    ensures p in PayableAccountsByBank(rows, f) <==> p in rows
    ensures multiset(PayableAccountsByBank(rows, f)) == multiset(rows)
  {
    FilterKeepsAll(rows, PayableListingTest(f));
  }

  /** Query-string filters of `getGlosasByPeriod`. */
  datatype GlosaFilter = GlosaFilter(range: DateRange, personId: Option<Id>)

  predicate GlosaSelected(r: Receivable, f: GlosaFilter)
  {
    r.status == Glosado && r.valorGlosa > 0.0 && Matches(f.personId, r.personId)
    && DateClause(r.dataRecebimento, f.range)
  }

  function GlosaTest(f: GlosaFilter): Receivable -> bool { x => GlosaSelected(x, f) }

  /** `getGlosasByPeriod`: GLOSADO receivables with a positive denial amount,
      matching the person and receipt-date filters, latest receipt first. */
  function GlosasByPeriod(rows: seq<Receivable>, f: GlosaFilter): (r: seq<Receivable>)
    ensures multiset(r) == multiset(Filter(rows, GlosaTest(f)))
    ensures forall x :: x in r <==> x in rows && GlosaSelected(x, f)
    ensures forall x :: x in r ==> x.status == Glosado && x.valorGlosa > 0.0
    ensures SortedBy(r, ReceiptDateKey, true)
  {
    SelectAndSort(rows, GlosaTest(f), ReceiptDateKey, true)
  }

  // ---------------------------------------------------------------------------
  // Cash flow
  // ---------------------------------------------------------------------------

  datatype CashFlowFilter = CashFlowFilter(range: DateRange, bankId: Option<Id>)

  /** A payable is in the cash flow when its bank matches and, when bounds are
      given, its due date OR its payment date lies in the range. */
  predicate CashFlowPayable(p: Payable, f: CashFlowFilter)
  {
    Matches(f.bankId, p.bankId)
    && (!HasBounds(f.range) || WithinRange(Some(p.dataVencimento), f.range) || WithinRange(p.dataPagamento, f.range))
  }

  /** The same for a receivable, with its expected and receipt dates. */
  predicate CashFlowReceivable(r: Receivable, f: CashFlowFilter)
  {
    Matches(f.bankId, r.bankId)
    && (!HasBounds(f.range) || WithinRange(Some(r.dataPrevista), f.range) || WithinRange(r.dataRecebimento, f.range))
  }

  function PayableTest(f: CashFlowFilter): Payable -> bool { p => CashFlowPayable(p, f) }
  function ReceivableTest(f: CashFlowFilter): Receivable -> bool { r => CashFlowReceivable(r, f) }

  predicate IsPaid(p: Payable) { p.status == Pago }
  predicate IsUnpaid(p: Payable) { p.status != Pago }
  function Valor(p: Payable): real { p.valor }
  function ValorPrevisto(r: Receivable): real { r.valorPrevisto }
  function ValorRecebido(r: Receivable): real { r.valorRecebido }
  function ValorGlosa(r: Receivable): real { r.valorGlosa }

  datatype CashFlowReport = CashFlowReport(
    payables: seq<Payable>,
    receivables: seq<Receivable>,
    totalPayable: real,
    totalPaid: real,
    totalReceivable: real,
    totalReceived: real,
    totalGlosa: real)

  /** `getCashFlow`: the selected records and the five totals over them. */
  function CashFlow(payables: seq<Payable>, receivables: seq<Receivable>, f: CashFlowFilter): (c: CashFlowReport)
    ensures forall p :: p in c.payables <==> p in payables && CashFlowPayable(p, f)
    ensures forall r :: r in c.receivables <==> r in receivables && CashFlowReceivable(r, f)
    ensures c.payables == Filter(payables, PayableTest(f))
    ensures c.receivables == Filter(receivables, ReceivableTest(f))
    ensures c.totalPayable == SumOf(c.payables, Valor)
    ensures c.totalPaid == SumOf(Filter(c.payables, IsPaid), Valor)
    ensures c.totalReceivable == SumOf(c.receivables, ValorPrevisto)
    ensures c.totalReceived == SumOf(c.receivables, ValorRecebido)
    ensures c.totalGlosa == SumOf(c.receivables, ValorGlosa)
  {
    var ps := Filter(payables, PayableTest(f));
    var rs := Filter(receivables, ReceivableTest(f));
    CashFlowReport(ps, rs, SumOf(ps, Valor), SumOf(Filter(ps, IsPaid), Valor),
                   SumOf(rs, ValorPrevisto), SumOf(rs, ValorRecebido), SumOf(rs, ValorGlosa))
  }

  /** The paid total is the payable total minus what is still unpaid; with
      non-negative amounts it never exceeds the payable total. */
  lemma CashFlowPaidWithinPayable(payables: seq<Payable>, receivables: seq<Receivable>, f: CashFlowFilter)
    ensures var c := CashFlow(payables, receivables, f);
      c.totalPayable == c.totalPaid + SumOf(Filter(c.payables, IsUnpaid), Valor)
    ensures (forall p :: p in payables ==> p.valor >= 0.0) ==>
      CashFlow(payables, receivables, f).totalPaid <= CashFlow(payables, receivables, f).totalPayable
  {
    var c := CashFlow(payables, receivables, f);
    SumSplits(c.payables, Valor, IsPaid, IsUnpaid);
    if forall p :: p in payables ==> p.valor >= 0.0 {
      SelectedSumBounded(c.payables, Valor, IsPaid);
    }
  }

  /** Without date bounds the cash flow has no date restriction: it is every
      record of the requested bank (every record when no bank is given). */
  lemma CashFlowWithoutBounds(payables: seq<Payable>, receivables: seq<Receivable>, f: CashFlowFilter)
    requires !HasBounds(f.range)
    ensures CashFlow(payables, receivables, f).payables == Filter(payables, (p: Payable) => Matches(f.bankId, p.bankId))
    ensures CashFlow(payables, receivables, f).receivables == Filter(receivables, (r: Receivable) => Matches(f.bankId, r.bankId))
    ensures f.bankId.None? ==> CashFlow(payables, receivables, f).payables == payables
  {
    FilterAgrees(payables, PayableTest(f), (p: Payable) => Matches(f.bankId, p.bankId));
    FilterAgrees(receivables, ReceivableTest(f), (r: Receivable) => Matches(f.bankId, r.bankId));
    if f.bankId.None? {
      FilterKeepsAll(payables, PayableTest(f));
    }
  }

  lemma {:induction false} FilterKeepsAll<T(!new)>(s: seq<T>, keep: T -> bool)
    requires forall i :: 0 <= i < |s| ==> keep(s[i])
    ensures Filter(s, keep) == s
    decreases |s|
  {
    if s != [] {
      var init := s[..|s| - 1];
      FilterKeepsAll(init, keep);
      assert keep(s[|s| - 1]);
      assert Filter(s, keep) == Filter(init, keep) + [s[|s| - 1]];
      assert init + [s[|s| - 1]] == s;
    }
  }
}
