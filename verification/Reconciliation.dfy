// The reconciliation statement: an opening balance summed up to a day, and a ledger over
// a window of days with a running balance for every counterparty.

module Reconciliation {
  import opened Sums
  import opened StockReports

  type Id = nat

  /** Posted documents, and cash transactions that are not deleted. A transaction's type
      is free text: OTHER is anything but INCOME and OUTCOME. */
  datatype EntryKind = REALIZATION | BUYER_RETURN | GOODS_RECEIPT | SUPPLIER_RETURN | INCOME | OUTCOME | OTHER

  datatype Entry = Entry(kind: EntryKind, party: Id, date: int, amount: int)

  /** The opening balance counts each known type with its sign and ignores the others. */
  function OpeningChange(e: Entry): int {
    match e.kind
    case REALIZATION => e.amount
    case OUTCOME => e.amount
    case SUPPLIER_RETURN => e.amount
    case BUYER_RETURN => -e.amount
    case GOODS_RECEIPT => -e.amount
    case INCOME => -e.amount
    case OTHER => 0
  }

  /** The ledger counts every cash transaction that is not INCOME as money paid out. */
  function LedgerChange(e: Entry): int {
    if e.kind.OTHER? then e.amount else OpeningChange(e)
  }

  predicate InWindow(e: Entry, from: Option<int>, to: Option<int>) {
    && (from.Some? ==> DayStart(from.value) <= e.date)
    && (to.Some? ==> e.date < DayStart(to.value + 1))
  }

  function OpeningOf(party: Id, from: int): Entry -> int {
    (e: Entry) => if e.party == party && e.date < DayStart(from) then OpeningChange(e) else 0
  }

  /** The balance a window opens with; a window without a first day opens with nothing. */
  function Opening(entries: seq<Entry>, party: Id, from: Option<int>): int {
    if from.Some? then Sum(entries, OpeningOf(party, from.value)) else 0
  }

  function WindowOf(party: Id, from: Option<int>, to: Option<int>): Entry -> bool {
    (e: Entry) => e.party == party && InWindow(e, from, to)
  }

  function ChangeOf(): Entry -> int {
    (e: Entry) => LedgerChange(e)
  }

  /** The balance a window closes with. */
  function Closing(entries: seq<Entry>, party: Id, from: Option<int>, to: Option<int>): int {
    Opening(entries, party, from) + Sum(Filter(entries, WindowOf(party, from, to)), ChangeOf())
  }

  function OtherOf(party: Id, from: Option<int>, end: int): Entry -> int {
    (e: Entry) =>
      if e.party == party && e.kind.OTHER? && (from.Some? ==> DayStart(from.value) <= e.date) && e.date < DayStart(end)
      then e.amount else 0
  }

  /** What transactions of unknown type amount to in a window. */
  function Others(entries: seq<Entry>, party: Id, from: Option<int>, end: int): int {
    Sum(entries, OtherOf(party, from, end))
  }

  function WindowChangeOf(party: Id, from: Option<int>, to: Option<int>): Entry -> int {
    (e: Entry) => if WindowOf(party, from, to)(e) then LedgerChange(e) else 0
  }

  function BeforeOf(party: Id, from: Option<int>): Entry -> int {
    (e: Entry) => if from.Some? then OpeningOf(party, from.value)(e) else 0
  }

  /** Windows compose: a window opens with what any window ending the day before closed
      with, less the transactions of unknown type in between, which only the ledger counts. */
  lemma {:induction false} WindowsCompose(entries: seq<Entry>, party: Id, from: Option<int>, next: int)
    requires from.Some? ==> from.value <= next
    ensures Closing(entries, party, from, Some(next - 1))
            == Opening(entries, party, Some(next)) + Others(entries, party, from, next)
    ensures Closing(entries, party, from, Some(next - 1)) == Opening(entries, party, Some(next))
            <==> Others(entries, party, from, next) == 0
  {
    var before, within := BeforeOf(party, from), WindowChangeOf(party, from, Some(next - 1));
    var both := (e: Entry) => before(e) + within(e);
    SumFilter(entries, WindowOf(party, from, Some(next - 1)), ChangeOf(), within);
    if from.Some? {
      SumSame(entries, entries, before, OpeningOf(party, from.value));
    } else {
      SumZero(entries, before);
    }
    SumPlus(entries, before, within, both);
    SumPlus(entries, OpeningOf(party, next), OtherOf(party, from, next), both);
  }

  /** With INCOME and OUTCOME transactions only, windows compose without a remainder. */
  lemma {:induction false} CleanWindowsCompose(entries: seq<Entry>, party: Id, from: Option<int>, next: int)
    requires from.Some? ==> from.value <= next
    requires forall e :: e in entries ==> !e.kind.OTHER?
    ensures Opening(entries, party, Some(next)) == Closing(entries, party, from, Some(next - 1))
  {
    SumZero(entries, OtherOf(party, from, next));
    WindowsCompose(entries, party, from, next);
  }

  /** The order in which the query returns the entries does not move the closing balance. */
  lemma {:induction false} ClosingOrderFree(a: seq<Entry>, b: seq<Entry>, party: Id, from: Option<int>, to: Option<int>)
    requires multiset(a) == multiset(b)
    ensures Closing(a, party, from, to) == Closing(b, party, from, to)
  {
    if from.Some? {
      SumPermutation(a, b, OpeningOf(party, from.value));
    }
    SumFilter(a, WindowOf(party, from, to), ChangeOf(), WindowChangeOf(party, from, to));
    SumFilter(b, WindowOf(party, from, to), ChangeOf(), WindowChangeOf(party, from, to));
    SumPermutation(a, b, WindowChangeOf(party, from, to));
  }

  // ---- the balances by kind of entry

  /** What one kind of entry amounts to for a counterparty over the days `from` to `to`. */
  function KindTotal(entries: seq<Entry>, party: Id, kind: EntryKind, from: Option<int>, to: Option<int>): int {
    Sum(entries, KindOf(party, kind, from, to))
  }

  function KindOf(party: Id, kind: EntryKind, from: Option<int>, to: Option<int>): Entry -> int {
    (e: Entry) =>
      if e.party == party && e.kind == kind
         && (from.Some? ==> e.date >= from.value * DAY) && (to.Some? ==> e.date < to.value * DAY + DAY)
      then e.amount else 0
  }

  /** Sales, returns to suppliers and money paid out, less returns from buyers, receipts and
      money taken in. */
  function Owing(entries: seq<Entry>, party: Id, from: Option<int>, to: Option<int>): int {
    KindTotal(entries, party, REALIZATION, from, to)
    + KindTotal(entries, party, SUPPLIER_RETURN, from, to)
    + KindTotal(entries, party, OUTCOME, from, to)
    - KindTotal(entries, party, BUYER_RETURN, from, to)
    - KindTotal(entries, party, GOODS_RECEIPT, from, to)
    - KindTotal(entries, party, INCOME, from, to)
  }

  lemma {:induction false} KindTotalSnoc(entries: seq<Entry>, party: Id, kind: EntryKind, from: Option<int>,
                                         to: Option<int>)
    requires entries != []
    ensures KindTotal(entries, party, kind, from, to)
            == KindTotal(entries[..|entries| - 1], party, kind, from, to)
               + KindOf(party, kind, from, to)(entries[|entries| - 1])
  {
  }

  /** What one entry adds to the balance over the days `from` to `to`. */
  function SignedOf(party: Id, others: bool, from: Option<int>, to: Option<int>): Entry -> int {
    (e: Entry) =>
      KindOf(party, REALIZATION, from, to)(e) + KindOf(party, SUPPLIER_RETURN, from, to)(e)
      + KindOf(party, OUTCOME, from, to)(e) - KindOf(party, BUYER_RETURN, from, to)(e)
      - KindOf(party, GOODS_RECEIPT, from, to)(e) - KindOf(party, INCOME, from, to)(e)
      + if others then KindOf(party, OTHER, from, to)(e) else 0
  }

  lemma {:induction false} SignedSum(entries: seq<Entry>, party: Id, others: bool, from: Option<int>, to: Option<int>)
    ensures Sum(entries, SignedOf(party, others, from, to))
            == Owing(entries, party, from, to) + if others then KindTotal(entries, party, OTHER, from, to) else 0
    decreases |entries|
  {
    if entries != [] {
      SignedSum(entries[..|entries| - 1], party, others, from, to);
      KindTotalSnoc(entries, party, REALIZATION, from, to);
      KindTotalSnoc(entries, party, SUPPLIER_RETURN, from, to);
      KindTotalSnoc(entries, party, OUTCOME, from, to);
      KindTotalSnoc(entries, party, BUYER_RETURN, from, to);
      KindTotalSnoc(entries, party, GOODS_RECEIPT, from, to);
      KindTotalSnoc(entries, party, INCOME, from, to);
      KindTotalSnoc(entries, party, OTHER, from, to);
    }
  }

  /** A window opens with what the counterparty owed up to the day before: sales, returns to
      suppliers and OUTCOME less buyer returns, receipts and INCOME; transactions of another
      type count nothing. */
  lemma {:induction false} OpeningIs(entries: seq<Entry>, party: Id, day: int)
    ensures Opening(entries, party, Some(day)) == Owing(entries, party, None, Some(day - 1))
  {
    SignedSum(entries, party, false, None, Some(day - 1));
    SumSame(entries, entries, OpeningOf(party, day), SignedOf(party, false, None, Some(day - 1)));
  }

  /** It closes with that and the same over the days of the window, in which transactions of
      another type count as money paid out. */
  lemma {:induction false} ClosingIs(entries: seq<Entry>, party: Id, from: Option<int>, to: Option<int>)
    ensures Closing(entries, party, from, to)
            == (if from.Some? then Owing(entries, party, None, Some(from.value - 1)) else 0)
               + Owing(entries, party, from, to) + KindTotal(entries, party, OTHER, from, to)
  {
    if from.Some? {
      OpeningIs(entries, party, from.value);
    }
    SignedSum(entries, party, true, from, to);
    SumFilter(entries, WindowOf(party, from, to), ChangeOf(), SignedOf(party, true, from, to));
  }

  // ---- the grouping loop

  datatype Line = Line(entry: Entry, change: int, balance: int)

  datatype Account = Account(start: int, end: int, ledger: seq<Line>)

  function PartyIs(party: Id): Entry -> bool {
    (e: Entry) => e.party == party
  }

  /** The ledger of one counterparty: its entries in order, each with the balance so far. */
  function Lines(start: int, rows: seq<Entry>): (r: seq<Line>)
    ensures |r| == |rows|
    decreases |rows|
  {
    if rows == [] then []
    else
      var n := |rows| - 1;
      Lines(start, rows[..n]) + [Line(rows[n], LedgerChange(rows[n]), start + Sum(rows, ChangeOf()))]
  }

  function AccountFor(start: int, rows: seq<Entry>): Account {
    Account(start, start + Sum(rows, ChangeOf()), Lines(start, rows))
  }

  function StartOf(starts: map<Id, int>, party: Id): int {
    if party in starts then starts[party] else 0
  }

  function Parties(rows: seq<Entry>): set<Id> {
    set e | e in rows :: e.party
  }

  /** `grouped` is the statement of `rows` for the counterparties `ids`. */
  ghost predicate Grouped(starts: map<Id, int>, ids: set<Id>, rows: seq<Entry>, grouped: map<Id, Account>) {
    && grouped.Keys == ids
    && forall p {:trigger AccountOf(starts, rows, p)} :: p in ids ==> grouped[p] == AccountOf(starts, rows, p)
  }

  /** What the statement shows of a counterparty. */
  function AccountOf(starts: map<Id, int>, rows: seq<Entry>, party: Id): Account {
    AccountFor(StartOf(starts, party), Filter(rows, PartyIs(party)))
  }

  lemma {:induction false} AccountStep(starts: map<Id, int>, rows: seq<Entry>, row: Entry, p: Id)
    ensures AccountOf(starts, rows + [row], p)
            == if p == row.party then WithRow(AccountOf(starts, rows, p), row) else AccountOf(starts, rows, p)
  {
    FilterSnoc(rows, row, PartyIs(p));
    AccountSnoc(StartOf(starts, p), Filter(rows, PartyIs(p)), row);
  }

  /** The account with one more row on its ledger. */
  function WithRow(info: Account, row: Entry): Account {
    var balance := info.end + LedgerChange(row);
    Account(info.start, balance, info.ledger + [Line(row, LedgerChange(row), balance)])
  }

  lemma {:induction false} GroupedStep(starts: map<Id, int>, ids: set<Id>, rows: seq<Entry>,
                                       grouped: map<Id, Account>, row: Entry)
    requires Grouped(starts, ids, rows, grouped) && row.party in ids
    ensures Grouped(starts, ids, rows + [row], grouped[row.party := WithRow(grouped[row.party], row)])
  {
    var grouped' := grouped[row.party := WithRow(grouped[row.party], row)];
    forall p {:trigger AccountOf(starts, rows + [row], p)} | p in ids
      ensures grouped'[p] == AccountOf(starts, rows + [row], p)
    {
      AccountStep(starts, rows, row, p);
    }
  }

  /** Groups the rows of the window by counterparty and keeps a running balance for each. */
  method Statement(starts: map<Id, int>, rows: seq<Entry>) returns (grouped: map<Id, Account>)
    ensures grouped.Keys == starts.Keys + Parties(rows)
    ensures forall p {:trigger AccountOf(starts, rows, p)} :: p in grouped ==> grouped[p] == AccountOf(starts, rows, p)
  {
    var ids := starts.Keys + Parties(rows);
    grouped := map p | p in ids :: Account(StartOf(starts, p), StartOf(starts, p), []);
    for i := 0 to |rows|
      invariant Grouped(starts, ids, rows[..i], grouped)
    {
      var row := rows[i];
      GroupedStep(starts, ids, rows[..i], grouped, row);
      assert rows[..i + 1] == rows[..i] + [row];
      grouped := grouped[row.party := WithRow(grouped[row.party], row)];
    }
    assert rows[..|rows|] == rows;
  }

  lemma {:induction false} AccountSnoc(start: int, rows: seq<Entry>, e: Entry)
    ensures var a := AccountFor(start, rows);
            AccountFor(start, rows + [e])
            == Account(start, a.end + LedgerChange(e), a.ledger + [Line(e, LedgerChange(e), a.end + LedgerChange(e))])
  {
    SumSnoc(rows, e, ChangeOf());
    assert (rows + [e])[..|rows|] == rows;
  }

  /** Each running balance is the opening balance plus the changes up to that line. */
  lemma {:induction false} RunningBalance(start: int, rows: seq<Entry>, k: nat)
    requires k < |rows|
    ensures Lines(start, rows)[k] == Line(rows[k], LedgerChange(rows[k]), start + Sum(rows[..k + 1], ChangeOf()))
    decreases |rows|
  {
    var n := |rows| - 1;
    if k < n {
      RunningBalance(start, rows[..n], k);
      assert rows[..n][..k + 1] == rows[..k + 1];
    } else {
      assert rows[..k + 1] == rows;
    }
  }

  /** The rows the ledger query selects for the requested counterparties. */
  function Requested(parties: set<Id>, from: Option<int>, to: Option<int>): Entry -> bool {
    (e: Entry) => e.party in parties && InWindow(e, from, to)
  }

  /** The account the statement gives a requested counterparty opens with its opening
      balance and closes with its closing balance, in whatever order the query returned
      the rows. */
  lemma {:induction false} StatementCloses(entries: seq<Entry>, rows: seq<Entry>, starts: map<Id, int>,
                                           parties: set<Id>, party: Id, from: Option<int>, to: Option<int>)
    requires multiset(rows) == multiset(Filter(entries, Requested(parties, from, to))) && party in parties
    requires StartOf(starts, party) == Opening(entries, party, from)
    ensures AccountOf(starts, rows, party).start == Opening(entries, party, from)
    ensures AccountOf(starts, rows, party).end == Closing(entries, party, from, to)
  {
    var selected := Filter(entries, Requested(parties, from, to));
    var change := (e: Entry) => if PartyIs(party)(e) then ChangeOf()(e) else 0;
    SumFilter(rows, PartyIs(party), ChangeOf(), change);
    SumPermutation(rows, selected, change);
    SumFilter(selected, PartyIs(party), ChangeOf(), change);
    FilterTwice(entries, Requested(parties, from, to), PartyIs(party), WindowOf(party, from, to));
  }
}
