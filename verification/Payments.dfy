// Payments spread over the oldest debts: creating, editing and deleting cash
// transactions against posted documents, with the allocation rows that record which
// payment paid which document.

module Payments {
  import opened Sums
  import opened Fifo

  type Id = nat

  datatype DebtKind = Realization | Receipt

  /** INCOME pays sales, OUTCOME pays receipts; any other type pays nothing. */
  datatype PaymentKind = INCOME | OUTCOME | OTHER

  /** What payments see of a sale or a receipt. */
  datatype Debt = Debt(id: Id, kind: DebtKind, party: Option<Id>, date: int, amount: int, paid: int, posted: bool)

  datatype Terms = Terms(kind: PaymentKind, party: Option<Id>, amount: int)

  datatype Payment = Payment(terms: Terms, deleted: bool)

  datatype Alloc = Alloc(payment: Id, kind: DebtKind, doc: Id, amount: int)

  /** The debts stand oldest first; a tie keeps the order of entry. */
  datatype Books = Books(debts: seq<Debt>, payments: map<Id, Payment>, allocs: seq<Alloc>, nextId: Id)

  // ---- allocating

  predicate Pays(terms: Terms, d: Debt) {
    && d.posted
    && terms.party.Some? && d.party == terms.party
    && ((terms.kind.INCOME? && d.kind.Realization?) || (terms.kind.OUTCOME? && d.kind.Receipt?))
  }

  /** What a payment on these terms may still pay of a debt. */
  function OwedOf(terms: Terms): Debt -> nat {
    (d: Debt) => if Pays(terms, d) && d.paid < d.amount then d.amount - d.paid else 0
  }

  function Owed(debts: seq<Debt>, terms: Terms): seq<nat> {
    Map(debts, OwedOf(terms))
  }

  function Outstanding(debts: seq<Debt>, terms: Terms): int {
    Sum(debts, OwedOf(terms))
  }

  /** The amount there is to allocate. */
  function Need(terms: Terms): nat {
    if terms.amount > 0 then terms.amount else 0
  }

  function Shares(debts: seq<Debt>, terms: Terms): (r: seq<nat>)
    ensures |r| == |debts|
  {
    Takes(Owed(debts, terms), Need(terms))
  }

  function PayDebt(): (Debt, nat) -> Debt {
    (d: Debt, q: nat) => d.(paid := d.paid + q)
  }

  function PayOff(debts: seq<Debt>, shares: seq<nat>): (r: seq<Debt>)
    requires |shares| == |debts|
    ensures |r| == |debts|
    ensures forall i :: 0 <= i < |debts| ==> r[i] == debts[i].(paid := debts[i].paid + shares[i])
  {
    Drawn(debts, shares, PayDebt())
  }

  function AllocOf(payment: Id): (Debt, nat) -> Alloc {
    (d: Debt, q: nat) => Alloc(payment, d.kind, d.id, q)
  }

  function AllocsFor(debts: seq<Debt>, shares: seq<nat>, payment: Id): seq<Alloc>
    requires |shares| == |debts|
  {
    Records(debts, shares, AllocOf(payment))
  }

  function Allocate(books: Books, payment: Id, terms: Terms): Books {
    var shares := Shares(books.debts, terms);
    books.(debts := PayOff(books.debts, shares),
           allocs := books.allocs + AllocsFor(books.debts, shares, payment))
  }

  // ---- reverting

  function PaidByOf(payment: Id, d: Debt): Alloc -> int {
    (a: Alloc) => if a.payment == payment && a.kind == d.kind && a.doc == d.id then a.amount else 0
  }

  /** What one payment paid of a debt. */
  function PaidBy(allocs: seq<Alloc>, payment: Id, d: Debt): int {
    Sum(allocs, PaidByOf(payment, d))
  }

  function Unpaid(allocs: seq<Alloc>, payment: Id): Debt -> Debt {
    (d: Debt) => d.(paid := d.paid - PaidBy(allocs, payment, d))
  }

  function NotOf(payment: Id): Alloc -> bool {
    (a: Alloc) => a.payment != payment
  }

  function Revert(books: Books, payment: Id): Books {
    books.(debts := Map(books.debts, Unpaid(books.allocs, payment)),
           allocs := Filter(books.allocs, NotOf(payment)))
  }

  // ---- requests

  function Create(books: Books, terms: Terms): Books {
    var id := books.nextId;
    Allocate(books.(payments := books.payments[id := Payment(terms, false)], nextId := id + 1), id, terms)
  }

  /** A payment that is missing or deleted cannot be edited. */
  function Edit(books: Books, id: Id, terms: Terms): Option<Books> {
    if id !in books.payments || books.payments[id].deleted then None
    else
      var reverted := Revert(books, id);
      Some(Allocate(reverted.(payments := books.payments[id := Payment(terms, false)]), id, terms))
  }

  /** Deleting reverts what the payment paid and flags it. */
  function Delete(books: Books, id: Id): Books {
    var reverted := Revert(books, id);
    if id in books.payments then reverted.(payments := books.payments[id := books.payments[id].(deleted := true)])
    else reverted
  }

  // ---- documents come and go

  function DebtDate(): Debt -> int {
    (d: Debt) => d.date
  }

  function InsertDebt(debts: seq<Debt>, d: Debt): seq<Debt> {
    InsertBy(debts, d, DebtDate())
  }

  function Other(id: Id): Debt -> bool {
    (d: Debt) => d.id != id
  }

  function FindDebt(debts: seq<Debt>, id: Id): Option<Debt>
    decreases |debts|
  {
    if debts == [] then None
    else if debts[|debts| - 1].id == id then Some(debts[|debts| - 1])
    else FindDebt(debts[..|debts| - 1], id)
  }

  datatype Step =
    | Pay(terms: Terms)
    | Repay(id: Id, terms: Terms)
    | Cancel(id: Id)
    | Enter(kind: DebtKind, party: Option<Id>, date: int, amount: int)
    | Amend(id: Id, party: Option<Id>, date: int, amount: int)
    | SetPosted(id: Id, posted: bool)
    | Drop(id: Id)

  /** Sales are frozen while posted, receipts can be amended at any time; a receipt that
      is not posted is deleted for good and its allocation rows are left behind. */
  function Next(books: Books, step: Step): Books {
    match step
    case Pay(terms) => Create(books, terms)
    case Repay(id, terms) => (match Edit(books, id, terms) case Some(b) => b case None => books)
    case Cancel(id) => Delete(books, id)
    case Enter(kind, party, date, amount) =>
      books.(debts := InsertDebt(books.debts, Debt(books.nextId, kind, party, date, amount, 0, false)),
             nextId := books.nextId + 1)
    case Amend(id, party, date, amount) =>
      (match FindDebt(books.debts, id)
       case Some(d) =>
         if d.kind.Realization? && d.posted then books
         else books.(debts := InsertDebt(Filter(books.debts, Other(id)),
                                         d.(party := party, date := date, amount := amount)))
       case None => books)
    case SetPosted(id, posted) =>
      books.(debts := Map(books.debts, (d: Debt) => if d.id == id then d.(posted := posted) else d))
    case Drop(id) =>
      (match FindDebt(books.debts, id)
       case Some(d) =>
         if d.kind.Receipt? && !d.posted then books.(debts := Filter(books.debts, Other(id))) else books
       case None => books)
  }

  function Run(books: Books, steps: seq<Step>): Books
    decreases |steps|
  {
    if steps == [] then books else Next(Run(books, steps[..|steps| - 1]), steps[|steps| - 1])
  }

  const EmptyBooks := Books([], map[], [], 0)

  // ---- exact, oldest first, and additive

  /** A payment allocates the lesser of its amount and the outstanding debt, and what it
      pays of each debt is the only way to do so oldest first. */
  lemma {:induction false} AllocatesOldestFirst(debts: seq<Debt>, terms: Terms)
    ensures Total(Shares(debts, terms))
            == if Need(terms) <= Outstanding(debts, terms) then Need(terms) else Outstanding(debts, terms)
    ensures forall shares: seq<nat> {:trigger Greedy(Owed(debts, terms), shares)} ::
              Greedy(Owed(debts, terms), shares) && Total(shares) == Total(Shares(debts, terms))
              <==> shares == Shares(debts, terms)
  {
    var owed := Owed(debts, terms);
    TotalIsSum(owed, debts, OwedOf(terms));
    TakesTotal(owed, Need(terms));
    TakesGreedy(owed, Need(terms));
    forall shares: seq<nat> | Greedy(owed, shares) && Total(shares) == Total(Shares(debts, terms))
      ensures shares == Shares(debts, terms)
    {
      GreedyUnique(owed, shares);
      GreedyUnique(owed, Shares(debts, terms));
    }
  }

  /** No allocation raises a debt above its amount, and nothing else about it changes. */
  lemma {:induction false} AllocatesWithin(debts: seq<Debt>, terms: Terms)
    ensures var after := PayOff(debts, Shares(debts, terms));
            forall i :: 0 <= i < |debts| ==>
              && after[i] == debts[i].(paid := after[i].paid)
              && debts[i].paid <= after[i].paid
              && (after[i].paid != debts[i].paid ==> after[i].paid <= debts[i].amount && Pays(terms, debts[i]))
  {
    TakesGreedy(Owed(debts, terms), Need(terms));
  }

  /** What a counterparty still owes, or is owed, on its posted documents of one kind. */
  function OpenDebt(debts: seq<Debt>, kind: DebtKind, party: Id): int {
    Sum(debts, OpenDebtOf(kind, party))
  }

  function OpenDebtOf(kind: DebtKind, party: Id): Debt -> int {
    (d: Debt) =>
      if d.kind == kind && d.posted && d.party == Some(party) && d.paid < d.amount then d.amount - d.paid else 0
  }

  function PaidAmount(): Debt -> int {
    (d: Debt) => d.paid
  }

  function Lesser(a: int, b: int): int {
    if a <= b then a else b
  }

  /** What a payment raises the paid amounts by, all documents together: INCOME pays the posted
      sales of its counterparty, OUTCOME its posted receipts, up to the amount; a payment of
      another type, or without a counterparty, pays nothing. */
  lemma {:induction false} PaysDebts(debts: seq<Debt>, terms: Terms)
    ensures Sum(PayOff(debts, Shares(debts, terms)), PaidAmount()) - Sum(debts, PaidAmount())
            == match terms.party
               case None => 0
               case Some(c) =>
                 var amount := if terms.amount > 0 then terms.amount else 0;
                 match terms.kind
                 case INCOME => Lesser(amount, OpenDebt(debts, Realization, c))
                 case OUTCOME => Lesser(amount, OpenDebt(debts, Receipt, c))
                 case OTHER => 0
  {
    PaidGrows(debts, Shares(debts, terms));
    AllocatesOldestFirst(debts, terms);
    OutstandingIs(debts, terms);
    SumNonNegative(debts, OwedOf(terms));
  }

  lemma {:induction false} PaidGrows(debts: seq<Debt>, shares: seq<nat>)
    requires |shares| == |debts|
    ensures Sum(PayOff(debts, shares), PaidAmount()) == Sum(debts, PaidAmount()) + Total(shares)
    decreases |debts|
  {
    if debts != [] {
      var n := |debts| - 1;
      PaidGrows(debts[..n], shares[..n]);
      assert PayOff(debts, shares)[..n] == PayOff(debts[..n], shares[..n]);
    }
  }

  lemma {:induction false} OutstandingIs(debts: seq<Debt>, terms: Terms)
    ensures Outstanding(debts, terms)
            == match terms.party
               case None => 0
               case Some(c) =>
                 match terms.kind
                 case INCOME => OpenDebt(debts, Realization, c)
                 case OUTCOME => OpenDebt(debts, Receipt, c)
                 case OTHER => 0
  {
    if terms.party.None? || terms.kind.OTHER? {
      SumZero(debts, OwedOf(terms));
    } else {
      var kind := if terms.kind.INCOME? then Realization else Receipt;
      SumSame(debts, debts, OwedOf(terms), OpenDebtOf(kind, terms.party.value));
    }
  }

  /** And document by document: only what is open on a posted document of the counterparty is
      paid, a sale by INCOME and a receipt by OUTCOME, and a younger such document only when
      every older one is paid in full. */
  lemma {:induction false} PaysOldestFirst(debts: seq<Debt>, terms: Terms, i: nat)
    requires i < |debts|
    ensures var after := PayOff(debts, Shares(debts, terms));
            after[i].paid != debts[i].paid ==>
              && debts[i].posted && debts[i].party.Some? && debts[i].party == terms.party
              && (debts[i].kind.Realization? ==> terms.kind.INCOME?)
              && (debts[i].kind.Receipt? ==> terms.kind.OUTCOME?)
              && debts[i].paid < after[i].paid <= debts[i].amount
              && forall j :: 0 <= j < i && debts[j].posted && debts[j].party == terms.party
                             && debts[j].kind == debts[i].kind && debts[j].paid < debts[j].amount ==>
                   after[j].paid == debts[j].amount
  {
    TakesGreedy(Owed(debts, terms), Need(terms));
    forall j | 0 <= j < |debts|
      ensures Owed(debts, terms)[j] == OwedOf(terms)(debts[j])
    {
    }
  }

  function Combined(a: Terms, b: Terms): Terms {
    a.(amount := Need(a) + Need(b))
  }

  /** Two payments in a row on the same account pay what one payment of their sum pays. */
  lemma {:induction false} PaymentsAdd(debts: seq<Debt>, a: Terms, b: Terms)
    requires a.kind == b.kind && a.party == b.party
    ensures var after := PayOff(debts, Shares(debts, a));
            PayOff(after, Shares(after, b)) == PayOff(debts, Shares(debts, Combined(a, b)))
  {
    var sum := Combined(a, b);
    var owed := Owed(debts, a);
    var after := PayOff(debts, Shares(debts, a));
    OwedAfter(debts, a, b);
    assert Owed(debts, sum) == owed;
    TakesAdd(owed, Need(a), Need(b), Owed(after, b));
    PayOffTwice(debts, Shares(debts, a), Shares(after, b), Shares(debts, sum));
  }

  lemma {:induction false} TakesAdd(owed: seq<nat>, a: nat, b: nat, owed': seq<nat>)
    requires |owed'| == |owed| && forall j :: 0 <= j < |owed| ==> owed'[j] == owed[j] - Takes(owed, a)[j]
    ensures forall i :: 0 <= i < |owed| ==> Takes(owed, a + b)[i] == Takes(owed, a)[i] + Takes(owed', b)[i]
  {
    forall i | 0 <= i < |owed|
      ensures TakeAt(owed, a + b, i) == TakeAt(owed, a, i) + TakeAt(owed', b, i)
    {
      TakesAdditive(owed, a, b, owed', i);
    }
  }

  lemma {:induction false} PayOffTwice(debts: seq<Debt>, s: seq<nat>, t: seq<nat>, sum: seq<nat>)
    requires |s| == |t| == |sum| == |debts| && forall i :: 0 <= i < |debts| ==> sum[i] == s[i] + t[i]
    ensures PayOff(PayOff(debts, s), t) == PayOff(debts, sum)
  {
  }

  lemma {:induction false} OwedAfter(debts: seq<Debt>, a: Terms, b: Terms)
    requires a.kind == b.kind && a.party == b.party
    ensures var after := PayOff(debts, Shares(debts, a));
            forall j :: 0 <= j < |debts| ==> Owed(after, b)[j] == Owed(debts, a)[j] - Takes(Owed(debts, a), Need(a))[j]
  {
    TakesGreedy(Owed(debts, a), Need(a));
  }

  predicate SameAccount(a: Terms, b: Terms) {
    a.kind == b.kind && a.party == b.party
  }

  /** Payments of different accounts do not see each other. */
  lemma {:induction false} OtherAccount(debts: seq<Debt>, a: Terms, b: Terms)
    requires !SameAccount(a, b)
    ensures Shares(PayOff(debts, Shares(debts, a)), b) == Shares(debts, b)
  {
    var after := PayOff(debts, Shares(debts, a));
    TakesGreedy(Owed(debts, a), Need(a));
    forall i | 0 <= i < |debts|
      ensures Owed(after, b)[i] == Owed(debts, b)[i]
    {
      assert Shares(debts, a)[i] <= OwedOf(a)(debts[i]);
    }
    assert Owed(after, b) == Owed(debts, b);
  }

  /** Hence the order of two payments does not matter, whatever their accounts. */
  lemma {:induction false} PaymentsCommute(debts: seq<Debt>, a: Terms, b: Terms)
    ensures var first, second := PayOff(debts, Shares(debts, a)), PayOff(debts, Shares(debts, b));
            PayOff(first, Shares(first, b)) == PayOff(second, Shares(second, a))
  {
    if SameAccount(a, b) {
      PaymentsAdd(debts, a, b);
      PaymentsAdd(debts, b, a);
      assert Combined(a, b) == Combined(b, a);
    } else {
      OtherAccount(debts, a, b);
      OtherAccount(debts, b, a);
      var s, t := Shares(debts, a), Shares(debts, b);
      var both: seq<nat> := seq(|debts|, i requires 0 <= i < |debts| => s[i] + t[i]);
      PayOffTwice(debts, s, t, both);
      PayOffTwice(debts, t, s, both);
    }
  }

  // ---- conservation

  function PaidOf(d: Debt): Alloc -> int {
    (a: Alloc) => if a.kind == d.kind && a.doc == d.id then a.amount else 0
  }

  /** What the allocation rows say was paid of a debt. */
  function Paid(allocs: seq<Alloc>, d: Debt): int {
    Sum(allocs, PaidOf(d))
  }

  function SpentOf(payment: Id): Alloc -> int {
    (a: Alloc) => if a.payment == payment then a.amount else 0
  }

  /** What a payment has allocated. */
  function Spent(allocs: seq<Alloc>, payment: Id): int {
    Sum(allocs, SpentOf(payment))
  }

  ghost predicate DistinctDebts(debts: seq<Debt>) {
    forall i, j :: 0 <= i < j < |debts| ==> debts[i].id != debts[j].id
  }

  ghost predicate OldestFirst(debts: seq<Debt>) {
    forall i, j :: 0 <= i < j < |debts| ==> debts[i].date <= debts[j].date
  }

  predicate AllocOk(books: Books, a: Alloc) {
    && a.amount > 0 && a.doc < books.nextId
    && a.payment in books.payments && !books.payments[a.payment].deleted
  }

  /** Each document's paid amount is the sum of its allocation rows; each live payment
      allocates at most its amount; deleted payments allocate nothing. */
  ghost predicate Balanced(books: Books) {
    && DistinctDebts(books.debts) && OldestFirst(books.debts)
    && (forall d :: d in books.debts ==> d.id < books.nextId && d.paid == Paid(books.allocs, d))
    && (forall a :: a in books.allocs ==> AllocOk(books, a))
    && (forall p :: p in books.payments ==> p < books.nextId && Spent(books.allocs, p) <= Need(books.payments[p].terms))
  }

  lemma {:induction false} AllocsForMembers(debts: seq<Debt>, shares: seq<nat>, payment: Id)
    requires |shares| == |debts|
    ensures forall a :: a in AllocsFor(debts, shares, payment) ==>
              a.payment == payment && a.amount > 0 && exists d :: d in debts && d.id == a.doc && d.kind == a.kind
    decreases |debts|
  {
    if debts != [] {
      var n := |debts| - 1;
      AllocsForMembers(debts[..n], shares[..n], payment);
      forall a | a in AllocsFor(debts, shares, payment)
        ensures exists d :: d in debts && d.id == a.doc && d.kind == a.kind
      {
        if a in AllocsFor(debts[..n], shares[..n], payment) {
          var d :| d in debts[..n] && d.id == a.doc && d.kind == a.kind;
          assert d in debts;
        } else {
          assert debts[n] in debts;
        }
      }
    }
  }

  lemma {:induction false} AllocsForPaid(debts: seq<Debt>, shares: seq<nat>, payment: Id, i: nat)
    requires |shares| == |debts| && i < |debts| && DistinctDebts(debts)
    ensures Paid(AllocsFor(debts, shares, payment), debts[i]) == shares[i]
    ensures PaidBy(AllocsFor(debts, shares, payment), payment, debts[i]) == shares[i]
    decreases |debts|
  {
    var n := |debts| - 1;
    var before := AllocsFor(debts[..n], shares[..n], payment);
    AllocsForMembers(debts[..n], shares[..n], payment);
    if i < n {
      AllocsForPaid(debts[..n], shares[..n], payment, i);
    } else {
      forall a | a in before
        ensures a.doc != debts[n].id
      {
      }
      SumZero(before, PaidOf(debts[n]));
      SumZero(before, PaidByOf(payment, debts[n]));
    }
    if shares[n] > 0 {
      var a := Alloc(payment, debts[n].kind, debts[n].id, shares[n]);
      SumSnoc(before, a, PaidOf(debts[i]));
      SumSnoc(before, a, PaidByOf(payment, debts[i]));
    } else {
      assert before + [] == before;
    }
  }

  lemma {:induction false} AllocsForSpent(debts: seq<Debt>, shares: seq<nat>, payment: Id)
    requires |shares| == |debts|
    ensures Spent(AllocsFor(debts, shares, payment), payment) == Total(shares)
    decreases |debts|
  {
    if debts != [] {
      var n := |debts| - 1;
      var before := AllocsFor(debts[..n], shares[..n], payment);
      AllocsForSpent(debts[..n], shares[..n], payment);
      if shares[n] > 0 {
        SumSnoc(before, Alloc(payment, debts[n].kind, debts[n].id, shares[n]), SpentOf(payment));
      } else {
        assert before + [] == before;
      }
    }
  }

  /** Debts that keep place, id and date keep their keys and their order. */
  lemma {:induction false} KeysKept(debts: seq<Debt>, debts': seq<Debt>)
    requires DistinctDebts(debts) && OldestFirst(debts) && |debts'| == |debts|
    requires forall i :: 0 <= i < |debts| ==> debts'[i].id == debts[i].id && debts'[i].date == debts[i].date
    ensures DistinctDebts(debts') && OldestFirst(debts')
  {
  }

  lemma {:induction false} AllocatePaid(debts: seq<Debt>, allocs: seq<Alloc>, shares: seq<nat>, id: Id, nextId: Id)
    requires DistinctDebts(debts) && |shares| == |debts|
    requires forall d :: d in debts ==> d.id < nextId && d.paid == Paid(allocs, d)
    ensures forall d :: d in PayOff(debts, shares) ==>
              d.id < nextId && d.paid == Paid(allocs + AllocsFor(debts, shares, id), d)
  {
    var more, after := AllocsFor(debts, shares, id), PayOff(debts, shares);
    forall d | d in after
      ensures d.id < nextId && d.paid == Paid(allocs + more, d)
    {
      var i :| 0 <= i < |after| && after[i] == d;
      assert debts[i] in debts;
      AllocsForPaid(debts, shares, id, i);
      SumConcat(allocs, more, PaidOf(debts[i]));
      PaidSame(allocs + more, d, debts[i]);
    }
  }

  lemma {:induction false} AllocateAllocs(books: Books, shares: seq<nat>, id: Id)
    requires |shares| == |books.debts|
    requires forall d :: d in books.debts ==> d.id < books.nextId
    requires forall a :: a in books.allocs ==> AllocOk(books, a)
    requires id in books.payments && !books.payments[id].deleted
    ensures forall a :: a in books.allocs + AllocsFor(books.debts, shares, id) ==> AllocOk(books, a)
  {
    AllocsForMembers(books.debts, shares, id);
  }

  /** Allocating for a live payment that has allocated nothing keeps the books balanced. */
  lemma {:induction false} AllocateBalanced(books: Books, id: Id, terms: Terms)
    requires Balanced(books) && id in books.payments && books.payments[id] == Payment(terms, false)
    requires forall a :: a in books.allocs ==> a.payment != id
    ensures Balanced(Allocate(books, id, terms))
  {
    var shares := Shares(books.debts, terms);
    var books' := Allocate(books, id, terms);
    KeysKept(books.debts, books'.debts);
    AllocatePaid(books.debts, books.allocs, shares, id, books.nextId);
    AllocateAllocs(books, shares, id);
    forall a | a in books'.allocs
      ensures AllocOk(books', a)
    {
      assert AllocOk(books, a);
    }
    TakesTotal(Owed(books.debts, terms), Need(terms));
    forall p | p in books'.payments
      ensures Spent(books'.allocs, p) <= Need(books'.payments[p].terms)
    {
      SpentAfter(books, shares, id, p);
    }
  }

  lemma {:induction false} PaidSame(allocs: seq<Alloc>, d: Debt, e: Debt)
    requires d.kind == e.kind && d.id == e.id
    ensures Paid(allocs, d) == Paid(allocs, e)
  {
    SumSame(allocs, allocs, PaidOf(d), PaidOf(e));
  }

  lemma {:induction false} SpentAfter(books: Books, shares: seq<nat>, id: Id, p: Id)
    requires |shares| == |books.debts|
    requires forall a :: a in books.allocs ==> a.payment != id
    ensures Spent(books.allocs + AllocsFor(books.debts, shares, id), p)
            == if p == id then Total(shares) else Spent(books.allocs, p)
  {
    var more := AllocsFor(books.debts, shares, id);
    AllocsForMembers(books.debts, shares, id);
    SumConcat(books.allocs, more, SpentOf(p));
    if p == id {
      AllocsForSpent(books.debts, shares, id);
      SumZero(books.allocs, SpentOf(p));
    } else {
      SumZero(more, SpentOf(p));
    }
  }

  lemma {:induction false} RevertPaid(allocs: seq<Alloc>, payment: Id, d: Debt)
    ensures Paid(Filter(allocs, NotOf(payment)), d) == Paid(allocs, d) - PaidBy(allocs, payment, d)
  {
    var kept := PaidByOthersOf(payment, d);
    SumFilter(allocs, NotOf(payment), PaidOf(d), kept);
    SumPlus(allocs, kept, PaidByOf(payment, d), PaidOf(d));
  }

  function PaidByOthersOf(payment: Id, d: Debt): Alloc -> int {
    (a: Alloc) => if a.payment != payment && a.kind == d.kind && a.doc == d.id then a.amount else 0
  }

  lemma {:induction false} RevertSpent(allocs: seq<Alloc>, payment: Id, p: Id)
    ensures Spent(Filter(allocs, NotOf(payment)), p) == if p == payment then 0 else Spent(allocs, p)
  {
    if p == payment {
      SumZero(Filter(allocs, NotOf(payment)), SpentOf(p));
    } else {
      SumFilter(allocs, NotOf(payment), SpentOf(p), SpentOf(p));
    }
  }

  /** Reverting a payment keeps the books balanced and leaves nothing allocated to it. */
  lemma {:induction false} RevertBalanced(books: Books, id: Id)
    requires Balanced(books)
    ensures Balanced(Revert(books, id))
    ensures forall a :: a in Revert(books, id).allocs ==> a.payment != id
  {
    var books' := Revert(books, id);
    forall d | d in books'.debts
      ensures d.id < books'.nextId && d.paid == Paid(books'.allocs, d)
    {
      var i :| 0 <= i < |books'.debts| && books'.debts[i] == d;
      assert books.debts[i] in books.debts;
      RevertPaid(books.allocs, id, books.debts[i]);
      PaidSame(books'.allocs, d, books.debts[i]);
    }
    forall p | p in books'.payments
      ensures Spent(books'.allocs, p) <= Need(books'.payments[p].terms)
    {
      RevertSpent(books.allocs, id, p);
    }
  }

  lemma {:induction false} CreateBalanced(books: Books, terms: Terms)
    requires Balanced(books)
    ensures Balanced(Create(books, terms))
  {
    var id := books.nextId;
    var entered := books.(payments := books.payments[id := Payment(terms, false)], nextId := id + 1);
    forall a | a in books.allocs
      ensures a.payment != id
    {
      assert AllocOk(books, a);
    }
    SumZero(books.allocs, SpentOf(id));
    forall a | a in entered.allocs
      ensures AllocOk(entered, a)
    {
      assert AllocOk(books, a);
    }
    AllocateBalanced(entered, id, terms);
  }

  /** New terms for a payment that has allocated nothing. */
  lemma {:induction false} RenameBalanced(books: Books, id: Id, terms: Terms)
    requires Balanced(books) && id in books.payments
    requires forall a :: a in books.allocs ==> a.payment != id
    ensures Balanced(books.(payments := books.payments[id := Payment(terms, false)]))
  {
    var books' := books.(payments := books.payments[id := Payment(terms, false)]);
    SumZero(books.allocs, SpentOf(id));
    forall a | a in books'.allocs
      ensures AllocOk(books', a)
    {
      assert AllocOk(books, a);
    }
  }

  lemma {:induction false} EditBalanced(books: Books, id: Id, terms: Terms)
    requires Balanced(books) && Edit(books, id, terms).Some?
    ensures Balanced(Edit(books, id, terms).value)
  {
    RevertBalanced(books, id);
    var reverted := Revert(books, id);
    RenameBalanced(reverted, id, terms);
    AllocateBalanced(reverted.(payments := books.payments[id := Payment(terms, false)]), id, terms);
  }

  lemma {:induction false} DeleteBalanced(books: Books, id: Id)
    requires Balanced(books)
    ensures Balanced(Delete(books, id))
  {
    RevertBalanced(books, id);
  }

  // ---- documents

  lemma {:induction false} InsertDebtKeeps(debts: seq<Debt>, d: Debt)
    requires DistinctDebts(debts) && OldestFirst(debts) && forall e :: e in debts ==> e.id != d.id
    ensures DistinctDebts(InsertDebt(debts, d)) && OldestFirst(InsertDebt(debts, d))
    ensures var r := InsertDebt(debts, d); forall e :: e in r <==> e in debts || e == d
  {
    InsertMembers(debts, d, DebtDate());
    InsertPairwise(debts, d, DebtDate(), (a: Debt, b: Debt) => a.id != b.id);
    InsertPairwise(debts, d, DebtDate(), (a: Debt, b: Debt) => a.date <= b.date);
  }

  lemma {:induction false} RemoveDebtKeeps(debts: seq<Debt>, id: Id)
    requires DistinctDebts(debts) && OldestFirst(debts)
    ensures DistinctDebts(Filter(debts, Other(id))) && OldestFirst(Filter(debts, Other(id)))
  {
    FilterPairwise(debts, Other(id), (a: Debt, b: Debt) => a.id != b.id);
    FilterPairwise(debts, Other(id), (a: Debt, b: Debt) => a.date <= b.date);
  }

  lemma {:induction false} FindDebtFinds(debts: seq<Debt>, id: Id)
    ensures FindDebt(debts, id).Some? ==> FindDebt(debts, id).value in debts && FindDebt(debts, id).value.id == id
    decreases |debts|
  {
    if debts != [] {
      FindDebtFinds(debts[..|debts| - 1], id);
    }
  }

  lemma {:induction false} EnterBalanced(books: Books, kind: DebtKind, party: Option<Id>, date: int, amount: int)
    requires Balanced(books)
    ensures Balanced(Next(books, Enter(kind, party, date, amount)))
  {
    var d := Debt(books.nextId, kind, party, date, amount, 0, false);
    InsertDebtKeeps(books.debts, d);
    forall a | a in books.allocs
      ensures a.doc != d.id && AllocOk(books.(nextId := books.nextId + 1), a)
    {
      assert AllocOk(books, a);
    }
    SumZero(books.allocs, PaidOf(d));
  }

  lemma {:induction false} AmendBalanced(books: Books, id: Id, party: Option<Id>, date: int, amount: int)
    requires Balanced(books)
    ensures Balanced(Next(books, Amend(id, party, date, amount)))
  {
    FindDebtFinds(books.debts, id);
    var found := FindDebt(books.debts, id);
    if found.Some? {
      var d := found.value.(party := party, date := date, amount := amount);
      RemoveDebtKeeps(books.debts, id);
      InsertDebtKeeps(Filter(books.debts, Other(id)), d);
      PaidSame(books.allocs, d, found.value);
    }
  }

  lemma {:induction false} SetPostedBalanced(books: Books, id: Id, posted: bool)
    requires Balanced(books)
    ensures Balanced(Next(books, SetPosted(id, posted)))
  {
    var debts' := Next(books, SetPosted(id, posted)).debts;
    forall d | d in debts'
      ensures d.id < books.nextId && d.paid == Paid(books.allocs, d)
    {
      var i :| 0 <= i < |debts'| && debts'[i] == d;
      assert books.debts[i] in books.debts;
      PaidSame(books.allocs, d, books.debts[i]);
    }
  }

  lemma {:induction false} DropBalanced(books: Books, id: Id)
    requires Balanced(books)
    ensures Balanced(Next(books, Drop(id)))
  {
    RemoveDebtKeeps(books.debts, id);
  }

  /** Payment conservation over every run of payments and of the documents they pay. */
  lemma {:induction false} BalancedOverRuns(steps: seq<Step>)
    ensures Balanced(Run(EmptyBooks, steps))
    decreases |steps|
  {
    if steps != [] {
      var before := Run(EmptyBooks, steps[..|steps| - 1]);
      BalancedOverRuns(steps[..|steps| - 1]);
      match steps[|steps| - 1] {
        case Pay(terms) => CreateBalanced(before, terms);
        case Repay(id, terms) =>
          if Edit(before, id, terms).Some? {
            EditBalanced(before, id, terms);
          }
        case Cancel(id) => DeleteBalanced(before, id);
        case Enter(kind, party, date, amount) => EnterBalanced(before, kind, party, date, amount);
        case Amend(id, party, date, amount) => AmendBalanced(before, id, party, date, amount);
        case SetPosted(id, posted) => SetPostedBalanced(before, id, posted);
        case Drop(id) => DropBalanced(before, id);
      }
    }
  }

  // ---- editing, undoing and saving again

  /** The same row in the name of another payment. */
  function Reassigned(from: Id, to: Id): Alloc -> Alloc {
    (a: Alloc) => if a.payment == from then a.(payment := to) else a
  }

  lemma {:induction false} AllocsReassigned(debts: seq<Debt>, shares: seq<nat>, id: Id, to: Id)
    requires |shares| == |debts|
    ensures Map(AllocsFor(debts, shares, id), Reassigned(id, to)) == AllocsFor(debts, shares, to)
    decreases |debts|
  {
    if debts != [] {
      var n := |debts| - 1;
      AllocsReassigned(debts[..n], shares[..n], id, to);
      var last := if shares[n] > 0 then [Alloc(id, debts[n].kind, debts[n].id, shares[n])] else [];
      assert Map(AllocsFor(debts[..n], shares[..n], id) + last, Reassigned(id, to))
             == Map(AllocsFor(debts[..n], shares[..n], id), Reassigned(id, to)) + Map(last, Reassigned(id, to));
    }
  }

  /** Editing a payment leaves the paid amounts that deleting it and entering it anew
      leaves, and the same allocation rows but for the id of the payment. */
  lemma {:induction false} EditIsDeleteAndCreate(books: Books, id: Id, terms: Terms)
    requires Edit(books, id, terms).Some?
    ensures var edited, anew := Edit(books, id, terms).value, Create(Delete(books, id), terms);
            && edited.debts == anew.debts && edited.payments == books.payments[id := Payment(terms, false)]
            && Map(edited.allocs, Reassigned(id, books.nextId)) == anew.allocs
  {
    var reverted := Revert(books, id);
    var shares := Shares(reverted.debts, terms);
    var kept, more := reverted.allocs, AllocsFor(reverted.debts, shares, id);
    AllocsReassigned(reverted.debts, shares, id, books.nextId);
    assert Map(kept, Reassigned(id, books.nextId)) == kept by {
      assert forall i :: 0 <= i < |kept| ==> kept[i] in kept;
    }
    assert Map(kept + more, Reassigned(id, books.nextId))
           == Map(kept, Reassigned(id, books.nextId)) + Map(more, Reassigned(id, books.nextId));
  }

  /** Reverting a payment that has just been allocated gives back what it paid. */
  lemma {:induction false} RevertsShares(debts: seq<Debt>, allocs: seq<Alloc>, shares: seq<nat>, id: Id)
    requires DistinctDebts(debts) && |shares| == |debts|
    requires forall a :: a in allocs ==> a.payment != id
    ensures var all := allocs + AllocsFor(debts, shares, id);
            Map(PayOff(debts, shares), Unpaid(all, id)) == debts && Filter(all, NotOf(id)) == allocs
  {
    var more := AllocsFor(debts, shares, id);
    var paid := PayOff(debts, shares);
    AllocsForMembers(debts, shares, id);
    FilterConcat(allocs, more, NotOf(id));
    FilterAll(allocs, NotOf(id));
    FilterNone(more, NotOf(id));
    assert allocs + [] == allocs;
    forall i | 0 <= i < |debts|
      ensures Unpaid(allocs + more, id)(paid[i]) == debts[i]
    {
      AllocsForPaid(debts, shares, id, i);
      SumConcat(allocs, more, PaidByOf(id, debts[i]));
      SumZero(allocs, PaidByOf(id, debts[i]));
      SumSame(allocs + more, allocs + more, PaidByOf(id, paid[i]), PaidByOf(id, debts[i]));
    }
  }

  /** Entering a payment and deleting it again changes no paid amount and leaves no
      allocation behind. */
  lemma {:induction false} CreateThenDelete(books: Books, terms: Terms)
    requires Balanced(books)
    ensures var entered := Create(books, terms);
            var after := Delete(entered, books.nextId);
            && entered.payments == books.payments[books.nextId := Payment(terms, false)]
            && after.payments == books.payments[books.nextId := Payment(terms, true)]
            && after.debts == books.debts && after.allocs == books.allocs
  {
    forall a | a in books.allocs
      ensures a.payment != books.nextId
    {
      assert AllocOk(books, a);
    }
    RevertsShares(books.debts, books.allocs, Shares(books.debts, terms), books.nextId);
  }

  /** A deleted payment cannot be edited any more, and deleting it again changes nothing. */
  lemma {:induction false} DeletedForGood(books: Books, id: Id, terms: Terms)
    requires Balanced(books) && id in books.payments
    ensures Edit(Delete(books, id), id, terms).None?
    ensures Delete(Delete(books, id), id) == Delete(books, id)
  {
    var once := Delete(books, id);
    DeleteBalanced(books, id);
    forall a | a in once.allocs
      ensures a.payment != id
    {
      assert AllocOk(once, a);
    }
    FilterAll(once.allocs, NotOf(id));
    forall i | 0 <= i < |once.debts|
      ensures Map(once.debts, Unpaid(once.allocs, id))[i] == once.debts[i]
    {
      SumZero(once.allocs, PaidByOf(id, once.debts[i]));
    }
    assert Map(once.debts, Unpaid(once.allocs, id)) == once.debts;
  }

  /** What a payment has paid of each debt. */
  function Given(books: Books, id: Id): seq<int> {
    Map(books.debts, (d: Debt) => PaidBy(books.allocs, id, d))
  }

  /** Where saving a payment again changes nothing: every debt it paid can still be paid
      by it and is not overpaid; every debt of the account older than one it paid is
      settled; and if it did not spend its whole amount, the account is settled. */
  ghost predicate Settled(books: Books, id: Id, terms: Terms) {
    var given := Given(books, id);
    && (forall i :: 0 <= i < |given| && given[i] > 0 ==>
          Pays(terms, books.debts[i]) && books.debts[i].paid <= books.debts[i].amount)
    && (forall i, j :: 0 <= i < j < |given| && given[j] > 0 && Pays(terms, books.debts[i]) ==>
          books.debts[i].paid >= books.debts[i].amount)
    && (Sum(given, (x: int) => x) < Need(terms) ==>
          forall i {:trigger Pays(terms, books.debts[i])} :: 0 <= i < |given| && Pays(terms, books.debts[i]) ==>
            books.debts[i].paid >= books.debts[i].amount)
  }

  /** What the payment could be allocated once its own allocations are taken back. */
  function Reopened(books: Books, id: Id): seq<Debt> {
    Revert(books, id).debts
  }

  lemma {:induction false} GivenNonNegative(books: Books, id: Id)
    requires forall a :: a in books.allocs ==> a.amount > 0
    ensures forall i :: 0 <= i < |books.debts| ==> Given(books, id)[i] >= 0
  {
    forall i | 0 <= i < |books.debts|
      ensures Given(books, id)[i] >= 0
    {
      SumNonNegative(books.allocs, PaidByOf(id, books.debts[i]));
    }
  }

  function AsNat(s: seq<int>): (r: seq<nat>)
    requires forall i :: 0 <= i < |s| ==> s[i] >= 0
    ensures |r| == |s| && forall i :: 0 <= i < |s| ==> r[i] == s[i]
  {
    seq(|s|, i requires 0 <= i < |s| => s[i])
  }

  /** Saving restores the paid amounts exactly when the walk finds again what was given. */
  lemma {:induction false} ResaveIsWalk(books: Books, id: Id, terms: Terms, given: seq<nat>)
    requires id in books.payments && books.payments[id] == Payment(terms, false)
    requires given == Given(books, id)
    ensures Edit(books, id, terms).Some?
    ensures Edit(books, id, terms).value.debts == books.debts <==> Shares(Reopened(books, id), terms) == given
  {
    assert Edit(books, id, terms).value.debts == PayOff(Reopened(books, id), Shares(Reopened(books, id), terms));
    PaidBack(books.debts, given, Reopened(books, id), Shares(Reopened(books, id), terms));
  }

  lemma {:induction false} PaidBack(debts: seq<Debt>, given: seq<nat>, open: seq<Debt>, shares: seq<nat>)
    requires |given| == |debts| == |open| == |shares|
    requires forall i :: 0 <= i < |debts| ==> open[i] == debts[i].(paid := debts[i].paid - given[i])
    ensures PayOff(open, shares) == debts <==> shares == given
  {
    var after := PayOff(open, shares);
    if after == debts {
      forall i | 0 <= i < |shares|
        ensures shares[i] == given[i]
      {
        assert after[i].paid == debts[i].paid;
      }
    }
  }

  /** What is owed once the payment is taken back, debt by debt. */
  lemma {:induction false} OwedReopened(books: Books, id: Id, terms: Terms, i: nat)
    requires i < |books.debts|
    ensures var d, g := books.debts[i], Given(books, id)[i];
            Owed(Reopened(books, id), terms)[i]
            == if Pays(terms, d) && d.paid - g < d.amount then d.amount - d.paid + g else 0
  {
    assert Reopened(books, id)[i] == books.debts[i].(paid := books.debts[i].paid - Given(books, id)[i]);
  }

  /** The same condition read off the debts as they stand. */
  lemma {:induction false} SettledIsGreedy(books: Books, id: Id, terms: Terms, given: seq<nat>, owed: seq<nat>)
    requires given == Given(books, id) && owed == Owed(Reopened(books, id), terms)
    ensures Greedy(owed, given) <==>
              && (forall i :: 0 <= i < |given| && given[i] > 0 ==>
                    Pays(terms, books.debts[i]) && books.debts[i].paid <= books.debts[i].amount)
              && (forall i, j :: 0 <= i < j < |given| && given[j] > 0 && Pays(terms, books.debts[i]) ==>
                    books.debts[i].paid >= books.debts[i].amount)
  {
    forall i | 0 <= i < |given|
      ensures var d := books.debts[i];
              owed[i] == if Pays(terms, d) && d.paid - given[i] < d.amount then d.amount - d.paid + given[i] else 0
    {
      OwedReopened(books, id, terms, i);
    }
  }

  lemma {:induction false} TotalLess(a: seq<nat>, b: seq<nat>)
    requires |a| == |b| && forall i :: 0 <= i < |a| ==> a[i] <= b[i]
    ensures Total(a) <= Total(b)
    ensures Total(a) == Total(b) <==> a == b
    decreases |a|
  {
    if a != [] {
      var n := |a| - 1;
      TotalLess(a[..n], b[..n]);
      assert a == a[..n] + [a[n]] && b == b[..n] + [b[n]];
    }
  }

  lemma {:induction false} TotalIsPlainSum(given: seq<int>, g: seq<nat>)
    requires g == given
    ensures Total(g) == Sum(given, (x: int) => x)
  {
    TotalIsSum(g, given, (x: int) => x);
  }

  /** With greedy shares, nothing is left owed exactly when the account is settled. */
  lemma {:induction false} OwedAll(books: Books, id: Id, terms: Terms, given: seq<nat>, owed: seq<nat>)
    requires given == Given(books, id) && owed == Owed(Reopened(books, id), terms) && Greedy(owed, given)
    ensures owed == given <==>
              forall i {:trigger Pays(terms, books.debts[i])} :: 0 <= i < |given| && Pays(terms, books.debts[i]) ==>
                books.debts[i].paid >= books.debts[i].amount
  {
    forall i | 0 <= i < |given|
      ensures owed[i] == given[i] <==> (Pays(terms, books.debts[i]) ==> books.debts[i].paid >= books.debts[i].amount)
    {
      OwedReopened(books, id, terms, i);
      assert given[i] <= owed[i];
    }
  }

  /** Saving a payment again unchanged restores every paid amount exactly when the account
      stood settled oldest first around what the payment paid. */
  lemma {:induction false} ResaveRestores(books: Books, id: Id, terms: Terms)
    requires Balanced(books) && id in books.payments && books.payments[id] == Payment(terms, false)
    ensures Edit(books, id, terms).Some?
    ensures Edit(books, id, terms).value.debts == books.debts <==> Settled(books, id, terms)
  {
    forall a | a in books.allocs
      ensures a.amount > 0
    {
      assert AllocOk(books, a);
    }
    GivenNonNegative(books, id);
    var given := AsNat(Given(books, id));
    assert given == Given(books, id);
    var owed := Owed(Reopened(books, id), terms);
    ResaveIsWalk(books, id, terms, given);
    WalkFinds(owed, Need(terms), given);
    GivenWithin(books, id, given);
    SettledIff(books, id, terms, given, owed);
  }

  lemma {:induction false} SettledIff(books: Books, id: Id, terms: Terms, given: seq<nat>, owed: seq<nat>)
    requires given == Given(books, id) && owed == Owed(Reopened(books, id), terms)
    ensures Settled(books, id, terms) <==> Greedy(owed, given) && (Total(given) < Need(terms) ==> owed == given)
  {
    SettledIsGreedy(books, id, terms, given, owed);
    TotalIsPlainSum(Given(books, id), given);
    if Greedy(owed, given) {
      OwedAll(books, id, terms, given, owed);
    }
  }

  /** When the walk finds given shares. */
  lemma {:induction false} WalkFinds(owed: seq<nat>, need: nat, given: seq<nat>)
    requires |given| == |owed|
    ensures Takes(owed, need) == given <==>
              Greedy(owed, given) && (Total(given) == need || (Total(given) < need && owed == given))
  {
    TakesGreedy(owed, need);
    TakesTotal(owed, need);
    if Takes(owed, need) == given && Total(given) != need {
      TotalLess(given, owed);
    }
    if Greedy(owed, given) {
      GreedyUnique(owed, given);
      if Total(given) < need && owed == given {
        WalkTakesAll(owed, need);
      }
    }
  }

  lemma {:induction false} WalkTakesAll(owed: seq<nat>, need: nat)
    requires Total(owed) <= need
    ensures Takes(owed, need) == owed
  {
    TakesTotal(owed, need);
    TotalLess(Takes(owed, need), owed);
  }

  /** The books' debts carry no more of a payment than it has spent. */
  lemma {:induction false} GivenWithin(books: Books, id: Id, given: seq<nat>)
    requires Balanced(books) && id in books.payments && given == Given(books, id)
    ensures Total(given) <= Need(books.payments[id].terms)
  {
    assert books.debts[..|books.debts|] == books.debts && given[..|given|] == given;
    GivenPrefix(books, id, given, |given|);
    var f := ToFirstOf(books.debts, id);
    forall a | a in books.allocs
      ensures f(a) <= SpentOf(id)(a)
    {
      assert AllocOk(books, a);
    }
    SumMonotone(books.allocs, f, SpentOf(id));
  }

  /** What a row pays of one of the given debts. */
  function ToFirstOf(debts: seq<Debt>, id: Id): Alloc -> int {
    (a: Alloc) => if a.payment == id && exists d :: d in debts && d.kind == a.kind && d.id == a.doc then a.amount else 0
  }

  lemma {:induction false} GivenPrefix(books: Books, id: Id, given: seq<nat>, n: nat)
    requires DistinctDebts(books.debts) && given == Given(books, id) && n <= |given|
    ensures Total(given[..n]) == Sum(books.allocs, ToFirstOf(books.debts[..n], id))
    decreases n
  {
    var f := ToFirstOf(books.debts[..n], id);
    if n == 0 {
      SumZero(books.allocs, f);
    } else {
      GivenPrefix(books, id, given, n - 1);
      TotalPrefix(given, n - 1);
      var d := books.debts[n - 1];
      assert books.debts[..n] == books.debts[..n - 1] + [d];
      SumPlus(books.allocs, ToFirstOf(books.debts[..n - 1], id), PaidByOf(id, d), f);
    }
  }
}
