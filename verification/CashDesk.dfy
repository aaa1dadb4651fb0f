// The cash transaction handlers as they run: loops that allocate a payment debt by debt
// and take allocations back row by row, each proved to do what the functions on the
// books say.

module CashDesk {
  import opened Sums
  import opened Fifo
  import opened Payments

  lemma {:induction false} Appended(earlier: seq<Alloc>, more: seq<Alloc>, a: Alloc)
    ensures earlier + more + [a] == earlier + (more + [a])
  {
  }

  /** The update that takes one allocation row back. */
  function TakeBack(a: Alloc): Debt -> Debt {
    (d: Debt) => if d.kind == a.kind && d.id == a.doc then d.(paid := d.paid - a.amount) else d
  }

  lemma {:induction false} RevertStep(debts: seq<Debt>, allocs: seq<Alloc>, payment: Id, a: Alloc)
    ensures Map(debts, Unpaid(allocs + [a], payment))
            == if a.payment == payment then Map(Map(debts, Unpaid(allocs, payment)), TakeBack(a))
               else Map(debts, Unpaid(allocs, payment))
  {
    forall d | d in debts
      ensures PaidBy(allocs + [a], payment, d)
              == PaidBy(allocs, payment, d)
                 + if a.payment == payment && a.kind == d.kind && a.doc == d.id then a.amount else 0
    {
      SumSnoc(allocs, a, PaidByOf(payment, d));
    }
  }

  lemma {:induction false} RevertNothing(debts: seq<Debt>, payment: Id)
    ensures Map(debts, Unpaid([], payment)) == debts
  {
  }

  class CashDesk {
    var debts: seq<Debt>
    var payments: map<Id, Payment>
    var allocs: seq<Alloc>
    var nextId: Id

    function State(): Books
      reads this
    {
      Books(debts, payments, allocs, nextId)
    }

    ghost predicate Valid()
      reads this
    {
      Balanced(State())
    }

    constructor ()
      ensures Valid() && State() == EmptyBooks
    {
      debts, payments, allocs, nextId := [], map[], [], 0;
    }

    /** The FIFO loop over the unpaid documents. */
    method AllocateFifo(id: Id, terms: Terms)
      modifies this`debts, this`allocs
      ensures State() == Allocate(old(State()), id, terms)
    {
      var remaining := Need(terms);
      ghost var more := [];
      ghost var before := debts;
      ghost var owed := Owed(before, terms);
      WalkStarts(before, owed, Need(terms), PayDebt(), AllocOf(id));
      var i := 0;
      while i < |debts| && remaining > 0
        invariant |debts| == |before|
        invariant allocs == old(allocs) + more
        invariant Walking(before, owed, Need(terms), PayDebt(), AllocOf(id), i, debts, remaining, more)
        decreases |before| - i
      {
        ghost var was, open, written := debts, remaining, more;
        var d := debts[i];
        if Pays(terms, d) && d.paid < d.amount {
          var share := Min(d.amount - d.paid, remaining);
          var row := Alloc(id, d.kind, d.id, share);
          Appended(old(allocs), more, row);
          allocs, more := allocs + [row], more + [row];
          debts, remaining := debts[i := d.(paid := d.paid + share)], remaining - share;
        }
        i := i + 1;
        WalkTurns(before, owed, Need(terms), PayDebt(), AllocOf(id), i - 1, was, open, written, i, debts, remaining,
                  more);
      }
      WalkEnds(before, owed, Need(terms), PayDebt(), AllocOf(id), i, debts, remaining, more);
    }

    /** Takes back what a payment paid, row by row, and deletes its rows. */
    method RevertAllocations(id: Id)
      modifies this`debts, this`allocs
      ensures State() == Revert(old(State()), id)
    {
      ghost var before := debts;
      RevertNothing(before, id);
      assert allocs[..0] == [];
      for k := 0 to |allocs|
        invariant allocs == old(allocs)
        invariant debts == Map(before, Unpaid(allocs[..k], id))
      {
        RevertStep(before, allocs[..k], id, allocs[k]);
        assert allocs[..k + 1] == allocs[..k] + [allocs[k]];
        if allocs[k].payment == id {
          debts := Map(debts, TakeBack(allocs[k]));
        }
      }
      assert allocs[..|allocs|] == allocs;
      allocs := Filter(allocs, Payments.NotOf(id));
    }

    method EnterPayment(terms: Terms) returns (id: Id)
      modifies this
      ensures id == old(nextId) && State() == Create(old(State()), terms)
    {
      id := nextId;
      payments := payments[id := Payment(terms, false)];
      nextId := id + 1;
      AllocateFifo(id, terms);
    }

    /** A transaction on a cashbox that does not exist is refused. */
    method CreateTransaction(cashboxExists: bool, terms: Terms) returns (id: Option<Id>)
      requires Valid()
      modifies this
      ensures Valid()
      ensures id == if cashboxExists then Some(old(nextId)) else None
      ensures State() == if cashboxExists then Create(old(State()), terms) else old(State())
    {
      if !cashboxExists {
        return None;
      }
      CreateBalanced(State(), terms);
      var entered := EnterPayment(terms);
      return Some(entered);
    }

    method EditTransaction(id: Id, terms: Terms) returns (found: bool)
      requires Valid()
      modifies this
      ensures Valid()
      ensures found <==> Edit(old(State()), id, terms).Some?
      ensures State() == if found then Edit(old(State()), id, terms).value else old(State())
    {
      if id !in payments || payments[id].deleted {
        return false;
      }
      EditBalanced(State(), id, terms);
      RevertAllocations(id);
      payments := payments[id := Payment(terms, false)];
      AllocateFifo(id, terms);
      return true;
    }

    method DeleteTransaction(id: Id)
      requires Valid()
      modifies this
      ensures Valid()
      ensures State() == Delete(old(State()), id)
    {
      DeleteBalanced(State(), id);
      RevertAllocations(id);
      if id in payments {
        payments := payments[id := payments[id].(deleted := true)];
      }
    }
  }
}
