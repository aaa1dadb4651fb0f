// The offline push: a list of upserts, partial updates and deletes applied to the order
// table one by one, each change on its own. Sending the list again is harmless.

module Push {
  import opened Sums

  type Id = string

  datatype Operation = INSERT | UPDATE | DELETE | UNKNOWN

  /** The fields of a change; None is a field the client left out. */
  datatype Data = Data(
    counterpartyId: Option<Id>, status: Option<string>, total: Option<int>, items: Option<string>,
    isDeleted: Option<bool>, date: Option<int>)

  datatype Change = Change(id: Id, operation: Operation, data: Option<Data>)

  /** A time the client sent, or the server's clock, whose value is left open. */
  datatype Stamp = Sent(time: int) | ServerTime

  datatype Order = Order(
    userId: Id, counterpartyId: Option<Id>, status: string, total: int, items: string, isDeleted: bool,
    createdAt: Stamp)

  datatype Sender = Sender(userId: Id, admin: bool)

  function Or<T>(o: Option<T>, default: T): T {
    match o case Some(v) => v case None => default
  }

  // ---- one change on one row

  /** Insertion fills in what is missing or empty; a row that exists keeps its owner and
      loses everything else. */
  function Inserted(sender: Sender, d: Data, row: Option<Order>): Order {
    Order(
      if row.Some? then row.value.userId else sender.userId,
      if d.counterpartyId == Some("") then None else d.counterpartyId,
      if d.status.None? || d.status.value == "" then "pending" else d.status.value,
      Or(d.total, 0),
      Or(d.items, "[]"),
      Or(d.isDeleted, false),
      if d.date.Some? then Sent(d.date.value) else ServerTime)
  }

  /** An update keeps what the change leaves out. */
  function Updated(d: Data, row: Order): Order {
    row.(
      counterpartyId := if d.counterpartyId.Some? then d.counterpartyId else row.counterpartyId,
      status := Or(d.status, row.status),
      total := Or(d.total, row.total),
      items := Or(d.items, row.items),
      isDeleted := Or(d.isDeleted, row.isDeleted),
      createdAt := if d.date.Some? then Sent(d.date.value) else row.createdAt)
  }

  /** A change without data, or a delete by someone who is not an admin, fails. */
  predicate Fails(sender: Sender, c: Change) {
    match c.operation
    case INSERT => c.data.None?
    case UPDATE => c.data.None?
    case DELETE => !sender.admin
    case UNKNOWN => false
  }

  function RowAfterChange(sender: Sender, c: Change, row: Option<Order>): Option<Order> {
    if Fails(sender, c) then row
    else
      match c.operation
      case INSERT => Some(Inserted(sender, c.data.value, row))
      case UPDATE => if row.Some? then Some(Updated(c.data.value, row.value)) else None
      case DELETE => None
      case UNKNOWN => row
  }

  // ---- the table

  function Row(orders: map<Id, Order>, id: Id): Option<Order> {
    if id in orders then Some(orders[id]) else None
  }

  function PushOne(sender: Sender, orders: map<Id, Order>, c: Change): map<Id, Order> {
    match RowAfterChange(sender, c, Row(orders, c.id))
    case Some(row) => orders[c.id := row]
    case None => orders - {c.id}
  }

  function PushAll(sender: Sender, orders: map<Id, Order>, changes: seq<Change>): map<Id, Order>
    decreases |changes|
  {
    if changes == [] then orders
    else PushOne(sender, PushAll(sender, orders, changes[..|changes| - 1]), changes[|changes| - 1])
  }

  /** What the server answers for each change. */
  datatype Outcome = Outcome(id: Id, success: bool)

  lemma {:induction false} PushOneCases(sender: Sender, orders: map<Id, Order>, c: Change)
    ensures Row(PushOne(sender, orders, c), c.id) == RowAfterChange(sender, c, Row(orders, c.id))
    ensures RowAfterChange(sender, c, Row(orders, c.id)) == Row(orders, c.id) ==> PushOne(sender, orders, c) == orders
  {
  }

  // ---- row by row

  /** What a list of changes makes of the row of one order. */
  function RowAfter(sender: Sender, changes: seq<Change>, id: Id, row: Option<Order>): Option<Order>
    decreases |changes|
  {
    if changes == [] then row
    else
      var before := RowAfter(sender, changes[..|changes| - 1], id, row);
      var c := changes[|changes| - 1];
      if c.id == id then RowAfterChange(sender, c, before) else before
  }

  /** Orders do not interfere: the table after a push is the rows after their own changes. */
  lemma {:induction false} PushRowByRow(sender: Sender, orders: map<Id, Order>, changes: seq<Change>, id: Id)
    ensures Row(PushAll(sender, orders, changes), id) == RowAfter(sender, changes, id, Row(orders, id))
    decreases |changes|
  {
    if changes != [] {
      PushRowByRow(sender, orders, changes[..|changes| - 1], id);
    }
  }

  lemma {:induction false} SameRowsSameTable(a: map<Id, Order>, b: map<Id, Order>)
    requires forall id :: Row(a, id) == Row(b, id)
    ensures a == b
  {
    forall id
      ensures id in a <==> id in b
      ensures id in a ==> a[id] == b[id]
    {
      assert Row(a, id) == Row(b, id);
    }
  }

  // ---- the effect of a list on a row, in closed form

  /** The last value a list sends for each field. */
  datatype Overlay = Overlay(
    counterpartyId: Option<Option<Id>>, status: Option<string>, total: Option<int>, items: Option<string>,
    isDeleted: Option<bool>, createdAt: Option<Stamp>)

  /** A list either decides the row outright, or overlays a row that is there and says
      what becomes of a row that is not. */
  datatype Effect = Decides(row: Option<Order>) | Overlays(overlay: Overlay, missing: Option<Order>)

  function Laid(o: Overlay, row: Order): Order {
    row.(
      counterpartyId := Or(o.counterpartyId, row.counterpartyId),
      status := Or(o.status, row.status),
      total := Or(o.total, row.total),
      items := Or(o.items, row.items),
      isDeleted := Or(o.isDeleted, row.isDeleted),
      createdAt := Or(o.createdAt, row.createdAt))
  }

  function Takes(e: Effect, row: Option<Order>): Option<Order> {
    match e
    case Decides(r) => r
    case Overlays(o, missing) => if row.Some? then Some(Laid(o, row.value)) else missing
  }

  /** A row made where there was none already shows every field the list sends. */
  predicate Steady(e: Effect) {
    e.Overlays? && e.missing.Some? ==> Laid(e.overlay, e.missing.value) == e.missing.value
  }

  function OverlayOf(row: Order): Overlay {
    Overlay(Some(row.counterpartyId), Some(row.status), Some(row.total), Some(row.items), Some(row.isDeleted),
            Some(row.createdAt))
  }

  function Over(o: Overlay, d: Data): Overlay {
    Overlay(
      if d.counterpartyId.Some? then Some(d.counterpartyId) else o.counterpartyId,
      if d.status.Some? then d.status else o.status,
      if d.total.Some? then d.total else o.total,
      if d.items.Some? then d.items else o.items,
      if d.isDeleted.Some? then d.isDeleted else o.isDeleted,
      if d.date.Some? then Some(Sent(d.date.value)) else o.createdAt)
  }

  function EffectOf(sender: Sender, changes: seq<Change>, id: Id): Effect
    decreases |changes|
  {
    if changes == [] then Overlays(Overlay(None, None, None, None, None, None), None)
    else
      var before := EffectOf(sender, changes[..|changes| - 1], id);
      var c := changes[|changes| - 1];
      if c.id != id || Fails(sender, c) then before
      else
        match c.operation
        case INSERT =>
          (match before
           case Decides(r) => Decides(Some(Inserted(sender, c.data.value, r)))
           case Overlays(_, missing) =>
             Overlays(OverlayOf(Inserted(sender, c.data.value, None)), Some(Inserted(sender, c.data.value, missing))))
        case UPDATE =>
          (match before
           case Decides(r) => Decides(if r.Some? then Some(Updated(c.data.value, r.value)) else None)
           case Overlays(o, missing) =>
             Overlays(Over(o, c.data.value),
                      if missing.Some? then Some(Updated(c.data.value, missing.value)) else None))
        case DELETE => Decides(None)
        case UNKNOWN => before
  }

  lemma {:induction false} EffectIsList(sender: Sender, changes: seq<Change>, id: Id, row: Option<Order>)
    ensures RowAfter(sender, changes, id, row) == Takes(EffectOf(sender, changes, id), row)
    decreases |changes|
  {
    if changes != [] {
      EffectIsList(sender, changes[..|changes| - 1], id, row);
    }
  }

  lemma {:induction false} EffectSteady(sender: Sender, changes: seq<Change>, id: Id)
    ensures Steady(EffectOf(sender, changes, id))
    decreases |changes|
  {
    if changes != [] {
      EffectSteady(sender, changes[..|changes| - 1], id);
    }
  }

  /** Applying a list twice leaves the row that applying it once leaves. */
  lemma {:induction false} ListIdempotent(sender: Sender, changes: seq<Change>, id: Id, row: Option<Order>)
    ensures RowAfter(sender, changes, id, RowAfter(sender, changes, id, row)) == RowAfter(sender, changes, id, row)
  {
    EffectIsList(sender, changes, id, row);
    EffectIsList(sender, changes, id, RowAfter(sender, changes, id, row));
    EffectSteady(sender, changes, id);
  }

  lemma {:induction false} RowAfterConcat(sender: Sender, a: seq<Change>, b: seq<Change>, id: Id, row: Option<Order>)
    ensures RowAfter(sender, a + b, id, row) == RowAfter(sender, b, id, RowAfter(sender, a, id, row))
    decreases |b|
  {
    if b == [] {
      assert a + b == a;
    } else {
      assert (a + b)[..|a + b| - 1] == a + b[..|b| - 1];
      RowAfterConcat(sender, a, b[..|b| - 1], id, row);
    }
  }

  /** Push is retry-safe: when only the first `k` changes got through, sending the whole
      list again leaves the table that sending it once would have left. */
  lemma {:induction false} RetrySafe(sender: Sender, orders: map<Id, Order>, changes: seq<Change>, k: nat)
    requires k <= |changes|
    ensures PushAll(sender, PushAll(sender, orders, changes[..k]), changes) == PushAll(sender, orders, changes)
  {
    var partial := PushAll(sender, orders, changes[..k]);
    assert changes == changes[..k] + changes[k..];
    forall id
      ensures Row(PushAll(sender, partial, changes), id) == Row(PushAll(sender, orders, changes), id)
    {
      var row := Row(orders, id);
      PushRowByRow(sender, orders, changes[..k], id);
      PushRowByRow(sender, partial, changes, id);
      PushRowByRow(sender, orders, changes, id);
      RowAfterConcat(sender, changes[..k], changes[k..], id, row);
      RowAfterConcat(sender, changes[..k], changes[k..], id, RowAfter(sender, changes[..k], id, row));
      ListIdempotent(sender, changes[..k], id, row);
    }
    SameRowsSameTable(PushAll(sender, partial, changes), PushAll(sender, orders, changes));
  }

  // ---- the last change that sends a field decides it

  datatype Field = Party | Status | Total | Items | Deleted | Created

  datatype Value =
    | Reference(id: Option<Id>)
    | Text(text: string)
    | Number(number: int)
    | Flag(flag: bool)
    | At(at: Stamp)

  function Get(o: Order, f: Field): Value {
    match f
    case Party => Reference(o.counterpartyId)
    case Status => Text(o.status)
    case Total => Number(o.total)
    case Items => Text(o.items)
    case Deleted => Flag(o.isDeleted)
    case Created => At(o.createdAt)
  }

  /** What a change sends for a field, if it sends it. */
  function SentFor(d: Data, f: Field): Option<Value> {
    match f
    case Party => if d.counterpartyId.Some? then Some(Reference(d.counterpartyId)) else None
    case Status => if d.status.Some? then Some(Text(d.status.value)) else None
    case Total => if d.total.Some? then Some(Number(d.total.value)) else None
    case Items => if d.items.Some? then Some(Text(d.items.value)) else None
    case Deleted => if d.isDeleted.Some? then Some(Flag(d.isDeleted.value)) else None
    case Created => if d.date.Some? then Some(At(Sent(d.date.value))) else None
  }

  /** What an upsert stores for a field that the change leaves out. */
  function Default(f: Field): Value {
    match f
    case Party => Reference(None)
    case Status => Text("pending")
    case Total => Number(0)
    case Items => Text("[]")
    case Deleted => Flag(false)
    case Created => At(ServerTime)
  }

  /** What a change makes of a field of its row: an upsert stores what it sends, or the
      default; an update stores what it sends. An upsert that sends an empty status or an empty
      counterparty sends nothing. */
  function Stores(c: Change, f: Field): Option<Value> {
    if c.data.None? then None
    else
      var sent := SentFor(c.data.value, f);
      match c.operation
      case INSERT =>
        if sent.None? || (f.Status? && sent == Some(Text(""))) || sent == Some(Reference(Some("")))
        then Some(Default(f))
        else sent
      case UPDATE => sent
      case DELETE => None
      case UNKNOWN => None
  }

  /** The change neither decides the field of this row, nor creates or deletes the row. */
  predicate Leaves(sender: Sender, c: Change, id: Id, f: Field) {
    || c.id != id
    || c.operation.UNKNOWN?
    || (c.operation.DELETE? && !sender.admin)
    || (c.operation.INSERT? && c.data.None?)
    || (c.operation.UPDATE? && Stores(c, f).None?)
  }

  lemma {:induction false} LeftAlone(sender: Sender, changes: seq<Change>, id: Id, row: Option<Order>, f: Field)
    requires forall c :: c in changes ==> Leaves(sender, c, id, f)
    ensures var after := RowAfter(sender, changes, id, row);
            (after.Some? <==> row.Some?) && (row.Some? ==> Get(after.value, f) == Get(row.value, f))
    decreases |changes|
  {
    if changes != [] {
      LeftAlone(sender, changes[..|changes| - 1], id, row, f);
      assert changes[|changes| - 1] in changes;
    }
  }

  lemma {:induction false} StoredBy(sender: Sender, c: Change, row: Option<Order>, f: Field)
    requires Stores(c, f).Some? && (c.operation.UPDATE? ==> row.Some?)
    ensures var after := RowAfterChange(sender, c, row); after.Some? && Get(after.value, f) == Stores(c, f).value
  {
  }

  /** The row after the changes up to the `k`-th, and then the ones behind it. */
  lemma {:induction false} RowInTwo(sender: Sender, changes: seq<Change>, k: nat, id: Id, row: Option<Order>)
    requires k < |changes| && changes[k].id == id
    ensures RowAfter(sender, changes, id, row)
            == RowAfter(sender, changes[k + 1..], id,
                        RowAfterChange(sender, changes[k], RowAfter(sender, changes[..k], id, row)))
  {
    assert changes[..k + 1][..k] == changes[..k];
    assert changes == changes[..k + 1] + changes[k + 1..];
    RowAfterConcat(sender, changes[..k + 1], changes[k + 1..], id, row);
  }

  /** After a push, a field of an order has the value that the last change deciding it sent: an
      upsert, or an update of an order that was there; what comes later and leaves the field
      alone does not matter. */
  lemma {:induction false} LastDecides(sender: Sender, orders: map<Id, Order>, changes: seq<Change>, k: nat, f: Field)
    requires k < |changes| && Stores(changes[k], f).Some?
    requires changes[k].operation.UPDATE? ==> changes[k].id in PushAll(sender, orders, changes[..k])
    requires forall m :: k < m < |changes| ==> Leaves(sender, changes[m], changes[k].id, f)
    ensures var after, id := PushAll(sender, orders, changes), changes[k].id;
            id in after && Get(after[id], f) == Stores(changes[k], f).value
  {
    var id := changes[k].id;
    var row, rest := Row(orders, id), changes[k + 1..];
    var before := RowAfter(sender, changes[..k], id, row);
    PushRowByRow(sender, orders, changes[..k], id);
    PushRowByRow(sender, orders, changes, id);
    RowInTwo(sender, changes, k, id, row);
    StoredBy(sender, changes[k], before, f);
    LaterChanges(changes, k, c => Leaves(sender, c, id, f));
    LeftAlone(sender, rest, id, RowAfterChange(sender, changes[k], before), f);
  }

  lemma {:induction false} LaterChanges(changes: seq<Change>, k: nat, p: Change -> bool)
    requires k < |changes| && forall m :: k < m < |changes| ==> p(changes[m])
    ensures forall c :: c in changes[k + 1..] ==> p(c)
  {
    var rest := changes[k + 1..];
    forall c | c in rest
      ensures p(c)
    {
      var m :| 0 <= m < |rest| && rest[m] == c;
      assert c == changes[k + 1 + m];
    }
  }

  /** Whether an order exists after a push: the last upsert, or hard delete by an admin, says. */
  lemma {:induction false} LastCreatesOrDeletes(sender: Sender, orders: map<Id, Order>, changes: seq<Change>, k: nat)
    requires k < |changes|
    requires (changes[k].operation.INSERT? && changes[k].data.Some?) || (changes[k].operation.DELETE? && sender.admin)
    requires forall m :: k < m < |changes| && changes[m].id == changes[k].id ==>
               !(changes[m].operation.INSERT? && changes[m].data.Some?)
               && !(changes[m].operation.DELETE? && sender.admin)
    ensures changes[k].id in PushAll(sender, orders, changes) <==> changes[k].operation.INSERT?
  {
    var id := changes[k].id;
    var row, rest := Row(orders, id), changes[k + 1..];
    PushRowByRow(sender, orders, changes, id);
    RowInTwo(sender, changes, k, id, row);
    LaterChanges(changes, k, (c: Change) =>
      c.id == id ==> !(c.operation.INSERT? && c.data.Some?) && !(c.operation.DELETE? && sender.admin));
    StaysOrNot(sender, rest, id, RowAfterChange(sender, changes[k], RowAfter(sender, changes[..k], id, row)));
  }

  lemma {:induction false} StaysOrNot(sender: Sender, changes: seq<Change>, id: Id, row: Option<Order>)
    requires forall c :: c in changes && c.id == id ==>
               !(c.operation.INSERT? && c.data.Some?) && !(c.operation.DELETE? && sender.admin)
    ensures RowAfter(sender, changes, id, row).Some? <==> row.Some?
    decreases |changes|
  {
    if changes != [] {
      StaysOrNot(sender, changes[..|changes| - 1], id, row);
      assert changes[|changes| - 1] in changes;
    }
  }

  /** The owner of an order is who first inserted it; later upserts do not change it. */
  lemma {:induction false} OwnerStays(sender: Sender, c: Change, row: Option<Order>)
    requires RowAfterChange(sender, c, row).Some?
    ensures RowAfterChange(sender, c, row).value.userId == if row.Some? then row.value.userId else sender.userId
  {
  }

  class OrderTable {
    var orders: map<Id, Order>

    constructor ()
      ensures orders == map[]
    {
      orders := map[];
    }

    /** The change loop: every change stands alone, a failing one leaves its row as it was. */
    method Push(sender: Sender, changes: seq<Change>) returns (outcomes: seq<Outcome>)
      modifies this
      ensures orders == PushAll(sender, old(orders), changes)
      ensures outcomes == Map(changes, (c: Change) => Outcome(c.id, !Fails(sender, c)))
    {
      outcomes := [];
      for i := 0 to |changes|
        invariant orders == PushAll(sender, old(orders), changes[..i])
        invariant outcomes == Map(changes[..i], (c: Change) => Outcome(c.id, !Fails(sender, c)))
      {
        var c := changes[i];
        assert changes[..i + 1][..i] == changes[..i];
        if c.operation.INSERT? && c.data.Some? {
          orders := orders[c.id := Inserted(sender, c.data.value, Row(orders, c.id))];
        } else if c.operation.UPDATE? && c.data.Some? {
          if c.id in orders {
            orders := orders[c.id := Updated(c.data.value, orders[c.id])];
          }
        } else if c.operation.DELETE? && sender.admin {
          orders := orders - {c.id};
        }
        outcomes := outcomes + [Outcome(c.id, !Fails(sender, c))];
        PushOneCases(sender, PushAll(sender, old(orders), changes[..i]), c);
      }
      assert changes[..|changes|] == changes;
    }
  }
}
