/**
 * The server's order index: three address maps, the largest order of each customer and a queue of undelivered orders
 * per district, kept in agreement with the plain log of registrations.
 */
module OrderIndex {
  import opened Records

  /** ORDER_MAX_OL_CNT. */
  const MAX_LINES: nat := 15

  /** A registration request, for district `d` of the server. */
  datatype Registration = Registration(d: nat, customer: nat, oid: nat, client: nat,
                                       orderAt: nat, newOrderAt: nat, linesAt: nat, lines: nat)

  datatype Address = Address(client: nat, offset: nat)
  datatype LinesAddress = LinesAddress(client: nat, offset: nat, lines: nat)
  datatype Queued = Queued(oid: nat, at: Address)

  datatype OrderReply = OrderReply(oid: nat, client: nat, orderAt: nat, linesAt: nat, lines: nat)
  datatype OldestReply = OldestReply(oid: nat, client: nat, orderAt: nat, newOrderAt: nat, linesAt: nat, lines: nat)

  // ---------------------------------------------------------------- what the log says

  /** The last registration of order `oid` in district `d`. */
  function Latest(log: seq<Registration>, d: nat, oid: nat): Option<Registration> {
    if log == [] then None
    else if log[|log| - 1].d == d && log[|log| - 1].oid == oid then Some(log[|log| - 1])
    else Latest(log[..|log| - 1], d, oid)
  }

  predicate IsRegistered(log: seq<Registration>, d: nat, oid: nat) { Latest(log, d, oid).Some? }

  /** The largest order id a customer has registered. */
  function Largest(log: seq<Registration>, d: nat, customer: nat): Option<nat> {
    if log == [] then None
    else
      var g, r := Largest(log[..|log| - 1], d, customer), log[|log| - 1];
      if r.d != d || r.customer != customer then g
      else if g.Some? && g.value >= r.oid then g
      else Some(r.oid)
  }

  /** The ids registered in a district, in order of registration. */
  function Registered(log: seq<Registration>, d: nat): seq<nat> {
    if log == [] then []
    else Registered(log[..|log| - 1], d) + (if log[|log| - 1].d == d then [log[|log| - 1].oid] else [])
  }

  /** No order id is registered twice in a district. */
  ghost predicate UniqueIds(log: seq<Registration>) {
    forall i, j :: 0 <= i < j < |log| && log[i].d == log[j].d ==> log[i].oid != log[j].oid
  }

  ghost predicate Names(log: seq<Registration>, i: nat, d: nat, customer: nat) {
    i < |log| && log[i].d == d && log[i].customer == customer
  }

  /** `Largest` is the maximum over the customer's registrations, and there is one unless there are none. */
  lemma {:induction false} LargestIsMax(log: seq<Registration>, d: nat, customer: nat)
    ensures Largest(log, d, customer).None? ==> forall i: nat :: !Names(log, i, d, customer)
    ensures Largest(log, d, customer).Some? ==>
      && (exists i: nat :: Names(log, i, d, customer) && log[i].oid == Largest(log, d, customer).value)
      && (forall i: nat :: Names(log, i, d, customer) ==> log[i].oid <= Largest(log, d, customer).value)
  {
    if log != [] {
      var g, n := log[..|log| - 1], |log| - 1;
      LargestIsMax(g, d, customer);
      assert forall i: nat :: i < n ==> (Names(log, i, d, customer) <==> Names(g, i, d, customer));
      var m := Largest(log, d, customer);
      if m.Some? {
        if Names(log, n, d, customer) && m.value == log[n].oid {
        } else {
          var i: nat :| Names(g, i, d, customer) && g[i].oid == m.value;
          assert Names(log, i, d, customer) && log[i].oid == m.value;
        }
      }
    }
  }

  /** With unique ids, the latest registration of an id is its only one. */
  lemma {:induction false} LatestIsUnique(log: seq<Registration>, i: nat)
    requires UniqueIds(log) && i < |log|
    ensures Latest(log, log[i].d, log[i].oid) == Some(log[i])
  {
    if i < |log| - 1 { LatestIsUnique(log[..|log| - 1], i); }
  }

  lemma {:induction false} LatestIsLogged(log: seq<Registration>, d: nat, oid: nat)
    ensures Latest(log, d, oid).Some? <==> exists i :: 0 <= i < |log| && log[i].d == d && log[i].oid == oid
    ensures Latest(log, d, oid).Some? ==> Latest(log, d, oid).value in log
  {
    if log != [] {
      var g, n := log[..|log| - 1], |log| - 1;
      LatestIsLogged(g, d, oid);
      assert forall i :: 0 <= i < n ==> g[i] == log[i];
      if !(log[n].d == d && log[n].oid == oid) && Latest(log, d, oid).Some? {
        var i :| 0 <= i < |g| && g[i].d == d && g[i].oid == oid;
        assert log[i].d == d && log[i].oid == oid;
      }
    }
  }

  // ---------------------------------------------------------------- the queue of one district

  ghost predicate FromLog(log: seq<Registration>, d: nat, e: Queued) {
    exists i :: 0 <= i < |log| && log[i].d == d && e == Queued(log[i].oid, NewOrderAddress(log[i]))
  }

  ghost predicate Sorted(q: seq<Queued>) {
    forall i, j :: 0 <= i < j < |q| ==> q[i].oid <= q[j].oid
  }

  function Ids(q: seq<Queued>): seq<nat> {
    seq(|q|, i requires 0 <= i < |q| => q[i].oid)
  }

  function Inserted(q: seq<Queued>, e: Queued, i: nat): seq<Queued>
    requires i <= |q|
  {
    q[..i] + [e] + q[i..]
  }

  lemma InsertedIds(q: seq<Queued>, e: Queued, i: nat)
    requires i <= |q|
    ensures multiset(Ids(Inserted(q, e, i))) == multiset(Ids(q)) + multiset{e.oid}
  {
    var s := Ids(q);
    assert Ids(Inserted(q, e, i)) == s[..i] + [e.oid] + s[i..];
    assert s == s[..i] + s[i..];
  }

  /** Insert in order of the ids; the front is the queue's top. */
  method Push(q: seq<Queued>, e: Queued) returns (i: nat)
    requires Sorted(q)
    ensures i <= |q| && Sorted(Inserted(q, e, i))
  {
    i := 0;
    while i < |q| && q[i].oid <= e.oid
      invariant i <= |q| && forall j :: 0 <= j < i ==> q[j].oid <= e.oid
    {
      i := i + 1;
    }
  }

  // ---------------------------------------------------------------- agreement with the log

  /** The map entries of a registration. */
  function OrderAddress(r: Registration): Address { Address(r.client, r.orderAt) }
  function NewOrderAddress(r: Registration): Address { Address(r.client, r.newOrderAt) }
  function LinesOf(r: Registration): LinesAddress { LinesAddress(r.client, r.linesAt, r.lines) }

  type Key = (nat, nat)

  ghost predicate EntryAgrees(log: seq<Registration>, orders: map<Key, Address>, newOrders: map<Key, Address>,
                              lines: map<Key, LinesAddress>, d: nat, oid: nat)
  {
    match Latest(log, d, oid)
    case None => (d, oid) !in orders && (d, oid) !in newOrders && (d, oid) !in lines
    case Some(r) =>
      && (d, oid) in orders && orders[(d, oid)] == OrderAddress(r)
      && (d, oid) in newOrders && newOrders[(d, oid)] == NewOrderAddress(r)
      && (d, oid) in lines && lines[(d, oid)] == LinesOf(r)
  }

  /** All three address maps hold the latest registration of every order, and nothing else. */
  ghost predicate MapsAgree(log: seq<Registration>, orders: map<Key, Address>, newOrders: map<Key, Address>,
                            lines: map<Key, LinesAddress>)
  {
    forall d, oid :: EntryAgrees(log, orders, newOrders, lines, d, oid)
  }

  lemma RegisterMaps(log: seq<Registration>, r: Registration, orders: map<Key, Address>, newOrders: map<Key, Address>,
                     lines: map<Key, LinesAddress>)
    requires MapsAgree(log, orders, newOrders, lines)
    ensures MapsAgree(log + [r], orders[(r.d, r.oid) := OrderAddress(r)], newOrders[(r.d, r.oid) := NewOrderAddress(r)],
                      lines[(r.d, r.oid) := LinesOf(r)])
  {
    assert (log + [r])[..|log|] == log;
    var k := (r.d, r.oid);
    var os, ns, ls := orders[k := OrderAddress(r)], newOrders[k := NewOrderAddress(r)], lines[k := LinesOf(r)];
    forall d, oid ensures EntryAgrees(log + [r], os, ns, ls, d, oid) {
      assert EntryAgrees(log, orders, newOrders, lines, d, oid);
    }
  }

  ghost predicate LargestAgrees(log: seq<Registration>, largest: map<Key, nat>, d: nat, customer: nat) {
    match Largest(log, d, customer)
    case None => (d, customer) !in largest
    case Some(oid) => (d, customer) in largest && largest[(d, customer)] == oid
  }

  lemma RegisterLargest(log: seq<Registration>, r: Registration, before: map<Key, nat>, after: map<Key, nat>)
    requires forall d, customer :: LargestAgrees(log, before, d, customer)
    requires after == if (r.d, r.customer) in before && before[(r.d, r.customer)] >= r.oid then before
                      else before[(r.d, r.customer) := r.oid]
    ensures forall d, customer :: LargestAgrees(log + [r], after, d, customer)
  {
    assert (log + [r])[..|log|] == log;
    forall d, customer ensures LargestAgrees(log + [r], after, d, customer) {
      assert LargestAgrees(log, before, d, customer);
    }
  }

  /** Registered = queued + popped, in sorted order, and every queued entry carries the address of a registration. */
  ghost predicate QueueAgrees(log: seq<Registration>, d: nat, q: seq<Queued>, popped: seq<nat>) {
    && Sorted(q)
    && multiset(Registered(log, d)) == multiset(Ids(q)) + multiset(popped)
    && forall e :: e in q ==> FromLog(log, d, e)
  }

  lemma QueueSorted(log: seq<Registration>, d: nat, q: seq<Queued>, popped: seq<nat>)
    requires QueueAgrees(log, d, q, popped)
    ensures Sorted(q)
  {}

  lemma RegisterElsewhere(log: seq<Registration>, r: Registration, d: nat, q: seq<Queued>, popped: seq<nat>)
    requires QueueAgrees(log, d, q, popped) && r.d != d
    ensures QueueAgrees(log + [r], d, q, popped)
  {
    assert (log + [r])[..|log|] == log;
    StillLogged(log, r, d, q);
  }

  lemma RegisterQueue(log: seq<Registration>, r: Registration, q: seq<Queued>, popped: seq<nat>, i: nat)
    requires QueueAgrees(log, r.d, q, popped) && i <= |q| && Sorted(Inserted(q, Queued(r.oid, NewOrderAddress(r)), i))
    ensures QueueAgrees(log + [r], r.d, Inserted(q, Queued(r.oid, NewOrderAddress(r)), i), popped)
  {
    var e := Queued(r.oid, NewOrderAddress(r));
    assert (log + [r])[..|log|] == log;
    InsertedIds(q, e, i);
    StillLogged(log, r, r.d, q);
    forall x | x in Inserted(q, e, i) ensures FromLog(log + [r], r.d, x) { assert x in q || x == e; }
  }

  lemma StillLogged(log: seq<Registration>, r: Registration, d: nat, q: seq<Queued>)
    requires forall e :: e in q ==> FromLog(log, d, e)
    ensures forall e :: e in q ==> FromLog(log + [r], d, e)
    ensures d == r.d ==> FromLog(log + [r], d, Queued(r.oid, NewOrderAddress(r)))
  {
    forall e | e in q ensures FromLog(log + [r], d, e) {
      var i :| 0 <= i < |log| && log[i].d == d && e == Queued(log[i].oid, NewOrderAddress(log[i]));
      assert (log + [r])[i] == log[i];
    }
    assert (log + [r])[|log|] == r;
  }

  /** Popping the front keeps the agreement: the least queued id moves to the popped ones. */
  lemma PopQueue(log: seq<Registration>, d: nat, q: seq<Queued>, popped: seq<nat>)
    requires QueueAgrees(log, d, q, popped) && q != []
    ensures QueueAgrees(log, d, q[1..], popped + [q[0].oid])
    ensures forall oid :: oid in Ids(q) ==> q[0].oid <= oid
  {
    assert Ids(q) == [q[0].oid] + Ids(q[1..]);
  }

  // ---------------------------------------------------------------- the last orders of a district

  /** The order-line table as the server holds it: OL_I_ID by slot, and how many slots each client owns. */
  datatype LineTable = LineTable(itemAt: nat -> nat, perClient: nat)

  /**
   * The items the table shows on the lines of an order. Slots count from the client's own region, as 32-bit unsigned
   * numbers.
   */
  function ItemsAt(table: LineTable, a: LinesAddress): seq<nat> {
    seq<nat>(a.lines, (j: nat) => table.itemAt((a.client * table.perClient + a.offset + j) % UINT32))
  }

  /** Item `x` is on a line of some registered order with an id in `lo .. hi`. */
  ghost predicate OrdersHave(log: seq<Registration>, table: LineTable, d: nat, lo: nat, hi: nat, x: nat) {
    exists o: nat :: OrderHas(log, table, d, o, x) && lo <= o < hi
  }

  ghost predicate OrderHas(log: seq<Registration>, table: LineTable, d: nat, o: nat, x: nat) {
    var r := Latest(log, d, o);
    r.Some? && x in ItemsAt(table, LinesOf(r.value))
  }

  predicate Ascending(ids: seq<nat>) {
    forall i, j :: 0 <= i < j < |ids| ==> ids[i] < ids[j]
  }

  /** Insert into an ordered set of ids. */
  method InsertId(ids: seq<nat>, x: nat) returns (out: seq<nat>)
    requires Ascending(ids)
    ensures Ascending(out) && |out| <= |ids| + 1 && forall y :: y in out <==> y in ids || y == x
  {
    var i := 0;
    while i < |ids| && ids[i] < x
      invariant i <= |ids| && forall j :: 0 <= j < i ==> ids[j] < x
    {
      i := i + 1;
    }
    if i < |ids| && ids[i] == x { return ids; }
    out := ids[..i] + [x] + ids[i..];
    PlacedInOrder(ids, i, x);
    PlacedAmong(ids, i, x);
  }

  /** `x` placed between the smaller and the larger ids. */
  lemma PlacedInOrder(ids: seq<nat>, i: nat, x: nat)
    requires Ascending(ids) && i <= |ids| && (forall j :: 0 <= j < i ==> ids[j] < x) && (i < |ids| ==> x < ids[i])
    ensures Ascending(ids[..i] + [x] + ids[i..])
  {
    var out := ids[..i] + [x] + ids[i..];
    forall a, b | 0 <= a < b < |out| ensures out[a] < out[b] {
      if b < i { assert out[a] == ids[a] && out[b] == ids[b]; }
      else if b == i { assert out[a] == ids[a] && out[b] == x; }
      else {
        assert out[b] == ids[b - 1] && ids[i] <= ids[b - 1];
        if a < i { assert out[a] == ids[a]; }
        else if a == i { assert out[a] == x; }
        else { assert out[a] == ids[a - 1]; }
      }
    }
  }

  lemma PlacedAmong(ids: seq<nat>, i: nat, x: nat)
    requires i <= |ids|
    ensures forall y :: y in ids[..i] + [x] + ids[i..] <==> y in ids || y == x
  {
    var front, back := ids[..i], ids[i..];
    assert ids == front + back;
    forall y ensures y in front + [x] + back <==> y in ids || y == x {
      assert y in front + [x] + back <==> y in front || y in [x] || y in back;
    }
  }

  /** Add the items on the lines of one order. */
  method AddLines(table: LineTable, a: LinesAddress, ids: seq<nat>) returns (out: seq<nat>)
    requires Ascending(ids)
    ensures Ascending(out) && |out| <= |ids| + a.lines
    ensures forall y :: y in out <==> y in ids || y in ItemsAt(table, a)
  {
    out := ids;
    ghost var items := ItemsAt(table, a);
    for i := 0 to a.lines
      invariant Ascending(out) && |out| <= |ids| + i
      invariant forall y :: y in out <==> y in ids || y in items[..i]
    {
      out := InsertId(out, table.itemAt((a.client * table.perClient + a.offset + i) % UINT32));
      assert items[..i + 1] == items[..i] + [items[i]];
    }
    assert items[..a.lines] == items;
  }

  // ---------------------------------------------------------------- the same, told from the log

  /** The i-th registration is the last one of an order of district `d`. */
  ghost predicate Current(log: seq<Registration>, i: nat, d: nat) {
    i < |log| && log[i].d == d && forall j :: i < j < |log| ==> log[j].d != d || log[j].oid != log[i].oid
  }

  /** Order `oid` is one of the last twenty before `next`. */
  predicate LastTwenty(oid: nat, next: nat) { oid < next <= oid + 20 }

  /** The table shows item `x` on a line of some of the district's last twenty orders. */
  ghost predicate LastShow(log: seq<Registration>, table: LineTable, d: nat, next: nat, x: nat) {
    exists i: nat :: Current(log, i, d) && LastTwenty(log[i].oid, next) && x in ItemsAt(table, LinesOf(log[i]))
  }

  lemma {:induction false} LatestIsCurrent(log: seq<Registration>, i: nat, d: nat)
    requires Current(log, i, d)
    ensures Latest(log, d, log[i].oid) == Some(log[i])
  {
    if i < |log| - 1 {
      var front := log[..|log| - 1];
      assert forall j :: i < j < |front| ==> front[j] == log[j];
      LatestIsCurrent(front, i, d);
    }
  }

  lemma {:induction false} CurrentIsLatest(log: seq<Registration>, d: nat, oid: nat) returns (i: nat)
    requires Latest(log, d, oid).Some?
    ensures Current(log, i, d) && log[i].oid == oid && Latest(log, d, oid) == Some(log[i])
  {
    var n := |log| - 1;
    if log[n].d == d && log[n].oid == oid { i := n; }
    else {
      var front := log[..n];
      i := CurrentIsLatest(front, d, oid);
      assert forall j :: 0 <= j < n ==> front[j] == log[j];
    }
  }

  lemma LastOrdersShown(log: seq<Registration>, table: LineTable, d: nat, lo: nat, next: nat, x: nat)
    requires lo == if next < 20 then 0 else next - 20
    ensures OrdersHave(log, table, d, lo, next, x) <==> LastShow(log, table, d, next, x)
  {
    hide ItemsAt;
    if OrdersHave(log, table, d, lo, next, x) {
      var o: nat :| OrderHas(log, table, d, o, x) && lo <= o < next;
      var i := CurrentIsLatest(log, d, o);
    }
    if LastShow(log, table, d, next, x) {
      var i: nat :| Current(log, i, d) && LastTwenty(log[i].oid, next) && x in ItemsAt(table, LinesOf(log[i]));
      LatestIsCurrent(log, i, d);
      assert OrderHas(log, table, d, log[i].oid, x);
    }
  }

  /** All of the district's last twenty orders are in the log. */
  ghost predicate AllLogged(log: seq<Registration>, d: nat, next: nat) {
    forall o: nat :: LastTwenty(o, next) ==> exists i :: 0 <= i < |log| && log[i].d == d && log[i].oid == o
  }

  lemma LastOrdersLogged(log: seq<Registration>, d: nat, lo: nat, next: nat)
    requires lo == if next < 20 then 0 else next - 20
    ensures (forall o: nat :: lo <= o < next ==> IsRegistered(log, d, o)) <==> AllLogged(log, d, next)
  {
    if forall o: nat :: lo <= o < next ==> IsRegistered(log, d, o) {
      forall o: nat | LastTwenty(o, next) ensures exists i :: 0 <= i < |log| && log[i].d == d && log[i].oid == o {
        assert IsRegistered(log, d, o);
        LatestIsLogged(log, d, o);
      }
    }
    if AllLogged(log, d, next) {
      forall o: nat | lo <= o < next ensures IsRegistered(log, d, o) {
        assert LastTwenty(o, next);
        LatestIsLogged(log, d, o);
      }
    }
  }

  lemma OneMoreOrder(log: seq<Registration>, table: LineTable, d: nat, lo: nat, o: nat, y: nat)
    requires lo <= o
    ensures OrdersHave(log, table, d, lo, o + 1, y) <==>
      OrdersHave(log, table, d, lo, o, y) || OrderHas(log, table, d, o, y)
  {}

  // ---------------------------------------------------------------- the index

  class Index {
    var orders: map<Key, Address>
    var newOrders: map<Key, Address>
    var lines: map<Key, LinesAddress>
    var largest: map<Key, nat>
    var queues: map<nat, seq<Queued>>
    ghost var log: seq<Registration>
    ghost var popped: map<nat, seq<nat>>    // the ids popped from each district's queue, in order

    function Queue(d: nat): seq<Queued>
      reads this
    {
      if d in queues then queues[d] else []
    }

    ghost function Popped(d: nat): seq<nat>
      reads this
    {
      if d in popped then popped[d] else []
    }

    ghost predicate Valid()
      reads this
    {
      && MapsAgree(log, orders, newOrders, lines)
      && (forall d, customer :: LargestAgrees(log, largest, d, customer))
      && (forall d :: QueueAgrees(log, d, Queue(d), Popped(d)))
    }

    constructor ()
      ensures Valid() && log == [] && popped == map[]
    {
      orders, newOrders, lines, largest, queues := map[], map[], map[], map[], map[];
      log, popped := [], map[];
    }

    /** Put the addresses, raise the customer's largest order if need be, and queue the order. */
    method RegisterOrder(r: Registration)
      requires Valid()
      modifies this
      ensures Valid() && log == old(log) + [r] && popped == old(popped)
    {
      hide MapsAgree, LargestAgrees, QueueAgrees;
      var q, e := Queue(r.d), Queued(r.oid, NewOrderAddress(r));
      assert QueueAgrees(log, r.d, q, Popped(r.d));
      QueueSorted(log, r.d, q, Popped(r.d));
      RegisterMaps(log, r, orders, newOrders, lines);
      orders := orders[(r.d, r.oid) := OrderAddress(r)];
      if (r.d, r.customer) in largest {
        if largest[(r.d, r.customer)] < r.oid { largest := largest[(r.d, r.customer) := r.oid]; }
      } else {
        largest := largest[(r.d, r.customer) := r.oid];
      }
      RegisterLargest(log, r, old(largest), largest);
      newOrders := newOrders[(r.d, r.oid) := NewOrderAddress(r)];
      var i := Push(q, e);
      queues := queues[r.d := Inserted(q, e, i)];
      lines := lines[(r.d, r.oid) := LinesOf(r)];
      log := log + [r];
      forall d ensures QueueAgrees(log, d, Queue(d), Popped(d)) {
        assert QueueAgrees(old(log), d, old(Queue(d)), Popped(d));
        if d == r.d { RegisterQueue(old(log), r, q, Popped(d), i); }
        else { RegisterElsewhere(old(log), r, d, Queue(d), Popped(d)); }
      }
    }

    /**
     * The largest order of a customer. The reply is a failure exactly when the customer has registered none; else it
     * names the customer's largest id, and with unique ids all its addresses are those of that one registration.
     */
    method LargestOrder(d: nat, customer: nat) returns (res: Option<OrderReply>)
      requires Valid()
      ensures res.None? <==> forall i: nat :: !Names(log, i, d, customer)
      ensures res.Some? ==> forall i: nat :: Names(log, i, d, customer) ==> log[i].oid <= res.value.oid
      ensures res.Some? && UniqueIds(log) ==>
        exists i: nat :: Names(log, i, d, customer) &&
          res.value == OrderReply(log[i].oid, log[i].client, log[i].orderAt, log[i].linesAt, log[i].lines)
    {
      assert LargestAgrees(log, largest, d, customer);
      LargestIsMax(log, d, customer);
      if (d, customer) !in largest { return None; }
      var oid := largest[(d, customer)];
      ghost var i: nat :| Names(log, i, d, customer) && log[i].oid == oid;
      assert EntryAgrees(log, orders, newOrders, lines, d, oid);
      assert Latest(log, d, oid).Some? by { LatestIsLogged(log, d, oid); }
      var at, ls := orders[(d, oid)], lines[(d, oid)];
      res := Some(OrderReply(oid, ls.client, at.offset, ls.offset, ls.lines));
      if UniqueIds(log) { LatestIsUnique(log, i); }
    }

    /**
     * The oldest undelivered order of a district: none exactly when the queue is empty, else the least queued id; with
     * unique ids all addresses are those of its registration.
     */
    method OldestUndelivered(d: nat) returns (res: Option<OldestReply>)
      requires Valid()
      ensures res.None? <==> Queue(d) == []
      ensures res.Some? ==>
        res.value.oid in Ids(Queue(d)) && forall oid :: oid in Ids(Queue(d)) ==> res.value.oid <= oid
      ensures res.Some? && UniqueIds(log) ==>
        exists i :: 0 <= i < |log| && log[i].d == d
          && res.value == OldestReply(log[i].oid, log[i].client, log[i].orderAt, log[i].newOrderAt, log[i].linesAt,
                                      log[i].lines)
    {
      var q := Queue(d);
      assert QueueAgrees(log, d, q, Popped(d));
      if q == [] { return None; }
      PopQueue(log, d, q, Popped(d));
      var e := q[0];
      assert Ids(q)[0] == e.oid;
      assert FromLog(log, d, e);
      ghost var i :| 0 <= i < |log| && log[i].d == d && e == Queued(log[i].oid, NewOrderAddress(log[i]));
      assert EntryAgrees(log, orders, newOrders, lines, d, e.oid);
      assert Latest(log, d, e.oid).Some? by { LatestIsLogged(log, d, e.oid); }
      var at, ls := orders[(d, e.oid)], lines[(d, e.oid)];
      res := Some(OldestReply(e.oid, ls.client, at.offset, e.at.offset, ls.offset, ls.lines));
      if UniqueIds(log) { LatestIsUnique(log, i); }
    }

    /**
     * A delivery pops the least queued id, whatever order it names: the named one leaves the queue if and only if it is
     * the least. The queue must not be empty.
     */
    method RegisterDelivery(d: nat, oid: nat) returns (ok: bool, ghost gone: nat)
      requires Valid() && Queue(d) != []
      modifies this`queues, this`popped
      ensures Valid() && ok && Popped(d) == old(Popped(d)) + [gone]
      ensures gone in old(Ids(Queue(d))) && forall x :: x in old(Ids(Queue(d))) ==> gone <= x
      ensures forall other :: other != d ==> Queue(other) == old(Queue(other)) && Popped(other) == old(Popped(other))
      ensures gone == oid <==> oid in old(Ids(Queue(d))) && forall x :: x in old(Ids(Queue(d))) ==> oid <= x
    {
      hide MapsAgree, LargestAgrees, QueueAgrees;
      ok := true;
      var q := Queue(d);
      assert QueueAgrees(log, d, q, Popped(d));
      PopQueue(log, d, q, Popped(d));
      gone := q[0].oid;
      assert Ids(q)[0] == gone;
      queues := queues[d := q[1..]];
      popped := popped[d := Popped(d) + [gone]];
      forall x
        ensures QueueAgrees(log, x, Queue(x), Popped(x))
      {
        assert QueueAgrees(log, x, old(Queue(x)), old(Popped(x)));
      }
    }

    /**
     * The items of a district's last twenty orders. The reply is a success exactly when every one of them is
     * registered, and then lists, without repetition and within the reply array, exactly the items on their lines.
     */
    method LastOrders(d: nat, next: nat, table: LineTable, reply: array<nat>) returns (res: Option<nat>)
      requires Valid() && next < 0x8000_0000 && reply.Length == 20 * MAX_LINES
      requires forall i :: 0 <= i < |log| ==> log[i].lines <= MAX_LINES
      modifies reply
      ensures res.Some? <==> AllLogged(log, d, next)
      ensures res.Some? ==> res.value <= reply.Length && Ascending(reply[..res.value])
      ensures res.Some? ==> forall x :: x in reply[..res.value] <==> LastShow(log, table, d, next, x)
    {
      hide LastShow, AllLogged;
      var lo := if next < 20 then 0 else next - 20;
      LastOrdersLogged(log, d, lo, next);
      forall x ensures OrdersHave(log, table, d, lo, next, x) <==> LastShow(log, table, d, next, x) {
        LastOrdersShown(log, table, d, lo, next, x);
      }
      if next == 0 { return Some(0); }
      var ids: seq<nat> := [];
      var oid := lo;
      while oid < next
        invariant lo <= oid <= next && Ascending(ids) && |ids| <= MAX_LINES * (oid - lo)
        invariant forall o: nat :: lo <= o < oid ==> IsRegistered(log, d, o)
        invariant forall y :: y in ids <==> OrdersHave(log, table, d, lo, oid, y)
      {
        assert EntryAgrees(log, orders, newOrders, lines, d, oid);
        if (d, oid) !in lines {
          assert !IsRegistered(log, d, oid);
          return None;
        }
        LatestIsLogged(log, d, oid);
        assert IsRegistered(log, d, oid);
        ids := AddLines(table, lines[(d, oid)], ids);
        forall y
          ensures y in ids <==> OrdersHave(log, table, d, lo, oid + 1, y)
        {
          OneMoreOrder(log, table, d, lo, oid, y);
        }
        oid := oid + 1;
      }
      for i := 0 to |ids|
        invariant reply[..i] == ids[..i]
      {
        reply[i] := ids[i];
      }
      res := Some(|ids|);
      assert reply[..|ids|] == ids;
    }
  }

  /**
   * Of two queued orders the later one is delivered, and the earlier one is popped: it is lost, the other stays
   * queued.
   */
  method DeliverLater(first: Registration, second: Registration) returns (index: Index)
    requires first.d == second.d && second.oid < first.oid
    ensures fresh(index) && index.Valid() && index.log == [first, second]
    ensures index.Popped(first.d) == [second.oid] && Ids(index.Queue(first.d)) == [first.oid]
  {
    hide MapsAgree, LargestAgrees;
    var d := first.d;
    index := new Index();
    index.RegisterOrder(first);
    index.RegisterOrder(second);
    ghost var q := index.Queue(d);
    assert QueueAgrees(index.log, d, q, index.Popped(d));
    TwoQueued(index.log, d, first.oid, second.oid, q);
    var ok, gone := index.RegisterDelivery(d, first.oid);
    assert QueueAgrees(index.log, d, index.Queue(d), index.Popped(d));
    OneQueued(index.log, d, first.oid, second.oid, index.Queue(d));
  }

  lemma TwoQueued(log: seq<Registration>, d: nat, a: nat, b: nat, q: seq<Queued>)
    requires |log| == 2 && log[0].d == log[1].d == d && log[0].oid == a && log[1].oid == b && QueueAgrees(log, d, q, [])
    ensures q != [] && a in Ids(q) && b in Ids(q) && forall x :: x in Ids(q) ==> x == a || x == b
  {
    TwoRegistered(log, d);
    assert multiset(Ids(q)) == multiset{a, b};
    assert a in multiset(Ids(q)) && b in multiset(Ids(q));
    forall x | x in Ids(q) ensures x == a || x == b { assert x in multiset(Ids(q)); }
  }

  lemma OneQueued(log: seq<Registration>, d: nat, a: nat, b: nat, q: seq<Queued>)
    requires |log| == 2 && log[0].d == log[1].d == d && log[0].oid == a && log[1].oid == b
    requires QueueAgrees(log, d, q, [b])
    ensures Ids(q) == [a]
  {
    TwoRegistered(log, d);
    assert multiset(Ids(q)) + multiset{b} == multiset{a} + multiset{b};
    assert multiset(Ids(q)) == multiset{a};
    assert |multiset(Ids(q))| == |Ids(q)| == 1;
    assert Ids(q)[0] in multiset(Ids(q));
  }

  lemma TwoRegistered(log: seq<Registration>, d: nat)
    requires |log| == 2 && log[0].d == log[1].d == d
    ensures multiset(Registered(log, d)) == multiset{log[0].oid, log[1].oid}
  {
    assert log[..1] == [log[0]] && log[1..] == [log[1]];
    assert Registered([log[0]], d) == [log[0].oid] && Registered([log[1]], d) == [log[1].oid];
  }
}
