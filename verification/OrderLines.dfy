/**
 * Order lines from the client that writes them to the server that reads them: as long as an order's lines are not
 * overwritten, the last-orders query shows exactly its items.
 */
module OrderLines {
  import opened Records
  import opened Arithmetic
  import opened Buffers
  import opened OrderIndex
  import opened KeySlots

  function Lens(orders: seq<seq<nat>>): seq<nat> { seq(|orders|, i requires 0 <= i < |orders| => |orders[i]|) }

  /** The item at offset `x` of a client's part of the table, after it has inserted orders with these items. */
  function LineAt(z: Sizes, orders: seq<seq<nat>>, x: nat): Option<nat> {
    if orders == [] then None
    else
      var n := |orders| - 1;
      var first := Start(z, Lens(orders), n);
      if first <= x < first + |orders[n]| then Some(orders[n][x - first]) else LineAt(z, orders[..n], x)
  }

  /** The order's lines stand: at most ORDER_BUFFER_PER_CLIENT - 2 orders followed it. */
  predicate Stands(z: Sizes, orders: seq<seq<nat>>, i: nat) { i < |orders| <= i + z.orders - 1 }

  lemma LensPrefix(z: Sizes, orders: seq<seq<nat>>, i: nat)
    requires i + 1 < |orders|
    ensures Start(z, Lens(orders[..|orders| - 1]), i) == Start(z, Lens(orders), i)
    ensures OrdersFit(z, Lens(orders)) ==> OrdersFit(z, Lens(orders[..|orders| - 1]))
  {
    var front := orders[..|orders| - 1];
    assert Lens(orders) == Lens(front) + [|orders[|orders| - 1]|];
    assert forall q :: 0 <= q < |front| ==> Lens(front)[q] == Lens(orders)[q];
    SameCursors(z, Lens(front), |orders[|orders| - 1]|, i);
  }

  /** Every line of an order that stands is where it was put. */
  lemma {:induction false} LineStands(z: Sizes, orders: seq<seq<nat>>, i: nat, j: nat)
    requires SizesOk(z) && OrdersFit(z, Lens(orders)) && Stands(z, orders, i) && j < |orders[i]|
    ensures LineAt(z, orders, Start(z, Lens(orders), i) + j) == Some(orders[i][j])
  {
    hide Start, OrdersFit;
    var n := |orders| - 1;
    if i < n {
      LensPrefix(z, orders, i);
      LineStands(z, orders[..n], i, j);
      NotOverwritten(z, Lens(orders), i, n);
    }
  }

  // ---------------------------------------------------------------- the whole table

  /** The table: each client's region starts where the one before ends, and holds what the client wrote. */
  ghost predicate Filled(table: LineTable, z: Sizes, all: seq<seq<seq<nat>>>) {
    && table.perClient == Slots(z) && |all| * Slots(z) <= UINT32
    && (forall c :: 0 <= c < |all| ==> OrdersFit(z, Lens(all[c])))
    && forall c, x: nat :: 0 <= c < |all| && LineAt(z, all[c], x).Some? ==>
         table.itemAt(c * table.perClient + x) == LineAt(z, all[c], x).value
  }

  /** A registration that tells where client `r.client` put its i-th order, whose lines stand. */
  ghost predicate TellsOf(z: Sizes, all: seq<seq<seq<nat>>>, r: Registration, i: nat) {
    && r.client < |all| && Stands(z, all[r.client], i)
    && r.linesAt == Start(z, Lens(all[r.client]), i) && r.lines == |all[r.client][i]|
  }

  /** Item `x` was ordered by the i-th order of client `c`. */
  predicate WasOrdered(all: seq<seq<seq<nat>>>, c: nat, i: nat, x: nat) {
    c < |all| && i < |all[c]| && x in all[c][i]
  }

  /** Inside the table no slot number wraps. */
  lemma SlotFits(z: Sizes, all: seq<seq<seq<nat>>>, c: nat, i: nat, j: nat)
    requires SizesOk(z) && c < |all| && OrdersFit(z, Lens(all[c])) && i < |all[c]| && j < |all[c][i]|
    requires |all| * Slots(z) <= UINT32
    ensures
      var x := Start(z, Lens(all[c]), i) + j;
      x < Slots(z) && (c * Slots(z) + x) % UINT32 == c * Slots(z) + x
  {
    hide Start, Lines;
    Inside(z, Lens(all[c]), i);
    var x := Start(z, Lens(all[c]), i) + j;
    TwoDigits(c, x, |all|, Slots(z));
    RemainderIs(c * Slots(z) + x, UINT32, 0, c * Slots(z) + x);
  }

  /** What the table shows on the lines of an order is what the client ordered. */
  lemma ShowsTheOrder(table: LineTable, z: Sizes, all: seq<seq<seq<nat>>>, r: Registration, i: nat)
    requires SizesOk(z) && Filled(table, z, all) && TellsOf(z, all, r, i)
    ensures ItemsAt(table, LinesOf(r)) == all[r.client][i]
  {
    hide Start, Slots, OrdersFit;
    var shown, order := ItemsAt(table, LinesOf(r)), all[r.client][i];
    forall j | 0 <= j < |order| ensures shown[j] == order[j] {
      SlotFits(z, all, r.client, i, j);
      LineStands(z, all[r.client], i, j);
    }
  }

  /**
   * The reply to a last-orders query, whose items `LastShow` describes, is exactly the set of items of the district's
   * last twenty orders, if every one of them still stands in its client's region.
   */
  lemma LastItems(log: seq<Registration>, table: LineTable, z: Sizes, all: seq<seq<seq<nat>>>, which: seq<nat>, d: nat,
                  next: nat, x: nat)
    requires SizesOk(z) && Filled(table, z, all) && |which| == |log|
    requires forall i :: 0 <= i < |log| && log[i].d == d && LastTwenty(log[i].oid, next) ==>
      TellsOf(z, all, log[i], which[i])
    ensures LastShow(log, table, d, next, x) <==>
      exists i: nat ::
        Current(log, i, d) && LastTwenty(log[i].oid, next) && WasOrdered(all, log[i].client, which[i], x)
  {
    hide Filled, ItemsAt;
    forall i: nat | Current(log, i, d) && LastTwenty(log[i].oid, next)
      ensures x in ItemsAt(table, LinesOf(log[i])) <==> WasOrdered(all, log[i].client, which[i], x)
    {
      ShowsTheOrder(table, z, all, log[i], which[i]);
    }
  }

  /** No two lines share a slot: not of different clients, and not of orders of one client of which both stand. */
  lemma LineSlotsApart(z: Sizes, all: seq<seq<seq<nat>>>, c: nat, i: nat, j: nat, c': nat, i': nat, j': nat)
    requires SizesOk(z) && |all| * Slots(z) <= UINT32 && c < |all| && c' < |all|
    requires OrdersFit(z, Lens(all[c])) && OrdersFit(z, Lens(all[c']))
    requires Stands(z, all[c], i) && Stands(z, all[c'], i') && j < |all[c][i]| && j' < |all[c'][i']|
    requires (c * Slots(z) + Start(z, Lens(all[c]), i) + j) % UINT32
          == (c' * Slots(z) + Start(z, Lens(all[c']), i') + j') % UINT32
    ensures c == c' && i == i' && j == j'
  {
    hide Start, Lines, OrdersFit;
    SlotFits(z, all, c, i, j);
    SlotFits(z, all, c', i', j');
    var x, x' := Start(z, Lens(all[c]), i) + j, Start(z, Lens(all[c']), i') + j';
    SameRemainder(Slots(z), c, x, c', x');
    if i < i' { NotOverwritten(z, Lens(all[c]), i, i'); }
    if i' < i { NotOverwritten(z, Lens(all[c]), i', i); }
  }
}
