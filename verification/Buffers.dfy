/**
 * A client's own counters: the epoch behind its commit timestamps and the cursors into the buffers where it inserts
 * orders, new-orders and order lines.
 */
module Buffers {
  import opened Words
  import opened Arithmetic

  /** `orders` is ORDER_BUFFER_PER_CLIENT, `lines` ORDER_MAX_OL_CNT. */
  datatype Sizes = Sizes(orders: nat, lines: nat)

  predicate SizesOk(z: Sizes) { z.orders >= 2 && z.lines >= 1 }

  /** The number of slots that `x` orders of full length take. */
  function Lines(z: Sizes, x: int): int { x * z.lines }

  lemma LinesStep(z: Sizes, x: int, y: int)
    ensures Lines(z, x + 1) == Lines(z, x) + z.lines
    ensures Lines(z, x + y) == Lines(z, x) + Lines(z, y)
    ensures Lines(z, 0) == 0 && Lines(z, 1) == z.lines
  {}

  lemma LinesGrow(z: Sizes, x: int, y: int)
    requires x <= y
    ensures Lines(z, x) <= Lines(z, y)
  {
    assert Lines(z, y) == Lines(z, x) + (y - x) * z.lines;
  }

  /** The number of order-line slots a client owns. */
  function Slots(z: Sizes): int { Lines(z, z.orders) }

  /** Where an order of `n` lines is put when the cursor is at `p`: here if it fits, else at the beginning. */
  function StartAt(z: Sizes, p: nat, n: nat): nat { if p + n < Slots(z) then p else 0 }

  lemma OneOrderFits(z: Sizes, n: nat)
    requires SizesOk(z) && n <= z.lines
    ensures n < Slots(z)
  {
    LinesGrow(z, 2, z.orders);
  }

  /** The cursor before the i-th order of a client whose orders have `lens` lines. */
  function Cursor(z: Sizes, lens: seq<nat>, i: nat): nat
    requires i <= |lens|
    decreases i, 0
  {
    if i == 0 then 0 else Start(z, lens, i - 1) + lens[i - 1]
  }

  /** The first slot of the i-th order. */
  function Start(z: Sizes, lens: seq<nat>, i: nat): nat
    requires i < |lens|
    decreases i, 1
  {
    StartAt(z, Cursor(z, lens, i), lens[i])
  }

  ghost predicate OrdersFit(z: Sizes, lens: seq<nat>) {
    forall i :: 0 <= i < |lens| ==> lens[i] <= z.lines
  }

  /** Every reservation is contiguous and inside the client's buffer. */
  lemma Inside(z: Sizes, lens: seq<nat>, i: nat)
    requires SizesOk(z) && OrdersFit(z, lens) && i < |lens|
    ensures Start(z, lens, i) + lens[i] < Slots(z)
  {
    OneOrderFits(z, lens[i]);
  }

  /**
   * Where the t-th order lies seen from the i-th: still ahead of it, or `u` orders into the next round, which then
   * began as far back as the orders in between allow.
   */
  lemma {:induction false} Advance(z: Sizes, lens: seq<nat>, i: nat, t: nat) returns (u: nat)
    requires SizesOk(z) && OrdersFit(z, lens) && i < t < |lens| && t - i <= z.orders - 2
    ensures u <= t - i
    ensures u == 0 ==> Start(z, lens, i) + lens[i] <= Start(z, lens, t)
                       && Cursor(z, lens, t + 1) <= Start(z, lens, i) + lens[i] + Lines(z, t - i)
    ensures u > 0 ==> Cursor(z, lens, t + 1) <= Lines(z, u)
                      && Start(z, lens, i) >= Lines(z, z.orders - (t - i) + u - 2)
  {
    hide Lines;
    if t == i + 1 {
      u := 0;
      LinesStep(z, 0, 0);
    } else {
      u := Advance(z, lens, i, t - 1);
      LinesStep(z, t - 1 - i, 0);
    }
    if u > 0 {
      LinesStep(z, u, 0);
      NoSecondWrap(z, u + 1);
      u := u + 1;
    } else if Start(z, lens, t) != Cursor(z, lens, t) {
      u := 1;
      LinesStep(z, 0, 0);
      FirstWrap(z, t - i);
    }
  }

  lemma NoSecondWrap(z: Sizes, u: nat)
    requires SizesOk(z) && u < z.orders
    ensures Lines(z, u) < Slots(z)
  {
    LinesGrow(z, u + 1, z.orders);
    LinesStep(z, u, 0);
  }

  lemma FirstWrap(z: Sizes, d: nat)
    ensures Lines(z, z.orders - d - 1) == Slots(z) - Lines(z, d) - z.lines
  {}

  /** An order's lines are not overwritten by any of the client's next ORDER_BUFFER_PER_CLIENT - 2 orders. */
  lemma NotOverwritten(z: Sizes, lens: seq<nat>, i: nat, j: nat)
    requires SizesOk(z) && OrdersFit(z, lens) && i < j < |lens| && j - i <= z.orders - 2
    ensures Start(z, lens, i) + lens[i] <= Start(z, lens, j) || Start(z, lens, j) + lens[j] <= Start(z, lens, i)
  {
    hide Lines;
    var u := Advance(z, lens, i, j);
    if u > 0 { LinesGrow(z, u, z.orders - (j - i) + u - 2); }
  }

  lemma {:induction false} FullOrders(z: Sizes, lens: seq<nat>, i: nat)
    requires SizesOk(z) && i < |lens| && i <= z.orders - 2 && forall j :: 0 <= j < |lens| ==> lens[j] == z.lines
    ensures Start(z, lens, i) == Lines(z, i)
  {
    hide Lines;
    if i > 0 { FullOrders(z, lens, i - 1); }
    LinesStep(z, i, 0);
    LinesStep(z, i - 1, 0);
    NoSecondWrap(z, i + 1);
  }

  /** The bound is tight: of full orders, the one after that takes the first one's place. */
  lemma OverwrittenNext(z: Sizes, lens: seq<nat>)
    requires SizesOk(z) && |lens| == z.orders && forall j :: 0 <= j < |lens| ==> lens[j] == z.lines
    ensures Start(z, lens, z.orders - 1) == Start(z, lens, 0)
  {
    hide Lines;
    FullOrders(z, lens, 0);
    FullOrders(z, lens, z.orders - 2);
    LinesStep(z, z.orders - 2, 0);
    LinesStep(z, z.orders - 1, 0);
  }

  // ---------------------------------------------------------------- drawn timestamps

  /** The timestamp client `me` draws at its e-th epoch; the epoch and the timestamp are 32 bits wide. */
  function Draw(clients: nat, me: nat, e: nat): nat { (e % TS_RANGE * clients + me) % TS_RANGE }

  /** Up to this epoch nothing wraps. */
  predicate Unexhausted(clients: nat, e: nat) { (e + 1) * clients <= TS_RANGE }

  lemma DrawIs(clients: nat, me: nat, e: nat)
    requires me < clients && Unexhausted(clients, e)
    ensures Draw(clients, me, e) == e * clients + me
  {
    assert (e + 1) * clients == e * clients + clients;
    if e >= TS_RANGE { MultipleAtLeast(clients, e + 1, TS_RANGE); }
    RemainderIs(e, TS_RANGE, 0, e);
    RemainderIs(e * clients + me, TS_RANGE, 0, e * clients + me);
  }

  /** Before exhaustion a client's draws grow. */
  lemma DrawsGrow(clients: nat, me: nat, e: nat, f: nat)
    requires me < clients && e < f && Unexhausted(clients, f)
    ensures Draw(clients, me, e) < Draw(clients, me, f)
  {
    MultipleAtLeast(clients, f, e);
    MultipleAtLeast(clients, f + 1, e + 1);
    DrawIs(clients, me, e);
    DrawIs(clients, me, f);
  }

  /** Before exhaustion two clients never draw the same. */
  lemma DrawsApart(clients: nat, me: nat, e: nat, you: nat, f: nat)
    requires me < clients && you < clients && Unexhausted(clients, e) && Unexhausted(clients, f)
    requires Draw(clients, me, e) == Draw(clients, you, f)
    ensures me == you && e == f
  {
    DrawIs(clients, me, e);
    DrawIs(clients, you, f);
    SameRemainder(clients, e, me, f, you);
  }

  // ---------------------------------------------------------------- the counters of a client

  class Session {
    const sizes: Sizes
    const clients: nat
    const me: nat
    var nextEpoch: nat
    var nextOrder: nat
    var nextNewOrder: nat
    var nextOrderLine: nat
    ghost var lens: seq<nat>     // the line counts of the orders inserted so far
    ghost var drawn: seq<nat>    // the timestamps drawn so far

    ghost predicate Valid()
      reads this
    {
      && SizesOk(sizes) && OrdersFit(sizes, lens) && me < clients
      && nextOrder == nextNewOrder == |lens| % sizes.orders
      && nextOrderLine == Cursor(sizes, lens, |lens|) && DrawsOk()
    }

    /** The i-th draw was made at epoch i + 1. */
    ghost predicate DrawsOk()
      reads this
    {
      && nextEpoch == (|drawn| + 1) % TS_RANGE
      && forall i :: 0 <= i < |drawn| ==> drawn[i] == Draw(clients, me, i + 1)
    }

    constructor (sizes: Sizes, clients: nat, me: nat)
      requires SizesOk(sizes) && me < clients
      ensures Valid() && lens == [] && drawn == []
      ensures this.sizes == sizes && this.clients == clients && this.me == me
    {
      this.sizes, this.clients, this.me := sizes, clients, me;
      nextEpoch, nextOrder, nextNewOrder, nextOrderLine, lens, drawn := 1, 0, 0, 0, [], [];
    }

    /**
     * A new commit timestamp. Until the 32 bits are exhausted it is above all the client drew before, never zero, and
     * different from whatever another client draws.
     */
    method NewCommitTimestamp() returns (ts: nat)
      requires Valid()
      modifies this`nextEpoch, this`drawn
      ensures Valid() && drawn == old(drawn) + [ts]
      ensures Unexhausted(clients, |drawn|) ==> ts == |drawn| * clients + me
      ensures Unexhausted(clients, |drawn|) ==> 0 < ts && forall i :: 0 <= i < |old(drawn)| ==> old(drawn)[i] < ts
      ensures Unexhausted(clients, |drawn|) ==>
        forall you: nat, e: nat :: you < clients && you != me && Unexhausted(clients, e) ==> Draw(clients, you, e) != ts
    {
      ts := (nextEpoch * clients + me) % TS_RANGE;
      RemainderNext(|drawn| + 1, TS_RANGE);
      RemainderNext(nextEpoch, TS_RANGE);
      RemainderIs(nextEpoch, TS_RANGE, 0, nextEpoch);
      nextEpoch := (nextEpoch + 1) % TS_RANGE;
      drawn := drawn + [ts];
      if Unexhausted(clients, |drawn|) {
        DrawIs(clients, me, |drawn|);
        MultipleAtLeast(clients, |drawn|, 0);
        forall i | 0 <= i < |old(drawn)| ensures old(drawn)[i] < ts { DrawsGrow(clients, me, i + 1, |drawn|); }
        forall you: nat, e: nat | you < clients && you != me && Unexhausted(clients, e)
          ensures Draw(clients, you, e) != ts
        {
          if Draw(clients, you, e) == ts { DrawsApart(clients, me, |drawn|, you, e); }
        }
      }
    }

    /** Reserve the slots of the next order; the cursor may move back to the beginning. */
    method ReserveOrderLines(n: nat) returns (first: nat)
      requires Valid() && n <= sizes.lines
      modifies this`nextOrderLine
      ensures nextOrderLine == first == StartAt(sizes, Cursor(sizes, lens, |lens|), n)
      ensures first + n < Slots(sizes)
      ensures nextOrder == nextNewOrder == |lens| % sizes.orders
    {
      if nextOrderLine + n < Slots(sizes) {
        first := nextOrderLine;
      } else {
        nextOrderLine := 0;
        first := nextOrderLine;
      }
      OneOrderFits(sizes, n);
    }

    /** Insert an order: reserve, then step all cursors on. */
    method InsertOrder(n: nat) returns (order: nat, first: nat)
      requires Valid() && n <= sizes.lines
      modifies this`nextOrder, this`nextNewOrder, this`nextOrderLine, this`lens
      ensures Valid() && lens == old(lens) + [n]
      ensures first == Start(sizes, lens, |lens| - 1) && order == (|lens| - 1) % sizes.orders
    {
      order := nextOrder;
      first := ReserveOrderLines(n);
      IncrementAll(n);
    }

    method IncrementAll(n: nat)
      requires SizesOk(sizes) && OrdersFit(sizes, lens) && me < clients && n <= sizes.lines && DrawsOk()
      requires nextOrder == nextNewOrder == |lens| % sizes.orders
      requires nextOrderLine == StartAt(sizes, Cursor(sizes, lens, |lens|), n) && nextOrderLine + n < Slots(sizes)
      modifies this`nextOrder, this`nextNewOrder, this`nextOrderLine, this`lens
      ensures Valid() && lens == old(lens) + [n]
      ensures Start(sizes, lens, |lens| - 1) == old(nextOrderLine)
    {
      ghost var was := lens;
      RemainderNext(|lens|, sizes.orders);
      RemainderIs(nextOrder, sizes.orders, 0, nextOrder);
      RemainderNext(nextOrder, sizes.orders);
      nextOrder := (nextOrder + 1) % sizes.orders;
      nextNewOrder := (nextNewOrder + 1) % sizes.orders;
      lens := lens + [n];
      SameCursors(sizes, was, n, |was|);
      RemainderIs(nextOrderLine + n, Slots(sizes), 0, nextOrderLine + n);
      nextOrderLine := (nextOrderLine + n) % Slots(sizes);
    }
  }

  /** Later orders do not move earlier ones. */
  lemma {:induction false} SameCursors(z: Sizes, lens: seq<nat>, n: nat, i: nat)
    requires i <= |lens|
    ensures Cursor(z, lens + [n], i) == Cursor(z, lens, i)
  {
    if i > 0 { SameCursors(z, lens, n, i - 1); }
  }
}
