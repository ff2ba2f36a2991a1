/** The TPC-C rows the two writing transactions touch, and what each transaction does to them. */
module Records {

  datatype Option<+T> = None | Some(value: T)

  /** The identity of a record: one head, one timestamp list and one ring of older versions each. */
  datatype Rid =
    | Warehouse(w: nat)
    | District(w: nat, d: nat)
    | Customer(w: nat, d: nat, c: nat)
    | Stock(w: nat, i: nat)
    | Item(i: nat)

  /** The columns the transactions read or write; money is in cents. D_NEXT_O_ID is kept apart, in Protocol.Cell. */
  datatype Payload =
    | WarehouseRow(ytd: int)
    | DistrictRow(ytd: int)
    | CustomerRow(balance: int, ytdPayment: int, paymentCnt: nat)
    | StockRow(quantity: nat, orderYtd: nat, orderCnt: nat, remoteCnt: nat)
    | ItemRow(price: int)

  predicate RowOf(r: Rid, p: Payload) {
    match r
    case Warehouse(_) => p.WarehouseRow?
    case District(_, _) => p.DistrictRow?
    case Customer(_, _, _) => p.CustomerRow?
    case Stock(_, _) => p.StockRow?
    case Item(_) => p.ItemRow?
  }

  /** One transaction's change to one record. */
  datatype Op =
    | Populate
    | OrderStock(qty: nat, home: nat, remote: bool)   // ordered by a client of warehouse `home`
    | TakeOrderId
    | PayWarehouse(amount: int)
    | PayDistrict(amount: int)
    | PayCustomer(amount: int)

  predicate OpFor(r: Rid, op: Op) {
    match r
    case Warehouse(_) => op.PayWarehouse?
    case District(_, _) => op.PayDistrict? || op.TakeOrderId?
    case Customer(_, _, _) => op.PayCustomer?
    case Stock(w, _) => op.OrderStock? && 1 <= op.qty <= 10 && (op.remote <==> w == 0)
    case Item(_) => false
  }

  const UINT16: nat := 0x1_0000
  const UINT32: nat := 0x1_0000_0000

  /** The new stock quantity: decreased, and restocked by 91 when fewer than ten would remain. */
  function Restocked(quantity: nat, qty: nat): nat {
    if quantity - qty >= 10 then (quantity - qty) % UINT16 else (quantity - qty + 91) % UINT16
  }

  /** The row a transaction writes over the row it read; the counters wrap at their column widths. */
  function ApplyOp(op: Op, p: Payload): Payload {
    match (op, p)
    case (OrderStock(qty, _, remote), StockRow(q, y, o, rc)) =>
      StockRow(Restocked(q, qty), (y + qty) % UINT32, (o + 1) % UINT16, if remote then (rc + 1) % UINT16 else rc)
    case (PayWarehouse(a), WarehouseRow(y)) => WarehouseRow(y + a)
    case (PayDistrict(a), DistrictRow(y)) => DistrictRow(y + a)
    case (PayCustomer(a), CustomerRow(b, y, n)) => CustomerRow(b - a, y + a, (n + 1) % UINT16)
    case (_, _) => p
  }

  /** One order line of a NewOrder cart. */
  datatype Line = Line(item: nat, supply: nat, qty: nat)

  datatype Cart =
    | NewOrder(w: nat, d: nat, c: nat, lines: seq<Line>)
    | Payment(w: nat, d: nat, residentW: nat, c: nat, amount: int)

  function StockOf(l: Line): Rid { Stock(l.supply, l.item) }

  /** The stock writes of a cart. S_REMOTE_CNT counts lines supplied by warehouse 0, as the code has it. */
  function StockWrites(home: nat, lines: seq<Line>): map<Rid, Op> {
    if lines == [] then map[]
    else
      var l := lines[|lines| - 1];
      StockWrites(home, lines[..|lines| - 1])[StockOf(l) := OrderStock(l.qty, home, l.supply == 0)]
  }

  function LineReads(lines: seq<Line>): set<Rid> {
    if lines == [] then {}
    else
      var l := lines[|lines| - 1];
      LineReads(lines[..|lines| - 1]) + {StockOf(l), Item(l.item)}
  }

  /**
   * What a transaction does as the protocol sees it: the records it reads, those whose timestamp list it
   * also reads, those it may replace by an older version, its writes, and the district counter it bumps
   * with an atomic add instead of a lock.
   */
  datatype Txn = Txn(readSet: set<Rid>, listSet: set<Rid>, fallback: set<Rid>,
                     writes: map<Rid, Op>, counter: Option<Rid>)

  function TxnOf(commutative: bool, cart: Cart): Txn {
    match cart
    case NewOrder(w, d, c, lines) =>
      var base := {Warehouse(w), District(w, d), Customer(w, d, c)};
      var stock := StockWrites(w, lines);
      Txn(base + LineReads(lines), base + stock.Keys, base,
          if commutative then stock else stock[District(w, d) := TakeOrderId],
          if commutative then Some(District(w, d)) else None)
    case Payment(w, d, rw, c, a) =>
      var writes := map[Warehouse(w) := PayWarehouse(a), District(w, d) := PayDistrict(a),
                        Customer(rw, d, c) := PayCustomer(a)];
      Txn(writes.Keys, writes.Keys, {}, writes, None)
  }

  /** A cart as the generators build it: the quantities are 1 to 10 and no item occurs twice. */
  predicate CartOk(cart: Cart) {
    cart.NewOrder? ==>
      && (forall i :: 0 <= i < |cart.lines| ==> 1 <= cart.lines[i].qty <= 10)
      && (forall i, j :: 0 <= i < j < |cart.lines| ==> cart.lines[i].item != cart.lines[j].item)
  }

  /** What the protocol relies on about any transaction. */
  ghost predicate WellFormed(t: Txn) {
    && t.listSet <= t.readSet
    && t.writes.Keys <= t.listSet
    && t.fallback <= t.listSet
    && (forall r :: r in t.fallback ==> r.Warehouse? || r.District? || r.Customer?)
    && (forall r :: r in t.writes ==> OpFor(r, t.writes[r]) && (r.Warehouse? || r.Stock? ==> r !in t.fallback))
    && (t.counter.Some? ==> t.counter.value.District? && t.counter.value !in t.writes && t.counter.value in t.readSet)
  }

  lemma {:induction false} StockWritesOk(home: nat, lines: seq<Line>)
    requires forall i :: 0 <= i < |lines| ==> 1 <= lines[i].qty <= 10
    ensures forall r :: r in StockWrites(home, lines) ==>
      r.Stock? && OpFor(r, StockWrites(home, lines)[r]) && r in LineReads(lines)
  {
    if lines != [] { StockWritesOk(home, lines[..|lines| - 1]); }
  }

  ghost predicate OnSomeLine(lines: seq<Line>, r: Rid) { exists i :: 0 <= i < |lines| && StockOf(lines[i]) == r }

  /** The line's stock is ordered by its quantity. */
  predicate Orders(home: nat, l: Line, writes: map<Rid, Op>) {
    StockOf(l) in writes && writes[StockOf(l)] == OrderStock(l.qty, home, l.supply == 0)
  }

  /** A cart orders each of its stocks once, by that line's quantity, and no other stock. */
  lemma {:induction false} StockWritesExact(home: nat, lines: seq<Line>)
    requires forall i, j :: 0 <= i < j < |lines| ==> lines[i].item != lines[j].item
    ensures forall i :: 0 <= i < |lines| ==> Orders(home, lines[i], StockWrites(home, lines))
    ensures forall r :: r in StockWrites(home, lines) ==> OnSomeLine(lines, r)
  {
    if lines != [] {
      var front, n := lines[..|lines| - 1], |lines| - 1;
      var before, after := StockWrites(home, front), StockWrites(home, lines);
      StockWritesExact(home, front);
      assert after == before[StockOf(lines[n]) := OrderStock(lines[n].qty, home, lines[n].supply == 0)];
      hide StockWrites;
      forall i | 0 <= i < |lines| ensures Orders(home, lines[i], after) {
        if i < n { assert front[i] == lines[i] && Orders(home, front[i], before) && lines[i].item != lines[n].item; }
      }
      forall r | r in after ensures OnSomeLine(lines, r) {
        if r != StockOf(lines[n]) {
          assert OnSomeLine(front, r);
          var i :| 0 <= i < |front| && StockOf(front[i]) == r;
          assert StockOf(lines[i]) == r;
        }
      }
    }
  }

  /** Both transactions meet the protocol's requirements, whichever way the district counter is updated. */
  lemma TxnOfWellFormed(commutative: bool, cart: Cart)
    requires CartOk(cart)
    ensures WellFormed(TxnOf(commutative, cart))
  {
    if cart.NewOrder? { StockWritesOk(cart.w, cart.lines); }
  }

  // ---------------------------------------------------------------- what a cart asks for, told from the cart alone

  /** The three records a cart names itself; a customer pays where they live and orders where they shop. */
  predicate Named(cart: Cart, r: Rid) {
    || r == Warehouse(cart.w) || r == District(cart.w, cart.d)
    || r == Customer(if cart.Payment? then cart.residentW else cart.w, cart.d, cart.c)
  }

  ghost predicate ItemOnSomeLine(lines: seq<Line>, r: Rid) { exists i :: 0 <= i < |lines| && Item(lines[i].item) == r }

  /** The records a cart's transaction reads. */
  ghost predicate Touches(cart: Cart, r: Rid) {
    Named(cart, r) || (cart.NewOrder? && (OnSomeLine(cart.lines, r) || ItemOnSomeLine(cart.lines, r)))
  }

  /** The records it writes. */
  ghost predicate Changes(commutative: bool, cart: Cart, r: Rid) {
    if cart.Payment? then Named(cart, r)
    else OnSomeLine(cart.lines, r) || (!commutative && r == District(cart.w, cart.d))
  }

  predicate NewOrderOn(cart: Cart, d: Rid) { cart.NewOrder? && d == District(cart.w, cart.d) }

  lemma {:induction false} LineReadsExact(lines: seq<Line>, r: Rid)
    ensures r in LineReads(lines) <==> OnSomeLine(lines, r) || ItemOnSomeLine(lines, r)
  {
    if lines != [] {
      var front, n := lines[..|lines| - 1], |lines| - 1;
      LineReadsExact(front, r);
      assert forall i :: 0 <= i < n ==> front[i] == lines[i];
      if r == StockOf(lines[n]) || r == Item(lines[n].item) {
      } else {
        assert OnSomeLine(lines, r) <==> OnSomeLine(front, r);
        assert ItemOnSomeLine(lines, r) <==> ItemOnSomeLine(front, r);
      }
    }
  }

  /** The stocks of a cart's lines, and nothing else. */
  lemma StockWritesKeys(home: nat, lines: seq<Line>, r: Rid)
    requires forall i, j :: 0 <= i < j < |lines| ==> lines[i].item != lines[j].item
    ensures r in StockWrites(home, lines) <==> OnSomeLine(lines, r)
  {
    StockWritesExact(home, lines);
    if OnSomeLine(lines, r) {
      var i :| 0 <= i < |lines| && StockOf(lines[i]) == r;
      assert Orders(home, lines[i], StockWrites(home, lines));
    }
  }

  /**
   * Exactly what a cart asks for: the records read and written, those that may be replaced by an older version, and
   * how the district's counter is updated.
   */
  lemma TxnOfExact(commutative: bool, cart: Cart, r: Rid)
    requires CartOk(cart)
    ensures
      var txn := TxnOf(commutative, cart);
      && WellFormed(txn)
      && (r in txn.readSet <==> Touches(cart, r))
      && (r in txn.writes <==> Changes(commutative, cart, r))
      && (r in txn.listSet <==> Named(cart, r) || Changes(commutative, cart, r))
      && (r in txn.fallback <==> cart.NewOrder? && Named(cart, r))
      && (txn.counter == Some(r) <==> commutative && NewOrderOn(cart, r))
      && (r in txn.writes && txn.writes[r].TakeOrderId? <==> !commutative && NewOrderOn(cart, r))
  {
    TxnOfWellFormed(commutative, cart);
    if cart.NewOrder? {
      LineReadsExact(cart.lines, r);
      StockWritesKeys(cart.w, cart.lines, r);
      StockWritesOk(cart.w, cart.lines);
    }
  }
}
