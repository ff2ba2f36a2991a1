/**
 * What the committed carts call for is what the rows show. For every record the operations installed on it and those
 * still to be installed add up, in any measure, to what the carts of the decided transactions ask for.
 */
module Accounts {
  import opened Words
  import opened Records
  import opened Protocol
  import opened Core
  import opened Steps
  import opened Ledger
  import opened Commits
  import opened Draws
  import opened Carts
  import opened Sums
  import opened Theorems
  import opened Conservation

  // ---------------------------------------------------------------- the law

  /** A measure of the operations of a history. */
  function Total(h: seq<Entry>, f: Op -> int): int {
    if |h| <= 1 then 0 else Total(h[..|h| - 1], f) + f(h[|h| - 1].op)
  }

  /** A measure of the carts of the decided transactions. */
  function Called(log: seq<Commit>, g: Cart -> int): int {
    if log == [] then 0 else Called(log[..|log| - 1], g) + g(log[|log| - 1].cart)
  }

  function Effect(writes: map<Rid, Op>, r: Rid, f: Op -> int): int { if r in writes then f(writes[r]) else 0 }

  /** What a committing client has yet to install on `r`. */
  function Owing(cl: Client, r: Rid, f: Op -> int): int {
    if cl.phase == Committing && r in cl.stage && cl.stage[r] != Installed then Effect(cl.txn.writes, r, f) else 0
  }

  function OwingAt(s: State, r: Rid, f: Op -> int, c: nat): int {
    if c < |s.clients| then Owing(s.clients[c], r, f) else 0
  }

  function Owed(s: State, r: Rid, f: Op -> int): int {
    Sum((c: nat) => OwingAt(s, r, f, c), |s.clients|)
  }

  ghost predicate Law(s: State, r: Rid, f: Op -> int, g: Cart -> int) {
    r in s.hist && Total(s.hist[r], f) + Owed(s, r, f) == Called(s.log, g)
  }

  /** On record `r` every cart's operation measures what the cart asks for. */
  ghost predicate Agrees(k: Config, r: Rid, f: Op -> int, g: Cart -> int) {
    forall cart :: CartOk(cart) ==> Effect(TxnOf(k.commutative, cart).writes, r, f) == g(cart)
  }

  // ---------------------------------------------------------------- steps

  lemma OwedFrame(s: State, t: State, r: Rid, f: Op -> int, c: nat)
    requires c < |s.clients| == |t.clients|
    requires forall d :: 0 <= d < |s.clients| && d != c ==> t.clients[d] == s.clients[d]
    ensures Owed(t, r, f) == Owed(s, r, f) + Owing(t.clients[c], r, f) - Owing(s.clients[c], r, f)
  {
    hide Owing;
    SumBump((d: nat) => OwingAt(s, r, f, d), (d: nat) => OwingAt(t, r, f, d), |s.clients|, c,
            Owing(t.clients[c], r, f) - Owing(s.clients[c], r, f));
  }

  /** An install moves its measure from what is owed to what is there. */
  lemma InstallOwed(k: Config, s: State, c: nat, q: Rid, r: Rid, f: Op -> int, g: Cart -> int)
    requires CanInstall(k, s, c, q) && s.hist[q] != [] && Law(s, r, f, g)
    ensures Law(DoInstall(k, s, c, q), r, f, g)
  {
    hide NewVersion, Owed;
    var t, cl := DoInstall(k, s, c, q), s.clients[c];
    OwedFrame(s, t, r, f, c);
    if q == r {
      var h := t.hist[r];
      assert h[..|h| - 1] == s.hist[r] && h[|h| - 1].op == cl.txn.writes[r];
      assert Owing(cl, r, f) == f(cl.txn.writes[r]) && Owing(t.clients[c], r, f) == 0;
    } else {
      assert Owing(cl, r, f) == Owing(t.clients[c], r, f);
    }
  }

  /** A decision to commit calls for what the client then owes. */
  lemma DecideOwed(k: Config, s: State, c: nat, r: Rid, f: Op -> int, g: Cart -> int)
    requires CanDecide(s, c) && Law(s, r, f, g) && Bound(k, s.clients[c]) && Agrees(k, r, f, g)
    requires s.clients[c].stage.Keys == s.clients[c].txn.writes.Keys
    ensures Law(DoDecide(s, c), r, f, g)
  {
    hide DoDecide, TxnOf, Owed, CartOk;
    var t, cl := DoDecide(s, c), s.clients[c];
    DecideEffect(s, c);
    OwedFrame(s, t, r, f, c);
    assert Effect(TxnOf(k.commutative, cl.cart).writes, r, f) == g(cl.cart);
    assert Owing(cl, r, f) == 0;
    if t.clients[c].phase == Committing {
      assert Owing(t.clients[c], r, f) == g(cl.cart);
      assert t.log[..|t.log| - 1] == s.log && t.log[|s.log|].cart == cl.cart;
    }
  }

  lemma StageOwing(cl: Client, cm: Client, r: Rid, f: Op -> int)
    requires cm.phase == cl.phase && cm.txn == cl.txn && cm.stage.Keys == cl.stage.Keys
    requires r in cl.stage ==> (cl.stage[r] == Installed <==> cm.stage[r] == Installed)
    ensures Owing(cl, r, f) == Owing(cm, r, f)
  {}

  lemma OwingStays(k: Config, s: State, a: Action, r: Rid, f: Op -> int)
    requires Enabled(k, s, a) && !a.Refresh? && !a.Install? && !a.Decide?
    ensures a.c < |s.clients| == |Next(k, s, a).clients|
    ensures Owing(Next(k, s, a).clients[a.c], r, f) == Owing(s.clients[a.c], r, f)
  {
    hide Owing, Enabled, Next;
    if a.Publish? { PublishOwing(k, s, a, r, f); }
    else if a.TryLock? { LockOwing(k, s, a, r, f); }
    else if WritesMemory(a) { WriteOwing(k, s, a, r, f); }
    else { LocalOwing(k, s, a, r, f); }
  }

  lemma WriteOwing(k: Config, s: State, a: Action, r: Rid, f: Op -> int)
    requires Enabled(k, s, a) && WritesMemory(a) && !a.Install? && !a.Publish? && !a.TryLock?
    ensures a.c < |s.clients| == |Next(k, s, a).clients|
    ensures Owing(Next(k, s, a).clients[a.c], r, f) == Owing(s.clients[a.c], r, f)
  {
    hide Owing, Enabled, Next;
    StepsByWriting(k, s, a);
    StageOwing(s.clients[a.c], Next(k, s, a).clients[a.c], r, f);
  }

  lemma LocalOwing(k: Config, s: State, a: Action, r: Rid, f: Op -> int)
    requires Enabled(k, s, a) && !WritesMemory(a) && !a.Refresh? && !a.Decide?
    ensures a.c < |s.clients| == |Next(k, s, a).clients|
    ensures Owing(Next(k, s, a).clients[a.c], r, f) == 0 == Owing(s.clients[a.c], r, f)
  {
    hide Owing, Enabled, Next;
    StepsLocally(k, s, a);
    NothingOwing(s.clients[a.c], r, f);
    NothingOwing(Next(k, s, a).clients[a.c], r, f);
  }

  lemma NothingOwing(cl: Client, r: Rid, f: Op -> int)
    requires cl.phase != Committing
    ensures Owing(cl, r, f) == 0
  {}

  lemma LockOwing(k: Config, s: State, a: Action, r: Rid, f: Op -> int)
    requires Enabled(k, s, a) && a.TryLock?
    ensures a.c < |s.clients| == |Next(k, s, a).clients|
    ensures Owing(Next(k, s, a).clients[a.c], r, f) == 0 == Owing(s.clients[a.c], r, f)
  {
    hide SameBits;
  }

  lemma PublishOwing(k: Config, s: State, a: Action, r: Rid, f: Op -> int)
    requires Enabled(k, s, a) && a.Publish?
    ensures a.c < |s.clients| == |Next(k, s, a).clients|
    ensures Owing(Next(k, s, a).clients[a.c], r, f) == 0 == Owing(s.clients[a.c], r, f)
  {}

  lemma QuietOwed(k: Config, s: State, a: Action, r: Rid, f: Op -> int, g: Cart -> int)
    requires Enabled(k, s, a) && !a.Install? && !a.Decide? && Law(s, r, f, g)
    ensures Law(Next(k, s, a), r, f, g)
  {
    hide Owing, Owed, Enabled, Next;
    var t := Next(k, s, a);
    NoNewVersion(k, s, a);
    LogKept(k, s, a);
    if a.Refresh? {
      RefreshOwed(k, s, a, r, f);
    } else {
      OthersStay(k, s, a);
      OwingStays(k, s, a, r, f);
      OwedFrame(s, t, r, f, a.c);
    }
  }

  lemma RefreshOwed(k: Config, s: State, a: Action, r: Rid, f: Op -> int)
    requires Enabled(k, s, a) && a.Refresh?
    ensures Owed(Next(k, s, a), r, f) == Owed(s, r, f)
  {
    var t := Next(k, s, a);
    SumSame((c: nat) => OwingAt(s, r, f, c), (c: nat) => OwingAt(t, r, f, c), |s.clients|);
  }

  /** Every action keeps the law, for every record and every measure. */
  lemma NextLaw(k: Config, s: State, a: Action, r: Rid, f: Op -> int, g: Cart -> int)
    requires Inv(k, s) && CartInv(k, s) && Enabled(k, s, a) && Law(s, r, f, g) && Agrees(k, r, f, g)
    ensures Law(Next(k, s, a), r, f, g)
  {
    hide Inv, CartInv, Law, Agrees;
    if a.Install? {
      NotEmpty(k, s, a.r);
      InstallOwed(k, s, a.c, a.r, r, f, g);
    } else if a.Decide? {
      Deciding(k, s, a.c);
      DecideOwed(k, s, a.c, r, f, g);
    } else {
      QuietOwed(k, s, a, r, f, g);
    }
  }

  lemma NotEmpty(k: Config, s: State, r: Rid)
    requires Inv(k, s) && r in s.mem
    ensures r in s.hist && s.hist[r] != []
  {
    assert RecordInv(k, s, r);
  }

  lemma Deciding(k: Config, s: State, c: nat)
    requires Inv(k, s) && CartInv(k, s) && CanDecide(s, c)
    ensures Bound(k, s.clients[c]) && s.clients[c].stage.Keys == s.clients[c].txn.writes.Keys
  {
    ClientFacts(k, s, c);
  }

  lemma InitLaw(k: Config, r: Rid, f: Op -> int, g: Cart -> int)
    requires r in k.initial
    ensures Law(Init(k), r, f, g)
  {
    var s := Init(k);
    SumZero((c: nat) => OwingAt(s, r, f, c), |s.clients|);
  }

  lemma {:induction false} RunLaw(k: Config, acts: seq<Action>, t: State, r: Rid, f: Op -> int, g: Cart -> int)
    requires ValidConfig(k) && IsRun(k, Init(k), acts, t) && r in k.initial && Agrees(k, r, f, g)
    ensures Law(t, r, f, g)
    decreases |acts|
  {
    hide Enabled, Next, Law, Agrees, ValidConfig;
    if acts == [] {
      InitLaw(k, r, f, g);
    } else {
      var last := acts[|acts| - 1];
      var m :| IsRun(k, Init(k), acts[..|acts| - 1], m) && Enabled(k, m, last) && t == Next(k, m, last);
      RunLaw(k, acts[..|acts| - 1], m, r, f, g);
      RunGood(k, acts[..|acts| - 1], m);
      NextLaw(k, m, last, r, f, g);
    }
  }

  // ---------------------------------------------------------------- settled records

  /** No client is between its decision and its install on `r`. */
  ghost predicate Settled(s: State, r: Rid) {
    forall c :: 0 <= c < |s.clients| && s.clients[c].phase == Committing && r in s.clients[c].stage ==>
      s.clients[c].stage[r] == Installed
  }

  lemma SettledOwesNothing(s: State, r: Rid, f: Op -> int)
    requires Settled(s, r)
    ensures Owed(s, r, f) == 0
  {
    SumZero((c: nat) => OwingAt(s, r, f, c), |s.clients|);
  }

  /** On a settled record the installed operations measure what the committed carts ask for. */
  lemma SettledTotal(k: Config, s: State, r: Rid, f: Op -> int, g: Cart -> int)
    requires ValidConfig(k) && Reachable(k, s) && r in s.mem && Settled(s, r) && Agrees(k, r, f, g)
    ensures r in s.hist && Total(s.hist[r], f) == Called(s.log, g)
  {
    hide IsRun, ValidConfig, Settled, Agrees, Owed;
    SameRecords(k, s);
    var acts :| IsRun(k, Init(k), acts, s);
    RunLaw(k, acts, s, r, f, g);
    SettledOwesNothing(s, r, f);
  }

  const EACH: Op -> int := (op: Op) => 1

  lemma {:induction false} TotalCounts(h: seq<Entry>)
    ensures Total(h, EACH) == if h == [] then 0 else |h| - 1
    decreases |h|
  {
    if |h| > 1 { TotalCounts(h[..|h| - 1]); }
  }

  lemma {:induction false} TotalPaid(h: seq<Entry>)
    ensures Total(h, Amount) == Paid(h)
    decreases |h|
  {
    if |h| > 1 { TotalPaid(h[..|h| - 1]); }
  }

  // ---------------------------------------------------------------- payments

  /** A payment on record `r`: its warehouse, its district, or the customer at their home warehouse. */
  predicate PaysTo(cart: Cart, r: Rid) {
    && cart.Payment?
    && (r == Warehouse(cart.w) || r == District(cart.w, cart.d) || r == Customer(cart.residentW, cart.d, cart.c))
  }

  /** The amounts paid to `r`. */
  function AmountsTo(r: Rid): Cart -> int { (cart: Cart) => if PaysTo(cart, r) then cart.amount else 0 }

  /** The payments to `r`, counted. */
  function PaymentsTo(r: Rid): Cart -> int { (cart: Cart) => if PaysTo(cart, r) then 1 else 0 }

  lemma AmountsAgree(k: Config, r: Rid)
    requires r.Warehouse? || r.District? || r.Customer?
    ensures Agrees(k, r, Amount, AmountsTo(r))
  {
    forall cart | CartOk(cart) ensures Effect(TxnOf(k.commutative, cart).writes, r, Amount) == AmountsTo(r)(cart) {
      if cart.NewOrder? { StockWritesOk(cart.w, cart.lines); }
    }
  }

  /**
   * W_YTD of a warehouse, or D_YTD of a district, has grown by exactly the amounts of the committed payments made
   * there, whenever no payment is in the middle of its install on it.
   */
  lemma PaymentsArrive(k: Config, s: State, r: Rid)
    requires ValidConfig(k) && Reachable(k, s) && r in s.mem && (r.Warehouse? || r.District?) && Settled(s, r)
    ensures Growth(k, s, r) == Called(s.log, AmountsTo(r))
  {
    hide Reachable, ValidConfig, Settled, Agrees, AmountsTo;
    AmountsAgree(k, r);
    SettledTotal(k, s, r, Amount, AmountsTo(r));
    TotalPaid(s.hist[r]);
    BalancesAreSums(k, s, r);
  }

  lemma PaymentsAgree(k: Config, r: Rid)
    requires r.Customer?
    ensures Agrees(k, r, EACH, PaymentsTo(r))
  {
    forall cart | CartOk(cart) ensures Effect(TxnOf(k.commutative, cart).writes, r, EACH) == PaymentsTo(r)(cart) {
      if cart.NewOrder? { StockWritesOk(cart.w, cart.lines); }
    }
  }

  /**
   * A customer's C_YTD_PAYMENT has grown, and C_BALANCE has fallen, by the amounts of the committed payments of this
   * customer; C_PAYMENT_CNT has grown by their number, up to its width.
   */
  lemma CustomerPays(k: Config, s: State, r: Rid)
    requires ValidConfig(k) && Reachable(k, s) && r in s.mem && r.Customer? && Settled(s, r)
    requires r in k.initial && k.initial[r].CustomerRow? && k.initial[r].paymentCnt < UINT16
    ensures s.mem[r].head.payload.CustomerRow?
    ensures
      var p, p0, paid := s.mem[r].head.payload, k.initial[r], Called(s.log, AmountsTo(r));
      && p.ytdPayment == p0.ytdPayment + paid && p.balance == p0.balance - paid
      && p.paymentCnt == (p0.paymentCnt + Called(s.log, PaymentsTo(r))) % UINT16
  {
    hide Reachable, ValidConfig, Settled, Agrees, AmountsTo, PaymentsTo;
    CustomerConserved(k, s, r);
    AmountsAgree(k, r);
    SettledTotal(k, s, r, Amount, AmountsTo(r));
    TotalPaid(s.hist[r]);
    PaymentsAgree(k, r);
    SettledTotal(k, s, r, EACH, PaymentsTo(r));
    TotalCounts(s.hist[r]);
  }

  // ---------------------------------------------------------------- stocks

  /** The lines of an order on stock `r`, each measured by `f`. */
  function OnLines(lines: seq<Line>, r: Rid, f: Line -> nat): nat {
    if lines == [] then 0
    else
      var l := lines[|lines| - 1];
      OnLines(lines[..|lines| - 1], r, f) + if r == Stock(l.supply, l.item) then f(l) else 0
  }

  const QTY: Line -> nat := (l: Line) => l.qty
  const ONE: Line -> nat := (l: Line) => 1

  function QuantityOn(r: Rid): Cart -> int { (cart: Cart) => if cart.NewOrder? then OnLines(cart.lines, r, QTY) else 0 }

  function LinesOn(r: Rid): Cart -> int { (cart: Cart) => if cart.NewOrder? then OnLines(cart.lines, r, ONE) else 0 }

  /** The lines on `r` of orders from another warehouse than the one that supplies them. */
  function RemoteLinesOn(r: Rid): Cart -> int
    requires r.Stock?
  {
    (cart: Cart) => if cart.NewOrder? && cart.w != r.w then OnLines(cart.lines, r, ONE) else 0
  }

  /** A stock is on one line of a cart at most. */
  lemma {:induction false} OnOneLine(lines: seq<Line>, i: nat, f: Line -> nat)
    requires i < |lines| && forall i, j :: 0 <= i < j < |lines| ==> lines[i].item != lines[j].item
    ensures OnLines(lines, StockOf(lines[i]), f) == f(lines[i])
  {
    var front, n, r := lines[..|lines| - 1], |lines| - 1, StockOf(lines[i]);
    if i < n {
      assert front[i] == lines[i] && lines[i].item != lines[n].item;
      OnOneLine(front, i, f);
    } else {
      forall j | 0 <= j < n ensures StockOf(front[j]) != r {
        assert front[j] == lines[j] && lines[j].item != lines[n].item;
      }
      OnNoLine(front, r, f);
    }
  }

  lemma {:induction false} OnNoLine(lines: seq<Line>, r: Rid, f: Line -> nat)
    requires forall j :: 0 <= j < |lines| ==> StockOf(lines[j]) != r
    ensures OnLines(lines, r, f) == 0
  {
    if lines != [] {
      var l := lines[|lines| - 1];
      assert StockOf(l) == Stock(l.supply, l.item) != r;
      OnNoLine(lines[..|lines| - 1], r, f);
    }
  }

  /** What an order line measures as an operation and as a line. */
  ghost predicate LineAgrees(home: nat, f: Op -> int, g: Line -> nat) {
    forall l: Line :: f(OrderStock(l.qty, home, l.supply == 0)) == g(l)
  }

  lemma StockEffect(home: nat, lines: seq<Line>, r: Rid, f: Op -> int, g: Line -> nat)
    requires r.Stock? && LineAgrees(home, f, g)
    requires forall i, j :: 0 <= i < j < |lines| ==> lines[i].item != lines[j].item
    ensures Effect(StockWrites(home, lines), r, f) == OnLines(lines, r, g)
  {
    hide StockWrites, OnLines;
    StockWritesExact(home, lines);
    if r in StockWrites(home, lines) {
      assert OnSomeLine(lines, r);
      var i :| 0 <= i < |lines| && StockOf(lines[i]) == r;
      assert Orders(home, lines[i], StockWrites(home, lines));
      assert f(OrderStock(lines[i].qty, home, lines[i].supply == 0)) == g(lines[i]);
      OnOneLine(lines, i, g);
    } else {
      forall j | 0 <= j < |lines| ensures StockOf(lines[j]) != r {
        assert Orders(home, lines[j], StockWrites(home, lines));
      }
      OnNoLine(lines, r, g);
    }
  }

  const ORDERED: Op -> int := (op: Op) => Quantity(op)

  /** Orders from another warehouse than the one that supplies stock `r`. */
  function REMOTE(r: Rid): Op -> int
    requires r.Stock?
  {
    (op: Op) => if IsRemote(r, op) then 1 else 0
  }

  lemma StockAgrees(k: Config, r: Rid)
    requires r.Stock?
    ensures Agrees(k, r, ORDERED, QuantityOn(r)) && Agrees(k, r, EACH, LinesOn(r))
    ensures Agrees(k, r, REMOTE(r), RemoteLinesOn(r))
  {
    forall cart | CartOk(cart)
      ensures Effect(TxnOf(k.commutative, cart).writes, r, ORDERED) == QuantityOn(r)(cart)
      ensures Effect(TxnOf(k.commutative, cart).writes, r, EACH) == LinesOn(r)(cart)
      ensures Effect(TxnOf(k.commutative, cart).writes, r, REMOTE(r)) == RemoteLinesOn(r)(cart)
    {
      CartOnStock(k.commutative, cart, r);
    }
  }

  lemma CartOnStock(commutative: bool, cart: Cart, r: Rid)
    requires CartOk(cart) && r.Stock?
    ensures Effect(TxnOf(commutative, cart).writes, r, ORDERED) == QuantityOn(r)(cart)
    ensures Effect(TxnOf(commutative, cart).writes, r, EACH) == LinesOn(r)(cart)
    ensures Effect(TxnOf(commutative, cart).writes, r, REMOTE(r)) == RemoteLinesOn(r)(cart)
  {
    if cart.NewOrder? {
      var remote: Line -> nat := if cart.w != r.w then ONE else (l: Line) => 0;
      StockEffect(cart.w, cart.lines, r, ORDERED, QTY);
      StockEffect(cart.w, cart.lines, r, EACH, ONE);
      StockEffect(cart.w, cart.lines, r, REMOTE(r), remote);
      if cart.w == r.w { OnLinesZero(cart.lines, r, remote); }
    }
  }

  lemma {:induction false} OnLinesZero(lines: seq<Line>, r: Rid, f: Line -> nat)
    requires forall l :: f(l) == 0
    ensures OnLines(lines, r, f) == 0
  {
    if lines != [] { OnLinesZero(lines[..|lines| - 1], r, f); }
  }

  lemma {:induction false} TotalOrdered(h: seq<Entry>)
    ensures Total(h, ORDERED) == Ordered(h)
    decreases |h|
  {
    if |h| > 1 { TotalOrdered(h[..|h| - 1]); }
  }

  lemma {:induction false} TotalRemote(r: Rid, h: seq<Entry>)
    requires r.Stock?
    ensures Total(h, REMOTE(r)) == RemoteLines(r, h)
    decreases |h|
  {
    if |h| > 1 { TotalRemote(r, h[..|h| - 1]); }
  }

  /**
   * A stock row accounts for the committed orders: S_YTD is the quantity their lines order of it and S_ORDER_CNT the
   * number of these lines, up to the column widths; S_QUANTITY lies in 10..100 and is the initial one less that
   * quantity, modulo 91.
   */
  lemma OrdersTakeStock(k: Config, s: State, r: Rid)
    requires ValidConfig(k) && Reachable(k, s) && r in s.mem && r.Stock? && Settled(s, r)
    requires r in k.initial && FreshStock(k.initial[r])
    ensures s.mem[r].head.payload.StockRow?
    ensures
      var p, ordered := s.mem[r].head.payload, Called(s.log, QuantityOn(r));
      && p.orderYtd == ordered % UINT32 && p.orderCnt == Called(s.log, LinesOn(r)) % UINT16
      && 10 <= p.quantity <= 100 && (k.initial[r].quantity - ordered - p.quantity) % 91 == 0
  {
    hide Reachable, ValidConfig, Settled, Agrees, QuantityOn, LinesOn, RemoteLinesOn, REMOTE;
    StockConserved(k, s, r);
    StockAgrees(k, r);
    SettledTotal(k, s, r, ORDERED, QuantityOn(r));
    SettledTotal(k, s, r, EACH, LinesOn(r));
    TotalOrdered(s.hist[r]);
    TotalCounts(s.hist[r]);
  }

  /**
   * S_REMOTE_CNT is the number of committed lines on the stock from another warehouse, up to its width, if and only
   * if the number of lines it counts wrongly is a multiple of 2^16: for warehouse 0 its own lines, for any other
   * warehouse the lines from elsewhere.
   */
  lemma RemoteOrdersCounted(k: Config, s: State, r: Rid)
    requires ValidConfig(k) && Reachable(k, s) && r in s.mem && r.Stock? && Settled(s, r)
    requires r in k.initial && FreshStock(k.initial[r])
    ensures s.mem[r].head.payload.StockRow?
    ensures
      var p, all, remote := s.mem[r].head.payload, Called(s.log, LinesOn(r)), Called(s.log, RemoteLinesOn(r));
      && p.remoteCnt == (if r.w == 0 then all % UINT16 else 0)
      && (p.remoteCnt == remote % UINT16 <==> (if r.w == 0 then all - remote else remote) % UINT16 == 0)
  {
    hide Reachable, ValidConfig, Settled, Agrees, QuantityOn, LinesOn, RemoteLinesOn, REMOTE, RemoteLines, WrongLines;
    StockConserved(k, s, r);
    RemoteConserved(k, s, r);
    StockAgrees(k, r);
    SettledTotal(k, s, r, EACH, LinesOn(r));
    SettledTotal(k, s, r, REMOTE(r), RemoteLinesOn(r));
    TotalCounts(s.hist[r]);
    TotalRemote(r, s.hist[r]);
    WrongAndRemote(k, r, s.hist[r]);
  }

  // ---------------------------------------------------------------- the money invariant

  /** At any moment a balance has grown by what the committed payments bring, less what is still to be installed. */
  lemma PaidLaw(k: Config, s: State, r: Rid)
    requires ValidConfig(k) && Reachable(k, s) && (r.Warehouse? || r.District?)
    ensures Growth(k, s, r) + Owed(s, r, Amount) == Called(s.log, AmountsTo(r))
  {
    hide IsRun, ValidConfig, Agrees, AmountsTo, Owed;
    SameRecords(k, s);
    if r in s.mem {
      var acts :| IsRun(k, Init(k), acts, s);
      AmountsAgree(k, r);
      RunLaw(k, acts, s, r, Amount, AmountsTo(r));
      TotalPaid(s.hist[r]);
      BalancesAreSums(k, s, r);
    } else {
      OutsideDatabase(k, s, r);
    }
  }

  lemma OutsideDatabase(k: Config, s: State, r: Rid)
    requires ValidConfig(k) && Reachable(k, s) && r !in k.initial
    ensures Owed(s, r, Amount) == 0 == Called(s.log, AmountsTo(r))
  {
    hide Reachable;
    AlwaysGood(k, s);
    forall m | m in s.log ensures AmountsTo(r)(m.cart) == 0 { assert CommitBound(k, m); }
    CalledZero(s.log, AmountsTo(r));
    forall c: nat | c < |s.clients| ensures OwingAt(s, r, Amount, c) == 0 { ClientFacts(k, s, c); }
    SumZero((c: nat) => OwingAt(s, r, Amount, c), |s.clients|);
  }

  lemma {:induction false} CalledZero(log: seq<Commit>, g: Cart -> int)
    requires forall m :: m in log ==> g(m.cart) == 0
    ensures Called(log, g) == 0
  {
    if log != [] {
      assert log[|log| - 1] in log;
      CalledZero(log[..|log| - 1], g);
    }
  }

  /** Every district of `w` is numbered below `n`. */
  ghost predicate DistrictsBelow(k: Config, w: nat, n: nat) {
    forall d: nat :: District(w, d) in k.initial ==> d < n
  }

  /** A cart pays a warehouse what it pays the districts there. */
  lemma CartBalanced(k: Config, cart: Cart, w: nat, n: nat)
    requires Sound(k, cart) && DistrictsBelow(k, w, n)
    ensures AmountsTo(Warehouse(w))(cart) == Sum((d: nat) => AmountsTo(District(w, d))(cart), n)
  {
    var f := (d: nat) => AmountsTo(District(w, d))(cart);
    forall d: nat ensures f(d) == if PaysTo(cart, District(w, d)) then cart.amount else 0 {
      assert f(d) == AmountsTo(District(w, d))(cart);
    }
    if cart.Payment? && cart.w == w {
      assert District(w, cart.d) in TxnOf(k.commutative, cart).readSet;
      SumZero((d: nat) => 0, n);
      SumBump((d: nat) => 0, f, n, cart.d, cart.amount);
    } else {
      SumZero(f, n);
    }
  }

  lemma {:induction false} CalledBalanced(k: Config, log: seq<Commit>, w: nat, n: nat)
    requires DistrictsBelow(k, w, n) && forall m :: m in log ==> Sound(k, m.cart)
    ensures Called(log, AmountsTo(Warehouse(w))) == Sum((d: nat) => Called(log, AmountsTo(District(w, d))), n)
  {
    hide Sound, DistrictsBelow, AmountsTo;
    if log == [] {
      SumZero((d: nat) => Called(log, AmountsTo(District(w, d))), n);
    } else {
      var front, m := log[..|log| - 1], log[|log| - 1];
      CalledBalanced(k, front, w, n);
      CartBalanced(k, m.cart, w, n);
      SumSplits((d: nat) => Called(log, AmountsTo(District(w, d))),
                (d: nat) => Called(front, AmountsTo(District(w, d))),
                (d: nat) => AmountsTo(District(w, d))(m.cart), n);
    }
  }

  predicate OfWarehouse(r: Rid, w: nat) { r == Warehouse(w) || (r.District? && r.w == w) }

  /** The client is not in the middle of its installs on warehouse `w` and its districts. */
  predicate Level(cl: Client, w: nat) {
    cl.phase == Committing ==>
      forall r, q :: r in cl.stage && q in cl.stage && OfWarehouse(r, w) && OfWarehouse(q, w) ==>
        (cl.stage[r] == Installed ==> cl.stage[q] == Installed)
  }

  lemma LevelOwing(k: Config, cl: Client, c: nat, w: nat, n: nat)
    requires Bound(k, cl) && ClientShape(k, c, cl) && Level(cl, w) && DistrictsBelow(k, w, n)
    ensures Owing(cl, Warehouse(w), Amount) == Sum((d: nat) => Owing(cl, District(w, d), Amount), n)
  {
    hide TxnOf, Sound, ClientShape, DistrictsBelow, AmountsTo;
    var f := (d: nat) => Owing(cl, District(w, d), Amount);
    if cl.phase == Committing && exists r :: r in cl.stage && OfWarehouse(r, w) && cl.stage[r] != Installed {
      forall r | OfWarehouse(r, w) ensures Owing(cl, r, Amount) == AmountsTo(r)(cl.cart) { LevelOwes(k, cl, c, r, w); }
      assert OfWarehouse(Warehouse(w), w);
      CartBalanced(k, cl.cart, w, n);
      SumSame(f, (d: nat) => AmountsTo(District(w, d))(cl.cart), n);
    } else {
      assert OfWarehouse(Warehouse(w), w);
      forall d: nat ensures f(d) == 0 { assert OfWarehouse(District(w, d), w); }
      SumZero(f, n);
    }
  }

  lemma LevelOwes(k: Config, cl: Client, c: nat, r: Rid, w: nat)
    requires Bound(k, cl) && ClientShape(k, c, cl) && Level(cl, w) && OfWarehouse(r, w) && cl.phase == Committing
    requires exists q :: q in cl.stage && OfWarehouse(q, w) && cl.stage[q] != Installed
    ensures Owing(cl, r, Amount) == AmountsTo(r)(cl.cart)
  {
    hide TxnOf, AmountsTo;
    AmountsAgree(k, r);
    assert Effect(TxnOf(k.commutative, cl.cart).writes, r, Amount) == AmountsTo(r)(cl.cart);
    assert cl.stage.Keys == cl.txn.writes.Keys;
  }

  lemma OwedBalanced(k: Config, s: State, w: nat, n: nat)
    requires Shape(k, s) && CartInv(k, s) && DistrictsBelow(k, w, n)
    requires forall c :: 0 <= c < |s.clients| ==> Level(s.clients[c], w)
    ensures Owed(s, Warehouse(w), Amount) == Sum((d: nat) => Owed(s, District(w, d), Amount), n)
  {
    hide Bound, ClientShape, Level, DistrictsBelow, Owing;
    var m, table := |s.clients|, (c: nat, d: nat) => OwingAt(s, District(w, d), Amount, c);
    forall c: nat | c < m ensures OwingAt(s, Warehouse(w), Amount, c) == RowSum(table, c, n) {
      LevelOwing(k, s.clients[c], c, w, n);
      SumSame((d: nat) => Owing(s.clients[c], District(w, d), Amount), (d: nat) => table(c, d), n);
    }
    SumSame((c: nat) => OwingAt(s, Warehouse(w), Amount, c), (c: nat) => RowSum(table, c, n), m);
    SumSwaps(table, m, n);
    forall d: nat ensures ColumnSum(table, m, d) == Owed(s, District(w, d), Amount) {
      SumSame((c: nat) => table(c, d), (c: nat) => OwingAt(s, District(w, d), Amount, c), m);
    }
    SumSame((d: nat) => ColumnSum(table, m, d), (d: nat) => Owed(s, District(w, d), Amount), n);
  }

  /**
   * The money invariant. Whenever no payment is in the middle of its installs on a warehouse and its districts, W_YTD
   * has grown by exactly as much as the D_YTD of the districts together; and when none is still to be installed
   * there, by the amounts of the committed payments.
   */
  lemma MoneyConserved(k: Config, s: State, w: nat, n: nat)
    requires ValidConfig(k) && Reachable(k, s) && DistrictsBelow(k, w, n)
    requires forall c :: 0 <= c < |s.clients| ==> Level(s.clients[c], w)
    ensures Growth(k, s, Warehouse(w)) == Sum((d: nat) => Growth(k, s, District(w, d)), n)
    ensures Settled(s, Warehouse(w)) ==> Growth(k, s, Warehouse(w)) == Called(s.log, AmountsTo(Warehouse(w)))
  {
    hide Reachable, ValidConfig, DistrictsBelow, Level, AmountsTo, Growth, Owed, Settled;
    forall r: Rid | r.Warehouse? || r.District?
      ensures Growth(k, s, r) + Owed(s, r, Amount) == Called(s.log, AmountsTo(r))
    {
      PaidLaw(k, s, r);
    }
    if Settled(s, Warehouse(w)) { SettledOwesNothing(s, Warehouse(w), Amount); }
    LogSound(k, s);
    CalledBalanced(k, s.log, w, n);
    OwedBalanced(k, s, w, n);
    SumSplits((d: nat) => Called(s.log, AmountsTo(District(w, d))), (d: nat) => Growth(k, s, District(w, d)),
              (d: nat) => Owed(s, District(w, d), Amount), n);
  }

  lemma LogSound(k: Config, s: State)
    requires ValidConfig(k) && Reachable(k, s)
    ensures Shape(k, s) && CartInv(k, s) && forall m :: m in s.log ==> Sound(k, m.cart)
  {
    hide Sound, TxnOf, Reachable;
    AlwaysGood(k, s);
    forall m | m in s.log ensures Sound(k, m.cart) { assert CommitBound(k, m); }
  }

  function YtdNow(s: State, r: Rid): int { if r in s.mem then Ytd(s.mem[r].head.payload) else 0 }

  function YtdAtFirst(k: Config, r: Rid): int { if r in k.initial then Ytd(k.initial[r]) else 0 }

  /** So in a database populated with W_YTD equal to the sum of its D_YTD, they are equal at every such moment. */
  lemma YtdBalanced(k: Config, s: State, w: nat, n: nat)
    requires ValidConfig(k) && Reachable(k, s) && DistrictsBelow(k, w, n)
    requires forall c :: 0 <= c < |s.clients| ==> Level(s.clients[c], w)
    requires YtdAtFirst(k, Warehouse(w)) == Sum((d: nat) => YtdAtFirst(k, District(w, d)), n)
    ensures YtdNow(s, Warehouse(w)) == Sum((d: nat) => YtdNow(s, District(w, d)), n)
    ensures Settled(s, Warehouse(w)) ==>
      YtdNow(s, Warehouse(w)) == YtdAtFirst(k, Warehouse(w)) + Called(s.log, AmountsTo(Warehouse(w)))
  {
    hide Reachable, ValidConfig, DistrictsBelow, Level, AmountsTo, Settled;
    MoneyConserved(k, s, w, n);
    SameRecords(k, s);
    SumSplits((d: nat) => YtdNow(s, District(w, d)), (d: nat) => YtdAtFirst(k, District(w, d)),
              (d: nat) => Growth(k, s, District(w, d)), n);
  }
}
