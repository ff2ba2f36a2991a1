/**
 * No update is lost: every head is the populated row with all installed operations applied in order. From
 * this follow the stock and money laws, over every interleaving of NewOrders and Payments.
 */
module Ledger {
  import opened Words
  import opened Records
  import opened Protocol
  import opened Core
  import opened Arithmetic
  import opened Steps

  /** Each version is the previous one with its writer's operation applied. */
  ghost predicate Replays(k: Config, r: Rid, h: seq<Entry>) {
    && |h| >= 1 && r in k.initial && h[0].version == Version(INITIAL, k.initial[r])
    && forall i :: 0 < i < |h| ==>
         OpFor(r, h[i].op) && h[i].version.payload == ApplyOp(h[i].op, h[i - 1].version.payload)
  }

  ghost predicate LedgerInv(k: Config, s: State) {
    forall r :: r in s.hist ==> Replays(k, r, s.hist[r])
  }

  lemma InstallReplays(k: Config, s: State, c: nat, r: Rid)
    requires Acting(k, s, c, r) && CanInstall(k, s, c, r) && Replays(k, r, s.hist[r])
    ensures Replays(k, r, DoInstall(k, s, c, r).hist[r])
  {
    hide RecordInv, CopyOk, ValidConfig, HistOk, ApplyOp, OpFor;
    RecordHist(k, s, r);
    assert HoldOk(s, c, r);
    assert OpFor(r, s.clients[c].txn.writes[r]);
  }

  lemma NextLedger(k: Config, s: State, a: Action)
    requires Inv(k, s) && LedgerInv(k, s) && Enabled(k, s, a)
    ensures LedgerInv(k, Next(k, s, a))
  {
    if a.Install? { InstallLedger(k, s, a.c, a.r); } else { NoNewVersion(k, s, a); }
  }

  lemma InstallLedger(k: Config, s: State, c: nat, r: Rid)
    requires Inv(k, s) && LedgerInv(k, s) && CanInstall(k, s, c, r)
    ensures LedgerInv(k, DoInstall(k, s, c, r))
  {
    hide Inv, Acting, Replays;
    Sizes(k, s);
    ActingFacts(k, s, c, r);
    InstallReplays(k, s, c, r);
  }

  lemma InitLedger(k: Config)
    ensures LedgerInv(k, Init(k))
  {}

  // ---------------------------------------------------------------- stock

  function Quantity(op: Op): nat { if op.OrderStock? then op.qty else 0 }

  /** The quantity ordered by the transactions of a history. */
  function Ordered(h: seq<Entry>): nat {
    if |h| <= 1 then 0 else Ordered(h[..|h| - 1]) + Quantity(h[|h| - 1].op)
  }

  /** A stock row as populated. */
  predicate FreshStock(p: Payload) {
    p.StockRow? && 10 <= p.quantity <= 100 && p.orderYtd == 0 && p.orderCnt == 0 && p.remoteCnt == 0
  }

  lemma ReplaysPrefix(k: Config, r: Rid, h: seq<Entry>)
    requires Replays(k, r, h) && |h| > 1
    ensures Replays(k, r, h[..|h| - 1])
  {
    var g := h[..|h| - 1];
    forall i | 0 < i < |g|
      ensures OpFor(r, g[i].op) && g[i].version.payload == ApplyOp(g[i].op, g[i - 1].version.payload)
    {
      assert OpFor(r, h[i].op);
    }
  }

  predicate StockLawful(r: Rid, first: Payload, h: seq<Entry>)
    requires h != [] && r.Stock?
  {
    var p := Last(h).version.payload;
    && first.StockRow? && p.StockRow?
    && p.orderYtd == Ordered(h) % UINT32
    && p.orderCnt == (|h| - 1) % UINT16
    && p.remoteCnt == (if r.w == 0 then (|h| - 1) % UINT16 else 0)
    && 10 <= p.quantity <= 100
    && (first.quantity - Ordered(h) - p.quantity) % 91 == 0
  }

  /** One order line applied to a lawful stock row leaves it lawful. */
  lemma OrderStep(q0: nat, sum: nat, q: nat, qty: nat)
    requires 10 <= q <= 100 && 1 <= qty <= 10 && (q0 - sum - q) % 91 == 0
    ensures 10 <= Restocked(q, qty) <= 100 && (q0 - (sum + qty) - Restocked(q, qty)) % 91 == 0
  {}

  lemma CounterStep(n: nat, x: nat, d: nat, m: nat)
    requires m == UINT16 || m == UINT32
    requires x == n % m
    ensures (x + d) % m == (n + d) % m
  {
    RemainderShift(n, d, m);
  }

  /**
   * On every version of a stock: S_YTD and S_ORDER_CNT are exact up to their widths, S_REMOTE_CNT counts every order
   * on a stock of warehouse 0 and none on any other, and the quantity stays in 10..100.
   */
  lemma {:induction false} StockLaw(k: Config, r: Rid, h: seq<Entry>)
    requires Replays(k, r, h) && r.Stock? && FreshStock(k.initial[r])
    ensures StockLawful(r, k.initial[r], h)
    decreases |h|
  {
    if |h| > 1 {
      var g := h[..|h| - 1];
      ReplaysPrefix(k, r, h);
      StockLaw(k, r, g);
      var p, op := Last(g).version.payload, Last(h).op;
      assert Last(g) == h[|h| - 2];
      OrderStep(k.initial[r].quantity, Ordered(g), p.quantity, op.qty);
      CounterStep(Ordered(g), p.orderYtd, op.qty, UINT32);
      CounterStep(|g| - 1, p.orderCnt, 1, UINT16);
      if r.w == 0 { CounterStep(|g| - 1, p.remoteCnt, 1, UINT16); }
    }
  }

  // ---------------------------------------------------------------- remote orders

  /** The order came from another warehouse than the one that supplies it (clause 2.4.1.5 of TPC-C). */
  predicate IsRemote(r: Rid, op: Op)
    requires r.Stock?
  {
    op.OrderStock? && op.home != r.w
  }

  /** The code's flag, supply warehouse 0, says what it is meant to say. */
  predicate FlagRight(r: Rid, op: Op)
    requires r.Stock?
  {
    op.OrderStock? ==> (op.remote <==> IsRemote(r, op))
  }

  function RemoteLines(r: Rid, h: seq<Entry>): nat
    requires r.Stock?
  {
    if |h| <= 1 then 0 else RemoteLines(r, h[..|h| - 1]) + if IsRemote(r, h[|h| - 1].op) then 1 else 0
  }

  function WrongLines(r: Rid, h: seq<Entry>): nat
    requires r.Stock?
  {
    if |h| <= 1 then 0 else WrongLines(r, h[..|h| - 1]) + if FlagRight(r, h[|h| - 1].op) then 0 else 1
  }

  /**
   * A line is flagged rightly if and only if it is supplied by warehouse 0 exactly when it is supplied from
   * elsewhere.
   */
  lemma FlagRightExactly(home: nat, l: Line)
    ensures FlagRight(StockOf(l), OrderStock(l.qty, home, l.supply == 0)) <==> (l.supply == 0 <==> l.supply != home)
  {}

  /**
   * On a stock of warehouse 0 the orders are the remote and the wrongly flagged ones; on any other these are the
   * same.
   */
  lemma {:induction false} WrongAndRemote(k: Config, r: Rid, h: seq<Entry>)
    requires Replays(k, r, h) && r.Stock?
    ensures if r.w == 0 then RemoteLines(r, h) + WrongLines(r, h) == |h| - 1 else RemoteLines(r, h) == WrongLines(r, h)
    decreases |h|
  {
    if |h| > 1 {
      ReplaysPrefix(k, r, h);
      WrongAndRemote(k, r, h[..|h| - 1]);
      assert OpFor(r, h[|h| - 1].op);
    }
  }

  lemma {:induction false} NoneWrong(r: Rid, h: seq<Entry>)
    requires r.Stock?
    ensures WrongLines(r, h) <= if |h| == 0 then 0 else |h| - 1
    ensures WrongLines(r, h) == 0 <==> forall i :: 0 < i < |h| ==> FlagRight(r, h[i].op)
    decreases |h|
  {
    if |h| > 1 {
      var g := h[..|h| - 1];
      NoneWrong(r, g);
      assert forall i :: 0 <= i < |g| ==> g[i] == h[i];
    }
  }

  /**
   * S_REMOTE_CNT counts the remote orders, up to its width, if and only if the number of wrongly flagged ones is a
   * multiple of 2^16; before the column can wrap, if and only if every order was flagged rightly.
   */
  lemma RemoteCountExact(k: Config, r: Rid, h: seq<Entry>)
    requires Replays(k, r, h) && r.Stock? && FreshStock(k.initial[r])
    ensures Last(h).version.payload.StockRow?
    ensures Last(h).version.payload.remoteCnt == RemoteLines(r, h) % UINT16 <==> WrongLines(r, h) % UINT16 == 0
    ensures |h| <= UINT16 ==>
      (Last(h).version.payload.remoteCnt == RemoteLines(r, h) <==> forall i :: 0 < i < |h| ==> FlagRight(r, h[i].op))
  {
    StockLaw(k, r, h);
    WrongAndRemote(k, r, h);
    NoneWrong(r, h);
    hide Replays, RemoteLines, WrongLines, FlagRight, FreshStock, Ordered;
    CountedOrNot(r.w == 0, |h| - 1, RemoteLines(r, h), WrongLines(r, h), Last(h).version.payload.remoteCnt);
  }

  /** All of `n` orders counted, or none, when the remote and the wrong ones make up all of them, or are the same. */
  lemma CountedOrNot(all: bool, n: nat, remote: nat, wrong: nat, count: nat)
    requires count == (if all then n % UINT16 else 0) && if all then remote + wrong == n else remote == wrong
    ensures count == remote % UINT16 <==> wrong % UINT16 == 0
    ensures wrong <= n < UINT16 ==> (count == remote <==> wrong == 0)
  {
    SameModulo(remote, wrong);
  }

  lemma SameModulo(x: nat, d: nat)
    ensures (x + d) % UINT16 == x % UINT16 <==> d % UINT16 == 0
  {}

  // ---------------------------------------------------------------- money

  function Amount(op: Op): int {
    match op
    case PayWarehouse(a) => a
    case PayDistrict(a) => a
    case PayCustomer(a) => a
    case _ => 0
  }

  /** The money the transactions of a history have moved. */
  function Paid(h: seq<Entry>): int {
    if |h| <= 1 then 0 else Paid(h[..|h| - 1]) + Amount(h[|h| - 1].op)
  }

  /** Year-to-date balances are exact sums. */
  lemma {:induction false} YtdLaw(k: Config, r: Rid, h: seq<Entry>)
    requires Replays(k, r, h) && (r.Warehouse? || r.District?) && RowOf(r, k.initial[r])
    ensures RowOf(r, Last(h).version.payload) && Last(h).version.payload.ytd == k.initial[r].ytd + Paid(h)
    decreases |h|
  {
    if |h| > 1 {
      ReplaysPrefix(k, r, h);
      YtdLaw(k, r, h[..|h| - 1]);
      assert Last(h[..|h| - 1]) == h[|h| - 2];
    }
  }

  /** A customer's balance falls by what is paid, and each payment is counted. */
  lemma {:induction false} CustomerLaw(k: Config, r: Rid, h: seq<Entry>)
    requires Replays(k, r, h) && r.Customer? && RowOf(r, k.initial[r]) && k.initial[r].paymentCnt < UINT16
    ensures
      var p, p0 := Last(h).version.payload, k.initial[r];
      && p.CustomerRow? && p.balance == p0.balance - Paid(h) && p.ytdPayment == p0.ytdPayment + Paid(h)
      && p.paymentCnt == (p0.paymentCnt + |h| - 1) % UINT16
    decreases |h|
  {
    if |h| > 1 {
      ReplaysPrefix(k, r, h);
      CustomerLaw(k, r, h[..|h| - 1]);
      assert Last(h[..|h| - 1]) == h[|h| - 2];
    }
  }
}
