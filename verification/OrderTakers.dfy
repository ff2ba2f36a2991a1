/** Who took which order id: every committed new order takes exactly one id of its district, in either mode. */
module OrderTakers {
  import opened Records
  import opened Protocol
  import opened Core
  import opened Steps
  import opened Commits
  import opened Draws
  import opened Carts
  import opened Sums
  import opened Theorems
  import opened Accounts

  /** The client's transaction has its order id: from the atomic add, or by installing the district. */
  predicate HasTaken(cl: Client) {
    if cl.txn.counter.Some? then cl.orderId.Some?
    else District(cl.cart.w, cl.cart.d) in cl.stage && cl.stage[District(cl.cart.w, cl.cart.d)] == Installed
  }

  /** A new order on district `d` that is decided and has yet to take its id. */
  predicate Lacks(cl: Client, d: Rid) { cl.phase == Committing && NewOrderOn(cl.cart, d) && !HasTaken(cl) }

  /** How often a transaction is among those that took an id. */
  function Times(ids: seq<Taken>, c: nat, ts: nat): nat {
    if ids == [] then 0
    else
      var e := ids[|ids| - 1];
      Times(ids[..|ids| - 1], c, ts) + if e.client == c && e.cts == ts then 1 else 0
  }

  function LackingAt(s: State, d: Rid, c: nat): int { if c < |s.clients| && Lacks(s.clients[c], d) then 1 else 0 }

  function Lacking(s: State, d: Rid): int { Sum((c: nat) => LackingAt(s, d, c), |s.clients|) }

  /** The new orders on district `d`, counted. */
  function OrdersOn(d: Rid): Cart -> int { (cart: Cart) => if NewOrderOn(cart, d) then 1 else 0 }

  /** Commit `m` is under way and has yet to take its id of `d`. */
  predicate Waits(s: State, m: Commit, d: Rid) {
    m.client < |s.clients| && s.clients[m.client].cts == m.cts && Lacks(s.clients[m.client], d)
  }

  ghost predicate TookOnce(s: State, m: Commit, d: Rid)
    requires d in s.orderIds
  {
    NewOrderOn(m.cart, d) ==> Times(s.orderIds[d], m.client, m.cts) == if Waits(s, m, d) then 0 else 1
  }

  /** The transaction that took the id was decided, and is a new order on `d`. */
  ghost predicate TakerOk(s: State, e: Taken, d: Rid) {
    exists m :: m in s.log && m.client == e.client && m.cts == e.cts && NewOrderOn(m.cart, d)
  }

  ghost predicate TakerInv(s: State, d: Rid) {
    && d in s.orderIds
    && (forall m :: m in s.log ==> TookOnce(s, m, d))
    && (forall e :: e in s.orderIds[d] ==> TakerOk(s, e, d))
    && |s.orderIds[d]| + Lacking(s, d) == Called(s.log, OrdersOn(d))
    && (forall c :: 0 <= c < |s.clients| && s.clients[c].phase == Locking ==> s.clients[c].orderId.None?)
  }

  // ---------------------------------------------------------------- steps

  lemma LackingFrame(s: State, t: State, d: Rid, c: nat)
    requires c < |s.clients| == |t.clients|
    requires forall e :: 0 <= e < |s.clients| && e != c ==> t.clients[e] == s.clients[e]
    ensures Lacking(t, d) == Lacking(s, d) + LackingAt(t, d, c) - LackingAt(s, d, c)
  {
    hide Lacks;
    SumBump((e: nat) => LackingAt(s, d, e), (e: nat) => LackingAt(t, d, e), |s.clients|, c,
            LackingAt(t, d, c) - LackingAt(s, d, c));
  }

  lemma TakersLast(s: State, t: State, d: Rid)
    requires d in s.orderIds && d in t.orderIds && t.orderIds[d] == s.orderIds[d] && s.log <= t.log
    requires forall e :: e in s.orderIds[d] ==> TakerOk(s, e, d)
    ensures forall e :: e in t.orderIds[d] ==> TakerOk(t, e, d)
  {
    forall e | e in t.orderIds[d] ensures TakerOk(t, e, d) {
      var m :| m in s.log && m.client == e.client && m.cts == e.cts && NewOrderOn(m.cart, d);
      assert m in t.log;
    }
  }

  /** Whether, and for which transaction, the client lacks an id is the same. */
  predicate SameTaking(cl: Client, cm: Client) {
    && (cl.phase == Committing <==> cm.phase == Committing)
    && (cl.phase == Committing ==>
          cm.cts == cl.cts && cm.cart == cl.cart && (cl.cart.NewOrder? ==> (HasTaken(cm) <==> HasTaken(cl))))
    && (cm.phase == Locking ==> cm.orderId.None?)
  }

  lemma QuietTakers(s: State, t: State, d: Rid, c: nat)
    requires TakerInv(s, d) && t.orderIds == s.orderIds && t.log == s.log && c < |s.clients| == |t.clients|
    requires forall e :: 0 <= e < |s.clients| && e != c ==> t.clients[e] == s.clients[e]
    requires SameTaking(s.clients[c], t.clients[c])
    ensures TakerInv(t, d)
  {
    hide HasTaken, Lacking;
    LackingFrame(s, t, d, c);
    TakersLast(s, t, d);
    forall m | m in t.log ensures TookOnce(t, m, d) { assert TookOnce(s, m, d); }
  }

  /** Client `c` takes an id of its district. */
  ghost predicate Takes(s: State, t: State, c: nat, id: nat) {
    && c < |s.clients| == |t.clients| && t.log == s.log
    && var cl, cm := s.clients[c], t.clients[c];
    && (forall e :: 0 <= e < |s.clients| && e != c ==> t.clients[e] == s.clients[e])
    && cl.phase == Committing && cl.cart.NewOrder? && !HasTaken(cl)
    && cm.phase == Committing && cm.cart == cl.cart && cm.cts == cl.cts && HasTaken(cm)
    && var d := District(cl.cart.w, cl.cart.d);
    && d in s.orderIds && t.orderIds == s.orderIds[d := s.orderIds[d] + [Taken(id, c, cl.cts)]]
  }

  lemma TimesGrows(ids: seq<Taken>, e: Taken, c: nat, ts: nat)
    ensures Times(ids + [e], c, ts) == Times(ids, c, ts) + if e.client == c && e.cts == ts then 1 else 0
  {
    assert (ids + [e])[..|ids|] == ids;
  }

  lemma TakeKeeps(s: State, t: State, d: Rid, c: nat, id: nat)
    requires TakerInv(s, d) && Takes(s, t, c, id) && UnderWay(s, c)
    ensures TakerInv(t, d)
  {
    hide HasTaken, Lacking, Times;
    LackingFrame(s, t, d, c);
    var cl := s.clients[c];
    if d == District(cl.cart.w, cl.cart.d) {
      forall m | m in t.log ensures TookOnce(t, m, d) {
        assert TookOnce(s, m, d);
        TimesGrows(s.orderIds[d], Taken(id, c, cl.cts), m.client, m.cts);
      }
      NewTaker(s, t, d, c, id);
    } else {
      forall m | m in t.log ensures TookOnce(t, m, d) { assert TookOnce(s, m, d); }
      TakersLast(s, t, d);
    }
  }

  lemma NewTaker(s: State, t: State, d: Rid, c: nat, id: nat)
    requires Takes(s, t, c, id) && UnderWay(s, c) && NewOrderOn(s.clients[c].cart, d)
    requires forall e :: e in s.orderIds[d] ==> TakerOk(s, e, d)
    ensures forall e :: e in t.orderIds[d] ==> TakerOk(t, e, d)
  {
    hide HasTaken;
    var cl := s.clients[c];
    forall e | e in t.orderIds[d] ensures TakerOk(t, e, d) {
      if e in s.orderIds[d] {
        assert TakerOk(s, e, d);
      } else {
        assert Commit(c, cl.cts, cl.txn.writes.Keys, cl.cart) in t.log;
      }
    }
  }

  lemma FetchAddTakesId(k: Config, s: State, c: nat)
    requires CanFetchAdd(s, c) && Bound(k, s.clients[c])
    ensures Takes(s, DoFetchAdd(s, c), c, s.mem[s.clients[c].txn.counter.value].oid)
  {
    hide TxnOf, WellFormed, Touches, Changes, Named;
    TxnOfExact(k.commutative, s.clients[c].cart, s.clients[c].txn.counter.value);
  }

  /** Installing a district for a new order takes an id; any other install leaves the ids alone. */
  lemma InstallTakesId(k: Config, s: State, c: nat, r: Rid)
    requires CanInstall(k, s, c, r) && Bound(k, s.clients[c])
    ensures
      var t := DoInstall(k, s, c, r);
      if s.clients[c].txn.writes[r].TakeOrderId? then Takes(s, t, c, s.clients[c].copies[r].oid)
      else t.orderIds == s.orderIds && SameTaking(s.clients[c], t.clients[c])
  {
    hide TxnOf, WellFormed, Touches, Changes, Named, NewVersion;
    var cl := s.clients[c];
    TxnOfExact(k.commutative, cl.cart, r);
    if cl.txn.counter.Some? { TxnOfExact(k.commutative, cl.cart, cl.txn.counter.value); }
    else if cl.cart.NewOrder? { NoAdd(k, cl.cart); }
  }

  /** Without an atomic add a new order writes its district. */
  lemma NoAdd(k: Config, cart: Cart)
    requires CartOk(cart) && TxnOf(k.commutative, cart).counter.None? && cart.NewOrder?
    ensures !k.commutative && District(cart.w, cart.d) in TxnOf(k.commutative, cart).writes
  {
    hide TxnOf, WellFormed, Touches, Named;
    TxnOfExact(k.commutative, cart, District(cart.w, cart.d));
  }

  lemma {:induction false} NeverTook(ids: seq<Taken>, c: nat, ts: nat)
    requires forall e :: e in ids ==> e.client != c || e.cts != ts
    ensures Times(ids, c, ts) == 0
  {
    if ids != [] {
      assert ids[|ids| - 1] in ids;
      NeverTook(ids[..|ids| - 1], c, ts);
    }
  }

  /** A new order just decided has taken no id yet. */
  lemma DecideTakers(k: Config, s: State, d: Rid, c: nat)
    requires TakerInv(s, d) && CanDecide(s, c)
    requires forall i :: 0 <= i < |s.log| && s.log[i].client == c ==> s.log[i].cts < s.clients[c].cts
    ensures TakerInv(DoDecide(s, c), d)
  {
    hide DoDecide, Lacking, Times;
    var cl, t := s.clients[c], DoDecide(s, c);
    DecideEffect(s, c);
    DecideIds(s, c);
    LackingFrame(s, t, d, c);
    TakersLast(s, t, d);
    forall e | e in s.orderIds[d] ensures e.client != c || e.cts != cl.cts {
      var m :| m in s.log && m.client == e.client && m.cts == e.cts && NewOrderOn(m.cart, d);
      var i :| 0 <= i < |s.log| && s.log[i] == m;
    }
    NeverTook(s.orderIds[d], c, cl.cts);
    forall m | m in t.log ensures TookOnce(t, m, d) {
      if m in s.log {
        assert TookOnce(s, m, d);
        var i :| 0 <= i < |s.log| && s.log[i] == m;
      }
    }
    if t.log != s.log { assert t.log[..|t.log| - 1] == s.log && t.log[|s.log|].cart == cl.cart; }
  }

  lemma DecideIds(s: State, c: nat)
    requires CanDecide(s, c)
    ensures DoDecide(s, c).orderIds == s.orderIds && DoDecide(s, c).clients[c].phase != Locking
  {}

  /** A new order that may be published has its id. */
  lemma PublishTaken(k: Config, s: State, c: nat)
    requires CanPublish(s, c) && Bound(k, s.clients[c]) && s.clients[c].stage.Keys == s.clients[c].txn.writes.Keys
    ensures s.clients[c].cart.NewOrder? ==> HasTaken(s.clients[c])
  {
    hide TxnOf;
    var cl := s.clients[c];
    if cl.cart.NewOrder? && cl.txn.counter.None? { NoAdd(k, cl.cart); }
  }

  lemma PublishTakers(k: Config, s: State, d: Rid, c: nat)
    requires TakerInv(s, d) && CanPublish(s, c) && (s.clients[c].cart.NewOrder? ==> HasTaken(s.clients[c]))
    ensures TakerInv(DoPublish(s, c), d)
  {
    hide HasTaken, Lacking, Times;
    var t := DoPublish(s, c);
    LackingFrame(s, t, d, c);
    TakersLast(s, t, d);
    forall m | m in t.log ensures TookOnce(t, m, d) { assert TookOnce(s, m, d); }
  }

  lemma SameTakingNext(k: Config, s: State, a: Action)
    requires Enabled(k, s, a) && !a.Refresh? && !a.FetchAdd? && !a.Install? && !a.Decide? && !a.Publish?
    requires a.c < |s.clients| && (s.clients[a.c].phase == Locking ==> s.clients[a.c].orderId.None?)
    ensures a.c < |Next(k, s, a).clients| && SameTaking(s.clients[a.c], Next(k, s, a).clients[a.c])
    ensures Next(k, s, a).orderIds == s.orderIds
  {
    hide Next;
    if WritesMemory(a) { StepsByWriting(k, s, a); } else { NotCommitting(k, s, a); }
  }

  lemma NotCommitting(k: Config, s: State, a: Action)
    requires Enabled(k, s, a) && !WritesMemory(a) && !a.Refresh? && !a.Decide?
    requires a.c < |s.clients| && (s.clients[a.c].phase == Locking ==> s.clients[a.c].orderId.None?)
    ensures a.c < |Next(k, s, a).clients| && SameTaking(s.clients[a.c], Next(k, s, a).clients[a.c])
    ensures Next(k, s, a).orderIds == s.orderIds
  {
    hide HasTaken, Enabled, Next;
    StepsLocally(k, s, a);
  }

  lemma OtherTakers(k: Config, s: State, a: Action, d: Rid)
    requires TakerInv(s, d) && Enabled(k, s, a) && !a.FetchAdd? && !a.Install? && !a.Decide? && !a.Publish?
    ensures TakerInv(Next(k, s, a), d)
  {
    hide SameTaking, Enabled, Next;
    LogKept(k, s, a);
    if a.Refresh? { RefreshTakers(k, s, a, d); }
    else {
      OthersStay(k, s, a);
      SameTakingNext(k, s, a);
      QuietTakers(s, Next(k, s, a), d, a.c);
    }
  }

  lemma RefreshTakers(k: Config, s: State, a: Action, d: Rid)
    requires TakerInv(s, d) && Enabled(k, s, a) && a.Refresh?
    ensures TakerInv(Next(k, s, a), d)
  {
    var t := Next(k, s, a);
    SumSame((c: nat) => LackingAt(s, d, c), (c: nat) => LackingAt(t, d, c), |s.clients|);
    TakersLast(s, t, d);
    forall m | m in t.log ensures TookOnce(t, m, d) { assert TookOnce(s, m, d); }
  }

  lemma TakingTakers(k: Config, s: State, a: Action, d: Rid)
    requires TakerInv(s, d) && Enabled(k, s, a) && (a.FetchAdd? || a.Install?)
    requires a.c < |s.clients| && Bound(k, s.clients[a.c]) && UnderWay(s, a.c)
    ensures TakerInv(Next(k, s, a), d)
  {
    hide TakerInv, SameTaking, Takes, Bound, UnderWay;
    LogKept(k, s, a);
    OthersStay(k, s, a);
    var t := Next(k, s, a);
    if a.FetchAdd? {
      FetchAddTakesId(k, s, a.c);
      TakeKeeps(s, t, d, a.c, s.mem[s.clients[a.c].txn.counter.value].oid);
    } else {
      InstallTakesId(k, s, a.c, a.r);
      if s.clients[a.c].txn.writes[a.r].TakeOrderId? { TakeKeeps(s, t, d, a.c, s.clients[a.c].copies[a.r].oid); }
      else { QuietTakers(s, t, d, a.c); }
    }
  }

  lemma NextTakers(k: Config, s: State, a: Action, d: Rid)
    requires Inv(k, s) && LogInv(k, s) && CartInv(k, s) && TakerInv(s, d) && Enabled(k, s, a)
    ensures TakerInv(Next(k, s, a), d)
  {
    hide Inv, LogInv, CartInv, TakerInv;
    if a.Decide? {
      DecideFacts(k, s, a.c);
      DecideTakers(k, s, d, a.c);
    } else if a.FetchAdd? || a.Install? || a.Publish? {
      CommittingFacts(k, s, a.c);
      if a.Publish? { PublishTaken(k, s, a.c); PublishTakers(k, s, d, a.c); } else { TakingTakers(k, s, a, d); }
    } else {
      OtherTakers(k, s, a, d);
    }
  }

  lemma CommittingFacts(k: Config, s: State, c: nat)
    requires Inv(k, s) && LogInv(k, s) && CartInv(k, s) && At(s, c, Committing)
    ensures Bound(k, s.clients[c]) && UnderWay(s, c) && s.clients[c].stage.Keys == s.clients[c].txn.writes.Keys
  {
    ClientFacts(k, s, c);
  }

  lemma InitTakers(k: Config, d: Rid)
    requires d in k.initial
    ensures TakerInv(Init(k), d)
  {
    var s := Init(k);
    SumZero((c: nat) => LackingAt(s, d, c), |s.clients|);
  }

  lemma {:induction false} RunTakers(k: Config, acts: seq<Action>, t: State, d: Rid)
    requires ValidConfig(k) && IsRun(k, Init(k), acts, t) && d in k.initial
    ensures TakerInv(t, d)
    decreases |acts|
  {
    hide Enabled, Next, TakerInv, ValidConfig;
    if acts == [] {
      InitTakers(k, d);
    } else {
      var last := acts[|acts| - 1];
      var m :| IsRun(k, Init(k), acts[..|acts| - 1], m) && Enabled(k, m, last) && t == Next(k, m, last);
      RunTakers(k, acts[..|acts| - 1], m, d);
      RunGood(k, acts[..|acts| - 1], m);
      NextTakers(k, m, last, d);
    }
  }

  // ---------------------------------------------------------------- over whole runs

  /** The i-th id of district `d` was taken by client `c`'s transaction at `ts`. */
  predicate TookAt(s: State, d: Rid, i: nat, c: nat, ts: nat) {
    d in s.orderIds && i < |s.orderIds[d]| && s.orderIds[d][i].client == c && s.orderIds[d][i].cts == ts
  }

  /** Exactly one id of district `d` was. */
  ghost predicate TookOneId(s: State, d: Rid, c: nat, ts: nat) {
    exists i: nat :: TookAt(s, d, i, c, ts) && forall j: nat :: TookAt(s, d, j, c, ts) ==> j == i
  }

  lemma {:induction false} OnceMeansOne(ids: seq<Taken>, c: nat, ts: nat) returns (i: nat)
    requires Times(ids, c, ts) == 1
    ensures i < |ids| && ids[i].client == c && ids[i].cts == ts
    ensures forall j :: 0 <= j < |ids| && ids[j].client == c && ids[j].cts == ts ==> j == i
  {
    var front, e := ids[..|ids| - 1], ids[|ids| - 1];
    if e.client == c && e.cts == ts {
      i := |ids| - 1;
      NoneMeansZero(front, c, ts);
    } else {
      i := OnceMeansOne(front, c, ts);
    }
    assert forall j :: 0 <= j < |front| ==> front[j] == ids[j];
  }

  lemma {:induction false} NoneMeansZero(ids: seq<Taken>, c: nat, ts: nat)
    requires Times(ids, c, ts) == 0
    ensures forall j :: 0 <= j < |ids| ==> ids[j].client != c || ids[j].cts != ts
  {
    if ids != [] {
      NoneMeansZero(ids[..|ids| - 1], c, ts);
      assert forall j :: 0 <= j < |ids| - 1 ==> ids[..|ids| - 1][j] == ids[j];
    }
  }

  /** Every committed new order that is published took exactly one id of its district. */
  lemma OrderTookOneId(k: Config, s: State, m: Commit)
    requires ValidConfig(k) && Reachable(k, s) && m in s.log && m.cart.NewOrder?
    requires m.client < |s.vector| && m.cts <= s.vector[m.client]
    ensures TookOneId(s, District(m.cart.w, m.cart.d), m.client, m.cts)
  {
    hide IsRun, ValidConfig, HasTaken, Lacking;
    var d := District(m.cart.w, m.cart.d);
    var acts :| IsRun(k, Init(k), acts, s);
    CommitInDatabase(k, s, m);
    RunTakers(k, acts, s, d);
    PublishedIsDone(k, s, m);
    assert TookOnce(s, m, d);
    var i := OnceMeansOne(s.orderIds[d], m.client, m.cts);
    assert TookAt(s, d, i, m.client, m.cts);
  }

  lemma CommitInDatabase(k: Config, s: State, m: Commit)
    requires ValidConfig(k) && Reachable(k, s) && m in s.log
    ensures District(m.cart.w, m.cart.d) in k.initial
  {
    hide Reachable;
    AlwaysGood(k, s);
    assert CommitBound(k, m);
    TxnOfExact(k.commutative, m.cart, District(m.cart.w, m.cart.d));
  }

  lemma PublishedIsDone(k: Config, s: State, m: Commit)
    requires ValidConfig(k) && Reachable(k, s) && m in s.log && m.client < |s.vector| && m.cts <= s.vector[m.client]
    ensures m.client < |s.clients| && (s.clients[m.client].phase == Committing ==> s.clients[m.client].cts != m.cts)
  {
    hide Reachable;
    AlwaysGood(k, s);
    Sizes(k, s);
    ClientFacts(k, s, m.client);
  }

  /** Every id was taken by a committed new order on its district. */
  lemma IdsAreOrders(k: Config, s: State, d: Rid, i: nat) returns (m: Commit)
    requires ValidConfig(k) && Reachable(k, s) && d in k.initial && d in s.orderIds && i < |s.orderIds[d]|
    ensures m in s.log && m.cart.NewOrder? && District(m.cart.w, m.cart.d) == d && TookAt(s, d, i, m.client, m.cts)
  {
    hide IsRun, ValidConfig;
    var acts :| IsRun(k, Init(k), acts, s);
    RunTakers(k, acts, s, d);
    var e := s.orderIds[d][i];
    assert e in s.orderIds[d] && TakerOk(s, e, d);
    m :| m in s.log && m.client == e.client && m.cts == e.cts && NewOrderOn(m.cart, d);
  }

  ghost predicate NobodyCommits(s: State) { forall c :: 0 <= c < |s.clients| ==> s.clients[c].phase != Committing }

  /** With nobody committing, a district has given out as many ids as there are committed new orders on it. */
  lemma AsManyIdsAsOrders(k: Config, s: State, d: Rid)
    requires ValidConfig(k) && Reachable(k, s) && d in k.initial && NobodyCommits(s)
    ensures d in s.orderIds && |s.orderIds[d]| == Called(s.log, OrdersOn(d))
  {
    hide IsRun, ValidConfig, HasTaken;
    var acts :| IsRun(k, Init(k), acts, s);
    RunTakers(k, acts, s, d);
    SumZero((c: nat) => LackingAt(s, d, c), |s.clients|);
  }
}
