/** Properties the protocol does not have, each shown by a run it allows. */
module Anomalies {
  import opened Words
  import opened Records
  import opened Protocol
  import opened OrderIds
  import opened Ledger
  import opened Conservation
  import opened Progress

  // ---------------------------------------------------------------- order ids given twice

  /** A payment has read its district; a new order with atomic adds runs beside it. */
  ghost predicate Racing(k: Config, s: State, c: nat, e: nat, pay: Cart, order: Cart) {
    && k.commutative && c != e && pay.Payment? && order.NewOrder? && pay.w == order.w && pay.d == order.d
    && Uncontended(k, s, c, pay) && Uncontended(k, s, e, order)
    && (s.clients[c].epoch + 1) * k.clients <= TS_RANGE && (s.clients[e].epoch + 1) * k.clients <= TS_RANGE
  }

  /** From `s` to `t` a new order has taken the next id of district `d`; records other than stocks are as they were. */
  ghost predicate IdTaken(s: State, t: State, d: Rid) {
    && |t.clients| == |s.clients| && t.vector == s.vector && t.hist == s.hist
    && t.mem.Keys == s.mem.Keys && t.orderIds.Keys == s.orderIds.Keys && d in s.mem && d in s.orderIds
    && t.mem[d].oid == s.mem[d].oid + 1 && |t.orderIds[d]| == |s.orderIds[d]| + 1
    && t.orderIds[d][..|s.orderIds[d]|] == s.orderIds[d] && t.orderIds[d][|s.orderIds[d]|].id == s.mem[d].oid
    && forall r :: r in s.mem && !r.Stock? ==> t.mem[r] == s.mem[r].(oid := t.mem[r].oid)
  }

  lemma ReadsChangeNothing(k: Config, s: State, c: nat, cart: Cart)
    requires CanBegin(k, s, c, cart) && Known(s, TxnOf(k.commutative, cart).readSet)
    ensures
      var m := AfterReads(k, s, c, cart);
      c < |s.clients| == |m.clients| && m == SetClient(s, c, m.clients[c])
  {
    hide TxnOf;
  }

  /** The payment reads, then the new order gets its locks and its id. */
  lemma OrderOvertakes(k: Config, s: State, c: nat, e: nat, pay: Cart, order: Cart) returns (m: State, t: State)
    requires WellStored(k, s) && Racing(k, s, c, e, pay, order)
    ensures Known(s, TxnOf(k.commutative, pay).readSet) && m == AfterReads(k, s, c, pay)
    ensures From(k, s, t) && IdTaken(s, t, District(pay.w, pay.d)) && c < |t.clients| && t.clients[c] == m.clients[c]
  {
    hide From, DecidedAlone, AfterReads, TxnOf, Known;
    hide IdTaken, CanCheckVersions, AllAccessible, Uncontended, WellStored;
    FromSelf(k, s);
    m := ReadAlone(k, s, s, c, pay);
    UncontendedFacts(k, s, c, pay);
    ReadsChangeNothing(k, s, c, pay);
    StillUncontended(k, s, m, c, e, order);
    var m2, n := DecideAlone(k, s, m, e, order);
    UncontendedFacts(k, m, e, order);
    OrderWritesStock(order);
    StoredKeys(k, m);
    t := TakeId(k, s, m, m2, n, e, order);
    IdTakenFrom(s, m, t, c, District(pay.w, pay.d));
  }

  lemma UncontendedFacts(k: Config, s: State, c: nat, cart: Cart)
    requires Uncontended(k, s, c, cart)
    ensures CanBegin(k, s, c, cart) && CartOk(cart) && c < |s.clients|
  {}

  lemma StoredKeys(k: Config, s: State)
    requires WellStored(k, s)
    ensures s.mem.Keys == s.orderIds.Keys == s.hist.Keys && 1 <= k.versions
  {}

  lemma IdTakenFrom(s: State, m: State, t: State, c: nat, d: Rid)
    requires IdTaken(m, t, d) && c < |s.clients| == |m.clients| && m == SetClient(s, c, m.clients[c])
    ensures IdTaken(s, t, d)
  {}

  lemma StillUncontended(k: Config, s: State, m: State, c: nat, e: nat, order: Cart)
    requires WellStored(k, s) && Uncontended(k, s, e, order) && c != e && c < |s.clients|
    requires |m.clients| == |s.clients| && m == SetClient(s, c, m.clients[c])
    ensures WellStored(k, m) && Uncontended(k, m, e, order) && m.clients[e] == s.clients[e]
  {
    forall r | r in m.mem ensures StoredWell(k, m, r) { assert StoredWell(k, s, r); }
  }

  lemma OrderWritesStock(order: Cart)
    requires order.NewOrder? && CartOk(order)
    ensures forall r :: r in TxnOf(true, order).writes ==> r.Stock?
  {
    StockWritesOk(order.w, order.lines);
  }

  lemma TakeId(k: Config, s0: State, m: State, m2: State, n: State, e: nat, order: Cart) returns (t: State)
    requires k.commutative && order.NewOrder? && CanBegin(k, m, e, order)
    requires Known(m, TxnOf(k.commutative, order).readSet)
    requires m2 == AfterReads(k, m, e, order) && From(k, s0, n) && m.mem.Keys == m.orderIds.Keys && e < |m2.clients|
    requires m2.clients[e].txn.writes.Keys <= m2.clients[e].copies.Keys && DecidedAlone(k, m2, n, e)
    requires forall r :: r in TxnOf(k.commutative, order).writes ==> r.Stock?
    ensures From(k, s0, t) && IdTaken(m, t, District(order.w, order.d))
    ensures forall i :: 0 <= i < |m.clients| && i != e ==> t.clients[i] == m.clients[i]
  {
    hide From, TxnOf, DecidedAlone, AfterReads, Known, CanBegin, CanFetchAdd, IdTaken, DoFetchAdd;
    DecidedFacts(k, m, m2, n, e, order);
    OrderCounter(order);
    AddTakes(k, m, n, e, order);
    FromStep(k, s0, n, FetchAdd(e));
    t := DoFetchAdd(n, e);
  }

  lemma OrderCounter(order: Cart)
    requires order.NewOrder?
    ensures
      var txn, d := TxnOf(true, order), District(order.w, order.d);
      txn.counter == Some(d) && d in txn.readSet
  {}

  lemma AddTakes(k: Config, m: State, n: State, e: nat, order: Cart)
    requires order.NewOrder? && Known(m, TxnOf(true, order).readSet) && m.mem.Keys == m.orderIds.Keys
    requires District(order.w, order.d) in TxnOf(true, order).readSet
    requires |n.clients| == |m.clients| && n.vector == m.vector && n.hist == m.hist && n.orderIds == m.orderIds
    requires At(n, e, Committing) && n.clients[e].orderId.None?
    requires n.clients[e].txn.counter == Some(District(order.w, order.d))
    requires forall i :: 0 <= i < |m.clients| && i != e ==> n.clients[i] == m.clients[i]
    requires n.mem.Keys == m.mem.Keys && forall r :: r in m.mem && !r.Stock? ==> n.mem[r] == m.mem[r]
    ensures CanFetchAdd(n, e) && IdTaken(m, DoFetchAdd(n, e), District(order.w, order.d))
    ensures |DoFetchAdd(n, e).clients| == |m.clients|
    ensures forall i :: 0 <= i < |m.clients| && i != e ==> DoFetchAdd(n, e).clients[i] == m.clients[i]
  {
    hide TxnOf, IdTaken;
    FetchAddTakes(m, n, e, District(order.w, order.d));
  }

  lemma FetchAddTakes(m: State, n: State, e: nat, d: Rid)
    requires CanFetchAdd(n, e) && n.clients[e].txn.counter == Some(d)
    requires |n.clients| == |m.clients| && n.vector == m.vector && n.hist == m.hist && n.orderIds == m.orderIds
    requires n.mem.Keys == m.mem.Keys && forall r :: r in m.mem && !r.Stock? ==> n.mem[r] == m.mem[r]
    requires d.District?
    ensures IdTaken(m, DoFetchAdd(n, e), d)
  {}

  /** A decided new order has only locked stocks so far. */
  lemma DecidedFacts(k: Config, m: State, m2: State, n: State, e: nat, order: Cart)
    requires CanBegin(k, m, e, order) && Known(m, TxnOf(k.commutative, order).readSet)
    requires m2 == AfterReads(k, m, e, order)
    requires e < |m2.clients| && m2.clients[e].txn.writes.Keys <= m2.clients[e].copies.Keys && DecidedAlone(k, m2, n, e)
    requires forall r :: r in TxnOf(k.commutative, order).writes ==> r.Stock?
    ensures |n.clients| == |m.clients| && n.vector == m.vector && n.hist == m.hist && n.orderIds == m.orderIds
    ensures At(n, e, Committing) && n.clients[e].txn == TxnOf(k.commutative, order) && n.clients[e].orderId.None?
    ensures forall i :: 0 <= i < |m.clients| && i != e ==> n.clients[i] == m.clients[i]
    ensures n.mem.Keys == m.mem.Keys && forall r :: r in m.mem && !r.Stock? ==> n.mem[r] == m.mem[r]
  {
    hide TxnOf, LockWord, HeadCopies, HeadLists;
  }

  /** Then the payment locks, and appends its old district version. */
  lemma PaymentFollows(k: Config, s: State, m: State, n: State, c: nat, pay: Cart) returns (t: State)
    requires WellStored(k, s) && Uncontended(k, s, c, pay) && pay.Payment?
    requires (s.clients[c].epoch + 1) * k.clients <= TS_RANGE
    requires Known(s, TxnOf(k.commutative, pay).readSet) && m == AfterReads(k, s, c, pay)
    requires From(k, s, n) && IdTaken(s, n, District(pay.w, pay.d)) && c < |n.clients| && n.clients[c] == m.clients[c]
    ensures
      var d := District(pay.w, pay.d);
      && From(k, s, t) && CanInstall(k, t, c, d) && d in n.mem && d in t.mem && t.mem[d].oid == n.mem[d].oid
      && t.clients[c].copies[d].oid == s.mem[d].oid && t.clients[c].txn.writes[d].PayDistrict?
      && t.orderIds == n.orderIds
  {
    hide From, DecidedAlone, TxnOf, Uncontended, WellStored;
    hide Known, AfterReads, IdTaken, AllAccessible, CanCheckVersions;
    hide CanInstall;
    var d := District(pay.w, pay.d);
    PaymentCanLock(k, s, n, c, pay);
    var p := LockPhase(k, s, n, c);
    t := AppendDistrict(k, s, n, p, c, d);
  }

  lemma PaymentCanLock(k: Config, s: State, n: State, c: nat, pay: Cart)
    requires WellStored(k, s) && Uncontended(k, s, c, pay) && pay.Payment?
    requires Known(s, TxnOf(k.commutative, pay).readSet)
    requires c < |n.clients| && n.clients[c] == AfterReads(k, s, c, pay).clients[c]
    requires IdTaken(s, n, District(pay.w, pay.d))
    ensures CanCheckVersions(n, c) && AllAccessible(n.clients[c], c) && c < |n.clients[c].snap|
    ensures n.clients[c].epoch == s.clients[c].epoch
    ensures n.clients[c].txn.writes.Keys <= n.mem.Keys && n.clients[c].txn.writes.Keys <= n.clients[c].copies.Keys
    ensures forall r :: r in n.clients[c].txn.writes ==> n.mem[r].head.word == n.clients[c].copies[r].version.word
    ensures
      var d := District(pay.w, pay.d);
      && d in n.clients[c].txn.writes && n.clients[c].txn.writes[d].PayDistrict? && d in n.clients[c].lists
      && n.clients[c].txn.counter.None? && 1 <= k.versions && d in n.mem && d in n.hist && d in n.orderIds
      && n.clients[c].copies[d].oid == s.mem[d].oid && n.clients[c].copies[d].version.word.offset < |n.mem[d].ring|
  {
    hide WellStored, Uncontended, Known, TxnOf, AfterReads, CanCheckVersions, AllAccessible, IdTaken, WellFormed;
    var m := PaymentRead(k, s, c, pay);
    PaymentWrites(k.commutative, pay);
    StillCurrent(s, n, c, m, District(pay.w, pay.d));
    DistrictRoom(k, s, n, c, pay);
  }

  lemma PaymentRead(k: Config, s: State, c: nat, pay: Cart) returns (m: State)
    requires WellStored(k, s) && Uncontended(k, s, c, pay) && Known(s, TxnOf(k.commutative, pay).readSet)
    ensures
      && m == AfterReads(k, s, c, pay) && c < |m.clients| && CanCheckVersions(m, c)
      && AllAccessible(m.clients[c], c) && c < |m.clients[c].snap|
      && m.clients[c].epoch == s.clients[c].epoch && m.clients[c].txn == TxnOf(k.commutative, pay)
      && m.clients[c].txn.writes.Keys <= m.mem.Keys && m.clients[c].txn.writes.Keys <= m.clients[c].copies.Keys
      && m.mem == s.mem
      && forall r :: r in m.clients[c].txn.writes ==> m.mem[r].head.word == m.clients[c].copies[r].version.word
  {
    hide TxnOf, WellFormed, AllAccessible, CanCheckVersions, HeadCopies, HeadLists;
    TxnOfWellFormed(k.commutative, pay);
    ReadFacts(k, s, c, pay);
    m := AfterReads(k, s, c, pay);
  }

  lemma PaymentWrites(commutative: bool, pay: Cart)
    requires pay.Payment?
    ensures
      var txn, d := TxnOf(commutative, pay), District(pay.w, pay.d);
      && d in txn.writes && txn.writes[d].PayDistrict? && txn.counter.None? && d in txn.readSet && d in txn.listSet
      && forall r :: r in txn.writes ==> !r.Stock?
  {}

  /** An order id taken meanwhile leaves the copies of records that are no stock current. */
  lemma StillCurrent(s: State, n: State, c: nat, m: State, d: Rid)
    requires IdTaken(s, n, d) && c < |n.clients| && c < |m.clients| && n.clients[c] == m.clients[c] && m.mem == s.mem
    requires CanCheckVersions(m, c) && m.clients[c].txn.writes.Keys <= m.mem.Keys
    requires m.clients[c].txn.writes.Keys <= m.clients[c].copies.Keys
    requires forall r :: r in m.clients[c].txn.writes ==> !r.Stock?
    requires forall r :: r in m.clients[c].txn.writes ==> m.mem[r].head.word == m.clients[c].copies[r].version.word
    ensures CanCheckVersions(n, c) && n.clients[c].txn.writes.Keys <= n.mem.Keys
    ensures forall r :: r in n.clients[c].txn.writes ==> n.mem[r].head.word == n.clients[c].copies[r].version.word
  {}

  lemma DistrictRoom(k: Config, s: State, n: State, c: nat, pay: Cart)
    requires WellStored(k, s) && Uncontended(k, s, c, pay) && Known(s, TxnOf(k.commutative, pay).readSet)
    requires c < |n.clients| && n.clients[c] == AfterReads(k, s, c, pay).clients[c]
    requires IdTaken(s, n, District(pay.w, pay.d))
    requires District(pay.w, pay.d) in TxnOf(k.commutative, pay).readSet
    requires District(pay.w, pay.d) in TxnOf(k.commutative, pay).listSet
    ensures
      var d := District(pay.w, pay.d);
      && d in n.clients[c].lists && d in n.clients[c].copies && 1 <= k.versions && d in n.mem && d in n.hist
      && d in n.orderIds
      && n.clients[c].copies[d].oid == s.mem[d].oid && n.clients[c].copies[d].version.word.offset < |n.mem[d].ring|
  {
    hide TxnOf, WellStored;
    RingsHaveRoom(k, s, c, pay);
  }

  lemma AppendDistrict(k: Config, s0: State, n: State, p: State, c: nat, d: Rid) returns (t: State)
    requires From(k, s0, p) && c < |n.clients| && n.clients[c].txn.writes.Keys <= n.clients[c].copies.Keys
    requires DecidedAlone(k, n, p, c)
    requires d in n.clients[c].txn.writes && d in n.clients[c].lists && n.clients[c].txn.counter.None?
    requires 1 <= k.versions
    requires d in n.mem && d in n.hist && d in n.orderIds
    requires n.clients[c].copies[d].version.word.offset < |n.mem[d].ring|
    ensures From(k, s0, t) && CanInstall(k, t, c, d) && d in t.mem && t.mem[d].oid == n.mem[d].oid
    ensures t.orderIds == n.orderIds
    ensures t.clients[c].copies == n.clients[c].copies && t.clients[c].txn == n.clients[c].txn
  {
    hide From, Writable, DecidedAlone, DoAppendList, DoAppendRing, CanAppendList, CanAppendRing, CanInstall;
    DistrictHeld(k, n, p, c, d);
    WritesPossible(k, p, c, d);
    AppendEffects(p, c, d);
    FromStep(k, s0, p, AppendList(c, d));
    var q := DoAppendList(p, c, d);
    FromStep(k, s0, q, AppendRing(c, d));
    t := DoAppendRing(q, c, d);
  }

  lemma DistrictHeld(k: Config, n: State, p: State, c: nat, d: Rid)
    requires c < |n.clients| && n.clients[c].txn.writes.Keys <= n.clients[c].copies.Keys && DecidedAlone(k, n, p, c)
    requires d in n.clients[c].txn.writes && d in n.clients[c].lists && n.clients[c].txn.counter.None?
    requires 1 <= k.versions
    requires d in n.mem && d in n.hist && d in n.orderIds
    requires n.clients[c].copies[d].version.word.offset < |n.mem[d].ring|
    ensures Writable(k, p, c, {d}) && p.mem[d].oid == n.mem[d].oid && p.orderIds == n.orderIds
    ensures p.clients[c].copies == n.clients[c].copies && p.clients[c].txn == n.clients[c].txn
  {
    hide LockWord;
  }

  lemma AppendEffects(p: State, c: nat, d: Rid)
    requires CanAppendList(p, c, d) && CanAppendRing(DoAppendList(p, c, d), c, d)
    ensures
      var t := DoAppendRing(DoAppendList(p, c, d), c, d);
      && d in t.mem && t.mem[d].oid == p.mem[d].oid && t.orderIds == p.orderIds && c < |t.clients|
      && t.clients[c].copies == p.clients[c].copies && t.clients[c].txn == p.clients[c].txn
  {}

  /**
   * With order ids taken by atomic adds, a payment on the district can bring an id back that was already given out.
   * From every state in which a payment and a new order on one district could both run undisturbed, they can be
   * interleaved so.
   */
  lemma PaymentReusesIds(k: Config, s: State, c: nat, e: nat, pay: Cart, order: Cart) returns (t: State)
    requires ValidConfig(k) && Reachable(k, s) && Racing(k, s, c, e, pay, order) && Gapless(s, District(pay.w, pay.d))
    ensures From(k, s, t) && !Gapless(t, District(pay.w, pay.d))
    ensures
      var d := District(pay.w, pay.d);
      d in t.mem && GivenOut(t, d, t.mem[d].oid)
  {
    hide From, Reachable, ValidConfig, WellStored, Known, AfterReads, TxnOf, Uncontended, CanInstall;
    var d := District(pay.w, pay.d);
    AlwaysStored(k, s);
    var m, n := OrderOvertakes(k, s, c, e, pay, order);
    var u := PaymentFollows(k, s, m, n, c, pay);
    t := StaleStep(k, s, u, c, d, s.mem[d].oid);
  }

  lemma StaleStep(k: Config, s0: State, s: State, c: nat, d: Rid, id: nat) returns (t: State)
    requires From(k, s0, s) && CanInstall(k, s, c, d) && s.clients[c].copies[d].oid == id && s.mem[d].oid == id + 1
    requires s.clients[c].txn.writes[d].PayDistrict? && |s.orderIds[d]| == id + 1 && s.orderIds[d][id].id == id
    ensures From(k, s0, t) && !Gapless(t, d) && d in t.mem && GivenOut(t, d, t.mem[d].oid)
  {
    hide From;
    FromStep(k, s0, s, Install(c, d));
    t := DoInstall(k, s, c, d);
    assert t.mem[d].oid == id && t.orderIds[d][id].id == id;
  }

  function SomeRow(r: Rid): Payload {
    match r
    case Warehouse(_) => WarehouseRow(0)
    case District(_, _) => DistrictRow(0)
    case Customer(_, _, _) => CustomerRow(0, 0, 0)
    case Stock(_, _) => StockRow(10, 0, 0, 0)
    case Item(_) => ItemRow(0)
  }

  /** A cluster of two clients whose database holds just the records of two carts. */
  function SmallCluster(a: Cart, b: Cart): Config {
    Config(2, 3, 1, [0, 0], true, map r | r in TxnOf(true, a).readSet + TxnOf(true, b).readSet :: SomeRow(r))
  }

  lemma SmallClusterOk(a: Cart, b: Cart)
    ensures ValidConfig(SmallCluster(a, b)) && Reachable(SmallCluster(a, b), Init(SmallCluster(a, b)))
  {
    hide TxnOf;
    var k := SmallCluster(a, b);
    assert IsRun(k, Init(k), [], Init(k));
  }

  lemma StartsUncontended(a: Cart, b: Cart, c: nat, cart: Cart)
    requires c < 2 && (cart == a || cart == b) && CartOk(cart)
    ensures Uncontended(SmallCluster(a, b), Init(SmallCluster(a, b)), c, cart)
  {
    hide TxnOf;
    var k := SmallCluster(a, b);
    var s := Init(k);
    assert TxnOf(k.commutative, cart).readSet <= s.mem.Keys;
    forall r | r in TxnOf(k.commutative, cart).readSet
      ensures Accessible(s.mem[r].head.word, c, s.readers[k.group[c]])
    {
      assert s.mem[r].head.word == INITIAL;
    }
  }

  lemma StartsGapless(a: Cart, b: Cart, d: Rid)
    requires d in TxnOf(true, a).readSet
    ensures Gapless(Init(SmallCluster(a, b)), d)
  {
    hide TxnOf;
  }

  /**
   * For every payment and every new order on one district there is a run after which an id is about to be given out
   * again.
   */
  lemma IdsCanRepeat(pay: Cart, order: Cart) returns (k: Config, t: State)
    requires pay.Payment? && order.NewOrder? && CartOk(order) && pay.w == order.w && pay.d == order.d
    ensures ValidConfig(k) && From(k, Init(k), t)
    ensures
      var d := District(pay.w, pay.d);
      d in t.mem && GivenOut(t, d, t.mem[d].oid)
  {
    k := SmallCluster(pay, order);
    SmallClusterOk(pay, order);
    StartsUncontended(pay, order, 0, pay);
    StartsUncontended(pay, order, 1, order);
    StartsGapless(pay, order, District(pay.w, pay.d));
    hide TxnOf, From, ValidConfig, Reachable, Uncontended, Gapless;
    t := PaymentReusesIds(k, Init(k), 0, 1, pay, order);
  }

  // ---------------------------------------------------------------- remote orders counted wrongly

  /**
   * S_REMOTE_CNT. For every new order with a line that is supplied by warehouse 0 and not from elsewhere, or from
   * elsewhere and not by warehouse 0, there is a run that commits it and leaves a wrong count on that line's stock.
   */
  lemma RemoteMiscounted(order: Cart, j: nat) returns (k: Config, t: State)
    requires order.NewOrder? && CartOk(order) && j < |order.lines|
    requires !(order.lines[j].supply == 0 <==> order.lines[j].supply != order.w)
    ensures ValidConfig(k) && Reachable(k, t)
    ensures
      var r := StockOf(order.lines[j]);
      && r in t.mem && r in t.hist && t.mem[r].head.payload.StockRow?
      && t.mem[r].head.payload.remoteCnt != RemoteLines(r, t.hist[r])
  {
    var r := StockOf(order.lines[j]);
    k := SmallCluster(order, order);
    SmallClusterOk(order, order);
    StartsUncontended(order, order, 0, order);
    LineIsWritten(order, j);
    hide TxnOf, Uncontended, ValidConfig;
    t := UncontendedCommits(k, Init(k), 0, order);
    assert Reachable(k, t);
    hide Reachable, From;
    WronglyFlagged(k, t, order, j);
    RemoteConserved(k, t, r);
  }

  /** The order's line writes its stock, and the cluster was populated with that stock. */
  lemma LineIsWritten(order: Cart, j: nat)
    requires order.NewOrder? && CartOk(order) && j < |order.lines|
    ensures
      var r, txn, l := StockOf(order.lines[j]), TxnOf(true, order), order.lines[j];
      && r in txn.writes && txn.writes[r] == OrderStock(l.qty, order.w, l.supply == 0) && r in txn.readSet
  {
    StockWritesExact(order.w, order.lines);
    assert Orders(order.w, order.lines[j], StockWrites(order.w, order.lines));
    TxnOfWellFormed(true, order);
  }

  lemma WronglyFlagged(k: Config, t: State, order: Cart, j: nat)
    requires k == SmallCluster(order, order) && order.NewOrder? && j < |order.lines|
    requires Committed(k, Init(k), t, 0, order)
    requires !(order.lines[j].supply == 0 <==> order.lines[j].supply != order.w)
    requires
      var r, txn, l := StockOf(order.lines[j]), TxnOf(true, order), order.lines[j];
      r in txn.writes && txn.writes[r] == OrderStock(l.qty, order.w, l.supply == 0) && r in txn.readSet
    ensures
      var r := StockOf(order.lines[j]);
      && r in t.mem && r in t.hist && |t.hist[r]| == 2 && !FlagRight(r, t.hist[r][1].op)
      && r in k.initial && FreshStock(k.initial[r])
  {
    hide TxnOf, CommitTimestamp;
    FlagRightExactly(order.w, order.lines[j]);
  }
}
