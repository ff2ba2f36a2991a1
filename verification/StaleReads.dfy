/**
 * Two runs in which a reader that falls back to an older version does not get the newest one of its snapshot: client 1
 * pays twice on a warehouse while client 0, whose snapshot lies between the payments, reads that warehouse.
 */
module StaleReads {
  import opened Words
  import opened Records
  import opened Protocol
  import opened Core
  import opened Steps
  import opened Ledger
  import opened Theorems
  import opened Lookups
  import opened Progress
  import opened Anomalies

  ghost predicate Apart(pay: Cart, order: Cart) {
    pay.Payment? && order.NewOrder? && CartOk(order) && pay.w == order.w && pay.d != order.d
  }

  /** The two transactions share the warehouse and nothing else. */
  lemma OnlyWarehouseShared(pay: Cart, order: Cart)
    requires Apart(pay, order)
    ensures TxnOf(true, pay).writes.Keys == TxnOf(true, pay).readSet
    ensures Warehouse(pay.w) in TxnOf(true, pay).readSet
    ensures Warehouse(pay.w) in TxnOf(true, order).fallback && Warehouse(pay.w) in TxnOf(true, order).listSet
    ensures TxnOf(true, order).listSet <= TxnOf(true, order).readSet
    ensures forall r :: r in TxnOf(true, order).readSet && r in TxnOf(true, pay).readSet ==> r == Warehouse(pay.w)
  {
    TxnOfWellFormed(true, order);
    LinesAreStock(order.lines);
  }

  lemma {:induction false} LinesAreStock(lines: seq<Line>)
    ensures forall r :: r in LineReads(lines) ==> r.Stock? || r.Item?
  {
    if lines != [] { LinesAreStock(lines[..|lines| - 1]); }
  }

  /** When nobody is between lock and publication, every head carries its newest version's own word. */
  lemma Unlocked(k: Config, s: State, r: Rid)
    requires ValidConfig(k) && Reachable(k, s) && r in s.mem
    requires forall c :: 0 <= c < |s.clients| ==> !Active(s.clients[c])
    ensures r in s.hist && s.hist[r] != [] && s.mem[r].head == Last(s.hist[r]).version && !s.mem[r].head.word.locked
    ensures s.hist[r][0].version.word == INITIAL
    ensures forall i :: 0 <= i < |s.hist[r]| ==> WordOk(k, s.hist[r][i].version.word, i)
    ensures forall i, j ::
      0 <= i < j < |s.hist[r]| && s.hist[r][i].version.word.client == s.hist[r][j].version.word.client ==>
      s.hist[r][i].version.word.ts < s.hist[r][j].version.word.ts
  {
    hide Reachable;
    AlwaysGood(k, s);
    assert RecordInv(k, s, r) && Replays(k, r, s.hist[r]);
    UnlockedHead(k, s, r);
  }

  lemma UnlockedHead(k: Config, s: State, r: Rid)
    requires r in s.mem && r in s.hist && RecordInv(k, s, r)
    requires forall c :: 0 <= c < |s.clients| ==> !Active(s.clients[c])
    ensures s.mem[r].head == Last(s.hist[r]).version && !s.mem[r].head.word.locked
  {
    var h := s.hist[r];
    assert WordOk(k, h[|h| - 1].version.word, |h| - 1);
  }

  /** Client 0 has begun with a snapshot that holds the first payment of client 1. */
  ghost predicate SeenOne(k: Config, s: State, pay: Cart, order: Cart) {
    && ValidConfig(k) && Reachable(k, s) && k.clients == 2 && k.versions == 3 && k.commutative && k.group == [0, 0]
    && |s.clients| == |s.vector| == 2 && |s.readers| == 1 && s.readers[0] == s.vector
    && At(s, 0, Reading) && s.clients[0].txn == TxnOf(true, order) && s.clients[0].snap == s.vector
    && s.clients[0].copies == map[] && s.clients[0].lists == map[]
    && s.clients[0].epoch == 1 && At(s, 1, Idle) && s.clients[1].epoch == 2
    && TxnOf(true, pay).readSet <= s.mem.Keys && TxnOf(true, order).readSet <= s.mem.Keys && s.mem.Keys == s.hist.Keys
    && (forall r :: r in TxnOf(true, pay).readSet ==>
          |s.hist[r]| == 2 && s.hist[r][1].version.word.client == 1 && s.hist[r][1].version.word.ts == s.vector[1])
    && (forall r :: r in TxnOf(true, order).readSet && r != Warehouse(pay.w) ==> |s.hist[r]| == 1)
  }

  lemma FirstPayment(pay: Cart, order: Cart) returns (k: Config, s: State)
    requires Apart(pay, order)
    ensures SeenOne(k, s, pay, order)
  {
    k := SmallCluster(pay, order);
    SmallClusterOk(pay, order);
    StartsUncontended(pay, order, 1, pay);
    hide TxnOf, Reachable, Uncontended, ValidConfig, Committed, PaidOnce;
    var t := PayOnce(k, Init(k), pay);
    PaidOnceNow(k, t, pay, order);
    s := BeginAfter(k, t, pay, order);
  }

  lemma PayOnce(k: Config, s: State, pay: Cart) returns (t: State)
    requires ValidConfig(k) && Reachable(k, s) && Uncontended(k, s, 1, pay)
    requires (s.clients[1].epoch + 1) * k.clients <= TS_RANGE
    ensures Reachable(k, t) && Committed(k, s, t, 1, pay)
  {
    hide ValidConfig, Uncontended, Committed;
    t := UncontendedCommits(k, s, 1, pay);
    ReachOn(k, s, t);
  }

  /** Client 1 has paid once, and all clients are idle. */
  ghost predicate PaidOnce(k: Config, t: State, pay: Cart, order: Cart) {
    && k.clients == 2 && k.versions == 3 && k.commutative && k.group == [0, 0]
    && |t.clients| == |t.vector| == 2 && |t.readers| == 1 && At(t, 0, Idle) && At(t, 1, Idle)
    && t.clients[0].epoch == 1 && t.clients[1].epoch == 2
    && TxnOf(true, pay).readSet <= t.mem.Keys && TxnOf(true, order).readSet <= t.mem.Keys && t.mem.Keys == t.hist.Keys
    && (forall r :: r in TxnOf(true, pay).readSet ==>
          |t.hist[r]| == 2 && t.hist[r][1].version.word.client == 1 && t.hist[r][1].version.word.ts == t.vector[1])
    && (forall r :: r in TxnOf(true, order).readSet && r != Warehouse(pay.w) ==> |t.hist[r]| == 1)
  }

  lemma PaidOnceNow(k: Config, t: State, pay: Cart, order: Cart)
    requires k == SmallCluster(pay, order) && Committed(k, Init(k), t, 1, pay) && Apart(pay, order)
    ensures PaidOnce(k, t, pay, order)
  {
    hide TxnOf, CommitTimestamp, Apart;
    OnlyWarehouseShared(pay, order);
  }

  lemma BeginAfter(k: Config, t: State, pay: Cart, order: Cart) returns (s: State)
    requires ValidConfig(k) && Reachable(k, t) && PaidOnce(k, t, pay, order) && Apart(pay, order)
    ensures SeenOne(k, s, pay, order)
  {
    hide TxnOf, Reachable, From, ValidConfig;
    s := BeginFresh(k, t, order);
    ReachOn(k, t, s);
  }

  /** The snapshot reader copies the vector, and client 0 begins. */
  lemma BeginFresh(k: Config, t: State, order: Cart) returns (s: State)
    requires |t.readers| == 1 && k.group == [0, 0] && At(t, 0, Idle) && CartOk(order)
    requires TxnOf(k.commutative, order).readSet <= t.mem.Keys
    ensures From(k, t, s) && |s.clients| == |t.clients|
    ensures s == t.(readers := [t.vector], clients := t.clients[0 := s.clients[0]])
    ensures s.clients[0] == t.clients[0].(phase := Reading, cart := order, txn := TxnOf(k.commutative, order),
                                          snap := t.vector, copies := map[], lists := map[])
  {
    hide TxnOf, From;
    var u := DoRefresh(t, 0);
    FromSelf(k, t);
    FromStep(k, t, t, Refresh(0));
    FromStep(k, t, u, Begin(0, order));
    s := DoBegin(k, u, 0, order);
  }

  // ---------------------------------------------------------------- the second payment

  lemma PaysAgain(k: Config, s: State, pay: Cart, order: Cart)
    requires Apart(pay, order) && SeenOne(k, s, pay, order)
    ensures Uncontended(k, s, 1, pay)
  {
    hide TxnOf, Reachable, ValidConfig;
    assert CartOk(pay);
    forall r | r in TxnOf(true, pay).readSet ensures Accessible(s.mem[r].head.word, 1, s.readers[k.group[1]]) {
      Unlocked(k, s, r);
    }
  }

  /** Client 0 goes on with its reads in state `u`. */
  lemma ReadsOn(k: Config, u: State, order: Cart) returns (t: State)
    requires ValidConfig(k) && Reachable(k, u) && At(u, 0, Reading) && u.clients[0].txn == TxnOf(true, order)
    requires CartOk(order)
    requires u.clients[0].copies == map[] && u.clients[0].lists == map[] && TxnOf(true, order).readSet <= u.mem.Keys
    ensures Reachable(k, t) && |t.clients| == |u.clients| && t == SetClient(u, 0, t.clients[0])
    ensures Known(u, TxnOf(true, order).readSet) && TxnOf(true, order).listSet <= u.mem.Keys
    ensures
      var txn := TxnOf(true, order);
      t.clients[0] == u.clients[0].(copies := HeadCopies(u, txn.readSet), lists := HeadLists(u, txn.listSet))
  {
    hide TxnOf, Reachable, ValidConfig, From, HeadCopies, HeadLists, AfterHeads;
    TxnOfWellFormed(true, order);
    AllStored(k, u, TxnOf(true, order).readSet);
    var txn := TxnOf(true, order);
    FromSelf(k, u);
    ReadHeads(k, u, u, 0, txn.readSet);
    FirstHeads(u, txn.readSet);
    var m := AfterHeads(u, 0, txn.readSet);
    t := ListsOn(k, u, m, txn.listSet);
    ReachOn(k, u, t);
  }

  lemma AllStored(k: Config, u: State, rs: set<Rid>)
    requires ValidConfig(k) && Reachable(k, u) && rs <= u.mem.Keys
    ensures Known(u, rs) && forall r :: r in u.mem ==> |u.mem[r].list| == k.versions
  {
    hide Reachable, ValidConfig;
    AlwaysStored(k, u);
    assert Known(u, rs) by { forall r | r in rs ensures |u.hist[r]| > 0 { assert StoredWell(k, u, r); } }
    forall r | r in u.mem ensures |u.mem[r].list| == k.versions { assert StoredWell(k, u, r); }
  }

  lemma FirstHeads(u: State, rs: set<Rid>)
    requires 0 < |u.clients| && u.clients[0].copies == map[] && Known(u, rs)
    ensures
      var m := AfterHeads(u, 0, rs);
      && |m.clients| == |u.clients| && m == SetClient(u, 0, m.clients[0]) && HeadCopies(u, rs).Keys == rs
      && m.clients[0] == u.clients[0].(copies := HeadCopies(u, rs))
  {
    assert u.clients[0].copies + HeadCopies(u, rs) == HeadCopies(u, rs);
  }

  lemma ListsOn(k: Config, u: State, m: State, rs: set<Rid>) returns (t: State)
    requires From(k, u, m) && At(m, 0, Reading) && |m.clients| == |u.clients| && m == SetClient(u, 0, m.clients[0])
    requires rs <= m.clients[0].txn.listSet && m.clients[0].lists == map[] && rs <= u.mem.Keys
    requires rs <= m.clients[0].copies.Keys
    requires forall r :: r in u.mem ==> |u.mem[r].list| == k.versions
    ensures From(k, u, t) && |t.clients| == |u.clients| && t == SetClient(u, 0, t.clients[0])
    ensures t.clients[0] == m.clients[0].(lists := HeadLists(u, rs))
  {
    hide From;
    ReadLists(k, u, m, 0, rs);
    t := AfterLists(m, 0, rs);
    assert t.clients[0].lists == HeadLists(u, rs);
  }

  // ---------------------------------------------------------------- a locked version that is not yet listed

  ghost predicate NobodyActive(s: State) { forall c :: 0 <= c < |s.clients| ==> !Active(s.clients[c]) }

  /** What is needed of the warehouse after one payment. */
  lemma WarehouseSeen(k: Config, s: State, pay: Cart, order: Cart)
    requires Apart(pay, order) && SeenOne(k, s, pay, order)
    ensures ValidConfig(k) && Reachable(k, s) && k.versions == 3 && NobodyActive(s)
    ensures
      var w := Warehouse(pay.w);
      && w in s.mem && w in s.hist && |s.hist[w]| == 2 && |s.vector| == 2
      && s.hist[w][1].version.word.client == 1 && s.hist[w][1].version.word.ts == s.vector[1]
    ensures |s.clients| == 2 && At(s, 0, Reading) && s.clients[0].txn == TxnOf(true, order)
    ensures s.clients[0].snap == s.vector
    ensures s.clients[0].copies == map[] && s.clients[0].lists == map[] && TxnOf(true, order).readSet <= s.mem.Keys
  {
    hide TxnOf, Reachable, ValidConfig, NobodyActive, Apart;
    SeenQuiet(k, s, pay, order);
    SeenPaid(k, s, pay, order);
  }

  lemma SeenQuiet(k: Config, s: State, pay: Cart, order: Cart)
    requires SeenOne(k, s, pay, order)
    ensures NobodyActive(s)
  {
    hide TxnOf, Reachable, ValidConfig;
    assert !Active(s.clients[0]) && !Active(s.clients[1]);
  }

  lemma SeenPaid(k: Config, s: State, pay: Cart, order: Cart)
    requires Apart(pay, order) && SeenOne(k, s, pay, order)
    ensures
      var w := Warehouse(pay.w);
      && w in s.mem && w in s.hist && |s.hist[w]| == 2 && |s.vector| == 2
      && s.hist[w][1].version.word.client == 1 && s.hist[w][1].version.word.ts == s.vector[1]
  {
    hide TxnOf, Reachable, ValidConfig, Apart;
    OnlyWarehouseShared(pay, order);
    var w := Warehouse(pay.w);
    assert w in TxnOf(true, pay).readSet;
  }

  /** The list of a chained record with two versions, three places and nobody at work. */
  lemma ListOfTwo(k: Config, s: State, w: Rid)
    requires ValidConfig(k) && Reachable(k, s) && k.versions == 3 && NobodyActive(s) && Chained(w)
    requires w in s.mem && w in s.hist && |s.hist[w]| == 2
    ensures s.mem[w].list == [INITIAL, UNUSED, UNUSED] && s.hist[w][0].version.word == INITIAL
  {
    hide Reachable, ValidConfig;
    Unlocked(k, s, w);
    ChainRefinesHistory(k, s, w, 0);
    ChainRefinesHistory(k, s, w, 1);
    ChainRefinesHistory(k, s, w, 2);
  }

  /** With three versions: the list's first entry and the ring's first slot. */
  lemma ChainOfThree(k: Config, s: State, w: Rid)
    requires ValidConfig(k) && Reachable(k, s) && k.versions == 3 && NobodyActive(s) && Chained(w)
    requires w in s.mem && w in s.hist && |s.hist[w]| == 3
    ensures s.hist[w][0].version.word == INITIAL && s.mem[w].head == s.hist[w][2].version
    ensures !s.hist[w][1].version.word.locked && !s.hist[w][1].version.word.deleted
    ensures s.hist[w][1].version.word.client == s.hist[w][2].version.word.client ==>
      s.hist[w][1].version.word.ts < s.hist[w][2].version.word.ts
    ensures |s.mem[w].list| == 3 && s.mem[w].list[0] == s.hist[w][1].version.word
    ensures |s.mem[w].ring| == 3 && s.mem[w].ring[0] == s.hist[w][0].version
  {
    hide Reachable, ValidConfig;
    Unlocked(k, s, w);
    ChainRefinesHistory(k, s, w, 0);
    ChainRefinesHistory(k, s, w, 1);
    assert WordOk(k, s.hist[w][1].version.word, 1);
  }

  /** The second payment gets its locks; client 0 is where it was. */
  lemma SecondLocks(k: Config, s: State, pay: Cart, order: Cart) returns (n: State)
    requires Apart(pay, order) && SeenOne(k, s, pay, order)
    ensures Reachable(k, n) && |n.clients| == 2 && n.clients[0] == s.clients[0] && n.hist == s.hist
    ensures n.mem.Keys == s.mem.Keys
    ensures
      var w := Warehouse(pay.w);
      w in n.mem && n.mem[w].list == s.mem[w].list && n.mem[w].head.word.locked
  {
    PaysAgain(k, s, pay, order);
    OnlyWarehouseShared(pay, order);
    hide Reachable, ValidConfig, TxnOf, Uncontended;
    AlwaysStored(k, s);
    FromSelf(k, s);
    var m;
    m, n := DecideAlone(k, s, s, 1, pay);
    ReachOn(k, s, n);
    LocksWarehouse(k, s, m, n, pay);
  }

  lemma LocksWarehouse(k: Config, s: State, m: State, n: State, pay: Cart)
    requires CanBegin(k, s, 1, pay) && Known(s, TxnOf(k.commutative, pay).readSet) && m == AfterReads(k, s, 1, pay)
    requires |s.clients| == 2 && m.clients[1].txn.writes.Keys <= m.clients[1].copies.Keys && DecidedAlone(k, m, n, 1)
    requires Warehouse(pay.w) in TxnOf(k.commutative, pay).writes && Warehouse(pay.w) in s.mem
    ensures |n.clients| == 2 && n.clients[0] == s.clients[0] && n.hist == s.hist && n.mem.Keys == s.mem.Keys
    ensures n.mem[Warehouse(pay.w)].list == s.mem[Warehouse(pay.w)].list && n.mem[Warehouse(pay.w)].head.word.locked
  {
    hide TxnOf, HeadCopies, HeadLists;
  }

  /**
   * A search that misses the newest version of the snapshot: the head was locked over that version, and the lock holder
   * had not yet put it on the list, so the entry found is an older one.
   */
  lemma LockedVersionMissed(pay: Cart, order: Cart) returns (k: Config, t: State)
    requires Apart(pay, order)
    ensures ValidConfig(k) && Reachable(k, t) && At(t, 0, Reading)
    ensures
      var w, cl := Warehouse(pay.w), t.clients[0];
      && w in t.hist && |t.hist[w]| == 2 && w in cl.copies && cl.copies[w].idx == 1 && w in cl.lists
      && FindValid(cl.lists[w], 0, cl.snap) == 0 && NewestIn(t.hist[w], 0, cl.snap) == 1
      && MissesBase(t, 0, w) && cl.lists[w][0] == t.hist[w][0].version.word != t.hist[w][1].version.word
  {
    hide TxnOf, Reachable, ValidConfig, SeenOne, NobodyActive, Known, MissesBase;
    var s;
    k, s := FirstPayment(pay, order);
    var w := Warehouse(pay.w);
    WarehouseSeen(k, s, pay, order);
    ListOfTwo(k, s, w);
    OnlyWarehouseShared(pay, order);
    var n := SecondLocks(k, s, pay, order);
    t := ReadsOn(k, n, order);
    MissedHere(t, w);
  }

  lemma MissedHere(t: State, w: Rid)
    requires At(t, 0, Reading) && w in t.hist && |t.hist[w]| == 2 && w in t.clients[0].copies && w in t.clients[0].lists
    requires t.clients[0].copies[w].idx == 1 && t.clients[0].copies[w].version.word.locked
    requires t.clients[0].lists[w] == [INITIAL, UNUSED, UNUSED] && t.hist[w][0].version.word == INITIAL
    requires |t.clients[0].snap| == 2 && t.hist[w][1].version.word.client == 1
    requires t.hist[w][1].version.word.ts == t.clients[0].snap[1]
    ensures FindValid(t.clients[0].lists[w], 0, t.clients[0].snap) == 0
    ensures NewestIn(t.hist[w], 0, t.clients[0].snap) == 1
    ensures MissesBase(t, 0, w)
  {
    assert Accessible(t.clients[0].lists[w][0], 0, t.clients[0].snap);
  }

  // ---------------------------------------------------------------- a ring slot taken by position

  /** What is needed of the state after two payments. */
  lemma PaidTwice(k: Config, s: State, u: State, pay: Cart, order: Cart)
    requires Apart(pay, order) && SeenOne(k, s, pay, order) && Committed(k, s, u, 1, pay)
    ensures NobodyActive(u) && |u.clients| == 2 && u.clients[0] == s.clients[0] && u.mem.Keys == s.mem.Keys
    ensures
      var w := Warehouse(pay.w);
      && w in u.mem && w in u.hist && |u.hist[w]| == 3 && w in s.hist && |s.hist[w]| == 2
      && u.hist[w][1] == s.hist[w][1]
      && u.hist[w][2].version.word.client == 1
  {
    hide SeenOne, NobodyActive, Apart, TxnOf, Reachable, ValidConfig, CommitTimestamp;
    OnlyWarehouseShared(pay, order);
    PaidQuiet(k, s, u, pay, order);
    SeenPaid(k, s, pay, order);
    var w := Warehouse(pay.w);
    assert w in TxnOf(true, pay).writes && u.hist[w][..2] == s.hist[w];
    assert u.hist[w][1] == u.hist[w][..2][1];
  }

  /** The rest of what client 0 reads was never written. */
  lemma RestUntouched(k: Config, s: State, u: State, pay: Cart, order: Cart, r: Rid)
    requires Apart(pay, order) && SeenOne(k, s, pay, order) && Reachable(k, u) && Committed(k, s, u, 1, pay)
    requires r in TxnOf(true, order).readSet && r != Warehouse(pay.w)
    ensures r in u.mem && u.mem[r].head.word == INITIAL
  {
    hide Committed, Apart, TxnOf, Reachable, ValidConfig;
    NotPaid(k, s, u, pay, order, r);
    PaidQuiet(k, s, u, pay, order);
    Unlocked(k, u, r);
  }

  lemma NotPaid(k: Config, s: State, u: State, pay: Cart, order: Cart, r: Rid)
    requires Apart(pay, order) && SeenOne(k, s, pay, order) && Committed(k, s, u, 1, pay)
    requires r in TxnOf(true, order).readSet && r != Warehouse(pay.w)
    ensures r in u.mem && r in u.hist && |u.hist[r]| == 1
  {
    hide TxnOf, Reachable, ValidConfig, Apart, CommitTimestamp;
    OnlyWarehouseShared(pay, order);
    assert r !in TxnOf(true, pay).writes && |s.hist[r]| == 1;
  }

  lemma PaidQuiet(k: Config, s: State, u: State, pay: Cart, order: Cart)
    requires SeenOne(k, s, pay, order) && Committed(k, s, u, 1, pay)
    ensures NobodyActive(u) && |u.clients| == 2 && u.clients[0] == s.clients[0] && u.mem.Keys == s.mem.Keys
    ensures k.commutative
  {
    hide TxnOf, Reachable, ValidConfig, CommitTimestamp;
    assert !Active(u.clients[0]) && !Active(u.clients[1]);
  }

  lemma ChecksPass(k: Config, x: State, w: Rid) returns (t: State)
    requires Reachable(k, x) && CanCheckVersions(x, 0) && w in x.clients[0].txn.fallback
    requires w in x.clients[0].txn.readSet
    requires w in x.clients[0].lists && FindValid(x.clients[0].lists[w], 0, x.clients[0].snap) == 0
    requires !CopyAccessible(x.clients[0], 0, w)
    requires forall r :: r in x.clients[0].txn.readSet && r != w ==> CopyAccessible(x.clients[0], 0, r)
    ensures Reachable(k, t) && t == SetClient(x, 0, x.clients[0].(phase := Fetching, pending := {w}))
  {
    var cl := x.clients[0];
    assert (set r | r in cl.txn.readSet && !CopyAccessible(cl, 0, r)) == {w};
    FromSelf(k, x);
    FromStep(k, x, x, CheckVersions(0));
    t := DoCheckVersions(x, 0);
    ReachOn(k, x, t);
  }

  /** Client 0 fetches the populated version of `w` and passes the second check with it. */
  lemma FetchesInitial(k: Config, t: State, w: Rid) returns (m: State, u: State)
    requires Reachable(k, t) && CanFetchOlder(t, 0, w) && t.clients[0].pending == {w} && |t.hist[w]| > 0
    requires (t.clients[0].epoch + 1) * k.clients <= TS_RANGE
    requires t.mem[w].ring[FindValid(t.clients[0].lists[w], 0, t.clients[0].snap)] == t.hist[w][0].version
    requires Accessible(t.hist[w][0].version.word, 0, t.clients[0].snap)
    requires forall r :: r in t.clients[0].txn.readSet && r != w ==> CopyAccessible(t.clients[0], 0, r)
    ensures m == Next(k, t, FetchOlder(0, w)) && Enabled(k, m, Validate(0)) && u == Next(k, m, Validate(0))
    ensures Reachable(k, u) && At(u, 0, Locking)
    ensures u.hist == t.hist && u.clients[0].snap == t.clients[0].snap
    ensures w in u.clients[0].copies && u.clients[0].copies[w].version == t.hist[w][0].version
  {
    hide FindValid, LastIndexOf, Reachable, From, CommitTimestamp;
    m := DoFetchOlder(t, 0, w);
    FromSelf(k, t);
    FromStep(k, t, t, FetchOlder(0, w));
    assert m.clients[0].pending == {};
    FromStep(k, t, m, Validate(0));
    u := DoValidate(k, m, 0);
    ReachOn(k, t, u);
  }

  /**
   * An older version taken by its place in the list: the search finds the newest version of the snapshot, but the ring
   * slot with that number holds an older one. The client fetches that one and passes the second check with it.
   */
  lemma OlderThanFound(pay: Cart, order: Cart) returns (k: Config, t: State, m: State, u: State)
    requires Apart(pay, order)
    ensures ValidConfig(k) && Reachable(k, t) && CanFetchOlder(t, 0, Warehouse(pay.w))
    ensures
      var w, cl := Warehouse(pay.w), t.clients[0];
      var p := FindValid(cl.lists[w], 0, cl.snap);
      |t.hist[w]| == 3 && NewestIn(t.hist[w], 0, cl.snap) == 1 && cl.lists[w][p] == t.hist[w][1].version.word
    ensures m == Next(k, t, FetchOlder(0, Warehouse(pay.w))) && Enabled(k, m, Validate(0))
    ensures u == Next(k, m, Validate(0)) && Reachable(k, u) && At(u, 0, Locking)
    ensures
      var w := Warehouse(pay.w);
      && w in u.clients[0].copies && u.hist == t.hist && |u.hist[w]| == 3
      && NewestIn(u.hist[w], 0, u.clients[0].snap) == 1
      && u.clients[0].copies[w].version == u.hist[w][0].version != u.hist[w][1].version
  {
    hide TxnOf, Reachable, ValidConfig, SeenOne, NobodyActive, Known, Committed, Uncontended;
    var w := Warehouse(pay.w);
    k, t := FoundSecond(pay, order);
    m, u := FetchesInitial(k, t, w);
  }

  /** Client 0 about to fetch: its search found the second version, and the slot of that number holds the first. */
  lemma FoundSecond(pay: Cart, order: Cart) returns (k: Config, t: State)
    requires Apart(pay, order)
    ensures ValidConfig(k) && Reachable(k, t) && CanFetchOlder(t, 0, Warehouse(pay.w))
    ensures t.clients[0].pending == {Warehouse(pay.w)} && (t.clients[0].epoch + 1) * k.clients <= TS_RANGE
    ensures forall r :: r in t.clients[0].txn.readSet && r != Warehouse(pay.w) ==> CopyAccessible(t.clients[0], 0, r)
    ensures
      var w, cl := Warehouse(pay.w), t.clients[0];
      var p := FindValid(cl.lists[w], 0, cl.snap);
      && |t.hist[w]| == 3 && NewestIn(t.hist[w], 0, cl.snap) == 1 && cl.lists[w][p] == t.hist[w][1].version.word
      && t.mem[w].ring[p] == t.hist[w][0].version && Accessible(t.hist[w][0].version.word, 0, cl.snap)
      && t.hist[w][0].version.word.client == 0 && t.hist[w][1].version.word.client == 1
  {
    hide TxnOf, Reachable, ValidConfig, SeenOne, NobodyActive, Known, Committed, Uncontended;
    var s;
    k, s := FirstPayment(pay, order);
    var w := Warehouse(pay.w);
    WarehouseSeen(k, s, pay, order);
    PaysAgain(k, s, pay, order);
    OnlyWarehouseShared(pay, order);
    SecondEpoch(k, s, pay, order);
    var u := PayOnce(k, s, pay);
    PaidTwice(k, s, u, pay, order);
    ChainOfThree(k, u, w);
    var x := ReadsOn(k, u, order);
    forall r | r in TxnOf(true, order).readSet && r != w ensures CopyAccessible(x.clients[0], 0, r) {
      RestUntouched(k, s, u, pay, order, r);
    }
    FoundFirst(x.clients[0].lists[w], x.clients[0].snap);
    t := ChecksPass(k, x, w);
    SecondIsNewest(t.hist[w], t.clients[0].snap);
  }

  lemma SecondEpoch(k: Config, s: State, pay: Cart, order: Cart)
    requires SeenOne(k, s, pay, order)
    ensures (s.clients[0].epoch + 1) * k.clients <= TS_RANGE && (s.clients[1].epoch + 1) * k.clients <= TS_RANGE
  {
    hide TxnOf, Reachable, ValidConfig;
  }

  lemma FoundFirst(list: seq<Word>, snap: seq<nat>)
    requires list != [] && Accessible(list[0], 0, snap)
    ensures FindValid(list, 0, snap) == 0
  {}

  lemma SecondIsNewest(h: seq<Entry>, snap: seq<nat>)
    requires |h| == 3 && |snap| == 2 && h[1].version.word.client == 1 == h[2].version.word.client
    requires h[1].version.word.ts == snap[1] < h[2].version.word.ts
    ensures NewestIn(h, 0, snap) == 1
  {
    assert h[..2][1] == h[1];
  }
}
