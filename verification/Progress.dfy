/**
 * Progress: a transaction whose records nobody holds and whose snapshot is fresh commits when it runs alone. The phases
 * are stated one by one, so that runs of several transactions can be put together from them.
 */
module Progress {
  import opened Words
  import opened Records
  import opened Protocol
  import opened Core
  import opened Steps
  import opened Theorems

  ghost predicate From(k: Config, s: State, t: State) { exists acts :: IsRun(k, s, acts, t) }

  lemma FromSelf(k: Config, s: State)
    ensures From(k, s, s)
  {
    assert IsRun(k, s, [], s);
  }

  /** What is reached from a reachable state is reachable. */
  lemma ReachOn(k: Config, s: State, t: State)
    requires Reachable(k, s) && From(k, s, t)
    ensures Reachable(k, t)
  {
    var a :| IsRun(k, Init(k), a, s);
    var b :| IsRun(k, s, b, t);
    RunsJoin(k, Init(k), a, s, b, t);
  }

  lemma {:induction false} RunsJoin(k: Config, i: State, a: seq<Action>, s: State, b: seq<Action>, t: State)
    requires IsRun(k, i, a, s) && IsRun(k, s, b, t)
    ensures IsRun(k, i, a + b, t)
    decreases |b|
  {
    hide Enabled, Next;
    if b == [] {
      assert s == t && a + b == a;
    } else {
      var front, last := b[..|b| - 1], b[|b| - 1];
      var m :| IsRun(k, s, front, m) && Enabled(k, m, last) && t == Next(k, m, last);
      RunsJoin(k, i, a, s, front, m);
      var ab := a + b;
      assert ab[..|ab| - 1] == a + front && ab[|ab| - 1] == last;
      assert IsRun(k, i, ab[..|ab| - 1], m);
      RunExtends(k, i, ab, m, t);
    }
  }

  lemma RunExtends(k: Config, i: State, acts: seq<Action>, m: State, t: State)
    requires acts != [] && IsRun(k, i, acts[..|acts| - 1], m)
    requires Enabled(k, m, acts[|acts| - 1]) && t == Next(k, m, acts[|acts| - 1])
    ensures IsRun(k, i, acts, t)
  {
    hide Enabled, Next;
  }

  lemma FromStep(k: Config, s: State, m: State, a: Action)
    requires From(k, s, m) && Enabled(k, m, a)
    ensures From(k, s, Next(k, m, a))
  {
    hide Enabled, Next;
    var acts :| IsRun(k, s, acts, m);
    var more := acts + [a];
    assert more[..|more| - 1] == acts && more[|more| - 1] == a;
    assert IsRun(k, s, more[..|more| - 1], m);
    assert IsRun(k, s, more, Next(k, m, a));
  }

  // ---------------------------------------------------------------- reading

  ghost predicate Known(s: State, rs: set<Rid>) {
    rs <= s.mem.Keys && rs <= s.hist.Keys && forall r :: r in rs ==> |s.hist[r]| > 0
  }

  /** Copies of the heads as they are. */
  ghost function HeadCopies(s: State, rs: set<Rid>): map<Rid, Copy>
    requires Known(s, rs)
  {
    map r | r in rs :: Copy(s.mem[r].head, s.mem[r].oid, |s.hist[r]| - 1, false)
  }

  ghost function AfterHeads(s: State, c: nat, rs: set<Rid>): State
    requires c < |s.clients| && Known(s, rs)
  {
    SetClient(s, c, s.clients[c].(copies := s.clients[c].copies + HeadCopies(s, rs)))
  }

  lemma {:induction false} ReadHeads(k: Config, s0: State, s: State, c: nat, todo: set<Rid>)
    requires From(k, s0, s) && At(s, c, Reading) && todo <= s.clients[c].txn.readSet && todo !! s.clients[c].copies.Keys
    requires Known(s, todo)
    ensures From(k, s0, AfterHeads(s, c, todo))
    decreases |todo|
  {
    if todo == {} {
      assert AfterHeads(s, c, todo) == s by { assert s.clients[c].copies + HeadCopies(s, todo) == s.clients[c].copies; }
    } else {
      hide From, AfterHeads, HeadCopies;
      var r :| r in todo;
      HeadStep(k, s0, s, c, r);
      ReadHeads(k, s0, DoReadHead(s, c, r), c, todo - {r});
      HeadsSplit(s, c, r, todo);
    }
  }

  lemma HeadStep(k: Config, s0: State, s: State, c: nat, r: Rid)
    requires From(k, s0, s) && CanReadHead(s, c, r)
    ensures From(k, s0, DoReadHead(s, c, r))
  {
    hide From;
    FromStep(k, s0, s, ReadHead(c, r));
  }

  lemma HeadsSplit(s: State, c: nat, r: Rid, rs: set<Rid>)
    requires CanReadHead(s, c, r) && r in rs && Known(s, rs)
    ensures Known(DoReadHead(s, c, r), rs - {r}) && AfterHeads(DoReadHead(s, c, r), c, rs - {r}) == AfterHeads(s, c, rs)
  {
    var m := DoReadHead(s, c, r);
    assert m.clients[c].copies + HeadCopies(m, rs - {r}) == s.clients[c].copies + HeadCopies(s, rs);
  }

  ghost function HeadLists(s: State, rs: set<Rid>): map<Rid, seq<Word>>
    requires rs <= s.mem.Keys
  {
    map r | r in rs :: s.mem[r].list
  }

  ghost function AfterLists(s: State, c: nat, rs: set<Rid>): State
    requires c < |s.clients| && rs <= s.mem.Keys
  {
    SetClient(s, c, s.clients[c].(lists := s.clients[c].lists + HeadLists(s, rs)))
  }

  lemma {:induction false} ReadLists(k: Config, s0: State, s: State, c: nat, todo: set<Rid>)
    requires From(k, s0, s) && At(s, c, Reading) && todo <= s.clients[c].txn.listSet && todo !! s.clients[c].lists.Keys
    requires todo <= s.mem.Keys && todo <= s.clients[c].copies.Keys
    requires forall r :: r in todo ==> |s.mem[r].list| == k.versions
    ensures From(k, s0, AfterLists(s, c, todo))
    decreases |todo|
  {
    if todo == {} {
      assert AfterLists(s, c, todo) == s by { assert s.clients[c].lists + HeadLists(s, todo) == s.clients[c].lists; }
    } else {
      hide From, AfterLists, HeadLists;
      var r :| r in todo;
      ListStep(k, s0, s, c, r);
      ReadLists(k, s0, DoReadList(s, c, r, s.mem[r].list), c, todo - {r});
      ListsSplit(s, c, r, todo);
    }
  }

  lemma ListStep(k: Config, s0: State, s: State, c: nat, r: Rid)
    requires From(k, s0, s) && r in s.mem && CanReadList(k, s, c, r, s.mem[r].list)
    ensures From(k, s0, DoReadList(s, c, r, s.mem[r].list))
  {
    hide From;
    FromStep(k, s0, s, ReadList(c, r, s.mem[r].list));
  }

  lemma ListsSplit(s: State, c: nat, r: Rid, rs: set<Rid>)
    requires c < |s.clients| && r in rs && rs <= s.mem.Keys
    ensures AfterLists(DoReadList(s, c, r, s.mem[r].list), c, rs - {r}) == AfterLists(s, c, rs)
  {
    var m := DoReadList(s, c, r, s.mem[r].list);
    assert m.clients[c].lists + HeadLists(m, rs - {r}) == s.clients[c].lists + HeadLists(s, rs);
  }

  /** The state after a transaction has begun and read everything it needs. */
  ghost function AfterReads(k: Config, s: State, c: nat, cart: Cart): State
    requires CanBegin(k, s, c, cart) && Known(s, TxnOf(k.commutative, cart).readSet)
  {
    var txn := TxnOf(k.commutative, cart);
    SetClient(s, c, s.clients[c].(phase := Reading, cart := cart, txn := txn,
                                  snap := s.readers[k.group[c]],
                                  copies := HeadCopies(s, txn.readSet),
                                  lists := HeadLists(s, txn.readSet * txn.listSet)))
  }

  lemma ReadPhase(k: Config, s0: State, s: State, c: nat, cart: Cart)
    requires From(k, s0, s) && CanBegin(k, s, c, cart) && Known(s, TxnOf(k.commutative, cart).readSet)
    requires forall r :: r in s.mem ==> |s.mem[r].list| == k.versions
    ensures From(k, s0, AfterReads(k, s, c, cart))
  {
    hide From, AfterHeads, HeadCopies, AfterLists, HeadLists, TxnOf;
    var txn := TxnOf(k.commutative, cart);
    var m := BegunState(k, s0, s, c, cart);
    ReadHeads(k, s0, m, c, txn.readSet);
    var n := HeadsRead(k, s, m, c, cart);
    ReadLists(k, s0, n, c, txn.readSet * txn.listSet);
    ListsRead(k, s, n, c, cart);
  }

  lemma BegunState(k: Config, s0: State, s: State, c: nat, cart: Cart) returns (m: State)
    requires From(k, s0, s) && CanBegin(k, s, c, cart)
    ensures From(k, s0, m) && m == DoBegin(k, s, c, cart)
  {
    hide From;
    FromStep(k, s0, s, Begin(c, cart));
    m := DoBegin(k, s, c, cart);
  }

  lemma HeadsRead(k: Config, s: State, m: State, c: nat, cart: Cart) returns (n: State)
    requires CanBegin(k, s, c, cart) && Known(s, TxnOf(k.commutative, cart).readSet) && m == DoBegin(k, s, c, cart)
    ensures Known(m, TxnOf(k.commutative, cart).readSet) && n == AfterHeads(m, c, TxnOf(k.commutative, cart).readSet)
    ensures n == SetClient(m, c, m.clients[c].(copies := HeadCopies(s, TxnOf(k.commutative, cart).readSet)))
    ensures n.clients[c].copies.Keys == TxnOf(k.commutative, cart).readSet
  {
    hide TxnOf;
    n := AfterHeads(m, c, TxnOf(k.commutative, cart).readSet);
    assert n.clients[c].copies == HeadCopies(s, TxnOf(k.commutative, cart).readSet);
  }

  lemma ListsRead(k: Config, s: State, n: State, c: nat, cart: Cart)
    requires CanBegin(k, s, c, cart) && Known(s, TxnOf(k.commutative, cart).readSet)
    requires
      var m, txn := DoBegin(k, s, c, cart), TxnOf(k.commutative, cart);
      n == SetClient(m, c, m.clients[c].(copies := HeadCopies(s, txn.readSet)))
    ensures
      var txn := TxnOf(k.commutative, cart);
      AfterLists(n, c, txn.readSet * txn.listSet) == AfterReads(k, s, c, cart)
  {
    hide TxnOf, HeadCopies;
    var rs := TxnOf(k.commutative, cart).readSet * TxnOf(k.commutative, cart).listSet;
    assert n.clients[c].lists + HeadLists(n, rs) == HeadLists(s, rs);
  }

  // ---------------------------------------------------------------- checking and locking

  ghost predicate AllAccessible(cl: Client, c: nat) {
    forall r :: r in cl.txn.readSet ==> CopyAccessible(cl, c, r)
  }

  /** The client after both checks, all its copies being accessible. */
  function Entering(k: Config, cl: Client, c: nat): Client { Prepared(k, cl.(pending := {}), c) }

  lemma CheckPhase(k: Config, s0: State, s: State, c: nat)
    requires From(k, s0, s) && CanCheckVersions(s, c) && AllAccessible(s.clients[c], c)
    requires (s.clients[c].epoch + 1) * k.clients <= TS_RANGE
    ensures From(k, s0, SetClient(s, c, Entering(k, s.clients[c], c)))
  {
    hide From;
    FromStep(k, s0, s, CheckVersions(c));
    var m := SetClient(s, c, s.clients[c].(phase := Fetching, pending := {}));
    assert DoCheckVersions(s, c) == m by {
      var cl := s.clients[c];
      assert (set r | r in cl.txn.readSet && !CopyAccessible(cl, c, r)) == {};
    }
    FromStep(k, s0, m, Validate(c));
    assert DoValidate(k, m, c) == SetClient(s, c, Entering(k, s.clients[c], c));
  }

  /** The locks of `rs` are free and the client's copies bear their current words. */
  ghost predicate Lockable(s: State, c: nat, rs: set<Rid>) {
    && At(s, c, Locking) && rs <= s.mem.Keys
    && forall r :: r in rs ==>
         && r in s.clients[c].stage && s.clients[c].stage[r] == ToLock && r in s.clients[c].copies
         && s.mem[r].head.word == s.clients[c].copies[r].version.word
  }

  /** From `s` to `t` client `c` took the locks of `rs`, and nothing else happened. */
  ghost predicate TookLocks(s: State, t: State, c: nat, rs: set<Rid>)
    requires Lockable(s, c, rs)
  {
    && |t.clients| == |s.clients| && t == s.(mem := t.mem, clients := s.clients[c := t.clients[c]])
    && t.clients[c] == s.clients[c].(stage := t.clients[c].stage, before := t.clients[c].before)
    && t.clients[c].stage.Keys == s.clients[c].stage.Keys
    && (forall r :: r in t.clients[c].stage ==>
          t.clients[c].stage[r] == if r in rs then Held else s.clients[c].stage[r])
    && t.mem.Keys == s.mem.Keys
    && (forall r :: r in t.mem ==>
          t.mem[r] == if r in rs then SetWord(s.mem[r], LockWord(s.clients[c], c, r)) else s.mem[r])
  }

  lemma LockStep(k: Config, s0: State, s: State, c: nat, r: Rid)
    requires From(k, s0, s) && Lockable(s, c, {r})
    ensures CanTryLock(s, c, r) && From(k, s0, DoTryLock(s, c, r)) && TookLocks(s, DoTryLock(s, c, r), c, {r})
  {
    hide From;
    FromStep(k, s0, s, TryLock(c, r));
  }

  lemma {:induction false} TakeLocks(k: Config, s0: State, s: State, c: nat, todo: set<Rid>) returns (t: State)
    requires From(k, s0, s) && Lockable(s, c, todo)
    ensures From(k, s0, t) && TookLocks(s, t, c, todo)
    decreases |todo|
  {
    hide From;
    if todo == {} { t := s; }
    else {
      hide DoTryLock, TookLocks;
      var r :| r in todo;
      LockStep(k, s0, s, c, r);
      var m := DoTryLock(s, c, r);
      StillLockable(s, m, c, r, todo);
      t := TakeLocks(k, s0, m, c, todo - {r});
      TookMore(s, m, t, c, r, todo);
    }
  }

  lemma StillLockable(s: State, m: State, c: nat, r: Rid, rs: set<Rid>)
    requires Lockable(s, c, rs) && r in rs && TookLocks(s, m, c, {r})
    ensures Lockable(m, c, rs - {r})
  {}

  lemma TookMore(s: State, m: State, t: State, c: nat, r: Rid, rs: set<Rid>)
    requires Lockable(s, c, rs) && r in rs && TookLocks(s, m, c, {r}) && Lockable(m, c, rs - {r})
    requires TookLocks(m, t, c, rs - {r})
    ensures TookLocks(s, t, c, rs)
  {
    hide LockWord;
    SameLockWord(s, m, c, rs - {r});
  }

  lemma SameLockWord(s: State, m: State, c: nat, rs: set<Rid>)
    requires Lockable(s, c, rs) && c < |m.clients|
    requires m.clients[c] == s.clients[c].(stage := m.clients[c].stage, before := m.clients[c].before)
    ensures forall r :: r in rs ==> LockWord(m.clients[c], c, r) == LockWord(s.clients[c], c, r)
  {}

  /** Alone with accessible copies of unlocked heads, a transaction gets all its locks and is decided to commit. */
  lemma LockPhase(k: Config, s0: State, s: State, c: nat) returns (t: State)
    requires From(k, s0, s) && CanCheckVersions(s, c) && AllAccessible(s.clients[c], c)
    requires (s.clients[c].epoch + 1) * k.clients <= TS_RANGE && c < |s.clients[c].snap|
    requires s.clients[c].txn.writes.Keys <= s.mem.Keys && s.clients[c].txn.writes.Keys <= s.clients[c].copies.Keys
    requires forall r :: r in s.clients[c].txn.writes ==> s.mem[r].head.word == s.clients[c].copies[r].version.word
    ensures From(k, s0, t) && DecidedAlone(k, s, t, c)
  {
    hide From, AllAccessible;
    CheckPhase(k, s0, s, c);
    var m := SetClient(s, c, Entering(k, s.clients[c], c));
    var n := TakeLocks(k, s0, m, c, s.clients[c].txn.writes.Keys);
    t := DecideStep(k, s0, n, c);
  }

  lemma DecideStep(k: Config, s0: State, s: State, c: nat) returns (t: State)
    requires From(k, s0, s) && At(s, c, Locking) && c < |s.clients[c].snap|
    requires forall r :: r in s.clients[c].stage ==> s.clients[c].stage[r] == Held
    ensures From(k, s0, t)
    ensures
      var cl := s.clients[c];
      t == SetClient(s, c, cl.(phase := Committing, snap := cl.snap[c := cl.cts]))
           .(log := s.log + [Commit(c, cl.cts, cl.txn.writes.Keys, cl.cart)])
  {
    hide From;
    FromStep(k, s0, s, Decide(c));
    t := DoDecide(s, c);
  }

  /** From `s` to `t` client `c` got all its locks and was decided to commit, and nothing else happened. */
  ghost predicate DecidedAlone(k: Config, s: State, t: State, c: nat)
    requires c < |s.clients|
    requires s.clients[c].txn.writes.Keys <= s.clients[c].copies.Keys
  {
    var cl := Entering(k, s.clients[c], c);
    && |t.clients| == |s.clients| && t == s.(mem := t.mem, clients := s.clients[c := t.clients[c]], log := t.log)
    && t.log == s.log + [Commit(c, cl.cts, cl.txn.writes.Keys, cl.cart)] && c < |cl.snap|
    && t.clients[c] == cl.(phase := Committing, snap := cl.snap[c := cl.cts], stage := t.clients[c].stage,
                           before := t.clients[c].before)
    && t.clients[c].stage.Keys == cl.txn.writes.Keys
    && (forall r :: r in t.clients[c].stage ==> t.clients[c].stage[r] == Held)
    && t.mem.Keys == s.mem.Keys
    && (forall r :: r in t.mem ==>
          t.mem[r] == if r in cl.txn.writes then SetWord(s.mem[r], LockWord(cl, c, r)) else s.mem[r])
  }

  // ---------------------------------------------------------------- writing and publishing

  /** Client `c` holds the locks of `rs` and has not begun to write them. */
  ghost predicate Writable(k: Config, s: State, c: nat, rs: set<Rid>) {
    && At(s, c, Committing) && rs <= s.mem.Keys && rs <= s.hist.Keys && rs <= s.orderIds.Keys && 1 <= k.versions
    && rs <= s.clients[c].stage.Keys && rs <= s.clients[c].copies.Keys && rs <= s.clients[c].lists.Keys
    && rs <= s.clients[c].txn.writes.Keys && (s.clients[c].txn.counter.Some? ==> s.clients[c].orderId.Some?)
    && forall r :: r in rs ==>
          s.clients[c].stage[r] == Held && s.clients[c].copies[r].version.word.offset < |s.mem[r].ring|
  }

  lemma WritableFacts(k: Config, s: State, c: nat)
    requires At(s, c, Committing) && Writable(k, s, c, s.clients[c].txn.writes.Keys)
    ensures 1 <= k.versions && s.clients[c].txn.writes.Keys <= s.clients[c].copies.Keys
    ensures s.clients[c].txn.writes.Keys <= s.hist.Keys
  {}

  /** The record after its old version was appended and its new one installed. */
  function WrittenCell(k: Config, cl: Client, c: nat, r: Rid, cell: Cell): Cell
    requires r in cl.copies && r in cl.lists && r in cl.txn.writes && 1 <= k.versions
    requires cl.copies[r].version.word.offset < |cell.ring|
  {
    var old_ := cl.copies[r];
    Cell(NewVersion(k, cl, c, r), if cl.txn.writes[r].TakeOrderId? then old_.oid + 1 else old_.oid,
         Shifted(cl.lists[r], old_.version.word), cell.ring[old_.version.word.offset := old_.version])
  }

  function NewEntry(k: Config, cl: Client, c: nat, r: Rid): Entry
    requires r in cl.copies && r in cl.txn.writes && 1 <= k.versions
  {
    Entry(NewVersion(k, cl, c, r), cl.txn.writes[r], cl.snap)
  }

  /** From `s` to `t` client `c` wrote the records `rs`, and nothing else happened but order ids. */
  ghost predicate Wrote(k: Config, s: State, t: State, c: nat, rs: set<Rid>)
    requires Writable(k, s, c, rs)
  {
    WroteClient(s, t, c, rs) && WroteCells(k, s, t, c, rs) && WroteEntries(k, s, t, c, rs)
  }

  ghost predicate WroteClient(s: State, t: State, c: nat, rs: set<Rid>)
    requires c < |s.clients|
  {
    var cl := s.clients[c];
    && |t.clients| == |s.clients| && t.orderIds.Keys == s.orderIds.Keys
    && t == s.(mem := t.mem, hist := t.hist, orderIds := t.orderIds, clients := s.clients[c := t.clients[c]])
    && t.clients[c] == cl.(stage := t.clients[c].stage) && t.clients[c].stage.Keys == cl.stage.Keys
    && (forall r :: r in cl.stage ==> t.clients[c].stage[r] == if r in rs then Installed else cl.stage[r])
  }

  ghost predicate WroteCells(k: Config, s: State, t: State, c: nat, rs: set<Rid>)
    requires Writable(k, s, c, rs)
  {
    && t.mem.Keys == s.mem.Keys
    && (forall r :: r in s.mem ==>
          t.mem[r] == if r in rs then WrittenCell(k, s.clients[c], c, r, s.mem[r]) else s.mem[r])
  }

  ghost predicate WroteEntries(k: Config, s: State, t: State, c: nat, rs: set<Rid>)
    requires Writable(k, s, c, rs)
  {
    && t.hist.Keys == s.hist.Keys
    && (forall r :: r in s.hist ==>
          t.hist[r] == if r in rs then s.hist[r] + [NewEntry(k, s.clients[c], c, r)] else s.hist[r])
  }

  /** The three writes of one record can be made one after the other. */
  lemma WritesPossible(k: Config, s: State, c: nat, r: Rid)
    requires Writable(k, s, c, {r})
    ensures CanAppendList(s, c, r)
    ensures CanAppendRing(DoAppendList(s, c, r), c, r)
    ensures CanInstall(k, DoAppendRing(DoAppendList(s, c, r), c, r), c, r)
  {
    var m := DoAppendList(s, c, r);
    assert AtStage(m, c, r, Committing, Listed);
    var n := DoAppendRing(m, c, r);
    assert AtStage(n, c, r, Committing, Ringed);
  }

  lemma WriteClient(k: Config, s: State, c: nat, r: Rid)
    requires CanAppendList(s, c, r) && CanAppendRing(DoAppendList(s, c, r), c, r)
    requires CanInstall(k, DoAppendRing(DoAppendList(s, c, r), c, r), c, r)
    ensures
      var t := DoInstall(k, DoAppendRing(DoAppendList(s, c, r), c, r), c, r);
      && t.clients == s.clients[c := s.clients[c].(stage := s.clients[c].stage[r := Installed])]
      && t == s.(mem := t.mem, hist := t.hist, orderIds := t.orderIds, clients := t.clients)
  {
    var m := DoAppendList(s, c, r);
    var n := DoAppendRing(m, c, r);
    var t := DoInstall(k, n, c, r);
    assert t.clients[c].stage == s.clients[c].stage[r := Installed];
    assert t.clients == s.clients[c := s.clients[c].(stage := s.clients[c].stage[r := Installed])];
  }

  lemma WriteMemory(k: Config, s: State, c: nat, r: Rid)
    requires Writable(k, s, c, {r}) && CanAppendList(s, c, r) && CanAppendRing(DoAppendList(s, c, r), c, r)
    requires CanInstall(k, DoAppendRing(DoAppendList(s, c, r), c, r), c, r)
    ensures
      var t, cl := DoInstall(k, DoAppendRing(DoAppendList(s, c, r), c, r), c, r), s.clients[c];
      && t.mem == s.mem[r := WrittenCell(k, cl, c, r, s.mem[r])]
      && t.hist == s.hist[r := s.hist[r] + [NewEntry(k, cl, c, r)]]
      && t.orderIds.Keys == s.orderIds.Keys
  {
    var t, cl := DoInstall(k, DoAppendRing(DoAppendList(s, c, r), c, r), c, r), s.clients[c];
    assert t.mem[r] == WrittenCell(k, cl, c, r, s.mem[r]);
  }

  lemma WroteOne(k: Config, s: State, t: State, c: nat, r: Rid)
    requires Writable(k, s, c, {r})
    requires t.clients == s.clients[c := s.clients[c].(stage := s.clients[c].stage[r := Installed])]
    requires t == s.(mem := t.mem, hist := t.hist, orderIds := t.orderIds, clients := t.clients)
    requires t.mem == s.mem[r := WrittenCell(k, s.clients[c], c, r, s.mem[r])]
    requires t.hist == s.hist[r := s.hist[r] + [NewEntry(k, s.clients[c], c, r)]] && t.orderIds.Keys == s.orderIds.Keys
    ensures Wrote(k, s, t, c, {r})
  {
    hide WrittenCell, NewEntry;
  }

  lemma WriteStep(k: Config, s0: State, s: State, c: nat, r: Rid) returns (t: State)
    requires From(k, s0, s) && Writable(k, s, c, {r})
    ensures From(k, s0, t) && Wrote(k, s, t, c, {r})
  {
    hide From, DoAppendList, DoAppendRing, DoInstall, WrittenCell;
    hide NewEntry, CanAppendList, CanAppendRing, CanInstall, Wrote;
    WritesPossible(k, s, c, r);
    var m := DoAppendList(s, c, r);
    FromStep(k, s0, s, AppendList(c, r));
    var n := DoAppendRing(m, c, r);
    FromStep(k, s0, m, AppendRing(c, r));
    t := DoInstall(k, n, c, r);
    FromStep(k, s0, n, Install(c, r));
    WriteClient(k, s, c, r);
    WriteMemory(k, s, c, r);
    WroteOne(k, s, t, c, r);
  }

  lemma StillWritable(k: Config, s: State, m: State, c: nat, r: Rid, rs: set<Rid>)
    requires Writable(k, s, c, rs) && r in rs && Writable(k, s, c, {r}) && Wrote(k, s, m, c, {r})
    ensures Writable(k, m, c, rs - {r})
  {}

  lemma WroteMore(k: Config, s: State, m: State, t: State, c: nat, r: Rid, rs: set<Rid>)
    requires Writable(k, s, c, rs) && r in rs && Writable(k, s, c, {r}) && Wrote(k, s, m, c, {r})
    requires Writable(k, m, c, rs - {r}) && Wrote(k, m, t, c, rs - {r}) && c < |s.clients| && c < |m.clients|
    ensures Wrote(k, s, t, c, rs)
  {
    hide WroteClient, WroteCells, WroteEntries, Writable;
    ClientMore(s, m, t, c, r, rs);
    CellsMore(k, s, m, t, c, r, rs);
    EntriesMore(k, s, m, t, c, r, rs);
  }

  lemma ClientMore(s: State, m: State, t: State, c: nat, r: Rid, rs: set<Rid>)
    requires c < |s.clients| && c < |m.clients| && r in rs && WroteClient(s, m, c, {r})
    requires WroteClient(m, t, c, rs - {r})
    ensures WroteClient(s, t, c, rs) && m.clients[c] == s.clients[c].(stage := m.clients[c].stage)
  {}

  lemma CellsMore(k: Config, s: State, m: State, t: State, c: nat, r: Rid, rs: set<Rid>)
    requires Writable(k, s, c, rs) && r in rs && Writable(k, s, c, {r}) && WroteCells(k, s, m, c, {r})
    requires Writable(k, m, c, rs - {r}) && WroteCells(k, m, t, c, rs - {r})
    requires m.clients[c] == s.clients[c].(stage := m.clients[c].stage)
    ensures WroteCells(k, s, t, c, rs)
  {
    hide WrittenCell;
    SameWriter(k, s, m, c, rs - {r});
  }

  lemma EntriesMore(k: Config, s: State, m: State, t: State, c: nat, r: Rid, rs: set<Rid>)
    requires Writable(k, s, c, rs) && r in rs && Writable(k, s, c, {r}) && WroteEntries(k, s, m, c, {r})
    requires Writable(k, m, c, rs - {r}) && WroteEntries(k, m, t, c, rs - {r})
    requires m.clients[c] == s.clients[c].(stage := m.clients[c].stage)
    ensures WroteEntries(k, s, t, c, rs)
  {
    hide NewEntry;
    SameWriter(k, s, m, c, rs - {r});
  }

  lemma SameWriter(k: Config, s: State, m: State, c: nat, rs: set<Rid>)
    requires Writable(k, s, c, rs) && c < |m.clients| && m.clients[c] == s.clients[c].(stage := m.clients[c].stage)
    ensures forall r :: r in rs ==> NewEntry(k, m.clients[c], c, r) == NewEntry(k, s.clients[c], c, r)
    ensures forall r :: r in rs ==>
      WrittenCell(k, m.clients[c], c, r, s.mem[r]) == WrittenCell(k, s.clients[c], c, r, s.mem[r])
  {}

  lemma {:induction false} WriteAll(k: Config, s0: State, s: State, c: nat, todo: set<Rid>) returns (t: State)
    requires From(k, s0, s) && Writable(k, s, c, todo)
    ensures From(k, s0, t) && Wrote(k, s, t, c, todo)
    decreases |todo|
  {
    hide From;
    if todo == {} { t := s; }
    else {
      hide Wrote;
      var r :| r in todo;
      var m := WriteStep(k, s0, s, c, r);
      StillWritable(k, s, m, c, r, todo);
      t := WriteAll(k, s0, m, c, todo - {r});
      WroteMore(k, s, m, t, c, r, todo);
    }
  }

  lemma PublishStep(k: Config, s0: State, s: State, c: nat)
    requires From(k, s0, s) && CanPublish(s, c)
    ensures From(k, s0, DoPublish(s, c))
  {
    hide From;
    FromStep(k, s0, s, Publish(c));
  }

  // ---------------------------------------------------------------- the whole transaction

  /** Every record the transaction reads is unlocked and inside the snapshot it would begin with. */
  ghost predicate Uncontended(k: Config, s: State, c: nat, cart: Cart) {
    && CanBegin(k, s, c, cart)
    && forall r :: r in TxnOf(k.commutative, cart).readSet ==>
          r in s.mem && Accessible(s.mem[r].head.word, c, s.readers[k.group[c]])
  }

  ghost predicate StoredWell(k: Config, s: State, r: Rid)
    requires r in s.mem && r in s.hist
  {
    && |s.hist[r]| > 0 && |s.mem[r].list| == k.versions == |s.mem[r].ring|
    && (!s.mem[r].head.word.locked ==> s.mem[r].head.word.offset < k.versions)
  }

  ghost predicate WellStored(k: Config, s: State) {
    && s.mem.Keys == s.hist.Keys == s.orderIds.Keys && 1 <= k.versions && |s.clients| == |s.vector|
    && (forall g :: 0 <= g < |s.readers| ==> |s.readers[g]| == |s.clients|)
    && (forall r :: r in s.mem ==> StoredWell(k, s, r))
  }

  lemma AlwaysStored(k: Config, s: State)
    requires ValidConfig(k) && Reachable(k, s)
    ensures WellStored(k, s)
  {
    hide Reachable, StoredWell, RecordInv;
    AlwaysGood(k, s);
    forall r | r in s.mem ensures StoredWell(k, s, r) {
      assert RecordInv(k, s, r);
      StoredRecord(k, s, r);
    }
  }

  lemma StoredRecord(k: Config, s: State, r: Rid)
    requires r in s.mem && r in s.hist && RecordInv(k, s, r) && 1 <= k.versions
    ensures StoredWell(k, s, r)
  {
    var h := s.hist[r];
    assert WordOk(k, h[|h| - 1].version.word, |h| - 1);
    SlotInRange(k, |h| - 1);
  }

  /** From `s` to `t` an uncontended transaction is decided to commit. */
  lemma DecideAlone(k: Config, s0: State, s: State, c: nat, cart: Cart) returns (m: State, t: State)
    requires From(k, s0, s) && WellStored(k, s) && Uncontended(k, s, c, cart)
    requires (s.clients[c].epoch + 1) * k.clients <= TS_RANGE
    ensures Known(s, TxnOf(k.commutative, cart).readSet) && m == AfterReads(k, s, c, cart)
    ensures From(k, s0, t) && c < |m.clients| && m.clients[c].txn.writes.Keys <= m.clients[c].copies.Keys
    ensures DecidedAlone(k, m, t, c)
  {
    hide From, DecidedAlone, WellStored, Uncontended, Known, AfterReads, TxnOf, CanCheckVersions, AllAccessible;
    m := ReadAlone(k, s0, s, c, cart);
    t := LockPhase(k, s0, m, c);
  }

  lemma ReadAlone(k: Config, s0: State, s: State, c: nat, cart: Cart) returns (m: State)
    requires From(k, s0, s) && WellStored(k, s) && Uncontended(k, s, c, cart)
    ensures Known(s, TxnOf(k.commutative, cart).readSet) && m == AfterReads(k, s, c, cart)
    ensures c < |m.clients| && From(k, s0, m) && CanCheckVersions(m, c) && AllAccessible(m.clients[c], c)
    ensures c < |m.clients[c].snap| && m.clients[c].epoch == s.clients[c].epoch
    ensures m.clients[c].txn.writes.Keys <= m.mem.Keys && m.clients[c].txn.writes.Keys <= m.clients[c].copies.Keys
    ensures forall r :: r in m.clients[c].txn.writes ==> m.mem[r].head.word == m.clients[c].copies[r].version.word
  {
    hide From;
    assert Known(s, TxnOf(k.commutative, cart).readSet) by {
      forall r | r in TxnOf(k.commutative, cart).readSet ensures |s.hist[r]| > 0 { assert StoredWell(k, s, r); }
    }
    forall r | r in s.mem ensures |s.mem[r].list| == k.versions { assert StoredWell(k, s, r); }
    ReadPhase(k, s0, s, c, cart);
    m := AfterReads(k, s, c, cart);
    TxnOfWellFormed(k.commutative, cart);
    ReadFacts(k, s, c, cart);
  }

  lemma ReadFacts(k: Config, s: State, c: nat, cart: Cart)
    requires Uncontended(k, s, c, cart) && Known(s, TxnOf(k.commutative, cart).readSet)
    requires WellFormed(TxnOf(k.commutative, cart)) && |s.readers[k.group[c]]| == |s.clients|
    ensures
      var m := AfterReads(k, s, c, cart);
      && CanCheckVersions(m, c) && AllAccessible(m.clients[c], c) && c < |m.clients[c].snap|
      && m.clients[c].txn.writes.Keys <= m.mem.Keys && m.clients[c].txn.writes.Keys <= m.clients[c].copies.Keys
      && forall r :: r in m.clients[c].txn.writes ==> m.mem[r].head.word == m.clients[c].copies[r].version.word
  {
    hide TxnOf;
    var txn := TxnOf(k.commutative, cart);
    assert txn.readSet * txn.listSet == txn.listSet;
  }

  /** The order id, if one is taken by an atomic add: nothing the writes depend on changes. */
  lemma OrderIdStep(k: Config, s0: State, s: State, c: nat) returns (t: State)
    requires From(k, s0, s) && At(s, c, Committing) && s.clients[c].orderId.None?
    requires s.clients[c].txn.counter.Some? ==>
      s.clients[c].txn.counter.value in s.mem && s.clients[c].txn.counter.value in s.orderIds
    ensures From(k, s0, t) && |t.clients| == |s.clients|
    ensures t == s.(mem := t.mem, orderIds := t.orderIds, clients := s.clients[c := t.clients[c]])
    ensures t.clients[c] == s.clients[c].(orderId := t.clients[c].orderId)
    ensures s.clients[c].txn.counter.Some? ==> t.clients[c].orderId.Some?
    ensures t.mem.Keys == s.mem.Keys && t.orderIds.Keys == s.orderIds.Keys
    ensures forall r :: r in s.mem ==> t.mem[r] == s.mem[r].(oid := t.mem[r].oid)
  {
    hide From;
    if s.clients[c].txn.counter.Some? {
      FromStep(k, s0, s, FetchAdd(c));
      t := DoFetchAdd(s, c);
    } else {
      t := s;
    }
  }

  /** The other clients and the snapshot readers are as they were. */
  ghost predicate OthersSame(s: State, t: State, c: nat) {
    && c < |s.clients| == |t.clients| && t.readers == s.readers && t.mem.Keys == s.mem.Keys
    && forall d :: 0 <= d < |s.clients| && d != c ==> t.clients[d] == s.clients[d]
  }

  /** What an uncontended transaction has achieved when it is done. */
  ghost predicate Committed(k: Config, s: State, t: State, c: nat, cart: Cart) {
    var writes := TxnOf(k.commutative, cart).writes;
    && c < |s.vector| && OthersSame(s, t, c) && At(t, c, Idle) && t.clients[c].epoch == s.clients[c].epoch + 1
    && var cts := CommitTimestamp(k, s.clients[c].epoch, c);
    && t.log == s.log + [Commit(c, cts, writes.Keys, cart)] && t.vector == s.vector[c := cts]
    && t.hist.Keys == s.hist.Keys
    && (forall r :: r in s.hist && r !in writes ==> t.hist[r] == s.hist[r])
    && (forall r :: r in writes ==>
          && r in s.hist && |t.hist[r]| == |s.hist[r]| + 1 && t.hist[r][..|s.hist[r]|] == s.hist[r]
          && Last(t.hist[r]).op == writes[r] && Last(t.hist[r]).version.word.client == c
          && Last(t.hist[r]).version.word.ts == cts)
  }

  lemma FinishAlone(k: Config, s0: State, s: State, c: nat) returns (t: State)
    requires From(k, s0, s) && At(s, c, Committing) && s.clients[c].stage.Keys == s.clients[c].txn.writes.Keys
    requires c < |s.vector|
    requires Writable(k, s, c, s.clients[c].txn.writes.Keys)
    ensures From(k, s0, t) && At(t, c, Idle) && t.log == s.log && t.vector == s.vector[c := s.clients[c].cts]
    ensures OthersSame(s, t, c) && t.clients[c].epoch == s.clients[c].epoch
    ensures t.hist.Keys == s.hist.Keys
    ensures forall r :: r in s.hist ==>
      (t.hist[r] == if r in s.clients[c].txn.writes then s.hist[r] + [NewEntry(k, s.clients[c], c, r)] else s.hist[r])
  {
    hide From;
    var w := WriteAll(k, s0, s, c, s.clients[c].txn.writes.Keys);
    hide NewEntry, WrittenCell;
    PublishStep(k, s0, w, c);
    t := DoPublish(w, c);
  }

  lemma ReadyToWrite(k: Config, s: State, m: State, n: State, t: State, c: nat, cart: Cart)
    requires WellStored(k, s) && Uncontended(k, s, c, cart) && Known(s, TxnOf(k.commutative, cart).readSet)
    requires WellFormed(TxnOf(k.commutative, cart)) && m == AfterReads(k, s, c, cart) && c < |m.clients|
    requires m.clients[c].txn.writes.Keys <= m.clients[c].copies.Keys && DecidedAlone(k, m, n, c)
    requires |t.clients| == |n.clients|
    requires t == n.(mem := t.mem, orderIds := t.orderIds, clients := n.clients[c := t.clients[c]])
    requires t.clients[c] == n.clients[c].(orderId := t.clients[c].orderId)
    requires n.clients[c].txn.counter.Some? ==> t.clients[c].orderId.Some?
    requires t.mem.Keys == n.mem.Keys && t.orderIds.Keys == n.orderIds.Keys
    requires forall r :: r in n.mem ==> t.mem[r] == n.mem[r].(oid := t.mem[r].oid)
    ensures Writable(k, t, c, t.clients[c].txn.writes.Keys)
  {
    hide TxnOf, DecidedAlone, AfterReads, Uncontended, WellStored, Known;
    DecidedKeeps(k, m, n, c);
    ReadCopies(k, s, c, cart);
    RingsHaveRoom(k, s, c, cart);
    WritableNow(k, n, t, c, TxnOf(k.commutative, cart));
  }

  lemma WritableNow(k: Config, n: State, t: State, c: nat, txn: Txn)
    requires WellFormed(txn) && 1 <= k.versions && At(n, c, Committing) && n.clients[c].txn == txn
    requires n.clients[c].copies.Keys == txn.readSet && n.clients[c].lists.Keys == txn.readSet * txn.listSet
    requires n.clients[c].stage.Keys == txn.writes.Keys
    requires forall r :: r in n.clients[c].stage ==> n.clients[c].stage[r] == Held
    requires n.mem.Keys == n.hist.Keys == n.orderIds.Keys && txn.readSet <= n.mem.Keys
    requires forall r :: r in txn.readSet ==> n.clients[c].copies[r].version.word.offset < |n.mem[r].ring|
    requires |t.clients| == |n.clients| && t.clients[c] == n.clients[c].(orderId := t.clients[c].orderId)
    requires txn.counter.Some? ==> t.clients[c].orderId.Some?
    requires t.hist == n.hist && t.mem.Keys == n.mem.Keys && t.orderIds.Keys == n.orderIds.Keys
    requires forall r :: r in n.mem ==> t.mem[r] == n.mem[r].(oid := t.mem[r].oid)
    ensures Writable(k, t, c, t.clients[c].txn.writes.Keys)
  {}

  lemma ReadCopies(k: Config, s: State, c: nat, cart: Cart)
    requires Uncontended(k, s, c, cart) && Known(s, TxnOf(k.commutative, cart).readSet)
    ensures
      var m, txn := AfterReads(k, s, c, cart), TxnOf(k.commutative, cart);
      && |m.clients| == |s.clients| && m.clients[c].txn == txn && m.clients[c].copies.Keys == txn.readSet
      && m.clients[c].lists.Keys == txn.readSet * txn.listSet && m.mem == s.mem && m.hist == s.hist
      && m.orderIds == s.orderIds
      && forall r :: r in txn.readSet ==> m.clients[c].copies[r].version == s.mem[r].head
  {
    hide TxnOf;
  }

  lemma RingsHaveRoom(k: Config, s: State, c: nat, cart: Cart)
    requires WellStored(k, s) && Uncontended(k, s, c, cart)
    ensures s.mem.Keys == s.hist.Keys == s.orderIds.Keys && 1 <= k.versions
    ensures forall r :: r in TxnOf(k.commutative, cart).readSet ==>
      r in s.mem && s.mem[r].head.word.offset < |s.mem[r].ring|
  {
    hide TxnOf;
    forall r | r in TxnOf(k.commutative, cart).readSet ensures s.mem[r].head.word.offset < |s.mem[r].ring| {
      assert StoredWell(k, s, r);
    }
  }

  lemma DecidedKeeps(k: Config, m: State, n: State, c: nat)
    requires c < |m.clients| && m.clients[c].txn.writes.Keys <= m.clients[c].copies.Keys && DecidedAlone(k, m, n, c)
    ensures At(n, c, Committing) && n.clients[c].copies == m.clients[c].copies
    ensures n.clients[c].lists == m.clients[c].lists
    ensures n.clients[c].txn == m.clients[c].txn && n.clients[c].stage.Keys == m.clients[c].txn.writes.Keys
    ensures forall r :: r in n.clients[c].stage ==> n.clients[c].stage[r] == Held
    ensures n.mem.Keys == m.mem.Keys && n.hist == m.hist && n.orderIds == m.orderIds
    ensures forall r :: r in m.mem ==> n.mem[r].ring == m.mem[r].ring
  {
    hide LockWord, CommitTimestamp;
  }

  lemma OrderIdAlone(k: Config, s0: State, s: State, m: State, n: State, c: nat, cart: Cart) returns (t: State)
    requires WellStored(k, s) && Uncontended(k, s, c, cart) && Known(s, TxnOf(k.commutative, cart).readSet)
    requires WellFormed(TxnOf(k.commutative, cart)) && m == AfterReads(k, s, c, cart) && c < |m.clients|
    requires m.clients[c].txn.writes.Keys <= m.clients[c].copies.Keys && DecidedAlone(k, m, n, c) && From(k, s0, n)
    ensures From(k, s0, t) && At(t, c, Committing) && Writable(k, t, c, t.clients[c].txn.writes.Keys)
    ensures t.clients[c].txn == TxnOf(k.commutative, cart) && t.clients[c].stage.Keys == t.clients[c].txn.writes.Keys
    ensures t.clients[c].cts == CommitTimestamp(k, s.clients[c].epoch, c) && t.clients[c].cart == cart
    ensures t.hist == s.hist && t.vector == s.vector && OthersSame(s, t, c)
    ensures t.clients[c].epoch == s.clients[c].epoch + 1
    ensures t.log == s.log + [Commit(c, t.clients[c].cts, t.clients[c].txn.writes.Keys, t.clients[c].cart)]
  {
    hide From, TxnOf, AfterReads, DecidedAlone, Uncontended, WellStored, WellFormed, Known, Writable, CommitTimestamp;
    DecidedFrom(k, s, m, n, c, cart);
    CounterStored(k, s, TxnOf(k.commutative, cart));
    t := OrderIdStep(k, s0, n, c);
    ReadyToWrite(k, s, m, n, t, c, cart);
  }

  lemma CounterStored(k: Config, s: State, txn: Txn)
    requires WellFormed(txn) && WellStored(k, s) && Known(s, txn.readSet)
    ensures txn.counter.Some? ==> txn.counter.value in s.mem && txn.counter.value in s.orderIds
  {}

  lemma DecidedFrom(k: Config, s: State, m: State, n: State, c: nat, cart: Cart)
    requires Uncontended(k, s, c, cart) && Known(s, TxnOf(k.commutative, cart).readSet)
    requires m == AfterReads(k, s, c, cart)
    requires m.clients[c].txn.writes.Keys <= m.clients[c].copies.Keys && DecidedAlone(k, m, n, c)
    ensures At(n, c, Committing) && n.clients[c].txn == TxnOf(k.commutative, cart) && n.clients[c].orderId.None?
    ensures n.clients[c].stage.Keys == n.clients[c].txn.writes.Keys
    ensures n.clients[c].cts == CommitTimestamp(k, s.clients[c].epoch, c) && n.clients[c].cart == cart
    ensures n.clients[c].epoch == s.clients[c].epoch + 1
    ensures n.hist == s.hist && n.vector == s.vector && n.orderIds == s.orderIds && OthersSame(s, n, c)
    ensures n.log == s.log + [Commit(c, n.clients[c].cts, n.clients[c].txn.writes.Keys, n.clients[c].cart)]
  {
    hide TxnOf, LockWord, HeadCopies, HeadLists, CommitTimestamp;
  }

  lemma CommittedNow(k: Config, s: State, p: State, t: State, c: nat, cart: Cart)
    requires c < |s.vector| && OthersSame(s, p, c) && OthersSame(p, t, c) && At(t, c, Idle) && 1 <= k.versions
    requires t.clients[c].epoch == p.clients[c].epoch == s.clients[c].epoch + 1
    requires p.clients[c].txn == TxnOf(k.commutative, cart) && p.clients[c].cart == cart
    requires p.clients[c].cts == CommitTimestamp(k, s.clients[c].epoch, c)
    requires p.clients[c].txn.writes.Keys <= p.clients[c].copies.Keys && p.clients[c].txn.writes.Keys <= s.hist.Keys
    requires t.log == s.log + [Commit(c, p.clients[c].cts, p.clients[c].txn.writes.Keys, p.clients[c].cart)]
    requires t.vector == s.vector[c := p.clients[c].cts] && t.hist.Keys == s.hist.Keys
    requires forall r :: r in s.hist ==>
      (t.hist[r] == if r in p.clients[c].txn.writes then s.hist[r] + [NewEntry(k, p.clients[c], c, r)] else s.hist[r])
    ensures Committed(k, s, t, c, cart)
  {
    hide TxnOf, CommitTimestamp;
  }

  /**
   * Progress. From every reachable state, a transaction whose records are unlocked and inside the snapshot it begins
   * with commits when it runs alone: one version of each record of its write set is added, and its timestamp is
   * published.
   */
  lemma UncontendedCommits(k: Config, s: State, c: nat, cart: Cart) returns (t: State)
    requires ValidConfig(k) && Reachable(k, s) && Uncontended(k, s, c, cart)
    requires (s.clients[c].epoch + 1) * k.clients <= TS_RANGE
    ensures From(k, s, t) && Committed(k, s, t, c, cart)
    ensures t.hist.Keys == s.hist.Keys && forall r :: r in s.hist ==>
      |t.hist[r]| == |s.hist[r]| + if Changes(k.commutative, cart, r) then 1 else 0
  {
    hide From, DecidedAlone, Writable, ValidConfig, Reachable, TxnOf, NewEntry, Committed, AfterReads, Changes;
    AlwaysStored(k, s);
    FromSelf(k, s);
    TxnOfWellFormed(k.commutative, cart);
    var m, n := DecideAlone(k, s, s, c, cart);
    var p := OrderIdAlone(k, s, s, m, n, c, cart);
    WritableFacts(k, p, c);
    t := FinishAlone(k, s, p, c);
    CommittedNow(k, s, p, t, c, cart);
    GrowsWhereChanged(k, s, t, c, cart);
  }

  lemma GrowsWhereChanged(k: Config, s: State, t: State, c: nat, cart: Cart)
    requires Committed(k, s, t, c, cart) && CartOk(cart)
    ensures t.hist.Keys == s.hist.Keys && forall r :: r in s.hist ==>
      |t.hist[r]| == |s.hist[r]| + if Changes(k.commutative, cart, r) then 1 else 0
  {
    hide TxnOf, Changes, WellFormed, CommitTimestamp;
    forall r | r in s.hist ensures |t.hist[r]| == |s.hist[r]| + if Changes(k.commutative, cart, r) then 1 else 0 {
      TxnOfExact(k.commutative, cart, r);
    }
  }
}
