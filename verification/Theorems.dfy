/** What holds in every state that any interleaving of any clients reaches. */
module Theorems {
  import opened Words
  import opened Records
  import opened Protocol
  import opened Core
  import opened Steps
  import opened Snapshots
  import opened Chains
  import opened Ledger
  import opened Commits
  import opened Draws
  import opened Carts

  /** All invariants that need no further parameter. */
  ghost predicate Good(k: Config, s: State) {
    Inv(k, s) && SnapInv(k, s) && ChainInv(k, s) && LedgerInv(k, s) && LogInv(k, s) && AbortInv(k, s)
    && DrawInv(k, s) && CartInv(k, s)
  }

  lemma NextGood(k: Config, s: State, a: Action)
    requires Good(k, s) && Enabled(k, s, a)
    ensures Good(k, Next(k, s, a))
  {
    hide Inv, SnapInv, ChainInv, LedgerInv, LogInv, AbortInv, DrawInv, CartInv, Enabled, Next;
    NextKeeps(k, s, a);
    NextSnaps(k, s, a);
    NextChains(k, s, a);
    NextLedger(k, s, a);
    NextLog(k, s, a);
    NextAbort(k, s, a);
    NextDraws(k, s, a);
    NextCarts(k, s, a);
  }

  lemma InitGood(k: Config)
    requires ValidConfig(k)
    ensures Good(k, Init(k))
  {
    hide Inv, SnapInv, ChainInv, LedgerInv, LogInv, DrawInv, CartInv;
    InitInv(k);
    InitSnaps(k);
    InitChains(k);
    InitLedger(k);
    InitLog(k);
    InitDraws(k);
    InitCarts(k);
  }

  lemma {:induction false} RunGood(k: Config, acts: seq<Action>, t: State)
    requires ValidConfig(k) && IsRun(k, Init(k), acts, t)
    ensures Good(k, t)
    decreases |acts|
  {
    hide Good, Enabled, Next;
    if acts == [] {
      InitGood(k);
    } else {
      var last := acts[|acts| - 1];
      var m :| IsRun(k, Init(k), acts[..|acts| - 1], m) && Enabled(k, m, last) && t == Next(k, m, last);
      RunGood(k, acts[..|acts| - 1], m);
      NextGood(k, m, last);
    }
  }

  lemma AlwaysGood(k: Config, s: State)
    requires ValidConfig(k) && Reachable(k, s)
    ensures Good(k, s)
  {
    hide Good;
    var acts :| IsRun(k, Init(k), acts, s);
    RunGood(k, acts, s);
  }

  /** The layers about snapshots and version chains. */
  lemma AlwaysChained(k: Config, s: State)
    requires ValidConfig(k) && Reachable(k, s)
    ensures Inv(k, s) && SnapInv(k, s) && ChainInv(k, s)
  {
    hide Reachable, ValidConfig, Inv, SnapInv, ChainInv, LedgerInv, LogInv, AbortInv, DrawInv, CartInv;
    AlwaysGood(k, s);
  }

  // ---------------------------------------------------------------- what a transaction does, told from its cart

  /**
   * The first check lets a transaction go on exactly when its cart's records are visible as it needs them, and has
   * exactly the others replaced.
   */
  lemma FirstCheck(k: Config, s: State, c: nat)
    requires ValidConfig(k) && Reachable(k, s) && CanCheckVersions(s, c)
    ensures At(Next(k, s, CheckVersions(c)), c, Fetching) <==> PassesFirst(s.clients[c], c)
    ensures At(Next(k, s, CheckVersions(c)), c, Fetching) ==> forall r ::
      r in Next(k, s, CheckVersions(c)).clients[c].pending <==>
        Touches(s.clients[c].cart, r) && !CopyAccessible(s.clients[c], c, r)
  {
    hide Reachable, ValidConfig, Inv, SnapInv, ChainInv, LedgerInv, LogInv, AbortInv, DrawInv;
    hide Bound, PassesFirst, Rejects, CopyAccessible, Touches;
    AlwaysGood(k, s);
    FirstCheckExactly(k, s.clients[c], c);
    ReadsExactly(k, s.clients[c]);
  }

  /**
   * Past both checks a client holds a visible copy of exactly the records its cart names, and locks exactly those its
   * cart writes.
   */
  lemma HoldsItsRecords(k: Config, s: State, c: nat, r: Rid)
    requires ValidConfig(k) && Reachable(k, s) && c < |s.clients| && Active(s.clients[c])
    ensures r in s.clients[c].copies <==> Touches(s.clients[c].cart, r)
    ensures r in s.clients[c].stage <==> Changes(k.commutative, s.clients[c].cart, r)
    ensures r in s.clients[c].copies ==> CopyAccessible(s.clients[c], c, r)
  {
    hide Reachable, ValidConfig, SnapInv, ChainInv, LedgerInv, LogInv, AbortInv, DrawInv, Bound, Touches, Changes;
    AlwaysGood(k, s);
    ClientFacts(k, s, c);
    ValidatedExactly(k, s.clients[c], c, r);
  }

  /** A decided transaction writes exactly what its cart changes. */
  lemma CommitsWriteTheirCarts(k: Config, s: State, m: Commit, r: Rid)
    requires ValidConfig(k) && Reachable(k, s) && m in s.log
    ensures r in m.writes <==> Changes(k.commutative, m.cart, r)
  {
    hide Reachable, ValidConfig, Inv, SnapInv, ChainInv, LedgerInv, LogInv, AbortInv, DrawInv, TxnOf, Changes;
    AlwaysGood(k, s);
    assert CommitBound(k, m);
    TxnOfExact(k.commutative, m.cart, r);
  }

  // ---------------------------------------------------------------- snapshot isolation

  /** The place of the newest version inside a snapshot, or -1. */
  function NewestIn(h: seq<Entry>, c: nat, snap: seq<nat>): int {
    if h == [] then -1
    else if InSnapshot(h[|h| - 1].version.word, c, snap) then |h| - 1
    else NewestIn(h[..|h| - 1], c, snap)
  }

  lemma {:induction false} NewestIs(h: seq<Entry>, c: nat, snap: seq<nat>, i: nat)
    requires i < |h| && InSnapshot(h[i].version.word, c, snap) && NoneAfter(h, i, c, snap)
    ensures NewestIn(h, c, snap) == i
    decreases |h|
  {
    if i < |h| - 1 { NewestIs(h[..|h| - 1], c, snap, i); }
  }

  /** A transaction that has passed its checks and not yet been decided. */
  predicate Validated(s: State, c: nat) { At(s, c, Locking) || At(s, c, Reverting) }

  /**
   * Snapshot reads. Whatever a validated transaction has read is a published version of the record inside its
   * snapshot, with every earlier version. Every stock and item, and every other record it may not replace by an older
   * version or did not, is the newest version of its snapshot: these reads come from one committed cut.
   */
  lemma SnapshotReads(k: Config, s: State, c: nat, r: Rid)
    requires ValidConfig(k) && Reachable(k, s) && Validated(s, c) && r in s.clients[c].txn.readSet
    ensures r in s.clients[c].copies && r in s.hist
    ensures
      var cp, h, snap := s.clients[c].copies[r], s.hist[r], s.clients[c].snap;
      && cp.idx < |h| && cp.version == h[cp.idx].version
      && Published(s, cp.version.word)
      && (forall i :: 0 <= i <= cp.idx ==> InSnapshot(h[i].version.word, c, snap))
      && (r.Stock? || r.Item? || r !in s.clients[c].txn.fallback || !cp.older ==> cp.idx == NewestIn(h, c, snap))
  {
    hide Reachable, ValidConfig, ChainInv, ChainOk, ListCopyOk, OlderOk, FirstWins, VectorPrefix, NoneAfter, NewestIn;
    AlwaysChained(k, s);
    ClientFacts(k, s, c);
    Facts(k, s, c, r);
    assert CopyAccessible(s.clients[c], c, r);
    SnapBelowVector(k, s, c);
    assert Fresh(s, c, r) && Prefix(s.hist[r], c, s.clients[c].snap);
    SeesOnlySnapshot(k, s, c, r);
    if s.clients[c].copies[r].older { ReplacedIsFallback(k, s, c, r); }
  }

  /** Only a record the transaction may replace is ever replaced by an older version: never a stock or an item. */
  lemma ReplacedIsFallback(k: Config, s: State, c: nat, r: Rid)
    requires ChainInv(k, s) && c < |s.clients| && s.clients[c].phase != Idle && ClientShape(k, c, s.clients[c])
    requires r in s.clients[c].copies && s.clients[c].copies[r].older
    ensures r in s.clients[c].txn.fallback && !r.Stock? && !r.Item?
  {
    hide ChainOk, ListCopyOk;
    assert OlderOk(s.clients[c]);
  }

  lemma SeesOnlySnapshot(k: Config, s: State, c: nat, r: Rid)
    requires Validated(s, c) && r in s.hist && r in s.clients[c].copies
    requires |s.clients[c].snap| == |s.vector| == k.clients
    requires CopyOk(s, c, r) && CopyAccessible(s.clients[c], c, r) && HistOk(k, s.hist[r]) && PubOk(s, r)
    requires forall i :: 0 <= i < k.clients && i != c ==> s.clients[c].snap[i] <= s.vector[i]
    requires Fresh(s, c, r) && Prefix(s.hist[r], c, s.clients[c].snap)
    ensures
      var cp, h, snap := s.clients[c].copies[r], s.hist[r], s.clients[c].snap;
      && cp.idx < |h| && cp.version == h[cp.idx].version
      && Published(s, cp.version.word)
      && (forall i :: 0 <= i <= cp.idx ==> InSnapshot(h[i].version.word, c, snap))
      && (!cp.older ==> cp.idx == NewestIn(h, c, snap))
  {
    var cp, h, snap := s.clients[c].copies[r], s.hist[r], s.clients[c].snap;
    SeenIsPublished(k, s, c, r, cp.idx);
    if !cp.older { NewestIs(h, c, snap, cp.idx); }
  }

  /**
   * Snapshots are atomic. When a snapshot includes a commit of another client, it includes that commit's version
   * of every record it wrote: no transaction is seen in part.
   */
  lemma SnapshotsAreAtomic(k: Config, s: State, c: nat, m: Commit)
    requires ValidConfig(k) && Reachable(k, s) && c < |s.clients| && m in s.log && m.client != c
    ensures m.client < |s.clients[c].snap|
    ensures m.cts <= s.clients[c].snap[m.client] ==>
      forall r :: r in m.writes ==> r in s.hist && Has(s.hist[r], m.client, m.cts)
  {
    AlwaysGood(k, s);
    SnapBelowVector(k, s, c);
    assert CommitOk(s, m);
  }

  /** Published means installed: a commit that the oracle's vector covers has a version of every record it wrote. */
  lemma PublishedIsInstalled(k: Config, s: State, m: Commit, r: Rid)
    requires ValidConfig(k) && Reachable(k, s) && m in s.log && r in m.writes
    requires m.client < |s.vector| && m.cts <= s.vector[m.client]
    ensures r in s.hist && Has(s.hist[r], m.client, m.cts)
  {
    AlwaysGood(k, s);
    assert CommitOk(s, m);
  }

  /** Conversely, every version but the populated one belongs to a decided transaction that names the record. */
  lemma InstalledIsDecided(k: Config, s: State, r: Rid, i: nat)
    requires ValidConfig(k) && Reachable(k, s) && r in s.hist && 0 < i < |s.hist[r]|
    ensures Decided(s, r, s.hist[r][i].version.word)
  {
    AlwaysGood(k, s);
  }

  /**
   * First committer wins, no update is lost: whoever wrote a version had all earlier versions of the record in
   * its snapshot, and computed the new row from the version right before.
   */
  lemma FirstCommitterWins(k: Config, s: State, r: Rid, i: nat, j: nat)
    requires ValidConfig(k) && Reachable(k, s) && r in s.hist && i < j < |s.hist[r]|
    ensures
      var h := s.hist[r];
      && InSnapshot(h[i].version.word, h[j].version.word.client, h[j].snap)
      && h[j].version.payload == ApplyOp(h[j].op, h[j - 1].version.payload)
  {
    AlwaysGood(k, s);
    assert FirstWins(s.hist[r]) && Replays(k, r, s.hist[r]);
  }

  /** Commit timestamps are never zero, never repeated by a client, and never shared by two clients. */
  lemma CommitTimestampsDistinct(k: Config, s: State, i: nat, j: nat)
    requires ValidConfig(k) && Reachable(k, s) && i < j < |s.log|
    ensures 0 < s.log[i].cts != s.log[j].cts
    ensures s.log[i].client == s.log[j].client ==> s.log[i].cts < s.log[j].cts
  {
    AlwaysGood(k, s);
    DrawnTwice(k, s, i, j);
  }

  lemma DrawnTwice(k: Config, s: State, i: nat, j: nat)
    requires DrawInv(k, s) && i < j < |s.log|
    ensures 0 < s.log[i].cts != s.log[j].cts
    ensures s.log[i].client == s.log[j].client ==> s.log[i].cts < s.log[j].cts
  {
    var m, n := s.log[i], s.log[j];
    assert m in s.log && n in s.log && Drawn(k, m) && Drawn(k, n);
    var e: nat :| e >= 1 && m.cts == Stamp(k, e, m.client);
    var f: nat :| f >= 1 && n.cts == Stamp(k, f, n.client);
    if m.cts == n.cts { DrawsDiffer(k, e, m.client, f, n.client); }
  }

  // ---------------------------------------------------------------- locks and aborts

  /**
   * A locked head belongs to exactly one client under way, and its timestamp is ahead of the oracle and of every
   * snapshot of another.
   */
  lemma LockedHeads(k: Config, s: State, r: Rid, d: nat)
    requires ValidConfig(k) && Reachable(k, s) && r in s.mem && s.mem[r].head.word.locked && d < |s.clients|
    ensures Holds(s, d, r) <==> d == s.mem[r].head.word.client
    ensures
      var w := s.mem[r].head.word;
      && w.client < |s.clients| && w.client < |s.vector| && s.vector[w.client] < w.ts
      && (d != w.client ==> w.client < |s.clients[d].snap| && s.clients[d].snap[w.client] < w.ts)
  {
    hide Reachable, ValidConfig, SnapInv, ChainInv, LedgerInv, LogInv, AbortInv, DrawInv, CartInv;
    hide HistOk, PubOk, CopyOk;
    AlwaysGood(k, s);
    var w := s.mem[r].head.word;
    assert RecordInv(k, s, r);
    Facts(k, s, w.client, r);
    if Holds(s, d, r) { OneHolder(k, s, d, w.client, r); }
    SnapBelowVector(k, s, d);
  }

  /** A record is changed by nobody but its lock holder, apart from a district's D_NEXT_O_ID. */
  lemma OnlyHolderWrites(k: Config, s: State, a: Action, c: nat, r: Rid)
    requires ValidConfig(k) && Reachable(k, s) && Enabled(k, s, a) && r in s.mem && Holds(s, c, r) && !ActsAs(a, c)
    ensures Untouched(s, Next(k, s, a), r)
  {
    hide Reachable, ValidConfig, Enabled, Next, Inv, SnapInv, ChainInv, LedgerInv, LogInv, AbortInv, DrawInv, Untouched;
    AlwaysGood(k, s);
    LockExcludes(k, s, a, c, r);
  }

  /** Giving a lock back leaves the record as the lock found it: word, row, list and ring, whatever ran in between. */
  lemma RevertGivesBack(k: Config, s: State, c: nat, r: Rid)
    requires ValidConfig(k) && Reachable(k, s) && CanRevert(s, c, r)
    ensures r in s.clients[c].before && SameButOid(DoRevert(s, c, r).mem[r], s.clients[c].before[r])
    ensures DoRevert(s, c, r).hist == s.hist
  {
    hide Reachable, ValidConfig, Inv, SnapInv, ChainInv, LedgerInv, LogInv, AbortInv, DrawInv;
    AlwaysGood(k, s);
    RevertRestores(k, s, c, r);
  }

  /**
   * Aborts leave no trace. Of a transaction that is being reverted no version was ever installed; when it ends,
   * no record is locked by its client.
   */
  lemma AbortLeavesNoTrace(k: Config, s: State, c: nat, r: Rid)
    requires ValidConfig(k) && Reachable(k, s) && At(s, c, Reverting) && r in s.mem
    ensures r in s.hist && !Has(s.hist[r], c, s.clients[c].cts)
    ensures CanFinishAbort(s, c) ==> !(s.mem[r].head.word.locked && s.mem[r].head.word.client == c)
  {
    AlwaysGood(k, s);
    Facts(k, s, c, r);
    assert Replays(k, r, s.hist[r]);
    NoVersionYet(k, s, c, r);
    if CanFinishAbort(s, c) { NoLockLeft(k, s, c, r); }
  }

  lemma NoLockLeft(k: Config, s: State, c: nat, r: Rid)
    requires CanFinishAbort(s, c) && ClientShape(k, c, s.clients[c]) && r in s.mem && r in s.hist && RecordInv(k, s, r)
    ensures !(s.mem[r].head.word.locked && s.mem[r].head.word.client == c)
  {}

  lemma NoVersionYet(k: Config, s: State, c: nat, r: Rid)
    requires LogInv(k, s) && c < |s.clients| && c < |s.vector| && r in s.hist && s.clients[c].phase != Committing
    requires s.hist[r] != [] && s.hist[r][0].version.word.ts == 0 && s.vector[c] < s.clients[c].cts
    ensures !Has(s.hist[r], c, s.clients[c].cts)
  {
    forall i | 0 <= i < |s.hist[r]| && s.hist[r][i].version.word.client == c
      ensures s.hist[r][i].version.word.ts != s.clients[c].cts
    {
      if i > 0 {
        var w := s.hist[r][i].version.word;
        assert Decided(s, r, w);
        var m :| m in s.log && m.client == w.client && m.cts == w.ts && r in m.writes;
        assert CommitOk(s, m);
      }
    }
  }

  // ---------------------------------------------------------------- version chains

  /**
   * While a warehouse or stock record is unlocked, its timestamp list is the newest-first sequence of its
   * overwritten versions' words, as many as fit, and the ring holds each of them in the slot its word names.
   */
  lemma ChainRefinesHistory(k: Config, s: State, r: Rid, p: nat)
    requires ValidConfig(k) && Reachable(k, s) && r in s.mem && Chained(r) && !s.mem[r].head.word.locked
    requires p < k.versions
    ensures r in s.hist && s.hist[r] != [] && s.mem[r].head == Last(s.hist[r]).version
    ensures
      var h, cell := s.hist[r], s.mem[r];
      && |cell.list| == |cell.ring| == k.versions
      && (if p < |h| - 1 then
            && cell.list[p] == h[|h| - 2 - p].version.word
            && cell.list[p].offset < k.versions
            && cell.ring[cell.list[p].offset] == h[|h| - 2 - p].version
          else cell.list[p] == UNUSED)
  {
    AlwaysGood(k, s);
    assert RecordInv(k, s, r);
    assert ChainOk(k, s, r);
    UnlockedChain(k, s, r, p);
  }

  lemma UnlockedChain(k: Config, s: State, r: Rid, p: nat)
    requires r in s.mem && r in s.hist && RecordInv(k, s, r) && ChainOk(k, s, r) && Chained(r) && p < k.versions
    requires !s.mem[r].head.word.locked
    ensures
      var h, cell := s.hist[r], s.mem[r];
      && |cell.list| == |cell.ring| == k.versions
      && (if p < |h| - 1 then
            && cell.list[p] == h[|h| - 2 - p].version.word
            && cell.list[p].offset < k.versions
            && cell.ring[cell.list[p].offset] == h[|h| - 2 - p].version
          else cell.list[p] == UNUSED)
  {
    var h := s.hist[r];
    if p < |h| - 1 { assert WordOk(k, h[|h| - 2 - p].version.word, |h| - 2 - p); }
  }
}
