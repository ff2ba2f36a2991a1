/**
 * Commit and abort as whole transactions: what is published is installed in full, nothing else is ever
 * installed, a lock keeps everyone else out, and an abort restores what its locks replaced.
 */
module Commits {
  import opened Words
  import opened Records
  import opened Protocol
  import opened Core
  import opened Steps

  // ---------------------------------------------------------------- published means installed

  /** The history holds a version written by client `c` at timestamp `ts`. */
  ghost predicate Has(h: seq<Entry>, c: nat, ts: nat) {
    exists i :: 0 <= i < |h| && h[i].version.word.client == c && h[i].version.word.ts == ts
  }

  predicate Pending(cl: Client, m: Commit) {
    cl.phase == Committing && cl.cts == m.cts && cl.txn.writes.Keys == m.writes
  }

  /** A decided transaction is published and installed on its whole write set, or still under way. */
  ghost predicate CommitOk(s: State, m: Commit) {
    && m.client < |s.vector| && m.client < |s.clients|
    && if m.cts <= s.vector[m.client] then forall r :: r in m.writes ==> r in s.hist && Has(s.hist[r], m.client, m.cts)
       else Pending(s.clients[m.client], m)
  }

  ghost predicate UnderWay(s: State, c: nat)
    requires c < |s.clients|
  {
    var cl := s.clients[c];
    cl.phase == Committing ==>
      && Commit(c, cl.cts, cl.txn.writes.Keys, cl.cart) in s.log
      && (forall r :: r in cl.stage && cl.stage[r] == Installed ==> r in s.hist && Has(s.hist[r], c, cl.cts))
  }

  /** Every version but the populated one was written by a decided transaction that names the record. */
  ghost predicate Decided(s: State, r: Rid, w: Word) {
    exists m :: m in s.log && m.client == w.client && m.cts == w.ts && r in m.writes
  }

  ghost predicate LogInv(k: Config, s: State) {
    && (forall m :: m in s.log ==> CommitOk(s, m))
    && (forall c :: 0 <= c < |s.clients| ==> UnderWay(s, c))
    && (forall r, i :: r in s.hist && 0 < i < |s.hist[r]| ==> Decided(s, r, s.hist[r][i].version.word))
  }

  /** A client whose commit in progress, if any, is unchanged. */
  predicate SameCommit(cl: Client, cm: Client) {
    && (cl.phase == Committing <==> cm.phase == Committing)
    && (cl.phase == Committing ==>
          && cm.cts == cl.cts && cm.txn == cl.txn && cm.cart == cl.cart
          && forall r :: r in cm.stage && cm.stage[r] == Installed ==> r in cl.stage && cl.stage[r] == Installed)
  }

  lemma QuietLog(k: Config, s: State, t: State)
    requires LogInv(k, s) && t.log == s.log && t.vector == s.vector && t.hist == s.hist && |t.clients| == |s.clients|
    requires forall d :: 0 <= d < |s.clients| ==> SameCommit(s.clients[d], t.clients[d])
    ensures LogInv(k, t)
  {
    forall m | m in t.log ensures CommitOk(t, m) { assert CommitOk(s, m); }
    forall c | 0 <= c < |t.clients| ensures UnderWay(t, c) { assert UnderWay(s, c); }
    forall r, i | r in t.hist && 0 < i < |t.hist[r]| ensures Decided(t, r, t.hist[r][i].version.word) {
      assert Decided(s, r, s.hist[r][i].version.word);
    }
  }

  predicate ChangesCommit(a: Action) { a.Decide? || a.Install? || a.Publish? }

  lemma CommitStays(k: Config, s: State, a: Action)
    requires Enabled(k, s, a) && !ChangesCommit(a) && !a.Refresh?
    ensures a.c < |s.clients| == |Next(k, s, a).clients| && SameCommit(s.clients[a.c], Next(k, s, a).clients[a.c])
    ensures Next(k, s, a).log == s.log && Next(k, s, a).vector == s.vector
  {
    if WritesMemory(a) { StepsByWriting(k, s, a); } else { StepsLocally(k, s, a); }
  }

  /** A decision changes one client and may add its commit to the log. */
  lemma DecideEffect(s: State, c: nat)
    requires CanDecide(s, c)
    ensures
      var cl, t := s.clients[c], DoDecide(s, c);
      && t.hist == s.hist && t.vector == s.vector && |t.clients| == |s.clients|
      && (forall d :: 0 <= d < |s.clients| && d != c ==> t.clients[d] == s.clients[d])
      && t.clients[c] == cl.(phase := t.clients[c].phase, snap := t.clients[c].snap)
      && (if t.clients[c].phase == Committing
          then t.log == s.log + [Commit(c, cl.cts, cl.txn.writes.Keys, cl.cart)]
               && forall r :: r in cl.stage ==> cl.stage[r] == Held
          else t.log == s.log)
  {}

  lemma DecideLog(k: Config, s: State, c: nat)
    requires LogInv(k, s) && CanDecide(s, c) && c < |s.vector|
    requires s.vector[c] < s.clients[c].cts && s.clients[c].stage.Keys == s.clients[c].txn.writes.Keys
    ensures LogInv(k, DoDecide(s, c))
  {
    hide DoDecide, Decided;
    var t := DoDecide(s, c);
    DecideEffect(s, c);
    forall m | m in t.log ensures CommitOk(t, m) { if m in s.log { assert CommitOk(s, m); } }
    forall d | 0 <= d < |t.clients| ensures UnderWay(t, d) { assert UnderWay(s, d); }
    forall r, i | r in t.hist && 0 < i < |t.hist[r]| ensures Decided(t, r, t.hist[r][i].version.word) {
      DecidedGrows(s, t, r, s.hist[r][i].version.word);
    }
  }

  lemma DecidedGrows(s: State, t: State, r: Rid, w: Word)
    requires Decided(s, r, w) && s.log <= t.log
    ensures Decided(t, r, w)
  {
    var m :| m in s.log && m.client == w.client && m.cts == w.ts && r in m.writes;
    assert m in t.log;
  }

  lemma HasGrows(h: seq<Entry>, e: Entry, c: nat, ts: nat)
    requires Has(h, c, ts)
    ensures Has(h + [e], c, ts)
  {
    var i :| 0 <= i < |h| && h[i].version.word.client == c && h[i].version.word.ts == ts;
    assert (h + [e])[i] == h[i];
  }

  /** What an install does to the histories. */
  lemma InstallHas(k: Config, s: State, c: nat, r: Rid)
    requires CanInstall(k, s, c, r)
    ensures forall q, d: nat, ts: nat :: q in s.hist && Has(s.hist[q], d, ts) ==>
      Has(DoInstall(k, s, c, r).hist[q], d, ts)
    ensures Has(DoInstall(k, s, c, r).hist[r], c, s.clients[c].cts)
  {
    var t := DoInstall(k, s, c, r);
    var e := Entry(NewVersion(k, s.clients[c], c, r), s.clients[c].txn.writes[r], s.clients[c].snap);
    assert t.hist[r] == s.hist[r] + [e];
    assert t.hist[r][|s.hist[r]|] == e;
    forall q, d: nat, ts: nat | q in s.hist && Has(s.hist[q], d, ts) ensures Has(t.hist[q], d, ts) {
      if q == r { HasGrows(s.hist[r], e, d, ts); }
    }
  }

  lemma InstallLog(k: Config, s: State, c: nat, r: Rid)
    requires LogInv(k, s) && CanInstall(k, s, c, r)
    ensures LogInv(k, DoInstall(k, s, c, r))
  {
    var t := DoInstall(k, s, c, r);
    InstallHas(k, s, c, r);
    forall m | m in t.log ensures CommitOk(t, m) { assert CommitOk(s, m); }
    forall d | 0 <= d < |t.clients| ensures UnderWay(t, d) { assert UnderWay(s, d); }
    InstallDecided(k, s, c, r);
  }

  lemma InstallDecided(k: Config, s: State, c: nat, r: Rid)
    requires LogInv(k, s) && CanInstall(k, s, c, r)
    ensures
      var t := DoInstall(k, s, c, r);
      forall q, i :: q in t.hist && 0 < i < |t.hist[q]| ==> Decided(t, q, t.hist[q][i].version.word)
  {
    var t := DoInstall(k, s, c, r);
    assert UnderWay(s, c);
    forall q, i | q in t.hist && 0 < i < |t.hist[q]| ensures Decided(t, q, t.hist[q][i].version.word) {
      if q == r && i == |s.hist[r]| {
        assert Commit(c, s.clients[c].cts, s.clients[c].txn.writes.Keys, s.clients[c].cart) in t.log;
      } else {
        assert Decided(s, q, s.hist[q][i].version.word);
      }
    }
  }

  lemma PublishLog(k: Config, s: State, c: nat)
    requires LogInv(k, s) && CanPublish(s, c) && s.vector[c] < s.clients[c].cts
    requires s.clients[c].stage.Keys == s.clients[c].txn.writes.Keys
    ensures LogInv(k, DoPublish(s, c))
  {
    var t := DoPublish(s, c);
    assert UnderWay(s, c);
    forall m | m in t.log ensures CommitOk(t, m) { assert CommitOk(s, m); }
    forall d | 0 <= d < |t.clients| ensures UnderWay(t, d) { assert UnderWay(s, d); }
    forall r, i | r in t.hist && 0 < i < |t.hist[r]| ensures Decided(t, r, t.hist[r][i].version.word) {
      assert Decided(s, r, s.hist[r][i].version.word);
    }
  }

  lemma NextLog(k: Config, s: State, a: Action)
    requires Inv(k, s) && LogInv(k, s) && Enabled(k, s, a)
    ensures LogInv(k, Next(k, s, a))
  {
    if ChangesCommit(a) { CommitLog(k, s, a); } else { QuietActionLog(k, s, a); }
  }

  lemma QuietActionLog(k: Config, s: State, a: Action)
    requires LogInv(k, s) && Enabled(k, s, a) && !ChangesCommit(a)
    ensures LogInv(k, Next(k, s, a))
  {
    NoNewVersion(k, s, a);
    if !a.Refresh? {
      OthersStay(k, s, a);
      CommitStays(k, s, a);
    }
    QuietLog(k, s, Next(k, s, a));
  }

  lemma CommitLog(k: Config, s: State, a: Action)
    requires Inv(k, s) && LogInv(k, s) && Enabled(k, s, a) && ChangesCommit(a)
    ensures LogInv(k, Next(k, s, a))
  {
    hide Inv, LogInv, DoDecide, DoInstall, DoPublish;
    match a
    case Decide(c) => CommitFacts(k, s, c); DecideLog(k, s, c);
    case Install(c, r) => InstallLog(k, s, c, r);
    case Publish(c) => CommitFacts(k, s, c); PublishLog(k, s, c);
  }

  lemma CommitFacts(k: Config, s: State, c: nat)
    requires Inv(k, s) && c < |s.clients|
    ensures c < |s.vector|
    ensures Active(s.clients[c]) ==>
      s.vector[c] < s.clients[c].cts && s.clients[c].stage.Keys == s.clients[c].txn.writes.Keys
  {
    Sizes(k, s);
    ClientFacts(k, s, c);
    hide Inv, SnapOk, Trails;
  }

  lemma InitLog(k: Config)
    requires ValidConfig(k)
    ensures LogInv(k, Init(k))
  {}

  // ---------------------------------------------------------------- locks exclude, aborts restore

  /** Equal up to D_NEXT_O_ID, which an atomic add may bump under anyone's lock. */
  predicate SameButOid(x: Cell, y: Cell) { x.(oid := 0) == y.(oid := 0) }

  ghost predicate Untouched(s: State, t: State, r: Rid) {
    && r in s.mem && r in t.mem && SameButOid(t.mem[r], s.mem[r])
    && r in s.hist && r in t.hist && t.hist[r] == s.hist[r]
  }

  /** A record is changed only by its lock holder, apart from D_NEXT_O_ID. */
  lemma LockExcludes(k: Config, s: State, a: Action, c: nat, r: Rid)
    requires Inv(k, s) && Enabled(k, s, a) && r in s.mem && Holds(s, c, r) && !ActsAs(a, c)
    ensures Untouched(s, Next(k, s, a), r)
  {
    if OnRecord(a) {
      if a.r == r { NotTheHolder(k, s, a, c, r); }
      RecordStays(k, s, a, r);
    } else {
      HeadsStay(k, s, a, r);
    }
  }

  lemma ActorExists(k: Config, s: State, a: Action)
    requires Inv(k, s) && Enabled(k, s, a) && !a.Refresh?
    ensures a.c < k.clients == |s.clients|
  {
    hide Inv;
    Sizes(k, s);
    OthersStay(k, s, a);
  }

  /** Another client's attempt on a locked record can only be a compare-and-swap, and that fails. */
  lemma NotTheHolder(k: Config, s: State, a: Action, c: nat, r: Rid)
    requires Inv(k, s) && Enabled(k, s, a) && r in s.mem && Holds(s, c, r) && !ActsAs(a, c)
    requires (a.TryLock? || a.Revert? || a.AppendList? || a.AppendRing? || a.Install?) && a.r == r
    ensures a.TryLock? && !SameBits(s.mem[r].head.word, s.clients[a.c].copies[r].version.word)
  {
    hide Inv, SameBits;
    ActorExists(k, s, a);
    if a.TryLock? { CasFails(k, s, c, a.c, r); } else { OneHolder(k, s, c, a.c, r); }
  }

  lemma CasFails(k: Config, s: State, c: nat, d: nat, r: Rid)
    requires Inv(k, s) && r in s.mem && Holds(s, c, r) && CanTryLock(s, d, r) && d < k.clients == |s.clients|
    ensures !SameBits(s.mem[r].head.word, s.clients[d].copies[r].version.word)
  {
    hide Inv, RecordInv, CopyOk, StampOk, SnapOk, ReaderOk, SameBits;
    Facts(k, s, c, r);
    ClientFacts(k, s, d);
    if SameBits(s.mem[r].head.word, s.clients[d].copies[r].version.word) { CasFindsNewest(k, s, d, r); }
  }

  lemma RecordStays(k: Config, s: State, a: Action, q: Rid)
    requires Enabled(k, s, a) && OnRecord(a) && q in s.mem && q in s.hist
    requires a.r == q ==> a.TryLock? && !SameBits(s.mem[q].head.word, s.clients[a.c].copies[q].version.word)
    ensures Untouched(s, Next(k, s, a), q)
  {
    hide SameBits, DoTryLock, DoRevert, DoAppendList, DoAppendRing, DoInstall;
    if a.r == q { TryLockStep(s, a.c, q); } else { StepsByWriting(k, s, a); }
  }

  lemma HeadsStay(k: Config, s: State, a: Action, q: Rid)
    requires Enabled(k, s, a) && !OnRecord(a) && q in s.mem && q in s.hist
    ensures Untouched(s, Next(k, s, a), q)
  {
    if !WritesMemory(a) && !a.Refresh? { StepsLocally(k, s, a); }
    else if a.Publish? { StepsByWriting(k, s, a); }
  }

  /** While a client may still abort, each lock it took has only replaced the head's word. */
  ghost predicate Restorable(s: State, c: nat, r: Rid)
    requires c < |s.clients|
  {
    var cl := s.clients[c];
    (cl.phase == Locking || cl.phase == Reverting) && r in cl.stage && cl.stage[r] == Held ==>
      && r in cl.before && r in s.mem && r in cl.copies
      && cl.before[r].head.word == cl.copies[r].version.word
      && SameButOid(s.mem[r], SetWord(cl.before[r], LockWord(cl, c, r)))
  }

  ghost predicate AbortInv(k: Config, s: State) {
    forall c, r :: 0 <= c < |s.clients| ==> Restorable(s, c, r)
  }

  /** Client `c`'s own locks, as far as an abort is concerned, are as before. */
  predicate SameLocks(cl: Client, cm: Client, r: Rid) {
    (cm.phase == Locking || cm.phase == Reverting) && r in cm.stage && cm.stage[r] == Held ==>
      && (cl.phase == Locking || cl.phase == Reverting) && r in cl.stage && cl.stage[r] == Held
      && cm.copies == cl.copies && cm.cts == cl.cts
      && (r in cl.before ==> r in cm.before && cm.before[r] == cl.before[r])
  }

  lemma RestorableFrame(s: State, t: State, c: nat, r: Rid)
    requires c < |s.clients| == |t.clients| && Restorable(s, c, r) && SameLocks(s.clients[c], t.clients[c], r)
    requires r in s.mem ==> r in t.mem && SameButOid(t.mem[r], s.mem[r])
    ensures Restorable(t, c, r)
  {}

  lemma OwnLocksLocal(k: Config, s: State, a: Action, r: Rid)
    requires Enabled(k, s, a) && !a.Refresh? && !WritesMemory(a)
    ensures a.c < |s.clients| == |Next(k, s, a).clients|
    ensures SameLocks(s.clients[a.c], Next(k, s, a).clients[a.c], r)
  {
    if a.Validate? { ValidateLocks(k, s, a.c, r); }
    else if a.Decide? { DecideLocks(s, a.c, r); }
    else { StepsLocally(k, s, a); }
  }

  lemma ValidateLocks(k: Config, s: State, c: nat, r: Rid)
    requires CanValidate(k, s, c)
    ensures SameLocks(s.clients[c], DoValidate(k, s, c).clients[c], r)
  {}

  lemma DecideLocks(s: State, c: nat, r: Rid)
    requires CanDecide(s, c)
    ensures SameLocks(s.clients[c], DoDecide(s, c).clients[c], r)
  {
    DecideEffect(s, c);
    hide DoDecide;
  }

  lemma OwnLocksWrite(k: Config, s: State, a: Action, r: Rid)
    requires Enabled(k, s, a) && WritesMemory(a) && !(a.TryLock? && a.r == r) && !(a.Revert? && a.r == r)
    ensures a.c < |s.clients| == |Next(k, s, a).clients|
    ensures SameLocks(s.clients[a.c], Next(k, s, a).clients[a.c], r)
  {
    hide Next;
    StepsByWriting(k, s, a);
  }

  /** The client's own action on another record, or on none. */
  lemma OwnActionElsewhere(k: Config, s: State, a: Action, r: Rid)
    requires Enabled(k, s, a) && !a.Refresh? && !(OnRecord(a) && a.r == r) && s.mem.Keys == s.hist.Keys
    requires a.c < |s.clients| && Restorable(s, a.c, r)
    ensures a.c < |Next(k, s, a).clients| && Restorable(Next(k, s, a), a.c, r)
  {
    if WritesMemory(a) { OwnLocksWrite(k, s, a, r); } else { OwnLocksLocal(k, s, a, r); }
    if r in s.mem {
      if OnRecord(a) { RecordStays(k, s, a, r); } else { HeadsStay(k, s, a, r); }
    }
    RestorableFrame(s, Next(k, s, a), a.c, r);
  }

  /** The client's own action on the record: a lock is taken, or its holding ends. */
  lemma OwnActionHere(k: Config, s: State, a: Action, r: Rid)
    requires Enabled(k, s, a) && OnRecord(a) && a.r == r && a.c < |s.clients|
    requires a.TryLock? && SameBits(s.mem[r].head.word, s.clients[a.c].copies[r].version.word) ==>
      s.mem[r].head.word == s.clients[a.c].copies[r].version.word
    ensures a.c < |Next(k, s, a).clients| && Restorable(Next(k, s, a), a.c, r)
  {
    match a
    case TryLock(c, q) =>
    case Revert(c, q) =>
    case AppendList(c, q) =>
    case AppendRing(c, q) =>
    case Install(c, q) =>
  }

  lemma OwnAbort(k: Config, s: State, a: Action, r: Rid)
    requires Inv(k, s) && Enabled(k, s, a) && !a.Refresh? && a.c < |s.clients| && Restorable(s, a.c, r)
    ensures a.c < |Next(k, s, a).clients| && Restorable(Next(k, s, a), a.c, r)
  {
    if OnRecord(a) && a.r == r {
      if a.TryLock? && SameBits(s.mem[r].head.word, s.clients[a.c].copies[r].version.word) {
        ClientFacts(k, s, a.c);
        CasFindsNewest(k, s, a.c, r);
      }
      OwnActionHere(k, s, a, r);
    } else {
      OwnActionElsewhere(k, s, a, r);
    }
  }

  lemma OthersAbort(k: Config, s: State, a: Action, c: nat, r: Rid)
    requires Inv(k, s) && Enabled(k, s, a) && !ActsAs(a, c) && c < |s.clients| && Restorable(s, c, r)
    ensures c < |Next(k, s, a).clients| && Restorable(Next(k, s, a), c, r)
  {
    if !a.Refresh? { OthersStay(k, s, a); }
    if r in s.mem && Holds(s, c, r) { LockExcludes(k, s, a, c, r); }
  }

  lemma NextAbort(k: Config, s: State, a: Action)
    requires Inv(k, s) && AbortInv(k, s) && Enabled(k, s, a)
    ensures AbortInv(k, Next(k, s, a))
  {
    if !a.Refresh? { OthersStay(k, s, a); }
    forall c, r | 0 <= c < |Next(k, s, a).clients| ensures Restorable(Next(k, s, a), c, r) {
      assert Restorable(s, c, r);
      if ActsAs(a, c) { OwnAbort(k, s, a, r); } else { OthersAbort(k, s, a, c, r); }
    }
  }

  /** Giving a lock back restores the record exactly as the lock found it, whatever ran in between. */
  lemma RevertRestores(k: Config, s: State, c: nat, r: Rid)
    requires AbortInv(k, s) && CanRevert(s, c, r)
    ensures r in s.clients[c].before
    ensures SameButOid(DoRevert(s, c, r).mem[r], s.clients[c].before[r])
    ensures DoRevert(s, c, r).hist == s.hist
  {
    assert Restorable(s, c, r);
  }
}
