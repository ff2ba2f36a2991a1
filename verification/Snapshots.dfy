/**
 * Snapshot isolation over all runs: a snapshot is a cut of every record's history, what a transaction
 * reads from a head is the newest version inside its snapshot, and the first committer wins.
 */
module Snapshots {
  import opened Words
  import opened Records
  import opened Protocol
  import opened Core
  import opened Steps

  /** The plain reading of a vector, without a client's own commits. */
  predicate InVector(w: Word, vec: seq<nat>) { w.client < |vec| && w.ts <= vec[w.client] }

  /** No version after the `idx`-th is inside the snapshot. */
  ghost predicate NoneAfter(h: seq<Entry>, idx: nat, c: nat, snap: seq<nat>) {
    forall j :: idx < j < |h| ==> !InSnapshot(h[j].version.word, c, snap)
  }

  /** The versions inside the snapshot are a prefix of the history. */
  ghost predicate Prefix(h: seq<Entry>, c: nat, snap: seq<nat>) {
    forall i, j :: 0 <= i < j < |h| && InSnapshot(h[j].version.word, c, snap) ==> InSnapshot(h[i].version.word, c, snap)
  }

  ghost predicate VectorPrefix(h: seq<Entry>, vec: seq<nat>) {
    forall i, j :: 0 <= i < j < |h| && InVector(h[j].version.word, vec) ==> InVector(h[i].version.word, vec)
  }

  /** Every writer had all earlier versions inside its snapshot. */
  ghost predicate FirstWins(h: seq<Entry>) {
    forall i, j :: 0 <= i < j < |h| ==> InSnapshot(h[i].version.word, h[j].version.word.client, h[j].snap)
  }

  predicate BeforeDecision(p: Phase) { p == Reading || p == Fetching || p == Locking || p == Reverting }

  ghost predicate Fresh(s: State, c: nat, r: Rid)
    requires c < |s.clients| && r in s.hist
  {
    BeforeDecision(s.clients[c].phase) && r in s.clients[c].copies && !s.clients[c].copies[r].older ==>
      NoneAfter(s.hist[r], s.clients[c].copies[r].idx, c, s.clients[c].snap)
  }

  ghost predicate SnapInv(k: Config, s: State) {
    && (forall c, r :: 0 <= c < |s.clients| && r in s.hist ==>
          Fresh(s, c, r) && Prefix(s.hist[r], c, s.clients[c].snap))
    && (forall g, r :: 0 <= g < |s.readers| && r in s.hist ==> VectorPrefix(s.hist[r], s.readers[g]))
    && (forall r :: r in s.hist ==> FirstWins(s.hist[r]))
  }

  // ---------------------------------------------------------------- the five actions that matter

  /** A step that adds no version and moves no snapshot keeps everything. */
  lemma QuietKeeps(k: Config, s: State, t: State)
    requires SnapInv(k, s) && t.hist == s.hist && t.readers == s.readers && |t.clients| == |s.clients|
    requires forall d :: 0 <= d < |s.clients| ==> SameView(s.clients[d], t.clients[d], d)
    ensures SnapInv(k, t)
  {
    forall c, r | 0 <= c < |t.clients| && r in t.hist
      ensures Fresh(t, c, r) && Prefix(t.hist[r], c, t.clients[c].snap)
    {
      assert Fresh(s, c, r) && Prefix(s.hist[r], c, s.clients[c].snap);
      SameViewSees(s.clients[c], t.clients[c], c);
    }
  }

  predicate SameView(cl: Client, cm: Client, c: nat) {
    && (BeforeDecision(cm.phase) ==> BeforeDecision(cl.phase)) && cm.copies == cl.copies
    && |cm.snap| == |cl.snap| && forall i :: 0 <= i < |cl.snap| && i != c ==> cm.snap[i] == cl.snap[i]
  }

  lemma SameViewSees(cl: Client, cm: Client, c: nat)
    requires SameView(cl, cm, c)
    ensures forall w :: InSnapshot(w, c, cl.snap) <==> InSnapshot(w, c, cm.snap)
  {}

  /** A record is read from its head, or replaced by an older version: either way the new copy is fresh. */
  lemma ReadKeeps(k: Config, s: State, t: State, c: nat, r: Rid)
    requires SnapInv(k, s) && c < |s.clients| == |t.clients| && t == SetClient(s, c, t.clients[c])
    requires t.clients[c].snap == s.clients[c].snap && r in t.clients[c].copies && r in s.hist
    requires t.clients[c].copies == s.clients[c].copies[r := t.clients[c].copies[r]]
    requires t.clients[c].phase == s.clients[c].phase
    requires t.clients[c].copies[r].older || t.clients[c].copies[r].idx == |s.hist[r]| - 1
    ensures SnapInv(k, t)
  {
    forall d, q | 0 <= d < |t.clients| && q in t.hist
      ensures Fresh(t, d, q) && Prefix(t.hist[q], d, t.clients[d].snap)
    {
      assert Fresh(s, d, q) && Prefix(s.hist[q], d, s.clients[d].snap);
    }
  }

  lemma BeginPrefix(h: seq<Entry>, c: nat, old_: seq<nat>, new_: seq<nat>)
    requires Prefix(h, c, old_) && VectorPrefix(h, new_) && |old_| == |new_|
    requires forall i :: 0 <= i < |old_| && i != c ==> old_[i] <= new_[i]
    ensures Prefix(h, c, new_)
  {}

  lemma BeginSnaps(k: Config, s: State, c: nat, cart: Cart)
    requires Inv(k, s) && SnapInv(k, s) && CanBegin(k, s, c, cart)
    ensures SnapInv(k, DoBegin(k, s, c, cart))
  {
    var t := DoBegin(k, s, c, cart);
    ClientFacts(k, s, c);
    forall d, q | 0 <= d < |t.clients| && q in t.hist
      ensures Fresh(t, d, q) && Prefix(t.hist[q], d, t.clients[d].snap)
    {
      assert Fresh(s, d, q) && Prefix(s.hist[q], d, s.clients[d].snap);
      if d == c { BeginPrefix(s.hist[q], c, s.clients[c].snap, t.clients[c].snap); }
    }
  }

  lemma VectorIsCut(k: Config, s: State, r: Rid)
    requires r in s.hist && PubOk(s, r)
    ensures VectorPrefix(s.hist[r], s.vector)
  {}

  lemma RefreshSnaps(k: Config, s: State, g: nat)
    requires Inv(k, s) && SnapInv(k, s) && g < |s.readers|
    ensures SnapInv(k, DoRefresh(s, g))
  {
    var t := DoRefresh(s, g);
    forall h, r | 0 <= h < |t.readers| && r in t.hist ensures VectorPrefix(t.hist[r], t.readers[h]) {
      assert RecordInv(k, s, r);
      VectorIsCut(k, s, r);
    }
    forall d, q | 0 <= d < |t.clients| && q in t.hist
      ensures Fresh(t, d, q) && Prefix(t.hist[q], d, t.clients[d].snap)
    {
      assert Fresh(s, d, q) && Prefix(s.hist[q], d, s.clients[d].snap);
    }
  }

  /** Appending a version that a client cannot see keeps its view of the history. */
  lemma AppendUnseen(h: seq<Entry>, e: Entry, d: nat, snap: seq<nat>)
    requires Prefix(h, d, snap) && !InSnapshot(e.version.word, d, snap)
    ensures Prefix(h + [e], d, snap)
    ensures forall idx: nat :: NoneAfter(h, idx, d, snap) ==> NoneAfter(h + [e], idx, d, snap)
  {}

  /** The writer sees every version up to the one it replaces. */
  lemma AppendOwn(h: seq<Entry>, e: Entry, c: nat)
    requires h != [] && Prefix(h, c, e.snap) && FirstWins(h) && e.version.word.client == c
    requires InSnapshot(Last(h).version.word, c, e.snap)
    ensures Prefix(h + [e], c, e.snap) && FirstWins(h + [e])
  {
    var g := h + [e];
    forall i, j | 0 <= i < j < |g| ensures InSnapshot(g[i].version.word, g[j].version.word.client, g[j].snap) {
      if j == |h| { assert i == |h| - 1 || InSnapshot(h[i].version.word, c, e.snap); }
    }
  }

  lemma AppendUnread(h: seq<Entry>, e: Entry, vec: seq<nat>)
    requires VectorPrefix(h, vec) && !InVector(e.version.word, vec)
    ensures VectorPrefix(h + [e], vec)
  {}

  /** What the protocol invariant contributes to an install. */
  ghost predicate InstallFacts(k: Config, s: State, c: nat, r: Rid) {
    && Shape(k, s) && CanInstall(k, s, c, r) && c < k.clients
    && s.hist[r] != [] && s.vector[c] < s.clients[c].cts
    && InSnapshot(Last(s.hist[r]).version.word, c, s.clients[c].snap)
    && (forall d :: 0 <= d < k.clients && d != c ==> s.clients[d].snap[c] <= s.vector[c])
    && (forall g :: 0 <= g < k.readers ==> s.readers[g][c] <= s.vector[c])
  }

  lemma InstallFactsHold(k: Config, s: State, c: nat, r: Rid)
    requires Inv(k, s) && CanInstall(k, s, c, r)
    ensures InstallFacts(k, s, c, r)
  {
    hide RecordInv, HoldOk, CopyOk, SnapOk, ValidConfig, InSnapshot, Trails;
    assert c < k.clients;
    HolderSees(k, s, c, r);
    ClientFacts(k, s, c);
    forall d | 0 <= d < k.clients && d != c ensures s.clients[d].snap[c] <= s.vector[c] { SnapBelowVector(k, s, d); }
    forall g | 0 <= g < k.readers ensures s.readers[g][c] <= s.vector[c] { assert ReaderOk(k, s, g); }
  }

  /** An install adds one version and moves a stage; snapshots and copies stay. */
  lemma InstallEffect(k: Config, s: State, c: nat, r: Rid)
    requires InstallFacts(k, s, c, r)
    ensures r in s.hist && c < |s.clients| && r in s.clients[c].copies && r in s.clients[c].txn.writes
    ensures 1 <= k.versions
    ensures
      var t, cl := DoInstall(k, s, c, r), s.clients[c];
      && t.readers == s.readers && |t.clients| == |s.clients|
      && t.hist == s.hist[r := s.hist[r] + [Entry(NewVersion(k, cl, c, r), cl.txn.writes[r], cl.snap)]]
      && (forall d :: 0 <= d < |s.clients| && d != c ==> t.clients[d] == s.clients[d])
      && t.clients[c] == cl.(stage := t.clients[c].stage) && cl.phase == Committing
  {
    hide NewVersion, Shape;
  }

  /** What the invariant says of the words involved. */
  lemma InstallWords(k: Config, s: State, c: nat, r: Rid)
    requires InstallFacts(k, s, c, r)
    ensures
      var w := NewVersion(k, s.clients[c], c, r).word;
      && w.client == c && s.hist[r] != [] && InSnapshot(Last(s.hist[r]).version.word, c, s.clients[c].snap)
      && (forall d :: 0 <= d < |s.clients| && d != c ==> !InSnapshot(w, d, s.clients[d].snap))
      && (forall g :: 0 <= g < |s.readers| ==> !InVector(w, s.readers[g]))
  {}

  lemma InstallClientSnaps(k: Config, s: State, t: State, c: nat, r: Rid, d: nat, q: Rid)
    requires InstallFacts(k, s, c, r) && t == DoInstall(k, s, c, r)
    requires d < |s.clients| && q in s.hist && Fresh(s, d, q) && Prefix(s.hist[q], d, s.clients[d].snap)
    requires FirstWins(s.hist[r]) && Prefix(s.hist[r], c, s.clients[c].snap)
    ensures d < |t.clients| && q in t.hist && Fresh(t, d, q) && Prefix(t.hist[q], d, t.clients[d].snap)
  {
    InstallEffect(k, s, c, r);
    InstallWords(k, s, c, r);
    hide InstallFacts, DoInstall, NewVersion, InSnapshot;
    if q == r {
      var e := Entry(NewVersion(k, s.clients[c], c, r), s.clients[c].txn.writes[r], s.clients[c].snap);
      if d == c { AppendOwn(s.hist[r], e, c); } else { AppendUnseen(s.hist[r], e, d, s.clients[d].snap); }
    }
  }

  lemma InstallRecordSnaps(k: Config, s: State, t: State, c: nat, r: Rid, q: Rid)
    requires InstallFacts(k, s, c, r) && t == DoInstall(k, s, c, r) && q in s.hist && FirstWins(s.hist[q])
    requires Prefix(s.hist[r], c, s.clients[c].snap)
    requires ReadersPrefix(s, q)
    ensures q in t.hist && FirstWins(t.hist[q]) && ReadersPrefix(t, q)
  {
    InstallEffect(k, s, c, r);
    InstallWords(k, s, c, r);
    hide InstallFacts, DoInstall, NewVersion, InSnapshot, InVector;
    if q == r {
      var e := Entry(NewVersion(k, s.clients[c], c, r), s.clients[c].txn.writes[r], s.clients[c].snap);
      AppendOwn(s.hist[r], e, c);
      forall g | 0 <= g < |t.readers| ensures VectorPrefix(t.hist[q], t.readers[g]) {
        AppendUnread(s.hist[r], e, s.readers[g]);
      }
    }
  }

  lemma SnapFacts(k: Config, s: State, c: nat, r: Rid)
    requires SnapInv(k, s) && c < |s.clients| && r in s.hist
    ensures Fresh(s, c, r) && Prefix(s.hist[r], c, s.clients[c].snap) && FirstWins(s.hist[r]) && ReadersPrefix(s, r)
  {
    hide Prefix, FirstWins, VectorPrefix, Fresh;
  }

  lemma SnapsFrom(k: Config, t: State)
    requires forall c, r :: 0 <= c < |t.clients| && r in t.hist ==>
      Fresh(t, c, r) && Prefix(t.hist[r], c, t.clients[c].snap)
    requires forall r :: r in t.hist ==> FirstWins(t.hist[r]) && ReadersPrefix(t, r)
    ensures SnapInv(k, t)
  {
    hide Prefix, FirstWins, VectorPrefix, Fresh;
    forall g, r | 0 <= g < |t.readers| && r in t.hist
      ensures VectorPrefix(t.hist[r], t.readers[g])
    {
      assert ReadersPrefix(t, r);
    }
  }

  ghost predicate ReadersPrefix(t: State, r: Rid)
    requires r in t.hist
  {
    forall g :: 0 <= g < |t.readers| ==> VectorPrefix(t.hist[r], t.readers[g])
  }

  lemma InstallSnaps(k: Config, s: State, c: nat, r: Rid)
    requires InstallFacts(k, s, c, r) && SnapInv(k, s)
    ensures SnapInv(k, DoInstall(k, s, c, r))
  {
    var t := DoInstall(k, s, c, r);
    InstallEffect(k, s, c, r);
    SnapFacts(k, s, c, r);
    hide Prefix, FirstWins, VectorPrefix, Fresh, InstallFacts, DoInstall, NewVersion, SnapInv;
    forall d, q | 0 <= d < |t.clients| && q in t.hist
      ensures Fresh(t, d, q) && Prefix(t.hist[q], d, t.clients[d].snap)
    {
      SnapFacts(k, s, d, q);
      InstallClientSnaps(k, s, t, c, r, d, q);
    }
    forall q | q in t.hist ensures FirstWins(t.hist[q]) && ReadersPrefix(t, q) {
      SnapFacts(k, s, c, q);
      InstallRecordSnaps(k, s, t, c, r, q);
    }
    SnapsFrom(k, t);
  }

  // ---------------------------------------------------------------- all actions, all runs

  predicate Moves(a: Action) { a.Refresh? || a.Begin? || a.ReadHead? || a.FetchOlder? || a.Install? }

  /** An action that neither reads, begins, refreshes nor installs leaves its client's view alone. */
  lemma ViewStays(k: Config, s: State, a: Action)
    requires Enabled(k, s, a) && !Moves(a)
    ensures a.c < |s.clients| == |Next(k, s, a).clients| && SameView(s.clients[a.c], Next(k, s, a).clients[a.c], a.c)
    ensures Next(k, s, a).hist == s.hist && Next(k, s, a).readers == s.readers
  {
    if WritesMemory(a) { StepsByWriting(k, s, a); } else { StepsLocally(k, s, a); }
  }

  lemma QuietSnaps(k: Config, s: State, a: Action)
    requires SnapInv(k, s) && Enabled(k, s, a) && !Moves(a)
    ensures SnapInv(k, Next(k, s, a))
  {
    OthersStay(k, s, a);
    ViewStays(k, s, a);
    QuietKeeps(k, s, Next(k, s, a));
  }

  lemma NextSnaps(k: Config, s: State, a: Action)
    requires Inv(k, s) && SnapInv(k, s) && Enabled(k, s, a)
    ensures SnapInv(k, Next(k, s, a))
  {
    if !Moves(a) { QuietSnaps(k, s, a); }
    else if a.ReadHead? || a.FetchOlder? { ReadSnaps(k, s, a); }
    else {
      match a
      case Refresh(g) => RefreshSnaps(k, s, g);
      case Begin(c, cart) => BeginSnaps(k, s, c, cart);
      case Install(c, r) => InstallFactsHold(k, s, c, r); InstallSnaps(k, s, c, r);
    }
  }

  lemma ReadSnaps(k: Config, s: State, a: Action)
    requires SnapInv(k, s) && Enabled(k, s, a) && (a.ReadHead? || a.FetchOlder?)
    ensures SnapInv(k, Next(k, s, a))
  {
    match a
    case ReadHead(c, r) => ReadKeeps(k, s, DoReadHead(s, c, r), c, r);
    case FetchOlder(c, r) => ReadKeeps(k, s, DoFetchOlder(s, c, r), c, r);
  }

  lemma InitSnaps(k: Config)
    requires ValidConfig(k)
    ensures SnapInv(k, Init(k))
  {}
}
