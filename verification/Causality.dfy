/**
 * Snapshots are causally closed: whoever sees a version sees every version that its writer's snapshot covered, the
 * writer's own earlier ones included.
 */
module Causality {
  import opened Words
  import opened Records
  import opened Protocol
  import opened Core
  import opened Steps
  import opened Snapshots
  import opened Commits
  import opened Theorems

  /** `snap` reaches up to the commit that wrote `w`. */
  predicate Covers(snap: seq<nat>, w: Word) { w.client < |snap| && w.ts <= snap[w.client] }

  predicate AtMost(a: seq<nat>, b: seq<nat>) { |a| <= |b| && forall i :: 0 <= i < |a| ==> a[i] <= b[i] }

  /** At most `b`, but perhaps not at client `c`'s own place. */
  predicate AtMostBut(a: seq<nat>, b: seq<nat>, c: nat) {
    |a| <= |b| && forall i :: 0 <= i < |a| && i != c ==> a[i] <= b[i]
  }

  /** What the writer of `e` saw has been published; with its own timestamp, once `e` is published. */
  ghost predicate Grounded(vector: seq<nat>, e: Entry) {
    var w := e.version.word;
    && AtMostBut(e.snap, vector, w.client)
    && (w.client < |e.snap| ==> e.snap[w.client] == w.ts)
    && (Covers(vector, w) ==> AtMost(e.snap, vector))
  }

  ghost predicate Closed(v: seq<nat>, e: Entry) { Covers(v, e.version.word) ==> AtMost(e.snap, v) }

  /** Client `c`'s snapshot is closed under `e`; under its own versions at all places but its own. */
  ghost predicate ClosedFor(snap: seq<nat>, c: nat, e: Entry) {
    if e.version.word.client == c then AtMostBut(e.snap, snap, c) else Closed(snap, e)
  }

  ghost predicate EntryCausal(s: State, e: Entry) {
    && Grounded(s.vector, e)
    && (forall g :: 0 <= g < |s.readers| ==> Closed(s.readers[g], e))
    && (forall c :: 0 <= c < |s.clients| ==> ClosedFor(s.clients[c].snap, c, e))
  }

  /** A committing client's snapshot holds its own timestamp. */
  predicate Marked(cl: Client, c: nat) { cl.phase == Committing ==> c < |cl.snap| && cl.snap[c] == cl.cts }

  ghost predicate CausalInv(s: State) {
    && (forall r, j :: r in s.hist && 0 <= j < |s.hist[r]| ==> EntryCausal(s, s.hist[r][j]))
    && (forall c :: 0 <= c < |s.clients| ==> Marked(s.clients[c], c))
  }

  // ---------------------------------------------------------------- old versions, step by step

  lemma RefreshCausal(s: State, g: nat, e: Entry)
    requires g < |s.readers| && EntryCausal(s, e)
    ensures EntryCausal(DoRefresh(s, g), e)
  {
    hide Covers, AtMost, AtMostBut, ClosedFor;
  }

  /** The new snapshot is the reader's copy, which has only grown since the client's last one. */
  lemma BeginCausal(k: Config, s: State, c: nat, cart: Cart, e: Entry)
    requires CanBegin(k, s, c, cart) && EntryCausal(s, e) && Trails(k, s, s.clients[c], c)
    ensures EntryCausal(DoBegin(k, s, c, cart), e)
  {
    hide TxnOf, Covers, AtMost, Grounded;
    var t := DoBegin(k, s, c, cart);
    assert Closed(s.readers[k.group[c]], e) && ClosedFor(s.clients[c].snap, c, e);
    forall d | 0 <= d < |t.clients| ensures ClosedFor(t.clients[d].snap, d, e) {
      if d != c { assert ClosedFor(s.clients[d].snap, d, e); }
    }
  }

  lemma SnapAdvances(snap: seq<nat>, vector: seq<nat>, c: nat, ts: nat, e: Entry)
    requires c < |snap| == |vector| && vector[c] < ts && Grounded(vector, e) && ClosedFor(snap, c, e)
    ensures ClosedFor(snap[c := ts], c, e)
  {}

  lemma DecideCausal(s: State, c: nat, e: Entry)
    requires CanDecide(s, c) && EntryCausal(s, e) && |s.clients[c].snap| == |s.vector| && c < |s.vector|
    requires s.vector[c] < s.clients[c].cts
    ensures EntryCausal(DoDecide(s, c), e)
  {
    hide Grounded, Closed, ClosedFor;
    var t := DoDecide(s, c);
    assert ClosedFor(s.clients[c].snap, c, e);
    SnapAdvances(s.clients[c].snap, s.vector, c, s.clients[c].cts, e);
    forall d | 0 <= d < |t.clients| ensures ClosedFor(t.clients[d].snap, d, e) {
      if d != c { assert ClosedFor(s.clients[d].snap, d, e); }
    }
  }

  /** Publishing completes the writer's snapshot: its own place is the only one that was ahead. */
  lemma VectorAdvances(vector: seq<nat>, c: nat, ts: nat, e: Entry)
    requires c < |vector| && vector[c] <= ts && Grounded(vector, e)
    ensures Grounded(vector[c := ts], e)
  {
    var w, v := e.version.word, vector[c := ts];
    if Covers(v, w) {
      forall i | 0 <= i < |e.snap| ensures e.snap[i] <= v[i] {
        if i == w.client { assert e.snap[i] == w.ts; } else { assert e.snap[i] <= vector[i]; }
      }
    }
  }

  lemma PublishCausal(s: State, c: nat, e: Entry)
    requires CanPublish(s, c) && EntryCausal(s, e) && c < |s.vector| && s.vector[c] < s.clients[c].cts
    ensures EntryCausal(DoPublish(s, c), e)
  {
    hide Grounded, Closed, ClosedFor;
    VectorAdvances(s.vector, c, s.clients[c].cts, e);
    var t := DoPublish(s, c);
    forall d | 0 <= d < |t.clients| ensures ClosedFor(t.clients[d].snap, d, e) {
      assert ClosedFor(s.clients[d].snap, d, e);
    }
  }

  /** The other actions leave the oracle, its readers and the snapshots alone. */
  lemma SnapsStay(k: Config, s: State, a: Action)
    requires Enabled(k, s, a) && !a.Refresh? && !a.Begin? && !a.Decide? && !a.Publish?
    ensures
      var t := Next(k, s, a);
      && t.vector == s.vector && t.readers == s.readers && |t.clients| == |s.clients|
      && forall d :: 0 <= d < |s.clients| ==> t.clients[d].snap == s.clients[d].snap
  {
    hide Enabled, Next;
    if WritesMemory(a) { StepsByWriting(k, s, a); } else { StepsLocally(k, s, a); }
  }

  lemma QuietCausal(s: State, t: State, e: Entry)
    requires EntryCausal(s, e) && t.vector == s.vector && t.readers == s.readers && |t.clients| == |s.clients|
    requires forall d :: 0 <= d < |s.clients| ==> t.clients[d].snap == s.clients[d].snap
    ensures EntryCausal(t, e)
  {
    hide Grounded, Closed, ClosedFor;
  }

  lemma EntryStays(k: Config, s: State, a: Action, e: Entry)
    requires Inv(k, s) && Enabled(k, s, a) && EntryCausal(s, e)
    ensures EntryCausal(Next(k, s, a), e)
  {
    hide Inv, EntryCausal, Enabled, Next;
    if a.Refresh? || a.Begin? { SnapshotTaken(k, s, a, e); }
    else if a.Decide? || a.Publish? { TimestampUsed(k, s, a, e); }
    else { SnapsStay(k, s, a); QuietCausal(s, Next(k, s, a), e); }
  }

  lemma SnapshotTaken(k: Config, s: State, a: Action, e: Entry)
    requires Inv(k, s) && Enabled(k, s, a) && EntryCausal(s, e) && (a.Refresh? || a.Begin?)
    ensures EntryCausal(Next(k, s, a), e)
  {
    hide Inv, EntryCausal, StampOk, SnapOk, ClientShape, Trails;
    if a.Refresh? { RefreshCausal(s, a.g, e); }
    else {
      Sizes(k, s);
      ClientFacts(k, s, a.c);
      BeginCausal(k, s, a.c, a.cart, e);
    }
  }

  lemma TimestampUsed(k: Config, s: State, a: Action, e: Entry)
    requires Inv(k, s) && Enabled(k, s, a) && EntryCausal(s, e) && (a.Decide? || a.Publish?)
    ensures EntryCausal(Next(k, s, a), e)
  {
    hide Inv, EntryCausal;
    WriterAhead(k, s, a.c);
    if a.Decide? { DecideCausal(s, a.c, e); } else { PublishCausal(s, a.c, e); }
  }

  lemma WriterAhead(k: Config, s: State, c: nat)
    requires Inv(k, s) && c < |s.clients| && Active(s.clients[c])
    ensures c < |s.vector| == |s.clients[c].snap| && s.vector[c] < s.clients[c].cts
  {
    hide RecordInv, HoldOk, CopyOk, ReaderOk, SnapOk;
    ClientFacts(k, s, c);
  }

  // ---------------------------------------------------------------- new versions

  /** A version being installed is covered by nobody's vector but its writer's snapshot. */
  lemma NewCausal(k: Config, s: State, c: nat, r: Rid, e: Entry)
    requires InstallFacts(k, s, c, r) && e.snap == s.clients[c].snap && Marked(s.clients[c], c)
    requires e.version.word.client == c && e.version.word.ts == s.clients[c].cts && s.clients[c].phase == Committing
    requires forall i :: 0 <= i < k.clients && i != c ==> s.clients[c].snap[i] <= s.vector[i]
    ensures EntryCausal(s, e)
  {
    hide CanInstall, InSnapshot, ValidConfig;
    assert |s.clients[c].snap| == k.clients by { assert ClientShape(k, c, s.clients[c]); }
  }

  lemma InstallCausal(k: Config, s: State, c: nat, r: Rid)
    requires Inv(k, s) && CausalInv(s) && CanInstall(k, s, c, r)
    ensures CausalInv(DoInstall(k, s, c, r))
  {
    hide Inv, InstallFacts, EntryCausal, DoInstall, CanInstall;
    var t := DoInstall(k, s, c, r);
    InstallFactsHold(k, s, c, r);
    InstallEffect(k, s, c, r);
    SnapsStay(k, s, Install(c, r));
    forall q, j | q in t.hist && 0 <= j < |t.hist[q]| ensures EntryCausal(t, t.hist[q][j]) {
      InstalledCausal(k, s, c, r, q, j);
    }
  }

  lemma InstalledCausal(k: Config, s: State, c: nat, r: Rid, q: Rid, j: nat)
    requires Inv(k, s) && CausalInv(s) && CanInstall(k, s, c, r)
    requires q in DoInstall(k, s, c, r).hist && j < |DoInstall(k, s, c, r).hist[q]|
    ensures EntryCausal(DoInstall(k, s, c, r), DoInstall(k, s, c, r).hist[q][j])
  {
    hide Inv, InstallFacts, EntryCausal, DoInstall, CanInstall, Marked;
    var t := DoInstall(k, s, c, r);
    Sizes(k, s);
    InstallFactsHold(k, s, c, r);
    InstallEffect(k, s, c, r);
    SnapsStay(k, s, Install(c, r));
    var e := t.hist[q][j];
    if q != r || j < |s.hist[r]| {
      assert e == s.hist[q][j];
    } else {
      SnapBelowVector(k, s, c);
      NewCausal(k, s, c, r, e);
    }
    QuietCausal(s, t, e);
  }

  // ---------------------------------------------------------------- over whole runs

  lemma MarkedNext(k: Config, s: State, a: Action)
    requires Enabled(k, s, a) && !a.Refresh? && a.c < |s.clients| && Marked(s.clients[a.c], a.c)
    requires |s.clients[a.c].snap| > a.c
    ensures a.c < |Next(k, s, a).clients| && Marked(Next(k, s, a).clients[a.c], a.c)
  {
    if a.Decide? { DecideMarks(s, a.c); }
    else {
      hide Enabled, Next;
      if WritesMemory(a) { StepsByWriting(k, s, a); } else { StepsLocally(k, s, a); }
    }
  }

  lemma DecideMarks(s: State, c: nat)
    requires CanDecide(s, c) && c < |s.clients[c].snap|
    ensures Marked(DoDecide(s, c).clients[c], c)
  {}

  lemma HistoryStays(k: Config, s: State, a: Action)
    requires Enabled(k, s, a) && !a.Install?
    ensures Next(k, s, a).hist == s.hist
  {
    if WritesMemory(a) { StepsByWriting(k, s, a); } else if !a.Refresh? { StepsLocally(k, s, a); }
  }

  lemma NextCausal(k: Config, s: State, a: Action)
    requires Inv(k, s) && CausalInv(s) && Enabled(k, s, a)
    ensures CausalInv(Next(k, s, a))
  {
    hide Inv, CausalInv;
    if a.Install? { InstallCausal(k, s, a.c, a.r); } else { OtherCausal(k, s, a); }
  }

  lemma OtherCausal(k: Config, s: State, a: Action)
    requires Inv(k, s) && CausalInv(s) && Enabled(k, s, a) && !a.Install?
    ensures CausalInv(Next(k, s, a))
  {
    hide Inv, EntryCausal, Marked, Enabled, Next;
    var t := Next(k, s, a);
    HistoryStays(k, s, a);
    forall r, j | r in t.hist && 0 <= j < |t.hist[r]| ensures EntryCausal(t, t.hist[r][j]) {
      EntryStays(k, s, a, s.hist[r][j]);
    }
    MarksStay(k, s, a);
  }

  lemma MarksStay(k: Config, s: State, a: Action)
    requires Inv(k, s) && CausalInv(s) && Enabled(k, s, a)
    ensures forall c :: 0 <= c < |Next(k, s, a).clients| ==> Marked(Next(k, s, a).clients[c], c)
  {
    hide Inv, EntryCausal, Marked;
    if !a.Refresh? {
      OthersStay(k, s, a);
      Sizes(k, s);
      SnapLength(k, s, a.c);
      MarkedNext(k, s, a);
    }
  }

  lemma InitCausal(k: Config)
    ensures CausalInv(Init(k))
  {}

  lemma {:induction false} RunCausal(k: Config, acts: seq<Action>, t: State)
    requires ValidConfig(k) && IsRun(k, Init(k), acts, t)
    ensures CausalInv(t)
    decreases |acts|
  {
    hide Enabled, Next, CausalInv, ValidConfig;
    if acts == [] {
      InitCausal(k);
    } else {
      var last := acts[|acts| - 1];
      var m :| IsRun(k, Init(k), acts[..|acts| - 1], m) && Enabled(k, m, last) && t == Next(k, m, last);
      RunCausal(k, acts[..|acts| - 1], m);
      RunGood(k, acts[..|acts| - 1], m);
      NextCausal(k, m, last);
    }
  }

  /**
   * A client whose snapshot includes a version is, at every place but perhaps its own, at least as far as the snapshot
   * that version was computed from; at its own place too, if the version is another client's.
   */
  lemma SnapshotsAreClosed(k: Config, s: State, c: nat, r: Rid, j: nat, i: nat)
    requires ValidConfig(k) && Reachable(k, s) && c < |s.clients| && r in s.hist && j < |s.hist[r]|
    requires InSnapshot(s.hist[r][j].version.word, c, s.clients[c].snap) && i < |s.hist[r][j].snap|
    requires i != c || s.hist[r][j].version.word.client != c
    ensures i < |s.clients[c].snap| && s.hist[r][j].snap[i] <= s.clients[c].snap[i]
  {
    hide ValidConfig, Grounded;
    var acts :| IsRun(k, Init(k), acts, s);
    RunCausal(k, acts, s);
    assert EntryCausal(s, s.hist[r][j]);
    assert ClosedFor(s.clients[c].snap, c, s.hist[r][j]);
  }

  /** Seeing a version means seeing everything its writer had seen when it committed. */
  lemma ReadsAreCausal(k: Config, s: State, c: nat, r: Rid, j: nat, q: Rid, i: nat)
    requires ValidConfig(k) && Reachable(k, s) && c < |s.clients| && r in s.hist && j < |s.hist[r]|
    requires q in s.hist && i < |s.hist[q]| && Covers(s.hist[r][j].snap, s.hist[q][i].version.word)
    requires InSnapshot(s.hist[r][j].version.word, c, s.clients[c].snap)
    ensures InSnapshot(s.hist[q][i].version.word, c, s.clients[c].snap)
  {
    hide ValidConfig, Reachable;
    var w := s.hist[q][i].version.word;
    if w.client != c { SnapshotsAreClosed(k, s, c, r, j, w.client); }
  }
}
