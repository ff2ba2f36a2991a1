/** What is published is seen: by every transaction that begins after its snapshot reader has refreshed. */
module Freshness {
  import opened Records
  import opened Protocol
  import opened Core
  import opened Steps
  import opened Commits
  import opened Draws
  import opened Theorems
  import opened Causality
  import opened Progress

  /** The oracle's vector, all its copies and the log have only grown from `s` to `t`. */
  ghost predicate Grown(s: State, t: State) {
    && AtMost(s.vector, t.vector) && s.log <= t.log && |t.readers| == |s.readers|
    && forall g :: 0 <= g < |s.readers| ==> AtMost(s.readers[g], t.readers[g])
  }

  lemma StepGrows(k: Config, s: State, a: Action)
    requires Inv(k, s) && Enabled(k, s, a)
    ensures Grown(s, Next(k, s, a))
  {
    hide Inv, Enabled, Next, AtMost;
    LogGrows(k, s, a);
    if a.Publish? { PublishGrows(k, s, a); }
    else if a.Refresh? { RefreshGrows(k, s, a); }
    else { VectorsStay(k, s, a); }
    forall v: seq<nat> ensures AtMost(v, v) { AtMostSelf(v); }
  }

  lemma AtMostSelf(v: seq<nat>)
    ensures AtMost(v, v)
  {}

  lemma PublishGrows(k: Config, s: State, a: Action)
    requires Inv(k, s) && Enabled(k, s, a) && a.Publish?
    ensures AtMost(s.vector, Next(k, s, a).vector) && Next(k, s, a).readers == s.readers
  {
    hide Inv;
    WriterAhead(k, s, a.c);
  }

  lemma RefreshGrows(k: Config, s: State, a: Action)
    requires Inv(k, s) && Enabled(k, s, a) && a.Refresh?
    ensures
      var t := Next(k, s, a);
      && t.vector == s.vector && |t.readers| == |s.readers|
      && forall g :: 0 <= g < |s.readers| ==> AtMost(s.readers[g], t.readers[g])
  {
    hide RecordInv, HoldOk, CopyOk, SnapOk, StampOk, ClientShape;
    assert ReaderOk(k, s, a.g);
  }

  lemma LogGrows(k: Config, s: State, a: Action)
    requires Enabled(k, s, a)
    ensures s.log <= Next(k, s, a).log
  {
    hide DoDecide;
    if a.Decide? { DecideEffect(s, a.c); } else { LogKept(k, s, a); }
  }

  lemma VectorsStay(k: Config, s: State, a: Action)
    requires Enabled(k, s, a) && !a.Refresh? && !a.Publish?
    ensures Next(k, s, a).vector == s.vector && Next(k, s, a).readers == s.readers
  {
    hide Enabled, Next;
    if WritesMemory(a) { StepsByWriting(k, s, a); } else { StepsLocally(k, s, a); }
  }

  lemma GrownOn(s: State, m: State, t: State)
    requires Grown(s, m) && Grown(m, t)
    ensures Grown(s, t)
  {}

  lemma {:induction false} RunGrows(k: Config, s: State, acts: seq<Action>, t: State)
    requires Inv(k, s) && IsRun(k, s, acts, t)
    ensures Inv(k, t) && Grown(s, t)
    decreases |acts|
  {
    hide Inv, Grown, Enabled, Next;
    if acts == [] { GrownSelf(s); }
    else {
      var last := acts[|acts| - 1];
      var m :| IsRun(k, s, acts[..|acts| - 1], m) && Enabled(k, m, last) && t == Next(k, m, last);
      RunGrows(k, s, acts[..|acts| - 1], m);
      StepGrows(k, m, last);
      NextKeeps(k, m, last);
      GrownOn(s, m, t);
    }
  }

  lemma GrownSelf(s: State)
    ensures Grown(s, s)
  {}

  lemma FromGrows(k: Config, s: State, t: State)
    requires Inv(k, s) && From(k, s, t)
    ensures Inv(k, t) && Grown(s, t)
  {
    hide Inv, Grown, IsRun;
    var acts :| IsRun(k, s, acts, t);
    RunGrows(k, s, acts, t);
  }

  /** After a refresh the reader's copy reaches every commit published by then. */
  lemma RefreshReaches(k: Config, s: State, g: nat, m: Commit)
    requires Inv(k, s) && g < |s.readers| && m.client < |s.vector| && m.cts <= s.vector[m.client]
    ensures
      var t := Next(k, s, Refresh(g));
      Inv(k, t) && g < |t.readers| && m.client < |t.readers[g]| && m.cts <= t.readers[g][m.client]
  {
    hide Inv;
    NextKeeps(k, s, Refresh(g));
  }

  /**
   * Freshness. A commit published in `s1` is in the snapshot of every transaction that begins, whatever happens in
   * between, after its snapshot reader has refreshed.
   */
  lemma SeesPublished(k: Config, s1: State, s2: State, s3: State, g: nat, c: nat, cart: Cart, m: Commit)
    requires ValidConfig(k) && Reachable(k, s1) && m in s1.log && m.client < |s1.vector| && m.cts <= s1.vector[m.client]
    requires From(k, s1, s2) && g < |s2.readers| && From(k, Next(k, s2, Refresh(g)), s3)
    requires CanBegin(k, s3, c, cart) && k.group[c] == g
    ensures
      var t := Next(k, s3, Begin(c, cart));
      && c < |t.clients| && m.client < |t.clients[c].snap| && m.cts <= t.clients[c].snap[m.client]
      && forall r :: r in m.writes ==> r in t.hist && Has(t.hist[r], m.client, m.cts)
  {
    hide From, ValidConfig, Inv, Reachable, TxnOf, Has;
    AlwaysGood(k, s1);
    FromGrows(k, s1, s2);
    RefreshReaches(k, s2, g, m);
    var r2 := Next(k, s2, Refresh(g));
    FromGrows(k, r2, s3);
    FromStep(k, s1, s2, Refresh(g));
    ReachOn(k, s1, r2);
    ReachOn(k, r2, s3);
    InstalledSince(k, s1, s2, s3, m);
  }

  lemma InstalledSince(k: Config, s1: State, s2: State, s3: State, m: Commit)
    requires ValidConfig(k) && Reachable(k, s3) && m in s1.log && s1.log <= s2.log <= s3.log
    requires m.client < |s1.vector| && m.cts <= s1.vector[m.client] && AtMost(s1.vector, s2.vector)
    requires AtMost(s2.vector, s3.vector)
    ensures forall r :: r in m.writes ==> r in s3.hist && Has(s3.hist[r], m.client, m.cts)
  {
    hide ValidConfig, Reachable, Has;
    assert m in s2.log && m in s3.log;
    forall r | r in m.writes ensures r in s3.hist && Has(s3.hist[r], m.client, m.cts) {
      PublishedIsInstalled(k, s3, m, r);
    }
  }
}
