/**
 * Order ids over whole runs: when they are gapless, exactly, and that they are then as many as the committed new
 * orders.
 */
module IdRuns {
  import opened Records
  import opened Protocol
  import opened Core
  import opened Steps
  import opened Chains
  import opened OrderIds
  import opened Theorems
  import opened Accounts
  import opened OrderTakers

  /** The ids of district `d` are gapless after every prefix of the run. */
  ghost predicate GaplessThroughout(k: Config, acts: seq<Action>, d: Rid) {
    forall i :: 0 <= i <= |acts| ==> Gapless(After(k, acts[..i]), d)
  }

  /** No action of the run is a stale install on district `d`. */
  ghost predicate NoStaleInstall(k: Config, acts: seq<Action>, d: Rid) {
    forall i :: 0 <= i < |acts| ==> !StaleInstall(After(k, acts[..i]), acts[i], d)
  }

  lemma ThroughoutSplits(k: Config, acts: seq<Action>, d: Rid)
    requires acts != []
    ensures GaplessThroughout(k, acts, d) <==> GaplessThroughout(k, acts[..|acts| - 1], d) && Gapless(After(k, acts), d)
  {
    hide After, Gapless;
    var front := acts[..|acts| - 1];
    forall i | 0 <= i <= |front| ensures front[..i] == acts[..i] {}
    assert acts[..|acts|] == acts;
  }

  lemma StaleSplits(k: Config, acts: seq<Action>, d: Rid)
    requires acts != []
    ensures NoStaleInstall(k, acts, d) <==>
      NoStaleInstall(k, acts[..|acts| - 1], d) && !StaleInstall(After(k, acts[..|acts| - 1]), acts[|acts| - 1], d)
  {
    hide After, StaleInstall;
    var front := acts[..|acts| - 1];
    forall i | 0 <= i < |front| ensures front[..i] == acts[..i] && front[i] == acts[i] {}
  }

  lemma EndsGapless(k: Config, acts: seq<Action>, d: Rid)
    requires GaplessThroughout(k, acts, d)
    ensures Gapless(After(k, acts), d)
  {
    assert acts[..|acts|] == acts;
  }

  /** Over any run, a district's ids are gapless throughout if and only if no action was a stale install on it. */
  lemma {:induction false} GaplessExactly(k: Config, acts: seq<Action>, d: Rid)
    requires Runs(k, acts) && d in k.initial
    ensures GaplessThroughout(k, acts, d) <==> NoStaleInstall(k, acts, d)
    decreases |acts|
  {
    if acts != [] {
      hide Runs, Enabled, Next, Gapless, GaplessThroughout, NoStaleInstall, After, StaleInstall;
      var front, last := acts[..|acts| - 1], acts[|acts| - 1];
      Shorter(k, acts);
      GaplessExactly(k, front, d);
      ThroughoutSplits(k, acts, d);
      StaleSplits(k, acts, d);
      if GaplessThroughout(k, front, d) {
        EndsGapless(k, front, d);
        GaplessStep(k, After(k, front), last, d);
      }
    }
  }

  // ---------------------------------------------------------------- always gapless

  /** With the district counter updated under its lock: all that is needed for gapless ids, over every run. */
  ghost predicate IdInv(k: Config, s: State, d: Rid) {
    OidInv(s) && Gapless(s, d) && forall c :: 0 <= c < |s.clients| ==> HeldFresh(s, c, d)
  }

  lemma NextIds(k: Config, s: State, a: Action, d: Rid)
    requires Inv(k, s) && ChainInv(k, s) && IdInv(k, s, d) && Enabled(k, s, a) && !k.commutative
    ensures IdInv(k, Next(k, s, a), d)
  {
    hide Inv, ChainInv, OidInv, HeldFresh;
    NextOid(k, s, a);
    NeverStale(k, s, a, d);
    GaplessStep(k, s, a, d);
    if !a.Refresh? { OthersStay(k, s, a); }
    forall c | 0 <= c < |Next(k, s, a).clients| ensures HeldFresh(Next(k, s, a), c, d) { NextHeldFresh(k, s, a, c, d); }
  }

  lemma {:induction false} RunIds(k: Config, acts: seq<Action>, t: State, d: Rid)
    requires ValidConfig(k) && IsRun(k, Init(k), acts, t) && d in k.initial && !k.commutative
    ensures IdInv(k, t, d)
    decreases |acts|
  {
    hide Enabled, Next;
    if acts != [] {
      hide IdInv;
      var last := acts[|acts| - 1];
      var m :| IsRun(k, Init(k), acts[..|acts| - 1], m) && Enabled(k, m, last) && t == Next(k, m, last);
      RunIds(k, acts[..|acts| - 1], m, d);
      RunGood(k, acts[..|acts| - 1], m);
      NextIds(k, m, last, d);
    }
  }

  /**
   * Gapless order ids, counter under its lock: after every run the ids a district has assigned are exactly
   * 0, 1, ..., D_NEXT_O_ID - 1, each once and in order, whatever aborted in between; with nobody committing they are
   * as many as the committed new orders on the district.
   */
  lemma LockedIdsGapless(k: Config, s: State, d: Rid)
    requires ValidConfig(k) && Reachable(k, s) && d in k.initial && !k.commutative
    ensures Gapless(s, d) && (NobodyCommits(s) ==> s.mem[d].oid == Called(s.log, OrdersOn(d)))
  {
    hide IsRun, ValidConfig;
    var acts :| IsRun(k, Init(k), acts, s);
    RunIds(k, acts, s, d);
    if NobodyCommits(s) { AsManyIdsAsOrders(k, s, d); }
  }

  lemma {:induction false} RunAdds(k: Config, acts: seq<Action>, t: State, d: Rid)
    requires ValidConfig(k) && IsRun(k, Init(k), acts, t) && d in k.initial && d.District? && k.commutative
    requires forall i :: 0 <= i < |acts| ==> !PaysOn(acts[i], d)
    ensures Gapless(t, d) && NobodyWrites(t, d)
    decreases |acts|
  {
    hide Enabled, Next;
    if acts != [] {
      var last := acts[|acts| - 1];
      var m :| IsRun(k, Init(k), acts[..|acts| - 1], m) && Enabled(k, m, last) && t == Next(k, m, last);
      RunAdds(k, acts[..|acts| - 1], m, d);
      RunGood(k, acts[..|acts| - 1], m);
      AddsOnlyStep(k, m, last, d);
    }
  }

  /**
   * Gapless order ids, counter by atomic adds: the same holds for a district on which the run starts no payment.
   * With payments it need not (see Anomalies).
   */
  lemma AddedIdsGapless(k: Config, acts: seq<Action>, t: State, d: Rid)
    requires ValidConfig(k) && IsRun(k, Init(k), acts, t) && d in k.initial && d.District? && k.commutative
    requires forall i :: 0 <= i < |acts| ==> !PaysOn(acts[i], d)
    ensures Gapless(t, d) && (NobodyCommits(t) ==> t.mem[d].oid == Called(t.log, OrdersOn(d)))
  {
    hide IsRun, ValidConfig;
    RunAdds(k, acts, t, d);
    if NobodyCommits(t) { AsManyIdsAsOrders(k, t, d); }
  }

  lemma AddsOnlyStep(k: Config, s: State, a: Action, d: Rid)
    requires Inv(k, s) && Gapless(s, d) && NobodyWrites(s, d) && Enabled(k, s, a)
    requires d.District? && k.commutative && !PaysOn(a, d)
    ensures Gapless(Next(k, s, a), d) && NobodyWrites(Next(k, s, a), d)
  {
    hide Inv;
    NextNobodyWrites(k, s, a, d);
    GaplessStep(k, s, a, d);
  }
}
