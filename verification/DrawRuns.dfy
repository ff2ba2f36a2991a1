/** Every timestamp drawn in a run, the aborted transactions' included: no two are equal. */
module DrawRuns {
  import opened Protocol
  import opened Core
  import opened Steps
  import opened Commits
  import opened Draws
  import opened Theorems

  datatype Draw = Draw(client: nat, ts: nat)

  /** A validation that passes draws a timestamp. */
  predicate DrawsNow(k: Config, s: State, a: Action) {
    a.Validate? && CanValidate(k, s, a.c) && Active(DoValidate(k, s, a.c).clients[a.c])
  }

  /** The timestamps drawn in a run, in the order they are drawn. */
  function AllDrawn(k: Config, acts: seq<Action>): seq<Draw> {
    if acts == [] then []
    else
      var s, last := After(k, acts[..|acts| - 1]), acts[|acts| - 1];
      AllDrawn(k, acts[..|acts| - 1]) + NewDraw(k, s, last)
  }

  function NewDraw(k: Config, s: State, a: Action): seq<Draw> {
    if DrawsNow(k, s, a) then [Draw(a.c, DoValidate(k, s, a.c).clients[a.c].cts)] else []
  }

  /** `p` was drawn in an earlier epoch of its client. */
  ghost predicate PastDraw(k: Config, s: State, p: Draw) {
    p.client < |s.clients| && exists e: nat :: e < s.clients[p.client].epoch && p.ts == Stamp(k, e, p.client)
  }

  /** No timestamp comes twice, and each client's grow. */
  ghost predicate NeverTwice(drawn: seq<Draw>) {
    forall i, j :: 0 <= i < j < |drawn| ==>
      && drawn[i].ts != drawn[j].ts
      && (drawn[i].client == drawn[j].client ==> drawn[i].ts < drawn[j].ts)
  }

  ghost predicate DrawnInv(k: Config, s: State, drawn: seq<Draw>) {
    && NeverTwice(drawn)
    && (forall p :: p in drawn ==> PastDraw(k, s, p))
    && (forall c :: 0 <= c < |s.clients| && Active(s.clients[c]) ==> Draw(c, s.clients[c].cts) in drawn)
    && (forall m :: m in s.log ==> Draw(m.client, m.cts) in drawn)
  }

  // ---------------------------------------------------------------- epochs

  lemma EpochStep(k: Config, s: State, a: Action)
    requires Enabled(k, s, a) && !a.Refresh?
    ensures
      var t := Next(k, s, a);
      && a.c < |s.clients| == |t.clients|
      && t.clients[a.c].epoch == if DrawsNow(k, s, a) then s.clients[a.c].epoch + 1 else s.clients[a.c].epoch
  {
    hide DoValidate;
    OthersStay(k, s, a);
    if a.Validate? { ValidateDraws(k, s, a.c); }
    else if WritesMemory(a) { StepsByWriting(k, s, a); }
    else { StepsLocally(k, s, a); }
  }

  lemma PastStays(k: Config, s: State, a: Action, p: Draw)
    requires Enabled(k, s, a) && PastDraw(k, s, p)
    ensures PastDraw(k, Next(k, s, a), p)
  {
    hide DrawsNow, Stamp;
    if !a.Refresh? { EpochStep(k, s, a); OthersStay(k, s, a); }
  }

  lemma {:induction false} StampGrows(k: Config, e: nat, f: nat, c: nat)
    requires e < f && 1 <= k.clients
    ensures Stamp(k, e, c) < Stamp(k, f, c)
    decreases f
  {
    if e < f - 1 { StampGrows(k, e, f - 1, c); }
  }

  /** A draw of the present epoch is new, and above the client's earlier ones. */
  lemma FreshDraw(k: Config, s: State, c: nat, p: Draw)
    requires |s.clients| == k.clients && c < k.clients && PastDraw(k, s, p)
    ensures
      var ts := Stamp(k, s.clients[c].epoch, c);
      p.ts != ts && (p.client == c ==> p.ts < ts)
  {
    hide Stamp;
    var e: nat :| e < s.clients[p.client].epoch && p.ts == Stamp(k, e, p.client);
    if p.client == c { StampGrows(k, e, s.clients[c].epoch, c); }
    else if p.ts == Stamp(k, s.clients[c].epoch, c) { DrawsDiffer(k, e, p.client, s.clients[c].epoch, c); }
  }

  lemma ExtendNeverTwice(drawn: seq<Draw>, d: Draw)
    requires NeverTwice(drawn) && forall p :: p in drawn ==> p.ts != d.ts && (p.client == d.client ==> p.ts < d.ts)
    ensures NeverTwice(drawn + [d])
  {
    var all := drawn + [d];
    forall i, j | 0 <= i < j < |all|
      ensures all[i].ts != all[j].ts && (all[i].client == all[j].client ==> all[i].ts < all[j].ts)
    {
      assert all[i] == drawn[i] && drawn[i] in drawn;
      if j < |drawn| { assert all[j] == drawn[j]; }
    }
  }

  // ---------------------------------------------------------------- one step

  lemma DrawKeeps(k: Config, s: State, a: Action, drawn: seq<Draw>)
    requires Inv(k, s) && DrawnInv(k, s, drawn) && Enabled(k, s, a) && DrawsNow(k, s, a)
    ensures DrawnInv(k, Next(k, s, a), drawn + NewDraw(k, s, a))
  {
    hide Inv, DoValidate, PastDraw, NeverTwice, CommitTimestamp, Stamp, CanValidate;
    OthersStay(k, s, a);
    var c := a.c;
    var t, d := DoValidate(k, s, c), Draw(c, DoValidate(k, s, c).clients[c].cts);
    assert NewDraw(k, s, a) == [d];
    Sizes(k, s);
    DrawnNow(k, s, c);
    LogKept(k, s, a);
    forall p | p in drawn ensures PastDraw(k, t, p) { PastStays(k, s, a, p); }
    forall p | p in drawn ensures p.ts != d.ts && (p.client == d.client ==> p.ts < d.ts) { FreshDraw(k, s, c, p); }
    ExtendNeverTwice(drawn, d);
  }

  lemma DrawnNow(k: Config, s: State, c: nat)
    requires Inv(k, s) && CanValidate(k, s, c) && Active(DoValidate(k, s, c).clients[c])
    ensures c < k.clients == |s.clients|
    ensures
      var t := DoValidate(k, s, c);
      t.clients[c].cts == Stamp(k, s.clients[c].epoch, c) && PastDraw(k, t, Draw(c, t.clients[c].cts))
  {
    hide Inv, DoValidate, Stamp, CommitTimestamp;
    Sizes(k, s);
    ValidateDraws(k, s, c);
    DrawnStamp(k, s.clients[c].epoch, c);
  }

  lemma NoDrawKeeps(k: Config, s: State, a: Action, drawn: seq<Draw>)
    requires DrawnInv(k, s, drawn) && Enabled(k, s, a) && !DrawsNow(k, s, a)
    ensures DrawnInv(k, Next(k, s, a), drawn + NewDraw(k, s, a))
  {
    hide NeverTwice, PastDraw, DrawsNow, Enabled, Next;
    var t := Next(k, s, a);
    assert drawn + NewDraw(k, s, a) == drawn;
    forall p | p in drawn ensures PastDraw(k, t, p) { PastStays(k, s, a, p); }
    forall c | 0 <= c < |t.clients| && Active(t.clients[c]) ensures Draw(c, t.clients[c].cts) in drawn {
      StillActive(k, s, a, c);
    }
    LoggedDrawn(k, s, a);
  }

  /** Without a draw, who holds a timestamp held it before. */
  lemma StillActive(k: Config, s: State, a: Action, c: nat)
    requires Enabled(k, s, a) && !DrawsNow(k, s, a) && c < |Next(k, s, a).clients| && Active(Next(k, s, a).clients[c])
    ensures c < |s.clients| && Active(s.clients[c]) && Next(k, s, a).clients[c].cts == s.clients[c].cts
  {
    hide DoValidate;
    if !a.Refresh? {
      OthersStay(k, s, a);
      if c == a.c {
        if WritesMemory(a) { StepsByWriting(k, s, a); } else { StepsLocally(k, s, a); }
      }
    }
  }

  lemma LoggedDrawn(k: Config, s: State, a: Action)
    requires Enabled(k, s, a)
    ensures forall m :: m in Next(k, s, a).log ==>
      m in s.log || (m.client < |s.clients| && Active(s.clients[m.client]) && m.cts == s.clients[m.client].cts)
  {
    hide DoDecide;
    if a.Decide? { DecideEffect(s, a.c); } else { LogKept(k, s, a); }
  }

  // ---------------------------------------------------------------- over whole runs

  lemma {:induction false} RunDrawn(k: Config, acts: seq<Action>)
    requires ValidConfig(k) && Runs(k, acts)
    ensures DrawnInv(k, After(k, acts), AllDrawn(k, acts))
    decreases |acts|
  {
    if acts != [] {
      hide ValidConfig, After, Runs, DrawnInv, NewDraw, Enabled, Next, DrawsNow, Good;
      var front, last := acts[..|acts| - 1], acts[|acts| - 1];
      var s := After(k, front);
      Shorter(k, acts);
      RunDrawn(k, front);
      AfterGood(k, front);
      if DrawsNow(k, s, last) { DrawKeeps(k, s, last, AllDrawn(k, front)); }
      else { NoDrawKeeps(k, s, last, AllDrawn(k, front)); }
    }
  }

  lemma AfterGood(k: Config, acts: seq<Action>)
    requires ValidConfig(k) && Runs(k, acts)
    ensures Inv(k, After(k, acts))
  {
    RunGood(k, acts, After(k, acts));
  }

  /** In no run is a timestamp drawn twice, whether its transaction commits or not, and each client's draws grow. */
  lemma DrawnOnce(k: Config, acts: seq<Action>, i: nat, j: nat)
    requires ValidConfig(k) && Runs(k, acts) && i < j < |AllDrawn(k, acts)|
    ensures AllDrawn(k, acts)[i].ts != AllDrawn(k, acts)[j].ts
    ensures AllDrawn(k, acts)[i].client == AllDrawn(k, acts)[j].client ==>
      AllDrawn(k, acts)[i].ts < AllDrawn(k, acts)[j].ts
  {
    hide ValidConfig, Runs, AllDrawn, PastDraw, Active;
    RunDrawn(k, acts);
  }

  /** The draws of a run include the timestamps of all its commits. */
  lemma CommitsAreDrawn(k: Config, acts: seq<Action>, m: Commit)
    requires ValidConfig(k) && Runs(k, acts) && m in After(k, acts).log
    ensures Draw(m.client, m.cts) in AllDrawn(k, acts)
  {
    hide ValidConfig, Runs, AllDrawn, PastDraw, NeverTwice;
    RunDrawn(k, acts);
  }
}
