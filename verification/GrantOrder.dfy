/**
 * When an item's write timestamps follow the serial order of the two-sided protocol: exactly when every grant of its
 * mutex that led to an install met an item older than the transaction.
 */
module GrantOrder {
  import opened Records
  import opened TwoSided

  // ---------------------------------------------------------------- the states along a run

  lemma {:induction false} PrefixRuns(k: Config, acts: seq<Action>, i: nat)
    requires Runs(k, acts) && i <= |acts|
    ensures Runs(k, acts[..i])
    ensures i < |acts| ==>
      Enabled(k, After(k, acts[..i]), acts[i]) && After(k, acts[..i + 1]) == Next(k, After(k, acts[..i]), acts[i])
    decreases |acts|
  {
    hide Runs, Enabled, Next, After;
    if i == |acts| {
      assert acts[..i] == acts;
    } else {
      Shorter(k, acts);
      var front := acts[..|acts| - 1];
      PrefixRuns(k, front, i);
      assert front[..i] == acts[..i];
      if i + 1 < |acts| { assert front[..i + 1] == acts[..i + 1] && front[i] == acts[i]; }
      else { assert acts[..i + 1] == acts && acts[..i] == front; }
    }
  }

  // ---------------------------------------------------------------- grants and installs

  /** In state `s` action `a` is the grant of item `q`'s mutex to thread `c`. */
  predicate GrantsTo(s: State, a: Action, q: Key, c: nat) {
    && a.TryLock? && a.c == c && a.i == q.0 && CanTryLock(s, c, a.i) && KeyOf(s.threads[c], a.i) == q && q in s.items
    && s.items[q].holder.None?
  }

  /** In state `s` action `a` installs a transaction of thread `c` on item `q`. */
  predicate InstallsBy(s: State, a: Action, q: Key, c: nat) {
    && a.Write? && a.c == c && a.i == q.0 && CanWrite(s, c, a.i) && KeyOf(s.threads[c], a.i) == q && q in s.items
    && s.threads[c].phase == Committing
  }

  predicate HeldBy(s: State, q: Key, c: nat) { q in s.items && s.items[q].holder == Some(c) && c < |s.threads| }

  /** Thread `c` got item `q`'s mutex by action `j` and has held it since, up to the state before action `n`. */
  ghost predicate HeldSince(k: Config, acts: seq<Action>, q: Key, c: nat, j: nat, n: nat) {
    && j < n <= |acts| && GrantsTo(After(k, acts[..j]), acts[j], q, c)
    && forall x :: j < x <= n ==> HeldBy(After(k, acts[..x]), q, c)
  }

  /** Action `w` installs under the grant by action `j`. */
  ghost predicate InstallsUnder(k: Config, acts: seq<Action>, q: Key, c: nat, j: nat, w: nat) {
    w < |acts| && HeldSince(k, acts, q, c, j, w) && InstallsBy(After(k, acts[..w]), acts[w], q, c)
  }

  /** The item was older than the transaction when its mutex was granted. */
  predicate MetOlder(k: Config, acts: seq<Action>, q: Key, c: nat, j: nat)
    requires j <= |acts|
  {
    var s := After(k, acts[..j]);
    q in s.items && c < |s.threads| && s.items[q].ts < s.threads[c].cts
  }

  // ---------------------------------------------------------------- what a held item keeps

  /** While a mutex is held, nothing but its holder's write touches the item, and the holder keeps its timestamp. */
  lemma HeldStays(k: Config, s: State, a: Action, q: Key, c: nat)
    requires Inv(k, s) && Enabled(k, s, a) && HeldBy(s, q, c) && !(a.Write? && a.c == c && a.i == q.0)
    ensures HeldBy(Next(k, s, a), q, c) && Next(k, s, a).items[q] == s.items[q]
    ensures Next(k, s, a).threads[c].cts == s.threads[c].cts
  {
    assert LockOk(k, s, q);
    HeldStaysLocal(k, s, a, q, c);
  }

  lemma HeldStaysLocal(k: Config, s: State, a: Action, q: Key, c: nat)
    requires q in s.items && LockOk(k, s, q) && Enabled(k, s, a) && HeldBy(s, q, c)
    requires !(a.Write? && a.c == c && a.i == q.0)
    requires forall d :: 0 <= d < |s.threads| ==> ThreadOk(k, s, s.threads[d])
    ensures HeldBy(Next(k, s, a), q, c) && Next(k, s, a).items[q] == s.items[q]
    ensures Next(k, s, a).threads[c].cts == s.threads[c].cts
  {
    match a
    case Begin(e, cart) =>
    case AskLock(e, i) =>
    case TryLock(e, i) =>
    case HearLock(e, i) =>
    case Decide(e) =>
    case Tell(e, i) =>
    case Write(e, i) => WriteElsewhere(k, s, e, i, q, c);
    case HearAck(e, i) =>
    case Reply(e) =>
  }

  lemma WriteElsewhere(k: Config, s: State, e: nat, i: nat, q: Key, c: nat)
    requires q in s.items && LockOk(k, s, q) && CanWrite(s, e, i) && HeldBy(s, q, c) && !(e == c && i == q.0)
    requires ThreadOk(k, s, s.threads[e])
    ensures DoWrite(s, e, i).items[q] == s.items[q] && DoWrite(s, e, i).threads[c].cts == s.threads[c].cts
  {
    if KeyOf(s.threads[e], i) == q {
      assert StageFits(s.threads[e].phase, s.threads[e].stage[i]);
      if s.threads[e].stage[i].ok { assert Owns(s.threads[e], i); }
    }
  }

  lemma GrantTakes(k: Config, s: State, a: Action, q: Key, c: nat)
    requires Enabled(k, s, a) && GrantsTo(s, a, q, c)
    ensures HeldBy(Next(k, s, a), q, c) && Next(k, s, a).items[q].ts == s.items[q].ts
    ensures Next(k, s, a).threads[c].cts == s.threads[c].cts
  {}

  lemma WriteReleases(k: Config, s: State, a: Action, q: Key, c: nat)
    requires Inv(k, s) && Enabled(k, s, a) && HeldBy(s, q, c) && a.Write? && a.c == c && a.i == q.0
    ensures !HeldBy(Next(k, s, a), q, c)
  {
    assert LockOk(k, s, q) && ThreadOk(k, s, s.threads[c]);
    assert StageFits(s.threads[c].phase, s.threads[c].stage[a.i]);
  }

  /** From a grant on, as long as the mutex is held, the item's timestamp and the holder's stay what they were. */
  lemma {:induction false} SameSince(k: Config, acts: seq<Action>, q: Key, c: nat, j: nat, n: nat)
    requires Runs(k, acts) && HeldSince(k, acts, q, c, j, n)
    ensures
      var s, t := After(k, acts[..j]), After(k, acts[..n]);
      && HeldBy(t, q, c) && q in s.items && c < |s.threads|
      && t.items[q].ts == s.items[q].ts && t.threads[c].cts == s.threads[c].cts
    decreases n
  {
    hide Runs, Enabled, Next, After, Inv;
    PrefixRuns(k, acts, n - 1);
    var m := After(k, acts[..n - 1]);
    if n == j + 1 {
      GrantTakes(k, m, acts[j], q, c);
    } else {
      SameSince(k, acts, q, c, j, n - 1);
      RunInv(k, acts[..n - 1]);
      var a := acts[n - 1];
      if a.Write? && a.c == c && a.i == q.0 { WriteReleases(k, m, a, q, c); } else { HeldStays(k, m, a, q, c); }
    }
  }

  lemma RunInv(k: Config, acts: seq<Action>)
    requires Runs(k, acts)
    ensures Inv(k, After(k, acts))
  {
    hide Inv, After, OutcomeInv;
    RunKeeps(k, acts, After(k, acts));
  }

  /** Only a grant makes a thread the holder. */
  lemma OnlyGrants(k: Config, s: State, a: Action, q: Key, c: nat)
    requires Enabled(k, s, a) && !HeldBy(s, q, c) && HeldBy(Next(k, s, a), q, c) && s.items.Keys == s.hist.Keys
    ensures GrantsTo(s, a, q, c)
  {
    match a
    case Begin(e, cart) =>
    case AskLock(e, i) =>
    case TryLock(e, i) =>
    case HearLock(e, i) =>
    case Decide(e) =>
    case Tell(e, i) =>
    case Write(e, i) =>
    case HearAck(e, i) =>
    case Reply(e) =>
  }

  lemma SameHeld(k: Config, front: seq<Action>, acts: seq<Action>, q: Key, c: nat, j: nat, n: nat)
    requires acts != [] && front == acts[..|acts| - 1] && n <= |front|
    ensures HeldSince(k, acts, q, c, j, n) <==> HeldSince(k, front, q, c, j, n)
  {
    hide After, GrantsTo, HeldBy;
    forall x | 0 <= x <= |front| ensures acts[..x] == front[..x] {}
  }

  /** Every holder has its mutex by a grant. */
  lemma {:induction false} GrantExists(k: Config, acts: seq<Action>, q: Key, c: nat) returns (j: nat)
    requires Runs(k, acts) && HeldBy(After(k, acts), q, c)
    ensures HeldSince(k, acts, q, c, j, |acts|)
    decreases |acts|
  {
    if acts == [] {
      NobodyAtStart(k, q, c);
    } else {
      hide Runs, Enabled, Next, After, Inv, HeldSince, HeldBy, GrantsTo;
      var front, last := acts[..|acts| - 1], acts[|acts| - 1];
      Shorter(k, acts);
      if HeldBy(After(k, front), q, c) {
        j := GrantExists(k, front, q, c);
        SameHeld(k, front, acts, q, c, j, |front|);
        HeldLonger(k, acts, q, c, j);
      } else {
        j := |front|;
        SameKeys(k, front);
        OnlyGrants(k, After(k, front), last, q, c);
        JustGranted(k, acts, q, c);
      }
    }
  }

  lemma HeldLonger(k: Config, acts: seq<Action>, q: Key, c: nat, j: nat)
    requires acts != [] && HeldSince(k, acts, q, c, j, |acts| - 1) && HeldBy(After(k, acts), q, c)
    ensures HeldSince(k, acts, q, c, j, |acts|)
  {
    hide After, HeldBy, GrantsTo;
    assert acts[..|acts|] == acts;
  }

  lemma JustGranted(k: Config, acts: seq<Action>, q: Key, c: nat)
    requires acts != [] && GrantsTo(After(k, acts[..|acts| - 1]), acts[|acts| - 1], q, c)
    requires HeldBy(After(k, acts), q, c)
    ensures HeldSince(k, acts, q, c, |acts| - 1, |acts|)
  {
    hide After, HeldBy, GrantsTo;
    assert acts[..|acts|] == acts;
  }

  lemma NobodyAtStart(k: Config, q: Key, c: nat)
    ensures !HeldBy(After(k, []), q, c)
  {}

  lemma SameKeys(k: Config, acts: seq<Action>)
    requires Runs(k, acts)
    ensures After(k, acts).items.Keys == After(k, acts).hist.Keys == k.initial.Keys
  {
    hide After;
    RunInv(k, acts);
  }

  // ---------------------------------------------------------------- the theorems

  /** An item's installs, by their commit timestamps, in increasing order. */
  predicate Rising(h: seq<Decision>) {
    forall x, y :: 0 <= x < y < |h| ==> h[x].cts < h[y].cts
  }

  ghost predicate AllMetOlder(k: Config, acts: seq<Action>, q: Key) {
    forall c, j, w :: InstallsUnder(k, acts, q, c, j, w) ==> MetOlder(k, acts, q, c, j)
  }

  /**
   * An install lowers the item's write timestamp if and only if the item was the newer one when its mutex was
   * granted.
   */
  lemma LowersExactly(k: Config, acts: seq<Action>, q: Key, c: nat, j: nat, w: nat)
    requires Runs(k, acts) && InstallsUnder(k, acts, q, c, j, w)
    ensures
      var g, s, t := After(k, acts[..j]), After(k, acts[..w]), After(k, acts[..w + 1]);
      && q in g.items && c < |g.threads| && q in s.items && q in t.items
      && (t.items[q].ts < s.items[q].ts <==> g.threads[c].cts < g.items[q].ts)
  {
    hide Runs, Enabled, After;
    SameSince(k, acts, q, c, j, w);
    PrefixRuns(k, acts, w);
    InstallStamps(k, After(k, acts[..w]), acts[w], q, c);
  }

  lemma InstallStamps(k: Config, s: State, a: Action, q: Key, c: nat)
    requires Enabled(k, s, a) && InstallsBy(s, a, q, c)
    ensures q in Next(k, s, a).items && Next(k, s, a).items[q].ts == s.threads[c].cts
    ensures q in s.hist && q in Next(k, s, a).hist
    ensures Next(k, s, a).hist[q] == s.hist[q] + [Decision(c, s.threads[c].cts, s.threads[c].cart)]
  {}

  lemma NoInstall(k: Config, s: State, a: Action, q: Key)
    requires Enabled(k, s, a) && q in s.hist && q in s.items && !InstallsBy(s, a, q, a.c)
    ensures q in Next(k, s, a).hist && Next(k, s, a).hist[q] == s.hist[q]
  {
    match a
    case Begin(e, cart) =>
    case AskLock(e, i) =>
    case TryLock(e, i) =>
    case HearLock(e, i) =>
    case Decide(e) =>
    case Tell(e, i) =>
    case Write(e, i) =>
    case HearAck(e, i) =>
    case Reply(e) =>
  }

  lemma RisingGrows(h: seq<Decision>, d: Decision)
    ensures Rising(h + [d]) <==> Rising(h) && (h == [] || h[|h| - 1].cts < d.cts)
  {
    var g := h + [d];
    if Rising(g) {
      forall x, y | 0 <= x < y < |h| ensures h[x].cts < h[y].cts { assert g[x].cts < g[y].cts; }
      if h != [] { assert g[|h| - 1].cts < g[|h|].cts; }
    }
  }

  lemma SameInstalls(k: Config, front: seq<Action>, acts: seq<Action>, q: Key, c: nat, j: nat, w: nat)
    requires acts != [] && front == acts[..|acts| - 1] && w < |front|
    ensures InstallsUnder(k, acts, q, c, j, w) <==> InstallsUnder(k, front, q, c, j, w)
    ensures j < w ==> (MetOlder(k, acts, q, c, j) <==> MetOlder(k, front, q, c, j))
  {
    SameHeld(k, front, acts, q, c, j, w);
    hide After, HeldSince, InstallsBy;
    assert acts[..w] == front[..w];
    if j < w { assert acts[..j] == front[..j]; }
  }

  /** The last action aside, a run and its front speak of the same installs. */
  lemma AllMetSplits(k: Config, acts: seq<Action>, q: Key)
    requires acts != []
    ensures AllMetOlder(k, acts, q) <==>
      AllMetOlder(k, acts[..|acts| - 1], q)
      && forall c, j :: InstallsUnder(k, acts, q, c, j, |acts| - 1) ==> MetOlder(k, acts, q, c, j)
  {
    hide InstallsUnder, MetOlder;
    var front := acts[..|acts| - 1];
    forall c, j, w | 0 <= c && 0 <= j && 0 <= w < |front|
      ensures InstallsUnder(k, acts, q, c, j, w) <==> InstallsUnder(k, front, q, c, j, w)
      ensures j < w ==> (MetOlder(k, acts, q, c, j) <==> MetOlder(k, front, q, c, j))
    {
      SameInstalls(k, front, acts, q, c, j, w);
    }
    InstallBounds(k, q);
  }

  lemma InstallBounds(k: Config, q: Key)
    ensures forall acts: seq<Action>, c: nat, j: nat, w: nat :: InstallsUnder(k, acts, q, c, j, w) ==> j < w < |acts|
  {}

  /** What one install means for the order: the last stamp is the item's, and the grant met the same item. */
  lemma InstallMeets(k: Config, acts: seq<Action>, q: Key, c: nat)
    requires acts != [] && Runs(k, acts) && q in k.initial
    requires InstallsBy(After(k, acts[..|acts| - 1]), acts[|acts| - 1], q, c)
    ensures
      var front := acts[..|acts| - 1];
      var s, n := After(k, front), |front|;
      && q in s.items && c < |s.threads|
      && (s.items[q].ts < s.threads[c].cts <==>
          forall d, j :: InstallsUnder(k, acts, q, d, j, n) ==> MetOlder(k, acts, q, d, j))
  {
    var front := acts[..|acts| - 1];
    var s, n := After(k, front), |front|;
    hide After, Runs, Enabled, Next, HeldSince;
    Shorter(k, acts);
    InstallerHolds(k, front, acts[n], q, c);
    var g := GrantExists(k, front, q, c);
    SameHeld(k, front, acts, q, c, g, n);
    assert InstallsUnder(k, acts, q, c, g, n);
    forall d, j | InstallsUnder(k, acts, q, d, j, n)
      ensures MetOlder(k, acts, q, d, j) <==> s.items[q].ts < s.threads[c].cts
    {
      SameSince(k, acts, q, d, j, n);
    }
  }

  lemma InstallerHolds(k: Config, acts: seq<Action>, a: Action, q: Key, c: nat)
    requires Runs(k, acts) && InstallsBy(After(k, acts), a, q, c)
    ensures HeldBy(After(k, acts), q, c)
  {
    hide Runs, After;
    RunInv(k, acts);
    var s := After(k, acts);
    assert LockOk(k, s, q) && ThreadOk(k, s, s.threads[c]);
    assert StageFits(s.threads[c].phase, s.threads[c].stage[a.i]);
    assert Owns(s.threads[c], a.i);
  }

  lemma StampOfItem(k: Config, acts: seq<Action>, q: Key, c: nat)
    requires Runs(k, acts) && q in k.initial && c < |After(k, acts).threads| && After(k, acts).threads[c].phase != Idle
    ensures
      var s := After(k, acts);
      && q in s.items && q in s.hist
      && (s.items[q].ts < s.threads[c].cts <==> s.hist[q] == [] || s.hist[q][|s.hist[q]| - 1].cts < s.threads[c].cts)
  {
    hide Runs, After;
    RunInv(k, acts);
    var s := After(k, acts);
    assert ItemOk(k, s, q) && ThreadOk(k, s, s.threads[c]);
  }

  /**
   * An item's write timestamps follow its serial order, in any run, if and only if every grant of its mutex that led
   * to an install met an item older than the transaction.
   */
  lemma {:induction false} FollowsExactly(k: Config, acts: seq<Action>, q: Key)
    requires Runs(k, acts) && q in k.initial
    ensures q in After(k, acts).hist && (Rising(After(k, acts).hist[q]) <==> AllMetOlder(k, acts, q))
    decreases |acts|
  {
    if acts == [] {
      InstallBounds(k, q);
    } else {
      hide Runs, After, Rising, AllMetOlder;
      Shorter(k, acts);
      FollowsExactly(k, acts[..|acts| - 1], q);
      FollowsOn(k, acts, q);
    }
  }

  lemma FollowsOn(k: Config, acts: seq<Action>, q: Key)
    requires Runs(k, acts) && q in k.initial && acts != []
    requires
      var front := acts[..|acts| - 1];
      q in After(k, front).hist && (Rising(After(k, front).hist[q]) <==> AllMetOlder(k, front, q))
    ensures q in After(k, acts).hist && (Rising(After(k, acts).hist[q]) <==> AllMetOlder(k, acts, q))
  {
    hide Runs, After, Enabled, Next, Rising, AllMetOlder, InstallsBy;
    var front, last := acts[..|acts| - 1], acts[|acts| - 1];
    var s := After(k, front);
    Shorter(k, acts);
    SameKeys(k, front);
    AllMetSplits(k, acts, q);
    if InstallsBy(s, last, q, last.c) {
      InstallMeets(k, acts, q, last.c);
      Installing(s, last, q, last.c);
      StampOfItem(k, front, q, last.c);
      InstallStamps(k, s, last, q, last.c);
      RisingGrows(s.hist[q], Decision(last.c, s.threads[last.c].cts, s.threads[last.c].cart));
    } else {
      NoInstall(k, s, last, q);
      NobodyInstalls(k, acts, q);
    }
  }

  lemma Installing(s: State, a: Action, q: Key, c: nat)
    requires InstallsBy(s, a, q, c)
    ensures c < |s.threads| && s.threads[c].phase != Idle
  {}

  lemma NobodyInstalls(k: Config, acts: seq<Action>, q: Key)
    requires acts != []
    requires
      var a, s := acts[|acts| - 1], After(k, acts[..|acts| - 1]);
      !InstallsBy(s, a, q, a.c)
    ensures
      var n := |acts| - 1;
      forall c, j :: !InstallsUnder(k, acts, q, c, j, n)
  {
    hide After;
  }
}
