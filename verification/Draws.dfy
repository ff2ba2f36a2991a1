/** Commit timestamps: drawn once each, never zero, growing per client and never shared between clients. */
module Draws {
  import opened Protocol
  import opened Core
  import opened Arithmetic
  import opened Steps
  import opened Commits

  /** The timestamp a client carries is the one of its last draw. */
  predicate CarriesDraw(k: Config, cl: Client, c: nat) {
    Active(cl) ==> cl.epoch >= 2 && cl.cts == Stamp(k, cl.epoch - 1, c)
  }

  ghost predicate Drawn(k: Config, m: Commit) {
    exists e: nat :: e >= 1 && m.cts == Stamp(k, e, m.client)
  }

  /** Each client's commits enter the log with growing timestamps. */
  ghost predicate Growing(log: seq<Commit>) {
    forall i, j :: 0 <= i < j < |log| && log[i].client == log[j].client ==> log[i].cts < log[j].cts
  }

  ghost predicate DrawInv(k: Config, s: State) {
    && (forall c :: 0 <= c < |s.clients| ==> CarriesDraw(k, s.clients[c], c))
    && (forall m :: m in s.log ==> m.client < k.clients && Drawn(k, m))
    && Growing(s.log)
  }

  /** Draws of different clients never collide. */
  lemma DrawsDiffer(k: Config, e: nat, c: nat, f: nat, d: nat)
    requires c < k.clients && d < k.clients && Stamp(k, e, c) == Stamp(k, f, d)
    ensures c == d && e == f
  {
    StampIsProduct(k, e, c);
    StampIsProduct(k, f, d);
    SameRemainder(k.clients, e, c, f, d);
  }

  lemma LogKept(k: Config, s: State, a: Action)
    requires Enabled(k, s, a) && !a.Decide?
    ensures Next(k, s, a).log == s.log
  {
    if WritesMemory(a) { StepsByWriting(k, s, a); } else if !a.Refresh? { StepsLocally(k, s, a); }
  }

  lemma OwnDraw(k: Config, s: State, a: Action)
    requires Inv(k, s) && Enabled(k, s, a) && !a.Refresh? && a.c < |s.clients| && CarriesDraw(k, s.clients[a.c], a.c)
    ensures a.c < |Next(k, s, a).clients| && CarriesDraw(k, Next(k, s, a).clients[a.c], a.c)
  {
    hide Inv, DoValidate, DoDecide, Stamp, CommitTimestamp;
    if a.Validate? { ValidateDraws(k, s, a.c); ValidateDraw(k, s, a.c); }
    else if a.Decide? { DecideEffect(s, a.c); }
    else if WritesMemory(a) { StepsByWriting(k, s, a); }
    else { StepsLocally(k, s, a); }
  }

  lemma ValidateDraw(k: Config, s: State, c: nat)
    requires Inv(k, s) && CanValidate(k, s, c)
    ensures CarriesDraw(k, DoValidate(k, s, c).clients[c], c)
  {
    hide Inv, DoValidate, Stamp, CommitTimestamp;
    Sizes(k, s);
    DrawnStamp(k, s.clients[c].epoch, c);
    ValidateDraws(k, s, c);
    EpochPositive(k, s, c);
  }

  lemma EpochPositive(k: Config, s: State, c: nat)
    requires Inv(k, s) && c < |s.clients|
    ensures s.clients[c].epoch >= 1
  {
    assert ClientShape(k, c, s.clients[c]);
  }

  /** At its decision a client's timestamp is above all it committed before. */
  lemma AboveOwnCommits(s: State, c: nat)
    requires c < |s.clients| && c < |s.vector| && s.clients[c].phase == Locking && s.vector[c] < s.clients[c].cts
    requires forall m :: m in s.log ==> CommitOk(s, m)
    ensures forall i :: 0 <= i < |s.log| && s.log[i].client == c ==> s.log[i].cts < s.clients[c].cts
  {
    forall i | 0 <= i < |s.log| && s.log[i].client == c
      ensures s.log[i].cts < s.clients[c].cts
    {
      assert CommitOk(s, s.log[i]);
    }
  }

  lemma DecideDraw(k: Config, s: State, c: nat)
    requires DrawInv(k, s) && CanDecide(s, c) && c < k.clients
    requires forall i :: 0 <= i < |s.log| && s.log[i].client == c ==> s.log[i].cts < s.clients[c].cts
    ensures DrawInv(k, DoDecide(s, c))
  {
    var cl, t := s.clients[c], DoDecide(s, c);
    assert CarriesDraw(k, cl, c);
    forall m | m in t.log ensures m.client < k.clients && Drawn(k, m) {
      if m !in s.log { assert m.cts == Stamp(k, cl.epoch - 1, c); }
    }
  }

  lemma DecideFacts(k: Config, s: State, c: nat)
    requires Inv(k, s) && LogInv(k, s) && CanDecide(s, c)
    ensures c < k.clients && forall i :: 0 <= i < |s.log| && s.log[i].client == c ==> s.log[i].cts < s.clients[c].cts
  {
    ClientFacts(k, s, c);
    AboveOwnCommits(s, c);
  }

  lemma NextDraws(k: Config, s: State, a: Action)
    requires Inv(k, s) && LogInv(k, s) && DrawInv(k, s) && Enabled(k, s, a)
    ensures DrawInv(k, Next(k, s, a))
  {
    hide Inv, LogInv, CarriesDraw;
    if a.Decide? {
      DecideFacts(k, s, a.c);
      DecideDraw(k, s, a.c);
    } else {
      LogKept(k, s, a);
      if !a.Refresh? { OthersStay(k, s, a); OwnDraw(k, s, a); }
    }
  }

  lemma InitDraws(k: Config)
    ensures DrawInv(k, Init(k))
  {}
}
