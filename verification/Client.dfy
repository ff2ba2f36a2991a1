/**
 * A client's transaction as the sequential program it is: snapshot, reads, checks, locks, then revert or append,
 * install and publish, with the other clients' steps coming in between any two of its own.
 */
module Client {
  import opened Words
  import opened Records
  import opened Protocol
  import opened Core
  import opened Steps
  import opened Commits
  import opened Carts
  import opened Theorems
  import opened Lookups
  import opened OrderTakers
  import opened Timestamps

  // ---------------------------------------------------------------- local computations

  /** The visibility test, in the order the flags and the vector are looked at. */
  method IsRecordAccessible(w: Word, me: nat, snap: seq<nat>) returns (ok: bool)
    requires w.client < |snap|
    ensures ok <==> Accessible(w, me, snap)
    ensures ok <==> !w.locked && !w.deleted && (w.client == me || w.ts <= snap[w.client])
  {
    FlagTests(w.deleted, w.locked);
    if IsLocked(Status(w.deleted, w.locked)) { return false; }
    if IsDeleted(Status(w.deleted, w.locked)) { return false; }
    if w.client == me { return true; }
    if w.ts > snap[w.client] { return false; }
    return true;
  }

  /** The search for the newest accessible entry of a timestamp list. */
  method FindValidVersion(list: seq<Word>, me: nat, snap: seq<nat>) returns (p: int)
    requires forall i :: 0 <= i < |list| ==> list[i].client < |snap|
    ensures p == FindValid(list, me, snap)
  {
    for i := 0 to |list|
      invariant forall j :: 0 <= j < i ==> !Accessible(list[j], me, snap)
    {
      var ok := IsRecordAccessible(list[i], me, snap);
      if ok { return i; }
    }
    return -1;
  }

  /** The timestamp list is shifted right in place, which drops its last entry, and the old head's word put in front. */
  method UpdatePointers(list: array<Word>, w: Word)
    requires list.Length >= 1
    modifies list
    ensures list[..] == Shifted(old(list[..]), w)
  {
    var i := list.Length - 2;
    while i >= 0
      invariant -1 <= i <= list.Length - 2
      invariant forall j :: 0 <= j <= i ==> list[j] == old(list[j])
      invariant forall j :: i + 2 <= j < list.Length ==> list[j] == old(list[j - 1])
    {
      list[i + 1] := list[i];
      i := i - 1;
    }
    list[0] := w;
  }

  // ---------------------------------------------------------------- what other clients leave alone

  ghost predicate Undisturbed(s: State, t: State, c: nat) {
    && c < |s.clients| == |t.clients| && t.clients[c] == s.clients[c] && |t.vector| == |s.vector|
    && (c < |s.vector| ==> t.vector[c] == s.vector[c])
    && NoCommit(s.log, t.log, c) && (forall m :: m in s.log ==> m in t.log)
  }

  /** Client `c` has committed nothing new. */
  ghost predicate NoCommit(before: seq<Commit>, after: seq<Commit>, c: nat) {
    forall m :: m in after && m.client == c ==> m in before
  }

  lemma OtherStep(k: Config, s: State, a: Action, c: nat)
    requires Enabled(k, s, a) && c < |s.clients| && !ActsAs(a, c)
    ensures Undisturbed(s, Next(k, s, a), c)
  {
    hide Enabled, Next;
    if a.Publish? { PublishElsewhere(k, s, a, c); }
    else if a.Decide? { DecideElsewhere(k, s, a, c); }
    else {
      SameVector(k, s, a);
      if a.Refresh? { RefreshElsewhere(k, s, a); } else { OthersStay(k, s, a); }
    }
  }

  lemma PublishElsewhere(k: Config, s: State, a: Action, c: nat)
    requires Enabled(k, s, a) && a.Publish? && a.c != c && c < |s.clients|
    ensures Undisturbed(s, Next(k, s, a), c)
  {}

  lemma DecideElsewhere(k: Config, s: State, a: Action, c: nat)
    requires Enabled(k, s, a) && a.Decide? && a.c != c && c < |s.clients|
    ensures Undisturbed(s, Next(k, s, a), c)
  {
    hide DoDecide;
    DecideEffect(s, a.c);
  }

  lemma RefreshElsewhere(k: Config, s: State, a: Action)
    requires Enabled(k, s, a) && a.Refresh?
    ensures Next(k, s, a).clients == s.clients
  {}

  lemma SameVector(k: Config, s: State, a: Action)
    requires Enabled(k, s, a) && !a.Publish? && !a.Decide?
    ensures Next(k, s, a).vector == s.vector && Next(k, s, a).log == s.log
  {
    if WritesMemory(a) { StepsByWriting(k, s, a); } else if !a.Refresh? { StepsLocally(k, s, a); }
  }

  // ---------------------------------------------------------------- the next verb is always possible

  /** A state some run has reached. */
  ghost predicate Ran(k: Config, acts: seq<Action>, s: State) { ValidConfig(k) && IsRun(k, Init(k), acts, s) }

  lemma ReadReady(k: Config, acts: seq<Action>, s: State, c: nat, r: Rid)
    requires Ran(k, acts, s) && At(s, c, Reading) && r in s.clients[c].txn.readSet && r !in s.clients[c].copies
    ensures CanReadHead(s, c, r)
  {
    RunGood(k, acts, s);
    ClientFacts(k, s, c);
    Facts(k, s, c, r);
  }

  lemma ListReady(k: Config, acts: seq<Action>, s: State, c: nat, r: Rid)
    requires Ran(k, acts, s) && At(s, c, Reading) && r in s.clients[c].txn.listSet && r !in s.clients[c].lists
    requires s.clients[c].txn.readSet <= s.clients[c].copies.Keys
    ensures r in s.mem && CanReadList(k, s, c, r, s.mem[r].list)
  {
    RunGood(k, acts, s);
    ClientFacts(k, s, c);
    Facts(k, s, c, r);
  }

  lemma FetchReady(k: Config, acts: seq<Action>, s: State, c: nat, r: Rid)
    requires Ran(k, acts, s) && At(s, c, Fetching) && r in s.clients[c].pending
    requires r in s.clients[c].lists && FindValid(s.clients[c].lists[r], c, s.clients[c].snap) >= 0
    ensures CanFetchOlder(s, c, r)
  {
    RunGood(k, acts, s);
    ClientFacts(k, s, c);
    Facts(k, s, c, r);
  }

  lemma StageReady(k: Config, acts: seq<Action>, s: State, c: nat, r: Rid)
    requires Ran(k, acts, s) && c < |s.clients| && Active(s.clients[c]) && r in s.clients[c].stage
    ensures r in s.mem && r in s.hist && r in s.orderIds && r in s.clients[c].txn.writes
    ensures r in s.clients[c].copies && r in s.clients[c].lists
  {
    RunGood(k, acts, s);
    ClientFacts(k, s, c);
  }

  lemma CounterReady(k: Config, acts: seq<Action>, s: State, c: nat)
    requires Ran(k, acts, s) && At(s, c, Committing) && s.clients[c].txn.counter.Some?
    ensures s.clients[c].txn.counter.value in s.mem && s.clients[c].txn.counter.value in s.orderIds
  {
    RunGood(k, acts, s);
    ClientFacts(k, s, c);
  }

  lemma RingReady(k: Config, acts: seq<Action>, s: State, c: nat, r: Rid)
    requires Ran(k, acts, s) && Holds(s, c, r) && r in s.mem
    ensures r in s.clients[c].copies && s.clients[c].copies[r].version.word.offset < |s.mem[r].ring|
  {
    hide ValidConfig, Inv, RecordInv, HistOk, CellOk, PubOk, CopyOk, StampOk, SnapOk, ReaderOk, ClientShape, LockWord;
    RunGood(k, acts, s);
    Sizes(k, s);
    Facts(k, s, c, r);
    HeadInRing(k, s, r);
  }

  lemma HeadInRing(k: Config, s: State, r: Rid)
    requires r in s.mem && r in s.hist && RecordInv(k, s, r) && 1 <= k.versions
    ensures s.hist[r] != [] && Last(s.hist[r]).version.word.offset < |s.mem[r].ring|
  {
    var h := s.hist[r];
    assert WordOk(k, h[|h| - 1].version.word, |h| - 1);
    SlotInRange(k, |h| - 1);
  }

  lemma VectorReady(k: Config, acts: seq<Action>, s: State, c: nat)
    requires Ran(k, acts, s) && c < |s.clients|
    ensures c < |s.clients[c].snap| && c < |s.vector|
    ensures Active(s.clients[c]) ==> s.clients[c].stage.Keys == s.clients[c].txn.writes.Keys
  {
    RunGood(k, acts, s);
    ClientFacts(k, s, c);
  }

  // ---------------------------------------------------------------- what the cart asks for

  lemma CartBound(k: Config, acts: seq<Action>, s: State, c: nat)
    requires Ran(k, acts, s) && c < |s.clients|
    ensures Bound(k, s.clients[c])
  {
    hide IsRun, ValidConfig, Inv, Bound;
    RunGood(k, acts, s);
  }

  lemma CartExactly(k: Config, acts: seq<Action>, s: State, c: nat)
    requires Ran(k, acts, s) && c < |s.clients| && s.clients[c].phase != Idle
    ensures forall r :: r in s.clients[c].txn.readSet <==> Touches(s.clients[c].cart, r)
    ensures forall r :: r in s.clients[c].txn.writes <==> Changes(k.commutative, s.clients[c].cart, r)
  {
    hide Ran, TxnOf, Touches, Changes, WellFormed;
    CartBound(k, acts, s, c);
    forall r
      ensures r in s.clients[c].txn.readSet <==> Touches(s.clients[c].cart, r)
      ensures r in s.clients[c].txn.writes <==> Changes(k.commutative, s.clients[c].cart, r)
    {
      TxnOfExact(k.commutative, s.clients[c].cart, r);
    }
  }

  lemma ReadExactly(k: Config, acts: seq<Action>, s: State, c: nat)
    requires Ran(k, acts, s) && CanCheckVersions(s, c)
    ensures forall r :: r in s.clients[c].copies <==> Touches(s.clients[c].cart, r)
  {
    hide IsRun, ValidConfig, Touches, Changes;
    CartExactly(k, acts, s, c);
    RunGood(k, acts, s);
    ClientFacts(k, s, c);
  }

  /** Before exhaustion the commit timestamp is the epoch times the number of clients, plus the client's id. */
  lemma DrawExactly(k: Config, acts: seq<Action>, s: State, c: nat)
    requires Ran(k, acts, s) && CanValidate(k, s, c)
    ensures CommitTimestamp(k, s.clients[c].epoch, c) == s.clients[c].epoch * k.clients + c
  {
    hide Ran, CommitTimestamp;
    AllClients(k, acts, s);
    DrawIsProduct(k, s.clients[c].epoch, c);
  }

  lemma AllClients(k: Config, acts: seq<Action>, s: State)
    requires Ran(k, acts, s)
    ensures |s.clients| == k.clients
  {
    hide IsRun, ValidConfig, Inv;
    RunGood(k, acts, s);
    Sizes(k, s);
  }

  // ---------------------------------------------------------------- older versions

  /** Some time since the `from`-th action, record `r`'s ring held version `v` at slot `p`. */
  ghost predicate InRing(k: Config, acts: seq<Action>, from: nat, r: Rid, p: int, v: Version) {
    exists j :: from <= j <= |acts| && HeldAt(After(k, acts[..j]), r, p, v)
  }

  predicate HeldAt(s: State, r: Rid, p: int, v: Version) {
    r in s.mem && 0 <= p < |s.mem[r].ring| && s.mem[r].ring[p] == v
  }

  /** Client `cm`'s copy of `r` is a version its ring held at the position that the search of `cl`'s list finds. */
  ghost predicate Replaced(k: Config, acts: seq<Action>, from: nat, cl: Client, cm: Client, c: nat, r: Rid) {
    && r in cl.lists && r in cm.copies
    && InRing(k, acts, from, r, FindValid(cl.lists[r], c, cl.snap), cm.copies[r].version)
  }

  lemma FetchEffect(s: State, c: nat, r: Rid)
    requires CanFetchOlder(s, c, r)
    ensures
      var cl, t := s.clients[c], DoFetchOlder(s, c, r);
      && |t.clients| == |s.clients| && t.log == s.log
      && t.clients[c] == cl.(copies := t.clients[c].copies, pending := cl.pending - {r})
  {
    hide FindValid, LastIndexOf;
  }

  lemma RingNow(k: Config, acts: seq<Action>, s: State, from: nat, a: Action, r: Rid, p: nat)
    requires Ran(k, acts, s) && from <= |acts| && r in s.mem && p < |s.mem[r].ring|
    ensures InRing(k, acts + [a], from, r, p, s.mem[r].ring[p])
  {
    RunIsAfter(k, acts, s);
    assert (acts + [a])[..|acts|] == acts;
    assert HeldAt(After(k, (acts + [a])[..|acts|]), r, p, s.mem[r].ring[p]);
  }

  lemma InRingGrows(k: Config, acts: seq<Action>, more: seq<Action>, from: nat, start: nat, r: Rid, p: int, v: Version)
    requires acts <= more && from <= start && InRing(k, acts, start, r, p, v)
    ensures InRing(k, more, from, r, p, v)
  {
    hide After;
    var j :| start <= j <= |acts| && HeldAt(After(k, acts[..j]), r, p, v);
    assert more[..j] == acts[..j];
  }

  /** Of `first`'s copies, those no longer pending at `cm` are replaced, and the others as they were. */
  ghost predicate AllReplaced(k: Config, acts: seq<Action>, from: nat, first: Client, cm: Client, c: nat) {
    && cm.copies.Keys == first.copies.Keys
    && forall r :: r in cm.copies ==>
         if r in first.pending && r !in cm.pending then Replaced(k, acts, from, first, cm, c, r)
         else cm.copies[r] == first.copies[r]
  }

  lemma NoneReplaced(k: Config, acts: seq<Action>, cl: Client, c: nat)
    ensures AllReplaced(k, acts, |acts|, cl, cl, c)
  {}

  lemma OneMoreReplaced(k: Config, acts: seq<Action>, more: seq<Action>, from: nat, first: Client, cl: Client,
                        cm: Client, c: nat, r: Rid)
    requires AllReplaced(k, acts, from, first, cl, c) && acts <= more && from <= |acts|
    requires r in cl.copies && r in cm.copies && cm.copies == cl.copies[r := cm.copies[r]]
    requires r in first.pending && r in first.lists && cl.lists == first.lists && cl.snap == first.snap
    requires cm.pending == cl.pending - {r}
    requires InRing(k, more, |acts|, r, FindValid(cl.lists[r], c, cl.snap), cm.copies[r].version)
    ensures AllReplaced(k, more, from, first, cm, c)
  {
    hide InRing, FindValid;
    InRingGrows(k, more, more, from, |acts|, r, FindValid(cl.lists[r], c, cl.snap), cm.copies[r].version);
    forall q | q != r && Replaced(k, acts, from, first, cl, c, q) ensures Replaced(k, more, from, first, cm, c, q) {
      InRingGrows(k, acts, more, from, from, q, FindValid(first.lists[q], c, first.snap), cl.copies[q].version);
    }
  }

  /** The records still to do are at stage `todo`, the others at stage `done`. */
  predicate Staged(cl: Client, rs: set<Rid>, todo: Stage, done: Stage) {
    forall r :: r in cl.stage ==> cl.stage[r] == if r in rs then todo else done
  }

  lemma TryLockEffect(s: State, c: nat, r: Rid)
    requires CanTryLock(s, c, r)
    ensures
      var t := DoTryLock(s, c, r);
      && |t.clients| == |s.clients| && t.log == s.log
      && t.clients[c] == s.clients[c].(stage := t.clients[c].stage, before := t.clients[c].before)
      && t.clients[c].stage == s.clients[c].stage[r := t.clients[c].stage[r]] && t.clients[c].stage[r] != ToLock
  {}

  /** Client `c` moves to stage `st` with record `r`, and no client changes otherwise. */
  predicate MovesOn(s: State, t: State, c: nat, r: Rid, st: Stage) {
    && c < |s.clients| && t.log == s.log
    && t.clients == s.clients[c := s.clients[c].(stage := s.clients[c].stage[r := st])]
  }

  lemma RevertEffect(s: State, c: nat, r: Rid)
    requires CanRevert(s, c, r)
    ensures MovesOn(s, DoRevert(s, c, r), c, r, Reverted)
  {}

  lemma AppendListEffect(s: State, c: nat, r: Rid)
    requires CanAppendList(s, c, r)
    ensures MovesOn(s, DoAppendList(s, c, r), c, r, Listed)
  {}

  lemma AppendRingEffect(s: State, c: nat, r: Rid)
    requires CanAppendRing(s, c, r)
    ensures MovesOn(s, DoAppendRing(s, c, r), c, r, Ringed)
  {}

  lemma InstallEffect(k: Config, s: State, c: nat, r: Rid)
    requires CanInstall(k, s, c, r)
    ensures MovesOn(s, DoInstall(k, s, c, r), c, r, Installed)
  {}

  /** A committing client that has moved on with some of its records, and nothing else. */
  predicate SameCommitting(cl: Client, cm: Client) {
    cl.phase == Committing && cm == cl.(stage := cm.stage) && cm.stage.Keys == cl.stage.Keys
  }

  // ---------------------------------------------------------------- the transaction

  class Cluster {
    const k: Config
    const others: nat -> seq<Action>     // what is offered to the other clients and the snapshot readers at each tick
    var s: State
    var tick: nat
    ghost var acts: seq<Action>          // everything that has happened

    ghost predicate Valid()
      reads this
    {
      Ran(k, acts, s)
    }

    constructor (k: Config, others: nat -> seq<Action>)
      requires ValidConfig(k)
      ensures Valid() && this.k == k && this.others == others && s == Init(k)
    {
      this.k, this.others, s, tick, acts := k, others, Init(k), 0, [];
    }

    /** One action takes effect. */
    method Perform(a: Action)
      requires Valid() && Enabled(k, s, a)
      modifies this`s, this`acts
      ensures Valid() && s == Next(k, old(s), a) && acts == old(acts) + [a]
    {
      hide ValidConfig, Enabled, Next;
      ghost var more := acts + [a];
      assert more[..|more| - 1] == acts && more[|more| - 1] == a;
      assert IsRun(k, Init(k), more[..|more| - 1], s);
      s := Next(k, s, a);
      acts := more;
    }

    /** The others run: whatever is offered to them and possible, but no step of client `c`. */
    method Interfere(c: nat)
      requires Valid() && c < |s.clients|
      modifies this`s, this`acts, this`tick
      ensures Valid() && Undisturbed(old(s), s, c) && old(acts) <= acts
    {
      hide Ran, Enabled, Next;
      var batch := others(tick);
      tick := tick + 1;
      for i := 0 to |batch|
        invariant Valid() && Undisturbed(old(s), s, c) && old(acts) <= acts
      {
        if !ActsAs(batch[i], c) && Enabled(k, s, batch[i]) {
          OtherStep(k, s, batch[i], c);
          Perform(batch[i]);
        }
      }
    }

    /** One head is read. */
    method ReadOne(c: nat, r: Rid)
      requires Valid() && At(s, c, Reading) && r in s.clients[c].txn.readSet && r !in s.clients[c].copies
      modifies this`s, this`acts, this`tick
      ensures Valid() && |s.clients| == old(|s.clients|) && NoCommit(old(s.log), s.log, c)
      ensures s.clients[c] == old(s.clients[c]).(copies := s.clients[c].copies)
      ensures s.clients[c].copies.Keys == old(s.clients[c]).copies.Keys + {r}
    {
      hide Ran;
      Interfere(c);
      ReadReady(k, acts, s, c, r);
      Perform(ReadHead(c, r));
    }

    method ReadHeads(c: nat)
      requires Valid() && At(s, c, Reading) && s.clients[c].copies == map[]
      modifies this`s, this`acts, this`tick
      ensures Valid() && At(s, c, Reading) && |s.clients| == old(|s.clients|) && NoCommit(old(s.log), s.log, c)
      ensures s.clients[c] == old(s.clients[c]).(copies := s.clients[c].copies)
      ensures s.clients[c].copies.Keys == s.clients[c].txn.readSet
    {
      hide Ran;
      var txn := s.clients[c].txn;
      var todo := txn.readSet;
      while todo != {}
        invariant Valid() && At(s, c, Reading) && |s.clients| == old(|s.clients|) && NoCommit(old(s.log), s.log, c)
        invariant s.clients[c] == old(s.clients[c]).(copies := s.clients[c].copies)
        invariant s.clients[c].copies.Keys == txn.readSet - todo && todo <= txn.readSet
        decreases |todo|
      {
        var r :| r in todo;
        ReadOne(c, r);
        todo := todo - {r};
      }
    }

    /** The read phase: every head, then every list that may be needed. */
    method ReadAll(c: nat)
      requires Valid() && At(s, c, Reading) && s.clients[c].copies == map[] && s.clients[c].lists == map[]
      modifies this`s, this`acts, this`tick
      ensures Valid() && CanCheckVersions(s, c) && |s.clients| == old(|s.clients|) && NoCommit(old(s.log), s.log, c)
      ensures s.clients[c] == old(s.clients[c]).(copies := s.clients[c].copies, lists := s.clients[c].lists)
      ensures forall r :: r in s.clients[c].copies <==> Touches(s.clients[c].cart, r)
    {
      hide Ran, Touches;
      ReadHeads(c);
      ReadLists(c);
      ReadExactly(k, acts, s, c);
    }

    method ReadLists(c: nat)
      requires Valid() && At(s, c, Reading) && s.clients[c].lists == map[]
      requires s.clients[c].copies.Keys == s.clients[c].txn.readSet
      modifies this`s, this`acts, this`tick
      ensures Valid() && CanCheckVersions(s, c) && |s.clients| == old(|s.clients|) && NoCommit(old(s.log), s.log, c)
      ensures s.clients[c] == old(s.clients[c]).(lists := s.clients[c].lists)
    {
      hide Ran;
      var txn := s.clients[c].txn;
      var todo := txn.listSet;
      while todo != {}
        invariant Valid() && At(s, c, Reading) && |s.clients| == old(|s.clients|) && NoCommit(old(s.log), s.log, c)
        invariant s.clients[c] == old(s.clients[c]).(lists := s.clients[c].lists)
        invariant s.clients[c].lists.Keys == txn.listSet - todo && todo <= txn.listSet
        decreases |todo|
      {
        var r :| r in todo;
        Interfere(c);
        ListReady(k, acts, s, c, r);
        Perform(ReadList(c, r, s.mem[r].list));
        todo := todo - {r};
      }
    }

    /** The first check: abort if some record is neither accessible nor replaceable by an older version. */
    method CheckAll(c: nat) returns (ok: bool)
      requires Valid() && CanCheckVersions(s, c)
      modifies this`s, this`acts, this`tick
      ensures Valid() && |s.clients| == old(|s.clients|) && NoCommit(old(s.log), s.log, c)
      ensures s.clients[c] ==
        old(s.clients[c]).(phase := if ok then Fetching else Idle, pending := s.clients[c].pending)
      ensures ok ==> forall r :: r in s.clients[c].pending ==>
        && r in s.clients[c].copies && r in s.clients[c].lists
        && FindValid(s.clients[c].lists[r], c, s.clients[c].snap) >= 0
      ensures ok <==> PassesFirst(old(s.clients[c]), c)
      ensures ok ==> forall r ::
        r in s.clients[c].pending <==> Touches(s.clients[c].cart, r) && !CopyAccessible(old(s.clients[c]), c, r)
    {
      hide Ran, PassesFirst, Bound, Touches, CopyAccessible, Changes;
      Interfere(c);
      CartExactly(k, acts, s, c);
      var cl := s.clients[c];
      CartBound(k, acts, s, c);
      FirstCheckExactly(k, cl, c);
      ok := true;
      var todo := cl.txn.readSet;
      while todo != {}
        invariant todo <= cl.txn.readSet
        invariant ok <==> forall r :: r in cl.txn.readSet - todo ==> !Rejects(cl, c, r)
        decreases |todo|
      {
        var r :| r in todo;
        if !CopyAccessible(cl, c, r) {
          if r !in cl.txn.fallback { ok := false; }
          else if r !in cl.lists { ok := false; }
          else if FindValid(cl.lists[r], c, cl.snap) < 0 { ok := false; }
        }
        assert Rejects(cl, c, r) ==> !ok;
        assert forall q :: q in cl.txn.readSet - (todo - {r}) <==> q in cl.txn.readSet - todo || q == r;
        todo := todo - {r};
      }
      Perform(CheckVersions(c));
    }

    /** One copy is replaced by the version its ring holds, now, at the position found in the list. */
    method FetchOne(c: nat, r: Rid)
      requires Valid() && At(s, c, Fetching) && r in s.clients[c].pending && r in s.clients[c].lists
      requires FindValid(s.clients[c].lists[r], c, s.clients[c].snap) >= 0
      modifies this`s, this`acts, this`tick
      ensures Valid() && At(s, c, Fetching) && |s.clients| == old(|s.clients|) && old(acts) <= acts
      ensures NoCommit(old(s.log), s.log, c)
      ensures
        var cl := old(s.clients[c]);
        && s.clients[c] == cl.(copies := s.clients[c].copies, pending := cl.pending - {r})
        && r in s.clients[c].copies && s.clients[c].copies == cl.copies[r := s.clients[c].copies[r]]
        && InRing(k, acts, |old(acts)|, r, FindValid(cl.lists[r], c, cl.snap), s.clients[c].copies[r].version)
    {
      hide Ran, DoFetchOlder, FindValid, InRing;
      Interfere(c);
      FetchReady(k, acts, s, c, r);
      FetchEffect(s, c, r);
      Fetched(s, c, r);
      RingNow(k, acts, s, |old(acts)|, FetchOlder(c, r), r, FindValid(s.clients[c].lists[r], c, s.clients[c].snap));
      Perform(FetchOlder(c, r));
    }

    /**
     * Replace what was not accessible by older versions: each by one that its record's ring held, some time during
     * the phase, at the first position of the list read that is accessible. The other copies stay.
     */
    method FetchAll(c: nat)
      requires Valid() && At(s, c, Fetching) && s.clients[c].pending <= s.clients[c].copies.Keys
      requires forall r :: r in s.clients[c].pending ==>
        r in s.clients[c].lists && FindValid(s.clients[c].lists[r], c, s.clients[c].snap) >= 0
      modifies this`s, this`acts, this`tick
      ensures Valid() && At(s, c, Fetching) && s.clients[c].pending == {} && |s.clients| == old(|s.clients|)
      ensures NoCommit(old(s.log), s.log, c)
      ensures s.clients[c] == old(s.clients[c]).(copies := s.clients[c].copies, pending := {})
      ensures AllReplaced(k, acts, |old(acts)|, old(s.clients[c]), s.clients[c], c)
    {
      hide Ran, AllReplaced, InRing, FindValid;
      NoneReplaced(k, acts, s.clients[c], c);
      while s.clients[c].pending != {}
        invariant Valid() && At(s, c, Fetching) && |s.clients| == old(|s.clients|) && NoCommit(old(s.log), s.log, c)
        invariant s.clients[c] == old(s.clients[c]).(copies := s.clients[c].copies, pending := s.clients[c].pending)
        invariant s.clients[c].pending <= old(s.clients[c]).pending && old(acts) <= acts
        invariant AllReplaced(k, acts, |old(acts)|, old(s.clients[c]), s.clients[c], c)
        invariant s.clients[c].pending <= s.clients[c].copies.Keys
        decreases |s.clients[c].pending|
      {
        var r :| r in s.clients[c].pending;
        ghost var before, cl := acts, s.clients[c];
        FetchOne(c, r);
        OneMoreReplaced(k, before, acts, |old(acts)|, old(s.clients[c]), cl, s.clients[c], c, r);
      }
    }

    /** The second check, and the commit timestamp if it is passed. */
    method ValidateAll(c: nat) returns (ok: bool)
      requires Valid() && At(s, c, Fetching) && s.clients[c].pending == {}
      requires (s.clients[c].epoch + 1) * k.clients <= TS_RANGE
      modifies this`s, this`acts, this`tick
      ensures Valid() && |s.clients| == old(|s.clients|) && s.clients[c].txn == old(s.clients[c].txn)
      ensures NoCommit(old(s.log), s.log, c)
      ensures ok ==> s.clients[c].orderId.None?
      ensures s.clients[c].phase == if ok then Locking else Idle
      ensures s.clients[c].cart == old(s.clients[c].cart)
      ensures ok ==> forall r :: r in s.clients[c].stage <==> Changes(k.commutative, s.clients[c].cart, r)
      ensures ok ==> Staged(s.clients[c], s.clients[c].stage.Keys, ToLock, ToLock)
      ensures ok <==>
        forall r :: Touches(old(s.clients[c]).cart, r) ==> CopyAccessible(old(s.clients[c]), c, r)
      ensures ok ==> s.clients[c].cts == old(s.clients[c]).epoch * k.clients + c
    {
      hide Ran, CopyAccessible, CommitTimestamp, Touches, Changes;
      Interfere(c);
      var cl := s.clients[c];
      CartExactly(k, acts, s, c);
      DrawExactly(k, acts, s, c);
      ok := true;
      var todo := cl.txn.readSet;
      while todo != {}
        invariant todo <= cl.txn.readSet
        invariant ok <==> forall r :: r in cl.txn.readSet - todo ==> CopyAccessible(cl, c, r)
        decreases |todo|
      {
        var r :| r in todo;
        if !CopyAccessible(cl, c, r) { ok := false; }
        todo := todo - {r};
      }
      Perform(Validate(c));
    }

    /** One lock is tried. */
    method LockOne(c: nat, r: Rid)
      requires Valid() && At(s, c, Locking) && r in s.clients[c].stage && s.clients[c].stage[r] == ToLock
      modifies this`s, this`acts, this`tick
      ensures Valid() && |s.clients| == old(|s.clients|) && NoCommit(old(s.log), s.log, c)
      ensures s.clients[c] == old(s.clients[c]).(stage := s.clients[c].stage, before := s.clients[c].before)
      ensures r in s.clients[c].stage && s.clients[c].stage[r] != ToLock
      ensures s.clients[c].stage == old(s.clients[c]).stage[r := s.clients[c].stage[r]]
    {
      hide Ran, DoTryLock;
      Interfere(c);
      StageReady(k, acts, s, c, r);
      TryLockEffect(s, c, r);
      Perform(TryLock(c, r));
    }

    /** Try all locks. */
    method LockAll(c: nat) returns (granted: bool)
      requires Valid() && At(s, c, Locking) && Staged(s.clients[c], s.clients[c].stage.Keys, ToLock, ToLock)
      modifies this`s, this`acts, this`tick
      ensures Valid() && At(s, c, Locking) && |s.clients| == old(|s.clients|) && NoCommit(old(s.log), s.log, c)
      ensures s.clients[c] == old(s.clients[c]).(stage := s.clients[c].stage, before := s.clients[c].before)
      ensures forall r :: r in s.clients[c].stage ==> s.clients[c].stage[r] != ToLock
      ensures granted <==> Staged(s.clients[c], {}, ToLock, Held)
    {
      hide Ran;
      var keys := s.clients[c].stage.Keys;
      var todo := keys;
      granted := true;
      while todo != {}
        invariant Valid() && At(s, c, Locking) && |s.clients| == old(|s.clients|) && NoCommit(old(s.log), s.log, c)
        invariant s.clients[c] == old(s.clients[c]).(stage := s.clients[c].stage, before := s.clients[c].before)
        invariant s.clients[c].stage.Keys == keys && todo <= keys
        invariant forall r :: r in keys ==> (s.clients[c].stage[r] == ToLock <==> r in todo)
        invariant granted <==> forall r :: r in keys && r !in todo ==> s.clients[c].stage[r] == Held
        decreases |todo|
      {
        var r :| r in todo;
        LockOne(c, r);
        if s.clients[c].stage[r] != Held { granted := false; }
        todo := todo - {r};
      }
    }

    /** Commit if every lock was granted, else give them back. */
    method DecideOn(c: nat, granted: bool)
      requires Valid() && At(s, c, Locking) && (granted <==> Staged(s.clients[c], {}, ToLock, Held))
      requires forall r :: r in s.clients[c].stage ==> s.clients[c].stage[r] != ToLock
      modifies this`s, this`acts, this`tick
      ensures Valid() && |s.clients| == old(|s.clients|)
      ensures s.clients[c] ==
        old(s.clients[c]).(phase := if granted then Committing else Reverting, snap := s.clients[c].snap)
      ensures if granted then Commit(c, s.clients[c].cts, s.clients[c].txn.writes.Keys, s.clients[c].cart) in s.log
              else NoCommit(old(s.log), s.log, c)
    {
      hide Ran;
      Interfere(c);
      VectorReady(k, acts, s, c);
      ghost var t := s;
      Perform(Decide(c));
      if granted {
        assert s.log[|t.log|] == Commit(c, s.clients[c].cts, s.clients[c].txn.writes.Keys, s.clients[c].cart);
      }
    }

    /** One lock is given back. */
    method RevertOne(c: nat, r: Rid)
      requires Valid() && At(s, c, Reverting) && r in s.clients[c].stage && s.clients[c].stage[r] == Held
      modifies this`s, this`acts, this`tick
      ensures Valid() && |s.clients| == old(|s.clients|)
      ensures s.clients[c] == old(s.clients[c]).(stage := old(s.clients[c]).stage[r := Reverted])
      ensures NoCommit(old(s.log), s.log, c) && forall m :: m in old(s.log) ==> m in s.log
    {
      hide Ran, DoRevert;
      Interfere(c);
      StageReady(k, acts, s, c, r);
      RevertEffect(s, c, r);
      Perform(Revert(c, r));
    }

    /** Give back every lock obtained. */
    method RevertAll(c: nat)
      requires Valid() && At(s, c, Reverting)
      modifies this`s, this`acts, this`tick
      ensures Valid() && At(s, c, Idle) && |s.clients| == old(|s.clients|) && NoCommit(old(s.log), s.log, c)
    {
      hide Ran;
      var todo := set r | r in s.clients[c].stage && s.clients[c].stage[r] == Held;
      while todo != {}
        invariant Valid() && At(s, c, Reverting) && |s.clients| == old(|s.clients|) && NoCommit(old(s.log), s.log, c)
        invariant forall r :: r in todo <==> r in s.clients[c].stage && s.clients[c].stage[r] == Held
        decreases |todo|
      {
        var r :| r in todo;
        RevertOne(c, r);
        todo := todo - {r};
      }
      Interfere(c);
      Perform(FinishAbort(c));
    }

    /** One record's timestamp list gets the old head's word. */
    method AppendToList(c: nat, r: Rid)
      requires Valid() && At(s, c, Committing) && r in s.clients[c].stage && s.clients[c].stage[r] == Held
      modifies this`s, this`acts, this`tick
      ensures Valid() && |s.clients| == old(|s.clients|)
      ensures s.clients[c] == old(s.clients[c]).(stage := old(s.clients[c]).stage[r := Listed])
      ensures NoCommit(old(s.log), s.log, c) && forall m :: m in old(s.log) ==> m in s.log
    {
      hide Ran, DoAppendList;
      Interfere(c);
      StageReady(k, acts, s, c, r);
      AppendListEffect(s, c, r);
      Perform(AppendList(c, r));
    }

    /** Every overwritten word goes to the front of its list. */
    method AppendLists(c: nat)
      requires Valid() && At(s, c, Committing) && Staged(s.clients[c], {}, Held, Held)
      modifies this`s, this`acts, this`tick
      ensures Valid() && |s.clients| == old(|s.clients|) && SameCommitting(old(s.clients[c]), s.clients[c])
      ensures Staged(s.clients[c], {}, Held, Listed) && forall m :: m in old(s.log) ==> m in s.log
    {
      hide Ran;
      var todo := s.clients[c].stage.Keys;
      while todo != {}
        invariant Valid() && |s.clients| == old(|s.clients|) && c < |s.clients|
        invariant SameCommitting(old(s.clients[c]), s.clients[c])
        invariant todo <= s.clients[c].stage.Keys && Staged(s.clients[c], todo, Held, Listed)
        invariant forall m :: m in old(s.log) ==> m in s.log
        decreases |todo|
      {
        var r :| r in todo;
        AppendToList(c, r);
        todo := todo - {r};
      }
    }

    /** One record's ring gets the old version. */
    method AppendToRing(c: nat, r: Rid)
      requires Valid() && At(s, c, Committing) && r in s.clients[c].stage && s.clients[c].stage[r] == Listed
      modifies this`s, this`acts, this`tick
      ensures Valid() && |s.clients| == old(|s.clients|)
      ensures s.clients[c] == old(s.clients[c]).(stage := old(s.clients[c]).stage[r := Ringed])
      ensures NoCommit(old(s.log), s.log, c) && forall m :: m in old(s.log) ==> m in s.log
    {
      hide Ran, DoAppendRing;
      Interfere(c);
      StageReady(k, acts, s, c, r);
      RingReady(k, acts, s, c, r);
      AppendRingEffect(s, c, r);
      Perform(AppendRing(c, r));
    }

    /** Every overwritten version goes to the ring slot its own word names. */
    method AppendRings(c: nat)
      requires Valid() && At(s, c, Committing) && Staged(s.clients[c], {}, Held, Listed)
      modifies this`s, this`acts, this`tick
      ensures Valid() && |s.clients| == old(|s.clients|) && SameCommitting(old(s.clients[c]), s.clients[c])
      ensures Staged(s.clients[c], {}, Held, Ringed) && forall m :: m in old(s.log) ==> m in s.log
    {
      hide Ran;
      var todo := s.clients[c].stage.Keys;
      while todo != {}
        invariant Valid() && |s.clients| == old(|s.clients|) && c < |s.clients|
        invariant SameCommitting(old(s.clients[c]), s.clients[c])
        invariant todo <= s.clients[c].stage.Keys && Staged(s.clients[c], todo, Listed, Ringed)
        invariant forall m :: m in old(s.log) ==> m in s.log
        decreases |todo|
      {
        var r :| r in todo;
        AppendToRing(c, r);
        todo := todo - {r};
      }
    }

    /** The order id, by an atomic add where the district is not locked. */
    method TakeOrderId(c: nat)
      requires Valid() && At(s, c, Committing) && Staged(s.clients[c], {}, Held, Ringed) && s.clients[c].orderId.None?
      modifies this`s, this`acts, this`tick
      ensures Valid() && |s.clients| == old(|s.clients|)
      ensures s.clients[c] == old(s.clients[c]).(orderId := s.clients[c].orderId)
      ensures forall m :: m in old(s.log) ==> m in s.log
      ensures s.clients[c].txn.counter.Some? ==>
        var d := s.clients[c].txn.counter.value;
        && d in s.mem && d in s.orderIds
        && var ids := s.orderIds[d];
        && ids != [] && s.clients[c].orderId == Some(ids[|ids| - 1].id) && s.mem[d].oid == ids[|ids| - 1].id + 1
        && ids[|ids| - 1] == Taken(ids[|ids| - 1].id, c, s.clients[c].cts)
    {
      hide Ran;
      Interfere(c);
      if s.clients[c].txn.counter.Some? {
        CounterReady(k, acts, s, c);
        Perform(FetchAdd(c));
      }
    }

    /** One record gets its new version, which unlocks it. */
    method InstallOne(c: nat, r: Rid)
      requires Valid() && At(s, c, Committing) && r in s.clients[c].stage && s.clients[c].stage[r] == Ringed
      requires s.clients[c].txn.counter.Some? ==> s.clients[c].orderId.Some?
      modifies this`s, this`acts, this`tick
      ensures Valid() && |s.clients| == old(|s.clients|)
      ensures s.clients[c] == old(s.clients[c]).(stage := old(s.clients[c]).stage[r := Installed])
      ensures NoCommit(old(s.log), s.log, c) && forall m :: m in old(s.log) ==> m in s.log
    {
      hide Ran, DoInstall;
      Interfere(c);
      StageReady(k, acts, s, c, r);
      VersionsPositive(k, acts, s);
      InstallEffect(k, s, c, r);
      Perform(Install(c, r));
    }

    /** The new versions overwrite the heads, which releases the locks. */
    method InstallAll(c: nat)
      requires Valid() && At(s, c, Committing) && Staged(s.clients[c], {}, Held, Ringed)
      requires s.clients[c].txn.counter.Some? ==> s.clients[c].orderId.Some?
      modifies this`s, this`acts, this`tick
      ensures Valid() && |s.clients| == old(|s.clients|) && SameCommitting(old(s.clients[c]), s.clients[c])
      ensures Staged(s.clients[c], {}, Held, Installed) && forall m :: m in old(s.log) ==> m in s.log
      ensures forall r :: r in s.clients[c].stage ==> r in s.hist && Has(s.hist[r], c, s.clients[c].cts)
    {
      hide Ran;
      var todo := s.clients[c].stage.Keys;
      while todo != {}
        invariant Valid() && |s.clients| == old(|s.clients|) && c < |s.clients|
        invariant SameCommitting(old(s.clients[c]), s.clients[c])
        invariant todo <= s.clients[c].stage.Keys && Staged(s.clients[c], todo, Ringed, Installed)
        invariant forall m :: m in old(s.log) ==> m in s.log
        decreases |todo|
      {
        var r :| r in todo;
        InstallOne(c, r);
        todo := todo - {r};
      }
      InstalledHas(k, acts, s, c);
    }

    /** The commit timestamp goes to the client's own entry of the oracle's vector. */
    method PublishResult(c: nat)
      requires Valid() && At(s, c, Committing) && Staged(s.clients[c], {}, Held, Installed)
      requires s.clients[c].txn.counter.Some? ==> s.clients[c].orderId.Some?
      modifies this`s, this`acts, this`tick
      ensures Valid() && At(s, c, Idle) && |s.clients| == old(|s.clients|)
      ensures c < |s.vector| && s.vector[c] == old(s.clients[c].cts) && forall m :: m in old(s.log) ==> m in s.log
    {
      hide Ran;
      Interfere(c);
      VectorReady(k, acts, s, c);
      Perform(Publish(c));
    }

    /**
     * One transaction of client `c`, whatever the others do meanwhile. Every verb it issues is possible when it
     * issues it. If it commits, its commit is published and has a version of every record its cart changes, and a new
     * order has exactly one order id; if it does not, the client has committed nothing. Either way it holds no lock.
     */
    method DoOne(c: nat, cart: Cart) returns (outcome: Option<nat>)
      requires Valid() && CanBegin(k, s, c, cart) && (s.clients[c].epoch + 1) * k.clients <= TS_RANGE
      modifies this`s, this`acts, this`tick
      ensures Valid() && At(s, c, Idle)
      ensures forall r :: r in s.mem ==> !(s.mem[r].head.word.locked && s.mem[r].head.word.client == c)
      ensures outcome.None? ==> NoCommit(old(s.log), s.log, c)
      ensures outcome.Some? ==>
        && c < |s.vector| && s.vector[c] == outcome.value
        && exists m :: m in s.log && m.client == c && m.cts == outcome.value && m.cart == cart
      ensures outcome.Some? ==>
        forall r :: Changes(k.commutative, cart, r) ==> r in s.hist && Has(s.hist[r], c, outcome.value)
      ensures outcome.Some? && cart.NewOrder? ==> TookOneId(s, District(cart.w, cart.d), c, outcome.value)
    {
      hide Ran, Changes, TookOneId;
      outcome := Attempt(c, cart);
      IdleHoldsNothing(k, acts, s, c);
      if outcome.Some? {
        CommitVisible(k, acts, s, Commit(c, outcome.value, TxnOf(k.commutative, cart).writes.Keys, cart));
      }
    }

    method Attempt(c: nat, cart: Cart) returns (outcome: Option<nat>)
      requires Valid() && CanBegin(k, s, c, cart) && (s.clients[c].epoch + 1) * k.clients <= TS_RANGE
      modifies this`s, this`acts, this`tick
      ensures Valid() && At(s, c, Idle)
      ensures outcome.None? ==> NoCommit(old(s.log), s.log, c)
      ensures outcome.Some? ==> Commit(c, outcome.value, TxnOf(k.commutative, cart).writes.Keys, cart) in s.log
      ensures outcome.Some? ==> c < |s.vector| && s.vector[c] == outcome.value
    {
      hide Ran, TxnOf, Rejects, CopyAccessible, CommitTimestamp;
      Perform(Begin(c, cart));
      ReadAll(c);
      var ok := CheckAll(c);
      if !ok { return None; }
      FetchAll(c);
      ok := ValidateAll(c);
      if !ok { return None; }
      outcome := LockAndCommit(c);
    }

    method LockAndCommit(c: nat) returns (outcome: Option<nat>)
      requires Valid() && At(s, c, Locking) && Staged(s.clients[c], s.clients[c].stage.Keys, ToLock, ToLock)
      requires s.clients[c].orderId.None?
      modifies this`s, this`acts, this`tick
      ensures Valid() && At(s, c, Idle)
      ensures outcome.None? ==> NoCommit(old(s.log), s.log, c)
      ensures outcome.Some? ==>
        Commit(c, outcome.value, old(s.clients[c]).txn.writes.Keys, old(s.clients[c]).cart) in s.log
      ensures outcome.Some? ==> c < |s.vector| && s.vector[c] == outcome.value
    {
      hide Ran;
      var granted := LockAll(c);
      DecideOn(c, granted);
      if !granted {
        RevertAll(c);
        return None;
      }
      outcome := Some(s.clients[c].cts);
      AppendLists(c);
      AppendRings(c);
      TakeOrderId(c);
      InstallAll(c);
      PublishResult(c);
    }
  }

  lemma InstalledHas(k: Config, acts: seq<Action>, s: State, c: nat)
    requires Ran(k, acts, s) && At(s, c, Committing) && Staged(s.clients[c], {}, Held, Installed)
    ensures forall r :: r in s.clients[c].stage ==> r in s.hist && Has(s.hist[r], c, s.clients[c].cts)
  {
    RunGood(k, acts, s);
    assert UnderWay(s, c);
  }

  lemma VersionsPositive(k: Config, acts: seq<Action>, s: State)
    requires Ran(k, acts, s)
    ensures 1 <= k.versions
  {}

  lemma IdleHoldsNothing(k: Config, acts: seq<Action>, s: State, c: nat)
    requires Ran(k, acts, s) && At(s, c, Idle)
    ensures forall r :: r in s.mem ==> !(s.mem[r].head.word.locked && s.mem[r].head.word.client == c)
  {
    hide IsRun, HistOk, PubOk, HoldOk, CopyOk, StampOk, SnapOk, ReaderOk, ClientShape;
    RunGood(k, acts, s);
    forall r | r in s.mem ensures !(s.mem[r].head.word.locked && s.mem[r].head.word.client == c) {
      assert RecordInv(k, s, r);
    }
  }

  lemma CommitVisible(k: Config, acts: seq<Action>, s: State, m: Commit)
    requires Ran(k, acts, s) && m in s.log && m.client < |s.vector| && m.cts <= s.vector[m.client]
    ensures forall r :: Changes(k.commutative, m.cart, r) ==> r in s.hist && Has(s.hist[r], m.client, m.cts)
    ensures m.cart.NewOrder? ==> TookOneId(s, District(m.cart.w, m.cart.d), m.client, m.cts)
  {
    hide IsRun, ValidConfig, Changes, Has;
    forall r | Changes(k.commutative, m.cart, r) ensures r in s.hist && Has(s.hist[r], m.client, m.cts) {
      CommitsWriteTheirCarts(k, s, m, r);
      PublishedIsInstalled(k, s, m, r);
    }
    if m.cart.NewOrder? { OrderTookOneId(k, s, m); }
  }
}
