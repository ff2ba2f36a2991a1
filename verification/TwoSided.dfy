/**
 * The two-sided protocol: transaction-manager threads lock one item at every resource manager, decide, and tell each
 * resource manager to install or to unlock. An action is one message received, one message sent or one decision.
 */
module TwoSided {
  import opened Records

  /** One line of a shopping cart; line `i` is for resource manager `i`. */
  datatype CartLine = CartLine(item: nat, qty: nat)

  /** An item as a resource manager holds it; `holder` is the owner of its mutex. */
  datatype ItemVersion = ItemVersion(stock: int, ts: nat, holder: Option<nat>)

  /** Auxiliary: a transaction decided to commit. */
  datatype Decision = Decision(thread: nat, cts: nat, cart: seq<CartLine>)

  datatype Phase = Idle | Preparing | Committing | Aborting

  /** How far a thread has come with one resource manager. */
  datatype Stage =
    | Ready
    | Asked                  // lock request under way
    | Answered(ok: bool)     // lock response under way
    | Known(ok: bool)        // lock response read
    | Told(ok: bool)         // write request under way
    | Acked                  // carried out, acknowledgement under way
    | Done                   // acknowledgement read

  datatype Thread = Thread(phase: Phase, cts: nat, cart: seq<CartLine>, stage: seq<Stage>)

  datatype Outcome = Outcome(thread: nat, cts: nat, cart: seq<CartLine>, committed: bool)

  type Key = (nat, nat)

  /** `hist` (what was installed on each item), `log` (decisions) and `replies` are auxiliary. */
  datatype State = State(items: map<Key, ItemVersion>, clock: nat, threads: seq<Thread>,
                         hist: map<Key, seq<Decision>>, log: seq<Decision>, replies: seq<Outcome>)

  datatype Config = Config(servers: nat, threads: nat, initial: map<Key, int>)

  function Init(k: Config): State {
    State(map q | q in k.initial :: ItemVersion(k.initial[q], 0, None), 0,
          seq(k.threads, _ => Thread(Idle, 0, [], [])), map q | q in k.initial :: [], [], [])
  }

  /** The stock after an order line: decremented, and restocked by 20 when fewer than ten remain. */
  function Decremented(stock: int, qty: nat): int {
    if stock - qty < 10 then stock - qty + 20 else stock - qty
  }

  function KeyOf(t: Thread, i: nat): Key
    requires i < |t.cart|
  {
    (i, t.cart[i].item)
  }

  // ---------------------------------------------------------------- actions

  datatype Action =
    | Begin(c: nat, cart: seq<CartLine>)
    | AskLock(c: nat, i: nat)
    | TryLock(c: nat, i: nat)
    | HearLock(c: nat, i: nat)
    | Decide(c: nat)
    | Tell(c: nat, i: nat)
    | Write(c: nat, i: nat)
    | HearAck(c: nat, i: nat)
    | Reply(c: nat)

  predicate Live(s: State, c: nat, i: nat) {
    c < |s.threads| && i < |s.threads[c].stage| && i < |s.threads[c].cart| && KeyOf(s.threads[c], i) in s.items
    && KeyOf(s.threads[c], i) in s.hist
  }

  predicate At(s: State, c: nat, p: Phase) { c < |s.threads| && s.threads[c].phase == p }

  function SetThread(s: State, c: nat, t: Thread): State
    requires c < |s.threads|
  {
    s.(threads := s.threads[c := t])
  }

  function SetStage(s: State, c: nat, i: nat, st: Stage): State
    requires Live(s, c, i)
  {
    SetThread(s, c, s.threads[c].(stage := s.threads[c].stage[i := st]))
  }

  predicate CanBegin(k: Config, s: State, c: nat, cart: seq<CartLine>) {
    At(s, c, Idle) && |cart| == k.servers && forall i :: 0 <= i < |cart| ==> (i, cart[i].item) in s.items
  }

  /** A new transaction draws its commit timestamp from the shared counter. */
  function DoBegin(s: State, c: nat, cart: seq<CartLine>): State
    requires c < |s.threads|
  {
    SetThread(s, c, Thread(Preparing, s.clock + 1, cart, seq(|cart|, _ => Ready))).(clock := s.clock + 1)
  }

  predicate CanTryLock(s: State, c: nat, i: nat) {
    Live(s, c, i) && At(s, c, Preparing) && s.threads[c].stage[i] == Asked
  }

  /** The resource manager tries the item's mutex and answers. */
  function DoTryLock(s: State, c: nat, i: nat): State
    requires CanTryLock(s, c, i)
  {
    var q := KeyOf(s.threads[c], i);
    var free := s.items[q].holder.None?;
    SetStage(s, c, i, Answered(free)).(items := if free then s.items[q := s.items[q].(holder := Some(c))] else s.items)
  }

  predicate AllKnown(t: Thread) { forall i :: 0 <= i < |t.stage| ==> t.stage[i].Known? }

  predicate AllDone(t: Thread) { forall i :: 0 <= i < |t.stage| ==> t.stage[i].Done? }

  /** Commit if every lock was granted, else abort. */
  function DoDecide(s: State, c: nat): State
    requires c < |s.threads|
  {
    var t := s.threads[c];
    if forall i :: 0 <= i < |t.stage| ==> t.stage[i] == Known(true) then
      SetThread(s, c, t.(phase := Committing)).(log := s.log + [Decision(c, t.cts, t.cart)])
    else SetThread(s, c, t.(phase := Aborting))
  }

  /** What the transaction manager tells a resource manager once it has decided. */
  datatype WriteRequest = Unlock | DoNothing | InstallVersion(cts: nat, qty: nat)

  function RequestFor(t: Thread, i: nat): WriteRequest
    requires i < |t.cart| && i < |t.stage| && t.stage[i].Told?
  {
    if t.phase == Committing then InstallVersion(t.cts, t.cart[i].qty)
    else if t.stage[i].ok then Unlock
    else DoNothing
  }

  /** The item after a write request was carried out. */
  function Carried(v: ItemVersion, m: WriteRequest): ItemVersion {
    match m
    case Unlock => v.(holder := None)
    case DoNothing => v
    case InstallVersion(cts, qty) => ItemVersion(Decremented(v.stock, qty), cts, None)
  }

  predicate CanWrite(s: State, c: nat, i: nat) {
    Live(s, c, i) && (At(s, c, Committing) || At(s, c, Aborting)) && s.threads[c].stage[i].Told?
  }

  /** The resource manager installs and unlocks, only unlocks, or does nothing, and acknowledges. */
  function DoWrite(s: State, c: nat, i: nat): State
    requires CanWrite(s, c, i)
  {
    var t := s.threads[c];
    var q := KeyOf(t, i);
    SetStage(s, c, i, Acked)
    .(items := s.items[q := Carried(s.items[q], RequestFor(t, i))],
      hist := if t.phase == Committing then s.hist[q := s.hist[q] + [Decision(c, t.cts, t.cart)]] else s.hist)
  }

  predicate CanReply(s: State, c: nat) { (At(s, c, Committing) || At(s, c, Aborting)) && AllDone(s.threads[c]) }

  function DoReply(s: State, c: nat): State
    requires c < |s.threads|
  {
    var t := s.threads[c];
    SetThread(s, c, t.(phase := Idle)).(replies := s.replies + [Outcome(c, t.cts, t.cart, t.phase == Committing)])
  }

  predicate Enabled(k: Config, s: State, a: Action) {
    match a
    case Begin(c, cart) => CanBegin(k, s, c, cart)
    case AskLock(c, i) => Live(s, c, i) && At(s, c, Preparing) && s.threads[c].stage[i] == Ready
    case TryLock(c, i) => CanTryLock(s, c, i)
    case HearLock(c, i) => Live(s, c, i) && At(s, c, Preparing) && s.threads[c].stage[i].Answered?
    case Decide(c) => At(s, c, Preparing) && AllKnown(s.threads[c])
    case Tell(c, i) => Live(s, c, i) && (At(s, c, Committing) || At(s, c, Aborting)) && s.threads[c].stage[i].Known?
    case Write(c, i) => CanWrite(s, c, i)
    case HearAck(c, i) => Live(s, c, i) && (At(s, c, Committing) || At(s, c, Aborting)) && s.threads[c].stage[i].Acked?
    case Reply(c) => CanReply(s, c)
  }

  function Next(k: Config, s: State, a: Action): State
    requires Enabled(k, s, a)
  {
    match a
    case Begin(c, cart) => DoBegin(s, c, cart)
    case AskLock(c, i) => SetStage(s, c, i, Asked)
    case TryLock(c, i) => DoTryLock(s, c, i)
    case HearLock(c, i) => SetStage(s, c, i, Known(s.threads[c].stage[i].ok))
    case Decide(c) => DoDecide(s, c)
    case Tell(c, i) => SetStage(s, c, i, Told(s.threads[c].stage[i].ok))
    case Write(c, i) => DoWrite(s, c, i)
    case HearAck(c, i) => SetStage(s, c, i, Done)
    case Reply(c) => DoReply(s, c)
  }

  ghost predicate IsRun(k: Config, s: State, acts: seq<Action>, t: State)
    decreases |acts|
  {
    if acts == [] then s == t
    else
      var last := acts[|acts| - 1];
      exists m :: IsRun(k, s, acts[..|acts| - 1], m) && Enabled(k, m, last) && t == Next(k, m, last)
  }

  /** The state after some actions. */
  function After(k: Config, acts: seq<Action>): State {
    if acts == [] then Init(k)
    else
      var m, last := After(k, acts[..|acts| - 1]), acts[|acts| - 1];
      if Enabled(k, m, last) then Next(k, m, last) else m
  }

  ghost predicate Runs(k: Config, acts: seq<Action>) { IsRun(k, Init(k), acts, After(k, acts)) }

  lemma {:induction false} RunIsAfter(k: Config, acts: seq<Action>, t: State)
    requires IsRun(k, Init(k), acts, t)
    ensures t == After(k, acts)
    decreases |acts|
  {
    hide Enabled, Next;
    if acts != [] {
      var front, last := acts[..|acts| - 1], acts[|acts| - 1];
      var m :| IsRun(k, Init(k), front, m) && Enabled(k, m, last) && t == Next(k, m, last);
      RunIsAfter(k, front, m);
    }
  }

  /** A run without its last action is a run, and that action was possible after it. */
  lemma Shorter(k: Config, acts: seq<Action>)
    requires Runs(k, acts) && acts != []
    ensures
      var front, last := acts[..|acts| - 1], acts[|acts| - 1];
      Runs(k, front) && Enabled(k, After(k, front), last) && After(k, acts) == Next(k, After(k, front), last)
  {
    hide Enabled, Next;
    var front, last := acts[..|acts| - 1], acts[|acts| - 1];
    var m :| IsRun(k, Init(k), front, m) && Enabled(k, m, last) && After(k, acts) == Next(k, m, last);
    RunIsAfter(k, front, m);
  }

  // ---------------------------------------------------------------- invariant

  /** Thread `c` owns the mutex of its item at resource manager `i`. */
  predicate Owns(t: Thread, i: nat) {
    && i < |t.stage| && t.phase != Idle
    && match t.stage[i]
       case Answered(ok) => ok
       case Known(ok) => ok
       case Told(ok) => ok
       case _ => false
  }

  predicate StageFits(p: Phase, st: Stage) {
    match p
    case Idle => true
    case Preparing => st.Ready? || st.Asked? || st.Answered? || st.Known?
    case Committing => st == Known(true) || st == Told(true) || st.Acked? || st.Done?
    case Aborting => st.Known? || st.Told? || st.Acked? || st.Done?
  }

  ghost predicate ThreadOk(k: Config, s: State, t: Thread) {
    && t.cts <= s.clock && (t.phase != Idle ==> t.cts >= 1)
    && (t.phase != Idle ==> |t.stage| == |t.cart| == k.servers)
    && (t.phase != Idle ==> forall i :: 0 <= i < k.servers ==> StageFits(t.phase, t.stage[i]) && KeyOf(t, i) in s.items)
  }

  /** A mutex is held by exactly the thread that owns it. */
  ghost predicate LockOk(k: Config, s: State, q: Key)
    requires q in s.items
  {
    && (forall c, i ::
         0 <= c < |s.threads| && 0 <= i < |s.threads[c].cart| &&
         Owns(s.threads[c], i) && KeyOf(s.threads[c], i) == q ==>
           s.items[q].holder == Some(c))
    && (s.items[q].holder.Some? ==>
          var c := s.items[q].holder.value;
          c < |s.threads| && q.0 < |s.threads[c].cart| && Owns(s.threads[c], q.0) && KeyOf(s.threads[c], q.0) == q)
  }

  predicate Touches(d: Decision, q: Key) { q.0 < |d.cart| && d.cart[q.0].item == q.1 }

  /** The decisions on one item, in decision order. */
  function OnItem(log: seq<Decision>, q: Key): seq<Decision> {
    if log == [] then []
    else OnItem(log[..|log| - 1], q) + (if Touches(log[|log| - 1], q) then [log[|log| - 1]] else [])
  }

  /** The stock after the given decisions were carried out one after the other. */
  function Replay(first: int, q: Key, ds: seq<Decision>): int {
    if ds == [] then first
    else
      var d := ds[|ds| - 1];
      var before := Replay(first, q, ds[..|ds| - 1]);
      if Touches(d, q) then Decremented(before, d.cart[q.0].qty) else before
  }

  /** The thread that holds the item has decided to commit and not yet installed here. */
  predicate PendingOn(s: State, q: Key)
    requires q in s.items
  {
    && s.items[q].holder.Some? && s.items[q].holder.value < |s.threads|
    && s.threads[s.items[q].holder.value].phase == Committing
  }

  function Pending(s: State, q: Key): seq<Decision>
    requires q in s.items
  {
    if PendingOn(s, q) then
      var c := s.items[q].holder.value;
      [Decision(c, s.threads[c].cts, s.threads[c].cart)]
    else []
  }

  /** What is installed and what is pending on an item is the log's projection; the stock is its replay. */
  ghost predicate ItemOk(k: Config, s: State, q: Key)
    requires q in s.items && q in s.hist && q in k.initial
  {
    && OnItem(s.log, q) == s.hist[q] + Pending(s, q)
    && s.items[q].stock == Replay(k.initial[q], q, s.hist[q])
    && s.items[q].ts == (if s.hist[q] == [] then 0 else s.hist[q][|s.hist[q]| - 1].cts)
  }

  ghost predicate Inv(k: Config, s: State) {
    && s.items.Keys == s.hist.Keys == k.initial.Keys && |s.threads| == k.threads
    && (forall c :: 0 <= c < k.threads ==> ThreadOk(k, s, s.threads[c]))
    && (forall q :: q in s.items ==> LockOk(k, s, q) && ItemOk(k, s, q))
  }

  // ---------------------------------------------------------------- steps that move no lock

  /** Thread `c` changes, but owns what it owned and is bound to what it was bound to. */
  ghost predicate SameOwner(s: State, t: State, c: nat) {
    && c < |s.threads| == |t.threads| && t.threads == s.threads[c := t.threads[c]]
    && t.items == s.items && t.hist == s.hist && t.log == s.log
    && (forall i: nat :: Owns(t.threads[c], i) <==> Owns(s.threads[c], i))
    && (forall i: nat :: Owns(s.threads[c], i) ==>
          && t.threads[c].cart == s.threads[c].cart && t.threads[c].cts == s.threads[c].cts
          && (t.threads[c].phase == Committing <==> s.threads[c].phase == Committing))
  }

  lemma SameOwnerKeeps(k: Config, s: State, t: State, c: nat, q: Key)
    requires SameOwner(s, t, c) && q in s.items && LockOk(k, s, q)
    ensures LockOk(k, t, q) && Pending(t, q) == Pending(s, q)
  {
    forall d, i |
      0 <= d < |t.threads| && 0 <= i < |t.threads[d].cart| && Owns(t.threads[d], i) && KeyOf(t.threads[d], i) == q
      ensures t.items[q].holder == Some(d)
    {
      assert Owns(s.threads[d], i) && KeyOf(s.threads[d], i) == q;
    }
    if s.items[q].holder.Some? { assert Owns(s.threads[s.items[q].holder.value], q.0); }
  }

  lemma SameOwnerInv(k: Config, s: State, t: State, c: nat)
    requires Inv(k, s) && SameOwner(s, t, c) && t.clock >= s.clock && ThreadOk(k, t, t.threads[c])
    ensures Inv(k, t)
  {
    forall q | q in t.items ensures LockOk(k, t, q) && ItemOk(k, t, q) {
      assert LockOk(k, s, q) && ItemOk(k, s, q);
      SameOwnerKeeps(k, s, t, c, q);
    }
    forall d | 0 <= d < k.threads ensures ThreadOk(k, t, t.threads[d]) { assert ThreadOk(k, s, s.threads[d]); }
  }

  lemma QuietStage(k: Config, s: State, c: nat, i: nat, st: Stage)
    requires Inv(k, s) && Live(s, c, i) && s.threads[c].phase != Idle && StageFits(s.threads[c].phase, st)
    requires Owns(s.threads[c], i) <==> Owns(SetStage(s, c, i, st).threads[c], i)
    ensures Inv(k, SetStage(s, c, i, st))
  {
    hide LockOk, ItemOk;
    var t := SetStage(s, c, i, st);
    assert ThreadOk(k, s, s.threads[c]);
    SameOwnerInv(k, s, t, c);
  }

  lemma BeginKeeps(k: Config, s: State, c: nat, cart: seq<CartLine>)
    requires Inv(k, s) && CanBegin(k, s, c, cart)
    ensures Inv(k, DoBegin(s, c, cart))
  {
    SameOwnerInv(k, s, DoBegin(s, c, cart), c);
  }

  lemma ReplyKeeps(k: Config, s: State, c: nat)
    requires Inv(k, s) && CanReply(s, c)
    ensures Inv(k, DoReply(s, c))
  {
    assert ThreadOk(k, s, s.threads[c]);
    SameOwnerInv(k, s, DoReply(s, c), c);
  }

  // ---------------------------------------------------------------- steps that move a lock or decide

  /** Another key than the one acted on, by an action of thread `c` at resource manager `i`. */
  lemma OtherKey(k: Config, s: State, t: State, c: nat, i: nat, q: Key)
    requires Live(s, c, i) && |t.threads| == |s.threads| && t.threads == s.threads[c := t.threads[c]]
    requires q in s.items && q in t.items && LockOk(k, s, q) && KeyOf(s.threads[c], i) != q
    requires t.items[q] == s.items[q] && t.log == s.log && q in s.hist && q in t.hist && t.hist[q] == s.hist[q]
    requires q in k.initial && ItemOk(k, s, q)
    requires t.threads[c] == s.threads[c].(stage := t.threads[c].stage)
    requires |t.threads[c].stage| == |s.threads[c].stage|
    requires forall j :: 0 <= j < |s.threads[c].stage| && j != i ==> t.threads[c].stage[j] == s.threads[c].stage[j]
    ensures LockOk(k, t, q) && ItemOk(k, t, q)
  {
    forall d, j |
      0 <= d < |t.threads| && 0 <= j < |t.threads[d].cart| && Owns(t.threads[d], j) && KeyOf(t.threads[d], j) == q
      ensures t.items[q].holder == Some(d)
    {
      assert Owns(s.threads[d], j) && KeyOf(s.threads[d], j) == q;
    }
    if s.items[q].holder.Some? { assert Owns(s.threads[s.items[q].holder.value], q.0); }
  }

  lemma TryLockHere(k: Config, s: State, c: nat, i: nat)
    requires CanTryLock(s, c, i) && KeyOf(s.threads[c], i) in k.initial
    requires LockOk(k, s, KeyOf(s.threads[c], i)) && ItemOk(k, s, KeyOf(s.threads[c], i))
    ensures LockOk(k, DoTryLock(s, c, i), KeyOf(s.threads[c], i))
    ensures ItemOk(k, DoTryLock(s, c, i), KeyOf(s.threads[c], i))
  {
    var t, q := DoTryLock(s, c, i), KeyOf(s.threads[c], i);
    forall d, j |
      0 <= d < |t.threads| && 0 <= j < |t.threads[d].cart| && Owns(t.threads[d], j) && KeyOf(t.threads[d], j) == q
      ensures t.items[q].holder == Some(d)
    {
      if d != c { assert Owns(s.threads[d], j) && KeyOf(s.threads[d], j) == q; }
    }
    if s.items[q].holder.Some? { assert Owns(s.threads[s.items[q].holder.value], q.0); }
  }

  lemma TryLockKeeps(k: Config, s: State, c: nat, i: nat)
    requires Inv(k, s) && CanTryLock(s, c, i)
    ensures Inv(k, DoTryLock(s, c, i))
  {
    hide LockOk, ItemOk;
    var t := DoTryLock(s, c, i);
    forall q | q in t.items ensures LockOk(k, t, q) && ItemOk(k, t, q) {
      assert LockOk(k, s, q) && ItemOk(k, s, q);
      if q == KeyOf(s.threads[c], i) { TryLockHere(k, s, c, i); } else { OtherKey(k, s, t, c, i, q); }
    }
    forall d | 0 <= d < k.threads ensures ThreadOk(k, t, t.threads[d]) { assert ThreadOk(k, s, s.threads[d]); }
  }

  lemma DecideLock(k: Config, s: State, c: nat, q: Key)
    requires At(s, c, Preparing) && q in s.items && LockOk(k, s, q)
    ensures LockOk(k, DoDecide(s, c), q)
  {
    var t := DoDecide(s, c);
    forall e, j |
      0 <= e < |t.threads| && 0 <= j < |t.threads[e].cart| && Owns(t.threads[e], j) && KeyOf(t.threads[e], j) == q
      ensures t.items[q].holder == Some(e)
    {
      assert Owns(s.threads[e], j) && KeyOf(s.threads[e], j) == q;
    }
    if s.items[q].holder.Some? { assert Owns(s.threads[s.items[q].holder.value], q.0); }
  }

  /** The new decision is pending exactly on the items it touches. */
  lemma DecidePending(k: Config, s: State, c: nat, q: Key)
    requires At(s, c, Preparing) && ThreadOk(k, s, s.threads[c]) && q in s.items && LockOk(k, s, q)
    ensures
      var t, d := DoDecide(s, c), Decision(c, s.threads[c].cts, s.threads[c].cart);
      Pending(t, q) == Pending(s, q) + if t.threads[c].phase == Committing && Touches(d, q) then [d] else []
  {
    var t, d := DoDecide(s, c), Decision(c, s.threads[c].cts, s.threads[c].cart);
    if s.items[q].holder.Some? { assert Owns(s.threads[s.items[q].holder.value], q.0); }
    if t.threads[c].phase == Committing && Touches(d, q) {
      assert Owns(s.threads[c], q.0) && KeyOf(s.threads[c], q.0) == q;
    }
  }

  lemma DecideItem(k: Config, s: State, c: nat, q: Key)
    requires At(s, c, Preparing) && ThreadOk(k, s, s.threads[c])
    requires q in s.items && q in s.hist && q in k.initial && LockOk(k, s, q) && ItemOk(k, s, q)
    ensures LockOk(k, DoDecide(s, c), q) && ItemOk(k, DoDecide(s, c), q)
  {
    DecideLock(k, s, c, q);
    DecidePending(k, s, c, q);
    hide LockOk, Pending, ThreadOk, OnItem, Replay, Touches;
    var t, d := DoDecide(s, c), Decision(c, s.threads[c].cts, s.threads[c].cart);
    if t.threads[c].phase == Committing {
      LogGrows(s.log, d, q);
      Associates(s.hist[q], Pending(s, q), if Touches(d, q) then [d] else []);
    } else {
      assert Pending(s, q) + [] == Pending(s, q);
    }
  }

  lemma LogGrows(log: seq<Decision>, d: Decision, q: Key)
    ensures OnItem(log + [d], q) == OnItem(log, q) + if Touches(d, q) then [d] else []
  {
    assert (log + [d])[..|log|] == log;
  }

  lemma Associates(a: seq<Decision>, b: seq<Decision>, c: seq<Decision>)
    ensures (a + b) + c == a + (b + c)
  {}

  lemma DecideKeeps(k: Config, s: State, c: nat)
    requires Inv(k, s) && At(s, c, Preparing) && AllKnown(s.threads[c])
    ensures Inv(k, DoDecide(s, c))
  {
    hide LockOk, ItemOk;
    var t := DoDecide(s, c);
    assert ThreadOk(k, s, s.threads[c]);
    forall q | q in t.items ensures LockOk(k, t, q) && ItemOk(k, t, q) {
      assert LockOk(k, s, q) && ItemOk(k, s, q);
      DecideItem(k, s, c, q);
    }
    forall d | 0 <= d < k.threads ensures ThreadOk(k, t, t.threads[d]) { assert ThreadOk(k, s, s.threads[d]); }
  }

  lemma WriteHere(k: Config, s: State, c: nat, i: nat)
    requires CanWrite(s, c, i) && ThreadOk(k, s, s.threads[c]) && KeyOf(s.threads[c], i) in k.initial
    requires LockOk(k, s, KeyOf(s.threads[c], i)) && ItemOk(k, s, KeyOf(s.threads[c], i))
    ensures LockOk(k, DoWrite(s, c, i), KeyOf(s.threads[c], i)) && ItemOk(k, DoWrite(s, c, i), KeyOf(s.threads[c], i))
  {
    var t, q, d := DoWrite(s, c, i), KeyOf(s.threads[c], i), Decision(c, s.threads[c].cts, s.threads[c].cart);
    assert StageFits(s.threads[c].phase, s.threads[c].stage[i]);
    if s.threads[c].stage[i].ok { assert Owns(s.threads[c], i) && s.items[q].holder == Some(c); }
    forall e, j |
      0 <= e < |t.threads| && 0 <= j < |t.threads[e].cart| && Owns(t.threads[e], j) && KeyOf(t.threads[e], j) == q
      ensures t.items[q].holder == Some(e)
    {
      assert Owns(s.threads[e], j) && KeyOf(s.threads[e], j) == q;
    }
    if s.items[q].holder.Some? { assert Owns(s.threads[s.items[q].holder.value], q.0); }
    assert (s.hist[q] + [d])[..|s.hist[q]|] == s.hist[q];
  }

  lemma WriteKeeps(k: Config, s: State, c: nat, i: nat)
    requires Inv(k, s) && CanWrite(s, c, i)
    ensures Inv(k, DoWrite(s, c, i))
  {
    hide LockOk, ItemOk;
    var t := DoWrite(s, c, i);
    assert ThreadOk(k, s, s.threads[c]);
    forall q | q in t.items ensures LockOk(k, t, q) && ItemOk(k, t, q) {
      assert LockOk(k, s, q) && ItemOk(k, s, q);
      if q == KeyOf(s.threads[c], i) { WriteHere(k, s, c, i); } else { OtherKey(k, s, t, c, i, q); }
    }
    forall d | 0 <= d < k.threads ensures ThreadOk(k, t, t.threads[d]) { assert ThreadOk(k, s, s.threads[d]); }
  }

  // ---------------------------------------------------------------- all runs

  lemma NextKeeps(k: Config, s: State, a: Action)
    requires Inv(k, s) && Enabled(k, s, a)
    ensures Inv(k, Next(k, s, a))
  {
    hide Inv;
    match a
    case Begin(c, cart) => BeginKeeps(k, s, c, cart);
    case AskLock(c, i) => QuietStage(k, s, c, i, Asked);
    case TryLock(c, i) => TryLockKeeps(k, s, c, i);
    case HearLock(c, i) => QuietStage(k, s, c, i, Known(s.threads[c].stage[i].ok));
    case Decide(c) => DecideKeeps(k, s, c);
    case Tell(c, i) => TellKeeps(k, s, c, i);
    case Write(c, i) => WriteKeeps(k, s, c, i);
    case HearAck(c, i) => QuietStage(k, s, c, i, Done);
    case Reply(c) => ReplyKeeps(k, s, c);
  }

  lemma TellKeeps(k: Config, s: State, c: nat, i: nat)
    requires Inv(k, s) && Live(s, c, i) && (At(s, c, Committing) || At(s, c, Aborting)) && s.threads[c].stage[i].Known?
    ensures Inv(k, SetStage(s, c, i, Told(s.threads[c].stage[i].ok)))
  {
    assert ThreadOk(k, s, s.threads[c]);
    assert StageFits(s.threads[c].phase, s.threads[c].stage[i]);
    QuietStage(k, s, c, i, Told(s.threads[c].stage[i].ok));
  }

  lemma InitInv(k: Config)
    ensures Inv(k, Init(k))
  {}

  lemma {:induction false} RunKeeps(k: Config, acts: seq<Action>, t: State)
    requires IsRun(k, Init(k), acts, t)
    ensures Inv(k, t) && OutcomeInv(k, t)
    decreases |acts|
  {
    hide Inv, OutcomeInv, Enabled, Next;
    if acts == [] {
      InitInv(k);
      InitOutcomes(k);
    } else {
      var last := acts[|acts| - 1];
      var m :| IsRun(k, Init(k), acts[..|acts| - 1], m) && Enabled(k, m, last) && t == Next(k, m, last);
      RunKeeps(k, acts[..|acts| - 1], m);
      NextKeeps(k, m, last);
      NextOutcomes(k, m, last);
    }
  }

  // ---------------------------------------------------------------- atomicity

  /** A transaction is installed on an item. */
  predicate InstalledOn(s: State, d: Decision, q: Key) { q in s.hist && d in s.hist[q] }

  /** At each of its items a committed transaction is installed, or its thread still has the install to do. */
  ghost predicate DecisionOk(k: Config, s: State, d: Decision) {
    && d.thread < |s.threads| && |d.cart| == k.servers && d.cts <= s.clock
    && forall i :: 0 <= i < |d.cart| ==>
         InstalledOn(s, d, (i, d.cart[i].item)) || StillToInstall(s.threads[d.thread], d, i)
  }

  predicate StillToInstall(t: Thread, d: Decision, i: nat) {
    && t.phase == Committing && t.cts == d.cts && t.cart == d.cart
    && i < |t.stage| && (t.stage[i].Known? || t.stage[i].Told?)
  }

  /** Nothing is installed anywhere of a transaction that is not decided to commit. */
  ghost predicate OnlyDecided(s: State) {
    forall q, d :: q in s.hist && d in s.hist[q] ==> d in s.log
  }

  /** A reply tells the truth: committed ones were decided and are installed everywhere, aborted ones nowhere. */
  ghost predicate ReplyOk(s: State, o: Outcome) {
    var d := Decision(o.thread, o.cts, o.cart);
    if o.committed then d in s.log && forall i :: 0 <= i < |o.cart| ==> InstalledOn(s, d, (i, o.cart[i].item))
    else
      && d !in s.log && o.cts <= s.clock
      && (o.thread < |s.threads| && s.threads[o.thread].phase != Idle ==> s.threads[o.thread].cts > o.cts)
  }

  /** A thread that has not decided to commit has no decision under its present timestamp. */
  ghost predicate Undecided(s: State, c: nat)
    requires c < |s.threads|
  {
    var t := s.threads[c];
    if t.phase == Committing then Decision(c, t.cts, t.cart) in s.log
    else t.phase != Idle ==> forall d :: d in s.log && d.thread == c ==> d.cts < t.cts
  }

  ghost predicate OutcomeInv(k: Config, s: State) {
    && (forall d :: d in s.log ==> DecisionOk(k, s, d))
    && OnlyDecided(s)
    && (forall c :: 0 <= c < |s.threads| ==> Undecided(s, c))
    && (forall o :: o in s.replies ==> ReplyOk(s, o))
  }

  lemma InitOutcomes(k: Config)
    ensures OutcomeInv(k, Init(k))
  {}

  /** Nothing is decided, installed or answered, and no install still to do is dropped. */
  lemma QuietOutcome(k: Config, s: State, t: State, c: nat)
    requires OutcomeInv(k, s) && c < |s.threads| == |t.threads| && t.threads == s.threads[c := t.threads[c]]
    requires t.hist == s.hist && t.log == s.log && t.replies == s.replies && t.clock == s.clock
    requires t.threads[c] == s.threads[c].(stage := t.threads[c].stage)
    requires forall d, i :: StillToInstall(s.threads[c], d, i) ==> StillToInstall(t.threads[c], d, i)
    ensures OutcomeInv(k, t)
  {
    forall d | d in t.log ensures DecisionOk(k, t, d) { assert DecisionOk(k, s, d); }
    forall e | 0 <= e < |t.threads| ensures Undecided(t, e) { assert Undecided(s, e); }
    forall o | o in t.replies ensures ReplyOk(t, o) { assert ReplyOk(s, o); }
  }

  lemma BeginOutcome(k: Config, s: State, c: nat, cart: seq<CartLine>)
    requires OutcomeInv(k, s) && CanBegin(k, s, c, cart)
    ensures OutcomeInv(k, DoBegin(s, c, cart))
  {
    var t := DoBegin(s, c, cart);
    forall d | d in t.log ensures DecisionOk(k, t, d) { assert DecisionOk(k, s, d); }
    forall e | 0 <= e < |t.threads| ensures Undecided(t, e) {
      assert Undecided(s, e);
      forall d | d in t.log && d.thread == c ensures d.cts < t.threads[c].cts { assert DecisionOk(k, s, d); }
    }
    forall o | o in t.replies ensures ReplyOk(t, o) { assert ReplyOk(s, o); }
  }

  lemma DecideOutcome(k: Config, s: State, c: nat)
    requires OutcomeInv(k, s) && At(s, c, Preparing) && AllKnown(s.threads[c]) && ThreadOk(k, s, s.threads[c])
    ensures OutcomeInv(k, DoDecide(s, c))
  {
    var t, d := DoDecide(s, c), Decision(c, s.threads[c].cts, s.threads[c].cart);
    assert Undecided(s, c);
    forall e | e in t.log ensures DecisionOk(k, t, e) { if e in s.log { assert DecisionOk(k, s, e); } }
    forall e | 0 <= e < |t.threads| ensures Undecided(t, e) {
      assert Undecided(s, e);
      if t.threads[c].phase == Committing { assert t.log[|s.log|] == d; }
    }
    forall o | o in t.replies ensures ReplyOk(t, o) { assert ReplyOk(s, o); }
  }

  lemma WriteOutcome(k: Config, s: State, c: nat, i: nat)
    requires OutcomeInv(k, s) && CanWrite(s, c, i)
    ensures OutcomeInv(k, DoWrite(s, c, i))
  {
    var t, q := DoWrite(s, c, i), KeyOf(s.threads[c], i);
    assert Undecided(s, c);
    forall x, d | x in t.hist && d in t.hist[x] ensures d in t.log { if x in s.hist && d in s.hist[x] {} }
    forall x, d | InstalledOn(s, d, x) ensures InstalledOn(t, d, x) {}
    forall d | d in t.log ensures DecisionOk(k, t, d) {
      assert DecisionOk(k, s, d);
      forall j | 0 <= j < |d.cart|
        ensures InstalledOn(t, d, (j, d.cart[j].item)) || StillToInstall(t.threads[d.thread], d, j)
      {
        if d.thread == c && j == i && StillToInstall(s.threads[c], d, i) {
          assert t.hist[q][|s.hist[q]|] == d;
        }
      }
    }
    forall e | 0 <= e < |t.threads| ensures Undecided(t, e) { assert Undecided(s, e); }
    forall o | o in t.replies ensures ReplyOk(t, o) { assert ReplyOk(s, o); }
  }

  lemma ReplyOutcome(k: Config, s: State, c: nat)
    requires OutcomeInv(k, s) && CanReply(s, c) && ThreadOk(k, s, s.threads[c])
    ensures OutcomeInv(k, DoReply(s, c))
  {
    var t, d := DoReply(s, c), Decision(c, s.threads[c].cts, s.threads[c].cart);
    assert Undecided(s, c);
    forall e | e in t.log ensures DecisionOk(k, t, e) { assert DecisionOk(k, s, e); }
    forall e | 0 <= e < |t.threads| ensures Undecided(t, e) { assert Undecided(s, e); }
    forall o | o in t.replies ensures ReplyOk(t, o) {
      if o in s.replies { assert ReplyOk(s, o); }
      else if s.threads[c].phase == Committing { assert DecisionOk(k, s, d); }
    }
  }

  lemma NextOutcomes(k: Config, s: State, a: Action)
    requires Inv(k, s) && OutcomeInv(k, s) && Enabled(k, s, a)
    ensures OutcomeInv(k, Next(k, s, a))
  {
    hide Inv, OutcomeInv;
    match a
    case Begin(c, cart) => BeginOutcome(k, s, c, cart);
    case AskLock(c, i) => QuietOutcome(k, s, SetStage(s, c, i, Asked), c);
    case TryLock(c, i) => QuietOutcome(k, s, DoTryLock(s, c, i), c);
    case HearLock(c, i) => QuietOutcome(k, s, SetStage(s, c, i, Known(s.threads[c].stage[i].ok)), c);
    case Decide(c) => ThreadFacts(k, s, c); DecideOutcome(k, s, c);
    case Tell(c, i) => QuietOutcome(k, s, SetStage(s, c, i, Told(s.threads[c].stage[i].ok)), c);
    case Write(c, i) => WriteOutcome(k, s, c, i);
    case HearAck(c, i) => QuietOutcome(k, s, SetStage(s, c, i, Done), c);
    case Reply(c) => ThreadFacts(k, s, c); ReplyOutcome(k, s, c);
  }

  lemma ThreadFacts(k: Config, s: State, c: nat)
    requires Inv(k, s) && c < |s.threads|
    ensures ThreadOk(k, s, s.threads[c])
  {}

  // ---------------------------------------------------------------- theorems

  /**
   * Atomic commitment, in every state of every run. A transaction reported committed was decided and is installed at
   * every resource manager; one reported aborted was never decided and is installed at none.
   */
  lemma RepliesTellTheTruth(k: Config, acts: seq<Action>, s: State, o: Outcome, i: nat)
    requires IsRun(k, Init(k), acts, s) && o in s.replies && i < |o.cart|
    ensures
      var d := Decision(o.thread, o.cts, o.cart);
      && (o.committed <==> d in s.log)
      && (o.committed ==> InstalledOn(s, d, (i, o.cart[i].item)))
      && (!o.committed ==> forall q :: q in s.hist ==> d !in s.hist[q])
  {
    RunKeeps(k, acts, s);
    assert ReplyOk(s, o);
  }

  /**
   * All or none: no item ever shows a transaction that was not decided, and a decided one is everywhere once its
   * thread is done.
   */
  lemma AllOrNone(k: Config, acts: seq<Action>, s: State, d: Decision, i: nat)
    requires IsRun(k, Init(k), acts, s) && i < |d.cart|
    ensures (exists q :: q in s.hist && d in s.hist[q]) ==> d in s.log
    ensures d in s.log && !(d.thread < |s.threads| && StillToInstall(s.threads[d.thread], d, i)) ==>
      InstalledOn(s, d, (i, d.cart[i].item))
  {
    RunKeeps(k, acts, s);
    if d in s.log { assert DecisionOk(k, s, d); }
  }

  /**
   * Serializability. Whenever an item's mutex is free, its stock is what replaying the committed transactions on it,
   * one after the other in decision order, gives: all items follow one serial order. So the stock is the initial one
   * less all that was sold, plus a number of restocks by 20.
   */
  lemma SerialInDecisionOrder(k: Config, acts: seq<Action>, s: State, q: Key)
    requires IsRun(k, Init(k), acts, s) && q in s.items && s.items[q].holder.None?
    ensures q in k.initial && s.items[q].stock == Replay(k.initial[q], q, OnItem(s.log, q))
    ensures
      var restocked := s.items[q].stock - (k.initial[q] - Sold(s.log, q));
      restocked >= 0 && restocked % 20 == 0
  {
    hide IsRun, Replay, Sold, OnItem;
    Replayed(k, acts, s, q);
    ReplaySold(k.initial[q], q, OnItem(s.log, q));
    SoldOnItem(s.log, q);
  }

  lemma Replayed(k: Config, acts: seq<Action>, s: State, q: Key)
    requires IsRun(k, Init(k), acts, s) && q in s.items && s.items[q].holder.None?
    ensures q in k.initial && s.items[q].stock == Replay(k.initial[q], q, OnItem(s.log, q))
  {
    RunKeeps(k, acts, s);
    assert ItemOk(k, s, q);
    assert s.hist[q] + [] == s.hist[q];
  }

  /** What the transactions of a log sell of an item. */
  function Sold(log: seq<Decision>, q: Key): nat {
    if log == [] then 0
    else
      var cart := log[|log| - 1].cart;
      Sold(log[..|log| - 1], q) + if q.0 < |cart| && cart[q.0].item == q.1 then cart[q.0].qty else 0
  }

  lemma {:induction false} ReplaySold(first: int, q: Key, ds: seq<Decision>)
    ensures
      var restocked := Replay(first, q, ds) - (first - Sold(ds, q));
      restocked >= 0 && restocked % 20 == 0
  {
    if ds != [] { ReplaySold(first, q, ds[..|ds| - 1]); }
  }

  lemma {:induction false} SoldOnItem(log: seq<Decision>, q: Key)
    ensures Sold(OnItem(log, q), q) == Sold(log, q)
  {
    if log != [] {
      var front, d := log[..|log| - 1], log[|log| - 1];
      SoldOnItem(front, q);
      var before := OnItem(front, q);
      if Touches(d, q) { assert (before + [d])[..|before|] == before; } else { assert before + [] == before; }
    }
  }

  /** A line sells between one and ten pieces. */
  predicate SmallLines(cart: seq<CartLine>) { forall i :: 0 <= i < |cart| ==> 1 <= cart[i].qty <= 10 }

  lemma {:induction false} ReplayInBand(first: int, q: Key, ds: seq<Decision>)
    requires first >= 10 && forall d :: d in ds ==> SmallLines(d.cart)
    ensures 10 <= Replay(first, q, ds) <= if first < 29 then 29 else first
  {
    if ds != [] {
      assert ds[|ds| - 1] in ds;
      ReplayInBand(first, q, ds[..|ds| - 1]);
    }
  }

  /** With small lines an item that starts with ten pieces or more never has fewer, and never more than it had or 29. */
  lemma StockInBand(k: Config, acts: seq<Action>, s: State, q: Key)
    requires IsRun(k, Init(k), acts, s) && q in s.items && q in k.initial && k.initial[q] >= 10
    requires forall d :: d in s.log ==> SmallLines(d.cart)
    ensures 10 <= s.items[q].stock <= if k.initial[q] < 29 then 29 else k.initial[q]
  {
    RunKeeps(k, acts, s);
    assert ItemOk(k, s, q);
    forall d | d in s.hist[q] ensures SmallLines(d.cart) { assert d in s.log; }
    ReplayInBand(k.initial[q], q, s.hist[q]);
  }

  /** An install takes the quantity off the stock, and adds 20 if fewer than ten pieces would remain. */
  lemma InstallSells(k: Config, s: State, c: nat, i: nat)
    requires Enabled(k, s, Write(c, i)) && At(s, c, Committing)
    ensures
      var t, q, qty := Next(k, s, Write(c, i)), KeyOf(s.threads[c], i), s.threads[c].cart[i].qty;
      var was, now := s.items[q], t.items[q];
      && now.ts == s.threads[c].cts && now.holder.None? && was.stock - qty <= now.stock
      && (was.stock - qty >= 10 ==> now.stock + qty == was.stock)
      && (was.stock - qty < 10 ==> now.stock + qty == was.stock + 20)
      && (1 <= qty <= 10 ==> (now.stock < was.stock <==> was.stock - qty >= 10))
      && forall x :: x in s.items && x != q ==> t.items[x] == s.items[x]
  {}

  /** A mutex has one owner, which is still between its lock and its release. */
  lemma MutexHasOneOwner(k: Config, acts: seq<Action>, s: State, q: Key, c: nat, d: nat)
    requires IsRun(k, Init(k), acts, s) && q in s.items && c < |s.threads| && d < |s.threads|
    requires q.0 < |s.threads[c].cart| && Owns(s.threads[c], q.0) && KeyOf(s.threads[c], q.0) == q
    requires q.0 < |s.threads[d].cart| && Owns(s.threads[d], q.0) && KeyOf(s.threads[d], q.0) == q
    ensures c == d && s.items[q].holder == Some(c)
  {
    RunKeeps(k, acts, s);
    assert LockOk(k, s, q);
  }

  function Begun(acts: seq<Action>): nat {
    if acts == [] then 0 else Begun(acts[..|acts| - 1]) + if acts[|acts| - 1].Begin? then 1 else 0
  }

  /** Commit timestamps are dealt 1, 2, 3, ... to the transactions in the order they begin. */
  lemma {:induction false} TimestampsAreDealt(k: Config, acts: seq<Action>)
    requires Runs(k, acts)
    ensures After(k, acts).clock == Begun(acts)
    ensures acts != [] && acts[|acts| - 1].Begin? ==>
      var c := acts[|acts| - 1].c;
      c < |After(k, acts).threads| && After(k, acts).threads[c].cts == Begun(acts)
    decreases |acts|
  {
    hide Runs, After;
    if acts == [] { assert After(k, acts) == Init(k) by { FirstState(k); } }
    else {
      Shorter(k, acts);
      TimestampsAreDealt(k, acts[..|acts| - 1]);
    }
  }

  lemma FirstState(k: Config)
    ensures After(k, []) == Init(k)
  {}

  // ---------------------------------------------------------------- decision order is not timestamp order

  ghost predicate From(k: Config, s: State, t: State) { exists acts :: IsRun(k, s, acts, t) }

  lemma FromStep(k: Config, s: State, m: State, a: Action)
    requires From(k, s, m) && Enabled(k, m, a)
    ensures From(k, s, Next(k, m, a))
  {
    var acts :| IsRun(k, s, acts, m);
    var more := acts + [a];
    assert more[..|more| - 1] == acts && more[|more| - 1] == a;
    assert IsRun(k, s, more[..|more| - 1], m);
    assert IsRun(k, s, more, Next(k, m, a));
  }

  predicate SoloReady(s: State, c: nat, q: nat) {
    && c < |s.threads| && (0, q) in s.items && (0, q) in s.hist && s.threads[c].cart == [CartLine(q, 1)]
    && |s.threads[c].stage| == 1
  }

  predicate OthersSame(s: State, t: State, c: nat) {
    && |t.threads| == |s.threads| && t.items.Keys == s.items.Keys && t.hist.Keys == s.hist.Keys
    && forall d :: 0 <= d < |s.threads| && d != c ==> t.threads[d] == s.threads[d]
  }

  /** One resource manager, one item: thread `c` alone gets its lock. */
  lemma SoloLock(k: Config, s0: State, s: State, c: nat, q: nat) returns (t: State)
    requires From(k, s0, s) && SoloReady(s, c, q) && s.threads[c].phase == Preparing
    requires s.items[(0, q)].holder.None? && s.threads[c].stage[0] == Ready
    ensures From(k, s0, t) && SoloReady(t, c, q) && OthersSame(s, t, c)
    ensures t.threads[c] == s.threads[c].(stage := [Known(true)])
    ensures t.items[(0, q)] == s.items[(0, q)].(holder := Some(c))
  {
    hide From;
    var s1 := Next(k, s, AskLock(c, 0));
    FromStep(k, s0, s, AskLock(c, 0));
    var s2 := Next(k, s1, TryLock(c, 0));
    FromStep(k, s0, s1, TryLock(c, 0));
    t := Next(k, s2, HearLock(c, 0));
    FromStep(k, s0, s2, HearLock(c, 0));
  }

  lemma SoloWrite(k: Config, s0: State, s: State, c: nat, q: nat) returns (t: State)
    requires From(k, s0, s) && SoloReady(s, c, q) && s.threads[c].phase == Preparing
    requires s.threads[c].stage[0] == Known(true)
    ensures From(k, s0, t) && OthersSame(s, t, c)
    ensures t.items[(0, q)] == ItemVersion(Decremented(s.items[(0, q)].stock, 1), s.threads[c].cts, None)
  {
    hide From;
    var s1 := Next(k, s, Decide(c));
    FromStep(k, s0, s, Decide(c));
    assert s1.threads[c].phase == Committing;
    var s2 := Next(k, s1, Tell(c, 0));
    FromStep(k, s0, s1, Tell(c, 0));
    t := Next(k, s2, Write(c, 0));
    FromStep(k, s0, s2, Write(c, 0));
  }

  /** Commit timestamps need not follow the decision order: an item's write timestamp can fall. */
  lemma TimestampsCanFall() returns (k: Config, s: State, t: State, q: Key)
    ensures From(k, Init(k), s) && From(k, s, t) && q in s.items && q in t.items
    ensures t.items[q].ts < s.items[q].ts
  {
    k, q := Config(1, 2, map[(0, 0) := 50]), (0, 0);
    var s0, line := Init(k), [CartLine(0, 1)];
    assert IsRun(k, s0, [], s0);
    var s1 := Next(k, s0, Begin(0, line));
    FromStep(k, s0, s0, Begin(0, line));
    var s2 := Next(k, s1, Begin(1, line));
    FromStep(k, s0, s1, Begin(1, line));
    assert s2.threads[0].stage == [Ready] && s2.threads[1].stage == [Ready];
    var s3 := SoloLock(k, s0, s2, 1, 0);
    s := SoloWrite(k, s0, s3, 1, 0);
    assert IsRun(k, s, [], s);
    var s4 := SoloLock(k, s, s, 0, 0);
    t := SoloWrite(k, s, s4, 0, 0);
  }

  // ---------------------------------------------------------------- a resource manager

  class ResourceManager {
    const stock: array<int>
    const stamp: array<nat>
    const locked: array<bool>
    ghost var holders: seq<Option<nat>>

    ghost predicate Valid()
      reads this, stock, stamp, locked
    {
      && stock.Length == stamp.Length == locked.Length == |holders|
      && forall i :: 0 <= i < locked.Length ==> (locked[i] <==> holders[i].Some?)
    }

    /** The items as the protocol sees them. */
    ghost function Items(): (v: seq<ItemVersion>)
      requires Valid()
      reads this, stock, stamp, locked
      ensures |v| == stock.Length
    {
      seq(stock.Length, i requires 0 <= i < stock.Length reads this, stock, stamp, locked requires Valid() =>
        ItemVersion(stock[i], stamp[i], holders[i]))
    }

    constructor (initial: array<int>)
      ensures Valid() && fresh(stock) && fresh(stamp) && fresh(locked)
      ensures Items() ==
        seq(initial.Length, i requires 0 <= i < initial.Length reads initial => ItemVersion(initial[i], 0, None))
    {
      var n := initial.Length;
      stock := new int[n](i requires 0 <= i < n reads initial => initial[i]);
      stamp := new nat[n](_ => 0);
      locked := new bool[n](_ => false);
      holders := seq(n, _ => None);
    }

    /** Try the mutex; granted exactly when it was free. */
    method LockItem(item: nat, ghost c: nat) returns (ok: bool)
      requires Valid() && item < stock.Length
      modifies this`holders, locked
      ensures Valid() && ok == old(Items())[item].holder.None?
      ensures Items() == if ok then old(Items())[item := old(Items())[item].(holder := Some(c))] else old(Items())
    {
      ok := !locked[item];
      if ok {
        locked[item] := true;
        holders := holders[item := Some(c)];
      }
    }

    method UnlockItem(item: nat)
      requires Valid() && item < stock.Length
      modifies this`holders, locked
      ensures Valid() && Items() == old(Items())[item := old(Items())[item].(holder := None)]
    {
      locked[item] := false;
      holders := holders[item := None];
    }

    method DecrementItemStock(item: nat, qty: nat, cts: nat)
      requires Valid() && item < stock.Length
      modifies stock, stamp
      ensures Valid()
      ensures
        var was, now := old(Items())[item], Items()[item];
        && Items() == old(Items())[item := now] && now.ts == cts && now.holder == was.holder
        && now.stock == if was.stock - qty >= 10 then was.stock - qty else was.stock - qty + 20
    {
      stamp[item] := cts;
      stock[item] := stock[item] - qty;
      if stock[item] < 10 { stock[item] := stock[item] + 20; }
    }

    /** The write step of the message loop: install and unlock, unlock, or do nothing. */
    method HandleWrite(item: nat, m: WriteRequest)
      requires Valid() && item < stock.Length
      modifies this`holders, locked, stock, stamp
      ensures Valid() && Items() == old(Items())[item := Carried(old(Items())[item], m)]
      ensures
        var was, now := old(Items())[item], Items()[item];
        && (m == DoNothing ==> now == was) && (m == Unlock ==> now == was.(holder := None))
        && (m.InstallVersion? ==> now.ts == m.cts && now.holder.None?)
        && (m.InstallVersion? && was.stock - m.qty >= 10 ==> now.stock == was.stock - m.qty)
        && (m.InstallVersion? && was.stock - m.qty < 10 ==> now.stock == was.stock - m.qty + 20)
    {
      match m
      case Unlock => UnlockItem(item);
      case DoNothing =>
      case InstallVersion(cts, qty) =>
        DecrementItemStock(item, qty, cts);
        UnlockItem(item);
    }
  }

  // ---------------------------------------------------------------- the decision of a transaction manager

  /** The abort flag over the lock responses, and the write requests that follow from it. */
  method DecideAll(t: Thread) returns (abort: bool, requests: seq<WriteRequest>)
    requires |t.cart| == |t.stage| && AllKnown(t)
    ensures abort <==> exists i :: 0 <= i < |t.stage| && !t.stage[i].ok
    ensures |requests| == |t.cart|
    ensures forall i :: 0 <= i < |requests| ==>
      requests[i] == if !abort then InstallVersion(t.cts, t.cart[i].qty)
                     else if t.stage[i].ok then Unlock else DoNothing
  {
    abort := false;
    for i := 0 to |t.stage|
      invariant abort <==> exists j :: 0 <= j < i && !t.stage[j].ok
    {
      if !t.stage[i].ok { abort := true; }
    }
    requests := [];
    for i := 0 to |t.stage|
      invariant |requests| == i
      invariant forall j :: 0 <= j < i ==>
        requests[j] == if !abort then InstallVersion(t.cts, t.cart[j].qty)
                       else if t.stage[j].ok then Unlock else DoNothing
    {
      if !abort { requests := requests + [InstallVersion(t.cts, t.cart[i].qty)]; }
      else if t.stage[i].ok { requests := requests + [Unlock]; }
      else { requests := requests + [DoNothing]; }
    }
  }
}
