/**
 * The one-sided commit protocol as a state machine. Each action is the memory effect of one RDMA verb
 * (READ, WRITE, compare-and-swap, fetch-and-add) or one local decision of a client; a run is any
 * interleaving of the actions of all clients and of the snapshot readers.
 */
module Protocol {
  import opened Words
  import opened Records

  // ---------------------------------------------------------------- state

  /** One version of a record: its timestamp word and its row. */
  datatype Version = Version(word: Word, payload: Payload)

  /** A record in server memory. `oid` is D_NEXT_O_ID (0 for every other table). */
  datatype Cell = Cell(head: Version, oid: nat, list: seq<Word>, ring: seq<Version>)

  /** Auxiliary: an installed version with the operation and the snapshot of the transaction that wrote it. */
  datatype Entry = Entry(version: Version, op: Op, snap: seq<nat>)

  /** A client's local copy of a record. Auxiliary: `idx`, the version's place in the history, and `older`. */
  datatype Copy = Copy(version: Version, oid: nat, idx: nat, older: bool)

  datatype Phase = Idle | Reading | Fetching | Locking | Reverting | Committing

  /** How far a client has come with one record of its write set. */
  datatype Stage = ToLock | Failed | Held | Reverted | Listed | Ringed | Installed

  datatype Client = Client(
    epoch: nat, snap: seq<nat>, phase: Phase, cart: Cart, txn: Txn,
    copies: map<Rid, Copy>, lists: map<Rid, seq<Word>>, pending: set<Rid>,
    cts: nat, stage: map<Rid, Stage>, orderId: Option<nat>,
    before: map<Rid, Cell>)   // auxiliary: the cells as they were when their locks were taken

  /** Auxiliary: a transaction that passed its lock phase. */
  datatype Commit = Commit(client: nat, cts: nat, writes: set<Rid>, cart: Cart)

  /** Auxiliary: an order id and the transaction that took it. */
  datatype Taken = Taken(id: nat, client: nat, cts: nat)

  /** `hist`, `log` and `orderIds` are auxiliary and read by no action. */
  datatype State = State(
    mem: map<Rid, Cell>, vector: seq<nat>, readers: seq<seq<nat>>, clients: seq<Client>,
    hist: map<Rid, seq<Entry>>, log: seq<Commit>, orderIds: map<Rid, seq<Taken>>)

  /** `group[c]` is the snapshot reader client `c` copies its vector from; `initial` is the populated database. */
  datatype Config = Config(clients: nat, versions: nat, readers: nat, group: seq<nat>,
                           commutative: bool, initial: map<Rid, Payload>)

  ghost predicate ValidConfig(k: Config) {
    && 1 <= k.clients <= CLIENT_RANGE
    && 1 <= k.versions <= OFFSET_RANGE
    && |k.group| == k.clients
    && (forall c :: 0 <= c < k.clients ==> k.group[c] < k.readers)
    && (forall r :: r in k.initial ==> RowOf(r, k.initial[r]))
  }

  function Zeros(n: nat): seq<nat> { seq(n, _ => 0) }

  const NO_CART: Cart := NewOrder(0, 0, 0, [])

  const NO_TXN: Txn := Txn({}, {}, {}, map[], None)

  function InitClient(k: Config): Client {
    Client(1, Zeros(k.clients), Idle, NO_CART, NO_TXN, map[], map[], {}, 0, map[], None, map[])
  }

  function InitCell(k: Config, p: Payload): Cell {
    Cell(Version(INITIAL, p), 0, seq(k.versions, _ => UNUSED), seq(k.versions, _ => Version(UNUSED, p)))
  }

  function Init(k: Config): State {
    State(
      map r | r in k.initial :: InitCell(k, k.initial[r]),
      Zeros(k.clients), seq(k.readers, _ => Zeros(k.clients)), seq(k.clients, _ => InitClient(k)),
      map r | r in k.initial :: [Entry(Version(INITIAL, k.initial[r]), Populate, [])],
      [],
      map r | r in k.initial :: [])
  }

  // ---------------------------------------------------------------- local computations

  /** The commit timestamp drawn at an epoch, truncated to 32 bits. */
  function CommitTimestamp(k: Config, epoch: nat, c: nat): nat {
    (epoch * k.clients + c) % TS_RANGE
  }

  /** The ring slot after `offset`: an 8-bit increment, then the modulus. */
  function NextOffset(k: Config, offset: nat): nat
    requires 1 <= k.versions
  {
    (offset + 1) % OFFSET_RANGE % k.versions
  }

  /** The position of the first accessible entry of a timestamp list, or -1. */
  function FindValid(list: seq<Word>, me: nat, snap: seq<nat>): (p: int)
    ensures -1 <= p < |list|
    ensures p >= 0 ==> Accessible(list[p], me, snap)
    ensures forall i :: 0 <= i < (if p < 0 then |list| else p) ==> !Accessible(list[i], me, snap)
  {
    if list == [] then -1
    else if Accessible(list[0], me, snap) then 0
    else
      var q := FindValid(list[1..], me, snap);
      assert forall i :: 1 <= i < |list| ==> list[i] == list[1..][i - 1];
      if q < 0 then -1 else q + 1
  }

  /** The list with its entries shifted one place right, the last dropped and `w` in front. */
  function Shifted(list: seq<Word>, w: Word): seq<Word> {
    if list == [] then [] else [w] + list[..|list| - 1]
  }

  function LockWord(cl: Client, c: nat, r: Rid): Word
    requires r in cl.copies
  {
    Word(false, true, cl.copies[r].version.word.offset, c, cl.cts)
  }

  function NewVersion(k: Config, cl: Client, c: nat, r: Rid): Version
    requires r in cl.copies && r in cl.txn.writes && 1 <= k.versions
  {
    Version(Word(false, false, NextOffset(k, cl.copies[r].version.word.offset), c, cl.cts),
            ApplyOp(cl.txn.writes[r], cl.copies[r].version.payload))
  }

  /** The timestamp lists that are maintained soundly; Payment mixes up those of districts and customers. */
  predicate Chained(r: Rid) { r.Warehouse? || r.Stock? }

  predicate CopyAccessible(cl: Client, c: nat, r: Rid) {
    r in cl.copies && Accessible(cl.copies[r].version.word, c, cl.snap)
  }

  /** The first check after the reads: a record that may not be replaced, or has no visible version, aborts. */
  predicate Rejects(cl: Client, c: nat, r: Rid) {
    && !CopyAccessible(cl, c, r)
    && (r in cl.txn.fallback ==> r !in cl.lists || FindValid(cl.lists[r], c, cl.snap) < 0)
  }

  // ---------------------------------------------------------------- actions

  datatype Action =
    | Refresh(g: nat)
    | Begin(c: nat, cart: Cart)
    | ReadHead(c: nat, r: Rid)
    | ReadList(c: nat, r: Rid, list: seq<Word>)
    | LookupFailed(c: nat)
    | CheckVersions(c: nat)
    | FetchOlder(c: nat, r: Rid)
    | Validate(c: nat)
    | TryLock(c: nat, r: Rid)
    | Decide(c: nat)
    | Revert(c: nat, r: Rid)
    | FinishAbort(c: nat)
    | AppendList(c: nat, r: Rid)
    | AppendRing(c: nat, r: Rid)
    | FetchAdd(c: nat)
    | Install(c: nat, r: Rid)
    | Publish(c: nat)

  function LastIndexOf(h: seq<Entry>, v: Version): nat {
    if |h| <= 1 then 0 else if h[|h| - 1].version == v then |h| - 1 else LastIndexOf(h[..|h| - 1], v)
  }

  /** The client acting in `a`, if it is not a snapshot reader's action. */
  predicate ActsAs(a: Action, c: nat) { !a.Refresh? && a.c == c }

  /** Client `c` exists and is in phase `p`. */
  predicate At(s: State, c: nat, p: Phase) { c < |s.clients| && s.clients[c].phase == p }

  /** The state after client `c`'s own record becomes `cl`. */
  function SetClient(s: State, c: nat, cl: Client): State
    requires c < |s.clients|
  {
    s.(clients := s.clients[c := cl])
  }

  function SetStage(s: State, c: nat, r: Rid, st: Stage): State
    requires c < |s.clients|
  {
    SetClient(s, c, s.clients[c].(stage := s.clients[c].stage[r := st]))
  }

  function SetCell(s: State, r: Rid, cell: Cell): State {
    s.(mem := s.mem[r := cell])
  }

  function SetWord(cell: Cell, w: Word): Cell {
    cell.(head := cell.head.(word := w))
  }

  // Each action has a guard (Can...) and an effect (Do...).

  predicate CanBegin(k: Config, s: State, c: nat, cart: Cart) {
    && At(s, c, Idle) && CartOk(cart) && TxnOf(k.commutative, cart).readSet <= s.mem.Keys
    && c < |k.group| && k.group[c] < |s.readers|
  }

  /** Copy the snapshot vector; it precedes every read of a record. */
  function DoBegin(k: Config, s: State, c: nat, cart: Cart): State
    requires CanBegin(k, s, c, cart)
  {
    SetClient(s, c, s.clients[c].(phase := Reading, cart := cart, txn := TxnOf(k.commutative, cart),
                                  snap := s.readers[k.group[c]], copies := map[], lists := map[]))
  }

  predicate CanReadHead(s: State, c: nat, r: Rid) {
    && At(s, c, Reading) && r in s.clients[c].txn.readSet && r !in s.clients[c].copies
    && r in s.mem && r in s.hist && |s.hist[r]| > 0
  }

  function DoReadHead(s: State, c: nat, r: Rid): State
    requires CanReadHead(s, c, r)
  {
    var cl := s.clients[c];
    SetClient(s, c, cl.(copies := cl.copies[r := Copy(s.mem[r].head, s.mem[r].oid, |s.hist[r]| - 1, false)]))
  }

  /** The head is read before the list. The list read for an unchained record is left open. */
  predicate CanReadList(k: Config, s: State, c: nat, r: Rid, list: seq<Word>) {
    && At(s, c, Reading) && r in s.clients[c].txn.listSet && r in s.clients[c].copies && r !in s.clients[c].lists
    && r in s.mem && |list| == k.versions && (Chained(r) ==> list == s.mem[r].list)
  }

  function DoReadList(s: State, c: nat, r: Rid, list: seq<Word>): State
    requires c < |s.clients|
  {
    SetClient(s, c, s.clients[c].(lists := s.clients[c].lists[r := list]))
  }

  predicate CanCheckVersions(s: State, c: nat) {
    && At(s, c, Reading)
    && s.clients[c].txn.readSet <= s.clients[c].copies.Keys && s.clients[c].txn.listSet <= s.clients[c].lists.Keys
  }

  function DoCheckVersions(s: State, c: nat): State
    requires c < |s.clients|
  {
    var cl := s.clients[c];
    if exists r :: r in cl.txn.readSet && Rejects(cl, c, r) then GoIdle(s, c)
    else SetClient(s, c, cl.(phase := Fetching, pending := set r | r in cl.txn.readSet && !CopyAccessible(cl, c, r)))
  }

  predicate CanFetchOlder(s: State, c: nat, r: Rid) {
    && At(s, c, Fetching) && r in s.clients[c].pending && r in s.clients[c].lists && r in s.clients[c].copies
    && r in s.mem && r in s.hist
    && 0 <= FindValid(s.clients[c].lists[r], c, s.clients[c].snap) < |s.mem[r].ring|
  }

  /** Replace an invisible copy by an older version; the ring is indexed by the position found in the list. */
  function DoFetchOlder(s: State, c: nat, r: Rid): State
    requires CanFetchOlder(s, c, r)
  {
    var cl := s.clients[c];
    var v := s.mem[r].ring[FindValid(cl.lists[r], c, cl.snap)];
    SetClient(s, c, cl.(pending := cl.pending - {r},
                        copies := cl.copies[r := Copy(v, cl.copies[r].oid, LastIndexOf(s.hist[r], v), true)]))
  }

  /** Draws happen before the 32-bit timestamp counter is exhausted. */
  predicate CanValidate(k: Config, s: State, c: nat) {
    At(s, c, Fetching) && s.clients[c].pending == {} && (s.clients[c].epoch + 1) * k.clients <= TS_RANGE
  }

  /** The client as it enters its lock phase, with a new commit timestamp. */
  function Prepared(k: Config, cl: Client, c: nat): Client {
    cl.(phase := Locking, cts := CommitTimestamp(k, cl.epoch, c), epoch := cl.epoch + 1,
        stage := map r | r in cl.txn.writes :: ToLock, before := map[], orderId := None)
  }

  /** The second check, then the commit timestamp. */
  function DoValidate(k: Config, s: State, c: nat): State
    requires c < |s.clients|
  {
    var cl := s.clients[c];
    if forall r :: r in cl.txn.readSet ==> CopyAccessible(cl, c, r) then
      SetClient(s, c, Prepared(k, cl, c))
    else GoIdle(s, c)
  }

  /** Client `c` is in phase `p`, at stage `st` with record `r`, of which it has a copy. */
  predicate AtStage(s: State, c: nat, r: Rid, p: Phase, st: Stage) {
    && At(s, c, p) && r in s.clients[c].stage && s.clients[c].stage[r] == st
    && r in s.mem && r in s.clients[c].copies
  }

  predicate CanTryLock(s: State, c: nat, r: Rid) { AtStage(s, c, r, Locking, ToLock) }

  function DoTryLock(s: State, c: nat, r: Rid): State
    requires CanTryLock(s, c, r)
  {
    var cl := s.clients[c];
    if SameBits(s.mem[r].head.word, cl.copies[r].version.word) then
      SetCell(SetClient(s, c, cl.(stage := cl.stage[r := Held], before := cl.before[r := s.mem[r]])),
              r, SetWord(s.mem[r], LockWord(cl, c, r)))
    else SetStage(s, c, r, Failed)
  }

  predicate CanDecide(s: State, c: nat) {
    && At(s, c, Locking) && c < |s.clients[c].snap|
    && (forall r :: r in s.clients[c].stage ==> s.clients[c].stage[r] != ToLock)
  }

  function DoDecide(s: State, c: nat): State
    requires CanDecide(s, c)
  {
    var cl := s.clients[c];
    if forall r :: r in cl.stage ==> cl.stage[r] == Held then
      SetClient(s, c, cl.(phase := Committing, snap := cl.snap[c := cl.cts]))
      .(log := s.log + [Commit(c, cl.cts, cl.txn.writes.Keys, cl.cart)])
    else SetClient(s, c, cl.(phase := Reverting))
  }

  predicate CanRevert(s: State, c: nat, r: Rid) { AtStage(s, c, r, Reverting, Held) }

  function DoRevert(s: State, c: nat, r: Rid): State
    requires CanRevert(s, c, r)
  {
    SetCell(SetStage(s, c, r, Reverted), r, SetWord(s.mem[r], s.clients[c].copies[r].version.word))
  }

  predicate CanFinishAbort(s: State, c: nat) {
    At(s, c, Reverting) && (forall r :: r in s.clients[c].stage ==> s.clients[c].stage[r] != Held)
  }

  function GoIdle(s: State, c: nat): State
    requires c < |s.clients|
  {
    SetClient(s, c, s.clients[c].(phase := Idle))
  }

  predicate CanAppendList(s: State, c: nat, r: Rid) {
    AtStage(s, c, r, Committing, Held) && r in s.clients[c].lists
  }

  function DoAppendList(s: State, c: nat, r: Rid): State
    requires CanAppendList(s, c, r)
  {
    var cl := s.clients[c];
    SetCell(SetStage(s, c, r, Listed), r, s.mem[r].(list := Shifted(cl.lists[r], cl.copies[r].version.word)))
  }

  predicate CanAppendRing(s: State, c: nat, r: Rid) {
    AtStage(s, c, r, Committing, Listed) && s.clients[c].copies[r].version.word.offset < |s.mem[r].ring|
  }

  function DoAppendRing(s: State, c: nat, r: Rid): State
    requires CanAppendRing(s, c, r)
  {
    var v := s.clients[c].copies[r].version;
    SetCell(SetStage(s, c, r, Ringed), r, s.mem[r].(ring := s.mem[r].ring[v.word.offset := v]))
  }

  predicate CanFetchAdd(s: State, c: nat) {
    && At(s, c, Committing) && s.clients[c].txn.counter.Some? && s.clients[c].orderId.None?
    && s.clients[c].txn.counter.value in s.mem && s.clients[c].txn.counter.value in s.orderIds
  }

  function DoFetchAdd(s: State, c: nat): State
    requires CanFetchAdd(s, c)
  {
    var cl := s.clients[c];
    var d := cl.txn.counter.value;
    SetCell(SetClient(s, c, cl.(orderId := Some(s.mem[d].oid))), d, s.mem[d].(oid := s.mem[d].oid + 1))
    .(orderIds := s.orderIds[d := s.orderIds[d] + [Taken(s.mem[d].oid, c, cl.cts)]])
  }

  predicate CanInstall(k: Config, s: State, c: nat, r: Rid) {
    && AtStage(s, c, r, Committing, Ringed) && r in s.clients[c].txn.writes
    && r in s.hist && r in s.orderIds && 1 <= k.versions
    && (s.clients[c].txn.counter.Some? ==> s.clients[c].orderId.Some?)
  }

  /** Write the new version over the locked head, which releases the lock. */
  function DoInstall(k: Config, s: State, c: nat, r: Rid): State
    requires CanInstall(k, s, c, r)
  {
    var cl := s.clients[c];
    var v := NewVersion(k, cl, c, r);
    var takes := cl.txn.writes[r].TakeOrderId?;
    var id := cl.copies[r].oid;
    SetCell(SetStage(s, c, r, Installed), r, s.mem[r].(head := v, oid := if takes then id + 1 else id))
    .(hist := s.hist[r := s.hist[r] + [Entry(v, cl.txn.writes[r], cl.snap)]],
      orderIds := if takes then s.orderIds[r := s.orderIds[r] + [Taken(id, c, cl.cts)]] else s.orderIds)
  }

  predicate CanPublish(s: State, c: nat) {
    && At(s, c, Committing) && c < |s.vector| && (s.clients[c].txn.counter.Some? ==> s.clients[c].orderId.Some?)
    && (forall r :: r in s.clients[c].stage ==> s.clients[c].stage[r] == Installed)
  }

  function DoPublish(s: State, c: nat): State
    requires c < |s.clients| && c < |s.vector|
  {
    GoIdle(s, c).(vector := s.vector[c := s.clients[c].cts])
  }

  function DoRefresh(s: State, g: nat): State
    requires g < |s.readers|
  {
    s.(readers := s.readers[g := s.vector])
  }

  predicate Enabled(k: Config, s: State, a: Action) {
    match a
    case Refresh(g) => g < |s.readers|
    case Begin(c, cart) => CanBegin(k, s, c, cart)
    case ReadHead(c, r) => CanReadHead(s, c, r)
    case ReadList(c, r, list) => CanReadList(k, s, c, r, list)
    case LookupFailed(c) => At(s, c, Reading)
    case CheckVersions(c) => CanCheckVersions(s, c)
    case FetchOlder(c, r) => CanFetchOlder(s, c, r)
    case Validate(c) => CanValidate(k, s, c)
    case TryLock(c, r) => CanTryLock(s, c, r)
    case Decide(c) => CanDecide(s, c)
    case Revert(c, r) => CanRevert(s, c, r)
    case FinishAbort(c) => CanFinishAbort(s, c)
    case AppendList(c, r) => CanAppendList(s, c, r)
    case AppendRing(c, r) => CanAppendRing(s, c, r)
    case FetchAdd(c) => CanFetchAdd(s, c)
    case Install(c, r) => CanInstall(k, s, c, r)
    case Publish(c) => CanPublish(s, c)
  }

  function Next(k: Config, s: State, a: Action): State
    requires Enabled(k, s, a)
  {
    match a
    case Refresh(g) => DoRefresh(s, g)
    case Begin(c, cart) => DoBegin(k, s, c, cart)
    case ReadHead(c, r) => DoReadHead(s, c, r)
    case ReadList(c, r, list) => DoReadList(s, c, r, list)
    case LookupFailed(c) => GoIdle(s, c)
    case CheckVersions(c) => DoCheckVersions(s, c)
    case FetchOlder(c, r) => DoFetchOlder(s, c, r)
    case Validate(c) => DoValidate(k, s, c)
    case TryLock(c, r) => DoTryLock(s, c, r)
    case Decide(c) => DoDecide(s, c)
    case Revert(c, r) => DoRevert(s, c, r)
    case FinishAbort(c) => GoIdle(s, c)
    case AppendList(c, r) => DoAppendList(s, c, r)
    case AppendRing(c, r) => DoAppendRing(s, c, r)
    case FetchAdd(c) => DoFetchAdd(s, c)
    case Install(c, r) => DoInstall(k, s, c, r)
    case Publish(c) => DoPublish(s, c)
  }

  /** A run: every action is enabled in the state the previous ones lead to. */
  ghost predicate IsRun(k: Config, s: State, acts: seq<Action>, t: State)
    decreases |acts|
  {
    if acts == [] then s == t
    else
      var last := acts[|acts| - 1];
      exists m :: IsRun(k, s, acts[..|acts| - 1], m) && Enabled(k, m, last) && t == Next(k, m, last)
  }

  ghost predicate Reachable(k: Config, t: State) {
    exists acts :: IsRun(k, Init(k), acts, t)
  }

  /** The state after some actions. */
  function After(k: Config, acts: seq<Action>): State {
    if acts == [] then Init(k)
    else
      var m, last := After(k, acts[..|acts| - 1]), acts[|acts| - 1];
      if Enabled(k, m, last) then Next(k, m, last) else m
  }

  ghost predicate Runs(k: Config, acts: seq<Action>) { IsRun(k, Init(k), acts, After(k, acts)) }

  lemma {:induction false} RunIsAfter(k: Config, acts: seq<Action>, t: State)
    requires IsRun(k, Init(k), acts, t)
    ensures t == After(k, acts)
    decreases |acts|
  {
    hide Enabled, Next;
    if acts != [] {
      var front, last := acts[..|acts| - 1], acts[|acts| - 1];
      var m :| IsRun(k, Init(k), front, m) && Enabled(k, m, last) && t == Next(k, m, last);
      RunIsAfter(k, front, m);
    }
  }

  lemma Shorter(k: Config, acts: seq<Action>)
    requires Runs(k, acts) && acts != []
    ensures
      var front, last := acts[..|acts| - 1], acts[|acts| - 1];
      Runs(k, front) && Enabled(k, After(k, front), last) && After(k, acts) == Next(k, After(k, front), last)
  {
    hide Enabled, Next;
    var front, last := acts[..|acts| - 1], acts[|acts| - 1];
    var m :| IsRun(k, Init(k), front, m) && Enabled(k, m, last) && After(k, acts) == Next(k, m, last);
    RunIsAfter(k, front, m);
  }
}
