/**
 * The invariant every interleaving keeps: who may hold a lock, what an unlocked head and a held lock say,
 * what a local copy is worth, and that only the newest version of a record can be unpublished.
 */
module Core {
  import opened Words
  import opened Records
  import opened Protocol

  predicate Active(cl: Client) { cl.phase == Locking || cl.phase == Reverting || cl.phase == Committing }

  predicate Holding(st: Stage) { st == Held || st == Listed || st == Ringed }

  /** Client `c` owns the lock on `r`. */
  predicate Holds(s: State, c: nat, r: Rid) {
    && c < |s.clients| && Active(s.clients[c])
    && r in s.clients[c].stage && Holding(s.clients[c].stage[r])
  }

  /** The stages that occur in each phase. */
  predicate StageFits(p: Phase, st: Stage) {
    match p
    case Locking => st == ToLock || st == Held || st == Failed
    case Reverting => st == Held || st == Failed || st == Reverted
    case Committing => st == Held || st == Listed || st == Ringed || st == Installed
    case _ => true
  }

  ghost predicate ClientShape(k: Config, c: nat, cl: Client) {
    && |cl.snap| == k.clients && 1 <= cl.epoch
    && cl.copies.Keys <= k.initial.Keys
    && (forall r :: r in cl.lists ==> |cl.lists[r]| == k.versions)
    && (cl.phase != Idle ==> WellFormed(cl.txn) && cl.txn.readSet <= k.initial.Keys)
    && (cl.phase == Reading ==> cl.lists.Keys <= cl.copies.Keys <= cl.txn.readSet)
    && (cl.phase == Fetching || Active(cl) ==> cl.copies.Keys == cl.txn.readSet && cl.txn.listSet <= cl.lists.Keys)
    && (cl.phase == Fetching ==> cl.pending <= cl.txn.fallback)
    && (Active(cl) ==> cl.stage.Keys == cl.txn.writes.Keys)
    && (Active(cl) ==> forall r :: r in cl.txn.readSet ==> CopyAccessible(cl, c, r))
    && (Active(cl) ==> forall r :: r in cl.stage ==> StageFits(cl.phase, cl.stage[r]))
  }

  ghost predicate Shape(k: Config, s: State) {
    && ValidConfig(k)
    && |s.clients| == |s.vector| == k.clients && |s.readers| == k.readers
    && s.mem.Keys == s.hist.Keys == s.orderIds.Keys == k.initial.Keys
    && (forall g :: 0 <= g < k.readers ==> |s.readers[g]| == k.clients)
    && (forall c :: 0 <= c < k.clients ==> ClientShape(k, c, s.clients[c]))
  }

  /** Installed words are unlocked, name their own ring slot, and a writer's timestamps increase along the history. */
  ghost predicate HistOk(k: Config, h: seq<Entry>) {
    && |h| >= 1
    && (forall i :: 0 <= i < |h| ==> WordOk(k, h[i].version.word, i))
    && (forall i, j :: 0 <= i < j < |h| && h[i].version.word.client == h[j].version.word.client ==>
          h[i].version.word.ts < h[j].version.word.ts)
  }

  /** The ring slot of a record's i-th version: slots are used round robin. */
  function Slot(k: Config, i: nat): nat {
    if i == 0 || Slot(k, i - 1) + 1 >= k.versions then 0 else Slot(k, i - 1) + 1
  }

  predicate WordOk(k: Config, w: Word, i: nat) {
    1 <= k.versions && !w.locked && !w.deleted && w.offset == Slot(k, i) && w.client < k.clients && w.ts < TS_RANGE
  }

  function Last(h: seq<Entry>): Entry
    requires h != []
  {
    h[|h| - 1]
  }

  ghost predicate InHist(h: seq<Entry>, v: Version) { exists i :: 0 <= i < |h| && h[i].version == v }

  /** The head is the newest version, with its own word or the lock word of a holder. */
  ghost predicate CellOk(k: Config, s: State, r: Rid)
    requires r in s.mem && r in s.hist && s.hist[r] != []
  {
    var cell := s.mem[r];
    && cell.head.payload == Last(s.hist[r]).version.payload
    && (if cell.head.word.locked then Holds(s, cell.head.word.client, r)
        else cell.head.word == Last(s.hist[r]).version.word)
    && |cell.list| == k.versions && |cell.ring| == k.versions
    && (forall j :: 0 <= j < |cell.ring| ==> cell.ring[j].word == UNUSED || InHist(s.hist[r], cell.ring[j]))
  }

  /** A held lock: the head carries the holder's lock word, and the holder's copy is the newest version. */
  predicate HoldOk(s: State, c: nat, r: Rid)
    requires c < |s.clients| && r in s.mem && r in s.hist && s.hist[r] != []
  {
    Holds(s, c, r) ==>
      && r in s.clients[c].copies
      && s.mem[r].head.word == LockWord(s.clients[c], c, r)
      && s.clients[c].copies[r].version == Last(s.hist[r]).version
      && s.clients[c].copies[r].idx == |s.hist[r]| - 1
  }

  /**
   * An unlocked copy is a version of the record's history, unless it came from a ring slot never written; a copy of a
   * locked head still names the slot of the version under the lock.
   */
  predicate CopyOk(s: State, c: nat, r: Rid)
    requires c < |s.clients| && r in s.hist
  {
    r in s.clients[c].copies ==>
      var cp := s.clients[c].copies[r];
      && Fits(cp.version.word)
      && cp.idx < |s.hist[r]|
      && (!cp.older ==> cp.version.word.offset == s.hist[r][cp.idx].version.word.offset)
      && (!cp.version.word.locked && (cp.older ==> !cp.version.word.deleted) ==>
            cp.version == s.hist[r][cp.idx].version)
  }

  /** The writer of the newest version of `r` has installed it but not yet published. */
  predicate Unpublished(s: State, r: Rid, w: Word) {
    && w.client < |s.clients| && s.clients[w.client].phase == Committing && s.clients[w.client].cts == w.ts
    && r in s.clients[w.client].stage && s.clients[w.client].stage[r] == Installed
  }

  predicate Published(s: State, w: Word) { w.client < |s.vector| && w.ts <= s.vector[w.client] }

  /** Only the newest version of a record can be unpublished. */
  ghost predicate PubOk(s: State, r: Rid)
    requires r in s.hist
  {
    forall i :: 0 <= i < |s.hist[r]| ==>
      var w := s.hist[r][i].version.word;
      Published(s, w) || (i == |s.hist[r]| - 1 && Unpublished(s, r, w))
  }

  /** The timestamp a client draws at an epoch, before truncation. */
  function Stamp(k: Config, epoch: nat, c: nat): nat {
    if epoch == 0 then c else Stamp(k, epoch - 1, c) + k.clients
  }

  /** A client's published timestamp is below the one it carries, which is below the next one it draws. */
  predicate StampOk(k: Config, s: State, c: nat)
    requires c < |s.clients| && c < |s.vector|
  {
    var cl := s.clients[c];
    && s.vector[c] < Stamp(k, cl.epoch, c)
    && (Active(cl) ==> s.vector[c] < cl.cts < Stamp(k, cl.epoch, c) && cl.cts < TS_RANGE)
  }

  /** Snapshots trail the reader's copy, which trails the oracle's vector. */
  ghost predicate SnapOk(k: Config, s: State, c: nat)
    requires Shape(k, s) && c < k.clients
  {
    forall i :: 0 <= i < k.clients && i != c ==> s.clients[c].snap[i] <= s.readers[k.group[c]][i]
  }

  ghost predicate ReaderOk(k: Config, s: State, g: nat)
    requires Shape(k, s) && g < k.readers
  {
    forall i :: 0 <= i < k.clients ==> s.readers[g][i] <= s.vector[i]
  }

  ghost predicate RecordInv(k: Config, s: State, r: Rid)
    requires r in s.mem && r in s.hist
  {
    HistOk(k, s.hist[r]) && CellOk(k, s, r) && PubOk(s, r)
  }

  ghost predicate Inv(k: Config, s: State) {
    && Shape(k, s)
    && (forall r :: r in s.mem ==> RecordInv(k, s, r))
    && (forall c, r :: 0 <= c < k.clients && r in s.mem ==> HoldOk(s, c, r) && CopyOk(s, c, r))
    && (forall c :: 0 <= c < k.clients ==> StampOk(k, s, c) && SnapOk(k, s, c))
    && (forall g :: 0 <= g < k.readers ==> ReaderOk(k, s, g))
  }

  // ---------------------------------------------------------------- consequences used by the step lemmas

  /** What the invariant says about one client and one record. */
  lemma Facts(k: Config, s: State, c: nat, r: Rid)
    requires Inv(k, s) && c < k.clients && r in s.mem
    ensures RecordInv(k, s, r) && HoldOk(s, c, r) && CopyOk(s, c, r)
    ensures StampOk(k, s, c) && SnapOk(k, s, c) && k.group[c] < k.readers && ReaderOk(k, s, k.group[c])
    ensures ClientShape(k, c, s.clients[c])
  {}

  /** The sizes and domains that the invariant fixes. */
  lemma Sizes(k: Config, s: State)
    requires Inv(k, s)
    ensures |s.clients| == |s.vector| == k.clients && |s.readers| == k.readers && 1 <= k.versions <= OFFSET_RANGE
    ensures s.mem.Keys == s.hist.Keys == s.orderIds.Keys == k.initial.Keys && |k.group| == k.clients
  {}

  lemma RecordHist(k: Config, s: State, r: Rid)
    requires r in s.mem && r in s.hist && RecordInv(k, s, r)
    ensures s.hist[r] != [] && HistOk(k, s.hist[r])
  {}

  /** At most one client holds a record's lock. */
  lemma OneHolder(k: Config, s: State, c: nat, d: nat, r: Rid)
    requires Inv(k, s) && r in s.mem && Holds(s, c, r) && Holds(s, d, r)
    ensures c == d
  {
    Facts(k, s, c, r);
    Facts(k, s, d, r);
  }

  /** No two versions of one record carry the same word. */
  lemma WordsDistinct(k: Config, h: seq<Entry>, i: nat, j: nat)
    requires HistOk(k, h) && i < |h| && j < |h| && h[i].version.word == h[j].version.word
    ensures i == j
  {}

  /** A copy that bears the current head's word, unlocked, is the newest version. */
  lemma EqualWordIsNewest(k: Config, s: State, c: nat, r: Rid)
    requires c < |s.clients| && r in s.mem && r in s.hist && r in s.clients[c].copies
    requires RecordInv(k, s, r) && CopyOk(s, c, r) && CopyAccessible(s.clients[c], c, r)
    requires s.mem[r].head.word == s.clients[c].copies[r].version.word
    ensures s.mem[r].head == s.clients[c].copies[r].version == Last(s.hist[r]).version
    ensures s.clients[c].copies[r].idx == |s.hist[r]| - 1
  {
    WordsDistinct(k, s.hist[r], s.clients[c].copies[r].idx, |s.hist[r]| - 1);
  }

  /**
   * Every head word fits its 64 bits, so comparing raw words compares timestamps; a lock keeps its version's offset.
   */
  lemma HeadFits(k: Config, s: State, r: Rid)
    requires Inv(k, s) && r in s.mem
    ensures Fits(s.mem[r].head.word) && s.mem[r].head.word.offset == Last(s.hist[r]).version.word.offset
  {
    var h := s.hist[r];
    assert RecordInv(k, s, r);
    assert WordOk(k, h[|h| - 1].version.word, |h| - 1);
    SlotInRange(k, |h| - 1);
    var w := s.mem[r].head.word;
    if w.locked { Facts(k, s, w.client, r); }
  }

  lemma SlotInRange(k: Config, i: nat)
    requires 1 <= k.versions
    ensures Slot(k, i) < k.versions
  {}

  /** A compare-and-swap that succeeds on an accessible copy has found the newest version, unlocked. */
  lemma CasFindsNewest(k: Config, s: State, c: nat, r: Rid)
    requires Inv(k, s) && c < k.clients && r in s.mem && r in s.clients[c].copies
    requires CopyAccessible(s.clients[c], c, r)
    requires SameBits(s.mem[r].head.word, s.clients[c].copies[r].version.word)
    ensures s.mem[r].head == s.clients[c].copies[r].version == Last(s.hist[r]).version
    ensures s.clients[c].copies[r].idx == |s.hist[r]| - 1
    ensures !s.mem[r].head.word.locked
  {
    Facts(k, s, c, r);
    HeadFits(k, s, r);
    SameBitsMeansEqual(s.mem[r].head.word, s.clients[c].copies[r].version.word);
    EqualWordIsNewest(k, s, c, r);
  }

  /** Apart from its own entry, a client's snapshot never runs ahead of the oracle. */
  lemma SnapBelowVector(k: Config, s: State, c: nat)
    requires Inv(k, s) && c < k.clients
    ensures forall i :: 0 <= i < k.clients && i != c ==> s.clients[c].snap[i] <= s.vector[i]
  {
    assert SnapOk(k, s, c) && ReaderOk(k, s, k.group[c]);
  }

  /** A version inside a client's snapshot is published, unless it is the client's own and still unpublished. */
  lemma SeenIsPublished(k: Config, s: State, c: nat, r: Rid, i: nat)
    requires r in s.hist && i < |s.hist[r]| && HistOk(k, s.hist[r]) && PubOk(s, r) && c < |s.clients|
    requires |s.clients[c].snap| == |s.vector| == k.clients
    requires forall j :: 0 <= j < k.clients && j != c ==> s.clients[c].snap[j] <= s.vector[j]
    requires InSnapshot(s.hist[r][i].version.word, c, s.clients[c].snap)
    requires s.hist[r][i].version.word.client == c ==> !Unpublished(s, r, s.hist[r][i].version.word)
    ensures Published(s, s.hist[r][i].version.word)
  {
    assert WordOk(k, s.hist[r][i].version.word, i);
  }
}
