/** Every action keeps the protocol invariant. */
module Steps {
  import opened Words
  import opened Records
  import opened Protocol
  import opened Core
  import opened Arithmetic

  // ---------------------------------------------------------------- framing

  /** A record none of whose memory, history, locks or unpublished versions change keeps its invariant. */
  lemma RecordFrame(k: Config, s: State, t: State, r: Rid)
    requires r in s.mem && r in s.hist && RecordInv(k, s, r)
    requires r in t.mem && r in t.hist && t.mem[r] == s.mem[r] && t.hist[r] == s.hist[r]
    requires forall c :: Holds(s, c, r) ==> Holds(t, c, r)
    requires |t.vector| == |s.vector| && forall i :: 0 <= i < |s.vector| ==> s.vector[i] <= t.vector[i]
    requires forall w :: Unpublished(s, r, w) ==> Unpublished(t, r, w) || Published(t, w)
    ensures RecordInv(k, t, r)
  {}

  /** Snapshots, reader copies and timestamps that only grow at the oracle keep their order. */
  lemma OrderFrame(k: Config, s: State, t: State, c: nat)
    requires Inv(k, s) && Shape(k, t) && c < k.clients
    requires t.readers == s.readers && t.vector == s.vector
    requires forall d :: 0 <= d < k.clients && d != c ==> t.clients[d] == s.clients[d]
    requires StampOk(k, t, c) && SnapOk(k, t, c)
    ensures forall d :: 0 <= d < k.clients ==> StampOk(k, t, d) && SnapOk(k, t, d)
    ensures forall g :: 0 <= g < k.readers ==> ReaderOk(k, t, g)
  {
    forall d | 0 <= d < k.clients ensures StampOk(k, t, d) && SnapOk(k, t, d) {
      assert StampOk(k, s, d) && SnapOk(k, s, d);
    }
    forall g | 0 <= g < k.readers ensures ReaderOk(k, t, g) { assert ReaderOk(k, s, g); }
  }

  /** What is required of client `c`'s new record when nothing else changes. */
  ghost predicate ClientStepOk(k: Config, s: State, t: State, c: nat, r: Rid)
    requires c < |s.clients| && c < |t.clients| && r in t.hist
  {
    && (Holds(s, c, r) <==> Holds(t, c, r))
    && (Holds(s, c, r) ==> t.clients[c].copies == s.clients[c].copies && t.clients[c].cts == s.clients[c].cts)
    && CopyOk(t, c, r)
  }

  /** Only the local state of client `c` changes, and `c` is not installing. */
  predicate ClientStep(s: State, t: State, c: nat) {
    && c < |s.clients| && |t.clients| == |s.clients| && s.clients[c].phase != Committing
    && t.mem == s.mem && t.hist == s.hist && t.vector == s.vector && t.readers == s.readers && t.orderIds == s.orderIds
    && t.clients == s.clients[c := t.clients[c]]
  }

  /** The client's snapshot trails its reader's copy, apart from its own entry. */
  ghost predicate Trails(k: Config, s: State, cl: Client, c: nat) {
    && |cl.snap| == k.clients && c < |k.group| && k.group[c] < |s.readers| && |s.readers[k.group[c]]| == k.clients
    && forall i :: 0 <= i < k.clients && i != c ==> cl.snap[i] <= s.readers[k.group[c]][i]
  }

  lemma StepOnClient(k: Config, s: State, t: State, c: nat)
    requires Inv(k, s) && ClientStep(s, t, c)
    requires ClientShape(k, c, t.clients[c])
    requires forall r :: r in s.mem && r in s.hist ==> ClientStepOk(k, s, t, c, r)
    requires c < |t.vector| && StampOk(k, t, c)
    requires Trails(k, s, t.clients[c], c)
    ensures Inv(k, t)
  {
    assert Shape(k, t);
    OrderFrame(k, s, t, c);
    forall r | r in t.mem ensures RecordInv(k, t, r) {
      Facts(k, s, c, r);
      ClientStepRecord(k, s, t, c, r);
    }
    forall d, r | 0 <= d < k.clients && r in t.mem ensures HoldOk(t, d, r) && CopyOk(t, d, r) {
      Facts(k, s, d, r);
      ClientStepHold(s, t, c, d, r, k);
    }
  }

  lemma ClientStepHold(s: State, t: State, c: nat, d: nat, r: Rid, k: Config)
    requires ClientStep(s, t, c) && r in s.mem && r in s.hist && s.hist[r] != [] && d < |s.clients|
    requires ClientStepOk(k, s, t, c, r) && HoldOk(s, d, r) && CopyOk(s, d, r)
    ensures HoldOk(t, d, r) && CopyOk(t, d, r)
  {}

  lemma ClientStepRecord(k: Config, s: State, t: State, c: nat, r: Rid)
    requires ClientStep(s, t, c) && r in s.mem && r in s.hist && RecordInv(k, s, r)
    requires ClientStepOk(k, s, t, c, r)
    ensures RecordInv(k, t, r)
  {
    RecordFrame(k, s, t, r);
  }

  /** A step of client `c` that writes record `r` and moves `c`'s stage there. */
  ghost predicate RecordStep(s: State, t: State, c: nat, r: Rid) {
    && c < |s.clients| && r in s.mem && r in s.hist && r in t.mem && r in t.hist
    && t.mem == s.mem[r := t.mem[r]] && t.hist == s.hist[r := t.hist[r]]
    && t.vector == s.vector && t.readers == s.readers && t.orderIds.Keys == s.orderIds.Keys
    && |t.clients| == |s.clients| && t.clients == s.clients[c := t.clients[c]]
    && OnlyStage(s.clients[c], t.clients[c], r)
    && s.hist[r] <= t.hist[r]
    && Active(s.clients[c]) && (r in t.clients[c].stage ==> StageFits(s.clients[c].phase, t.clients[c].stage[r]))
  }

  predicate OnlyStage(cl: Client, cm: Client, r: Rid) {
    && cm == cl.(stage := cm.stage, before := cm.before, orderId := cm.orderId)
    && (cm.stage == cl.stage || (r in cl.stage && r in cm.stage && cm.stage == cl.stage[r := cm.stage[r]]))
  }

  lemma StepOnRecord(k: Config, s: State, t: State, c: nat, r: Rid)
    requires Inv(k, s) && RecordStep(s, t, c, r)
    requires RecordInv(k, t, r)
    requires forall d :: 0 <= d < k.clients ==> d < |t.clients| && HoldOk(t, d, r)
    ensures Inv(k, t)
  {
    RecordStepShape(k, s, t, c, r);
    RecordStepOrder(k, s, t, c, r);
    forall q | q in t.mem ensures RecordInv(k, t, q) {
      if q != r {
        Facts(k, s, c, q);
        RecordStepOther(k, s, t, c, r, q);
      }
    }
    forall d, q | 0 <= d < k.clients && q in t.mem ensures HoldOk(t, d, q) && CopyOk(t, d, q) {
      Facts(k, s, d, q);
      RecordStepHold(k, s, t, c, r, d, q);
    }
  }

  lemma RecordStepShape(k: Config, s: State, t: State, c: nat, r: Rid)
    requires Shape(k, s) && RecordStep(s, t, c, r)
    ensures Shape(k, t)
  {
    OnlyStageShape(k, c, s.clients[c], t.clients[c], r);
  }

  lemma OnlyStageShape(k: Config, c: nat, cl: Client, cm: Client, r: Rid)
    requires ClientShape(k, c, cl) && Active(cl) && OnlyStage(cl, cm, r)
    requires r in cm.stage ==> StageFits(cl.phase, cm.stage[r])
    ensures ClientShape(k, c, cm)
  {
    assert forall q :: CopyAccessible(cm, c, q) == CopyAccessible(cl, c, q);
  }

  lemma RecordStepOrder(k: Config, s: State, t: State, c: nat, r: Rid)
    requires Inv(k, s) && RecordStep(s, t, c, r) && Shape(k, t)
    ensures forall d :: 0 <= d < k.clients ==> StampOk(k, t, d) && SnapOk(k, t, d)
    ensures forall g :: 0 <= g < k.readers ==> ReaderOk(k, t, g)
  {
    Facts(k, s, c, r);
    OrderFrame(k, s, t, c);
  }

  lemma RecordStepOther(k: Config, s: State, t: State, c: nat, r: Rid, q: Rid)
    requires RecordStep(s, t, c, r) && q in s.mem && q in s.hist && q != r && RecordInv(k, s, q)
    ensures RecordInv(k, t, q)
  {
    RecordFrame(k, s, t, q);
  }

  lemma RecordStepHold(k: Config, s: State, t: State, c: nat, r: Rid, d: nat, q: Rid)
    requires RecordStep(s, t, c, r) && q in s.mem && q in s.hist && d < |s.clients|
    requires s.hist[q] != [] && HoldOk(s, d, q) && CopyOk(s, d, q)
    requires t.hist[r] != [] && HoldOk(t, d, r)
    ensures HoldOk(t, d, q) && CopyOk(t, d, q)
  {}

  // ---------------------------------------------------------------- actions on one record

  /** All that the invariant says about one record, over all clients. */
  ghost predicate Around(k: Config, s: State, r: Rid) {
    && r in s.mem && r in s.hist && RecordInv(k, s, r)
    && (forall d :: 0 <= d < |s.clients| ==> HoldOk(s, d, r))
  }

  lemma AroundFacts(k: Config, s: State, r: Rid)
    requires Inv(k, s) && r in s.mem
    ensures Around(k, s, r)
  {}

  /** A write beside the head: the lock and the newest version stay as they are. */
  lemma QuietWrite(k: Config, s: State, t: State, c: nat, r: Rid)
    requires Around(k, s, r) && RecordStep(s, t, c, r)
    requires t.hist[r] == s.hist[r] && t.mem[r].head == s.mem[r].head
    requires |t.mem[r].list| == k.versions && |t.mem[r].ring| == k.versions
    requires forall j :: 0 <= j < k.versions ==>
      t.mem[r].ring[j] == s.mem[r].ring[j] || InHist(s.hist[r], t.mem[r].ring[j])
    requires Holds(s, c, r) <==> Holds(t, c, r)
    requires r in s.clients[c].stage && s.clients[c].stage[r] == Installed ==> t.clients[c].stage == s.clients[c].stage
    ensures Around(k, t, r)
  {
    RecordFrame(k, s, s.(clients := t.clients), r);
    forall d | 0 <= d < |t.clients| ensures HoldOk(t, d, r) { assert HoldOk(s, d, r); }
  }

  /** What the invariant says about a client that acts on a record, without the rest of the state. */
  ghost predicate Acting(k: Config, s: State, c: nat, r: Rid) {
    && c < |s.clients| && r in s.clients[c].copies && ClientShape(k, c, s.clients[c]) && ValidConfig(k)
    && Around(k, s, r) && CopyOk(s, c, r) && Active(s.clients[c])
  }

  lemma ActingFacts(k: Config, s: State, c: nat, r: Rid)
    requires Inv(k, s) && c < k.clients && r in s.mem && r in s.clients[c].copies && Active(s.clients[c])
    ensures Acting(k, s, c, r)
  {
    Facts(k, s, c, r);
    AroundFacts(k, s, r);
  }

  lemma StepAround(k: Config, s: State, t: State, c: nat, r: Rid)
    requires Inv(k, s) && RecordStep(s, t, c, r) && Around(k, t, r)
    ensures Inv(k, t)
  {
    StepOnRecord(k, s, t, c, r);
  }

  lemma AppendListAround(k: Config, s: State, c: nat, r: Rid)
    requires Acting(k, s, c, r) && CanAppendList(s, c, r)
    ensures RecordStep(s, DoAppendList(s, c, r), c, r) && Around(k, DoAppendList(s, c, r), r)
  {
    AppendListStep(k, s, c, r);
    RingUntouched(k, s, r);
    hide HoldOk, RecordInv, CopyOk, ClientShape, ValidConfig, DoAppendList, RecordStep;
    QuietWrite(k, s, DoAppendList(s, c, r), c, r);
  }

  lemma RingUntouched(k: Config, s: State, r: Rid)
    requires Around(k, s, r)
    ensures |s.mem[r].ring| == k.versions == |s.mem[r].list|
  {}

  lemma AppendListStep(k: Config, s: State, c: nat, r: Rid)
    requires CanAppendList(s, c, r) && r in s.hist && ClientShape(k, c, s.clients[c]) && 1 <= k.versions
    ensures RecordStep(s, DoAppendList(s, c, r), c, r) && (Holds(s, c, r) && Holds(DoAppendList(s, c, r), c, r))
    ensures
      var t := DoAppendList(s, c, r);
      && t.hist[r] == s.hist[r] && t.mem[r].head == s.mem[r].head && t.mem[r].ring == s.mem[r].ring
      && |t.mem[r].list| == k.versions && s.clients[c].stage[r] != Installed
  {}

  lemma AppendListKeeps(k: Config, s: State, c: nat, r: Rid)
    requires Inv(k, s) && CanAppendList(s, c, r)
    ensures Inv(k, DoAppendList(s, c, r))
  {
    ActingFacts(k, s, c, r);
    AppendListAround(k, s, c, r);
    StepAround(k, s, DoAppendList(s, c, r), c, r);
  }

  lemma AppendRingAround(k: Config, s: State, c: nat, r: Rid)
    requires Acting(k, s, c, r) && CanAppendRing(s, c, r)
    ensures RecordStep(s, DoAppendRing(s, c, r), c, r) && Around(k, DoAppendRing(s, c, r), r)
  {
    AppendRingStep(s, c, r);
    RingUntouched(k, s, r);
    CopyInHist(k, s, c, r);
    hide HoldOk, RecordInv, CopyOk, ClientShape, ValidConfig, DoAppendRing, RecordStep, InHist;
    QuietWrite(k, s, DoAppendRing(s, c, r), c, r);
  }

  lemma CopyInHist(k: Config, s: State, c: nat, r: Rid)
    requires Around(k, s, r) && Holds(s, c, r) && r in s.clients[c].copies
    ensures InHist(s.hist[r], s.clients[c].copies[r].version)
  {
    assert HoldOk(s, c, r);
    assert s.hist[r][|s.hist[r]| - 1].version == s.clients[c].copies[r].version;
  }

  lemma AppendRingStep(s: State, c: nat, r: Rid)
    requires CanAppendRing(s, c, r) && r in s.hist
    ensures RecordStep(s, DoAppendRing(s, c, r), c, r) && (Holds(s, c, r) && Holds(DoAppendRing(s, c, r), c, r))
    ensures
      var t, v := DoAppendRing(s, c, r), s.clients[c].copies[r].version;
      && t.hist[r] == s.hist[r] && t.mem[r].head == s.mem[r].head && t.mem[r].list == s.mem[r].list
      && v.word.offset < |s.mem[r].ring| && t.mem[r].ring == s.mem[r].ring[v.word.offset := v]
      && s.clients[c].stage[r] != Installed
  {}

  lemma AppendRingKeeps(k: Config, s: State, c: nat, r: Rid)
    requires Inv(k, s) && CanAppendRing(s, c, r)
    ensures Inv(k, DoAppendRing(s, c, r))
  {
    ActingFacts(k, s, c, r);
    AppendRingAround(k, s, c, r);
    StepAround(k, s, DoAppendRing(s, c, r), c, r);
  }

  lemma FetchAddAround(k: Config, s: State, c: nat, r: Rid)
    requires CanFetchAdd(s, c) && r == s.clients[c].txn.counter.value && Around(k, s, r)
    requires s.orderIds.Keys == s.mem.Keys && ClientShape(k, c, s.clients[c])
    ensures RecordStep(s, DoFetchAdd(s, c), c, r) && Around(k, DoFetchAdd(s, c), r)
  {
    QuietWrite(k, s, DoFetchAdd(s, c), c, r);
  }

  lemma FetchAddKeeps(k: Config, s: State, c: nat)
    requires Inv(k, s) && CanFetchAdd(s, c)
    ensures Inv(k, DoFetchAdd(s, c))
  {
    var r := s.clients[c].txn.counter.value;
    Facts(k, s, c, r);
    AroundFacts(k, s, r);
    FetchAddAround(k, s, c, r);
    StepAround(k, s, DoFetchAdd(s, c), c, r);
  }

  lemma TryLockAround(k: Config, s: State, c: nat, r: Rid)
    requires Acting(k, s, c, r) && CanTryLock(s, c, r)
    requires SameBits(s.mem[r].head.word, s.clients[c].copies[r].version.word) ==>
      && s.mem[r].head == s.clients[c].copies[r].version == Last(s.hist[r]).version && !s.mem[r].head.word.locked
      && s.clients[c].copies[r].idx == |s.hist[r]| - 1
    ensures RecordStep(s, DoTryLock(s, c, r), c, r) && Around(k, DoTryLock(s, c, r), r)
  {
    var t := DoTryLock(s, c, r);
    TryLockStep(s, c, r);
    RingUntouched(k, s, r);
    hide HoldOk, RecordInv, CopyOk, ClientShape, ValidConfig, DoTryLock, SameBits, LockWord, InHist, RecordStep, Holds;
    if SameBits(s.mem[r].head.word, s.clients[c].copies[r].version.word) {
      LockAround(k, s, t, c, r);
    } else {
      QuietWrite(k, s, t, c, r);
    }
  }

  lemma TryLockStep(s: State, c: nat, r: Rid)
    requires CanTryLock(s, c, r) && r in s.hist
    ensures RecordStep(s, DoTryLock(s, c, r), c, r)
    ensures
      var t := DoTryLock(s, c, r);
      && t.hist == s.hist && r in t.clients[c].stage
      && (if SameBits(s.mem[r].head.word, s.clients[c].copies[r].version.word)
          then t.clients[c].stage[r] == Held && t.mem[r] == SetWord(s.mem[r], LockWord(s.clients[c], c, r))
          else t.clients[c].stage[r] == Failed && t.mem[r] == s.mem[r] && !Holds(t, c, r))
      && !Holds(s, c, r)
  {
    hide SameBits, LockWord;
  }

  lemma LockAround(k: Config, s: State, t: State, c: nat, r: Rid)
    requires Acting(k, s, c, r) && RecordStep(s, t, c, r) && CanTryLock(s, c, r) && r in t.clients[c].stage
    requires t.clients[c].stage[r] == Held
    requires s.mem[r].head == s.clients[c].copies[r].version == Last(s.hist[r]).version && !s.mem[r].head.word.locked
    requires s.clients[c].copies[r].idx == |s.hist[r]| - 1
    requires t.hist[r] == s.hist[r] && t.mem[r] == SetWord(s.mem[r], LockWord(s.clients[c], c, r))
    ensures Around(k, t, r)
  {
    LockRecord(k, s, t, c, r);
    RecordHist(k, s, r);
    hide HoldOk, RecordInv, HistOk, CopyOk, ClientShape, ValidConfig;
    forall d | 0 <= d < |t.clients| ensures HoldOk(t, d, r) {
      assert HoldOk(s, d, r);
      LockHold(s, t, c, r, d);
    }
  }

  lemma LockRecord(k: Config, s: State, t: State, c: nat, r: Rid)
    requires RecordStep(s, t, c, r) && r in s.clients[c].copies && RecordInv(k, s, r)
    requires r in t.clients[c].stage && t.clients[c].stage[r] == Held
    requires r in s.clients[c].stage && s.clients[c].stage[r] == ToLock
    requires t.hist[r] == s.hist[r] && t.mem[r] == SetWord(s.mem[r], LockWord(s.clients[c], c, r))
    ensures RecordInv(k, t, r)
  {}

  lemma LockHold(s: State, t: State, c: nat, r: Rid, d: nat)
    requires RecordStep(s, t, c, r) && r in s.clients[c].copies && s.hist[r] != [] && d < |s.clients| && HoldOk(s, d, r)
    requires s.mem[r].head == s.clients[c].copies[r].version == Last(s.hist[r]).version && !s.mem[r].head.word.locked
    requires s.clients[c].copies[r].idx == |s.hist[r]| - 1
    requires t.hist[r] == s.hist[r] && t.mem[r] == SetWord(s.mem[r], LockWord(s.clients[c], c, r))
    ensures HoldOk(t, d, r)
  {}

  lemma TryLockKeeps(k: Config, s: State, c: nat, r: Rid)
    requires Inv(k, s) && CanTryLock(s, c, r)
    ensures Inv(k, DoTryLock(s, c, r))
  {
    ActingFacts(k, s, c, r);
    if SameBits(s.mem[r].head.word, s.clients[c].copies[r].version.word) { CasFindsNewest(k, s, c, r); }
    TryLockAround(k, s, c, r);
    StepAround(k, s, DoTryLock(s, c, r), c, r);
  }

  lemma RevertAround(k: Config, s: State, c: nat, r: Rid)
    requires Acting(k, s, c, r) && CanRevert(s, c, r)
    ensures RecordStep(s, DoRevert(s, c, r), c, r) && Around(k, DoRevert(s, c, r), r)
  {
    hide HoldOk, RecordInv, HistOk, CopyOk, ClientShape, ValidConfig;
    var t := DoRevert(s, c, r);
    RecordHist(k, s, r);
    assert HoldOk(s, c, r);
    RevertStep(s, c, r);
    RevertRecord(k, s, c, r);
    forall d | 0 <= d < |t.clients| ensures HoldOk(t, d, r) { RevertHold(k, s, c, r, d); }
  }

  lemma RevertStep(s: State, c: nat, r: Rid)
    requires CanRevert(s, c, r) && r in s.hist
    ensures RecordStep(s, DoRevert(s, c, r), c, r) && Holds(s, c, r)
  {}

  lemma RevertRecord(k: Config, s: State, c: nat, r: Rid)
    requires CanRevert(s, c, r) && r in s.hist && RecordInv(k, s, r) && HoldOk(s, c, r)
    ensures RecordInv(k, DoRevert(s, c, r), r)
  {
    var t := DoRevert(s, c, r);
    assert forall i :: 0 <= i < |s.hist[r]| ==> WordOk(k, s.hist[r][i].version.word, i);
  }

  lemma RevertHold(k: Config, s: State, c: nat, r: Rid, d: nat)
    requires CanRevert(s, c, r) && r in s.hist && s.hist[r] != [] && d < |s.clients| && Holds(s, c, r)
    requires HoldOk(s, c, r) && HoldOk(s, d, r)
    ensures HoldOk(DoRevert(s, c, r), d, r)
  {}

  lemma RevertKeeps(k: Config, s: State, c: nat, r: Rid)
    requires Inv(k, s) && CanRevert(s, c, r)
    ensures Inv(k, DoRevert(s, c, r))
  {
    ActingFacts(k, s, c, r);
    RevertAround(k, s, c, r);
    StepAround(k, s, DoRevert(s, c, r), c, r);
  }

  /** The 8-bit increment followed by the modulus steps through the ring slots in turn. */
  lemma NextInRing(o: nat, v: nat)
    requires o < v <= OFFSET_RANGE
    ensures (o + 1) % OFFSET_RANGE % v == if o + 1 == v then 0 else o + 1
  {
    if o + 1 == OFFSET_RANGE {
      RemainderIs(0, v, 0, 0);
    } else {
      if o + 1 == v { RemainderIs(o + 1, v, 1, 0); } else { RemainderIs(o + 1, v, 0, o + 1); }
    }
  }

  lemma NextSlot(k: Config, i: nat)
    requires 1 <= k.versions <= OFFSET_RANGE
    ensures NextOffset(k, Slot(k, i)) == Slot(k, i + 1)
  {
    SlotInRange(k, i);
    NextInRing(Slot(k, i), k.versions);
  }

  /** Before an install, every version of the record is published: nothing unpublished is ever overwritten. */
  lemma AllPublished(k: Config, s: State, c: nat, r: Rid)
    requires Inv(k, s) && c < k.clients && r in s.mem && Holds(s, c, r)
    ensures forall i :: 0 <= i < |s.hist[r]| ==> Published(s, s.hist[r][i].version.word)
  {
    LastPublished(k, s, c, r);
    Facts(k, s, c, r);
    OldArePublished(s, r);
  }

  lemma OldArePublished(s: State, r: Rid)
    requires r in s.hist && s.hist[r] != [] && PubOk(s, r) && Published(s, Last(s.hist[r]).version.word)
    ensures forall i :: 0 <= i < |s.hist[r]| ==> Published(s, s.hist[r][i].version.word)
  {}

  /** The holder of a lock sees the version it is about to replace. */
  lemma HolderSees(k: Config, s: State, c: nat, r: Rid)
    requires Inv(k, s) && c < k.clients && r in s.mem && Holds(s, c, r)
    ensures s.hist[r] != []
    ensures InSnapshot(Last(s.hist[r]).version.word, c, s.clients[c].snap)
    ensures s.clients[c].stage[r] != Installed
  {
    Facts(k, s, c, r);
    assert CopyAccessible(s.clients[c], c, r);
  }

  lemma SeenNewestIsPublished(k: Config, s: State, c: nat, r: Rid)
    requires c < k.clients && c < |s.clients| && r in s.mem && r in s.hist && s.hist[r] != []
    requires |s.clients[c].snap| == |s.vector| == k.clients && RecordInv(k, s, r)
    requires InSnapshot(Last(s.hist[r]).version.word, c, s.clients[c].snap)
    requires r in s.clients[c].stage && s.clients[c].stage[r] != Installed
    requires forall j :: 0 <= j < k.clients && j != c ==> s.clients[c].snap[j] <= s.vector[j]
    ensures Published(s, Last(s.hist[r]).version.word)
  {
    SeenIsPublished(k, s, c, r, |s.hist[r]| - 1);
  }

  lemma LastPublished(k: Config, s: State, c: nat, r: Rid)
    requires Inv(k, s) && c < k.clients && r in s.mem && Holds(s, c, r)
    ensures s.hist[r] != [] && Published(s, Last(s.hist[r]).version.word)
  {
    HolderSees(k, s, c, r);
    SnapBelowVector(k, s, c);
    SeenNewestIsPublished(k, s, c, r);
  }

  /** A history stays in order when a newer word, in the next slot, of a client that published less is added. */
  lemma HistExtends(k: Config, h: seq<Entry>, e: Entry, vec: seq<nat>)
    requires HistOk(k, h) && WordOk(k, e.version.word, |h|)
    requires e.version.word.client < |vec| && vec[e.version.word.client] < e.version.word.ts
    requires forall i :: 0 <= i < |h| ==> InVec(h[i].version.word, vec)
    ensures HistOk(k, h + [e])
  {
    var g := h + [e];
    forall i | 0 <= i < |g| ensures WordOk(k, g[i].version.word, i) {
      if i < |h| { assert WordOk(k, h[i].version.word, i); }
    }
    forall i, j | 0 <= i < j < |g| && g[i].version.word.client == g[j].version.word.client
      ensures g[i].version.word.ts < g[j].version.word.ts
    {
      if j == |h| { assert InVec(h[i].version.word, vec); }
    }
  }

  predicate InVec(w: Word, vec: seq<nat>) { w.client < |vec| && w.ts <= vec[w.client] }

  lemma InstallHist(k: Config, s: State, c: nat, r: Rid)
    requires Acting(k, s, c, r) && CanInstall(k, s, c, r) && c < k.clients && c < |s.vector|
    requires s.vector[c] < s.clients[c].cts < TS_RANGE
    requires forall i :: 0 <= i < |s.hist[r]| ==> Published(s, s.hist[r][i].version.word)
    ensures HistOk(k, DoInstall(k, s, c, r).hist[r])
  {
    var h, cl := s.hist[r], s.clients[c];
    RecordHist(k, s, r);
    assert HoldOk(s, c, r);
    hide RecordInv, CopyOk, ClientShape;
    assert WordOk(k, h[|h| - 1].version.word, |h| - 1);
    NextSlot(k, |h| - 1);
    var e := Entry(NewVersion(k, cl, c, r), cl.txn.writes[r], cl.snap);
    HistExtends(k, h, e, s.vector);
  }

  lemma InstallStep(k: Config, s: State, c: nat, r: Rid)
    requires Acting(k, s, c, r) && CanInstall(k, s, c, r) && s.orderIds.Keys == s.mem.Keys
    ensures RecordStep(s, DoInstall(k, s, c, r), c, r)
  {}

  lemma InstallAround(k: Config, s: State, t: State, c: nat, r: Rid)
    requires Acting(k, s, c, r) && CanInstall(k, s, c, r) && c < k.clients
    requires t == DoInstall(k, s, c, r) && RecordStep(s, t, c, r) && HistOk(k, t.hist[r])
    requires forall i :: 0 <= i < |s.hist[r]| ==> Published(s, s.hist[r][i].version.word)
    ensures Around(k, t, r)
  {
    RecordHist(k, s, r);
    assert HoldOk(s, c, r);
    InstallCell(k, s, t, c, r);
    InstallPublished(k, s, t, c, r);
    hide RecordInv, HoldOk, HistOk, CopyOk, ClientShape, ValidConfig, Published, DoInstall;
    forall d | 0 <= d < |t.clients| ensures HoldOk(t, d, r) {
      assert HoldOk(s, d, r);
      InstallHold(k, s, c, r, d);
    }
    InstalledRecord(k, t, r);
  }

  lemma InstalledRecord(k: Config, t: State, r: Rid)
    requires r in t.mem && r in t.hist && t.hist[r] != [] && HistOk(k, t.hist[r]) && CellOk(k, t, r) && PubOk(t, r)
    ensures RecordInv(k, t, r)
  {}

  lemma InstallHold(k: Config, s: State, c: nat, r: Rid, d: nat)
    requires CanInstall(k, s, c, r) && s.hist[r] != [] && d < |s.clients| && HoldOk(s, d, r) && HoldOk(s, c, r)
    ensures HoldOk(DoInstall(k, s, c, r), d, r)
  {
    hide NewVersion;
  }

  lemma InstallCell(k: Config, s: State, t: State, c: nat, r: Rid)
    requires CanInstall(k, s, c, r) && t == DoInstall(k, s, c, r) && s.hist[r] != [] && CellOk(k, s, r)
    ensures t.hist[r] != [] && CellOk(k, t, r)
  {
    var h := s.hist[r];
    forall j | 0 <= j < |s.mem[r].ring| && InHist(h, s.mem[r].ring[j]) ensures InHist(t.hist[r], s.mem[r].ring[j]) {
      var i :| 0 <= i < |h| && h[i].version == s.mem[r].ring[j];
      assert t.hist[r][i].version == s.mem[r].ring[j];
    }
  }

  lemma InstallPublished(k: Config, s: State, t: State, c: nat, r: Rid)
    requires CanInstall(k, s, c, r) && t == DoInstall(k, s, c, r)
    requires forall i :: 0 <= i < |s.hist[r]| ==> Published(s, s.hist[r][i].version.word)
    ensures PubOk(t, r)
  {}

  lemma InstallKeeps(k: Config, s: State, c: nat, r: Rid)
    requires Inv(k, s) && CanInstall(k, s, c, r)
    ensures Inv(k, DoInstall(k, s, c, r))
  {
    ActingFacts(k, s, c, r);
    AllPublished(k, s, c, r);
    assert StampOk(k, s, c);
    InstallHist(k, s, c, r);
    InstallStep(k, s, c, r);
    InstallAround(k, s, DoInstall(k, s, c, r), c, r);
    StepAround(k, s, DoInstall(k, s, c, r), c, r);
  }

  // ---------------------------------------------------------------- the oracle

  lemma RefreshKeeps(k: Config, s: State, g: nat)
    requires Inv(k, s) && g < |s.readers|
    ensures Inv(k, DoRefresh(s, g))
  {
    var t := DoRefresh(s, g);
    assert Shape(k, t);
    forall c | 0 <= c < k.clients ensures SnapOk(k, t, c) {
      assert SnapOk(k, s, c) && ReaderOk(k, s, k.group[c]);
    }
    forall h | 0 <= h < k.readers ensures ReaderOk(k, t, h) { assert ReaderOk(k, s, h); }
    RefreshRecords(k, s, t);
  }

  lemma RefreshRecords(k: Config, s: State, t: State)
    requires Inv(k, s) && t == s.(readers := t.readers)
    ensures forall r :: r in t.mem ==> RecordInv(k, t, r)
    ensures forall c, r :: 0 <= c < k.clients && r in t.mem ==> HoldOk(t, c, r) && CopyOk(t, c, r)
    ensures forall c :: 0 <= c < k.clients ==> StampOk(k, t, c)
  {
    forall r | r in t.mem ensures RecordInv(k, t, r) {
      assert RecordInv(k, s, r);
      RecordFrame(k, s, t, r);
    }
    forall c, r | 0 <= c < k.clients && r in t.mem ensures HoldOk(t, c, r) && CopyOk(t, c, r) { Facts(k, s, c, r); }
    forall c | 0 <= c < k.clients ensures StampOk(k, t, c) { assert StampOk(k, s, c); }
  }

  ghost predicate PublishStep(s: State, t: State, c: nat) {
    && c < |s.clients| && c < |s.vector| && t == DoPublish(s, c)
    && s.clients[c].phase == Committing && s.vector[c] < s.clients[c].cts
    && (forall r :: r in s.clients[c].stage ==> s.clients[c].stage[r] == Installed)
  }

  lemma PublishRecord(k: Config, s: State, t: State, c: nat, r: Rid)
    requires PublishStep(s, t, c) && r in s.mem && r in s.hist && RecordInv(k, s, r)
    ensures RecordInv(k, t, r)
  {
    forall w | Unpublished(s, r, w) ensures Unpublished(t, r, w) || Published(t, w) {}
    RecordFrame(k, s, t, r);
  }

  lemma PublishClient(k: Config, s: State, t: State, c: nat, d: nat, r: Rid)
    requires PublishStep(s, t, c) && r in s.mem && r in s.hist && s.hist[r] != [] && d < |s.clients|
    requires HoldOk(s, d, r) && CopyOk(s, d, r)
    ensures HoldOk(t, d, r) && CopyOk(t, d, r)
  {}

  lemma PublishOrder(k: Config, s: State, t: State, c: nat)
    requires Inv(k, s) && PublishStep(s, t, c) && Shape(k, t)
    ensures forall d :: 0 <= d < k.clients ==> StampOk(k, t, d) && SnapOk(k, t, d)
    ensures forall g :: 0 <= g < k.readers ==> ReaderOk(k, t, g)
  {
    forall d | 0 <= d < k.clients
      ensures StampOk(k, t, d) && SnapOk(k, t, d)
    {
      assert StampOk(k, s, d) && SnapOk(k, s, d);
    }
    forall g | 0 <= g < k.readers ensures ReaderOk(k, t, g) { assert ReaderOk(k, s, g); }
  }

  lemma PublishKeeps(k: Config, s: State, c: nat)
    requires Inv(k, s) && CanPublish(s, c)
    ensures Inv(k, DoPublish(s, c))
  {
    var t := DoPublish(s, c);
    assert StampOk(k, s, c);
    assert PublishStep(s, t, c);
    PublishShape(k, s, t, c);
    PublishOrder(k, s, t, c);
    forall r | r in t.mem ensures RecordInv(k, t, r) {
      assert RecordInv(k, s, r);
      PublishRecord(k, s, t, c, r);
    }
    forall d, r | 0 <= d < k.clients && r in t.mem ensures HoldOk(t, d, r) && CopyOk(t, d, r) {
      Facts(k, s, d, r);
      PublishClient(k, s, t, c, d, r);
    }
  }

  lemma PublishShape(k: Config, s: State, t: State, c: nat)
    requires Shape(k, s) && PublishStep(s, t, c)
    ensures Shape(k, t)
  {
    assert ClientShape(k, c, s.clients[c]);
    assert ClientShape(k, c, t.clients[c]);
  }

  // ---------------------------------------------------------------- local actions of a client

  /** A local step of a client that holds no lock before or after it. */
  ghost predicate Passive(k: Config, s: State, t: State, c: nat) {
    && ClientStep(s, t, c) && ClientShape(k, c, t.clients[c])
    && (forall r :: !Holds(s, c, r) && !Holds(t, c, r))
  }

  lemma PassiveStep(k: Config, s: State, t: State, c: nat)
    requires Inv(k, s) && Passive(k, s, t, c)
    requires forall r :: r in s.mem && r in s.hist ==> CopyOk(t, c, r)
    requires c < |t.vector| && StampOk(k, t, c)
    requires Trails(k, s, t.clients[c], c)
    ensures Inv(k, t)
  {
    StepOnClient(k, s, t, c);
  }

  /** The same when the copies, the epoch and the snapshot also stay. */
  lemma PassivePhase(k: Config, s: State, t: State, c: nat)
    requires Inv(k, s) && Passive(k, s, t, c) && !Active(t.clients[c])
    requires t.clients[c].copies == s.clients[c].copies && t.clients[c].epoch == s.clients[c].epoch
    requires t.clients[c].snap == s.clients[c].snap
    ensures Inv(k, t)
  {
    forall r | r in s.mem && r in s.hist ensures CopyOk(t, c, r) { Facts(k, s, c, r); }
    ClientFacts(k, s, c);
    PassiveStep(k, s, t, c);
  }

  lemma ClientFacts(k: Config, s: State, c: nat)
    requires Inv(k, s) && c < k.clients
    ensures StampOk(k, s, c) && SnapOk(k, s, c) && ClientShape(k, c, s.clients[c])
    ensures Trails(k, s, s.clients[c], c)
  {}

  lemma SnapLength(k: Config, s: State, c: nat)
    requires Inv(k, s) && c < k.clients
    ensures |s.clients[c].snap| == k.clients
  {
    ClientFacts(k, s, c);
  }

  lemma BeginPassive(k: Config, s: State, c: nat, cart: Cart)
    requires CanBegin(k, s, c, cart) && ClientShape(k, c, s.clients[c])
    requires |s.readers[k.group[c]]| == k.clients && s.mem.Keys == k.initial.Keys
    ensures Passive(k, s, DoBegin(k, s, c, cart), c)
  {
    TxnOfWellFormed(k.commutative, cart);
  }

  lemma BeginKeeps(k: Config, s: State, c: nat, cart: Cart)
    requires Inv(k, s) && CanBegin(k, s, c, cart)
    ensures Inv(k, DoBegin(k, s, c, cart))
  {
    hide Inv, ClientShape, SnapOk, Passive, Trails, TxnOf, CopyOk;
    var t := DoBegin(k, s, c, cart);
    Sizes(k, s);
    ClientFacts(k, s, c);
    BeginTrails(k, s, c, cart);
    BeginPassive(k, s, c, cart);
    forall r | r in s.mem && r in s.hist ensures CopyOk(t, c, r) { BeginCopy(k, s, c, cart, r); }
    PassiveStep(k, s, t, c);
  }

  lemma BeginCopy(k: Config, s: State, c: nat, cart: Cart, r: Rid)
    requires CanBegin(k, s, c, cart) && r in s.hist
    ensures CopyOk(DoBegin(k, s, c, cart), c, r)
  {
    hide TxnOf;
  }

  lemma BeginTrails(k: Config, s: State, c: nat, cart: Cart)
    requires Inv(k, s) && CanBegin(k, s, c, cart)
    ensures Trails(k, s, DoBegin(k, s, c, cart).clients[c], c) && |s.readers[k.group[c]]| == k.clients
  {
    hide TxnOf, RecordInv, HoldOk, CopyOk, StampOk, SnapOk, ReaderOk, ClientShape;
  }

  lemma ReadHeadPassive(k: Config, s: State, c: nat, r: Rid)
    requires CanReadHead(s, c, r) && ClientShape(k, c, s.clients[c])
    ensures Passive(k, s, DoReadHead(s, c, r), c)
  {}

  lemma ReadHeadCopy(k: Config, s: State, c: nat, r: Rid)
    requires CanReadHead(s, c, r) && RecordInv(k, s, r) && Fits(s.mem[r].head.word)
    requires s.mem[r].head.word.offset == Last(s.hist[r]).version.word.offset
    ensures CopyOk(DoReadHead(s, c, r), c, r)
  {}

  lemma ReadHeadKeeps(k: Config, s: State, c: nat, r: Rid)
    requires Inv(k, s) && CanReadHead(s, c, r)
    ensures Inv(k, DoReadHead(s, c, r))
  {
    var t := DoReadHead(s, c, r);
    ClientFacts(k, s, c);
    ReadHeadPassive(k, s, c, r);
    forall q | q in s.mem && q in s.hist ensures CopyOk(t, c, q) {
      Facts(k, s, c, q);
      if q == r {
        HeadFits(k, s, r);
        ReadHeadCopy(k, s, c, r);
      } else {
        ReadOtherCopy(s, c, r, q);
      }
    }
    PassiveStep(k, s, t, c);
  }

  lemma ReadOtherCopy(s: State, c: nat, r: Rid, q: Rid)
    requires CanReadHead(s, c, r) && q != r && q in s.hist && CopyOk(s, c, q)
    ensures CopyOk(DoReadHead(s, c, r), c, q)
  {}

  lemma ReadListPassive(k: Config, s: State, c: nat, r: Rid, list: seq<Word>)
    requires CanReadList(k, s, c, r, list) && ClientShape(k, c, s.clients[c])
    ensures Passive(k, s, DoReadList(s, c, r, list), c)
  {}

  lemma ReadListKeeps(k: Config, s: State, c: nat, r: Rid, list: seq<Word>)
    requires Inv(k, s) && CanReadList(k, s, c, r, list)
    ensures Inv(k, DoReadList(s, c, r, list))
  {
    ClientFacts(k, s, c);
    ReadListPassive(k, s, c, r, list);
    PassivePhase(k, s, DoReadList(s, c, r, list), c);
  }

  /** A client that holds no lock and moves to a state in which it holds none. */
  lemma PassiveBySet(k: Config, s: State, c: nat, cm: Client)
    requires c < |s.clients| && s.clients[c].phase != Committing && ClientShape(k, c, cm)
    requires Active(s.clients[c]) ==> forall r :: r in s.clients[c].stage ==> !Holding(s.clients[c].stage[r])
    requires Active(cm) ==> forall r :: r in cm.stage ==> !Holding(cm.stage[r])
    ensures Passive(k, s, SetClient(s, c, cm), c)
  {
    hide ClientShape;
  }

  lemma IdleShape(k: Config, c: nat, cl: Client)
    requires ClientShape(k, c, cl)
    ensures ClientShape(k, c, cl.(phase := Idle))
  {}

  lemma AbortHoldsNothing(k: Config, s: State, c: nat)
    requires CanFinishAbort(s, c) && ClientShape(k, c, s.clients[c])
    ensures forall r :: r in s.clients[c].stage ==> !Holding(s.clients[c].stage[r])
  {}

  lemma GoIdlePassive(k: Config, s: State, c: nat)
    requires c < |s.clients| && ClientShape(k, c, s.clients[c]) && s.clients[c].phase != Committing
    requires Active(s.clients[c]) ==> CanFinishAbort(s, c)
    ensures Passive(k, s, GoIdle(s, c), c)
  {
    hide ClientShape, Passive;
    if Active(s.clients[c]) { AbortHoldsNothing(k, s, c); }
    IdleShape(k, c, s.clients[c]);
    PassiveBySet(k, s, c, s.clients[c].(phase := Idle));
  }

  lemma GoIdleKeeps(k: Config, s: State, c: nat)
    requires Inv(k, s) && c < k.clients && s.clients[c].phase != Committing
    requires Active(s.clients[c]) ==> CanFinishAbort(s, c)
    ensures Inv(k, GoIdle(s, c))
  {
    ClientFacts(k, s, c);
    GoIdlePassive(k, s, c);
    PassivePhase(k, s, GoIdle(s, c), c);
  }

  lemma CheckVersionsSame(s: State, c: nat)
    requires CanCheckVersions(s, c)
    ensures
      var t := DoCheckVersions(s, c);
      && c < |t.clients| == |s.clients| && !Active(t.clients[c]) && t.clients[c].copies == s.clients[c].copies
      && t.clients[c].epoch == s.clients[c].epoch && t.clients[c].snap == s.clients[c].snap
  {
    hide Rejects, CopyAccessible;
  }

  lemma CheckVersionsPassive(k: Config, s: State, c: nat)
    requires CanCheckVersions(s, c) && ClientShape(k, c, s.clients[c])
    ensures Passive(k, s, DoCheckVersions(s, c), c)
  {
    var cl := s.clients[c];
    if exists r :: r in cl.txn.readSet && Rejects(cl, c, r) {
      hide ClientShape, Rejects, Passive;
      GoIdlePassive(k, s, c);
    } else {
      var cm := cl.(phase := Fetching, pending := set r | r in cl.txn.readSet && !CopyAccessible(cl, c, r));
      FetchingShape(k, c, cl, cm);
      hide ClientShape, Rejects, CopyAccessible, Passive;
      PassiveBySet(k, s, c, cm);
    }
  }

  lemma FetchingShape(k: Config, c: nat, cl: Client, cm: Client)
    requires ClientShape(k, c, cl) && cl.phase == Reading
    requires cl.txn.readSet <= cl.copies.Keys && cl.txn.listSet <= cl.lists.Keys
    requires forall r :: r in cl.txn.readSet ==> !Rejects(cl, c, r)
    requires cm == cl.(phase := Fetching, pending := set r | r in cl.txn.readSet && !CopyAccessible(cl, c, r))
    ensures ClientShape(k, c, cm)
  {
    hide CopyAccessible, WellFormed;
    forall r | r in cm.pending ensures r in cl.txn.fallback { assert !Rejects(cl, c, r); }
  }

  lemma CheckVersionsKeeps(k: Config, s: State, c: nat)
    requires Inv(k, s) && CanCheckVersions(s, c)
    ensures Inv(k, DoCheckVersions(s, c))
  {
    hide Inv, ClientShape, StampOk, SnapOk, Trails, DoCheckVersions, Passive;
    Sizes(k, s);
    ClientFacts(k, s, c);
    CheckVersionsPassive(k, s, c);
    CheckVersionsSame(s, c);
    PassivePhase(k, s, DoCheckVersions(s, c), c);
  }

  lemma {:induction false} LastIndexOfFinds(h: seq<Entry>, v: Version)
    requires h != []
    ensures LastIndexOf(h, v) < |h|
    ensures InHist(h, v) ==> h[LastIndexOf(h, v)].version == v
  {
    if |h| > 1 && h[|h| - 1].version != v {
      var g := h[..|h| - 1];
      LastIndexOfFinds(g, v);
      if InHist(h, v) {
        var i :| 0 <= i < |h| && h[i].version == v;
        assert g[i].version == v;
      }
    }
  }

  lemma FetchedCopy(k: Config, s: State, c: nat, r: Rid)
    requires CanFetchOlder(s, c, r) && RecordInv(k, s, r) && ValidConfig(k)
    ensures CopyOk(DoFetchOlder(s, c, r), c, r)
  {
    var v := s.mem[r].ring[FindValid(s.clients[c].lists[r], c, s.clients[c].snap)];
    LastIndexOfFinds(s.hist[r], v);
    if v.word != UNUSED {
      var i :| 0 <= i < |s.hist[r]| && s.hist[r][i].version == v;
      assert WordOk(k, v.word, i);
      SlotInRange(k, i);
    }
  }

  lemma FetchOlderPassive(k: Config, s: State, c: nat, r: Rid)
    requires CanFetchOlder(s, c, r) && ClientShape(k, c, s.clients[c])
    ensures Passive(k, s, DoFetchOlder(s, c, r), c)
  {}

  lemma FetchOtherCopy(s: State, c: nat, r: Rid, q: Rid)
    requires CanFetchOlder(s, c, r) && q != r && q in s.hist && CopyOk(s, c, q)
    ensures CopyOk(DoFetchOlder(s, c, r), c, q)
  {}

  lemma FetchOlderKeeps(k: Config, s: State, c: nat, r: Rid)
    requires Inv(k, s) && CanFetchOlder(s, c, r)
    ensures Inv(k, DoFetchOlder(s, c, r))
  {
    var t := DoFetchOlder(s, c, r);
    ClientFacts(k, s, c);
    FetchOlderPassive(k, s, c, r);
    forall q | q in s.mem && q in s.hist ensures CopyOk(t, c, q) {
      Facts(k, s, c, q);
      if q == r { FetchedCopy(k, s, c, r); } else { FetchOtherCopy(s, c, r, q); }
    }
    PassiveStep(k, s, t, c);
  }

  lemma {:induction false} StampIsProduct(k: Config, epoch: nat, c: nat)
    ensures Stamp(k, epoch, c) == epoch * k.clients + c
  {
    if epoch > 0 { StampIsProduct(k, epoch - 1, c); }
  }

  /** Below the 32-bit limit the drawn timestamp is the untruncated one, and the next one is larger. */
  lemma DrawnStamp(k: Config, epoch: nat, c: nat)
    requires c < k.clients && (epoch + 1) * k.clients <= TS_RANGE
    ensures CommitTimestamp(k, epoch, c) == Stamp(k, epoch, c) < TS_RANGE
    ensures Stamp(k, epoch, c) < Stamp(k, epoch + 1, c)
  {
    StampIsProduct(k, epoch, c);
    assert epoch * k.clients + c < (epoch + 1) * k.clients;
  }

  lemma DrawIsProduct(k: Config, epoch: nat, c: nat)
    requires c < k.clients && (epoch + 1) * k.clients <= TS_RANGE
    ensures CommitTimestamp(k, epoch, c) == epoch * k.clients + c
  {
    DrawnStamp(k, epoch, c);
    StampIsProduct(k, epoch, c);
  }

  /** The truncation is harmless exactly below the 32-bit limit. */
  lemma StampExact(k: Config, epoch: nat, c: nat)
    ensures CommitTimestamp(k, epoch, c) == Stamp(k, epoch, c) <==> Stamp(k, epoch, c) < TS_RANGE
  {
    StampIsProduct(k, epoch, c);
  }

  lemma SameVisibility(cl: Client, cm: Client, c: nat)
    requires cm.copies == cl.copies && |cm.snap| == |cl.snap|
    requires forall i :: 0 <= i < |cl.snap| && i != c ==> cm.snap[i] == cl.snap[i]
    ensures forall r :: CopyAccessible(cm, c, r) <==> CopyAccessible(cl, c, r)
  {}

  lemma LockingShape(k: Config, c: nat, cl: Client, cm: Client)
    requires ClientShape(k, c, cl) && cl.phase == Fetching
    requires forall r :: r in cl.txn.readSet ==> CopyAccessible(cl, c, r)
    requires cm == Prepared(k, cl, c)
    ensures ClientShape(k, c, cm) && forall r :: r in cm.stage ==> !Holding(cm.stage[r])
  {
    SameVisibility(cl, cm, c);
  }

  lemma ValidatePassive(k: Config, s: State, c: nat)
    requires CanValidate(k, s, c) && ClientShape(k, c, s.clients[c])
    ensures Passive(k, s, DoValidate(k, s, c), c)
  {
    var cl := s.clients[c];
    if forall r :: r in cl.txn.readSet ==> CopyAccessible(cl, c, r) {
      var cm := Prepared(k, cl, c);
      LockingShape(k, c, cl, cm);
      hide ClientShape, CopyAccessible, CommitTimestamp, Passive, Prepared;
      PassiveBySet(k, s, c, cm);
    } else {
      hide ClientShape, CopyAccessible, CommitTimestamp, Passive;
      GoIdlePassive(k, s, c);
    }
  }

  lemma ValidateStamp(k: Config, s: State, c: nat)
    requires CanValidate(k, s, c) && c < k.clients && c < |s.vector| && StampOk(k, s, c)
    ensures StampOk(k, DoValidate(k, s, c), c)
  {
    DrawnStamp(k, s.clients[c].epoch, c);
    ValidateDraws(k, s, c);
    hide DoValidate, Stamp, CommitTimestamp;
  }

  lemma ValidateDraws(k: Config, s: State, c: nat)
    requires CanValidate(k, s, c)
    ensures
      var cl, t := s.clients[c], DoValidate(k, s, c);
      && t.vector == s.vector && |t.clients| == |s.clients|
      && var cm := t.clients[c];
      && (Active(cm) ==> cm.cts == CommitTimestamp(k, cl.epoch, c) && cm.epoch == cl.epoch + 1)
      && (!Active(cm) ==> cm.epoch == cl.epoch)
  {
    hide CopyAccessible, CommitTimestamp;
  }

  lemma ValidateCopy(k: Config, s: State, c: nat, r: Rid)
    requires c < |s.clients| && r in s.hist && CopyOk(s, c, r)
    ensures CopyOk(DoValidate(k, s, c), c, r)
  {}

  lemma ValidateKeeps(k: Config, s: State, c: nat)
    requires Inv(k, s) && CanValidate(k, s, c)
    ensures Inv(k, DoValidate(k, s, c))
  {
    var t := DoValidate(k, s, c);
    ClientFacts(k, s, c);
    ValidatePassive(k, s, c);
    ValidateStamp(k, s, c);
    forall r | r in s.mem && r in s.hist ensures CopyOk(t, c, r) {
      Facts(k, s, c, r);
      ValidateCopy(k, s, c, r);
    }
    assert t.clients[c].snap == s.clients[c].snap;
    PassiveStep(k, s, t, c);
  }

  lemma DecidedShape(k: Config, c: nat, cl: Client, cm: Client)
    requires ClientShape(k, c, cl) && cl.phase == Locking && c < |cl.snap|
    requires forall r :: r in cl.stage ==> cl.stage[r] != ToLock
    requires
      if forall r :: r in cl.stage ==> cl.stage[r] == Held then
        cm == cl.(phase := Committing, snap := cl.snap[c := cl.cts])
      else cm == cl.(phase := Reverting)
    ensures ClientShape(k, c, cm)
  {
    SameVisibility(cl, cm, c);
  }

  lemma DecideLocal(k: Config, s: State, c: nat)
    requires CanDecide(s, c) && c < k.clients && ClientShape(k, c, s.clients[c])
    ensures ClientStep(s, DoDecide(s, c), c)
    ensures ClientShape(k, c, DoDecide(s, c).clients[c])
  {
    DecidedShape(k, c, s.clients[c], DoDecide(s, c).clients[c]);
  }

  lemma DecideStepOk(k: Config, s: State, c: nat, r: Rid)
    requires CanDecide(s, c) && r in s.hist && CopyOk(s, c, r)
    ensures ClientStepOk(k, s, DoDecide(s, c), c, r)
  {}

  lemma DecideKeeps(k: Config, s: State, c: nat)
    requires Inv(k, s) && CanDecide(s, c)
    ensures Inv(k, DoDecide(s, c))
  {
    var t := DoDecide(s, c);
    ClientFacts(k, s, c);
    DecideLocal(k, s, c);
    forall r | r in s.mem && r in s.hist ensures ClientStepOk(k, s, t, c, r) {
      Facts(k, s, c, r);
      DecideStepOk(k, s, c, r);
    }
    StepOnClient(k, s, t, c);
  }

  // ---------------------------------------------------------------- what an action leaves alone

  predicate WritesMemory(a: Action) {
    a.TryLock? || a.Revert? || a.AppendList? || a.AppendRing? || a.FetchAdd? || a.Install? || a.Publish?
  }

  /** The actions that write one record's word, list, ring or head. */
  predicate OnRecord(a: Action) { a.TryLock? || a.Revert? || a.AppendList? || a.AppendRing? || a.Install? }

  /** What a client's step without an effect on memory may change: its own state, and the log by a decision. */
  ghost predicate LocalFootprint(s: State, t: State, a: Action)
    requires !a.Refresh?
  {
    && a.c < |s.clients| == |t.clients| && t == s.(clients := s.clients[a.c := t.clients[a.c]], log := t.log)
    && var cl, cm := s.clients[a.c], t.clients[a.c];
    && cl.phase != Committing
    && (!a.Decide? ==> t.log == s.log && cm.phase != Committing)
    && (!a.Validate? && !a.Decide? ==> !Active(cm))
    && (!a.Validate? ==> cm.epoch == cl.epoch && cm.cts == cl.cts && cm.orderId == cl.orderId)
    && (a.Validate? && Active(cm) ==> cm.orderId.None?)
    && (!a.Begin? && !a.Decide? ==> cm.snap == cl.snap)
    && (!a.Begin? ==> cl.phase != Idle && cm.txn == cl.txn && cm.cart == cl.cart && |cm.snap| == |cl.snap|)
    && (!a.Begin? ==> forall i :: 0 <= i < |cl.snap| && i != a.c ==> cm.snap[i] == cl.snap[i])
    && (!a.Begin? && !a.ReadHead? && !a.FetchOlder? ==> cm.copies == cl.copies)
  }

  lemma StepsLocally(k: Config, s: State, a: Action)
    requires Enabled(k, s, a) && !WritesMemory(a) && !a.Refresh?
    ensures LocalFootprint(s, Next(k, s, a), a)
  {
    if a.Begin? || a.ReadHead? || a.ReadList? || a.FetchOlder? { ReadsLocally(k, s, a); }
    else {
      hide LocalFootprint, DoCheckVersions, DoValidate, DoDecide;
      match a
      case LookupFailed(c) => IdlesLocally(s, a);
      case CheckVersions(c) => ChecksLocally(s, c);
      case Validate(c) => ValidatesLocally(k, s, c);
      case Decide(c) => DecidesLocally(s, c);
      case FinishAbort(c) => IdlesLocally(s, a);
    }
  }

  lemma ReadsLocally(k: Config, s: State, a: Action)
    requires Enabled(k, s, a) && (a.Begin? || a.ReadHead? || a.ReadList? || a.FetchOlder?)
    ensures LocalFootprint(s, Next(k, s, a), a)
  {
    hide LocalFootprint, DoBegin, DoReadHead, DoReadList, DoFetchOlder;
    match a
    case Begin(c, cart) => BeginsLocally(k, s, c, cart);
    case ReadHead(c, r) => ReadsHeadLocally(s, c, r);
    case ReadList(c, r, list) => ReadsListLocally(k, s, c, r, list);
    case FetchOlder(c, r) => FetchesLocally(s, c, r);
  }

  lemma BeginsLocally(k: Config, s: State, c: nat, cart: Cart)
    requires CanBegin(k, s, c, cart)
    ensures LocalFootprint(s, DoBegin(k, s, c, cart), Begin(c, cart))
  {
    hide TxnOf;
  }

  lemma ReadsHeadLocally(s: State, c: nat, r: Rid)
    requires CanReadHead(s, c, r)
    ensures LocalFootprint(s, DoReadHead(s, c, r), ReadHead(c, r))
  {}

  lemma ReadsListLocally(k: Config, s: State, c: nat, r: Rid, list: seq<Word>)
    requires CanReadList(k, s, c, r, list)
    ensures LocalFootprint(s, DoReadList(s, c, r, list), ReadList(c, r, list))
  {}

  lemma FetchesLocally(s: State, c: nat, r: Rid)
    requires CanFetchOlder(s, c, r)
    ensures LocalFootprint(s, DoFetchOlder(s, c, r), FetchOlder(c, r))
  {
    hide FindValid, LastIndexOf;
  }

  lemma IdlesLocally(s: State, a: Action)
    requires (a.LookupFailed? && At(s, a.c, Reading)) || (a.FinishAbort? && CanFinishAbort(s, a.c))
    ensures LocalFootprint(s, GoIdle(s, a.c), a)
  {}

  lemma ChecksLocally(s: State, c: nat)
    requires CanCheckVersions(s, c)
    ensures LocalFootprint(s, DoCheckVersions(s, c), CheckVersions(c))
  {}

  lemma ValidatesLocally(k: Config, s: State, c: nat)
    requires CanValidate(k, s, c)
    ensures LocalFootprint(s, DoValidate(k, s, c), Validate(c))
  {}

  lemma DecidesLocally(s: State, c: nat)
    requires CanDecide(s, c)
    ensures LocalFootprint(s, DoDecide(s, c), Decide(c))
  {}

  /**
   * What a step that writes memory may change: the record it is on, how far its client has come, and the oracle's
   * entry.
   */
  ghost predicate WriteFootprint(s: State, t: State, a: Action)
    requires WritesMemory(a)
  {
    && a.c < |s.clients| == |t.clients| && Active(s.clients[a.c])
    && t == s.(mem := t.mem, vector := t.vector, hist := t.hist, orderIds := t.orderIds,
               clients := s.clients[a.c := t.clients[a.c]])
    && var cl, cm := s.clients[a.c], t.clients[a.c];
    && cm == cl.(phase := cm.phase, stage := cm.stage, before := cm.before, orderId := cm.orderId)
    && (if a.Publish? then cm.phase == Idle && t.mem == s.mem else cm.phase == cl.phase && t.vector == s.vector)
    && (!a.Install? ==> t.hist == s.hist)
    && (!a.Install? && !a.FetchAdd? ==> t.orderIds == s.orderIds)
    && (!a.FetchAdd? ==> cm.orderId == cl.orderId)
    && (!OnRecord(a) ==> cm.stage == cl.stage)
    && (OnRecord(a) ==> a.r in s.mem && a.r in t.mem && t.mem == s.mem[a.r := t.mem[a.r]])
    && (OnRecord(a) ==> a.r in cl.stage && a.r in cm.stage && cm.stage == cl.stage[a.r := cm.stage[a.r]])
    && (OnRecord(a) && !a.TryLock? ==> Holding(cl.stage[a.r]))
    && (a.Install? ==> a.r in s.hist && a.r in t.hist && t.hist == s.hist[a.r := t.hist[a.r]])
    && (OnRecord(a) && !a.Install? ==> t.mem[a.r].oid == s.mem[a.r].oid && cm.stage[a.r] != Installed)
    && (forall q :: q in cl.before && !(a.TryLock? && q == a.r) ==> q in cm.before && cm.before[q] == cl.before[q])
  }

  lemma StepsByWriting(k: Config, s: State, a: Action)
    requires Enabled(k, s, a) && WritesMemory(a)
    ensures WriteFootprint(s, Next(k, s, a), a)
  {
    if a.TryLock? || a.Revert? || a.Publish? { LocksByWriting(k, s, a); }
    else if a.AppendList? || a.AppendRing? { AppendsByWriting(k, s, a); }
    else { InstallsByWriting(k, s, a); }
  }

  lemma LocksByWriting(k: Config, s: State, a: Action)
    requires Enabled(k, s, a) && (a.TryLock? || a.Revert? || a.Publish?)
    ensures WriteFootprint(s, Next(k, s, a), a)
  {
    hide WriteFootprint, DoTryLock, DoRevert, DoPublish;
    match a
    case TryLock(c, r) => TryLockWrites(s, c, r);
    case Revert(c, r) => RevertWrites(s, c, r);
    case Publish(c) => PublishWrites(s, c);
  }

  lemma TryLockWrites(s: State, c: nat, r: Rid)
    requires CanTryLock(s, c, r)
    ensures WriteFootprint(s, DoTryLock(s, c, r), TryLock(c, r))
  {
    hide LockWord, SameBits;
  }

  lemma RevertWrites(s: State, c: nat, r: Rid)
    requires CanRevert(s, c, r)
    ensures WriteFootprint(s, DoRevert(s, c, r), Revert(c, r))
  {}

  lemma PublishWrites(s: State, c: nat)
    requires CanPublish(s, c)
    ensures WriteFootprint(s, DoPublish(s, c), Publish(c))
  {}

  lemma AppendsByWriting(k: Config, s: State, a: Action)
    requires Enabled(k, s, a) && (a.AppendList? || a.AppendRing?)
    ensures WriteFootprint(s, Next(k, s, a), a)
  {
    hide WriteFootprint, DoAppendList, DoAppendRing;
    match a
    case AppendList(c, r) => AppendListWrites(s, c, r);
    case AppendRing(c, r) => AppendRingWrites(s, c, r);
  }

  lemma AppendListWrites(s: State, c: nat, r: Rid)
    requires CanAppendList(s, c, r)
    ensures WriteFootprint(s, DoAppendList(s, c, r), AppendList(c, r))
  {}

  lemma AppendRingWrites(s: State, c: nat, r: Rid)
    requires CanAppendRing(s, c, r)
    ensures WriteFootprint(s, DoAppendRing(s, c, r), AppendRing(c, r))
  {}

  lemma InstallsByWriting(k: Config, s: State, a: Action)
    requires Enabled(k, s, a) && (a.FetchAdd? || a.Install?)
    ensures WriteFootprint(s, Next(k, s, a), a)
  {
    hide WriteFootprint, DoFetchAdd, DoInstall;
    match a
    case FetchAdd(c) => FetchAddWrites(s, c);
    case Install(c, r) => InstallWrites(k, s, c, r);
  }

  lemma FetchAddWrites(s: State, c: nat)
    requires CanFetchAdd(s, c)
    ensures WriteFootprint(s, DoFetchAdd(s, c), FetchAdd(c))
  {}

  lemma InstallWrites(k: Config, s: State, c: nat, r: Rid)
    requires CanInstall(k, s, c, r)
    ensures WriteFootprint(s, DoInstall(k, s, c, r), Install(c, r))
  {
    hide NewVersion;
  }

  /** The acting client leaves the others alone. */
  lemma OthersStay(k: Config, s: State, a: Action)
    requires Enabled(k, s, a) && !a.Refresh?
    ensures a.c < |s.clients| && |Next(k, s, a).clients| == |s.clients|
    ensures forall d :: 0 <= d < |s.clients| && d != a.c ==> Next(k, s, a).clients[d] == s.clients[d]
  {
    if WritesMemory(a) { StepsByWriting(k, s, a); } else { StepsLocally(k, s, a); }
  }

  /** Only an install adds a version. */
  lemma NoNewVersion(k: Config, s: State, a: Action)
    requires Enabled(k, s, a) && !a.Install?
    ensures Next(k, s, a).hist == s.hist
  {
    if WritesMemory(a) { StepsByWriting(k, s, a); } else if !a.Refresh? { StepsLocally(k, s, a); }
  }

  // ---------------------------------------------------------------- all actions, all runs

  lemma LockKeeps(k: Config, s: State, a: Action)
    requires Inv(k, s) && Enabled(k, s, a) && (a.TryLock? || a.Revert? || a.Publish?)
    ensures Inv(k, Next(k, s, a))
  {
    hide Inv, DoTryLock, DoRevert, DoPublish;
    match a
    case TryLock(c, r) => TryLockKeeps(k, s, c, r);
    case Revert(c, r) => RevertKeeps(k, s, c, r);
    case Publish(c) => PublishKeeps(k, s, c);
  }

  lemma WriteKeeps(k: Config, s: State, a: Action)
    requires Inv(k, s) && Enabled(k, s, a) && (a.AppendList? || a.AppendRing? || a.FetchAdd? || a.Install?)
    ensures Inv(k, Next(k, s, a))
  {
    hide Inv, DoAppendList, DoAppendRing, DoFetchAdd, DoInstall;
    match a
    case AppendList(c, r) => AppendListKeeps(k, s, c, r);
    case AppendRing(c, r) => AppendRingKeeps(k, s, c, r);
    case FetchAdd(c) => FetchAddKeeps(k, s, c);
    case Install(c, r) => InstallKeeps(k, s, c, r);
  }

  lemma ReadKeeps(k: Config, s: State, a: Action)
    requires Inv(k, s) && Enabled(k, s, a) && (a.Begin? || a.ReadHead? || a.ReadList? || a.FetchOlder?)
    ensures Inv(k, Next(k, s, a))
  {
    hide Inv, DoBegin, DoReadHead, DoReadList, DoFetchOlder;
    match a
    case Begin(c, cart) => BeginKeeps(k, s, c, cart);
    case ReadHead(c, r) => ReadHeadKeeps(k, s, c, r);
    case ReadList(c, r, list) => ReadListKeeps(k, s, c, r, list);
    case FetchOlder(c, r) => FetchOlderKeeps(k, s, c, r);
  }

  lemma LocalKeeps(k: Config, s: State, a: Action)
    requires Inv(k, s) && Enabled(k, s, a) && !WritesMemory(a)
    requires !(a.Begin? || a.ReadHead? || a.ReadList? || a.FetchOlder?)
    ensures Inv(k, Next(k, s, a))
  {
    Sizes(k, s);
    hide Inv, DoRefresh, DoCheckVersions, DoValidate, DoDecide, GoIdle;
    match a
    case Refresh(g) => RefreshKeeps(k, s, g);
    case LookupFailed(c) => GoIdleKeeps(k, s, c);
    case CheckVersions(c) => CheckVersionsKeeps(k, s, c);
    case Validate(c) => ValidateKeeps(k, s, c);
    case Decide(c) => DecideKeeps(k, s, c);
    case FinishAbort(c) => GoIdleKeeps(k, s, c);
  }

  lemma NextKeeps(k: Config, s: State, a: Action)
    requires Inv(k, s) && Enabled(k, s, a)
    ensures Inv(k, Next(k, s, a))
  {
    hide Inv, Enabled, Next;
    if a.Begin? || a.ReadHead? || a.ReadList? || a.FetchOlder? { ReadKeeps(k, s, a); }
    else if !WritesMemory(a) { LocalKeeps(k, s, a); }
    else if a.TryLock? || a.Revert? || a.Publish? { LockKeeps(k, s, a); }
    else { WriteKeeps(k, s, a); }
  }

  lemma InitShape(k: Config)
    requires ValidConfig(k)
    ensures Shape(k, Init(k))
  {}

  lemma InitRecord(k: Config, r: Rid)
    requires ValidConfig(k) && r in k.initial
    ensures r in Init(k).mem && r in Init(k).hist && RecordInv(k, Init(k), r)
  {}

  lemma InitClientOk(k: Config, c: nat)
    requires ValidConfig(k) && Shape(k, Init(k)) && c < k.clients
    ensures StampOk(k, Init(k), c) && SnapOk(k, Init(k), c)
    ensures forall r :: r in Init(k).mem ==> Init(k).hist[r] != [] && HoldOk(Init(k), c, r) && CopyOk(Init(k), c, r)
  {
    assert Stamp(k, 1, c) == Stamp(k, 0, c) + k.clients;
  }

  lemma InitReader(k: Config, g: nat)
    requires ValidConfig(k) && Shape(k, Init(k)) && g < k.readers
    ensures ReaderOk(k, Init(k), g)
  {}

  lemma InitInv(k: Config)
    requires ValidConfig(k)
    ensures Inv(k, Init(k))
  {
    hide RecordInv, HoldOk, CopyOk, StampOk, SnapOk, ReaderOk, ClientShape;
    var s := Init(k);
    InitShape(k);
    forall g | 0 <= g < k.readers ensures ReaderOk(k, s, g) { InitReader(k, g); }
    forall r | r in s.mem ensures RecordInv(k, s, r) { InitRecord(k, r); }
    forall c | 0 <= c < k.clients ensures StampOk(k, s, c) && SnapOk(k, s, c) { InitClientOk(k, c); }
    forall c, r | 0 <= c < k.clients && r in s.mem ensures HoldOk(s, c, r) && CopyOk(s, c, r) { InitClientOk(k, c); }
  }
}
