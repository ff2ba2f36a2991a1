/**
 * Version chains: the shifted timestamp list and the modulo-indexed ring of each record refine its
 * unbounded history, under every interleaving.
 */
module Chains {
  import opened Words
  import opened Records
  import opened Protocol
  import opened Core
  import opened Steps
  import opened Arithmetic

  /** The timestamp list after `m` versions were appended: the newest first, unused entries behind. */
  function ListOf(k: Config, h: seq<Entry>, m: nat): seq<Word>
    requires m <= |h|
  {
    seq(k.versions, p requires 0 <= p < k.versions => if p < m then h[m - 1 - p].version.word else UNUSED)
  }

  /** The ring after `m` versions were appended: each of the last ones lies in the slot its own word names. */
  ghost predicate RingOf(k: Config, h: seq<Entry>, m: nat, ring: seq<Version>)
    requires m <= |h|
  {
    && |ring| == k.versions
    && (forall i :: 0 <= i < m <= i + k.versions ==> Slot(k, i) < k.versions && ring[Slot(k, i)] == h[i].version)
    && (forall j :: m <= j < k.versions ==> ring[j].word == UNUSED)
  }

  /** The stage of the client whose lock word is in the head, if any. */
  predicate HolderAt(s: State, r: Rid, st: Stage)
    requires r in s.mem
  {
    var w := s.mem[r].head.word;
    w.locked && w.client < |s.clients| && r in s.clients[w.client].stage && s.clients[w.client].stage[r] == st
  }

  /** How many versions the list and the ring hold: all but the newest, or also that one while it is being replaced. */
  function ListedTo(s: State, r: Rid): nat
    requires r in s.mem && r in s.hist && s.hist[r] != []
  {
    if HolderAt(s, r, Listed) || HolderAt(s, r, Ringed) then |s.hist[r]| else |s.hist[r]| - 1
  }

  function RingedTo(s: State, r: Rid): nat
    requires r in s.mem && r in s.hist && s.hist[r] != []
  {
    if HolderAt(s, r, Ringed) then |s.hist[r]| else |s.hist[r]| - 1
  }

  ghost predicate ChainOk(k: Config, s: State, r: Rid)
    requires r in s.mem && r in s.hist && s.hist[r] != []
  {
    && (Chained(r) ==> s.mem[r].list == ListOf(k, s.hist[r], ListedTo(s, r)))
    && RingOf(k, s.hist[r], RingedTo(s, r), s.mem[r].ring)
  }

  /** A list that was read at or after the moment the `idx`-th version was the newest. */
  ghost predicate ReadSince(k: Config, h: seq<Entry>, idx: nat, list: seq<Word>) {
    exists m :: idx <= m <= |h| && list == ListOf(k, h, m)
  }

  ghost predicate ListCopyOk(k: Config, s: State, c: nat, r: Rid)
    requires c < |s.clients| && r in s.mem && r in s.hist && s.hist[r] != []
  {
    var cl := s.clients[c];
    && (Chained(r) && r in cl.lists && r in cl.copies && !cl.copies[r].older ==>
      && ReadSince(k, s.hist[r], cl.copies[r].idx, cl.lists[r])
      && (cl.copies[r].idx == |s.hist[r]| - 1 == ListedTo(s, r) ==>
            cl.lists[r] == ListOf(k, s.hist[r], |s.hist[r]| - 1)))
    && (r in cl.copies ==> Behind(cl.copies[r], |s.hist[r]|, RingedTo(s, r)))
  }

  /** A copy taken from the ring is older than the newest version, or that version is being replaced. */
  predicate Behind(cp: Copy, n: nat, ringed: nat) {
    cp.older && !cp.version.word.deleted ==> cp.idx + 1 < n || ringed == n
  }

  ghost predicate OlderOk(cl: Client) {
    cl.phase != Idle ==> forall r :: r in cl.copies && cl.copies[r].older ==> r in cl.txn.fallback
  }

  ghost predicate ChainInv(k: Config, s: State) {
    && (forall r :: r in s.mem && r in s.hist ==> s.hist[r] != [] && ChainOk(k, s, r))
    && (forall c, r :: 0 <= c < |s.clients| && r in s.mem && r in s.hist ==> s.hist[r] != [] && ListCopyOk(k, s, c, r))
    && (forall c :: 0 <= c < |s.clients| ==> OlderOk(s.clients[c]))
  }

  // ---------------------------------------------------------------- slots, lists and rings on their own

  /** Walking `d` slots on, less than a full turn. */
  lemma {:induction false} SlotAhead(k: Config, i: nat, d: nat)
    requires d <= k.versions && 1 <= k.versions
    ensures Slot(k, i + d) == if Slot(k, i) + d < k.versions then Slot(k, i) + d else Slot(k, i) + d - k.versions
  {
    SlotInRange(k, i);
    if d > 0 { SlotAhead(k, i, d - 1); }
  }

  /** Fewer than a full turn apart, two versions lie in different slots. */
  lemma SlotsDistinct(k: Config, i: nat, j: nat)
    requires 1 <= k.versions && i < j < i + k.versions
    ensures Slot(k, i) != Slot(k, j)
  {
    SlotAhead(k, i, j - i);
    SlotInRange(k, i);
  }

  /** The slots are the modulo offsets of a circular buffer. */
  lemma {:induction false} SlotIsModulo(k: Config, i: nat)
    requires 1 <= k.versions
    ensures Slot(k, i) == i % k.versions
  {
    if i == 0 {
      RemainderIs(0, k.versions, 0, 0);
    } else {
      SlotIsModulo(k, i - 1);
      RemainderNext(i - 1, k.versions);
    }
  }

  /** Shifting in the replaced version's word turns the list of one length into the next. */
  lemma ShiftExtendsList(k: Config, h: seq<Entry>, m: nat)
    requires m < |h| && 1 <= k.versions
    ensures Shifted(ListOf(k, h, m), h[m].version.word) == ListOf(k, h, m + 1)
  {}

  /** Storing the replaced version in its own slot turns the ring of one length into the next. */
  lemma StoreExtendsRing(k: Config, h: seq<Entry>, m: nat, ring: seq<Version>)
    requires m < |h| && 1 <= k.versions && RingOf(k, h, m, ring)
    ensures Slot(k, m) < k.versions && RingOf(k, h, m + 1, ring[Slot(k, m) := h[m].version])
  {
    SlotInRange(k, m);
    var g := ring[Slot(k, m) := h[m].version];
    forall i | 0 <= i < m + 1 <= i + k.versions ensures Slot(k, i) < k.versions && g[Slot(k, i)] == h[i].version {
      StoreKeepsSlot(k, h, m, ring, i);
    }
    if m < k.versions { SlotSmall(k, m); }
  }

  lemma StoreKeepsSlot(k: Config, h: seq<Entry>, m: nat, ring: seq<Version>, i: nat)
    requires m < |h| && 1 <= k.versions && RingOf(k, h, m, ring) && Slot(k, m) < k.versions
    requires i < m + 1 <= i + k.versions
    ensures Slot(k, i) < k.versions && ring[Slot(k, m) := h[m].version][Slot(k, i)] == h[i].version
  {
    if i < m {
      SlotsDistinct(k, i, m);
      assert ring[Slot(k, i)] == h[i].version;
    }
  }

  lemma SlotSmall(k: Config, m: nat)
    requires m < k.versions
    ensures Slot(k, m) == m
  {}

  /** Appending to the history changes neither. */
  lemma HistoryGrows(k: Config, h: seq<Entry>, e: Entry, m: nat)
    requires m <= |h|
    ensures ListOf(k, h + [e], m) == ListOf(k, h, m)
    ensures forall ring :: RingOf(k, h, m, ring) ==> RingOf(k, h + [e], m, ring)
  {
    forall ring | RingOf(k, h, m, ring) ensures RingOf(k, h + [e], m, ring) {
      forall i | 0 <= i < m <= i + k.versions
        ensures Slot(k, i) < k.versions && ring[Slot(k, i)] == (h + [e])[i].version
      {
        assert ring[Slot(k, i)] == h[i].version;
      }
    }
  }

  lemma ReadSinceGrows(k: Config, h: seq<Entry>, e: Entry, idx: nat, list: seq<Word>)
    requires ReadSince(k, h, idx, list)
    ensures ReadSince(k, h + [e], idx, list)
  {
    var m :| idx <= m <= |h| && list == ListOf(k, h, m);
    HistoryGrows(k, h, e, m);
  }

  // ---------------------------------------------------------------- steps

  /** A record whose memory and history stay, and whose holder stays at its stage there, keeps its chain. */
  lemma ChainFrame(k: Config, s: State, t: State, q: Rid)
    requires q in s.mem && q in s.hist && s.hist[q] != [] && q in t.mem && q in t.hist
    requires t.mem[q] == s.mem[q] && t.hist[q] == s.hist[q]
    requires forall st :: HolderAt(t, q, st) <==> HolderAt(s, q, st)
    requires ChainOk(k, s, q)
    ensures ChainOk(k, t, q) && ListedTo(t, q) == ListedTo(s, q) && RingedTo(t, q) == RingedTo(s, q)
  {}

  /** A client's list copy stays good while it, its head copy and the record's chain length stay. */
  lemma ListCopyFrame(k: Config, s: State, t: State, d: nat, q: Rid)
    requires q in s.mem && q in s.hist && s.hist[q] != [] && q in t.mem && q in t.hist
    requires t.hist[q] == s.hist[q] && d < |s.clients| == |t.clients|
    requires ListedTo(t, q) == ListedTo(s, q) || ListedTo(t, q) == |t.hist[q]|
    requires RingedTo(t, q) == RingedTo(s, q) || RingedTo(t, q) == |t.hist[q]|
    requires t.clients[d].lists == s.clients[d].lists && t.clients[d].copies == s.clients[d].copies
    requires ListCopyOk(k, s, d, q)
    ensures ListCopyOk(k, t, d, q)
  {}

  /** What a local step of client `c` must respect: it keeps its locks' stages, or it has no locks. */
  ghost predicate KeepsStages(s: State, t: State, c: nat) {
    && ClientStep(s, t, c)
    && (t.clients[c].stage == s.clients[c].stage || !Active(s.clients[c]))
  }

  lemma LocalHolder(k: Config, s: State, t: State, c: nat, q: Rid)
    requires KeepsStages(s, t, c) && q in s.mem && q in s.hist && RecordInv(k, s, q)
    ensures forall st :: HolderAt(t, q, st) <==> HolderAt(s, q, st)
  {}

  /** Every chain holds after the step, and no list changed its length. */
  ghost predicate SameChains(k: Config, s: State, t: State) {
    && t.mem == s.mem && t.hist == s.hist && |t.clients| == |s.clients|
    && forall r :: r in t.mem && r in t.hist ==>
         t.hist[r] != [] && ChainOk(k, t, r) && ListedTo(t, r) == ListedTo(s, r) && RingedTo(t, r) == RingedTo(s, r)
  }

  lemma LocalChain(k: Config, s: State, t: State, c: nat)
    requires Inv(k, s) && ChainInv(k, s) && KeepsStages(s, t, c)
    ensures SameChains(k, s, t)
  {
    forall r | r in t.mem && r in t.hist
      ensures t.hist[r] != [] && ChainOk(k, t, r) && ListedTo(t, r) == ListedTo(s, r)
      ensures RingedTo(t, r) == RingedTo(s, r)
    {
      assert RecordInv(k, s, r);
      LocalHolder(k, s, t, c, r);
      ChainFrame(k, s, t, r);
    }
  }

  /** After a local step of `c`, only `c`'s own list copies and its `older` marks are in question. */
  lemma LocalLists(k: Config, s: State, t: State, c: nat)
    requires ChainInv(k, s) && SameChains(k, s, t) && c < |s.clients|
    requires forall d :: 0 <= d < |s.clients| && d != c ==> t.clients[d] == s.clients[d]
    requires forall q :: q in t.mem && q in t.hist ==> t.hist[q] != [] && ListCopyOk(k, t, c, q)
    requires OlderOk(t.clients[c])
    ensures ChainInv(k, t)
  {
    forall d, q | 0 <= d < |t.clients| && q in t.mem && q in t.hist ensures t.hist[q] != [] && ListCopyOk(k, t, d, q) {
      if d != c {
        assert ListCopyOk(k, s, d, q);
        ListCopyFrame(k, s, t, d, q);
      }
    }
  }

  lemma SameLists(k: Config, s: State, t: State, c: nat)
    requires ChainInv(k, s) && SameChains(k, s, t) && c < |s.clients|
    requires t.clients[c].lists == s.clients[c].lists && t.clients[c].copies == s.clients[c].copies
    ensures forall q :: q in t.mem && q in t.hist ==> t.hist[q] != [] && ListCopyOk(k, t, c, q)
  {
    forall q | q in t.mem && q in t.hist ensures t.hist[q] != [] && ListCopyOk(k, t, c, q) {
      assert ListCopyOk(k, s, c, q);
      ListCopyFrame(k, s, t, c, q);
    }
  }

  lemma OlderStays(k: Config, s: State, c: nat, cm: Client)
    requires ChainInv(k, s) && c < |s.clients| && cm.copies == s.clients[c].copies
    requires cm.phase == Idle || (s.clients[c].phase != Idle && cm.txn == s.clients[c].txn)
    ensures OlderOk(cm)
  {
    assert OlderOk(s.clients[c]);
  }

  /** A local step that leaves stages, lists and copies alone. */
  ghost predicate KeepsCopies(s: State, t: State, c: nat) {
    && KeepsStages(s, t, c)
    && t.clients[c].lists == s.clients[c].lists && t.clients[c].copies == s.clients[c].copies
    && s.clients[c].phase != Idle && t.clients[c].txn == s.clients[c].txn
  }

  lemma LocalKeepsChains(k: Config, s: State, t: State, c: nat)
    requires Inv(k, s) && ChainInv(k, s) && KeepsCopies(s, t, c)
    ensures ChainInv(k, t)
  {
    LocalChain(k, s, t, c);
    SameLists(k, s, t, c);
    OlderStays(k, s, c, t.clients[c]);
    LocalLists(k, s, t, c);
  }

  lemma CheckVersionsCopies(s: State, c: nat)
    requires CanCheckVersions(s, c)
    ensures KeepsCopies(s, DoCheckVersions(s, c), c)
  {}

  lemma ValidateCopies(k: Config, s: State, c: nat)
    requires CanValidate(k, s, c)
    ensures KeepsCopies(s, DoValidate(k, s, c), c)
  {}

  lemma DecideCopies(s: State, c: nat)
    requires CanDecide(s, c)
    ensures KeepsCopies(s, DoDecide(s, c), c)
  {}

  lemma BeginLists(k: Config, s: State, t: State, c: nat, cart: Cart)
    requires ChainInv(k, s) && CanBegin(k, s, c, cart) && t == DoBegin(k, s, c, cart) && SameChains(k, s, t)
    ensures ChainInv(k, t)
  {
    LocalLists(k, s, t, c);
  }

  lemma BeginChains(k: Config, s: State, c: nat, cart: Cart)
    requires Inv(k, s) && ChainInv(k, s) && CanBegin(k, s, c, cart)
    ensures ChainInv(k, DoBegin(k, s, c, cart))
  {
    BeginStages(k, s, c, cart);
    LocalChain(k, s, DoBegin(k, s, c, cart), c);
    BeginLists(k, s, DoBegin(k, s, c, cart), c, cart);
  }

  lemma BeginStages(k: Config, s: State, c: nat, cart: Cart)
    requires CanBegin(k, s, c, cart)
    ensures KeepsStages(s, DoBegin(k, s, c, cart), c)
  {}

  /** One local copy is new: it is marked older, or its list has not been read yet. */
  ghost predicate OneNewCopy(s: State, t: State, c: nat, r: Rid) {
    && KeepsStages(s, t, c) && t.clients[c].lists == s.clients[c].lists && r in t.clients[c].copies
    && t.clients[c].copies == s.clients[c].copies[r := t.clients[c].copies[r]]
    && (if t.clients[c].copies[r].older then r in t.clients[c].txn.fallback else r !in t.clients[c].lists)
    && r in s.mem && r in s.hist && s.hist[r] != []
    && Behind(t.clients[c].copies[r], |s.hist[r]|, RingedTo(s, r))
    && s.clients[c].phase != Idle && t.clients[c].txn == s.clients[c].txn
  }

  lemma NewCopyList(k: Config, s: State, t: State, c: nat, r: Rid, q: Rid)
    requires OneNewCopy(s, t, c, r) && q in s.mem && q in s.hist && s.hist[q] != []
    requires ListedTo(t, q) == ListedTo(s, q) && RingedTo(t, q) == RingedTo(s, q) && ListCopyOk(k, s, c, q)
    ensures ListCopyOk(k, t, c, q)
  {}

  lemma NewCopyLists(k: Config, s: State, t: State, c: nat, r: Rid)
    requires ChainInv(k, s) && SameChains(k, s, t) && OneNewCopy(s, t, c, r)
    ensures ChainInv(k, t)
  {
    forall q | q in t.mem && q in t.hist ensures t.hist[q] != [] && ListCopyOk(k, t, c, q) {
      assert ListCopyOk(k, s, c, q);
      NewCopyList(k, s, t, c, r, q);
    }
    assert OlderOk(t.clients[c]) by { assert OlderOk(s.clients[c]); }
    LocalLists(k, s, t, c);
  }

  lemma NewCopyChains(k: Config, s: State, t: State, c: nat, r: Rid)
    requires Inv(k, s) && ChainInv(k, s) && OneNewCopy(s, t, c, r)
    ensures ChainInv(k, t)
  {
    LocalChain(k, s, t, c);
    NewCopyLists(k, s, t, c, r);
  }

  lemma ReadHeadIsNew(k: Config, s: State, c: nat, r: Rid)
    requires CanReadHead(s, c, r) && ClientShape(k, c, s.clients[c])
    ensures OneNewCopy(s, DoReadHead(s, c, r), c, r)
  {}

  /** The last version before `m` whose slot is `j`. */
  lemma LastInSlot(k: Config, m: nat, j: nat) returns (i: nat)
    requires 1 <= k.versions && j < k.versions && j < m
    ensures i < m <= i + k.versions && Slot(k, i) == j
  {
    var o := Slot(k, m - 1);
    SlotInRange(k, m - 1);
    var d := if j <= o then o - j else o + k.versions - j;
    if d > m - 1 { SlotSmall(k, m - 1); }
    i := m - 1 - d;
    SlotAhead(k, i, d);
    SlotInRange(k, i);
  }

  /** Whatever a ring slot holds was never written, or is the last version before the ring's end with that slot. */
  lemma RingSlotIndex(k: Config, h: seq<Entry>, m: nat, ring: seq<Version>, j: nat)
    requires 1 <= k.versions && m <= |h| && RingOf(k, h, m, ring) && j < k.versions
    ensures ring[j].word == UNUSED ||
      exists i :: 0 <= i < m <= i + k.versions && Slot(k, i) == j && h[i].version == ring[j]
  {
    if j < m {
      var i := LastInSlot(k, m, j);
      assert Slot(k, i) == j && h[i].version == ring[j];
    }
  }

  lemma LastIndexBelow(k: Config, h: seq<Entry>, v: Version, m: nat)
    requires HistOk(k, h) && (exists i :: 0 <= i < m && i < |h| && h[i].version == v)
    ensures LastIndexOf(h, v) < m
  {
    LastIndexOfFinds(h, v);
    var i :| 0 <= i < m && i < |h| && h[i].version == v;
    WordsDistinct(k, h, i, LastIndexOf(h, v));
  }

  lemma FetchedBehind(k: Config, s: State, c: nat, r: Rid)
    requires CanFetchOlder(s, c, r) && HistOk(k, s.hist[r]) && ChainOk(k, s, r) && 1 <= k.versions
    ensures Behind(DoFetchOlder(s, c, r).clients[c].copies[r], |s.hist[r]|, RingedTo(s, r))
  {
    var j := FindValid(s.clients[c].lists[r], c, s.clients[c].snap);
    var m := RingedTo(s, r);
    RingSlotIndex(k, s.hist[r], m, s.mem[r].ring, j);
    if s.mem[r].ring[j].word != UNUSED { LastIndexBelow(k, s.hist[r], s.mem[r].ring[j], m); }
  }

  lemma FetchOlderIsNew(k: Config, s: State, c: nat, r: Rid)
    requires CanFetchOlder(s, c, r) && ClientShape(k, c, s.clients[c])
    requires s.hist[r] != [] && Behind(DoFetchOlder(s, c, r).clients[c].copies[r], |s.hist[r]|, RingedTo(s, r))
    ensures OneNewCopy(s, DoFetchOlder(s, c, r), c, r)
  {}

  lemma ReadHeadChains(k: Config, s: State, c: nat, r: Rid)
    requires Inv(k, s) && ChainInv(k, s) && CanReadHead(s, c, r)
    ensures ChainInv(k, DoReadHead(s, c, r))
  {
    ClientFacts(k, s, c);
    ReadHeadIsNew(k, s, c, r);
    NewCopyChains(k, s, DoReadHead(s, c, r), c, r);
  }

  lemma FetchOlderChains(k: Config, s: State, c: nat, r: Rid)
    requires Inv(k, s) && ChainInv(k, s) && CanFetchOlder(s, c, r)
    ensures ChainInv(k, DoFetchOlder(s, c, r))
  {
    Facts(k, s, c, r);
    FetchedBehind(k, s, c, r);
    FetchOlderIsNew(k, s, c, r);
    NewCopyChains(k, s, DoFetchOlder(s, c, r), c, r);
  }

  lemma NewList(k: Config, s: State, t: State, c: nat, r: Rid, q: Rid, list: seq<Word>)
    requires CanReadList(k, s, c, r, list) && t == DoReadList(s, c, r, list)
    requires q in s.mem && q in s.hist && s.hist[q] != []
    requires ListedTo(t, q) == ListedTo(s, q) && RingedTo(t, q) == RingedTo(s, q)
    requires ListCopyOk(k, s, c, q) && ChainOk(k, s, q) && CopyOk(s, c, q)
    ensures ListCopyOk(k, t, c, q)
  {
    if q == r && Chained(r) {
      assert list == ListOf(k, s.hist[r], ListedTo(s, r));
    }
  }

  lemma NewListLists(k: Config, s: State, t: State, c: nat, r: Rid, list: seq<Word>)
    requires ChainInv(k, s) && SameChains(k, s, t) && CanReadList(k, s, c, r, list) && t == DoReadList(s, c, r, list)
    requires forall q :: q in s.hist ==> CopyOk(s, c, q)
    ensures ChainInv(k, t)
  {
    OlderStays(k, s, c, t.clients[c]);
    forall q | q in t.mem && q in t.hist ensures t.hist[q] != [] && ListCopyOk(k, t, c, q) {
      assert ListCopyOk(k, s, c, q) && ChainOk(k, s, q);
      NewList(k, s, t, c, r, q, list);
    }
    LocalLists(k, s, t, c);
  }

  lemma ReadListStages(k: Config, s: State, c: nat, r: Rid, list: seq<Word>)
    requires CanReadList(k, s, c, r, list)
    ensures KeepsStages(s, DoReadList(s, c, r, list), c)
  {}

  lemma ReadListChains(k: Config, s: State, c: nat, r: Rid, list: seq<Word>)
    requires Inv(k, s) && ChainInv(k, s) && CanReadList(k, s, c, r, list)
    ensures ChainInv(k, DoReadList(s, c, r, list))
  {
    ReadListStages(k, s, c, r, list);
    LocalChain(k, s, DoReadList(s, c, r, list), c);
    forall q | q in s.hist ensures CopyOk(s, c, q) { Facts(k, s, c, q); }
    NewListLists(k, s, DoReadList(s, c, r, list), c, r, list);
  }

  /** The oracle and its readers touch no record. */
  lemma OracleKeepsChains(k: Config, s: State, t: State)
    requires ChainInv(k, s) && t.mem == s.mem && t.hist == s.hist && |t.clients| == |s.clients|
    requires forall d :: 0 <= d < |s.clients| ==>
      t.clients[d] == s.clients[d] || t.clients[d] == s.clients[d].(phase := Idle)
    ensures ChainInv(k, t)
  {
    forall q | q in t.mem && q in t.hist
      ensures t.hist[q] != [] && ChainOk(k, t, q) && ListedTo(t, q) == ListedTo(s, q)
      ensures RingedTo(t, q) == RingedTo(s, q)
    {
      ChainFrame(k, s, t, q);
    }
    forall d, q | 0 <= d < |t.clients| && q in t.mem && q in t.hist ensures t.hist[q] != [] && ListCopyOk(k, t, d, q) {
      assert ListCopyOk(k, s, d, q);
      ListCopyFrame(k, s, t, d, q);
    }
    forall d | 0 <= d < |t.clients| ensures OlderOk(t.clients[d]) { assert OlderOk(s.clients[d]); }
  }

  // A step on one record leaves the other records' chains alone.

  lemma OtherRecord(k: Config, s: State, t: State, c: nat, r: Rid, q: Rid)
    requires RecordStep(s, t, c, r) && q in s.mem && q in s.hist && q != r && s.hist[q] != [] && ChainOk(k, s, q)
    ensures ChainOk(k, t, q) && ListedTo(t, q) == ListedTo(s, q) && RingedTo(t, q) == RingedTo(s, q)
  {
    ChainFrame(k, s, t, q);
  }

  lemma OtherRecordList(k: Config, s: State, t: State, c: nat, r: Rid, d: nat, q: Rid)
    requires RecordStep(s, t, c, r) && q in s.mem && q in s.hist && q != r && s.hist[q] != [] && d < |s.clients|
    requires ListedTo(t, q) == ListedTo(s, q) && RingedTo(t, q) == RingedTo(s, q) && ListCopyOk(k, s, d, q)
    ensures ListCopyOk(k, t, d, q)
  {
    ListCopyFrame(k, s, t, d, q);
  }

  ghost predicate RecordChains(k: Config, t: State, r: Rid) {
    && r in t.mem && r in t.hist && t.hist[r] != [] && ChainOk(k, t, r)
    && forall d :: 0 <= d < |t.clients| ==> ListCopyOk(k, t, d, r)
  }

  lemma RecordStepChains(k: Config, s: State, t: State, c: nat, r: Rid)
    requires ChainInv(k, s) && RecordStep(s, t, c, r) && RecordChains(k, t, r)
    ensures ChainInv(k, t)
  {
    forall q | q in t.mem && q in t.hist ensures t.hist[q] != [] && ChainOk(k, t, q) {
      if q != r { OtherRecord(k, s, t, c, r, q); }
    }
    forall d, q | 0 <= d < |t.clients| && q in t.mem && q in t.hist ensures t.hist[q] != [] && ListCopyOk(k, t, d, q) {
      if q != r {
        assert ListCopyOk(k, s, d, q);
        OtherRecord(k, s, t, c, r, q);
        OtherRecordList(k, s, t, c, r, d, q);
      }
    }
    assert OlderOk(t.clients[c]) by { assert OlderOk(s.clients[c]); }
  }

  /** The lists and rings known before a step on record `r`. */
  lemma ChainFacts(k: Config, s: State, r: Rid)
    requires ChainInv(k, s) && r in s.mem && r in s.hist
    ensures RecordChains(k, s, r)
  {}

  /** No list or ring is written and the chain lengths stay. */
  lemma SameLengths(k: Config, s: State, t: State, c: nat, r: Rid)
    requires RecordChains(k, s, r) && RecordStep(s, t, c, r) && t.hist[r] == s.hist[r]
    requires t.mem[r].list == s.mem[r].list && t.mem[r].ring == s.mem[r].ring
    requires ListedTo(t, r) == ListedTo(s, r) && RingedTo(t, r) == RingedTo(s, r)
    ensures RecordChains(k, t, r)
  {
    forall d | 0 <= d < |t.clients| ensures ListCopyOk(k, t, d, r) {
      assert ListCopyOk(k, s, d, r);
      ListCopyFrame(k, s, t, d, r);
    }
  }

  lemma TryLockLengths(s: State, t: State, c: nat, r: Rid)
    requires CanTryLock(s, c, r) && t == DoTryLock(s, c, r) && r in s.hist && s.hist[r] != []
    requires SameBits(s.mem[r].head.word, s.clients[c].copies[r].version.word) ==> !s.mem[r].head.word.locked
    ensures ListedTo(t, r) == ListedTo(s, r) && RingedTo(t, r) == RingedTo(s, r)
  {
    hide DoTryLock, SameBits;
    TryLockStep(s, c, r);
  }

  lemma TryLockChain(k: Config, s: State, t: State, c: nat, r: Rid)
    requires Acting(k, s, c, r) && CanTryLock(s, c, r) && t == DoTryLock(s, c, r) && RecordStep(s, t, c, r)
    requires SameBits(s.mem[r].head.word, s.clients[c].copies[r].version.word) ==> !s.mem[r].head.word.locked
    requires RecordChains(k, s, r)
    ensures RecordChains(k, t, r)
  {
    TryLockLengths(s, t, c, r);
    SameLengths(k, s, t, c, r);
  }

  lemma RevertChain(k: Config, s: State, t: State, c: nat, r: Rid)
    requires Acting(k, s, c, r) && CanRevert(s, c, r) && t == DoRevert(s, c, r) && RecordStep(s, t, c, r)
    requires RecordChains(k, s, r)
    ensures RecordChains(k, t, r)
  {
    assert HoldOk(s, c, r);
    SameLengths(k, s, t, c, r);
  }

  lemma FetchAddChain(k: Config, s: State, t: State, c: nat, r: Rid)
    requires CanFetchAdd(s, c) && t == DoFetchAdd(s, c) && r == s.clients[c].txn.counter.value && RecordStep(s, t, c, r)
    requires RecordChains(k, s, r)
    ensures RecordChains(k, t, r)
  {
    SameLengths(k, s, t, c, r);
  }

  lemma AppendListLengths(k: Config, s: State, t: State, c: nat, r: Rid)
    requires Acting(k, s, c, r) && CanAppendList(s, c, r) && t == DoAppendList(s, c, r) && HoldOk(s, c, r)
    ensures ListedTo(s, r) == |s.hist[r]| - 1 && ListedTo(t, r) == |s.hist[r]| && RingedTo(s, r) == RingedTo(t, r)
  {}

  lemma AppendListCell(k: Config, s: State, t: State, c: nat, r: Rid)
    requires Acting(k, s, c, r) && CanAppendList(s, c, r) && t == DoAppendList(s, c, r)
    requires ChainOk(k, s, r) && ListCopyOk(k, s, c, r) && OlderOk(s.clients[c])
    requires ListedTo(s, r) == |s.hist[r]| - 1 && ListedTo(t, r) == |s.hist[r]| && RingedTo(s, r) == RingedTo(t, r)
    ensures ChainOk(k, t, r)
  {
    hide Acting, ListCopyOk, OlderOk, ListOf, ListedTo, RingedTo, RingOf, Shifted;
    ListHeld(k, s, c, r);
    var h := s.hist[r];
    if Chained(r) { ShiftExtendsList(k, h, |h| - 1); }
  }

  lemma ListHeld(k: Config, s: State, c: nat, r: Rid)
    requires Acting(k, s, c, r) && CanAppendList(s, c, r) && ListCopyOk(k, s, c, r) && OlderOk(s.clients[c])
    requires ListedTo(s, r) == |s.hist[r]| - 1
    ensures r in s.hist && s.hist[r] != [] && s.clients[c].copies[r].version == Last(s.hist[r]).version
    ensures 1 <= k.versions
    ensures Chained(r) ==> s.clients[c].lists[r] == ListOf(k, s.hist[r], |s.hist[r]| - 1)
  {
    hide RecordInv, CopyOk, ListedTo, RingedTo, ListOf, ReadSince, LockWord;
    RecordHist(k, s, r);
    assert HoldOk(s, c, r);
  }

  lemma AppendListChain(k: Config, s: State, t: State, c: nat, r: Rid)
    requires Acting(k, s, c, r) && CanAppendList(s, c, r) && t == DoAppendList(s, c, r) && RecordStep(s, t, c, r)
    requires RecordChains(k, s, r) && OlderOk(s.clients[c])
    ensures RecordChains(k, t, r)
  {
    hide HoldOk, CopyOk, ListedTo, RingedTo, ChainOk, OlderOk, RecordInv, ClientShape, ListCopyOk;
    assert HoldOk(s, c, r) && ListCopyOk(k, s, c, r);
    AppendListLengths(k, s, t, c, r);
    AppendListCell(k, s, t, c, r);
    forall d | 0 <= d < |t.clients| ensures ListCopyOk(k, t, d, r) {
      assert ListCopyOk(k, s, d, r);
      ListCopyFrame(k, s, t, d, r);
    }
  }

  lemma AppendRingLengths(k: Config, s: State, t: State, c: nat, r: Rid)
    requires Acting(k, s, c, r) && CanAppendRing(s, c, r) && t == DoAppendRing(s, c, r)
    ensures ListedTo(s, r) == ListedTo(t, r) == |s.hist[r]| && RingedTo(s, r) == |s.hist[r]| - 1
    ensures RingedTo(t, r) == |s.hist[r]|
    ensures s.clients[c].copies[r].version == Last(s.hist[r]).version
    ensures s.clients[c].copies[r].version.word.offset == Slot(k, |s.hist[r]| - 1)
  {
    assert HoldOk(s, c, r);
    assert WordOk(k, s.hist[r][|s.hist[r]| - 1].version.word, |s.hist[r]| - 1);
  }

  lemma AppendRingChain(k: Config, s: State, t: State, c: nat, r: Rid)
    requires CanAppendRing(s, c, r) && t == DoAppendRing(s, c, r) && RecordStep(s, t, c, r) && 1 <= k.versions
    requires RecordChains(k, s, r)
    requires ListedTo(s, r) == ListedTo(t, r) == |s.hist[r]| && RingedTo(s, r) == |s.hist[r]| - 1
    requires RingedTo(t, r) == |s.hist[r]|
    requires s.clients[c].copies[r].version == Last(s.hist[r]).version
    requires s.clients[c].copies[r].version.word.offset == Slot(k, |s.hist[r]| - 1)
    ensures RecordChains(k, t, r)
  {
    hide ListedTo, RingedTo, RingOf;
    StoreExtendsRing(k, s.hist[r], |s.hist[r]| - 1, s.mem[r].ring);
    forall d | 0 <= d < |t.clients| ensures ListCopyOk(k, t, d, r) {
      assert ListCopyOk(k, s, d, r);
      ListCopyFrame(k, s, t, d, r);
    }
  }

  lemma InstallChain(k: Config, s: State, t: State, c: nat, r: Rid)
    requires Acting(k, s, c, r) && CanInstall(k, s, c, r) && t == DoInstall(k, s, c, r) && RecordStep(s, t, c, r)
    requires RecordChains(k, s, r) && forall d :: 0 <= d < |s.clients| ==> CopyOk(s, d, r)
    ensures RecordChains(k, t, r)
  {
    assert HoldOk(s, c, r);
    var h := s.hist[r];
    var e := Entry(NewVersion(k, s.clients[c], c, r), s.clients[c].txn.writes[r], s.clients[c].snap);
    assert t.hist[r] == h + [e];
    assert ListedTo(s, r) == ListedTo(t, r) == RingedTo(s, r) == RingedTo(t, r) == |h|;
    HistoryGrows(k, h, e, |h|);
    forall d | 0 <= d < |t.clients| ensures ListCopyOk(k, t, d, r) { InstallList(k, s, t, c, r, d, e); }
  }

  lemma InstallList(k: Config, s: State, t: State, c: nat, r: Rid, d: nat, e: Entry)
    requires RecordStep(s, t, c, r) && s.hist[r] != [] && t.hist[r] == s.hist[r] + [e] && d < |s.clients|
    requires ListCopyOk(k, s, d, r) && CopyOk(s, d, r)
    ensures ListCopyOk(k, t, d, r)
  {
    var cl := s.clients[d];
    if Chained(r) && r in cl.lists && r in cl.copies && !cl.copies[r].older {
      ReadSinceGrows(k, s.hist[r], e, cl.copies[r].idx, cl.lists[r]);
    }
  }

  // ---------------------------------------------------------------- all actions

  lemma TryLockChains(k: Config, s: State, c: nat, r: Rid)
    requires Inv(k, s) && ChainInv(k, s) && CanTryLock(s, c, r)
    ensures ChainInv(k, DoTryLock(s, c, r))
  {
    ActingFacts(k, s, c, r);
    if SameBits(s.mem[r].head.word, s.clients[c].copies[r].version.word) { CasFindsNewest(k, s, c, r); }
    TryLockStep(s, c, r);
    ChainFacts(k, s, r);
    TryLockChain(k, s, DoTryLock(s, c, r), c, r);
    RecordStepChains(k, s, DoTryLock(s, c, r), c, r);
  }

  lemma RevertChains(k: Config, s: State, c: nat, r: Rid)
    requires Inv(k, s) && ChainInv(k, s) && CanRevert(s, c, r)
    ensures ChainInv(k, DoRevert(s, c, r))
  {
    ActingFacts(k, s, c, r);
    RevertAround(k, s, c, r);
    ChainFacts(k, s, r);
    RevertChain(k, s, DoRevert(s, c, r), c, r);
    RecordStepChains(k, s, DoRevert(s, c, r), c, r);
  }

  lemma FetchAddChains(k: Config, s: State, c: nat)
    requires Inv(k, s) && ChainInv(k, s) && CanFetchAdd(s, c)
    ensures ChainInv(k, DoFetchAdd(s, c))
  {
    var r := s.clients[c].txn.counter.value;
    Facts(k, s, c, r);
    AroundFacts(k, s, r);
    FetchAddAround(k, s, c, r);
    ChainFacts(k, s, r);
    FetchAddChain(k, s, DoFetchAdd(s, c), c, r);
    RecordStepChains(k, s, DoFetchAdd(s, c), c, r);
  }

  lemma AppendListChains(k: Config, s: State, c: nat, r: Rid)
    requires Inv(k, s) && ChainInv(k, s) && CanAppendList(s, c, r)
    ensures ChainInv(k, DoAppendList(s, c, r))
  {
    ActingFacts(k, s, c, r);
    AppendListAround(k, s, c, r);
    ChainFacts(k, s, r);
    assert OlderOk(s.clients[c]);
    AppendListChain(k, s, DoAppendList(s, c, r), c, r);
    RecordStepChains(k, s, DoAppendList(s, c, r), c, r);
  }

  lemma AppendRingChains(k: Config, s: State, c: nat, r: Rid)
    requires Inv(k, s) && ChainInv(k, s) && CanAppendRing(s, c, r)
    ensures ChainInv(k, DoAppendRing(s, c, r))
  {
    ActingFacts(k, s, c, r);
    AppendRingAround(k, s, c, r);
    AppendRingLengths(k, s, DoAppendRing(s, c, r), c, r);
    ChainFacts(k, s, r);
    AppendRingChain(k, s, DoAppendRing(s, c, r), c, r);
    RecordStepChains(k, s, DoAppendRing(s, c, r), c, r);
  }

  lemma InstallChains(k: Config, s: State, c: nat, r: Rid)
    requires Inv(k, s) && ChainInv(k, s) && CanInstall(k, s, c, r)
    ensures ChainInv(k, DoInstall(k, s, c, r))
  {
    ActingFacts(k, s, c, r);
    InstallStep(k, s, c, r);
    ChainFacts(k, s, r);
    forall d | 0 <= d < |s.clients| ensures CopyOk(s, d, r) { Facts(k, s, d, r); }
    InstallChain(k, s, DoInstall(k, s, c, r), c, r);
    RecordStepChains(k, s, DoInstall(k, s, c, r), c, r);
  }

  lemma LocalActionChains(k: Config, s: State, a: Action)
    requires Inv(k, s) && ChainInv(k, s) && Enabled(k, s, a) && (a.CheckVersions? || a.Validate? || a.Decide?)
    ensures ChainInv(k, Next(k, s, a))
  {
    match a
    case CheckVersions(c) => CheckVersionsCopies(s, c); LocalKeepsChains(k, s, DoCheckVersions(s, c), c);
    case Validate(c) => ValidateCopies(k, s, c); LocalKeepsChains(k, s, DoValidate(k, s, c), c);
    case Decide(c) => DecideCopies(s, c); LocalKeepsChains(k, s, DoDecide(s, c), c);
  }

  lemma OracleActionChains(k: Config, s: State, a: Action)
    requires ChainInv(k, s) && Enabled(k, s, a) && (a.Refresh? || a.LookupFailed? || a.FinishAbort? || a.Publish?)
    ensures ChainInv(k, Next(k, s, a))
  {
    OracleKeepsChains(k, s, Next(k, s, a));
  }

  lemma ReadActionChains(k: Config, s: State, a: Action)
    requires Inv(k, s) && ChainInv(k, s) && Enabled(k, s, a)
    requires (a.Begin? || a.ReadHead? || a.ReadList? || a.FetchOlder?)
    ensures ChainInv(k, Next(k, s, a))
  {
    hide Inv, ChainInv, DoBegin, DoReadHead, DoReadList, DoFetchOlder;
    match a
    case Begin(c, cart) => BeginChains(k, s, c, cart);
    case ReadHead(c, r) => ReadHeadChains(k, s, c, r);
    case ReadList(c, r, list) => ReadListChains(k, s, c, r, list);
    case FetchOlder(c, r) => FetchOlderChains(k, s, c, r);
  }

  lemma LockActionChains(k: Config, s: State, a: Action)
    requires Inv(k, s) && ChainInv(k, s) && Enabled(k, s, a) && (a.TryLock? || a.Revert? || a.FetchAdd?)
    ensures ChainInv(k, Next(k, s, a))
  {
    match a
    case TryLock(c, r) => TryLockChains(k, s, c, r);
    case Revert(c, r) => RevertChains(k, s, c, r);
    case FetchAdd(c) => FetchAddChains(k, s, c);
  }

  lemma WriteActionChains(k: Config, s: State, a: Action)
    requires Inv(k, s) && ChainInv(k, s) && Enabled(k, s, a) && (a.AppendList? || a.AppendRing? || a.Install?)
    ensures ChainInv(k, Next(k, s, a))
  {
    hide Inv, ChainInv, DoAppendList, DoAppendRing, DoInstall;
    match a
    case AppendList(c, r) => AppendListChains(k, s, c, r);
    case AppendRing(c, r) => AppendRingChains(k, s, c, r);
    case Install(c, r) => InstallChains(k, s, c, r);
  }

  lemma NextChains(k: Config, s: State, a: Action)
    requires Inv(k, s) && ChainInv(k, s) && Enabled(k, s, a)
    ensures ChainInv(k, Next(k, s, a))
  {
    if a.CheckVersions? || a.Validate? || a.Decide? { LocalActionChains(k, s, a); }
    else if a.Refresh? || a.LookupFailed? || a.FinishAbort? || a.Publish? { OracleActionChains(k, s, a); }
    else if a.Begin? || a.ReadHead? || a.ReadList? || a.FetchOlder? { ReadActionChains(k, s, a); }
    else if a.TryLock? || a.Revert? || a.FetchAdd? { LockActionChains(k, s, a); }
    else { WriteActionChains(k, s, a); }
  }

  lemma InitChains(k: Config)
    requires ValidConfig(k)
    ensures ChainInv(k, Init(k))
  {}
}
