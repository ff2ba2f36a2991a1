/**
 * Reading an older version: when the position found in the timestamp list, and the version then fetched from the
 * ring, are the newest version the snapshot admits.
 */
module Lookups {
  import opened Words
  import opened Records
  import opened Protocol
  import opened Core
  import opened Steps
  import opened Snapshots
  import opened Chains
  import opened Ledger
  import opened Theorems

  // ---------------------------------------------------------------- lists on their own

  ghost predicate PlainWords(h: seq<Entry>) {
    forall i :: 0 <= i < |h| ==> !h[i].version.word.locked && !h[i].version.word.deleted
  }

  lemma {:induction false} NewestBounds(h: seq<Entry>, c: nat, snap: seq<nat>)
    ensures -1 <= NewestIn(h, c, snap) < |h|
    ensures NewestIn(h, c, snap) >= 0 ==> InSnapshot(h[NewestIn(h, c, snap)].version.word, c, snap)
    ensures forall j :: NewestIn(h, c, snap) < j < |h| ==> !InSnapshot(h[j].version.word, c, snap)
    decreases |h|
  {
    if h != [] && !InSnapshot(h[|h| - 1].version.word, c, snap) {
      var g := h[..|h| - 1];
      NewestBounds(g, c, snap);
      forall j | NewestIn(h, c, snap) < j < |h| ensures !InSnapshot(h[j].version.word, c, snap) {
        if j < |g| { assert g[j] == h[j]; }
      }
    }
  }

  /** The search on a list finds the newest listed version of the snapshot, unless that one has dropped off the end. */
  lemma FoundIsNewestListed(k: Config, h: seq<Entry>, m: nat, c: nat, snap: seq<nat>)
    requires m <= |h| && PlainWords(h)
    ensures
      var p, n := FindValid(ListOf(k, h, m), c, snap), NewestIn(h[..m], c, snap);
      if 0 <= n && m <= n + k.versions then p == m - 1 - n else p == -1
  {
    var list, g := ListOf(k, h, m), h[..m];
    var n := NewestIn(g, c, snap);
    NewestBounds(g, c, snap);
    forall i | 0 <= i < |list|
      ensures Accessible(list[i], c, snap) <==> i < m && InSnapshot(g[m - 1 - i].version.word, c, snap)
    {}
    if 0 <= n && m <= n + k.versions {
      assert Accessible(list[m - 1 - n], c, snap);
    }
    var p := FindValid(list, c, snap);
    if p >= 0 { assert InSnapshot(g[m - 1 - p].version.word, c, snap); }
  }

  /** Cutting off versions outside the snapshot does not change its newest one. */
  lemma {:induction false} NewestPrefix(h: seq<Entry>, m: nat, c: nat, snap: seq<nat>)
    requires NewestIn(h, c, snap) < m <= |h|
    ensures NewestIn(h[..m], c, snap) == NewestIn(h, c, snap)
    decreases |h|
  {
    if m == |h| { assert h[..m] == h; }
    else {
      NewestBounds(h, c, snap);
      assert h[..|h| - 1][..m] == h[..m];
      NewestPrefix(h[..|h| - 1], m, c, snap);
    }
  }

  // ---------------------------------------------------------------- the list a client has read

  /** The version the head carried when the client read it; under a lock, the one being replaced. */
  function Base(s: State, c: nat, r: Rid): Word
    requires c < |s.clients| && r in s.clients[c].copies && r in s.hist && s.clients[c].copies[r].idx < |s.hist[r]|
  {
    s.hist[r][s.clients[c].copies[r].idx].version.word
  }

  /** The head was locked, its version belongs to the snapshot, but the lock holder had not yet listed it. */
  predicate MissesBase(s: State, c: nat, r: Rid)
    requires c < |s.clients| && r in s.clients[c].copies && r in s.hist && s.clients[c].copies[r].idx < |s.hist[r]|
    requires r in s.clients[c].lists
  {
    && s.clients[c].copies[r].version.word.locked
    && InSnapshot(Base(s, c, r), c, s.clients[c].snap)
    && Base(s, c, r) !in s.clients[c].lists[r]
  }

  lemma ListLookupLocal(k: Config, s: State, c: nat, r: Rid, m: nat)
    requires c < |s.clients| && r in s.hist && r in s.clients[c].copies && r in s.clients[c].lists
    requires HistOk(k, s.hist[r]) && CopyOk(s, c, r) && !s.clients[c].copies[r].older
    requires !CopyAccessible(s.clients[c], c, r)
    requires NoneAfter(s.hist[r], s.clients[c].copies[r].idx, c, s.clients[c].snap)
    requires s.clients[c].copies[r].idx <= m <= |s.hist[r]| && s.clients[c].lists[r] == ListOf(k, s.hist[r], m)
    ensures
      var cl, h := s.clients[c], s.hist[r];
      var p, n := FindValid(cl.lists[r], c, cl.snap), NewestIn(h, c, cl.snap);
      p >= 0 ==> 0 <= n < |h| && (cl.lists[r][p] == h[n].version.word <==> !MissesBase(s, c, r))
  {
    var cl, h := s.clients[c], s.hist[r];
    assert WordOk(k, h[cl.copies[r].idx].version.word, cl.copies[r].idx);
    hide HistOk, NoneAfter, ListOf, FindValid, NewestIn;
    FoundOrMissed(k, h, cl.copies[r].idx, m, c, cl.snap);
  }

  /** The search on the first `m` versions, when no version after the `idx`-th is in the snapshot. */
  lemma FoundOrMissed(k: Config, h: seq<Entry>, idx: nat, m: nat, c: nat, snap: seq<nat>)
    requires HistOk(k, h) && idx < |h| && idx <= m <= |h| && NoneAfter(h, idx, c, snap)
    ensures
      var list, n := ListOf(k, h, m), NewestIn(h, c, snap);
      var p := FindValid(list, c, snap);
      p >= 0 ==>
        && 0 <= n < |h|
        && (list[p] == h[n].version.word <==>
            !(InSnapshot(h[idx].version.word, c, snap) && h[idx].version.word !in list))
  {
    NewestBounds(h, c, snap);
    AllPlain(k, h);
    FoundIsNewestListed(k, h, m, c, snap);
    if NewestIn(h, c, snap) < m { FoundBefore(k, h, idx, m, c, snap); } else { OnlyBaseAhead(k, h, idx, m, c, snap); }
  }

  lemma AllPlain(k: Config, h: seq<Entry>)
    requires HistOk(k, h)
    ensures PlainWords(h)
  {
    assert forall i :: 0 <= i < |h| ==> WordOk(k, h[i].version.word, i);
  }

  lemma FoundBefore(k: Config, h: seq<Entry>, idx: nat, m: nat, c: nat, snap: seq<nat>)
    requires PlainWords(h) && idx < |h| && idx <= m <= |h| && NoneAfter(h, idx, c, snap) && NewestIn(h, c, snap) < m
    ensures
      var list, n := ListOf(k, h, m), NewestIn(h, c, snap);
      var p := FindValid(list, c, snap);
      p >= 0 ==>
        && 0 <= n < |h| && list[p] == h[n].version.word
        && (InSnapshot(h[idx].version.word, c, snap) ==> h[idx].version.word in list)
  {
    NewestPrefix(h, m, c, snap);
    FoundIsNewestListed(k, h, m, c, snap);
    if InSnapshot(h[idx].version.word, c, snap) { NewestIs(h, c, snap, idx); }
    hide FindValid, NewestIn, NoneAfter, PlainWords;
    var p := FindValid(ListOf(k, h, m), c, snap);
    if p >= 0 { assert ListOf(k, h, m)[p] == h[m - 1 - p].version.word; }
  }

  /** When the list ends before the snapshot's newest version, it holds no word of that version. */
  lemma OnlyBaseAhead(k: Config, h: seq<Entry>, idx: nat, m: nat, c: nat, snap: seq<nat>)
    requires HistOk(k, h) && idx < |h| && idx <= m <= NewestIn(h, c, snap) && NoneAfter(h, idx, c, snap)
    ensures NewestIn(h, c, snap) == idx == m
    ensures h[m].version.word !in ListOf(k, h, m)
  {
    NewestBounds(h, c, snap);
    BaseNotListed(k, h, m);
  }

  lemma BaseNotListed(k: Config, h: seq<Entry>, m: nat)
    requires HistOk(k, h) && m < |h|
    ensures h[m].version.word !in ListOf(k, h, m)
  {
    var list := ListOf(k, h, m);
    assert WordOk(k, h[m].version.word, m);
    forall p | 0 <= p < |list| ensures list[p] != h[m].version.word {
      if p < m { assert list[p] == h[m - 1 - p].version.word; }
    }
  }

  /**
   * The newest visible old version. When a head is not accessible, the position found in the list names the newest
   * version of the snapshot if and only if it is not the case that the head was locked over a version of the
   * snapshot that the lock holder had not yet listed; none is found only if that version is not on the list.
   */
  lemma ListLookup(k: Config, s: State, c: nat, r: Rid)
    requires ValidConfig(k) && Reachable(k, s) && c < |s.clients| && r in s.mem && Chained(r)
    requires s.clients[c].phase == Reading || s.clients[c].phase == Fetching
    requires r in s.clients[c].copies && r in s.clients[c].lists && !s.clients[c].copies[r].older
    requires !CopyAccessible(s.clients[c], c, r)
    ensures r in s.hist && s.clients[c].copies[r].idx < |s.hist[r]|
    ensures
      var cl, h := s.clients[c], s.hist[r];
      var p, n := FindValid(cl.lists[r], c, cl.snap), NewestIn(h, c, cl.snap);
      && n < |h|
      && (p >= 0 ==> 0 <= n && (cl.lists[r][p] == h[n].version.word <==> !MissesBase(s, c, r)))
      && (p < 0 ==> n < 0 || h[n].version.word !in cl.lists[r])
  {
    var m := ListReadAt(k, s, c, r);
    ListLookupLocal(k, s, c, r, m);
    hide Reachable, ValidConfig;
    NothingListed(k, s.hist[r], s.clients[c].lists[r], c, s.clients[c].snap);
  }

  /** When the search fails, the snapshot's newest version is not on the list. */
  lemma NothingListed(k: Config, h: seq<Entry>, list: seq<Word>, c: nat, snap: seq<nat>)
    requires HistOk(k, h)
    ensures NewestIn(h, c, snap) < |h|
    ensures FindValid(list, c, snap) < 0 && NewestIn(h, c, snap) >= 0 ==> h[NewestIn(h, c, snap)].version.word !in list
  {
    var n := NewestIn(h, c, snap);
    NewestBounds(h, c, snap);
    if n >= 0 {
      assert WordOk(k, h[n].version.word, n);
      assert Accessible(h[n].version.word, c, snap);
    }
  }

  lemma ListReadAt(k: Config, s: State, c: nat, r: Rid) returns (m: nat)
    requires ValidConfig(k) && Reachable(k, s) && c < |s.clients| && r in s.mem && Chained(r)
    requires s.clients[c].phase == Reading || s.clients[c].phase == Fetching
    requires r in s.clients[c].copies && r in s.clients[c].lists && !s.clients[c].copies[r].older
    ensures r in s.hist && HistOk(k, s.hist[r]) && CopyOk(s, c, r)
    ensures NoneAfter(s.hist[r], s.clients[c].copies[r].idx, c, s.clients[c].snap)
    ensures s.clients[c].copies[r].idx <= m <= |s.hist[r]| && s.clients[c].lists[r] == ListOf(k, s.hist[r], m)
  {
    hide Reachable, ValidConfig, ListOf, ListCopyOk;
    ListFacts(k, s, c, r);
    m := ListLength(k, s, c, r);
  }

  lemma ListFacts(k: Config, s: State, c: nat, r: Rid)
    requires ValidConfig(k) && Reachable(k, s) && c < |s.clients| && r in s.mem
    ensures r in s.hist && s.hist[r] != [] && HistOk(k, s.hist[r]) && CopyOk(s, c, r) && ListCopyOk(k, s, c, r)
    ensures Fresh(s, c, r)
  {
    hide Reachable, ValidConfig, RecordInv, CopyOk, ListCopyOk, Fresh;
    hide HoldOk, StampOk, SnapOk, ReaderOk, ChainOk, OlderOk;
    hide Prefix, FirstWins, VectorPrefix;
    AlwaysChained(k, s);
    Facts(k, s, c, r);
    RecordHist(k, s, r);
  }

  lemma ListLength(k: Config, s: State, c: nat, r: Rid) returns (m: nat)
    requires c < |s.clients| && r in s.mem && Chained(r) && r in s.hist && s.hist[r] != [] && ListCopyOk(k, s, c, r)
    requires r in s.clients[c].copies && r in s.clients[c].lists && !s.clients[c].copies[r].older
    ensures s.clients[c].copies[r].idx <= m <= |s.hist[r]| && s.clients[c].lists[r] == ListOf(k, s.hist[r], m)
  {
    hide ListOf;
    m :| s.clients[c].copies[r].idx <= m <= |s.hist[r]| && s.clients[c].lists[r] == ListOf(k, s.hist[r], m);
  }

  // ---------------------------------------------------------------- what the reader can see of it

  /** What a reader sees: a locked head whose slot follows that of the list's first entry, which is the one it found. */
  predicate Warns(k: Config, cl: Client, c: nat, r: Rid)
    requires r in cl.copies && r in cl.lists && cl.lists[r] != [] && 1 <= k.versions
  {
    && cl.copies[r].version.word.locked && FindValid(cl.lists[r], c, cl.snap) == 0
    && NextOffset(k, cl.lists[r][0].offset) == cl.copies[r].version.word.offset
  }

  /**
   * A version of the snapshot that nothing newer follows there is missing from a list exactly if the list ends right
   * before it.
   */
  lemma MissingExactly(k: Config, h: seq<Entry>, idx: nat, m: nat, c: nat, snap: seq<nat>)
    requires HistOk(k, h) && idx < |h| && idx <= m <= |h| && NoneAfter(h, idx, c, snap) && Prefix(h, c, snap)
    requires 1 <= k.versions <= OFFSET_RANGE && InSnapshot(h[idx].version.word, c, snap)
    requires FindValid(ListOf(k, h, m), c, snap) >= 0
    ensures
      var list := ListOf(k, h, m);
      var warned := FindValid(list, c, snap) == 0 && NextOffset(k, list[0].offset) == h[idx].version.word.offset;
      (h[idx].version.word !in list ==> warned) && (2 <= k.versions && warned ==> h[idx].version.word !in list)
  {
    hide HistOk, ListOf, NoneAfter, Prefix, NewestIn, FindValid;
    if m == idx { MissingJustBefore(k, h, idx, c, snap); } else { ListedSince(k, h, idx, m, c, snap); }
  }

  lemma MissingJustBefore(k: Config, h: seq<Entry>, idx: nat, c: nat, snap: seq<nat>)
    requires HistOk(k, h) && idx < |h| && Prefix(h, c, snap) && InSnapshot(h[idx].version.word, c, snap)
    requires 1 <= k.versions <= OFFSET_RANGE && FindValid(ListOf(k, h, idx), c, snap) >= 0
    ensures
      var list := ListOf(k, h, idx);
      && h[idx].version.word !in list && FindValid(list, c, snap) == 0
      && NextOffset(k, list[0].offset) == h[idx].version.word.offset
  {
    AllPlain(k, h);
    BaseNotListed(k, h, idx);
    FoundIsNewestListed(k, h, idx, c, snap);
    NewestBounds(h[..idx], c, snap);
    assert idx > 0 && InSnapshot(h[idx - 1].version.word, c, snap);
    NewestOfPrefix(h, idx, c, snap);
    assert WordOk(k, h[idx].version.word, idx) && WordOk(k, h[idx - 1].version.word, idx - 1);
    NextSlot(k, idx - 1);
  }

  lemma NewestOfPrefix(h: seq<Entry>, m: nat, c: nat, snap: seq<nat>)
    requires 0 < m <= |h| && InSnapshot(h[m - 1].version.word, c, snap)
    ensures NewestIn(h[..m], c, snap) == m - 1
  {
    assert h[..m][m - 1] == h[m - 1];
    NewestIs(h[..m], c, snap, m - 1);
  }

  lemma ListedSince(k: Config, h: seq<Entry>, idx: nat, m: nat, c: nat, snap: seq<nat>)
    requires HistOk(k, h) && idx < m <= |h| && NoneAfter(h, idx, c, snap) && InSnapshot(h[idx].version.word, c, snap)
    requires 1 <= k.versions <= OFFSET_RANGE && FindValid(ListOf(k, h, m), c, snap) >= 0
    ensures
      var list := ListOf(k, h, m);
      && h[idx].version.word in list
      && (2 <= k.versions && FindValid(list, c, snap) == 0 ==>
            NextOffset(k, list[0].offset) != h[idx].version.word.offset)
  {
    hide FindValid, NoneAfter, HistOk, InSnapshot;
    FoundAt(k, h, idx, m, c, snap);
    OffsetAt(k, h, idx);
    var list := ListOf(k, h, m);
    assert list[m - 1 - idx] == h[idx].version.word;
    if 2 <= k.versions && m == idx + 1 {
      NextSlot(k, idx);
      SlotsDistinct(k, idx, idx + 1);
    }
  }

  lemma FoundAt(k: Config, h: seq<Entry>, idx: nat, m: nat, c: nat, snap: seq<nat>)
    requires HistOk(k, h) && idx < m <= |h| && NoneAfter(h, idx, c, snap) && InSnapshot(h[idx].version.word, c, snap)
    requires FindValid(ListOf(k, h, m), c, snap) >= 0
    ensures FindValid(ListOf(k, h, m), c, snap) == m - 1 - idx < k.versions
  {
    hide FindValid, NewestIn, ListOf, HistOk, PlainWords, NoneAfter, InSnapshot;
    AllPlain(k, h);
    NewestIs(h, c, snap, idx);
    NewestPrefix(h, m, c, snap);
    FoundIsNewestListed(k, h, m, c, snap);
  }

  lemma OffsetAt(k: Config, h: seq<Entry>, i: nat)
    requires HistOk(k, h) && i < |h|
    ensures h[i].version.word.offset == Slot(k, i)
  {
    assert WordOk(k, h[i].version.word, i);
  }

  /**
   * With one old version kept the reader sees too little: the same view may come from a list that is complete or not.
   */
  lemma OneVersionBlind(k: Config, h: seq<Entry>, c: nat, snap: seq<nat>)
    requires HistOk(k, h) && |h| == 2 && k.versions == 1
    requires InSnapshot(h[0].version.word, c, snap) && InSnapshot(h[1].version.word, c, snap)
    ensures HistOk(k, h[..1]) && ListOf(k, h[..1], 1) == ListOf(k, h, 1) && FindValid(ListOf(k, h, 1), c, snap) == 0
    ensures h[..1][0].version.word.offset == h[1].version.word.offset
    ensures ListOf(k, h, 1)[0] == h[NewestIn(h[..1], c, snap)].version.word && NewestIn(h[..1], c, snap) == 0
    ensures NewestIn(h, c, snap) == 1 && ListOf(k, h, 1)[0] != h[1].version.word
  {
    assert WordOk(k, h[0].version.word, 0) && WordOk(k, h[1].version.word, 1);
    var g := h[..1];
    assert g[0] == h[0] && HistOk(k, g);
    NewestOfPrefix(h, 1, c, snap);
    NewestOfPrefix(h, 2, c, snap);
    assert h[..2] == h;
    BaseNotListed(k, h, 1);
  }

  /**
   * The condition as far as the reader can see it. Without the warning the entry found is the snapshot's newest
   * version; with it, if two or more old versions are kept, exactly if the version under the lock is not in the
   * snapshot.
   */
  lemma WarnedLookup(k: Config, s: State, c: nat, r: Rid)
    requires ValidConfig(k) && Reachable(k, s) && c < |s.clients| && r in s.mem && Chained(r)
    requires s.clients[c].phase == Reading || s.clients[c].phase == Fetching
    requires r in s.clients[c].copies && r in s.clients[c].lists && !s.clients[c].copies[r].older
    requires !CopyAccessible(s.clients[c], c, r) && FindValid(s.clients[c].lists[r], c, s.clients[c].snap) >= 0
    ensures r in s.hist && s.clients[c].copies[r].idx < |s.hist[r]|
    ensures
      var cl, h := s.clients[c], s.hist[r];
      var p, n := FindValid(cl.lists[r], c, cl.snap), NewestIn(h, c, cl.snap);
      && 0 <= n < |h|
      && var missed := Warns(k, cl, c, r) && InSnapshot(Base(s, c, r), c, cl.snap);
      && (!missed ==> cl.lists[r][p] == h[n].version.word)
      && (2 <= k.versions && missed ==> cl.lists[r][p] != h[n].version.word)
  {
    hide Reachable;
    ListLookup(k, s, c, r);
    var m := ListReadAt(k, s, c, r);
    ListFacts(k, s, c, r);
    SnapshotPrefix(k, s, c, r);
    hide ListCopyOk, ListOf, NoneAfter, Prefix, HistOk, FindValid, NewestIn;
    var cl, h := s.clients[c], s.hist[r];
    if cl.copies[r].version.word.locked && InSnapshot(Base(s, c, r), c, cl.snap) {
      MissingExactly(k, h, cl.copies[r].idx, m, c, cl.snap);
    }
  }

  lemma SnapshotPrefix(k: Config, s: State, c: nat, r: Rid)
    requires ValidConfig(k) && Reachable(k, s) && c < |s.clients| && r in s.hist
    ensures Prefix(s.hist[r], c, s.clients[c].snap)
  {
    hide Reachable, ValidConfig, Inv, ChainInv, Prefix, FirstWins, VectorPrefix, Fresh;
    AlwaysChained(k, s);
  }

  // ---------------------------------------------------------------- the ring slot that is fetched

  /** A ring slot holds a given version if and only if it is that version's slot and the ring has not lapped it. */
  lemma SlotHolds(k: Config, h: seq<Entry>, m: nat, ring: seq<Version>, p: nat, n: nat)
    requires 1 <= k.versions && m <= |h| && HistOk(k, h) && RingOf(k, h, m, ring) && p < k.versions && n < |h|
    ensures ring[p] == h[n].version <==> h[n].version.word.offset == p && n < m <= n + k.versions
  {
    assert WordOk(k, h[n].version.word, n);
    if ring[p] == h[n].version {
      RingSlotIndex(k, h, m, ring, p);
      var i :| 0 <= i < m <= i + k.versions && Slot(k, i) == p && h[i].version == ring[p];
      WordsDistinct(k, h, i, n);
    }
  }

  /** The same, as what the ring shows. */
  lemma SlotShows(k: Config, h: seq<Entry>, m: nat, ring: seq<Version>, p: nat, n: nat)
    requires 1 <= k.versions && m <= |h| && HistOk(k, h) && RingOf(k, h, m, ring) && p < k.versions && n < |h|
    ensures ring[p] == h[n].version <==> h[n].version.word.offset == p && h[n].version in ring
  {
    hide HistOk, RingOf;
    RingLength(k, h, m, ring);
    SlotHolds(k, h, m, ring, p, n);
    if h[n].version in ring {
      var j :| 0 <= j < |ring| && ring[j] == h[n].version;
      SlotHolds(k, h, m, ring, j, n);
    }
  }

  lemma RingLength(k: Config, h: seq<Entry>, m: nat, ring: seq<Version>)
    requires m <= |h| && RingOf(k, h, m, ring)
    ensures |ring| == k.versions
  {}

  /** The populated version is in every snapshot. */
  lemma SnapshotNotEmpty(k: Config, s: State, c: nat, r: Rid)
    requires ValidConfig(k) && Reachable(k, s) && c < |s.clients| && r in s.hist
    ensures 0 <= NewestIn(s.hist[r], c, s.clients[c].snap) < |s.hist[r]|
  {
    hide NewestIn, Reachable, ValidConfig, InSnapshot;
    PopulatedFirst(k, s, c, r);
    NewestBounds(s.hist[r], c, s.clients[c].snap);
  }

  lemma PopulatedFirst(k: Config, s: State, c: nat, r: Rid)
    requires ValidConfig(k) && Reachable(k, s) && c < |s.clients| && r in s.hist
    ensures s.hist[r] != [] && InSnapshot(s.hist[r][0].version.word, c, s.clients[c].snap)
  {
    hide Reachable, SnapInv, ChainInv, Inv;
    AlwaysGood(k, s);
    Sizes(k, s);
    SnapLength(k, s, c);
    assert Replays(k, r, s.hist[r]);
  }

  /** Fetching puts the ring's version at the position found, and changes no other copy. */
  lemma Fetched(s: State, c: nat, r: Rid)
    requires CanFetchOlder(s, c, r)
    ensures
      var cl, t := s.clients[c], DoFetchOlder(s, c, r);
      && |t.clients| == |s.clients| && r in t.clients[c].copies
      && t.clients[c].copies == cl.copies[r := t.clients[c].copies[r]]
      && t.clients[c].copies[r].version == s.mem[r].ring[FindValid(cl.lists[r], c, cl.snap)]
  {}

  /**
   * The old version that is fetched. The ring is indexed by the position found in the list: the copy the client then
   * has is the newest version of its snapshot if and only if that version's own slot happens to be the position, and
   * the ring holds it at the time.
   */
  lemma RingLookup(k: Config, s: State, c: nat, r: Rid)
    requires ValidConfig(k) && Reachable(k, s) && CanFetchOlder(s, c, r)
    ensures 0 <= NewestIn(s.hist[r], c, s.clients[c].snap) < |s.hist[r]|
    ensures
      var cl, h, t := s.clients[c], s.hist[r], Next(k, s, FetchOlder(c, r));
      var newest := h[NewestIn(h, c, cl.snap)].version;
      && c < |t.clients| && r in t.clients[c].copies
      && (forall q :: q in cl.copies && q != r ==> q in t.clients[c].copies && t.clients[c].copies[q] == cl.copies[q])
      && (t.clients[c].copies[r].version == newest <==>
          newest.word.offset == FindValid(cl.lists[r], c, cl.snap) && newest in s.mem[r].ring)
  {
    hide Reachable, ValidConfig, DoFetchOlder, FindValid, NewestIn;
    SnapshotNotEmpty(k, s, c, r);
    Fetched(s, c, r);
    var cl := s.clients[c];
    RingAt(k, s, c, r, FindValid(cl.lists[r], c, cl.snap), NewestIn(s.hist[r], c, cl.snap));
  }

  lemma RingAt(k: Config, s: State, c: nat, r: Rid, p: nat, n: nat)
    requires ValidConfig(k) && Reachable(k, s) && r in s.mem && r in s.hist && p < |s.mem[r].ring| && n < |s.hist[r]|
    requires c < |s.clients|
    ensures
      var v := s.hist[r][n].version;
      s.mem[r].ring[p] == v <==> v.word.offset == p && v in s.mem[r].ring
  {
    hide Reachable, ListCopyOk, Fresh, Prefix, FirstWins, VectorPrefix, OlderOk, RingOf;
    AlwaysChained(k, s);
    Facts(k, s, c, r);
    assert ChainOk(k, s, r);
    RingLength(k, s.hist[r], RingedTo(s, r), s.mem[r].ring);
    SlotShows(k, s.hist[r], RingedTo(s, r), s.mem[r].ring, p, n);
  }
}
