/**
 * Order ids. The ids a district hands out are 0, 1, 2, ... without gap or repetition as long as no install
 * writes back a stale D_NEXT_O_ID; when that can happen is characterised exactly.
 */
module OrderIds {
  import opened Records
  import opened Protocol
  import opened Core
  import opened Steps
  import opened Chains
  import opened Commits
  import opened Carts

  /** The ids assigned so far are exactly 0 .. D_NEXT_O_ID - 1, each once and in this order. */
  predicate Gapless(s: State, d: Rid) {
    && d in s.mem && d in s.orderIds && |s.orderIds[d]| == s.mem[d].oid
    && forall i :: 0 <= i < |s.orderIds[d]| ==> s.orderIds[d][i].id == i
  }

  /** District `d` has given out `id`. */
  ghost predicate GivenOut(s: State, d: Rid, id: nat) {
    d in s.orderIds && exists i :: 0 <= i < |s.orderIds[d]| && s.orderIds[d][i].id == id
  }

  /** An install that writes back a D_NEXT_O_ID read before someone else moved it. */
  predicate StaleInstall(s: State, a: Action, d: Rid) {
    && a.Install? && a.r == d && a.c < |s.clients| && d in s.clients[a.c].copies && d in s.mem
    && s.clients[a.c].copies[d].oid != s.mem[d].oid
  }

  lemma OtherIdsStay(k: Config, s: State, a: Action, d: Rid)
    requires Enabled(k, s, a) && !a.Install? && !a.FetchAdd? && d in s.mem && d in s.orderIds
    ensures d in Next(k, s, a).mem && Next(k, s, a).mem[d].oid == s.mem[d].oid
    ensures Next(k, s, a).orderIds == s.orderIds
  {
    if WritesMemory(a) { StepsByWriting(k, s, a); } else if !a.Refresh? { StepsLocally(k, s, a); }
  }

  /** A district's ids stay gapless through a step if and only if the step is not a stale install. */
  lemma GaplessStep(k: Config, s: State, a: Action, d: Rid)
    requires Enabled(k, s, a) && Gapless(s, d)
    ensures Gapless(Next(k, s, a), d) <==> !StaleInstall(s, a, d)
  {
    if a.Install? { InstallIds(k, s, a.c, a.r, d); }
    else if a.FetchAdd? { FetchAddIds(s, a.c, d); }
    else { OtherIdsStay(k, s, a, d); }
  }

  lemma InstallIds(k: Config, s: State, c: nat, r: Rid, d: Rid)
    requires CanInstall(k, s, c, r) && Gapless(s, d)
    ensures Gapless(DoInstall(k, s, c, r), d) <==> (r == d ==> s.clients[c].copies[d].oid == s.mem[d].oid)
  {}

  lemma FetchAddIds(s: State, c: nat, d: Rid)
    requires CanFetchAdd(s, c) && Gapless(s, d)
    ensures Gapless(DoFetchAdd(s, c), d)
  {}

  // ---------------------------------------------------------------- without atomic adds: always gapless

  /** With locked updates only, a copy of the newest version carries the current counter. */
  predicate OidCurrent(s: State, c: nat, r: Rid)
    requires c < |s.clients|
  {
    r in s.clients[c].copies && !s.clients[c].copies[r].older && r in s.mem && r in s.hist
    && s.clients[c].copies[r].idx == |s.hist[r]| - 1 ==>
      s.clients[c].copies[r].oid == s.mem[r].oid
  }

  ghost predicate OidInv(s: State) {
    && (forall c, r :: 0 <= c < |s.clients| ==> OidCurrent(s, c, r))
    && (forall c :: 0 <= c < |s.clients| && s.clients[c].phase != Idle ==> s.clients[c].txn.counter.None?)
  }

  /** No copy is new and neither counter nor history moves. */
  lemma OidQuiet(s: State, t: State)
    requires OidInv(s) && t.hist == s.hist && t.mem.Keys == s.mem.Keys && |t.clients| == |s.clients|
    requires forall r :: r in s.mem ==> t.mem[r].oid == s.mem[r].oid
    requires forall c :: 0 <= c < |s.clients| ==> t.clients[c].copies == s.clients[c].copies
    requires forall c :: 0 <= c < |s.clients| && t.clients[c].phase != Idle ==>
      s.clients[c].phase != Idle && t.clients[c].txn == s.clients[c].txn
    ensures OidInv(t)
  {
    forall c, r | 0 <= c < |t.clients| ensures OidCurrent(t, c, r) { assert OidCurrent(s, c, r); }
  }

  lemma OidRead(s: State, t: State, c: nat, r: Rid)
    requires OidInv(s) && c < |s.clients| == |t.clients| && t == SetClient(s, c, t.clients[c])
    requires r in t.clients[c].copies && t.clients[c].copies == s.clients[c].copies[r := t.clients[c].copies[r]]
    requires t.clients[c].copies[r].older || (r in s.mem && t.clients[c].copies[r].oid == s.mem[r].oid)
    requires s.clients[c].phase != Idle && t.clients[c].txn == s.clients[c].txn
    ensures OidInv(t)
  {
    forall d, q | 0 <= d < |t.clients| ensures OidCurrent(t, d, q) { assert OidCurrent(s, d, q); }
  }

  lemma OidBegin(k: Config, s: State, c: nat, cart: Cart)
    requires OidInv(s) && CanBegin(k, s, c, cart) && !k.commutative
    ensures OidInv(DoBegin(k, s, c, cart))
  {
    var t := DoBegin(k, s, c, cart);
    forall d, q | 0 <= d < |t.clients| ensures OidCurrent(t, d, q) { assert OidCurrent(s, d, q); }
  }

  lemma OidInstall(k: Config, s: State, c: nat, r: Rid)
    requires OidInv(s) && CanInstall(k, s, c, r)
    requires forall d :: 0 <= d < |s.clients| ==> CopyOk(s, d, r)
    ensures OidInv(DoInstall(k, s, c, r))
  {
    var t := DoInstall(k, s, c, r);
    forall d, q | 0 <= d < |t.clients| ensures OidCurrent(t, d, q) {
      assert OidCurrent(s, d, q);
      if q == r { assert CopyOk(s, d, r); }
    }
  }

  predicate OidMoves(a: Action) { a.Begin? || a.ReadHead? || a.FetchOlder? || a.Install? || a.FetchAdd? }

  lemma CopiesStay(k: Config, s: State, a: Action)
    requires Enabled(k, s, a) && !OidMoves(a) && !a.Refresh?
    ensures a.c < |s.clients| == |Next(k, s, a).clients| && Next(k, s, a).clients[a.c].copies == s.clients[a.c].copies
  {
    if WritesMemory(a) { StepsByWriting(k, s, a); } else { StepsLocally(k, s, a); }
  }

  lemma QuietOid(k: Config, s: State, a: Action)
    requires OidInv(s) && Enabled(k, s, a) && !OidMoves(a) && s.mem.Keys == s.orderIds.Keys
    requires Next(k, s, a).mem.Keys == s.mem.Keys
    ensures OidInv(Next(k, s, a))
  {
    forall r | r in s.mem ensures Next(k, s, a).mem[r].oid == s.mem[r].oid { OtherIdsStay(k, s, a, r); }
    NoNewVersion(k, s, a);
    if !a.Refresh? {
      CopiesStay(k, s, a);
      OthersStay(k, s, a);
      SameCart(k, s, a);
    }
    OidQuiet(s, Next(k, s, a));
  }

  lemma NextOid(k: Config, s: State, a: Action)
    requires Inv(k, s) && OidInv(s) && Enabled(k, s, a) && !k.commutative
    ensures OidInv(Next(k, s, a))
  {
    if !OidMoves(a) {
      NextKeeps(k, s, a);
      QuietOid(k, s, a);
    }
    else if a.Install? {
      forall d | 0 <= d < |s.clients| ensures CopyOk(s, d, a.r) { Facts(k, s, d, a.r); }
      OidInstall(k, s, a.c, a.r);
    }
    else { MovingOid(k, s, a); }
  }

  lemma MovingOid(k: Config, s: State, a: Action)
    requires OidInv(s) && Enabled(k, s, a) && !k.commutative && OidMoves(a) && !a.Install?
    ensures OidInv(Next(k, s, a))
  {
    match a
    case Begin(c, cart) => OidBegin(k, s, c, cart);
    case ReadHead(c, r) => OidRead(s, DoReadHead(s, c, r), c, r);
    case FetchOlder(c, r) => OidRead(s, DoFetchOlder(s, c, r), c, r);
    case FetchAdd(c) =>
  }

  // ---------------------------------------------------------------- a held record was read at its head

  predicate HeldFresh(s: State, c: nat, r: Rid) {
    Holds(s, c, r) ==> r in s.clients[c].copies && !s.clients[c].copies[r].older
  }

  /** A transaction that fell back to an older version of a record never gets that record's lock. */
  lemma HeldIsNotOlder(k: Config, s: State, c: nat, r: Rid)
    requires Inv(k, s) && ChainInv(k, s) && r in s.mem && Holds(s, c, r) && s.clients[c].stage[r] == Held
    ensures HeldFresh(s, c, r)
  {
    Facts(k, s, c, r);
    assert ListCopyOk(k, s, c, r);
    assert CopyAccessible(s.clients[c], c, r);
  }

  predicate HoldsBefore(s: State, t: State, c: nat, r: Rid) {
    Holds(t, c, r) ==> Holds(s, c, r) && c < |t.clients| && t.clients[c].copies == s.clients[c].copies
  }

  lemma ValidateHolds(k: Config, s: State, c: nat, r: Rid)
    requires CanValidate(k, s, c)
    ensures HoldsBefore(s, DoValidate(k, s, c), c, r)
  {}

  lemma DecideHolds(s: State, c: nat, r: Rid)
    requires CanDecide(s, c)
    ensures HoldsBefore(s, DoDecide(s, c), c, r)
  {}

  lemma WriteHolds(k: Config, s: State, a: Action, r: Rid)
    requires Enabled(k, s, a) && WritesMemory(a) && !(a.TryLock? && a.r == r)
    ensures HoldsBefore(s, Next(k, s, a), a.c, r)
  {
    hide Enabled, Next;
    StepsByWriting(k, s, a);
  }

  lemma NewHoldFresh(k: Config, s: State, c: nat, r: Rid)
    requires Inv(k, s) && ChainInv(k, s) && CanTryLock(s, c, r)
    ensures HeldFresh(DoTryLock(s, c, r), c, r)
  {
    hide Inv, ChainInv, HeldFresh;
    var t := DoTryLock(s, c, r);
    if !Holds(t, c, r) {
      NotHeldFresh(t, c, r);
    } else {
      NextKeeps(k, s, TryLock(c, r));
      NextChains(k, s, TryLock(c, r));
      NewHoldIsHeld(s, c, r);
      HeldIsNotOlder(k, t, c, r);
    }
  }

  lemma NotHeldFresh(s: State, c: nat, r: Rid)
    requires !Holds(s, c, r)
    ensures HeldFresh(s, c, r)
  {}

  lemma NewHoldIsHeld(s: State, c: nat, r: Rid)
    requires CanTryLock(s, c, r) && Holds(DoTryLock(s, c, r), c, r)
    ensures DoTryLock(s, c, r).clients[c].stage[r] == Held
  {}

  lemma OwnHolds(k: Config, s: State, a: Action, r: Rid)
    requires Enabled(k, s, a) && !a.Refresh? && !(a.TryLock? && a.r == r)
    ensures HoldsBefore(s, Next(k, s, a), a.c, r)
  {
    hide DoValidate, DoDecide, HoldsBefore;
    if WritesMemory(a) { WriteHolds(k, s, a, r); }
    else if a.Validate? { ValidateHolds(k, s, a.c, r); }
    else if a.Decide? { DecideHolds(s, a.c, r); }
    else { LocalHolds(k, s, a, r); }
  }

  lemma LocalHolds(k: Config, s: State, a: Action, r: Rid)
    requires Enabled(k, s, a) && !WritesMemory(a) && !a.Refresh? && !a.Validate? && !a.Decide?
    ensures HoldsBefore(s, Next(k, s, a), a.c, r)
  {
    hide Enabled, Next;
    StepsLocally(k, s, a);
  }

  lemma NextHeldFresh(k: Config, s: State, a: Action, c: nat, r: Rid)
    requires Inv(k, s) && ChainInv(k, s) && Enabled(k, s, a) && HeldFresh(s, c, r)
    ensures HeldFresh(Next(k, s, a), c, r)
  {
    hide Inv, ChainInv;
    if !a.Refresh? { OthersStay(k, s, a); }
    if ActsAs(a, c) {
      if a.TryLock? && a.r == r { NewHoldFresh(k, s, c, r); } else { OwnHolds(k, s, a, r); }
    }
  }

  /** With locked updates only, no install is stale. */
  lemma NeverStale(k: Config, s: State, a: Action, d: Rid)
    requires Inv(k, s) && OidInv(s) && Enabled(k, s, a) && d in s.mem && (a.Install? ==> HeldFresh(s, a.c, d))
    ensures !StaleInstall(s, a, d)
  {
    if a.Install? && a.r == d {
      Facts(k, s, a.c, d);
      assert Holds(s, a.c, d);
      assert OidCurrent(s, a.c, d);
    }
  }

  // ---------------------------------------------------------------- with atomic adds: gapless without payments

  /** No transaction under way writes the district. */
  ghost predicate NobodyWrites(s: State, d: Rid) {
    forall c :: 0 <= c < |s.clients| && s.clients[c].phase != Idle ==> d !in s.clients[c].txn.writes
  }

  predicate PaysOn(a: Action, d: Rid) {
    a.Begin? && a.cart.Payment? && District(a.cart.w, a.cart.d) == d
  }

  lemma NextNobodyWrites(k: Config, s: State, a: Action, d: Rid)
    requires Enabled(k, s, a) && NobodyWrites(s, d) && d.District? && k.commutative && !PaysOn(a, d)
    ensures NobodyWrites(Next(k, s, a), d)
  {
    if !a.Refresh? {
      OthersStay(k, s, a);
      if a.Begin? {
        if a.cart.NewOrder? { StockWritesOk(a.cart.w, a.cart.lines); }
      } else { SameCart(k, s, a); }
    }
  }
}
