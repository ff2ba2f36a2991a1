/** Each transaction under way does what its cart asks for: the records it reads, checks, locks and writes. */
module Carts {
  import opened Words
  import opened Records
  import opened Protocol
  import opened Core
  import opened Steps
  import opened Commits
  import opened Draws

  /** A cart as it is generated, on records of the database. */
  ghost predicate Sound(k: Config, cart: Cart) { CartOk(cart) && TxnOf(k.commutative, cart).readSet <= k.initial.Keys }

  ghost predicate Bound(k: Config, cl: Client) {
    cl.phase != Idle ==> Sound(k, cl.cart) && cl.txn == TxnOf(k.commutative, cl.cart)
  }

  ghost predicate CommitBound(k: Config, m: Commit) {
    Sound(k, m.cart) && m.writes == TxnOf(k.commutative, m.cart).writes.Keys
  }

  ghost predicate CartInv(k: Config, s: State) {
    && (forall c :: 0 <= c < |s.clients| ==> Bound(k, s.clients[c]))
    && (forall m :: m in s.log ==> CommitBound(k, m))
  }

  lemma SameCart(k: Config, s: State, a: Action)
    requires Enabled(k, s, a) && !a.Begin? && !a.Refresh?
    ensures a.c < |s.clients| == |Next(k, s, a).clients| && s.clients[a.c].phase != Idle
    ensures Next(k, s, a).clients[a.c].txn == s.clients[a.c].txn
    ensures Next(k, s, a).clients[a.c].cart == s.clients[a.c].cart
  {
    hide Enabled, Next;
    if WritesMemory(a) { StepsByWriting(k, s, a); } else { StepsLocally(k, s, a); }
  }

  lemma NextBound(k: Config, s: State, a: Action)
    requires Enabled(k, s, a) && s.mem.Keys == k.initial.Keys
    requires forall c :: 0 <= c < |s.clients| ==> Bound(k, s.clients[c])
    ensures forall c :: 0 <= c < |Next(k, s, a).clients| ==> Bound(k, Next(k, s, a).clients[c])
  {
    hide TxnOf, CartOk;
    if !a.Refresh? {
      OthersStay(k, s, a);
      if !a.Begin? { SameCart(k, s, a); }
    }
  }

  lemma NextCarts(k: Config, s: State, a: Action)
    requires Inv(k, s) && CartInv(k, s) && Enabled(k, s, a)
    ensures CartInv(k, Next(k, s, a))
  {
    hide Inv, TxnOf, DoDecide, Sound;
    Sizes(k, s);
    NextBound(k, s, a);
    if a.Decide? { DecideEffect(s, a.c); } else { LogKept(k, s, a); }
  }

  lemma InitCarts(k: Config)
    ensures CartInv(k, Init(k))
  {}

  // ---------------------------------------------------------------- the two checks

  /** The list read for `r` names some version the client may see. */
  ghost predicate SeesOlder(cl: Client, c: nat, r: Rid) {
    r in cl.lists && exists i :: 0 <= i < |cl.lists[r]| && Accessible(cl.lists[r][i], c, cl.snap)
  }

  /**
   * A payment needs all its records visible. A new order needs every stock and item visible; its warehouse, district
   * and customer may be replaced by an older version.
   */
  ghost predicate PassesFirst(cl: Client, c: nat) {
    match cl.cart
    case NewOrder(w, d, cu, lines) =>
      && (forall i :: 0 <= i < |lines| ==>
            CopyAccessible(cl, c, Stock(lines[i].supply, lines[i].item)) && CopyAccessible(cl, c, Item(lines[i].item)))
      && (CopyAccessible(cl, c, Warehouse(w)) || SeesOlder(cl, c, Warehouse(w)))
      && (CopyAccessible(cl, c, District(w, d)) || SeesOlder(cl, c, District(w, d)))
      && (CopyAccessible(cl, c, Customer(w, d, cu)) || SeesOlder(cl, c, Customer(w, d, cu)))
    case Payment(w, d, rw, cu, _) =>
      && CopyAccessible(cl, c, Warehouse(w)) && CopyAccessible(cl, c, District(w, d))
      && CopyAccessible(cl, c, Customer(rw, d, cu))
  }

  lemma RejectsExactly(k: Config, cl: Client, c: nat, r: Rid)
    requires Bound(k, cl) && cl.phase != Idle && r in cl.txn.readSet
    ensures !Rejects(cl, c, r) <==>
      CopyAccessible(cl, c, r) || (cl.cart.NewOrder? && Named(cl.cart, r) && SeesOlder(cl, c, r))
  {
    hide TxnOf, CopyAccessible, Named;
    TxnOfExact(k.commutative, cl.cart, r);
  }

  lemma ReadsExactly(k: Config, cl: Client)
    requires Bound(k, cl) && cl.phase != Idle
    ensures forall r :: r in cl.txn.readSet <==> Touches(cl.cart, r)
  {
    hide TxnOf, Touches, WellFormed, Changes;
    forall r ensures r in cl.txn.readSet <==> Touches(cl.cart, r) { TxnOfExact(k.commutative, cl.cart, r); }
  }

  /** The first check passes on exactly these carts. */
  lemma FirstCheckExactly(k: Config, cl: Client, c: nat)
    requires Bound(k, cl) && cl.phase != Idle
    ensures (forall r :: r in cl.txn.readSet ==> !Rejects(cl, c, r)) <==> PassesFirst(cl, c)
  {
    hide TxnOf, Rejects, CopyAccessible, SeesOlder;
    ReadsExactly(k, cl);
    forall r | r in cl.txn.readSet
      ensures !Rejects(cl, c, r) <==>
        CopyAccessible(cl, c, r) || (cl.cart.NewOrder? && Named(cl.cart, r) && SeesOlder(cl, c, r))
    {
      RejectsExactly(k, cl, c, r);
    }
    var cart := cl.cart;
    if cart.NewOrder? {
      forall i | 0 <= i < |cart.lines|
        ensures Touches(cart, Stock(cart.lines[i].supply, cart.lines[i].item))
        ensures Touches(cart, Item(cart.lines[i].item))
      {
        assert StockOf(cart.lines[i]) == Stock(cart.lines[i].supply, cart.lines[i].item);
        assert OnSomeLine(cart.lines, StockOf(cart.lines[i])) && ItemOnSomeLine(cart.lines, Item(cart.lines[i].item));
      }
    }
  }

  /**
   * A client that has drawn its timestamp holds copies of exactly the records its cart names, and locks those it
   * writes.
   */
  lemma ValidatedExactly(k: Config, cl: Client, c: nat, r: Rid)
    requires Bound(k, cl) && ClientShape(k, c, cl) && Active(cl)
    ensures r in cl.copies <==> Touches(cl.cart, r)
    ensures r in cl.stage <==> Changes(k.commutative, cl.cart, r)
    ensures r in cl.copies ==> CopyAccessible(cl, c, r)
  {
    hide TxnOf, Touches, Changes, WellFormed, StageFits;
    TxnOfExact(k.commutative, cl.cart, r);
  }
}
