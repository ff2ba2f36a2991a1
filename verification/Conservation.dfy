/** What is conserved over every run: each row is the sum of the operations installed on it. */
module Conservation {
  import opened Records
  import opened Protocol
  import opened Core
  import opened Steps
  import opened Ledger
  import opened Theorems

  /** Each record's head row is the newest of a history that replays its writers' operations. */
  ghost predicate Accounted(k: Config, s: State, r: Rid) {
    && r in k.initial && RowOf(r, k.initial[r])
    && r in s.mem && r in s.hist && Replays(k, r, s.hist[r])
    && s.mem[r].head.payload == Last(s.hist[r]).version.payload
  }

  lemma AlwaysAccounted(k: Config, s: State, r: Rid)
    requires ValidConfig(k) && Reachable(k, s) && r in s.mem
    ensures Accounted(k, s, r)
  {
    AlwaysGood(k, s);
    assert RecordInv(k, s, r) && Replays(k, r, s.hist[r]);
  }

  // ---------------------------------------------------------------- stock and customers

  /**
   * Stock conservation. In every reachable state a stock row accounts for every order line ever committed on it:
   * S_YTD is their total quantity and S_ORDER_CNT their number, up to the column widths; S_REMOTE_CNT is that number
   * for a stock of warehouse 0 and zero for any other; the quantity lies in 10..100 and is the initial one less the
   * total, modulo 91.
   */
  lemma StockConserved(k: Config, s: State, r: Rid)
    requires ValidConfig(k) && Reachable(k, s) && r in s.mem && r.Stock?
    requires r in k.initial && FreshStock(k.initial[r])
    ensures Accounted(k, s, r) && StockLawful(r, k.initial[r], s.hist[r])
  {
    hide Reachable;
    AlwaysAccounted(k, s, r);
    StockLaw(k, r, s.hist[r]);
  }

  /**
   * Remote orders. In every reachable state S_REMOTE_CNT is the number of remote orders on the stock, up to its
   * width, if and only if the wrongly flagged ones are a multiple of 2^16; before it can wrap, if and only if none
   * was flagged wrongly.
   */
  lemma RemoteConserved(k: Config, s: State, r: Rid)
    requires ValidConfig(k) && Reachable(k, s) && r in s.mem && r.Stock?
    requires r in k.initial && FreshStock(k.initial[r])
    ensures Accounted(k, s, r) && s.mem[r].head.payload.StockRow?
    ensures s.mem[r].head.payload.remoteCnt == RemoteLines(r, s.hist[r]) % UINT16 <==>
      WrongLines(r, s.hist[r]) % UINT16 == 0
    ensures |s.hist[r]| <= UINT16 ==>
      (s.mem[r].head.payload.remoteCnt == RemoteLines(r, s.hist[r]) <==>
       forall i :: 0 < i < |s.hist[r]| ==> FlagRight(r, s.hist[r][i].op))
  {
    hide Reachable;
    AlwaysAccounted(k, s, r);
    RemoteCountExact(k, r, s.hist[r]);
  }

  /** A customer's balance, C_YTD_PAYMENT and C_PAYMENT_CNT account for every payment committed. */
  lemma CustomerConserved(k: Config, s: State, r: Rid)
    requires ValidConfig(k) && Reachable(k, s) && r in s.mem && r.Customer?
    requires r in k.initial && k.initial[r].CustomerRow? && k.initial[r].paymentCnt < UINT16
    ensures Accounted(k, s, r) && s.mem[r].head.payload.CustomerRow?
    ensures
      var p, p0 := s.mem[r].head.payload, k.initial[r];
      && p.balance + p.ytdPayment == p0.balance + p0.ytdPayment
      && p.ytdPayment == p0.ytdPayment + Paid(s.hist[r])
      && p.paymentCnt == (p0.paymentCnt + |s.hist[r]| - 1) % UINT16
  {
    hide Reachable;
    AlwaysAccounted(k, s, r);
    CustomerLaw(k, r, s.hist[r]);
  }

  // ---------------------------------------------------------------- money

  function Ytd(p: Payload): int { if p.WarehouseRow? || p.DistrictRow? then p.ytd else 0 }

  /** How much a year-to-date balance has grown since the database was populated. */
  function Growth(k: Config, s: State, r: Rid): int {
    if r in s.mem && r in k.initial then Ytd(s.mem[r].head.payload) - Ytd(k.initial[r]) else 0
  }

  /** Every balance, at any moment, is the sum of the payments installed on it. */
  lemma BalancesAreSums(k: Config, s: State, r: Rid)
    requires ValidConfig(k) && Reachable(k, s) && r in s.mem && (r.Warehouse? || r.District?)
    ensures r in s.hist && Growth(k, s, r) == Paid(s.hist[r])
  {
    hide Reachable;
    AlwaysAccounted(k, s, r);
    YtdLaw(k, r, s.hist[r]);
  }

  lemma SameRecords(k: Config, s: State)
    requires ValidConfig(k) && Reachable(k, s)
    ensures s.mem.Keys == s.hist.Keys == k.initial.Keys && Shape(k, s)
  {
    AlwaysGood(k, s);
  }
}
