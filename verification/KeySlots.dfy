/** Where a record lies: which server, and which slot of the table there. Distinct records never share a slot. */
module KeySlots {
  import opened Arithmetic

  datatype Tables = Tables(warehousesPerServer: nat, districts: nat, customers: nat, items: nat)

  predicate TablesOk(z: Tables) { z.warehousesPerServer >= 1 && z.districts >= 1 && z.customers >= 1 && z.items >= 1 }

  function ServerOf(z: Tables, w: nat): nat
    requires TablesOk(z)
  {
    w / z.warehousesPerServer
  }

  function OffsetOnServer(z: Tables, w: nat): int
    requires TablesOk(z)
  {
    w - ServerOf(z, w) * z.warehousesPerServer
  }

  function CustomerSlot(z: Tables, offset: int, d: nat, c: nat): int {
    (offset * z.districts + d) * z.customers + c
  }

  function StockSlot(z: Tables, offset: int, item: nat): int { offset * z.items + item }

  /** A pair of digits lies below the product of the radices. */
  lemma TwoDigits(hi: int, lo: nat, highs: nat, lows: nat)
    requires 0 <= hi < highs && lo < lows
    ensures 0 <= hi * lows + lo < highs * lows
  {
    MultipleAtLeast(lows, highs, hi);
    if hi > 0 { MultipleAtLeast(lows, hi, 0); }
  }

  lemma OffsetInRange(z: Tables, w: nat)
    requires TablesOk(z)
    ensures 0 <= OffsetOnServer(z, w) < z.warehousesPerServer
    ensures w == ServerOf(z, w) * z.warehousesPerServer + OffsetOnServer(z, w)
  {
    assert w == w / z.warehousesPerServer * z.warehousesPerServer + w % z.warehousesPerServer;
  }

  /** Every slot lies inside the table the server allocates. */
  lemma SlotsInside(z: Tables, w: nat, d: nat, c: nat, item: nat)
    requires TablesOk(z) && d < z.districts && c < z.customers && item < z.items
    ensures 0 <= CustomerSlot(z, OffsetOnServer(z, w), d, c) < z.warehousesPerServer * z.districts * z.customers
    ensures 0 <= StockSlot(z, OffsetOnServer(z, w), item) < z.warehousesPerServer * z.items
  {
    OffsetInRange(z, w);
    var o := OffsetOnServer(z, w);
    TwoDigits(o, d, z.warehousesPerServer, z.districts);
    TwoDigits(o * z.districts + d, c, z.warehousesPerServer * z.districts, z.customers);
    TwoDigits(o, item, z.warehousesPerServer, z.items);
  }

  /** Two customers on the same server and in the same slot are the same customer. */
  lemma CustomersApart(z: Tables, w: nat, d: nat, c: nat, w': nat, d': nat, c': nat)
    requires TablesOk(z) && d < z.districts && c < z.customers && d' < z.districts && c' < z.customers
    requires ServerOf(z, w) == ServerOf(z, w')
    requires CustomerSlot(z, OffsetOnServer(z, w), d, c) == CustomerSlot(z, OffsetOnServer(z, w'), d', c')
    ensures w == w' && d == d' && c == c'
  {
    OffsetInRange(z, w);
    OffsetInRange(z, w');
    var o, o' := OffsetOnServer(z, w), OffsetOnServer(z, w');
    SameRemainder(z.customers, o * z.districts + d, c, o' * z.districts + d', c');
    SameRemainder(z.districts, o, d, o', d');
  }

  /** Two stocks on the same server and in the same slot are the same stock. */
  lemma StocksApart(z: Tables, w: nat, item: nat, w': nat, item': nat)
    requires TablesOk(z) && item < z.items && item' < z.items && ServerOf(z, w) == ServerOf(z, w')
    requires StockSlot(z, OffsetOnServer(z, w), item) == StockSlot(z, OffsetOnServer(z, w'), item')
    ensures w == w' && item == item'
  {
    OffsetInRange(z, w);
    OffsetInRange(z, w');
    SameRemainder(z.items, OffsetOnServer(z, w), item, OffsetOnServer(z, w'), item');
  }

  lemma SplitDigits(x: nat, highs: nat, lows: nat) returns (hi: nat, lo: nat)
    requires lows >= 1 && x < highs * lows
    ensures hi < highs && lo < lows && x == hi * lows + lo
  {
    hi, lo := x / lows, x % lows;
    assert x == hi * lows + lo;
    if hi > highs { MultipleAtLeast(lows, hi, highs); }
  }

  /** Every slot of the customer table is some customer's: the mapping is onto as well. */
  lemma CustomerAt(z: Tables, server: nat, slot: nat) returns (w: nat, d: nat, c: nat)
    requires TablesOk(z) && slot < z.warehousesPerServer * z.districts * z.customers
    ensures d < z.districts && c < z.customers && ServerOf(z, w) == server
    ensures CustomerSlot(z, OffsetOnServer(z, w), d, c) == slot
  {
    var high, o;
    high, c := SplitDigits(slot, z.warehousesPerServer * z.districts, z.customers);
    o, d := SplitDigits(high, z.warehousesPerServer, z.districts);
    w := server * z.warehousesPerServer + o;
    RemainderIs(w, z.warehousesPerServer, server, o);
  }

  /** So is every slot of the stock table. */
  lemma StockAt(z: Tables, server: nat, slot: nat) returns (w: nat, item: nat)
    requires TablesOk(z) && slot < z.warehousesPerServer * z.items
    ensures item < z.items && ServerOf(z, w) == server && StockSlot(z, OffsetOnServer(z, w), item) == slot
  {
    var o;
    o, item := SplitDigits(slot, z.warehousesPerServer, z.items);
    w := server * z.warehousesPerServer + o;
    RemainderIs(w, z.warehousesPerServer, server, o);
  }

  /**
   * The customers of a server lie in the order they are populated: from slot zero, customer by customer, then on to the
   * next district and the next warehouse.
   */
  lemma CustomersInOrder(z: Tables, offset: nat, d: nat, c: nat)
    requires TablesOk(z)
    ensures CustomerSlot(z, 0, 0, 0) == 0
    ensures CustomerSlot(z, offset, d, c + 1) == CustomerSlot(z, offset, d, c) + 1
    ensures CustomerSlot(z, offset, d + 1, 0) == CustomerSlot(z, offset, d, z.customers - 1) + 1
    ensures CustomerSlot(z, offset + 1, 0, 0) == CustomerSlot(z, offset, z.districts - 1, z.customers - 1) + 1
  {
    NextRow(offset * z.districts + d, z.customers);
    NextRow(offset * z.districts + z.districts - 1, z.customers);
    NextRow(offset, z.districts);
  }

  /** So do the stocks. */
  lemma StocksInOrder(z: Tables, offset: nat, item: nat)
    requires TablesOk(z)
    ensures StockSlot(z, 0, 0) == 0
    ensures StockSlot(z, offset, item + 1) == StockSlot(z, offset, item) + 1
    ensures StockSlot(z, offset + 1, 0) == StockSlot(z, offset, z.items - 1) + 1
  {
    NextRow(offset, z.items);
  }

  lemma NextRow(hi: int, lows: nat)
    ensures (hi + 1) * lows == hi * lows + lows
  {}
}
