/**
 * The timestamp object: its bit masks, its 64-bit word in both byte orders, and the flag tests.
 */
module Timestamps {
  import opened Words
  import opened Arithmetic

  type Byte = b: nat | b < 256

  // ---------------------------------------------------------------- flags

  const CHECK_ALIVE: bv8 := 0x0F
  const CHECK_DELETED: bv8 := 0x1F
  const DELETING: bv8 := 0x10
  const CHECK_LOCKED: bv8 := 0xF1
  const CHECK_UNLOCKED: bv8 := 0xF0
  const LOCKING: bv8 := 0x01
  const UNLOCKING: bv8 := 0xF0

  /** The status byte as the constructor composes it from its masks. */
  function StatusBits(deleted: bool, locked: bool): bv8 {
    if deleted && locked then CHECK_DELETED & CHECK_LOCKED
    else if deleted then CHECK_DELETED & CHECK_UNLOCKED
    else if locked then CHECK_ALIVE & CHECK_LOCKED
    else CHECK_ALIVE & CHECK_UNLOCKED
  }

  /** The shifts left and right by seven are done on a promoted integer and cancel out. */
  predicate IsLocked(status: Byte) { status as bv8 & CHECK_LOCKED == 1 }

  predicate IsDeleted(status: Byte) { (status as bv8 & CHECK_DELETED) >> 4 == 1 }

  /**
   * The flag tests on composed words: the deleted test is exact; the locked test is exact if and only if the word is
   * not both locked and deleted; either way a locked or deleted word is never taken for an accessible one.
   */
  lemma FlagTests(deleted: bool, locked: bool)
    ensures StatusBits(deleted, locked) as nat == Status(deleted, locked)
    ensures IsDeleted(Status(deleted, locked)) <==> deleted
    ensures (IsLocked(Status(deleted, locked)) <==> locked) <==> !(deleted && locked)
    ensures IsLocked(Status(deleted, locked)) || IsDeleted(Status(deleted, locked)) <==> deleted || locked
  {}

  function Locking(status: Byte): Byte { (status as bv8 | LOCKING) as nat }

  function Unlocking(status: Byte): Byte { (status as bv8 & UNLOCKING) as nat }

  function Deleting(status: Byte): Byte { (status as bv8 | DELETING) as nat }

  /** Marking a composed word sets just the flag meant, and unlocking takes just the lock mark off. */
  lemma Marks(deleted: bool, locked: bool)
    ensures Locking(Status(deleted, locked)) == Status(deleted, true)
    ensures Deleting(Status(deleted, locked)) == Status(true, locked)
    ensures Unlocking(Status(deleted, locked)) == Status(deleted, false)
  {}

  // ---------------------------------------------------------------- bytes

  /** The `n` low bytes of a number, lowest first. */
  function ToLittle(x: nat, n: nat): (bytes: seq<Byte>)
    ensures |bytes| == n
  {
    if n == 0 then [] else [x % 256] + ToLittle(x / 256, n - 1)
  }

  function FromLittle(bytes: seq<Byte>): nat {
    if bytes == [] then 0 else bytes[0] + 256 * FromLittle(bytes[1..])
  }

  function FromBig(bytes: seq<Byte>): nat {
    if bytes == [] then 0 else 256 * FromBig(bytes[..|bytes| - 1]) + bytes[|bytes| - 1]
  }

  function Reversed(bytes: seq<Byte>): (r: seq<Byte>)
    ensures |r| == |bytes|
  {
    if bytes == [] then [] else Reversed(bytes[1..]) + [bytes[0]]
  }

  lemma LowestByte(b: Byte, x: nat)
    ensures (b + 256 * x) % 256 == b && (b + 256 * x) / 256 == x
  {}

  lemma {:induction false} LittleRoundTrip(bytes: seq<Byte>)
    ensures ToLittle(FromLittle(bytes), |bytes|) == bytes
  {
    if bytes != [] {
      var rest := FromLittle(bytes[1..]);
      LittleRoundTrip(bytes[1..]);
      LowestByte(bytes[0], rest);
      assert ToLittle(FromLittle(bytes), |bytes|) == [bytes[0]] + ToLittle(rest, |bytes| - 1);
    }
  }

  lemma {:induction false} BigIsReversedLittle(bytes: seq<Byte>)
    ensures FromBig(Reversed(bytes)) == FromLittle(bytes)
  {
    if bytes != [] {
      BigIsReversedLittle(bytes[1..]);
      assert Reversed(bytes)[..|bytes| - 1] == Reversed(bytes[1..]);
    }
  }

  lemma {:induction false} ReversedLast(bytes: seq<Byte>, b: Byte)
    ensures Reversed(bytes + [b]) == [b] + Reversed(bytes)
  {
    if bytes == [] { assert bytes + [b] == [b]; }
    else {
      ReversedLast(bytes[1..], b);
      assert (bytes + [b])[1..] == bytes[1..] + [b];
    }
  }

  lemma {:induction false} ReversedTwice(bytes: seq<Byte>)
    ensures Reversed(Reversed(bytes)) == bytes
  {
    if bytes != [] {
      ReversedTwice(bytes[1..]);
      ReversedLast(Reversed(bytes[1..]), bytes[0]);
    }
  }

  /** The byte swap between network and host order. */
  function BigEndianToHost(x: nat): nat { FromBig(ToLittle(x, 8)) }

  /** Swapping the bytes of a big-endian reading gives the little-endian reading of the same memory. */
  lemma SwapIsLittle(bytes: seq<Byte>)
    requires |bytes| == 8
    ensures BigEndianToHost(FromBig(bytes)) == FromLittle(bytes)
  {
    ReversedTwice(bytes);
    BigIsReversedLittle(Reversed(bytes));
    LittleRoundTrip(Reversed(bytes));
    BigIsReversedLittle(bytes);
  }

  // ---------------------------------------------------------------- words

  /** The fields of a timestamp object, in memory order. */
  datatype Fields = Fields(ts: nat, client: nat, status: Byte, offset: Byte)

  predicate InRange(f: Fields) { f.ts < TS_RANGE && f.client < CLIENT_RANGE }

  /** The eight bytes the object occupies on a little-endian host. */
  function Memory(f: Fields): (bytes: seq<Byte>)
    ensures |bytes| == 8
  {
    ToLittle(f.ts, 4) + ToLittle(f.client, 2) + [f.status, f.offset]
  }

  const WORD_RANGE: nat := 0x1_0000_0000_0000_0000

  /** Decoding by shifting left, which drops the high bits, and back right. */
  function FromWord(x: nat): Fields
    requires x < WORD_RANGE
  {
    Fields(x * 0x1_0000_0000 % WORD_RANGE / 0x1_0000_0000,
           x * 0x1_0000 % WORD_RANGE / 0x1_0000_0000_0000,
           x * 0x100 % WORD_RANGE / 0x100_0000_0000_0000,
           x / 0x100_0000_0000_0000)
  }

  /** Shifting left in 64 bits keeps the low part of a word: `hi` is dropped, `lo` moves up. */
  lemma ShiftedLow(x: nat, factor: nat, cut: nat, hi: nat, lo: nat)
    requires factor * cut == WORD_RANGE && x == hi * cut + lo && lo < cut
    ensures x * factor % WORD_RANGE == lo * factor
  {
    assert x * factor == hi * WORD_RANGE + lo * factor by {
      assert x * factor == hi * cut * factor + lo * factor;
      assert hi * cut * factor == hi * (cut * factor);
    }
    assert lo * factor < WORD_RANGE by { assert lo * factor <= (cut - 1) * factor; }
    RemainderIs(x * factor, WORD_RANGE, hi, lo * factor);
  }

  /** The raw 64-bit value of the object's memory. */
  function Raw(f: Fields): nat { f.ts + TS_RANGE * (f.client + CLIENT_RANGE * (f.status + 256 * f.offset)) }

  function Pow256(n: nat): nat { if n == 0 then 1 else 256 * Pow256(n - 1) }

  lemma {:induction false} LittleAppend(x: nat, n: nat, tail: seq<Byte>)
    requires x < Pow256(n)
    ensures FromLittle(ToLittle(x, n) + tail) == x + Pow256(n) * FromLittle(tail)
  {
    var bytes := ToLittle(x, n) + tail;
    if n == 0 { assert bytes == tail; }
    else {
      AppendStep(x, Pow256(n - 1), FromLittle(tail));
      LittleAppend(x / 256, n - 1, tail);
      assert bytes[0] == x % 256 && bytes[1..] == ToLittle(x / 256, n - 1) + tail;
    }
  }

  lemma AppendStep(x: nat, p: nat, q: nat)
    ensures x % 256 + 256 * (x / 256 + p * q) == x + 256 * p * q
    ensures x < 256 * p ==> x / 256 < p
  {
    var y := p * q;
    assert 256 * p * q == 256 * y;
  }

  lemma MemoryIsRaw(f: Fields)
    requires InRange(f)
    ensures FromLittle(Memory(f)) == Raw(f) < WORD_RANGE
  {
    var flags: seq<Byte> := [f.status, f.offset];
    assert Memory(f) == ToLittle(f.ts, 4) + (ToLittle(f.client, 2) + flags);
    assert Pow256(2) == CLIENT_RANGE && Pow256(3) == 0x100_0000 && Pow256(4) == TS_RANGE;
    LittleAppend(f.ts, 4, ToLittle(f.client, 2) + flags);
    LittleAppend(f.client, 2, flags);
    assert flags[1..] == [f.offset];
    assert FromLittle([f.offset]) == f.offset;
    assert FromLittle(flags) == f.status + 256 * f.offset;
  }

  /** Decoding the raw little-endian word of an object gives its fields back. */
  lemma DecodesRaw(f: Fields)
    requires InRange(f)
    ensures Raw(f) < WORD_RANGE && FromWord(Raw(f)) == f
  {
    var top := f.status + 256 * f.offset;
    var mid := f.client + CLIENT_RANGE * top;
    ShiftedLow(Raw(f), 0x1_0000_0000, 0x1_0000_0000, mid, f.ts);
    ShiftedLow(Raw(f), 0x1_0000, 0x1_0000_0000_0000, top, f.ts + TS_RANGE * f.client);
    ShiftedLow(Raw(f), 0x100, 0x100_0000_0000_0000, f.offset, f.ts + TS_RANGE * (f.client + CLIENT_RANGE * f.status));
  }

  /** Decoding loses nothing: every 64-bit value is the raw word of the fields it decodes to. */
  lemma RawOfDecoded(x: nat)
    requires x < WORD_RANGE
    ensures InRange(FromWord(x)) && Raw(FromWord(x)) == x
  {
    var ts, mid := x % TS_RANGE, x / TS_RANGE;
    var client, top := mid % CLIENT_RANGE, mid / CLIENT_RANGE;
    var f := Fields(ts, client, top % 256, top / 256);
    assert Raw(f) == x;
    DecodesRaw(f);
  }

  // ---------------------------------------------------------------- the bit string

  function Bit(b: nat): char { if b % 2 == 1 then '1' else '0' }

  /** The `n` low bits of a number, highest first. */
  function LowBits(b: nat, n: nat): string {
    if n == 0 then "" else LowBits(b / 2, n - 1) + [Bit(b)]
  }

  function BitString(bytes: seq<Byte>): string {
    if bytes == [] then "" else BitString(bytes[..|bytes| - 1]) + LowBits(bytes[|bytes| - 1], 8)
  }

  /** The number a bit string denotes, highest bit first. */
  function FromBits(str: string): nat {
    if str == "" then 0 else 2 * FromBits(str[..|str| - 1]) + (if str[|str| - 1] == '1' then 1 else 0)
  }

  function Pow2(n: nat): nat { if n == 0 then 1 else 2 * Pow2(n - 1) }

  lemma {:induction false} BitsAppend(str: string, b: nat, n: nat)
    requires b < Pow2(n)
    ensures FromBits(str + LowBits(b, n)) == Pow2(n) * FromBits(str) + b
  {
    if n == 0 { assert str + LowBits(b, 0) == str; }
    else {
      var front := str + LowBits(b / 2, n - 1);
      BitsAppend(str, b / 2, n - 1);
      assert str + LowBits(b, n) == front + [Bit(b)];
      assert (front + [Bit(b)])[..|front|] == front;
      assert FromBits(front + [Bit(b)]) == 2 * FromBits(front) + b % 2;
      Double(Pow2(n - 1), FromBits(str), b / 2);
    }
  }

  lemma Double(p: nat, q: nat, x: nat)
    ensures 2 * (p * q + x) == 2 * p * q + 2 * x
  {}

  /** The bit string of some memory denotes its big-endian reading. */
  lemma {:induction false} BitStringIsBig(bytes: seq<Byte>)
    ensures FromBits(BitString(bytes)) == FromBig(bytes)
  {
    if bytes != [] {
      BitStringIsBig(bytes[..|bytes| - 1]);
      assert Pow2(2) == 4 && Pow2(4) == 16 && Pow2(6) == 64 && Pow2(8) == 256;
      BitsAppend(BitString(bytes[..|bytes| - 1]), bytes[|bytes| - 1], 8);
    }
  }

  // ---------------------------------------------------------------- the object

  class Timestamp {
    var timestamp: nat
    var clientId: nat
    var lockStatus: Byte
    var versionOffset: Byte

    ghost predicate Valid()
      reads this
    {
      timestamp < TS_RANGE && clientId < CLIENT_RANGE
    }

    function View(): Fields
      reads this
    {
      Fields(timestamp, clientId, lockStatus, versionOffset)
    }

    /** The flags the object's status byte was composed from. */
    ghost predicate Holds(w: Word)
      reads this
    {
      Fits(w) && View() == Fields(w.ts, w.client, Status(w.deleted, w.locked), w.offset)
    }

    constructor FromUnsigned(x: nat)
      requires x < WORD_RANGE
      ensures Valid() && Raw(View()) == x
    {
      var f := FromWord(x);
      RawOfDecoded(x);
      timestamp, clientId, lockStatus, versionOffset := f.ts, f.client, f.status, f.offset;
    }

    constructor (deleted: bool, locked: bool, offset: Byte, client: nat, ts: nat)
      requires client < CLIENT_RANGE && ts < TS_RANGE
      ensures Valid() && Holds(Word(deleted, locked, offset, client, ts))
    {
      lockStatus := StatusBits(deleted, locked) as nat;
      timestamp, clientId, versionOffset := ts, client, offset;
      new;
      FlagTests(deleted, locked);
    }

    method SetAll(deleted: bool, locked: bool, offset: Byte, client: nat, ts: nat)
      requires client < CLIENT_RANGE && ts < TS_RANGE
      modifies this
      ensures Valid() && Holds(Word(deleted, locked, offset, client, ts))
    {
      lockStatus := StatusBits(deleted, locked) as nat;
      versionOffset, clientId, timestamp := offset, client, ts;
      FlagTests(deleted, locked);
    }

    method MarkLocked()
      requires Valid()
      modifies this
      ensures Valid() && forall w: Word :: old(Holds(w)) ==> Holds(w.(locked := true))
    {
      forall w: Word | Holds(w) ensures Locking(lockStatus) == Status(w.deleted, true) { Marks(w.deleted, w.locked); }
      lockStatus := Locking(lockStatus);
    }

    method MarkUnlocked()
      requires Valid()
      modifies this
      ensures Valid() && forall w: Word :: old(Holds(w)) ==> Holds(w.(locked := false))
    {
      forall w: Word | Holds(w)
        ensures Unlocking(lockStatus) == Status(w.deleted, false)
      {
        Marks(w.deleted, w.locked);
      }
      lockStatus := Unlocking(lockStatus);
    }

    method MarkDeleted()
      requires Valid()
      modifies this
      ensures Valid() && forall w: Word :: old(Holds(w)) ==> Holds(w.(deleted := true))
    {
      forall w: Word | Holds(w) ensures Deleting(lockStatus) == Status(true, w.locked) { Marks(w.deleted, w.locked); }
      lockStatus := Deleting(lockStatus);
    }

    /** One byte after the other, in memory order. */
    method SerializeAsBinary() returns (str: string)
      ensures str == BitString(Memory(View()))
    {
      str := "";
      var bytes := Memory(View());
      for s := 0 to 8
        invariant str == BitString(bytes[..s])
      {
        str := str + LowBits(bytes[s], 8);
        assert bytes[..s + 1][..s] == bytes[..s];
      }
      assert bytes[..8] == bytes;
    }

    /** The value `toUUL` returns is the object's word in the other byte order: swapping and decoding gives it back. */
    method ToUul() returns (x: nat)
      requires Valid()
      ensures BigEndianToHost(x) == Raw(View()) < WORD_RANGE
      ensures FromWord(BigEndianToHost(x)) == View()
    {
      var str := SerializeAsBinary();
      x := FromBits(str);
      BitStringIsBig(Memory(View()));
      SwapIsLittle(Memory(View()));
      MemoryIsRaw(View());
      DecodesRaw(View());
    }

    /** Two timestamps are equal exactly when a compare-and-swap on their raw words would succeed. */
    method IsEqual(that: Timestamp) returns (eq: bool)
      requires Valid() && that.Valid()
      ensures eq <==> Raw(View()) == Raw(that.View())
    {
      eq := lockStatus == that.lockStatus && versionOffset == that.versionOffset
            && clientId == that.clientId && timestamp == that.timestamp;
      if Raw(View()) == Raw(that.View()) {
        DecodesRaw(View());
        DecodesRaw(that.View());
      }
    }

    /**
     * Adds one to the raw word; at the largest timestamp it falls back to zero instead of carrying into the client
     * id.
     */
    method Increment()
      requires Valid()
      modifies this
      ensures Valid()
      ensures Raw(View()) == old(Raw(View())) + if old(timestamp) == TS_RANGE - 1 then 1 - TS_RANGE else 1
      ensures View().client == old(View()).client && View().status == old(View()).status
      ensures View().offset == old(View()).offset
    {
      timestamp := (timestamp + 1) % TS_RANGE;
    }
  }

  /** The raw word is the one the protocol's compare-and-swap compares. */
  lemma RawIsEncode(w: Word)
    requires Fits(w)
    ensures Raw(Fields(w.ts, w.client, Status(w.deleted, w.locked), w.offset)) == Encode(w)
  {}
}
