/** The 64-bit timestamp word that heads every record version and every timestamp-list entry. */
module Words {

  const TS_RANGE: nat := 0x1_0000_0000
  const CLIENT_RANGE: nat := 0x1_0000
  const OFFSET_RANGE: nat := 0x100

  /** A word by its fields: two flags, the ring slot of the version, the writer and its commit timestamp. */
  datatype Word = Word(deleted: bool, locked: bool, offset: nat, client: nat, ts: nat)

  /** Every field lies within the width the record layout gives it. */
  predicate Fits(w: Word) {
    w.offset < OFFSET_RANGE && w.client < CLIENT_RANGE && w.ts < TS_RANGE
  }

  /** The status byte that the constructor's masks produce (see Timestamps.StatusBits). */
  function Status(deleted: bool, locked: bool): nat {
    (if deleted then 0x10 else 0) + (if locked then 0x01 else 0)
  }

  /** The word as the little-endian host reads it: timestamp lowest, then client, status and offset. */
  function Encode(w: Word): nat {
    w.ts
    + TS_RANGE * w.client
    + TS_RANGE * CLIENT_RANGE * Status(w.deleted, w.locked)
    + TS_RANGE * CLIENT_RANGE * 0x100 * w.offset
  }

  /** What the compare half of compare-and-swap tests: the two raw 64-bit values. */
  predicate SameBits(a: Word, b: Word) {
    Encode(a) == Encode(b)
  }

  /** A list entry or old version that was never written: the default constructor marks it deleted. */
  const UNUSED: Word := Word(true, false, 0, 0, 0)

  /** The word every record carries after population. */
  const INITIAL: Word := Word(false, false, 0, 0, 0)

  /** The writer `w` names is inside the snapshot of client `me`; its own commits always are. */
  predicate InSnapshot(w: Word, me: nat, snap: seq<nat>) {
    w.client == me || (w.client < |snap| && w.ts <= snap[w.client])
  }

  /** The visibility test a client applies to every word it has read. */
  predicate Accessible(w: Word, me: nat, snap: seq<nat>) {
    !w.locked && !w.deleted && InSnapshot(w, me, snap)
  }

  /** Within the field widths, equal raw words are equal timestamps: a compare-and-swap decides equality. */
  lemma SameBitsMeansEqual(a: Word, b: Word)
    requires Fits(a) && Fits(b)
    ensures SameBits(a, b) <==> a == b
  {
    if SameBits(a, b) {
      var sa, sb := Status(a.deleted, a.locked), Status(b.deleted, b.locked);
      assert a.offset == b.offset;
      assert sa == sb;
      assert a.client == b.client;
    }
  }
}
