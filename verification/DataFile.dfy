/** GenerateBinaryDataFile: the shuffled cycle serialised as 64-byte records, and the records in memory. */
module DataFile {
  import opened Words
  import opened Cycles
  import opened Shuffle
  import opened Patterns

  const RECORD := 64

  /** Memory at base holds one record per element of p: the first 8 bytes of record i are the byte offset
      of the record of i's successor. */
  ghost predicate Records(m: Memory, base: nat, p: seq<nat>) {
    && base + RECORD * |p| <= TWO64 && InRange(p)
    && forall i :: 0 <= i < |p| ==> Load64(m, base + RECORD * i) == RECORD * p[i]
  }

  /** Address x is in the index field (bytes 8 to 15) of one of the n records. */
  ghost predicate IndexByte(x: nat, base: nat, n: nat) {
    base <= x < base + RECORD * n && 8 <= (x - base) % RECORD < 16
  }

  /** The two memories differ at most in index fields. */
  ghost predicate SameOffIndex(m: Memory, m': Memory, base: nat, n: nat) {
    forall x: nat :: !IndexByte(x, base, n) ==> ByteAt(m, x) == ByteAt(m', x)
  }

  lemma SameOffTrans(m: Memory, m': Memory, m'': Memory, base: nat, n: nat)
    requires SameOffIndex(m, m', base, n) && SameOffIndex(m', m'', base, n)
    ensures SameOffIndex(m, m'', base, n)
  {
    hide IndexByte, ByteAt;
  }

  /** Overwriting index fields leaves every next-offset field as it was. */
  lemma RecordsKept(m: Memory, m': Memory, base: nat, p: seq<nat>)
    requires Records(m, base, p) && SameOffIndex(m, m', base, |p|)
    ensures Records(m', base, p)
  {
    hide Load64, ByteAt;
    forall i | 0 <= i < |p|
      ensures Load64(m', base + RECORD * i) == RECORD * p[i]
    {
      Load64Agree(m, m', base + RECORD * i);
    }
  }

  /** An 8-byte store at offset 8 of a record touches only its index field. */
  lemma IndexStore(m: Memory, base: nat, n: nat, i: nat, v: Word)
    requires i < n
    ensures SameOffIndex(m, Store64(m, base + RECORD * i + 8, v), base, n)
  {
    hide Store64, ByteAt;
    Store64Laws(m, base + RECORD * i + 8, v);
    forall x: nat | base + RECORD * i + 8 <= x < base + RECORD * i + 16
      ensures IndexByte(x, base, n)
    {
      WithinRecord(x - base, i);
    }
  }

  lemma WithinRecord(d: nat, i: nat)
    requires RECORD * i + 8 <= d < RECORD * i + 16
    ensures 8 <= d % RECORD < 16
  {
  }

  lemma RecordsFit(m: Memory, base: nat, p: seq<nat>)
    requires Records(m, base, p) && |p| >= 5
    ensures base + 0x100 < TWO64
  {
  }

  lemma RecordsApart(m: Memory, m': Memory, base: nat, p: seq<nat>, lo: nat, hi: nat)
    requires Records(m, base, p) && AgreeOutside(m, m', lo, hi) && (base + RECORD * |p| <= lo || hi <= base)
    ensures Records(m', base, p)
  {
    hide Load64, ByteAt;
    forall i | 0 <= i < |p|
      ensures Load64(m', base + RECORD * i) == RECORD * p[i]
    {
      Load64Agree(m, m', base + RECORD * i);
    }
  }

  /** The addresses neither in the frame nor in an index field. */
  ghost predicate Untouched(m: Memory, m': Memory, lo: nat, hi: nat, base: nat, n: nat) {
    forall x: nat :: !(lo <= x < hi) && !IndexByte(x, base, n) ==> ByteAt(m, x) == ByteAt(m', x)
  }

  lemma UntouchedBy(m: Memory, m': Memory, m'': Memory, lo: nat, hi: nat, base: nat, n: nat)
    requires AgreeOutside(m, m', lo, hi) && SameOffIndex(m', m'', base, n)
    ensures Untouched(m, m'', lo, hi, base, n)
  {
    hide ByteAt, IndexByte;
  }

  // ----- writing the file

  /** Byte k of record i: successor offset, index, the four bytes of a float, zero padding. */
  function RecordByte(i: nat, next: nat, float: seq<Byte>, k: nat): Byte
    requires |float| == 4
  {
    if k < 8 then ByteOf(RECORD * next, k)
    else if k < 16 then ByteOf(i, k - 8)
    else if k < 20 then float[k - 16]
    else 0
  }

  ghost predicate RecordAt(data: seq<Byte>, i: nat, next: nat, float: seq<Byte>)
    requires |float| == 4
  {
    && RECORD * i + RECORD <= |data|
    && forall k: nat {:trigger RecordByte(i, next, float, k)} :: k < RECORD ==>
         data[RECORD * i + k] == RecordByte(i, next, float, k)
  }

  /** The bytes of v copied into data at the offset. */
  method CopyTo(v: seq<Byte>, data: array<Byte>, offset: nat)
    requires offset + |v| <= data.Length
    modifies data
    ensures forall x :: 0 <= x < data.Length ==>
      data[x] == if offset <= x < offset + |v| then v[x - offset] else old(data[x])
  {
    for k := 0 to |v|
      invariant forall x :: 0 <= x < data.Length ==>
        data[x] == if offset <= x < offset + k then v[x - offset] else old(data[x])
    {
      data[offset + k] := v[k];
    }
  }

  /** The three stores that fill a record of a zeroed file. */
  method WriteRecord(data: array<Byte>, i: nat, nextElementOffset: nat, float: seq<Byte>, ghost next: nat)
    requires RECORD * i + RECORD <= data.Length && |float| == 4 && nextElementOffset == RECORD * next
    requires forall x :: RECORD * i <= x < data.Length ==> data[x] == 0
    modifies data
    ensures RecordAt(data[..], i, next, float)
    ensures forall x :: 0 <= x < data.Length && !(RECORD * i <= x < RECORD * i + RECORD) ==> data[x] == old(data[x])
  {
    hide ByteOf;
    var baseOffset := i * RECORD;
    CopyTo(LittleEndian(nextElementOffset, 8), data, baseOffset);
    CopyTo(LittleEndian(i, 8), data, baseOffset + 8);
    CopyTo(float, data, baseOffset + 16);
  }

  lemma RecordStays(data: seq<Byte>, data': seq<Byte>, i: nat, next: nat, float: seq<Byte>, lo: nat)
    requires |float| == 4 && RecordAt(data, i, next, float) && |data'| == |data| && RECORD * i + RECORD <= lo
    requires forall x :: 0 <= x < lo && x < |data| ==> data'[x] == data[x]
    ensures RecordAt(data', i, next, float)
  {
    hide RecordByte;
  }

  lemma UnitSlots(i: nat)
    ensures Slot(i, 1) == i
  {
  }

  /** What the file holds for a cycle p. */
  ghost predicate FileOf(data: seq<Byte>, p: seq<nat>, floats: seq<seq<Byte>>) {
    && |floats| == |p| && |data| == RECORD * |p|
    && forall i {:trigger floats[i]} :: 0 <= i < |p| ==> |floats[i]| == 4 && RecordAt(data, i, p[i], floats[i])
  }

  /** rs holds the random numbers, floats the bytes of the float fields. */
  method GenerateBinaryDataFile(latencyListSize: nat, rs: seq<nat>, floats: seq<seq<Byte>>) returns (data: array<Byte>)
    requires |rs| == latencyListSize == |floats| && forall i :: 0 <= i < |floats| ==> |floats[i]| == 4
    ensures fresh(data) && FileOf(data[..], Shuffled(Drawn(rs)), floats) && LowestFirst(data[..], Shuffled(Drawn(rs)))
  {
    hide LowestFirst, RecordAt, Shuffled, SameOffSlots, Slot;
    data := new Byte[RECORD * latencyListSize](_ => 0);
    var indices := new nat[latencyListSize];
    UnitSlots(latencyListSize);
    PointToSelf(indices, latencyListSize, 1);
    ShuffleSlots(indices, latencyListSize, 1, rs);
    ghost var p := Shuffled(Drawn(rs));
    for i := 0 to latencyListSize
      invariant Strided(indices[..], 1, p)
      invariant forall k {:trigger floats[k]} :: 0 <= k < i ==> RecordAt(data[..], k, p[k], floats[k])
      invariant forall x :: RECORD * i <= x < data.Length ==> data[x] == 0
    {
      UnitSlots(i);
      UnitSlots(p[i]);
      ghost var was := data[..];
      WriteRecord(data, i, indices[i] * RECORD, floats[i], p[i]);
      forall k {:trigger floats[k]} | 0 <= k < i
        ensures RecordAt(data[..], k, p[k], floats[k])
      {
        RecordStays(was, data[..], k, p[k], floats[k], RECORD * i);
      }
    }
    FileLowestFirst(data[..], p, floats);
  }

  /** In plain numbers: the numbers of a record stand with their least significant byte first. */
  ghost predicate LowestAt(data: seq<Byte>, i: nat, next: nat) {
    && 64 * i + 64 <= |data|
    && data[64 * i] == 64 * next % 256 && data[64 * i + 1] == 64 * next / 256 % 256 && data[64 * i + 2] == 64 * next / 65536 % 256
    && data[64 * i + 8] == i % 256 && data[64 * i + 9] == i / 256 % 256 && data[64 * i + 10] == i / 65536 % 256
  }

  ghost predicate LowestFirst(data: seq<Byte>, p: seq<nat>) {
    forall i {:trigger p[i]} :: 0 <= i < |p| ==> LowestAt(data, i, p[i])
  }

  lemma FileLowestFirst(data: seq<Byte>, p: seq<nat>, floats: seq<seq<Byte>>)
    requires FileOf(data, p, floats)
    ensures LowestFirst(data, p)
  {
    hide RecordAt;
    forall i {:trigger p[i]} | 0 <= i < |p|
      ensures LowestAt(data, i, p[i])
    {
      assert |floats[i]| == 4 && RecordAt(data, i, p[i], floats[i]);
      RecordLowest(data, i, p[i], floats[i]);
    }
  }

  lemma RecordLowest(data: seq<Byte>, i: nat, next: nat, float: seq<Byte>)
    requires |float| == 4 && RecordAt(data, i, next, float)
    ensures LowestAt(data, i, next)
  {
    hide RecordByte;
    LowRecordBytes(i, next, float);
    assert data[RECORD * i + 0] == RecordByte(i, next, float, 0);
    assert data[RECORD * i + 1] == RecordByte(i, next, float, 1);
    assert data[RECORD * i + 8] == RecordByte(i, next, float, 8);
  }

  lemma LowRecordBytes(i: nat, next: nat, float: seq<Byte>)
    requires |float| == 4
    ensures RecordByte(i, next, float, 0) == 64 * next % 256 && RecordByte(i, next, float, 1) == 64 * next / 256 % 256
    ensures RecordByte(i, next, float, 2) == 64 * next / 65536 % 256 && RecordByte(i, next, float, 8) == i % 256
    ensures RecordByte(i, next, float, 9) == i / 256 % 256 && RecordByte(i, next, float, 10) == i / 65536 % 256
  {
    hide ByteOf;
    LowBytes(64 * next);
    LowBytes(i);
  }

  lemma LowBytes(v: nat)
    ensures ByteOf(v, 0) == v % 256 && ByteOf(v, 1) == v / 256 % 256 && ByteOf(v, 2) == v / 65536 % 256
  {
    assert ByteOf(v, 1) == ByteOf(v / 256, 0);
    assert ByteOf(v, 2) == ByteOf(v / 256, 1) == ByteOf(v / 256 / 256, 0);
    Twice256(v);
  }

  lemma Twice256(v: nat)
    ensures v / 256 / 256 == v / 65536
  {
  }

  /** Behind the successor's offset record i holds i itself, the four bytes of its float, and zeros. */
  ghost predicate Fields(m: Memory, base: nat, i: nat, float: seq<Byte>)
    requires |float| == 4
  {
    && Load64(m, base + 64 * i + 8) == i
    && (forall k {:trigger float[k]} :: 0 <= k < 4 ==> ByteAt(m, base + 64 * i + 16 + k) == float[k])
    && forall x: nat {:trigger ByteAt(m, x)} :: base + 64 * i + 20 <= x < base + 64 * i + 64 ==> ByteAt(m, x) == 0
  }

  /** A file read into memory at base gives the records of its cycle, each with its index, its float and its padding. */
  lemma FileHasRecords(m: Memory, base: nat, data: seq<Byte>, p: seq<nat>, floats: seq<seq<Byte>>)
    requires FileOf(data, p, floats) && InRange(p) && base + |data| <= TWO64
    requires forall x :: 0 <= x < |data| ==> ByteAt(m, base + x) == data[x]
    ensures Records(m, base, p)
    ensures forall i {:trigger floats[i]} :: 0 <= i < |p| ==> |floats[i]| == 4 && Fields(m, base, i, floats[i])
  {
    hide Load64, RecordAt, Fields;
    forall i | 0 <= i < |p|
      ensures Load64(m, base + RECORD * i) == RECORD * p[i] && |floats[i]| == 4 && Fields(m, base, i, floats[i])
    {
      assert |floats[i]| == 4;
      RecordRead(m, base, data, i, p[i], floats[i]);
      FieldsRead(m, base, data, i, p[i], floats[i]);
    }
  }

  lemma RecordRead(m: Memory, base: nat, data: seq<Byte>, i: nat, next: nat, float: seq<Byte>)
    requires |float| == 4 && RecordAt(data, i, next, float) && RECORD * next < TWO64
    requires forall x :: 0 <= x < |data| ==> ByteAt(m, base + x) == data[x]
    ensures Load64(m, base + RECORD * i) == RECORD * next
  {
    hide ByteAt, ByteOf, Value;
    forall k: nat | k < 8
      ensures data[RECORD * i + k] == ByteOf(RECORD * next, k)
    {
      assert RecordByte(i, next, float, k) == ByteOf(RECORD * next, k);
    }
    WordRead(m, base, data, RECORD * i, RECORD * next);
  }

  /** Eight bytes of the file that are a number's low bytes load as the number. */
  lemma WordRead(m: Memory, base: nat, data: seq<Byte>, at: nat, v: nat)
    requires at + 8 <= |data| && v < TWO64 && forall k: nat {:trigger ByteOf(v, k)} :: k < 8 ==> data[at + k] == ByteOf(v, k)
    requires forall x :: 0 <= x < |data| ==> ByteAt(m, base + x) == data[x]
    ensures Load64(m, base + at) == v
  {
    hide ByteAt, ByteOf, Value;
    forall k | 0 <= k < 8
      ensures Bytes(m, base + at, 8)[k] == LittleEndian(v, 8)[k]
    {
      assert data[at + k] == ByteOf(v, k);
      assert ByteAt(m, base + (at + k)) == data[at + k];
    }
    assert Bytes(m, base + at, 8) == LittleEndian(v, 8);
    assert Pow256(8) == TWO64;
    ValueLittleEndian(v, 8);
  }

  lemma FieldsRead(m: Memory, base: nat, data: seq<Byte>, i: nat, next: nat, float: seq<Byte>)
    requires |float| == 4 && RecordAt(data, i, next, float) && i < TWO64
    requires forall x :: 0 <= x < |data| ==> ByteAt(m, base + x) == data[x]
    ensures Fields(m, base, i, float)
  {
    hide ByteAt, ByteOf, Value, Load64;
    forall k: nat | k < 8
      ensures data[64 * i + 8 + k] == ByteOf(i, k)
    {
      assert RecordByte(i, next, float, k + 8) == ByteOf(i, k);
    }
    WordRead(m, base, data, 64 * i + 8, i);
    forall k {:trigger float[k]} | 0 <= k < 4
      ensures ByteAt(m, base + 64 * i + 16 + k) == float[k]
    {
      assert RecordByte(i, next, float, k + 16) == float[k];
      assert ByteAt(m, base + (64 * i + 16 + k)) == data[64 * i + 16 + k];
    }
    forall x: nat {:trigger ByteAt(m, x)} | base + 64 * i + 20 <= x < base + 64 * i + 64
      ensures ByteAt(m, x) == 0
    {
      assert RecordByte(i, next, float, x - base - 64 * i) == 0;
      assert ByteAt(m, base + (x - base)) == data[x - base];
    }
  }
}
