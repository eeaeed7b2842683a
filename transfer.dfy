/**
 The address pattern a job descriptor implies. Each side of a job walks three
 nested loops: D0 innermost (d0_len trips of d0_stride bytes), D1 (d1_len trips
 of d1_stride bytes) and D2 outermost (d2_stride bytes, with as many trips as
 tot_len leaves once D0 and D1 are accounted for). Each trip moves one unit of
 DATA_WIDTH bits. Only the pattern is modelled here, not the copy itself.
 */
module Transfer {
  import opened Layout

  /** Bytes in one transfer unit. */
  const UNIT_BYTES: nat := DATA_WIDTH / 8

  /** The loop trip counts and byte strides of one side of a job. */
  datatype Side = Side(d0Len: nat, d0Stride: nat, d1Len: nat, d1Stride: nat, d2Stride: nat)

  function SrcSide(d: Descriptor): Side
  {
    Side(d.srcD0Len, d.srcD0Stride, d.srcD1Len, d.srcD1Stride, d.srcD2Stride)
  }

  function DstSide(d: Descriptor): Side
  {
    Side(d.dstD0Len, d.dstD0Stride, d.dstD1Len, d.dstD1Stride, d.dstD2Stride)
  }

  /** The D2 trip count tot_len implies. */
  function OuterTrips(totLen: nat, s: Side): nat
    requires s.d0Len > 0 && s.d1Len > 0
  {
    totLen / (s.d0Len * s.d1Len)
  }

  /** The three trip counts multiply to tot_len exactly. */
  predicate ShapeConsistent(totLen: nat, s: Side)
  {
    s.d0Len > 0 && s.d1Len > 0 && totLen == s.d0Len * s.d1Len * OuterTrips(totLen, s)
  }

  /** Loop indices within the trip counts. */
  predicate InBox(s: Side, outer: nat, i0: nat, i1: nat, i2: nat)
  {
    i0 < s.d0Len && i1 < s.d1Len && i2 < outer
  }

  /** Byte offset, from the buffer's base, of the unit the loops reach at (i0, i1, i2). */
  function UnitOffset(s: Side, i0: nat, i1: nat, i2: nat): nat
  {
    i0 * s.d0Stride + i1 * s.d1Stride + i2 * s.d2Stride
  }

  /** The shape the test program gives every job on both sides. */
  const TestSide: Side := Side(4, 32, 8, 256, 128)
  const TEST_TOT_LEN: nat := 64
  const TEST_BUFFER_BYTES: nat := 2048

  /** The test shape is consistent: 64 == 4 * 8 * 2, so the outer loop runs exactly twice. */
  lemma TestShapeConsistent()
    ensures ShapeConsistent(TEST_TOT_LEN, TestSide)
    ensures OuterTrips(TEST_TOT_LEN, TestSide) == 2
    ensures TEST_TOT_LEN * UNIT_BYTES == TEST_BUFFER_BYTES
  {
  }

  /** Every unit the test shape reaches is a whole aligned unit inside the 2048-byte buffer. */
  lemma TestUnitInBuffer(i0: nat, i1: nat, i2: nat)
    requires InBox(TestSide, 2, i0, i1, i2)
    ensures UnitOffset(TestSide, i0, i1, i2) % UNIT_BYTES == 0
    ensures UnitOffset(TestSide, i0, i1, i2) + UNIT_BYTES <= TEST_BUFFER_BYTES
  {
  }

  /** Loop indices of the unit at an aligned buffer offset, under the test shape. */
  function Locate(o: nat): (r: (nat, nat, nat))
    requires o % UNIT_BYTES == 0 && o < TEST_BUFFER_BYTES
    ensures InBox(TestSide, 2, r.0, r.1, r.2)
    ensures UnitOffset(TestSide, r.0, r.1, r.2) == o
  {
    var k := o / 32;
    (k % 4, k / 8, (k % 8) / 4)
  }

  /** Locate recovers the indices from the offset: no two index triples reach the same unit. */
  lemma LocateUnitOffset(i0: nat, i1: nat, i2: nat)
    requires InBox(TestSide, 2, i0, i1, i2)
    ensures UnitOffset(TestSide, i0, i1, i2) % UNIT_BYTES == 0
    ensures UnitOffset(TestSide, i0, i1, i2) < TEST_BUFFER_BYTES
    ensures Locate(UnitOffset(TestSide, i0, i1, i2)) == (i0, i1, i2)
  {
    var k := i0 + 4 * i2 + 8 * i1;
    assert UnitOffset(TestSide, i0, i1, i2) == 32 * k;
    assert k % 4 == i0 && k / 8 == i1 && (k % 8) / 4 == i2;
  }

  /**
   The test shape tiles the buffer exactly once: the 64 index triples reach
   64 distinct units and every aligned unit of the 2048 bytes is reached.
   */
  lemma TestShapeTiles(i0: nat, i1: nat, i2: nat, j0: nat, j1: nat, j2: nat, o: nat)
    requires InBox(TestSide, 2, i0, i1, i2) && InBox(TestSide, 2, j0, j1, j2)
    ensures UnitOffset(TestSide, i0, i1, i2) == UnitOffset(TestSide, j0, j1, j2) ==> (i0, i1, i2) == (j0, j1, j2)
    ensures o % UNIT_BYTES == 0 && o < TEST_BUFFER_BYTES ==>
      exists t0: nat, t1: nat, t2: nat :: InBox(TestSide, 2, t0, t1, t2) && UnitOffset(TestSide, t0, t1, t2) == o
  {
    LocateUnitOffset(i0, i1, i2);
    LocateUnitOffset(j0, j1, j2);
    if o % UNIT_BYTES == 0 && o < TEST_BUFFER_BYTES {
      var t := Locate(o);
      assert InBox(TestSide, 2, t.0, t.1, t.2) && UnitOffset(TestSide, t.0, t.1, t.2) == o;
    }
  }
}
