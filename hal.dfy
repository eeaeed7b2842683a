/**
 The low-level HAL of the datamover: a register window written and read one
 32-bit word at a time. The window is modelled as plain memory, a map from
 byte offset to word; the device's own updates of its read-only registers are
 not part of this model. A ghost log records every bus write in program order.
 */
module Hal {
  import opened Layout

  const TWO_31: int := 0x8000_0000
  const TWO_32: int := 0x1_0000_0000

  /** One store issued on the register bus. */
  datatype BusWrite = BusWrite(offset: nat, value: Word)

  /** The word offsets of the window. */
  function WindowOffsets(): (s: set<nat>)
    ensures forall o :: o in s <==> IsWordOffset(o)
  {
    set o: nat | o < ADDR_SPACE && IsWordOffset(o)
  }

  /** A 32-bit pattern read through a C `int` lvalue: two's complement. */
  function ToSigned(w: Word): (i: int)
    ensures -TWO_31 <= i < TWO_31
    ensures i == w || i == w - TWO_32
  {
    if w < TWO_31 then w else w - TWO_32
  }

  /** A C `int` converted to `unsigned int`: reduction modulo 2^32. */
  function FromSigned(i: int): (w: Word)
    requires -TWO_31 <= i < TWO_31
    ensures w == i || w == i + TWO_32
  {
    if i < 0 then i + TWO_32 else i
  }

  /** Storing a word through `int` and reading it back as `unsigned int` keeps the pattern. */
  lemma SignedRoundTrip(w: Word)
    ensures FromSigned(ToSigned(w)) == w
  {
  }

  /** Every int fits a word and comes back unchanged. */
  lemma UnsignedRoundTrip(i: int)
    requires -TWO_31 <= i < TWO_31
    ensures ToSigned(FromSigned(i)) == i
  {
  }

  /**
   The register contents after a sequence of writes, in order: the last write
   of the sequence is what its register holds afterwards.
   */
  function Apply(regs: map<nat, Word>, ws: seq<BusWrite>): (r: map<nat, Word>)
    ensures ws != [] ==> ws[|ws| - 1].offset in r && r[ws[|ws| - 1].offset] == ws[|ws| - 1].value
    decreases |ws|
  {
    if ws == [] then regs else Apply(regs[ws[0].offset := ws[0].value], ws[1..])
  }

  /** Applying two write sequences one after the other is applying their concatenation. */
  lemma {:induction false} ApplyConcat(regs: map<nat, Word>, ws: seq<BusWrite>, more: seq<BusWrite>)
    ensures Apply(regs, ws + more) == Apply(Apply(regs, ws), more)
    decreases |ws|
  {
    if ws == [] {
      assert ws + more == more;
    } else {
      assert (ws + more)[1..] == ws[1..] + more;
      ApplyConcat(regs[ws[0].offset := ws[0].value], ws[1..], more);
    }
  }

  /** One more write after a sequence is one more store into its result. */
  lemma ApplyThenStore(regs: map<nat, Word>, ws: seq<BusWrite>, w: BusWrite)
    ensures Apply(regs, ws + [w]) == Apply(regs, ws)[w.offset := w.value]
  {
    ApplyConcat(regs, ws, [w]);
  }

  /** The offsets a sequence of writes touches. */
  function Touched(ws: seq<BusWrite>): set<nat>
  {
    set k | 0 <= k < |ws| :: ws[k].offset
  }

  /** No two writes of the sequence go to the same offset. */
  predicate DistinctOffsets(ws: seq<BusWrite>)
  {
    forall i, j :: 0 <= i < j < |ws| ==> ws[i].offset != ws[j].offset
  }

  /** A non-empty sequence touches its first offset and whatever the rest touches. */
  lemma TouchedFirst(ws: seq<BusWrite>)
    requires ws != []
    ensures Touched(ws) == {ws[0].offset} + Touched(ws[1..])
  {
    forall x | x in Touched(ws) ensures x in {ws[0].offset} + Touched(ws[1..]) {
      var k :| 0 <= k < |ws| && ws[k].offset == x;
      if k > 0 { assert ws[1..][k - 1].offset == x; }
    }
    forall x | x in Touched(ws[1..]) ensures x in Touched(ws) {
      var k :| 0 <= k < |ws[1..]| && ws[1..][k].offset == x;
      assert ws[k + 1].offset == x;
    }
  }

  /** Writes that all go to words of the window keep the window's shape. */
  lemma ApplyKeepsWindow(regs: map<nat, Word>, ws: seq<BusWrite>)
    requires regs.Keys == WindowOffsets()
    requires forall k :: 0 <= k < |ws| ==> ws[k].offset in WindowOffsets()
    ensures Apply(regs, ws).Keys == WindowOffsets()
  {
    forall o | o in Touched(ws) ensures o in WindowOffsets() {
      var k :| 0 <= k < |ws| && ws[k].offset == o;
    }
    ApplyFrame(regs, ws, 0);
  }

  /** Applying writes leaves every word they do not touch as it was. */
  lemma {:induction false} ApplyFrame(regs: map<nat, Word>, ws: seq<BusWrite>, o: nat)
    ensures Apply(regs, ws).Keys == regs.Keys + Touched(ws)
    ensures o in regs && o !in Touched(ws) ==> Apply(regs, ws)[o] == regs[o]
    decreases |ws|
  {
    if ws != [] {
      ApplyFrame(regs[ws[0].offset := ws[0].value], ws[1..], o);
      TouchedFirst(ws);
    }
  }

  /** When the offsets are distinct, each write's value is what the register holds afterwards. */
  lemma {:induction false} ApplyDistinct(regs: map<nat, Word>, ws: seq<BusWrite>, k: nat)
    requires DistinctOffsets(ws)
    requires k < |ws|
    ensures ws[k].offset in Apply(regs, ws)
    ensures Apply(regs, ws)[ws[k].offset] == ws[k].value
    decreases |ws|
  {
    var rest := ws[1..];
    var regs' := regs[ws[0].offset := ws[0].value];
    if k == 0 {
      assert ws[0].offset !in Touched(rest);
      ApplyFrame(regs', rest, ws[0].offset);
    } else {
      assert rest[k - 1] == ws[k];
      ApplyDistinct(regs', rest, k - 1);
    }
  }

  /** The stores that load descriptor d into a bank, one per field in declaration order. */
  function BankWrites(bank: Bank, d: Descriptor): (ws: seq<BusWrite>)
    ensures |ws| == FIELD_COUNT
    ensures forall i :: 0 <= i < FIELD_COUNT ==> ws[i] == BusWrite(HeaderOffset(bank, FieldAt(i)), FieldValue(d, FieldAt(i)))
  {
    seq(FIELD_COUNT, i requires 0 <= i < FIELD_COUNT => BusWrite(HeaderOffset(bank, FieldAt(i)), FieldValue(d, FieldAt(i))))
  }

  /** The descriptor a bank of the window currently holds. */
  function ReadBank(regs: map<nat, Word>, bank: Bank): Descriptor
    requires regs.Keys == WindowOffsets()
  {
    Descriptor(
      regs[HeaderOffset(bank, SrcAddr)], regs[HeaderOffset(bank, DstAddr)], regs[HeaderOffset(bank, TotLen)],
      regs[HeaderOffset(bank, SrcD0Len)], regs[HeaderOffset(bank, SrcD0Stride)],
      regs[HeaderOffset(bank, SrcD1Len)], regs[HeaderOffset(bank, SrcD1Stride)], regs[HeaderOffset(bank, SrcD2Stride)],
      regs[HeaderOffset(bank, DstD0Len)], regs[HeaderOffset(bank, DstD0Stride)],
      regs[HeaderOffset(bank, DstD1Len)], regs[HeaderOffset(bank, DstD1Stride)], regs[HeaderOffset(bank, DstD2Stride)])
  }

  /** A bank's stores go to thirteen different words of that bank. */
  lemma BankWritesDistinct(bank: Bank, d: Descriptor)
    ensures DistinctOffsets(BankWrites(bank, d))
    ensures forall k :: 0 <= k < FIELD_COUNT ==> InBank(BankWrites(bank, d)[k].offset, bank)
  {
    forall k | 0 <= k < FIELD_COUNT
      ensures BankWrites(bank, d)[k].offset == BankStart(bank) + 4 * k
    {
    }
  }

  /** The stores of banks 0, 1 and 2, one bank after the other, go to 39 consecutive words from BANK_BASE up. */
  lemma BanksConsecutive(d0: Descriptor, d1: Descriptor, d2: Descriptor)
    ensures |BankWrites(0, d0) + BankWrites(1, d1) + BankWrites(2, d2)| == 3 * FIELD_COUNT
    ensures forall k :: 0 <= k < 3 * FIELD_COUNT ==>
      (BankWrites(0, d0) + BankWrites(1, d1) + BankWrites(2, d2))[k].offset == BANK_BASE + 4 * k
  {
    var w0, w1, w2 := BankWrites(0, d0), BankWrites(1, d1), BankWrites(2, d2);
    var ws := w0 + w1 + w2;
    forall k | 0 <= k < 3 * FIELD_COUNT
      ensures ws[k].offset == BANK_BASE + 4 * k
    {
      if k < FIELD_COUNT {
        assert ws[k].offset == w0[k].offset;
      } else if k < 2 * FIELD_COUNT {
        assert ws[k].offset == w1[k - FIELD_COUNT].offset;
      } else {
        assert ws[k].offset == w2[k - 2 * FIELD_COUNT].offset;
      }
    }
  }

  /** A bank whose every field word holds d's value reads back as d. */
  lemma ReadBankOfFields(regs: map<nat, Word>, bank: Bank, d: Descriptor)
    requires regs.Keys == WindowOffsets()
    requires forall k :: 0 <= k < FIELD_COUNT ==> regs[HeaderOffset(bank, FieldAt(k))] == FieldValue(d, FieldAt(k))
    ensures ReadBank(regs, bank) == d
  {
    assert regs[HeaderOffset(bank, FieldAt(0))] == d.srcAddr;
    assert regs[HeaderOffset(bank, FieldAt(1))] == d.dstAddr;
    assert regs[HeaderOffset(bank, FieldAt(2))] == d.totLen;
    assert regs[HeaderOffset(bank, FieldAt(3))] == d.srcD0Len;
    assert regs[HeaderOffset(bank, FieldAt(4))] == d.srcD0Stride;
    assert regs[HeaderOffset(bank, FieldAt(5))] == d.srcD1Len;
    assert regs[HeaderOffset(bank, FieldAt(6))] == d.srcD1Stride;
    assert regs[HeaderOffset(bank, FieldAt(7))] == d.srcD2Stride;
    assert regs[HeaderOffset(bank, FieldAt(8))] == d.dstD0Len;
    assert regs[HeaderOffset(bank, FieldAt(9))] == d.dstD0Stride;
    assert regs[HeaderOffset(bank, FieldAt(10))] == d.dstD1Len;
    assert regs[HeaderOffset(bank, FieldAt(11))] == d.dstD1Stride;
    assert regs[HeaderOffset(bank, FieldAt(12))] == d.dstD2Stride;
  }

  /**
   Writing a descriptor into a bank and reading the bank back gives the
   descriptor; every word outside the bank keeps its value.
   */
  lemma BankRoundTrip(regs: map<nat, Word>, bank: Bank, d: Descriptor, o: nat)
    requires regs.Keys == WindowOffsets()
    ensures Apply(regs, BankWrites(bank, d)).Keys == WindowOffsets()
    ensures ReadBank(Apply(regs, BankWrites(bank, d)), bank) == d
    ensures o in regs && !InBank(o, bank) ==> Apply(regs, BankWrites(bank, d))[o] == regs[o]
  {
    var ws := BankWrites(bank, d);
    BankWritesDistinct(bank, d);
    ApplyFrame(regs, ws, o);
    forall k | 0 <= k < |ws| ensures ws[k].offset in WindowOffsets() {
      RegisterInWindow(Desc(bank, FieldAt(k)));
    }
    ApplyKeepsWindow(regs, ws);
    forall k | 0 <= k < FIELD_COUNT
      ensures Apply(regs, ws)[HeaderOffset(bank, FieldAt(k))] == FieldValue(d, FieldAt(k))
    {
      ApplyDistinct(regs, ws, k);
    }
    ReadBankOfFields(Apply(regs, ws), bank, d);
  }

  /** Two windows that agree on a bank's thirteen words read the same descriptor there. */
  lemma ReadBankAgrees(r0: map<nat, Word>, r: map<nat, Word>, bank: Bank)
    requires r0.Keys == WindowOffsets() && r.Keys == WindowOffsets()
    requires forall f: Field :: r[HeaderOffset(bank, f)] == r0[HeaderOffset(bank, f)]
    ensures ReadBank(r, bank) == ReadBank(r0, bank)
  {
  }

  /** A store to a control register leaves one bank's descriptor as it was. */
  lemma ControlStoreKeepsBank(r0: map<nat, Word>, offset: nat, value: Word, bank: Bank)
    requires r0.Keys == WindowOffsets()
    requires IsWordOffset(offset) && offset < BANK_BASE
    ensures r0[offset := value].Keys == WindowOffsets()
    ensures ReadBank(r0[offset := value], bank) == ReadBank(r0, bank)
  {
    forall f: Field
      ensures r0[offset := value][HeaderOffset(bank, f)] == r0[HeaderOffset(bank, f)]
    {
    }
    ReadBankAgrees(r0, r0[offset := value], bank);
  }

  /** A store to a control register leaves all three descriptors as they were. */
  lemma ControlStoreKeepsBanks(r0: map<nat, Word>, offset: nat, value: Word)
    requires r0.Keys == WindowOffsets()
    requires IsWordOffset(offset) && offset < BANK_BASE
    ensures r0[offset := value].Keys == WindowOffsets()
    ensures ReadBank(r0[offset := value], 0) == ReadBank(r0, 0)
    ensures ReadBank(r0[offset := value], 1) == ReadBank(r0, 1)
    ensures ReadBank(r0[offset := value], 2) == ReadBank(r0, 2)
  {
    ControlStoreKeepsBank(r0, offset, value, 0);
    ControlStoreKeepsBank(r0, offset, value, 1);
    ControlStoreKeepsBank(r0, offset, value, 2);
  }

  /** A bank reads the same after any change confined to another bank. */
  lemma ReadBankFrame(r0: map<nat, Word>, r: map<nat, Word>, bank: Bank, other: Bank)
    requires r0.Keys == WindowOffsets() && r.Keys == WindowOffsets()
    requires forall o :: o in r0 && !InBank(o, bank) ==> r[o] == r0[o]
    requires other != bank
    ensures ReadBank(r, other) == ReadBank(r0, other)
  {
    forall f: Field
      ensures r[HeaderOffset(other, f)] == r0[HeaderOffset(other, f)]
    {
      HeaderOffsetInBank(other, f, bank);
      RegisterInWindow(Desc(other, f));
    }
    ReadBankAgrees(r0, r, other);
  }

  /** The window after the thirteen field stores of one bank, issued one after the other in header order. */
  function FieldStores(r0: map<nat, Word>, bank: Bank, d: Descriptor): map<nat, Word>
  {
    r0[HeaderOffset(bank, SrcAddr) := d.srcAddr][HeaderOffset(bank, DstAddr) := d.dstAddr]
      [HeaderOffset(bank, TotLen) := d.totLen][HeaderOffset(bank, SrcD0Len) := d.srcD0Len]
      [HeaderOffset(bank, SrcD0Stride) := d.srcD0Stride][HeaderOffset(bank, SrcD1Len) := d.srcD1Len]
      [HeaderOffset(bank, SrcD1Stride) := d.srcD1Stride][HeaderOffset(bank, SrcD2Stride) := d.srcD2Stride]
      [HeaderOffset(bank, DstD0Len) := d.dstD0Len][HeaderOffset(bank, DstD0Stride) := d.dstD0Stride]
      [HeaderOffset(bank, DstD1Len) := d.dstD1Len][HeaderOffset(bank, DstD1Stride) := d.dstD1Stride]
      [HeaderOffset(bank, DstD2Stride) := d.dstD2Stride]
  }

  /** The field stores of a bank write only words of the window. */
  lemma FieldStoresKeepWindow(r0: map<nat, Word>, bank: Bank, d: Descriptor)
    requires r0.Keys == WindowOffsets()
    ensures FieldStores(r0, bank, d).Keys == WindowOffsets()
  {
    forall f: Field ensures HeaderOffset(bank, f) in WindowOffsets() {
      RegisterInWindow(Desc(bank, f));
    }
  }

  /** The field stores of a bank load the descriptor into it. */
  lemma FieldStoresLoadBank(r0: map<nat, Word>, bank: Bank, d: Descriptor)
    requires r0.Keys == WindowOffsets()
    ensures FieldStores(r0, bank, d).Keys == WindowOffsets()
    ensures ReadBank(FieldStores(r0, bank, d), bank) == d
  {
    FieldStoresKeepWindow(r0, bank, d);
  }

  /** The field stores of a bank leave every word outside it alone. */
  lemma FieldStoresFrame(r0: map<nat, Word>, bank: Bank, d: Descriptor)
    ensures forall o :: o in r0 && !InBank(o, bank) ==> FieldStores(r0, bank, d)[o] == r0[o]
  {
  }

  /** Each field word of a bank holds that field of the descriptor the bank reads as. */
  lemma ReadBankField(regs: map<nat, Word>, bank: Bank, f: Field)
    requires regs.Keys == WindowOffsets()
    ensures regs[HeaderOffset(bank, f)] == FieldValue(ReadBank(regs, bank), f)
  {
  }

  /** Two windows that read the same descriptor in a bank and agree everywhere outside it are equal. */
  lemma WindowsAgree(r0: map<nat, Word>, r1: map<nat, Word>, r2: map<nat, Word>, bank: Bank)
    requires r0.Keys == WindowOffsets() && r1.Keys == WindowOffsets() && r2.Keys == WindowOffsets()
    requires ReadBank(r1, bank) == ReadBank(r2, bank)
    requires forall o :: o in r0 && !InBank(o, bank) ==> r1[o] == r0[o] && r2[o] == r0[o]
    ensures r1 == r2
  {
    forall o | o in WindowOffsets() ensures r1[o] == r2[o] {
      if InBank(o, bank) {
        var f := FieldAtOffset(o, bank);
        ReadBankField(r1, bank, f);
        ReadBankField(r2, bank, f);
      }
    }
  }

  /** The thirteen field stores, issued in header order, are exactly the bank's write sequence. */
  lemma FieldStoresAreBankWrites(r0: map<nat, Word>, bank: Bank, d: Descriptor)
    requires r0.Keys == WindowOffsets()
    ensures FieldStores(r0, bank, d) == Apply(r0, BankWrites(bank, d))
  {
    var applied := Apply(r0, BankWrites(bank, d));
    FieldStoresLoadBank(r0, bank, d);
    FieldStoresFrame(r0, bank, d);
    BankRoundTrip(r0, bank, d, 0);
    forall o | o in r0 && !InBank(o, bank) ensures applied[o] == r0[o] {
      BankRoundTrip(r0, bank, d, o);
    }
    WindowsAgree(r0, FieldStores(r0, bank, d), applied, bank);
  }

  /**
   The register window. Software reads and writes it word by word through
   HwpeWrite and HwpeRead; every other operation of the HAL is one of these.
   */
  class Datamover {
    var regs: map<nat, Word>
    /** Every store software has issued since attaching, in program order. */
    ghost var Writes: seq<BusWrite>

    /** The window holds one word at every word offset. */
    ghost predicate Valid()
      reads this
    {
      regs.Keys == WindowOffsets()
    }

    /** Takes the window with whatever contents the device presents when software starts. */
    constructor Attach(initial: map<nat, Word>)
      requires initial.Keys == WindowOffsets()
      ensures Valid()
      ensures regs == initial && Writes == []
    {
      regs := initial;
      Writes := [];
    }

    /** Stores one word at a byte offset of the window. */
    method HwpeWrite(value: Word, offset: nat)
      requires Valid()
      requires IsWordOffset(offset)
      modifies this
      ensures Valid()
      ensures regs == old(regs)[offset := value]
      ensures Writes == old(Writes) + [BusWrite(offset, value)]
    {
      regs := regs[offset := value];
      Writes := Writes + [BusWrite(offset, value)];
    }

    /** Loads one word through a C `int`: its two's-complement value. */
    method HwpeRead(offset: nat) returns (v: int)
      requires Valid()
      requires IsWordOffset(offset)
      ensures -TWO_31 <= v < TWO_31
      ensures FromSigned(v) == regs[offset]
    {
      v := ToSigned(regs[offset]);
      SignedRoundTrip(regs[offset]);
    }

    // Bank 0: the unsuffixed registers.
    method SrcAddrSet(value: Word)
      requires Valid()
      modifies this
      ensures Valid()
      ensures regs == old(regs)[REG_SRC_ADDR := value]
      ensures Writes == old(Writes) + [BusWrite(REG_SRC_ADDR, value)]
    {
      HwpeWrite(value, REG_SRC_ADDR);
    }

    method DstAddrSet(value: Word)
      requires Valid()
      modifies this
      ensures Valid()
      ensures regs == old(regs)[REG_DST_ADDR := value]
      ensures Writes == old(Writes) + [BusWrite(REG_DST_ADDR, value)]
    {
      HwpeWrite(value, REG_DST_ADDR);
    }

    method TotLenSet(value: Word)
      requires Valid()
      modifies this
      ensures Valid()
      ensures regs == old(regs)[REG_TOT_LEN := value]
      ensures Writes == old(Writes) + [BusWrite(REG_TOT_LEN, value)]
    {
      HwpeWrite(value, REG_TOT_LEN);
    }

    method SrcD0LenSet(value: Word)
      requires Valid()
      modifies this
      ensures Valid()
      ensures regs == old(regs)[REG_SRC_D0_LEN := value]
      ensures Writes == old(Writes) + [BusWrite(REG_SRC_D0_LEN, value)]
    {
      HwpeWrite(value, REG_SRC_D0_LEN);
    }

    method SrcD0StrideSet(value: Word)
      requires Valid()
      modifies this
      ensures Valid()
      ensures regs == old(regs)[REG_SRC_D0_STRIDE := value]
      ensures Writes == old(Writes) + [BusWrite(REG_SRC_D0_STRIDE, value)]
    {
      HwpeWrite(value, REG_SRC_D0_STRIDE);
    }

    method SrcD1LenSet(value: Word)
      requires Valid()
      modifies this
      ensures Valid()
      ensures regs == old(regs)[REG_SRC_D1_LEN := value]
      ensures Writes == old(Writes) + [BusWrite(REG_SRC_D1_LEN, value)]
    {
      HwpeWrite(value, REG_SRC_D1_LEN);
    }

    method SrcD1StrideSet(value: Word)
      requires Valid()
      modifies this
      ensures Valid()
      ensures regs == old(regs)[REG_SRC_D1_STRIDE := value]
      ensures Writes == old(Writes) + [BusWrite(REG_SRC_D1_STRIDE, value)]
    {
      HwpeWrite(value, REG_SRC_D1_STRIDE);
    }

    method SrcD2StrideSet(value: Word)
      requires Valid()
      modifies this
      ensures Valid()
      ensures regs == old(regs)[REG_SRC_D2_STRIDE := value]
      ensures Writes == old(Writes) + [BusWrite(REG_SRC_D2_STRIDE, value)]
    {
      HwpeWrite(value, REG_SRC_D2_STRIDE);
    }

    method DstD0LenSet(value: Word)
      requires Valid()
      modifies this
      ensures Valid()
      ensures regs == old(regs)[REG_DST_D0_LEN := value]
      ensures Writes == old(Writes) + [BusWrite(REG_DST_D0_LEN, value)]
    {
      HwpeWrite(value, REG_DST_D0_LEN);
    }

    method DstD0StrideSet(value: Word)
      requires Valid()
      modifies this
      ensures Valid()
      ensures regs == old(regs)[REG_DST_D0_STRIDE := value]
      ensures Writes == old(Writes) + [BusWrite(REG_DST_D0_STRIDE, value)]
    {
      HwpeWrite(value, REG_DST_D0_STRIDE);
    }

    method DstD1LenSet(value: Word)
      requires Valid()
      modifies this
      ensures Valid()
      ensures regs == old(regs)[REG_DST_D1_LEN := value]
      ensures Writes == old(Writes) + [BusWrite(REG_DST_D1_LEN, value)]
    {
      HwpeWrite(value, REG_DST_D1_LEN);
    }

    method DstD1StrideSet(value: Word)
      requires Valid()
      modifies this
      ensures Valid()
      ensures regs == old(regs)[REG_DST_D1_STRIDE := value]
      ensures Writes == old(Writes) + [BusWrite(REG_DST_D1_STRIDE, value)]
    {
      HwpeWrite(value, REG_DST_D1_STRIDE);
    }

    method DstD2StrideSet(value: Word)
      requires Valid()
      modifies this
      ensures Valid()
      ensures regs == old(regs)[REG_DST_D2_STRIDE := value]
      ensures Writes == old(Writes) + [BusWrite(REG_DST_D2_STRIDE, value)]
    {
      HwpeWrite(value, REG_DST_D2_STRIDE);
    }

    // Bank 1: the registers suffixed 2.
    method SrcAddr2Set(value: Word)
      requires Valid()
      modifies this
      ensures Valid()
      ensures regs == old(regs)[REG_SRC_ADDR2 := value]
      ensures Writes == old(Writes) + [BusWrite(REG_SRC_ADDR2, value)]
    {
      HwpeWrite(value, REG_SRC_ADDR2);
    }

    method DstAddr2Set(value: Word)
      requires Valid()
      modifies this
      ensures Valid()
      ensures regs == old(regs)[REG_DST_ADDR2 := value]
      ensures Writes == old(Writes) + [BusWrite(REG_DST_ADDR2, value)]
    {
      HwpeWrite(value, REG_DST_ADDR2);
    }

    method TotLen2Set(value: Word)
      requires Valid()
      modifies this
      ensures Valid()
      ensures regs == old(regs)[REG_TOT_LEN2 := value]
      ensures Writes == old(Writes) + [BusWrite(REG_TOT_LEN2, value)]
    {
      HwpeWrite(value, REG_TOT_LEN2);
    }

    method SrcD0Len2Set(value: Word)
      requires Valid()
      modifies this
      ensures Valid()
      ensures regs == old(regs)[REG_SRC_D0_LEN2 := value]
      ensures Writes == old(Writes) + [BusWrite(REG_SRC_D0_LEN2, value)]
    {
      HwpeWrite(value, REG_SRC_D0_LEN2);
    }

    method SrcD0Stride2Set(value: Word)
      requires Valid()
      modifies this
      ensures Valid()
      ensures regs == old(regs)[REG_SRC_D0_STRIDE2 := value]
      ensures Writes == old(Writes) + [BusWrite(REG_SRC_D0_STRIDE2, value)]
    {
      HwpeWrite(value, REG_SRC_D0_STRIDE2);
    }

    method SrcD1Len2Set(value: Word)
      requires Valid()
      modifies this
      ensures Valid()
      ensures regs == old(regs)[REG_SRC_D1_LEN2 := value]
      ensures Writes == old(Writes) + [BusWrite(REG_SRC_D1_LEN2, value)]
    {
      HwpeWrite(value, REG_SRC_D1_LEN2);
    }

    method SrcD1Stride2Set(value: Word)
      requires Valid()
      modifies this
      ensures Valid()
      ensures regs == old(regs)[REG_SRC_D1_STRIDE2 := value]
      ensures Writes == old(Writes) + [BusWrite(REG_SRC_D1_STRIDE2, value)]
    {
      HwpeWrite(value, REG_SRC_D1_STRIDE2);
    }

    method SrcD2Stride2Set(value: Word)
      requires Valid()
      modifies this
      ensures Valid()
      ensures regs == old(regs)[REG_SRC_D2_STRIDE2 := value]
      ensures Writes == old(Writes) + [BusWrite(REG_SRC_D2_STRIDE2, value)]
    {
      HwpeWrite(value, REG_SRC_D2_STRIDE2);
    }

    method DstD0Len2Set(value: Word)
      requires Valid()
      modifies this
      ensures Valid()
      ensures regs == old(regs)[REG_DST_D0_LEN2 := value]
      ensures Writes == old(Writes) + [BusWrite(REG_DST_D0_LEN2, value)]
    {
      HwpeWrite(value, REG_DST_D0_LEN2);
    }

    method DstD0Stride2Set(value: Word)
      requires Valid()
      modifies this
      ensures Valid()
      ensures regs == old(regs)[REG_DST_D0_STRIDE2 := value]
      ensures Writes == old(Writes) + [BusWrite(REG_DST_D0_STRIDE2, value)]
    {
      HwpeWrite(value, REG_DST_D0_STRIDE2);
    }

    method DstD1Len2Set(value: Word)
      requires Valid()
      modifies this
      ensures Valid()
      ensures regs == old(regs)[REG_DST_D1_LEN2 := value]
      ensures Writes == old(Writes) + [BusWrite(REG_DST_D1_LEN2, value)]
    {
      HwpeWrite(value, REG_DST_D1_LEN2);
    }

    method DstD1Stride2Set(value: Word)
      requires Valid()
      modifies this
      ensures Valid()
      ensures regs == old(regs)[REG_DST_D1_STRIDE2 := value]
      ensures Writes == old(Writes) + [BusWrite(REG_DST_D1_STRIDE2, value)]
    {
      HwpeWrite(value, REG_DST_D1_STRIDE2);
    }

    method DstD2Stride2Set(value: Word)
      requires Valid()
      modifies this
      ensures Valid()
      ensures regs == old(regs)[REG_DST_D2_STRIDE2 := value]
      ensures Writes == old(Writes) + [BusWrite(REG_DST_D2_STRIDE2, value)]
    {
      HwpeWrite(value, REG_DST_D2_STRIDE2);
    }

    // Bank 2: the registers suffixed 3.
    method SrcAddr3Set(value: Word)
      requires Valid()
      modifies this
      ensures Valid()
      ensures regs == old(regs)[REG_SRC_ADDR3 := value]
      ensures Writes == old(Writes) + [BusWrite(REG_SRC_ADDR3, value)]
    {
      HwpeWrite(value, REG_SRC_ADDR3);
    }

    method DstAddr3Set(value: Word)
      requires Valid()
      modifies this
      ensures Valid()
      ensures regs == old(regs)[REG_DST_ADDR3 := value]
      ensures Writes == old(Writes) + [BusWrite(REG_DST_ADDR3, value)]
    {
      HwpeWrite(value, REG_DST_ADDR3);
    }

    method TotLen3Set(value: Word)
      requires Valid()
      modifies this
      ensures Valid()
      ensures regs == old(regs)[REG_TOT_LEN3 := value]
      ensures Writes == old(Writes) + [BusWrite(REG_TOT_LEN3, value)]
    {
      HwpeWrite(value, REG_TOT_LEN3);
    }

    method SrcD0Len3Set(value: Word)
      requires Valid()
      modifies this
      ensures Valid()
      ensures regs == old(regs)[REG_SRC_D0_LEN3 := value]
      ensures Writes == old(Writes) + [BusWrite(REG_SRC_D0_LEN3, value)]
    {
      HwpeWrite(value, REG_SRC_D0_LEN3);
    }

    method SrcD0Stride3Set(value: Word)
      requires Valid()
      modifies this
      ensures Valid()
      ensures regs == old(regs)[REG_SRC_D0_STRIDE3 := value]
      ensures Writes == old(Writes) + [BusWrite(REG_SRC_D0_STRIDE3, value)]
    {
      HwpeWrite(value, REG_SRC_D0_STRIDE3);
    }

    method SrcD1Len3Set(value: Word)
      requires Valid()
      modifies this
      ensures Valid()
      ensures regs == old(regs)[REG_SRC_D1_LEN3 := value]
      ensures Writes == old(Writes) + [BusWrite(REG_SRC_D1_LEN3, value)]
    {
      HwpeWrite(value, REG_SRC_D1_LEN3);
    }

    method SrcD1Stride3Set(value: Word)
      requires Valid()
      modifies this
      ensures Valid()
      ensures regs == old(regs)[REG_SRC_D1_STRIDE3 := value]
      ensures Writes == old(Writes) + [BusWrite(REG_SRC_D1_STRIDE3, value)]
    {
      HwpeWrite(value, REG_SRC_D1_STRIDE3);
    }

    method SrcD2Stride3Set(value: Word)
      requires Valid()
      modifies this
      ensures Valid()
      ensures regs == old(regs)[REG_SRC_D2_STRIDE3 := value]
      ensures Writes == old(Writes) + [BusWrite(REG_SRC_D2_STRIDE3, value)]
    {
      HwpeWrite(value, REG_SRC_D2_STRIDE3);
    }

    method DstD0Len3Set(value: Word)
      requires Valid()
      modifies this
      ensures Valid()
      ensures regs == old(regs)[REG_DST_D0_LEN3 := value]
      ensures Writes == old(Writes) + [BusWrite(REG_DST_D0_LEN3, value)]
    {
      HwpeWrite(value, REG_DST_D0_LEN3);
    }

    method DstD0Stride3Set(value: Word)
      requires Valid()
      modifies this
      ensures Valid()
      ensures regs == old(regs)[REG_DST_D0_STRIDE3 := value]
      ensures Writes == old(Writes) + [BusWrite(REG_DST_D0_STRIDE3, value)]
    {
      HwpeWrite(value, REG_DST_D0_STRIDE3);
    }

    method DstD1Len3Set(value: Word)
      requires Valid()
      modifies this
      ensures Valid()
      ensures regs == old(regs)[REG_DST_D1_LEN3 := value]
      ensures Writes == old(Writes) + [BusWrite(REG_DST_D1_LEN3, value)]
    {
      HwpeWrite(value, REG_DST_D1_LEN3);
    }

    method DstD1Stride3Set(value: Word)
      requires Valid()
      modifies this
      ensures Valid()
      ensures regs == old(regs)[REG_DST_D1_STRIDE3 := value]
      ensures Writes == old(Writes) + [BusWrite(REG_DST_D1_STRIDE3, value)]
    {
      HwpeWrite(value, REG_DST_D1_STRIDE3);
    }

    method DstD2Stride3Set(value: Word)
      requires Valid()
      modifies this
      ensures Valid()
      ensures regs == old(regs)[REG_DST_D2_STRIDE3 := value]
      ensures Writes == old(Writes) + [BusWrite(REG_DST_D2_STRIDE3, value)]
    {
      HwpeWrite(value, REG_DST_D2_STRIDE3);
    }

    // Control registers.

    /** Starts every configured job: a write of 0 to TRIGGER. */
    method TriggerJob()
      requires Valid()
      modifies this
      ensures Valid()
      ensures regs == old(regs)[TRIGGER := 0]
      ensures Writes == old(Writes) + [BusWrite(TRIGGER, 0)]
    {
      HwpeWrite(0, TRIGGER);
    }

    /** Reads ACQUIRE: a job slot index, or a negative value when no slot is free. */
    method AcquireJob() returns (id: int)
      requires Valid()
      ensures -TWO_31 <= id < TWO_31
      ensures id == ToSigned(regs[ACQUIRE])
    {
      id := HwpeRead(ACQUIRE);
      UnsignedRoundTrip(id);
    }

    /** Reads STATUS as an unsigned word: the pattern the register holds. */
    method GetStatus() returns (status: Word)
      requires Valid()
      ensures status == regs[STATUS]
    {
      var v := HwpeRead(STATUS);
      status := FromSigned(v);
    }

    /** Resets the device's job slots: a write of 0 to SOFT_CLEAR. */
    method SoftClear()
      requires Valid()
      modifies this
      ensures Valid()
      ensures regs == old(regs)[SOFT_CLEAR := 0]
      ensures Writes == old(Writes) + [BusWrite(SOFT_CLEAR, 0)]
    {
      HwpeWrite(0, SOFT_CLEAR);
    }
  }

  /**
   Under the plain-memory model a load right after a store to the same word
   returns the stored pattern, seen as a C int.
   */
  method StoreThenLoad(dm: Datamover, value: Word, offset: nat) returns (v: int)
    requires dm.Valid() && IsWordOffset(offset)
    modifies dm
    ensures dm.Valid()
    ensures dm.regs == old(dm.regs)[offset := value] && dm.Writes == old(dm.Writes) + [BusWrite(offset, value)]
    ensures v == ToSigned(value) && FromSigned(v) == value
  {
    dm.HwpeWrite(value, offset);
    v := dm.HwpeRead(offset);
  }
}
