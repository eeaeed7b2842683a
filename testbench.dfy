/**
 The test program: acquire a job slot, fill all three descriptor banks with
 the same strided shape over three buffer pairs, trigger once, wait, compare
 each destination buffer with its source and report the number of mismatching
 words.
 */
module Testbench {
  import opened Layout
  import opened Hal
  import opened Compare
  import opened Transfer

  datatype Option<T> = None | Some(value: T)

  /** Words in each of the six buffers. */
  const BUF_WORDS: nat := DATA_WIDTH / 32 * 64

  /** The addresses of the six buffers, as the program hands them to the device. */
  datatype Buffers = Buffers(src1: Word, dst1: Word, src2: Word, dst2: Word, src3: Word, dst3: Word)

  /** The word at 0x80000000 where the program leaves its error count for the test environment. */
  class ResultSink {
    var value: int
  }

  /**
   The descriptor the program writes for one job: 64 units in 4 x 8 x 2 loops on
   both sides, with DATA_WIDTH = 256 giving 32-byte units and strides of 32, 256
   and 128 bytes.
   */
  function TestShape(src: Word, dst: Word): (d: Descriptor)
    ensures d.srcAddr == src && d.dstAddr == dst && d.totLen == TEST_TOT_LEN
    ensures SrcSide(d) == TestSide && DstSide(d) == TestSide
  {
    Descriptor(src, dst, 64, 4, DATA_WIDTH / 8, 8, DATA_WIDTH / 8 * 8, DATA_WIDTH / 8 * 4,
               4, DATA_WIDTH / 8, 8, DATA_WIDTH / 8 * 8, DATA_WIDTH / 8 * 4)
  }

  /** The 13 stores of job 1, in program order: they load bank 0 with the test shape, field by field. */
  function Job1Writes(src: Word, dst: Word): (ws: seq<BusWrite>)
    ensures ws == BankWrites(0, TestShape(src, dst))
  {
    [
      BusWrite(REG_SRC_ADDR, src),
      BusWrite(REG_DST_ADDR, dst),
      BusWrite(REG_TOT_LEN, 64),
      BusWrite(REG_SRC_D0_LEN, 4),
      BusWrite(REG_SRC_D0_STRIDE, DATA_WIDTH / 8),
      BusWrite(REG_SRC_D1_LEN, 8),
      BusWrite(REG_SRC_D1_STRIDE, DATA_WIDTH / 8 * 8),
      BusWrite(REG_SRC_D2_STRIDE, DATA_WIDTH / 8 * 4),
      BusWrite(REG_DST_D0_LEN, 4),
      BusWrite(REG_DST_D0_STRIDE, DATA_WIDTH / 8),
      BusWrite(REG_DST_D1_LEN, 8),
      BusWrite(REG_DST_D1_STRIDE, DATA_WIDTH / 8 * 8),
      BusWrite(REG_DST_D2_STRIDE, DATA_WIDTH / 8 * 4)
    ]
  }

  /** The 13 stores of job 2, in program order: they load bank 1 with the test shape, field by field. */
  function Job2Writes(src: Word, dst: Word): (ws: seq<BusWrite>)
    ensures ws == BankWrites(1, TestShape(src, dst))
  {
    [
      BusWrite(REG_SRC_ADDR2, src),
      BusWrite(REG_DST_ADDR2, dst),
      BusWrite(REG_TOT_LEN2, 64),
      BusWrite(REG_SRC_D0_LEN2, 4),
      BusWrite(REG_SRC_D0_STRIDE2, DATA_WIDTH / 8),
      BusWrite(REG_SRC_D1_LEN2, 8),
      BusWrite(REG_SRC_D1_STRIDE2, DATA_WIDTH / 8 * 8),
      BusWrite(REG_SRC_D2_STRIDE2, DATA_WIDTH / 8 * 4),
      BusWrite(REG_DST_D0_LEN2, 4),
      BusWrite(REG_DST_D0_STRIDE2, DATA_WIDTH / 8),
      BusWrite(REG_DST_D1_LEN2, 8),
      BusWrite(REG_DST_D1_STRIDE2, DATA_WIDTH / 8 * 8),
      BusWrite(REG_DST_D2_STRIDE2, DATA_WIDTH / 8 * 4)
    ]
  }

  /** The 13 stores of job 3, in program order: they load bank 2 with the test shape, field by field. */
  function Job3Writes(src: Word, dst: Word): (ws: seq<BusWrite>)
    ensures ws == BankWrites(2, TestShape(src, dst))
  {
    [
      BusWrite(REG_SRC_ADDR3, src),
      BusWrite(REG_DST_ADDR3, dst),
      BusWrite(REG_TOT_LEN3, 64),
      BusWrite(REG_SRC_D0_LEN3, 4),
      BusWrite(REG_SRC_D0_STRIDE3, DATA_WIDTH / 8),
      BusWrite(REG_SRC_D1_LEN3, 8),
      BusWrite(REG_SRC_D1_STRIDE3, DATA_WIDTH / 8 * 8),
      BusWrite(REG_SRC_D2_STRIDE3, DATA_WIDTH / 8 * 4),
      BusWrite(REG_DST_D0_LEN3, 4),
      BusWrite(REG_DST_D0_STRIDE3, DATA_WIDTH / 8),
      BusWrite(REG_DST_D1_LEN3, 8),
      BusWrite(REG_DST_D1_STRIDE3, DATA_WIDTH / 8 * 8),
      BusWrite(REG_DST_D2_STRIDE3, DATA_WIDTH / 8 * 4)
    ]
  }

  /** The program's 39 descriptor stores: the three jobs in turn, to consecutive words from 0x20 up. */
  function ConfigWrites(b: Buffers): (ws: seq<BusWrite>)
    ensures |ws| == 3 * FIELD_COUNT
    ensures forall k :: 0 <= k < |ws| ==> ws[k].offset == BANK_BASE + 4 * k
  {
    BanksConsecutive(TestShape(b.src1, b.dst1), TestShape(b.src2, b.dst2), TestShape(b.src3, b.dst3));
    Job1Writes(b.src1, b.dst1) + Job2Writes(b.src2, b.dst2) + Job3Writes(b.src3, b.dst3)
  }

  /** Everything the program stores to the window: the 39 descriptor stores, then the trigger as the 40th and last. */
  function ProgramWrites(b: Buffers): (ws: seq<BusWrite>)
    ensures |ws| == 3 * FIELD_COUNT + 1
    ensures ws[3 * FIELD_COUNT] == BusWrite(TRIGGER, 0)
  {
    ConfigWrites(b) + [BusWrite(TRIGGER, 0)]
  }

  /** Store 13 * bank + i of the program is store i of its bank's descriptor. */
  lemma ProgramWriteInBank(b: Buffers, bank: Bank, i: nat)
    requires i < FIELD_COUNT
    ensures |ProgramWrites(b)| == 3 * FIELD_COUNT + 1
    ensures ProgramWrites(b)[bank * FIELD_COUNT + i] == BankWrites(bank, TestShape(BankSrc(b, bank), BankDst(b, bank)))[i]
  {
    var ws := ProgramWrites(b);
    if bank == 0 {
      assert ws[i] == Job1Writes(b.src1, b.dst1)[i];
    } else if bank == 1 {
      assert ws[FIELD_COUNT + i] == Job2Writes(b.src2, b.dst2)[i];
    } else {
      assert ws[2 * FIELD_COUNT + i] == Job3Writes(b.src3, b.dst3)[i];
    }
  }

  /** No store of the program overwrites an earlier one, and the trigger is the only store to TRIGGER. */
  lemma ProgramWritesOrdered(b: Buffers)
    ensures DistinctOffsets(ProgramWrites(b))
    ensures forall k :: 0 <= k < |ProgramWrites(b)| ==> (ProgramWrites(b)[k].offset == TRIGGER <==> k == 3 * FIELD_COUNT)
  {
    var ws := ProgramWrites(b);
    forall k | 0 <= k < 3 * FIELD_COUNT
      ensures ws[k].offset == BANK_BASE + 4 * k
    {
      assert ws[k] == ConfigWrites(b)[k];
    }
  }

  /** The program stores only to words of the window, so the window keeps its shape. */
  lemma ProgramKeepsWindow(regs: map<nat, Word>, b: Buffers)
    requires regs.Keys == WindowOffsets()
    ensures Apply(regs, ProgramWrites(b)).Keys == WindowOffsets()
  {
    var ws := ProgramWrites(b);
    forall k | 0 <= k < |ws| ensures ws[k].offset in WindowOffsets() {
      if k < 3 * FIELD_COUNT {
        assert ws[k] == ConfigWrites(b)[k];
      }
    }
    ApplyKeepsWindow(regs, ws);
  }

  /** Once the program's stores are done, each bank holds its job's descriptor. */
  lemma BankAtTrigger(regs: map<nat, Word>, b: Buffers, bank: Bank)
    requires regs.Keys == WindowOffsets()
    ensures Apply(regs, ProgramWrites(b)).Keys == WindowOffsets()
    ensures ReadBank(Apply(regs, ProgramWrites(b)), bank) == TestShape(BankSrc(b, bank), BankDst(b, bank))
  {
    var ws := ProgramWrites(b);
    var d := TestShape(BankSrc(b, bank), BankDst(b, bank));
    ProgramKeepsWindow(regs, b);
    ProgramWritesOrdered(b);
    forall i | 0 <= i < FIELD_COUNT
      ensures Apply(regs, ws)[HeaderOffset(bank, FieldAt(i))] == FieldValue(d, FieldAt(i))
    {
      ProgramWriteInBank(b, bank, i);
      ApplyDistinct(regs, ws, bank * FIELD_COUNT + i);
    }
    ReadBankOfFields(Apply(regs, ws), bank, d);
  }

  /**
   Once the trigger is written, bank 0 holds src1, dst1, 64, 4, 32, 8, 256, 128,
   4, 32, 8, 256, 128, and banks 1 and 2 the same shape over their own buffers,
   whatever the window held before.
   */
  lemma BanksHoldAtTrigger(regs: map<nat, Word>, b: Buffers)
    requires regs.Keys == WindowOffsets()
    ensures Apply(regs, ProgramWrites(b)).Keys == WindowOffsets()
    ensures ReadBank(Apply(regs, ProgramWrites(b)), 0) == Descriptor(b.src1, b.dst1, 64, 4, 32, 8, 256, 128, 4, 32, 8, 256, 128)
    ensures ReadBank(Apply(regs, ProgramWrites(b)), 1) == Descriptor(b.src2, b.dst2, 64, 4, 32, 8, 256, 128, 4, 32, 8, 256, 128)
    ensures ReadBank(Apply(regs, ProgramWrites(b)), 2) == Descriptor(b.src3, b.dst3, 64, 4, 32, 8, 256, 128, 4, 32, 8, 256, 128)
    ensures Apply(regs, ProgramWrites(b))[TRIGGER] == 0
  {
    BankAtTrigger(regs, b, 0);
    BankAtTrigger(regs, b, 1);
    BankAtTrigger(regs, b, 2);
    ProgramWritesOrdered(b);
    ApplyDistinct(regs, ProgramWrites(b), 3 * FIELD_COUNT);
  }

  function BankSrc(b: Buffers, bank: Bank): Word
  {
    if bank == 0 then b.src1 else if bank == 1 then b.src2 else b.src3
  }

  function BankDst(b: Buffers, bank: Bank): Word
  {
    if bank == 0 then b.dst1 else if bank == 1 then b.dst2 else b.dst3
  }

  /** Each buffer the program allocates is exactly the 2048 bytes the test shape's 64 units tile. */
  lemma BufferHoldsShape()
    ensures BUF_WORDS * 4 == TEST_BUFFER_BYTES
  {
  }

  /** The error count of the three comparisons. */
  function TotalErrors(a1: seq<Word>, g1: seq<Word>, a2: seq<Word>, g2: seq<Word>, a3: seq<Word>, g3: seq<Word>): (r: nat)
    requires |a1| == |g1| == |a2| == |g2| == |a3| == |g3| == BUF_WORDS
    ensures r <= 3 * BUF_WORDS
  {
    Mismatches(a1, g1, BUF_WORDS) + Mismatches(a2, g2, BUF_WORDS) + Mismatches(a3, g3, BUF_WORDS)
  }

  /** The program reports 0 exactly when every destination buffer equals its source. */
  lemma TotalErrorsZeroIff(a1: seq<Word>, g1: seq<Word>, a2: seq<Word>, g2: seq<Word>, a3: seq<Word>, g3: seq<Word>)
    requires |a1| == |g1| == |a2| == |g2| == |a3| == |g3| == BUF_WORDS
    ensures TotalErrors(a1, g1, a2, g2, a3, g3) == 0 <==> a1 == g1 && a2 == g2 && a3 == g3
  {
    MismatchesZeroIff(a1, g1, BUF_WORDS);
    MismatchesZeroIff(a2, g2, BUF_WORDS);
    MismatchesZeroIff(a3, g3, BUF_WORDS);
    assert a1[..BUF_WORDS] == a1 && g1[..BUF_WORDS] == g1;
    assert a2[..BUF_WORDS] == a2 && g2[..BUF_WORDS] == g2;
    assert a3[..BUF_WORDS] == a3 && g3[..BUF_WORDS] == g3;
  }

  /**
   The acquire spin loop. The device answers each read of ACQUIRE with the next
   word of `presented`; the loop keeps reading while the answer, as a C int, is
   negative. None means the loop is still spinning once all answers are used.
   */
  method SpinAcquire(presented: seq<Word>) returns (offloadId: Option<int>, polls: nat)
    ensures polls <= |presented|
    ensures forall j :: 0 <= j < polls - 1 ==> ToSigned(presented[j]) < 0
    ensures offloadId.None? ==> polls == |presented| && forall j :: 0 <= j < |presented| ==> ToSigned(presented[j]) < 0
    ensures offloadId.Some? ==> polls >= 1 && offloadId.value == ToSigned(presented[polls - 1]) && offloadId.value >= 0
  {
    polls := 0;
    offloadId := None;
    while polls < |presented|
      invariant polls <= |presented|
      invariant forall j :: 0 <= j < polls ==> ToSigned(presented[j]) < 0
    {
      var id := ToSigned(presented[polls]);
      polls := polls + 1;
      if id >= 0 {
        offloadId := Some(id);
        return;
      }
    }
  }

  lemma AppendAssociates<T>(a: seq<T>, b: seq<T>, c: seq<T>)
    ensures a + b + c == a + (b + c)
  {
  }

  /** Thirteen single appends are one append of thirteen. */
  lemma AppendOneByOne<T>(w0: seq<T>, ws: seq<T>)
    requires |ws| == FIELD_COUNT
    ensures w0 + [ws[0]] + [ws[1]] + [ws[2]] + [ws[3]] + [ws[4]] + [ws[5]] + [ws[6]] + [ws[7]] + [ws[8]] + [ws[9]] + [ws[10]] + [ws[11]] + [ws[12]] == w0 + ws
  {
  }

  /** Job 1 operates on the first buffer pair: its 13 setter calls. */
  method ConfigureJob1(dm: Datamover, src: Word, dst: Word)
    requires dm.Valid()
    modifies dm
    ensures dm.Valid()
    ensures dm.Writes == old(dm.Writes) + Job1Writes(src, dst)
    ensures dm.regs == Apply(old(dm.regs), Job1Writes(src, dst))
    ensures ReadBank(dm.regs, 0) == TestShape(src, dst)
    ensures forall o :: o in old(dm.regs) && !InBank(o, 0) ==> dm.regs[o] == old(dm.regs)[o]
  {
    ghost var before: map<nat, Word> := dm.regs;
    ghost var logged := dm.Writes;
    dm.SrcAddrSet(src);
    dm.DstAddrSet(dst);
    dm.TotLenSet(64);
    dm.SrcD0LenSet(4);
    dm.SrcD0StrideSet(DATA_WIDTH / 8);
    dm.SrcD1LenSet(8);
    dm.SrcD1StrideSet(DATA_WIDTH / 8 * 8);
    dm.SrcD2StrideSet(DATA_WIDTH / 8 * 4);
    dm.DstD0LenSet(4);
    dm.DstD0StrideSet(DATA_WIDTH / 8);
    dm.DstD1LenSet(8);
    dm.DstD1StrideSet(DATA_WIDTH / 8 * 8);
    dm.DstD2StrideSet(DATA_WIDTH / 8 * 4);
    HeaderOffsetEntries();
    FieldStoresLoadBank(before, 0, TestShape(src, dst));
    FieldStoresFrame(before, 0, TestShape(src, dst));
    FieldStoresAreBankWrites(before, 0, TestShape(src, dst));
    AppendOneByOne(logged, Job1Writes(src, dst));
  }

  /** Job 2 operates on the second buffer pair: its 13 setter calls. */
  method ConfigureJob2(dm: Datamover, src: Word, dst: Word)
    requires dm.Valid()
    modifies dm
    ensures dm.Valid()
    ensures dm.Writes == old(dm.Writes) + Job2Writes(src, dst)
    ensures dm.regs == Apply(old(dm.regs), Job2Writes(src, dst))
    ensures ReadBank(dm.regs, 1) == TestShape(src, dst)
    ensures forall o :: o in old(dm.regs) && !InBank(o, 1) ==> dm.regs[o] == old(dm.regs)[o]
  {
    ghost var before: map<nat, Word> := dm.regs;
    ghost var logged := dm.Writes;
    dm.SrcAddr2Set(src);
    dm.DstAddr2Set(dst);
    dm.TotLen2Set(64);
    dm.SrcD0Len2Set(4);
    dm.SrcD0Stride2Set(DATA_WIDTH / 8);
    dm.SrcD1Len2Set(8);
    dm.SrcD1Stride2Set(DATA_WIDTH / 8 * 8);
    dm.SrcD2Stride2Set(DATA_WIDTH / 8 * 4);
    dm.DstD0Len2Set(4);
    dm.DstD0Stride2Set(DATA_WIDTH / 8);
    dm.DstD1Len2Set(8);
    dm.DstD1Stride2Set(DATA_WIDTH / 8 * 8);
    dm.DstD2Stride2Set(DATA_WIDTH / 8 * 4);
    HeaderOffsetEntries();
    FieldStoresLoadBank(before, 1, TestShape(src, dst));
    FieldStoresFrame(before, 1, TestShape(src, dst));
    FieldStoresAreBankWrites(before, 1, TestShape(src, dst));
    AppendOneByOne(logged, Job2Writes(src, dst));
  }

  /** Job 3 operates on the third buffer pair: its 13 setter calls. */
  method ConfigureJob3(dm: Datamover, src: Word, dst: Word)
    requires dm.Valid()
    modifies dm
    ensures dm.Valid()
    ensures dm.Writes == old(dm.Writes) + Job3Writes(src, dst)
    ensures dm.regs == Apply(old(dm.regs), Job3Writes(src, dst))
    ensures ReadBank(dm.regs, 2) == TestShape(src, dst)
    ensures forall o :: o in old(dm.regs) && !InBank(o, 2) ==> dm.regs[o] == old(dm.regs)[o]
  {
    ghost var before: map<nat, Word> := dm.regs;
    ghost var logged := dm.Writes;
    dm.SrcAddr3Set(src);
    dm.DstAddr3Set(dst);
    dm.TotLen3Set(64);
    dm.SrcD0Len3Set(4);
    dm.SrcD0Stride3Set(DATA_WIDTH / 8);
    dm.SrcD1Len3Set(8);
    dm.SrcD1Stride3Set(DATA_WIDTH / 8 * 8);
    dm.SrcD2Stride3Set(DATA_WIDTH / 8 * 4);
    dm.DstD0Len3Set(4);
    dm.DstD0Stride3Set(DATA_WIDTH / 8);
    dm.DstD1Len3Set(8);
    dm.DstD1Stride3Set(DATA_WIDTH / 8 * 8);
    dm.DstD2Stride3Set(DATA_WIDTH / 8 * 4);
    HeaderOffsetEntries();
    FieldStoresLoadBank(before, 2, TestShape(src, dst));
    FieldStoresFrame(before, 2, TestShape(src, dst));
    FieldStoresAreBankWrites(before, 2, TestShape(src, dst));
    AppendOneByOne(logged, Job3Writes(src, dst));
  }

  /**
   The window `after` is `before` once the program's 39 descriptor stores are
   done: every bank holds its job and every word outside the banks is as it was.
   */
  ghost predicate Configured(before: map<nat, Word>, after: map<nat, Word>, b: Buffers)
  {
    && after.Keys == WindowOffsets()
    && ReadBank(after, 0) == TestShape(b.src1, b.dst1)
    && ReadBank(after, 1) == TestShape(b.src2, b.dst2)
    && ReadBank(after, 2) == TestShape(b.src3, b.dst3)
    && forall o :: o in before && !InBank(o, 0) && !InBank(o, 1) && !InBank(o, 2) ==> o in after && after[o] == before[o]
  }

  /** The program's 39 descriptor stores: the three jobs in turn. */
  method ConfigureJobs(dm: Datamover, b: Buffers)
    requires dm.Valid()
    modifies dm
    ensures dm.Valid()
    ensures dm.Writes == old(dm.Writes) + ConfigWrites(b)
    ensures dm.regs == Apply(old(dm.regs), ConfigWrites(b))
    ensures Configured(old(dm.regs), dm.regs, b)
  {
    ConfigureJob1(dm, b.src1, b.dst1);
    ghost var afterJob1 := dm.regs;
    ConfigureJob2(dm, b.src2, b.dst2);
    ReadBankFrame(afterJob1, dm.regs, 1, 0);
    ghost var afterJob2 := dm.regs;
    ConfigureJob3(dm, b.src3, b.dst3);
    ReadBankFrame(afterJob2, dm.regs, 2, 0);
    ReadBankFrame(afterJob2, dm.regs, 2, 1);
    AppendAssociates(old(dm.Writes), Job1Writes(b.src1, b.dst1), Job2Writes(b.src2, b.dst2));
    AppendAssociates(old(dm.Writes), Job1Writes(b.src1, b.dst1) + Job2Writes(b.src2, b.dst2), Job3Writes(b.src3, b.dst3));
    ApplyConcat(old(dm.regs), Job1Writes(b.src1, b.dst1), Job2Writes(b.src2, b.dst2));
    ApplyConcat(old(dm.regs), Job1Writes(b.src1, b.dst1) + Job2Writes(b.src2, b.dst2), Job3Writes(b.src3, b.dst3));
  }

  /**
   The window `after` is `before` once the program's stores are done: every
   bank holds its job, TRIGGER holds 0, and every other word is as it was.
   */
  ghost predicate Programmed(before: map<nat, Word>, after: map<nat, Word>, b: Buffers)
  {
    && after.Keys == WindowOffsets()
    && ReadBank(after, 0) == TestShape(b.src1, b.dst1)
    && ReadBank(after, 1) == TestShape(b.src2, b.dst2)
    && ReadBank(after, 2) == TestShape(b.src3, b.dst3)
    && after[TRIGGER] == 0
    && forall o :: o in before && o != TRIGGER && !InBank(o, 0) && !InBank(o, 1) && !InBank(o, 2) ==> o in after && after[o] == before[o]
  }

  /**
   The program's stores to the window: the three descriptors, then the
   trigger. Afterwards every bank holds its job and TRIGGER holds 0.
   */
  method ConfigureAndTrigger(dm: Datamover, b: Buffers)
    requires dm.Valid()
    modifies dm
    ensures dm.Valid()
    ensures dm.Writes == old(dm.Writes) + ProgramWrites(b)
    ensures dm.regs == Apply(old(dm.regs), ProgramWrites(b))
    ensures Programmed(old(dm.regs), dm.regs, b)
  {
    ConfigureJobs(dm, b);
    ghost var configured: map<nat, Word> := dm.regs;
    dm.TriggerJob();
    AppendAssociates(old(dm.Writes), ConfigWrites(b), [BusWrite(TRIGGER, 0)]);
    TriggerAfterConfiguring(old(dm.regs), configured, b);
    ApplyThenStore(old(dm.regs), ConfigWrites(b), BusWrite(TRIGGER, 0));
  }

  /** Storing 0 to TRIGGER after the descriptor stores completes the program's stores and leaves the banks alone. */
  lemma TriggerAfterConfiguring(before: map<nat, Word>, mid: map<nat, Word>, b: Buffers)
    requires Configured(before, mid, b)
    ensures Programmed(before, mid[TRIGGER := 0], b)
  {
    ControlStoreKeepsBanks(mid, TRIGGER, 0);
    StoreOutsideBanksFrame(before, mid, TRIGGER, 0);
  }

  /** A store to one word keeps every other word outside the banks that already matched. */
  lemma StoreOutsideBanksFrame(before: map<nat, Word>, mid: map<nat, Word>, offset: nat, value: Word)
    requires forall o :: o in before && !InBank(o, 0) && !InBank(o, 1) && !InBank(o, 2) ==> o in mid && mid[o] == before[o]
    ensures forall o :: o in before && o != offset && !InBank(o, 0) && !InBank(o, 1) && !InBank(o, 2) ==>
      o in mid[offset := value] && mid[offset := value][o] == before[o]
  {
  }

  /** The three comparisons, each over a whole 512-word buffer, summed. */
  method CompareAll(src1: array<Word>, dst1: array<Word>, src2: array<Word>, dst2: array<Word>,
                    src3: array<Word>, dst3: array<Word>) returns (errors: int)
    requires src1.Length == dst1.Length == src2.Length == dst2.Length == src3.Length == dst3.Length == BUF_WORDS
    ensures errors == TotalErrors(dst1[..], src1[..], dst2[..], src2[..], dst3[..], src3[..])
    ensures 0 <= errors <= 3 * BUF_WORDS
  {
    errors := 0;
    var e1 := CompareInt(dst1, src1, DATA_WIDTH / 32 * 64);
    errors := errors + e1;
    var e2 := CompareInt(dst2, src2, DATA_WIDTH / 32 * 64);
    errors := errors + e2;
    var e3 := CompareInt(dst3, src3, DATA_WIDTH / 32 * 64);
    errors := errors + e3;
  }

  /**
   The whole program against the register model: spin on ACQUIRE, configure
   the three banks, trigger, wait, compare, store and return the error count.
   The destination arrays hold whatever the accelerator left in them when the
   wait returns; the source arrays whatever the random generator put there.
   */
  method RunTest(dm: Datamover, presented: seq<Word>, b: Buffers,
                 src1: array<Word>, dst1: array<Word>, src2: array<Word>, dst2: array<Word>,
                 src3: array<Word>, dst3: array<Word>, sink: ResultSink)
    returns (exitCode: Option<int>)
    requires dm.Valid()
    requires src1.Length == dst1.Length == src2.Length == dst2.Length == src3.Length == dst3.Length == BUF_WORDS
    modifies dm, sink
    ensures dm.Valid()
    ensures exitCode.None? ==> dm.regs == old(dm.regs) && dm.Writes == old(dm.Writes) && sink.value == old(sink.value)
    ensures exitCode.None? ==> forall j :: 0 <= j < |presented| ==> ToSigned(presented[j]) < 0
    ensures exitCode.Some? ==> dm.Writes == old(dm.Writes) + ProgramWrites(b)
    ensures exitCode.Some? ==> dm.regs == Apply(old(dm.regs), ProgramWrites(b))
    ensures exitCode.Some? ==> Programmed(old(dm.regs), dm.regs, b)
    ensures exitCode.Some? ==>
      exitCode.value == TotalErrors(dst1[..], src1[..], dst2[..], src2[..], dst3[..], src3[..])
    ensures exitCode.Some? ==> 0 <= exitCode.value <= 3 * BUF_WORDS && sink.value == exitCode.value
  {
    var offloadId, polls := SpinAcquire(presented);
    if offloadId.None? {
      return None;
    }
    ConfigureAndTrigger(dm, b);
    // The wait for the completion interrupt changes nothing the model sees.
    var errors := CompareAll(src1, dst1, src2, dst2, src3, dst3);
    sink.value := errors;
    exitCode := Some(errors);
  }
}
