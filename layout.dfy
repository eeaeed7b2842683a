/**
 The register map of the datamover accelerator: six control registers and three
 identical banks of thirteen job-descriptor fields, all 32-bit words inside a
 0x100-byte window. The header spells every offset out as a literal; this module
 keeps those literals (HeaderOffset) next to the bank/field formula the layout is
 designed by (FieldOffset) and proves the two agree.
 */
module Layout {

  /** A register word as the bus carries it: a 32-bit pattern, read as an unsigned number. */
  type Word = w: int | 0 <= w < 0x1_0000_0000

  /** Width in bits of one transfer unit of the accelerator. */
  const DATA_WIDTH: nat := 256

  /** Size in bytes of the register window. */
  const ADDR_SPACE: nat := 0x100

  // Control registers.
  const TRIGGER: nat := 0x00
  const ACQUIRE: nat := 0x04
  const FINISHED: nat := 0x08
  const STATUS: nat := 0x0c
  const RUNNING_JOB: nat := 0x10
  const SOFT_CLEAR: nat := 0x14

  // First descriptor bank.
  const REG_SRC_ADDR: nat := 0x20
  const REG_DST_ADDR: nat := 0x24
  const REG_TOT_LEN: nat := 0x28
  const REG_SRC_D0_LEN: nat := 0x2C
  const REG_SRC_D0_STRIDE: nat := 0x30
  const REG_SRC_D1_LEN: nat := 0x34
  const REG_SRC_D1_STRIDE: nat := 0x38
  const REG_SRC_D2_STRIDE: nat := 0x3C
  const REG_DST_D0_LEN: nat := 0x40
  const REG_DST_D0_STRIDE: nat := 0x44
  const REG_DST_D1_LEN: nat := 0x48
  const REG_DST_D1_STRIDE: nat := 0x4C
  const REG_DST_D2_STRIDE: nat := 0x50

  // Second descriptor bank.
  const REG_SRC_ADDR2: nat := 0x54
  const REG_DST_ADDR2: nat := 0x58
  const REG_TOT_LEN2: nat := 0x5C
  const REG_SRC_D0_LEN2: nat := 0x60
  const REG_SRC_D0_STRIDE2: nat := 0x64
  const REG_SRC_D1_LEN2: nat := 0x68
  const REG_SRC_D1_STRIDE2: nat := 0x6C
  const REG_SRC_D2_STRIDE2: nat := 0x70
  const REG_DST_D0_LEN2: nat := 0x74
  const REG_DST_D0_STRIDE2: nat := 0x78
  const REG_DST_D1_LEN2: nat := 0x7C
  const REG_DST_D1_STRIDE2: nat := 0x80
  const REG_DST_D2_STRIDE2: nat := 0x84

  // Third descriptor bank.
  const REG_SRC_ADDR3: nat := 0x88
  const REG_DST_ADDR3: nat := 0x8C
  const REG_TOT_LEN3: nat := 0x90
  const REG_SRC_D0_LEN3: nat := 0x94
  const REG_SRC_D0_STRIDE3: nat := 0x98
  const REG_SRC_D1_LEN3: nat := 0x9C
  const REG_SRC_D1_STRIDE3: nat := 0xA0
  const REG_SRC_D2_STRIDE3: nat := 0xA4
  const REG_DST_D0_LEN3: nat := 0xA8
  const REG_DST_D0_STRIDE3: nat := 0xAC
  const REG_DST_D1_LEN3: nat := 0xB0
  const REG_DST_D1_STRIDE3: nat := 0xB4
  const REG_DST_D2_STRIDE3: nat := 0xB8

  /** Where the first bank starts, and how far apart the banks are. */
  const BANK_BASE: nat := 0x20
  const FIELD_COUNT: nat := 13
  const BANK_STRIDE: nat := 4 * FIELD_COUNT

  datatype Control = Trigger | Acquire | Finished | Status | RunningJob | SoftClear

  /** The descriptor fields, in the order the header declares them. */
  datatype Field =
    | SrcAddr | DstAddr | TotLen
    | SrcD0Len | SrcD0Stride | SrcD1Len | SrcD1Stride | SrcD2Stride
    | DstD0Len | DstD0Stride | DstD1Len | DstD1Stride | DstD2Stride

  /** Bank 0 is the unsuffixed set, bank 1 the "2" set, bank 2 the "3" set. */
  type Bank = b: nat | b < 3

  /** Every register the header names. */
  datatype Register = Ctrl(control: Control) | Desc(bank: Bank, field: Field)

  /** One job descriptor: the thirteen values a bank holds. */
  datatype Descriptor = Descriptor(
    srcAddr: Word, dstAddr: Word, totLen: Word,
    srcD0Len: Word, srcD0Stride: Word, srcD1Len: Word, srcD1Stride: Word, srcD2Stride: Word,
    dstD0Len: Word, dstD0Stride: Word, dstD1Len: Word, dstD1Stride: Word, dstD2Stride: Word)

  function FieldValue(d: Descriptor, f: Field): Word
  {
    match f
    case SrcAddr => d.srcAddr
    case DstAddr => d.dstAddr
    case TotLen => d.totLen
    case SrcD0Len => d.srcD0Len
    case SrcD0Stride => d.srcD0Stride
    case SrcD1Len => d.srcD1Len
    case SrcD1Stride => d.srcD1Stride
    case SrcD2Stride => d.srcD2Stride
    case DstD0Len => d.dstD0Len
    case DstD0Stride => d.dstD0Stride
    case DstD1Len => d.dstD1Len
    case DstD1Stride => d.dstD1Stride
    case DstD2Stride => d.dstD2Stride
  }

  /** Position of a field in declaration order. */
  function FieldIndex(f: Field): (i: nat)
    ensures i < FIELD_COUNT
  {
    match f
    case SrcAddr => 0
    case DstAddr => 1
    case TotLen => 2
    case SrcD0Len => 3
    case SrcD0Stride => 4
    case SrcD1Len => 5
    case SrcD1Stride => 6
    case SrcD2Stride => 7
    case DstD0Len => 8
    case DstD0Stride => 9
    case DstD1Len => 10
    case DstD1Stride => 11
    case DstD2Stride => 12
  }

  /** The field at a position in declaration order. */
  function FieldAt(i: nat): (f: Field)
    requires i < FIELD_COUNT
    ensures FieldIndex(f) == i
  {
    if i == 0 then SrcAddr
    else if i == 1 then DstAddr
    else if i == 2 then TotLen
    else if i == 3 then SrcD0Len
    else if i == 4 then SrcD0Stride
    else if i == 5 then SrcD1Len
    else if i == 6 then SrcD1Stride
    else if i == 7 then SrcD2Stride
    else if i == 8 then DstD0Len
    else if i == 9 then DstD0Stride
    else if i == 10 then DstD1Len
    else if i == 11 then DstD1Stride
    else DstD2Stride
  }

  /** FieldIndex and FieldAt are inverse: the declaration order is a bijection onto [0, 13). */
  lemma FieldIndexBijective(f: Field, g: Field)
    ensures FieldAt(FieldIndex(f)) == f
    ensures FieldIndex(f) == FieldIndex(g) ==> f == g
  {
  }

  /** The offset of a control register, as the header defines it: a whole word below the first bank. */
  function ControlOffset(c: Control): (o: nat)
    ensures IsWordOffset(o) && o < BANK_BASE
  {
    match c
    case Trigger => TRIGGER
    case Acquire => ACQUIRE
    case Finished => FINISHED
    case Status => STATUS
    case RunningJob => RUNNING_JOB
    case SoftClear => SOFT_CLEAR
  }

  /**
   The offset of a descriptor field, as the header spells it out: one literal
   per bank and field. The 39 literals follow the design rule FieldOffset.
   */
  function HeaderOffset(bank: Bank, f: Field): (o: nat)
    ensures o == FieldOffset(bank, f)
  {
    match f
    case SrcAddr => if bank == 0 then REG_SRC_ADDR else if bank == 1 then REG_SRC_ADDR2 else REG_SRC_ADDR3
    case DstAddr => if bank == 0 then REG_DST_ADDR else if bank == 1 then REG_DST_ADDR2 else REG_DST_ADDR3
    case TotLen => if bank == 0 then REG_TOT_LEN else if bank == 1 then REG_TOT_LEN2 else REG_TOT_LEN3
    case SrcD0Len => if bank == 0 then REG_SRC_D0_LEN else if bank == 1 then REG_SRC_D0_LEN2 else REG_SRC_D0_LEN3
    case SrcD0Stride => if bank == 0 then REG_SRC_D0_STRIDE else if bank == 1 then REG_SRC_D0_STRIDE2 else REG_SRC_D0_STRIDE3
    case SrcD1Len => if bank == 0 then REG_SRC_D1_LEN else if bank == 1 then REG_SRC_D1_LEN2 else REG_SRC_D1_LEN3
    case SrcD1Stride => if bank == 0 then REG_SRC_D1_STRIDE else if bank == 1 then REG_SRC_D1_STRIDE2 else REG_SRC_D1_STRIDE3
    case SrcD2Stride => if bank == 0 then REG_SRC_D2_STRIDE else if bank == 1 then REG_SRC_D2_STRIDE2 else REG_SRC_D2_STRIDE3
    case DstD0Len => if bank == 0 then REG_DST_D0_LEN else if bank == 1 then REG_DST_D0_LEN2 else REG_DST_D0_LEN3
    case DstD0Stride => if bank == 0 then REG_DST_D0_STRIDE else if bank == 1 then REG_DST_D0_STRIDE2 else REG_DST_D0_STRIDE3
    case DstD1Len => if bank == 0 then REG_DST_D1_LEN else if bank == 1 then REG_DST_D1_LEN2 else REG_DST_D1_LEN3
    case DstD1Stride => if bank == 0 then REG_DST_D1_STRIDE else if bank == 1 then REG_DST_D1_STRIDE2 else REG_DST_D1_STRIDE3
    case DstD2Stride => if bank == 0 then REG_DST_D2_STRIDE else if bank == 1 then REG_DST_D2_STRIDE2 else REG_DST_D2_STRIDE3
  }

  /** The table entry by entry, for use where a bank and field are known. */
  lemma HeaderOffsetEntries()
    ensures HeaderOffset(0, SrcAddr) == REG_SRC_ADDR && HeaderOffset(0, DstAddr) == REG_DST_ADDR && HeaderOffset(0, TotLen) == REG_TOT_LEN && HeaderOffset(0, SrcD0Len) == REG_SRC_D0_LEN
    ensures HeaderOffset(0, SrcD0Stride) == REG_SRC_D0_STRIDE && HeaderOffset(0, SrcD1Len) == REG_SRC_D1_LEN && HeaderOffset(0, SrcD1Stride) == REG_SRC_D1_STRIDE && HeaderOffset(0, SrcD2Stride) == REG_SRC_D2_STRIDE
    ensures HeaderOffset(0, DstD0Len) == REG_DST_D0_LEN && HeaderOffset(0, DstD0Stride) == REG_DST_D0_STRIDE && HeaderOffset(0, DstD1Len) == REG_DST_D1_LEN && HeaderOffset(0, DstD1Stride) == REG_DST_D1_STRIDE && HeaderOffset(0, DstD2Stride) == REG_DST_D2_STRIDE
    ensures HeaderOffset(1, SrcAddr) == REG_SRC_ADDR2 && HeaderOffset(1, DstAddr) == REG_DST_ADDR2 && HeaderOffset(1, TotLen) == REG_TOT_LEN2 && HeaderOffset(1, SrcD0Len) == REG_SRC_D0_LEN2
    ensures HeaderOffset(1, SrcD0Stride) == REG_SRC_D0_STRIDE2 && HeaderOffset(1, SrcD1Len) == REG_SRC_D1_LEN2 && HeaderOffset(1, SrcD1Stride) == REG_SRC_D1_STRIDE2 && HeaderOffset(1, SrcD2Stride) == REG_SRC_D2_STRIDE2
    ensures HeaderOffset(1, DstD0Len) == REG_DST_D0_LEN2 && HeaderOffset(1, DstD0Stride) == REG_DST_D0_STRIDE2 && HeaderOffset(1, DstD1Len) == REG_DST_D1_LEN2 && HeaderOffset(1, DstD1Stride) == REG_DST_D1_STRIDE2 && HeaderOffset(1, DstD2Stride) == REG_DST_D2_STRIDE2
    ensures HeaderOffset(2, SrcAddr) == REG_SRC_ADDR3 && HeaderOffset(2, DstAddr) == REG_DST_ADDR3 && HeaderOffset(2, TotLen) == REG_TOT_LEN3 && HeaderOffset(2, SrcD0Len) == REG_SRC_D0_LEN3
    ensures HeaderOffset(2, SrcD0Stride) == REG_SRC_D0_STRIDE3 && HeaderOffset(2, SrcD1Len) == REG_SRC_D1_LEN3 && HeaderOffset(2, SrcD1Stride) == REG_SRC_D1_STRIDE3 && HeaderOffset(2, SrcD2Stride) == REG_SRC_D2_STRIDE3
    ensures HeaderOffset(2, DstD0Len) == REG_DST_D0_LEN3 && HeaderOffset(2, DstD0Stride) == REG_DST_D0_STRIDE3 && HeaderOffset(2, DstD1Len) == REG_DST_D1_LEN3 && HeaderOffset(2, DstD1Stride) == REG_DST_D1_STRIDE3 && HeaderOffset(2, DstD2Stride) == REG_DST_D2_STRIDE3
  {
  }

  /** The design rule behind the table: bank base, plus one bank stride per bank, plus one word per field. */
  function FieldOffset(bank: Bank, f: Field): nat
  {
    BANK_BASE + bank * BANK_STRIDE + 4 * FieldIndex(f)
  }

  /** Banks 1 and 2 repeat bank 0 at +0x34 and +0x68. */
  lemma BanksAreShifted(f: Field)
    ensures HeaderOffset(1, f) == HeaderOffset(0, f) + 0x34
    ensures HeaderOffset(2, f) == HeaderOffset(0, f) + 0x68
  {
  }

  /** In bank 0 the i-th declared field sits at 0x20 + 4i: the thirteen fields are consecutive words. */
  lemma FirstBankConsecutive(i: nat)
    requires i < FIELD_COUNT
    ensures HeaderOffset(0, FieldAt(i)) == 0x20 + 4 * i
  {
  }

  /** The first byte of a bank. */
  function BankStart(bank: Bank): nat
  {
    BANK_BASE + bank * BANK_STRIDE
  }

  /** A byte offset inside a bank's 52-byte region. */
  predicate InBank(o: nat, bank: Bank)
  {
    BankStart(bank) <= o < BankStart(bank) + BANK_STRIDE
  }

  /** The field a word of a bank's region holds: the inverse of HeaderOffset on that bank. */
  function FieldAtOffset(o: nat, bank: Bank): (f: Field)
    requires InBank(o, bank) && o % 4 == 0
    ensures HeaderOffset(bank, f) == o
  {
    FieldAt((o - BankStart(bank)) / 4)
  }

  /** Each field of a bank lies in that bank's region, and in no other. */
  lemma HeaderOffsetInBank(bank: Bank, f: Field, other: Bank)
    ensures InBank(HeaderOffset(bank, f), other) <==> other == bank
  {
  }

  /** The byte offset of any named register. */
  function RegisterOffset(r: Register): nat
  {
    match r
    case Ctrl(c) => ControlOffset(c)
    case Desc(b, f) => HeaderOffset(b, f)
  }

  /** A byte offset that names one whole word inside the window. */
  predicate IsWordOffset(o: nat)
  {
    o % 4 == 0 && o + 4 <= ADDR_SPACE
  }

  /** Every named register is word-aligned and lies wholly inside the window; the highest is 0xB8. */
  lemma RegisterInWindow(r: Register)
    ensures IsWordOffset(RegisterOffset(r))
    ensures RegisterOffset(r) <= REG_DST_D2_STRIDE3
  {
    match r
    case Ctrl(c) =>
    case Desc(b, f) =>
  }

  /** No two named registers share an offset. */
  lemma RegisterOffsetInjective(r1: Register, r2: Register)
    ensures RegisterOffset(r1) == RegisterOffset(r2) ==> r1 == r2
  {
    match r1
    case Ctrl(c1) =>
      match r2 {
        case Ctrl(c2) =>
        case Desc(b2, f2) =>
      }
    case Desc(b1, f1) =>
      match r2 {
        case Ctrl(c2) =>
        case Desc(b2, f2) =>
          if RegisterOffset(r1) == RegisterOffset(r2) {
            assert 13 * b1 + FieldIndex(f1) == 13 * b2 + FieldIndex(f2);
            assert b1 == b2;
            FieldIndexBijective(f1, f2);
          }
      }
  }
}
