# Datamover HAL and test program, modelled in Dafny

This project models the software side of a register-mapped copy accelerator
(the "datamover"). It covers two files:

- the low-level HAL header `sw/hal_datamover.h`;
- the test program `sw/tb_datamover.c`.

The device exposes a 0x100-byte register window. The window holds:

- six control registers: TRIGGER, ACQUIRE, FINISHED, STATUS, RUNNING_JOB and SOFT_CLEAR;
- three identical banks of thirteen job-descriptor fields. The fields are the
  source and destination address, the total length, and for each side the D0
  and D1 length and stride plus the D2 stride.

Banks are numbered 0, 1 and 2 throughout. Bank 0 is the header's unsuffixed
register set (`REG_SRC_ADDR` …), bank 1 the set suffixed 2 and bank 2 the set
suffixed 3.

Software writes and reads this window one 32-bit word at a time.

The modules are:

- `Layout` (`layout.dfy`) holds the register map.
  - The header's 39 descriptor offsets are literals (`HeaderOffset`). Its
    contract states the rule they follow: 0x20 + 0x34·bank + 4·position.
  - Lemmas prove that the offsets are distinct, aligned and inside the window.
- `Hal` (`hal.dfy`) holds the register window.
  - The window is the class `Datamover`. It keeps a map from byte offset to
    word, plus a ghost log of every bus store.
  - `HwpeWrite` and `HwpeRead` model the two access macros. The 39 field
    setters, `TriggerJob`, `AcquireJob`, `GetStatus` and `SoftClear` are built
    from them.
  - Beside the class sit pure definitions. `Apply` folds a sequence of stores
    into a window. `BankWrites` gives the stores that load one descriptor.
    `ReadBank` decodes the descriptor a bank holds. Their round trip and frame
    lemmas are here too.
- `Compare` (`compare.dfy`) holds `datamover_compare_int`.
  - It is the array loop `CompareInt`.
  - It is proved against the counting function `Mismatches`, which is itself
    proved to count the set of differing indices.
- `BitField` (`bitfield.dfy`) holds the `__builtin_bitinsert` macro.
  - A 32-bit unsigned word is modelled as its sequence of 32 bits. C's
    shifts, OR and AND act on it bit by bit.
  - `Value` reads a bit sequence as the unsigned number it stands for. Under
    that reading the bit-wise shifts are C's: `<<` multiplies by 2^s modulo
    2^32 and `>>` divides by 2^s.
  - The macro is proved equal to OR-ing in the masked, shifted field, with its
    three consequences.
- `Transfer` (`transfer.dfy`) holds the address pattern a descriptor implies.
  - The test program's shape, 4 × 8 × 2 units of 32 bytes, is consistent.
  - That shape tiles a 2048-byte buffer exactly once.
- `Testbench` (`testbench.dfy`) holds `main` of the test program, run against
  the register model. Its steps are:
  1. spin on ACQUIRE;
  2. configure the three banks;
  3. trigger;
  4. compare;
  5. store and return the error count.

  The bank contents at trigger time and the order of the 40 stores are proved
  both for the method and for the pure store sequence.

The test program does not do what a handle-based reading of the design
suggests. It writes all three banks, whatever slot index the acquire loop
returns, and it never uses that index after the loop. The model follows the
code: `RunTest` discards the acquired index, and `ConfigureAndTrigger` always
fills banks 0, 1 and 2.

## Model

| member | source | states |
|---|---|---|
| Layout.ControlOffset | sw/hal_datamover.h:31-36 | each of the six control offsets 0x00 … 0x14 is a whole aligned word below the first descriptor word 0x20 |
| Layout.HeaderOffset | sw/hal_datamover.h:38-80 | each of the 39 descriptor literals REG_SRC_ADDR … REG_DST_D2_STRIDE3 equals 0x20 + 0x34·bank + 4·(field position in declaration order) |
| Layout.BanksAreShifted | sw/hal_datamover.h:38-80 | for every field, its bank 1 offset is its bank 0 offset + 0x34, and its bank 2 offset is its bank 0 offset + 0x68 |
| Layout.FirstBankConsecutive | sw/hal_datamover.h:38-50 | in bank 0, field i sits at 0x20 + 4i, so the thirteen fields are consecutive words |
| Layout.FieldIndexBijective | sw/hal_datamover.h:38-50 | declaration position and field name determine each other: thirteen distinct positions |
| Layout.FieldAtOffset | sw/hal_datamover.h:38-80 | every aligned word of a bank's 52-byte region is the offset of one of its fields, so the offset table is onto each bank |
| Layout.HeaderOffsetInBank | sw/hal_datamover.h:38-80 | a field of a bank lies inside that bank's region and inside no other bank's |
| Layout.RegisterInWindow | sw/hal_datamover.h:31-85 | every control and descriptor offset is word-aligned, its word fits in the 0x100-byte window, and the highest is 0xB8 |
| Layout.RegisterOffsetInjective | sw/hal_datamover.h:31-80 | no two of the 45 named registers share an offset |
| Hal.ToSigned | sw/hal_datamover.h:88 | a load through `volatile int` gives the two's-complement value of the pattern, in [-2^31, 2^31) |
| Hal.FromSigned | sw/hal_datamover.h:234-236 | returning an `int` as `unsigned int` gives the pattern back, the value or the value + 2^32 |
| Hal.SignedRoundTrip | sw/hal_datamover.h:87-88 | reading a stored pattern as `int` and converting back to unsigned is the identity |
| Hal.UnsignedRoundTrip | sw/hal_datamover.h:87-88 | every `int` stored as a pattern reads back as the same `int` |
| Hal.Apply | sw/hal_datamover.h:87 | after a non-empty sequence of stores, the word the last store names holds that store's value |
| Hal.ApplyThenStore | sw/hal_datamover.h:87 | one more store after a sequence updates the sequence's result at that store's word |
| Hal.ApplyKeepsWindow | sw/hal_datamover.h:84-87 | stores that all go to words of the window leave the window with exactly its words |
| Hal.ApplyFrame | sw/hal_datamover.h:87 | a sequence of stores adds exactly the offsets it touches, and every untouched word keeps its value |
| Hal.ApplyDistinct | sw/hal_datamover.h:87 | when no two stores share an offset, each store's value is what its word holds afterwards |
| Hal.ApplyConcat | sw/hal_datamover.h:87 | issuing two store sequences one after the other is issuing their concatenation |
| Hal.BankWritesDistinct | sw/hal_datamover.h:90-222 | a descriptor's thirteen stores go to thirteen different words, all inside its bank |
| Hal.BanksConsecutive | sw/hal_datamover.h:38-80 | the stores of bank 0, bank 1 and bank 2 in turn go to the 39 consecutive words 0x20, 0x24, …, 0xB8 |
| Hal.ReadBankOfFields | sw/hal_datamover.h:38-80 | a bank whose every field word holds descriptor d decodes as d |
| Hal.ReadBankField | sw/hal_datamover.h:38-80 | each field word of a bank holds that field of the decoded descriptor |
| Hal.BankRoundTrip | sw/hal_datamover.h:90-222 | writing a descriptor into a bank keeps the window's shape, reads back as that descriptor, and leaves every word outside the bank unchanged |
| Hal.ReadBankAgrees | sw/hal_datamover.h:38-80 | two windows that agree on a bank's thirteen words decode the same descriptor there |
| Hal.WindowsAgree | sw/hal_datamover.h:38-80 | two windows that decode the same descriptor in a bank and agree outside it are equal |
| Hal.ControlStoreKeepsBank | sw/hal_datamover.h:226-240 | a store to a control register (offset below 0x20) leaves a bank's descriptor unchanged |
| Hal.ControlStoreKeepsBanks | sw/hal_datamover.h:226-240 | a store to a control register leaves all three descriptors unchanged |
| Hal.ReadBankFrame | sw/hal_datamover.h:90-222 | any change confined to one bank leaves the other banks' descriptors unchanged |
| Hal.FieldStoresKeepWindow | sw/hal_datamover.h:90-222 | the thirteen setter stores of a bank write only words of the window |
| Hal.FieldStoresLoadBank | sw/hal_datamover.h:90-222 | the thirteen setter stores of a bank, in header order, load the descriptor into it |
| Hal.FieldStoresFrame | sw/hal_datamover.h:90-222 | the thirteen setter stores of a bank leave every word outside it unchanged |
| Hal.FieldStoresAreBankWrites | sw/hal_datamover.h:90-222 | the setter stores in header order leave the window exactly as the bank's store sequence does |
| Hal.Datamover.Attach | sw/hal_datamover.h:84-85 | software starts with whatever word the device presents at every offset of the window, and has issued no stores |
| Hal.Datamover.HwpeWrite | sw/hal_datamover.h:87 | a store changes exactly the word at its offset to the value, and is logged |
| Hal.Datamover.HwpeRead | sw/hal_datamover.h:88 | a load returns the word as a C `int`: in range, with the stored pattern, and no state change |
| Hal.StoreThenLoad | sw/hal_datamover.h:87-88 | a load right after a store to the same word returns the stored pattern |
| Hal.Datamover.SrcAddrSet | sw/hal_datamover.h:90-92 | writes the value to 0x20 only, and logs the store |
| Hal.Datamover.DstAddrSet | sw/hal_datamover.h:94-96 | writes the value to 0x24 only, and logs the store |
| Hal.Datamover.TotLenSet | sw/hal_datamover.h:98-100 | writes the value to 0x28 only, and logs the store |
| Hal.Datamover.SrcD0LenSet | sw/hal_datamover.h:102-104 | writes the value to 0x2C only, and logs the store |
| Hal.Datamover.SrcD0StrideSet | sw/hal_datamover.h:106-108 | writes the value to 0x30 only, and logs the store |
| Hal.Datamover.SrcD1LenSet | sw/hal_datamover.h:110-112 | writes the value to 0x34 only, and logs the store |
| Hal.Datamover.SrcD1StrideSet | sw/hal_datamover.h:114-116 | writes the value to 0x38 only, and logs the store |
| Hal.Datamover.SrcD2StrideSet | sw/hal_datamover.h:118-120 | writes the value to 0x3C only, and logs the store |
| Hal.Datamover.DstD0LenSet | sw/hal_datamover.h:122-124 | writes the value to 0x40 only, and logs the store |
| Hal.Datamover.DstD0StrideSet | sw/hal_datamover.h:126-128 | writes the value to 0x44 only, and logs the store |
| Hal.Datamover.DstD1LenSet | sw/hal_datamover.h:130-132 | writes the value to 0x48 only, and logs the store |
| Hal.Datamover.DstD1StrideSet | sw/hal_datamover.h:134-136 | writes the value to 0x4C only, and logs the store |
| Hal.Datamover.DstD2StrideSet | sw/hal_datamover.h:138-140 | writes the value to 0x50 only, and logs the store |
| Hal.Datamover.SrcAddr2Set | sw/hal_datamover.h:143-145 | writes the value to 0x54 only, and logs the store |
| Hal.Datamover.DstAddr2Set | sw/hal_datamover.h:146-148 | writes the value to 0x58 only, and logs the store |
| Hal.Datamover.TotLen2Set | sw/hal_datamover.h:149-151 | writes the value to 0x5C only, and logs the store |
| Hal.Datamover.SrcD0Len2Set | sw/hal_datamover.h:152-154 | writes the value to 0x60 only, and logs the store |
| Hal.Datamover.SrcD0Stride2Set | sw/hal_datamover.h:155-157 | writes the value to 0x64 only, and logs the store |
| Hal.Datamover.SrcD1Len2Set | sw/hal_datamover.h:158-160 | writes the value to 0x68 only, and logs the store |
| Hal.Datamover.SrcD1Stride2Set | sw/hal_datamover.h:161-163 | writes the value to 0x6C only, and logs the store |
| Hal.Datamover.SrcD2Stride2Set | sw/hal_datamover.h:164-166 | writes the value to 0x70 only, and logs the store |
| Hal.Datamover.DstD0Len2Set | sw/hal_datamover.h:167-169 | writes the value to 0x74 only, and logs the store |
| Hal.Datamover.DstD0Stride2Set | sw/hal_datamover.h:170-172 | writes the value to 0x78 only, and logs the store |
| Hal.Datamover.DstD1Len2Set | sw/hal_datamover.h:173-175 | writes the value to 0x7C only, and logs the store |
| Hal.Datamover.DstD1Stride2Set | sw/hal_datamover.h:176-178 | writes the value to 0x80 only, and logs the store |
| Hal.Datamover.DstD2Stride2Set | sw/hal_datamover.h:179-181 | writes the value to 0x84 only, and logs the store |
| Hal.Datamover.SrcAddr3Set | sw/hal_datamover.h:184-186 | writes the value to 0x88 only, and logs the store |
| Hal.Datamover.DstAddr3Set | sw/hal_datamover.h:187-189 | writes the value to 0x8C only, and logs the store |
| Hal.Datamover.TotLen3Set | sw/hal_datamover.h:190-192 | writes the value to 0x90 only, and logs the store |
| Hal.Datamover.SrcD0Len3Set | sw/hal_datamover.h:193-195 | writes the value to 0x94 only, and logs the store |
| Hal.Datamover.SrcD0Stride3Set | sw/hal_datamover.h:196-198 | writes the value to 0x98 only, and logs the store |
| Hal.Datamover.SrcD1Len3Set | sw/hal_datamover.h:199-201 | writes the value to 0x9C only, and logs the store |
| Hal.Datamover.SrcD1Stride3Set | sw/hal_datamover.h:202-204 | writes the value to 0xA0 only, and logs the store |
| Hal.Datamover.SrcD2Stride3Set | sw/hal_datamover.h:205-207 | writes the value to 0xA4 only, and logs the store |
| Hal.Datamover.DstD0Len3Set | sw/hal_datamover.h:208-210 | writes the value to 0xA8 only, and logs the store |
| Hal.Datamover.DstD0Stride3Set | sw/hal_datamover.h:211-213 | writes the value to 0xAC only, and logs the store |
| Hal.Datamover.DstD1Len3Set | sw/hal_datamover.h:214-216 | writes the value to 0xB0 only, and logs the store |
| Hal.Datamover.DstD1Stride3Set | sw/hal_datamover.h:217-219 | writes the value to 0xB4 only, and logs the store |
| Hal.Datamover.DstD2Stride3Set | sw/hal_datamover.h:220-222 | writes the value to 0xB8 only, and logs the store |
| Hal.Datamover.TriggerJob | sw/hal_datamover.h:226-228 | writes 0 to offset 0x00 only, and logs the store |
| Hal.Datamover.AcquireJob | sw/hal_datamover.h:230-232 | returns ACQUIRE as a C `int` (negative when no slot is free) and changes nothing |
| Hal.Datamover.GetStatus | sw/hal_datamover.h:234-236 | returns STATUS as an unsigned word, the exact pattern held, and changes nothing |
| Hal.Datamover.SoftClear | sw/hal_datamover.h:238-240 | writes 0 to offset 0x14 only, and logs the store |
| Compare.Mismatches | sw/hal_datamover.h:255-256 | the count over the first n positions is at most n |
| Compare.MismatchesCountsIndices | sw/hal_datamover.h:242-259 | the count is the number of indices below n where the words differ |
| Compare.MismatchesZeroIff | sw/hal_datamover.h:242-259 | the count is 0 exactly when the first n words agree |
| Compare.MismatchesSymmetric | sw/hal_datamover.h:242-259 | swapping actual and golden leaves the count unchanged |
| Compare.MismatchDetected | sw/hal_datamover.h:242-259 | one differing word below n makes the count positive |
| Compare.CompareInt | sw/hal_datamover.h:242-259 | returns the number of differing words among the first max(len, 0), which lies in [0, max(len, 0)], and modifies neither array |
| BitField.Shl | sw/hal_datamover.h:27 | `x << s`: bit i is x's bit i - s, zero below s |
| BitField.Shr | sw/hal_datamover.h:27 | unsigned `x >> s`: bit i is x's bit i + s, zero in the top s bits |
| BitField.ToWord | sw/hal_datamover.h:27 | every 32-bit pattern stands for an unsigned number below 2^32, a register word |
| BitField.ShlValue | sw/hal_datamover.h:27 | `x << s` on the bit model is C's unsigned shift: the number x · 2^s modulo 2^32 |
| BitField.ShrValue | sw/hal_datamover.h:27 | `x >> s` on the bit model is C's unsigned shift: the number x / 2^s, rounded down |
| BitField.LowMaskValue | sw/hal_datamover.h:27 | the mask the macro's shift pair applies is the number 2^c - 1 |
| BitField.KeepLow | sw/hal_datamover.h:27 | `(b << (32-c)) >> (32-c)` keeps the low c bits of b: it is b AND (2^c - 1), for 1 ≤ c ≤ 32 |
| BitField.BitInsert | sw/hal_datamover.h:27 | the macro is a OR ((b AND (2^c - 1)) << d): bit i of the result is a's bit i, or b's bit i - d inside [d, d + c) |
| BitField.BitInsertKeepsA | sw/hal_datamover.h:27 | every bit set in a stays set |
| BitField.BitInsertOutsideField | sw/hal_datamover.h:27 | bits outside [d, d + c) are those of a |
| BitField.BitInsertIdempotent | sw/hal_datamover.h:27 | inserting the same field twice is inserting it once |
| Transfer.TestShapeConsistent | sw/tb_datamover.c:50-60 | tot_len 64 = 4 · 8 · 2, so the outer loop runs exactly twice, and 64 units of 32 bytes are 2048 bytes |
| Transfer.TestUnitInBuffer | sw/tb_datamover.c:50-60 | every unit the loops reach is 32-byte aligned and lies wholly inside the 2048-byte buffer |
| Transfer.Locate | sw/tb_datamover.c:50-60 | every aligned unit of the buffer is reached by some in-range index triple |
| Transfer.LocateUnitOffset | sw/tb_datamover.c:50-60 | Locate recovers the index triple from the offset it reaches |
| Transfer.TestShapeTiles | sw/tb_datamover.c:26-60 | the 64 index triples reach 64 distinct units, and together they cover every aligned unit of the 2048-byte buffer |
| Testbench.TestShape | sw/tb_datamover.c:48-60 | each job's descriptor carries its buffer pair and tot_len 64, and on both sides walks 4 × 8 × 2 units of 32 bytes with strides 32, 256 and 128 |
| Testbench.BufferHoldsShape | sw/tb_datamover.c:26-31 | each buffer, 64 · DATA_WIDTH/32 = 512 words, is the 2048 bytes the test shape tiles |
| Testbench.Job1Writes | sw/tb_datamover.c:48-60 | the first job's thirteen setter calls are the store sequence that loads the test shape over src1/dst1 into bank 0, field by field |
| Testbench.Job2Writes | sw/tb_datamover.c:63-75 | the second job's thirteen setter calls load the test shape over src2/dst2 into bank 1 |
| Testbench.Job3Writes | sw/tb_datamover.c:78-90 | the third job's thirteen setter calls load the test shape over src3/dst3 into bank 2 |
| Testbench.ConfigWrites | sw/tb_datamover.c:48-90 | the 39 descriptor stores go to 0x20, 0x24, …, 0xB8 in turn |
| Testbench.ProgramWrites | sw/tb_datamover.c:48-95 | the program issues 40 stores to the window, and the 40th and last stores 0 to TRIGGER |
| Testbench.ProgramWriteInBank | sw/tb_datamover.c:48-95 | store 13·bank + i of the program is store i of that bank's descriptor |
| Testbench.ProgramWritesOrdered | sw/tb_datamover.c:48-95 | the 40 stores go to distinct words, so none overwrites an earlier one, and only the last goes to TRIGGER |
| Testbench.ProgramKeepsWindow | sw/tb_datamover.c:48-95 | the program stores only to words of the window |
| Testbench.BankAtTrigger | sw/tb_datamover.c:48-95 | once the program's stores are done, each bank holds its own job's descriptor, whatever the window held before |
| Testbench.BanksHoldAtTrigger | sw/tb_datamover.c:48-95 | at trigger time bank k (k = 0, 1, 2) holds (src, dst, 64, 4, 32, 8, 256, 128, 4, 32, 8, 256, 128) over job k + 1's buffer pair, and TRIGGER holds 0 |
| Testbench.TotalErrors | sw/tb_datamover.c:100-102 | the sum of the three comparisons is in [0, 3·512] |
| Testbench.TotalErrorsZeroIff | sw/tb_datamover.c:100-106 | the reported count is 0 exactly when every destination buffer equals its source |
| Testbench.SpinAcquire | sw/tb_datamover.c:45 | the loop exits only on a non-negative ACQUIRE value, after reading only negative ones; if it never sees one, it is still spinning |
| Testbench.ConfigureJob1 | sw/tb_datamover.c:48-60 | the first job's setter calls log its thirteen stores, leave the window as those stores do, make bank 0 read as the test shape over src1/dst1, and touch no word outside bank 0 |
| Testbench.ConfigureJob2 | sw/tb_datamover.c:63-75 | the same for the second job, src2/dst2 and bank 1 |
| Testbench.ConfigureJob3 | sw/tb_datamover.c:78-90 | the same for the third job, src3/dst3 and bank 2 |
| Testbench.ConfigureJobs | sw/tb_datamover.c:48-90 | the 39 setter calls issue the three jobs' stores in order, no later job disturbs an earlier bank, and nothing outside the banks changes |
| Testbench.TriggerAfterConfiguring | sw/tb_datamover.c:95 | storing 0 to TRIGGER after the descriptor stores leaves the three banks as configured, makes TRIGGER 0, and changes no other word |
| Testbench.ConfigureAndTrigger | sw/tb_datamover.c:48-95 | the program's 40 stores are issued, the three banks hold their jobs, TRIGGER holds 0, and no other word changes |
| Testbench.CompareAll | sw/tb_datamover.c:100-102 | the error count is the total number of differing words over the three 512-word buffer pairs, in [0, 1536] |
| Testbench.RunTest | sw/tb_datamover.c:33-107 | if ACQUIRE ever turns non-negative, the banks are configured and triggered as above and the stored and returned count is the total mismatch count; otherwise nothing is stored |

## Left out

- Hardware-side job slots are not modelled. What ACQUIRE returns, and how FINISHED, STATUS and RUNNING_JOB evolve, is the device's business. The successive ACQUIRE values are given to `Testbench.SpinAcquire` as a sequence, and no slot exclusivity is claimed.
- Testbench.SpinAcquire: the C loop may spin forever. The model reads a finite sequence of device answers and reports "still spinning" (`None`) when they run out.
- The strided copy the accelerator performs is not modelled. After the interrupt wait (`wfi`, `sw/tb_datamover.c:98`), the destination arrays hold whatever the device left. `RunTest` takes them as they are, and only the address pattern of a descriptor is modelled (`Transfer`).
- Memory-mapped I/O is not modelled. The `volatile` access ordering and the base address 0x100000 are out. The window is plain memory: a map from byte offset to word.
- Random buffer generation is not part of this model: `generate_random_buffer` and `DEFAULT_SEED` come from `lfsr32.h`. Neither is `tinyprintf.h`. The source arrays are inputs.
- The store of the error count to address 0x80000000 is modelled as a `ResultSink` object whose `value` field the program sets.
- The buffer addresses are the six `Buffers` words, the values the program passes to the setters. Their placement in memory is not modelled.
- BitField.BitInsert: only 1 ≤ c ≤ 32 and 0 ≤ d < 32 are modelled, on unsigned words. c = 0 (a shift by 32), d ≥ 32 and a signed b (arithmetic right shift) are undefined or implementation-defined in C.
- The unused definitions are left out: `ARCHI_CL_EVT_ACC0/1`, and the unused locals of `datamover_compare_int` (`actual`, `golden`, `non_zero_values`, `error`). The unused `offload_id` after the acquire loop is left out for the same reason.
- `datamover_compare_int` takes `uint32_t` arrays and `errors` is an `int`. The count never exceeds the trip count, which is itself an `int`, so no overflow is possible and none is modelled.
