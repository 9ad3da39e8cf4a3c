// The io_uring kernel ABI of io-uring-sys/src/lib.rs: operation codes, flag
// words, the setup parameters and the C layout of the shared structures.

module Sys {
  import opened Wrappers
  import opened MachineInt

  /* ---------------------------------------------------------------------- */
  /* Operation codes                                                         */
  /* ---------------------------------------------------------------------- */

  /** The operations of `io_uring_sqe.opcode` the crate knows. */
  datatype Operation = Nop | Readv | Writev | Fsync | ReadFixed | WriteFixed | PollAdd | PollRemove

  /** The `#[repr(u8)]` discriminant of an operation. */
  function Code(op: Operation): u8
  {
    match op
    case Nop => 0
    case Readv => 1
    case Writev => 2
    case Fsync => 3
    case ReadFixed => 4
    case WriteFixed => 5
    case PollAdd => 6
    case PollRemove => 7
  }

  /** The opcode byte as stored in a submission entry. */
  datatype RawOperation = RawOperation(code: u8)
  {
    /** Decode the byte; unknown opcodes have no operation. */
    function Decode(): (r: Option<Operation>)
      ensures r.None? <==> code > 7
      ensures r.Some? ==> Code(r.value) == code
    {
      match code
      case 0 => Some(Nop)
      case 1 => Some(Readv)
      case 2 => Some(Writev)
      case 3 => Some(Fsync)
      case 4 => Some(ReadFixed)
      case 5 => Some(WriteFixed)
      case 6 => Some(PollAdd)
      case 7 => Some(PollRemove)
      case _ => None
    }
  }

  /** `From<Operation> for RawOperation`. */
  function FromOperation(op: Operation): (r: RawOperation)
    ensures r.Decode() == Some(op)
    ensures r.code <= 7
  {
    RawOperation(Code(op))
  }

  /** Two operations never share an opcode byte. */
  lemma FromOperationInjective(a: Operation, b: Operation)
    requires FromOperation(a) == FromOperation(b)
    ensures a == b
  {
    assert Some(a) == FromOperation(a).Decode() == FromOperation(b).Decode() == Some(b);
  }

  /** Every byte that decodes is the encoding of what it decodes to. */
  lemma DecodeThenEncode(raw: RawOperation)
    requires raw.Decode().Some?
    ensures FromOperation(raw.Decode().value) == raw
  {
  }

  /* ---------------------------------------------------------------------- */
  /* Flag words                                                             */
  /* ---------------------------------------------------------------------- */

  /** `EnterFlags`: flags of `io_uring_enter`. */
  type EnterFlags = bv32
  const GETEVENTS: EnterFlags := 1
  const SQ_WAKEUP: EnterFlags := 2
  const ENTER_ALL: EnterFlags := !0

  /** `SetupFlags`: flags of `io_uring_setup`. */
  type SetupFlags = bv32
  const IOPOLL: SetupFlags := 1
  const SQPOLL: SetupFlags := 2
  const SQ_AFF: SetupFlags := 4
  const SETUP_ALL: SetupFlags := !0

  /** `SubmissionQueueFlags`, written by the kernel into the ring. */
  type SubmissionQueueFlags = bv32
  const NEED_WAKEUP: SubmissionQueueFlags := 1
  const SQ_FLAGS_ALL: SubmissionQueueFlags := !0

  /** `SubmissionEntryFlags`, the `flags` byte of an entry. */
  type SubmissionEntryFlags = bv8
  const FIXED_FILE: SubmissionEntryFlags := 1
  const ENTRY_FLAGS_ALL: SubmissionEntryFlags := !0

  /** `ReadWriteFlags`, the `rw_flags` member of the operation flags. */
  type ReadWriteFlags = bv32
  const HIPRI: ReadWriteFlags := 0x01
  const DSYNC: ReadWriteFlags := 0x02
  const SYNC: ReadWriteFlags := 0x04
  const NOWAIT: ReadWriteFlags := 0x08
  const APPEND: ReadWriteFlags := 0x10
  const SUPPORTED: ReadWriteFlags := 0 | HIPRI | DSYNC | SYNC | NOWAIT | APPEND
  const RW_ALL: ReadWriteFlags := !0

  /** `FsyncFlags`, the `fsync_flags` member of the operation flags. */
  type FsyncFlags = bv32
  const DATASYNC: FsyncFlags := 1
  const FSYNC_ALL: FsyncFlags := !0

  /** `PollFlags`, the 16-bit `poll_events` member of the operation flags
      (values of the Linux poll.h constants on x86). */
  type PollFlags = bv16
  const POLLIN: PollFlags := 0x0001
  const POLLPRI: PollFlags := 0x0002
  const POLLOUT: PollFlags := 0x0004
  const POLLERR: PollFlags := 0x0008
  const POLLHUP: PollFlags := 0x0010
  const POLLNVAL: PollFlags := 0x0020
  const POLLRDNORM: PollFlags := 0x0040
  const POLLRDBAND: PollFlags := 0x0080
  const POLLWRNORM: PollFlags := 0x0100
  const POLLWRBAND: PollFlags := 0x0200
  const POLLMSG: PollFlags := 0x0400
  const POLLRDHUP: PollFlags := 0x2000
  const POLL_ALL: PollFlags := !0

  /** `x` has exactly one bit set. */
  predicate SingleBit32(x: bv32)
  {
    x != 0 && x & (x - 1) == 0
  }

  /** `from_bits_truncate` of each flags type: because every type declares a
      hidden `_ALL` constant with all bits set, no raw bit is dropped. */
  function EnterFlagsFromBitsTruncate(bits: bv32): (f: EnterFlags)
    ensures f == bits
  {
    bits & ENTER_ALL
  }

  function SetupFlagsFromBitsTruncate(bits: bv32): (f: SetupFlags)
    ensures f == bits
  {
    bits & SETUP_ALL
  }

  function SubmissionQueueFlagsFromBitsTruncate(bits: bv32): (f: SubmissionQueueFlags)
    ensures f == bits
  {
    bits & SQ_FLAGS_ALL
  }

  function SubmissionEntryFlagsFromBitsTruncate(bits: bv8): (f: SubmissionEntryFlags)
    ensures f == bits
  {
    bits & ENTRY_FLAGS_ALL
  }

  function ReadWriteFlagsFromBitsTruncate(bits: bv32): (f: ReadWriteFlags)
    ensures f == bits
  {
    bits & RW_ALL
  }

  function FsyncFlagsFromBitsTruncate(bits: bv32): (f: FsyncFlags)
    ensures f == bits
  {
    bits & FSYNC_ALL
  }

  function PollFlagsFromBitsTruncate(bits: bv16): (f: PollFlags)
    ensures f == bits
  {
    bits & POLL_ALL
  }

  /** `ReadWriteFlags::SUPPORTED` is exactly the five named flags. */
  lemma SupportedIsLowFiveBits()
    ensures SUPPORTED == 0x1F
    ensures SUPPORTED & !(HIPRI | DSYNC | SYNC | NOWAIT | APPEND) == 0
  {
  }

  /** The named enter and setup flags are distinct single bits. */
  lemma NamedFlagsAreDistinctBits()
    ensures SingleBit32(GETEVENTS) && SingleBit32(SQ_WAKEUP) && GETEVENTS & SQ_WAKEUP == 0
    ensures SingleBit32(IOPOLL) && SingleBit32(SQPOLL) && SingleBit32(SQ_AFF)
    ensures IOPOLL & SQPOLL == 0 && IOPOLL & SQ_AFF == 0 && SQPOLL & SQ_AFF == 0
  {
  }

  /* ---------------------------------------------------------------------- */
  /* Setup parameters and completion entries                                */
  /* ---------------------------------------------------------------------- */

  /** `struct io_sqring_offsets`. */
  datatype SubmissionQueueRingOffsets = SubmissionQueueRingOffsets(
    head: u32, tail: u32, ringMask: u32, ringEntries: u32,
    flags: u32, dropped: u32, array: u32, reserved: seq<u32>)

  /** `struct io_cqring_offsets`. */
  datatype CompletionQueueRingOffsets = CompletionQueueRingOffsets(
    head: u32, tail: u32, ringMask: u32, ringEntries: u32,
    overflow: u32, cqes: u32, reserved: seq<u64>)

  /** `struct io_uring_params`. */
  datatype SetupParameters = SetupParameters(
    sqEntries: u32, cqEntries: u32, flags: SetupFlags,
    sqThreadCpu: u32, sqThreadIdle: u32, reserved: seq<u32>,
    sqOff: SubmissionQueueRingOffsets, cqOff: CompletionQueueRingOffsets)

  /** The derived `Default`: every field zero. */
  function DefaultParameters(): SetupParameters
  {
    SetupParameters(0, 0, 0, 0, 0, [0, 0, 0, 0, 0],
      SubmissionQueueRingOffsets(0, 0, 0, 0, 0, 0, 0, [0, 0, 0]),
      CompletionQueueRingOffsets(0, 0, 0, 0, 0, 0, [0, 0]))
  }

  /** `SetupParameters::new`: the given flags, everything else default. */
  function NewParameters(flags: SetupFlags): (p: SetupParameters)
    ensures p.flags == flags
    ensures p.(flags := 0) == DefaultParameters()
    ensures p == DefaultParameters() <==> flags == 0
  {
    DefaultParameters().(flags := flags)
  }

  /** `struct io_uring_cqe`. */
  datatype CompletionEntry = CompletionEntry(userData: u64, res: i32, flags: u32)

  /* ---------------------------------------------------------------------- */
  /* C layout                                                               */
  /* ---------------------------------------------------------------------- */

  /** A `#[repr(C)]` type as its layout sees it: a size and an alignment. */
  datatype Layout = Layout(size: nat, align: nat)

  predicate WellAligned(fs: seq<Layout>)
  {
    forall i :: 0 <= i < |fs| ==> fs[i].align >= 1
  }

  /** `n` rounded up to a multiple of `a`. */
  function RoundUp(n: nat, a: nat): (r: nat)
    requires a >= 1
    ensures r % a == 0 && n <= r < n + a
  {
    if n % a == 0 then n
    else
      assert n == (n / a) * a + n % a;
      assert n + (a - n % a) == (n / a + 1) * a;
      ModUnique(n + (a - n % a), a, n / a + 1, 0);
      n + (a - n % a)
  }

  /** The largest alignment among `fs[i..]` (1 for none). */
  function MaxAlign(fs: seq<Layout>, i: nat): (a: nat)
    requires i <= |fs|
    ensures a >= 1
    ensures forall j :: i <= j < |fs| ==> fs[j].align <= a
    decreases |fs| - i
  {
    if i == |fs| then 1
    else
      var rest := MaxAlign(fs, i + 1);
      if fs[i].align > rest then fs[i].align else rest
  }

  /** The largest size among `fs[i..]` (0 for none). */
  function MaxSize(fs: seq<Layout>, i: nat): (s: nat)
    requires i <= |fs|
    ensures forall j :: i <= j < |fs| ==> fs[j].size <= s
    decreases |fs| - i
  {
    if i == |fs| then 0
    else
      var rest := MaxSize(fs, i + 1);
      if fs[i].size > rest then fs[i].size else rest
  }

  /** Where the fields `fs[i..]` end when laid out in order from `offset`,
      each at the next offset that is a multiple of its alignment. */
  function FieldsEnd(fs: seq<Layout>, i: nat, offset: nat): (e: nat)
    requires i <= |fs| && WellAligned(fs)
    ensures e >= offset
    decreases |fs| - i
  {
    if i == |fs| then offset
    else FieldsEnd(fs, i + 1, RoundUp(offset, fs[i].align) + fs[i].size)
  }

  /** A `#[repr(C)]` struct of the given fields. */
  function StructOf(fs: seq<Layout>): (l: Layout)
    requires WellAligned(fs)
    ensures l.align >= 1 && l.size % l.align == 0 && l.size >= FieldsEnd(fs, 0, 0)
  {
    Layout(RoundUp(FieldsEnd(fs, 0, 0), MaxAlign(fs, 0)), MaxAlign(fs, 0))
  }

  /** A `#[repr(C)]` union of the given members. */
  function UnionOf(ms: seq<Layout>): (l: Layout)
    ensures l.align >= 1 && l.size % l.align == 0
    ensures forall j :: 0 <= j < |ms| ==> ms[j].size <= l.size
  {
    Layout(RoundUp(MaxSize(ms, 0), MaxAlign(ms, 0)), MaxAlign(ms, 0))
  }

  function ArrayOf(elem: Layout, n: nat): Layout
  {
    Layout(n * elem.size, elem.align)
  }

  const U8: Layout := Layout(1, 1)
  const U16: Layout := Layout(2, 2)
  const U32: Layout := Layout(4, 4)
  const U64: Layout := Layout(8, 8)

  /** `SubmissionEntryOperationFlags`: raw, rw and fsync flags (u32) or poll
      events (u16). */
  function OperationFlagsLayout(): Layout
  {
    UnionOf([U32, U32, U32, U16])
  }

  /** `SubmissionEntryExtraData`: the fixed-buffer index or three u64s. */
  function ExtraDataLayout(): Layout
  {
    UnionOf([StructOf([U16]), ArrayOf(U64, 3)])
  }

  /** `struct io_uring_sqe`, field by field. */
  function SubmissionEntryLayout(): Layout
  {
    StructOf([U8, U8, U16, U32, U64, U64, U32, OperationFlagsLayout(), U64, ExtraDataLayout()])
  }

  /** `struct io_uring_cqe`. */
  function CompletionEntryLayout(): Layout
  {
    StructOf([U64, U32, U32])
  }

  function SubmissionQueueRingOffsetsLayout(): Layout
  {
    StructOf([U32, U32, U32, U32, U32, U32, U32, ArrayOf(U32, 3)])
  }

  function CompletionQueueRingOffsetsLayout(): Layout
  {
    StructOf([U32, U32, U32, U32, U32, U32, ArrayOf(U64, 2)])
  }

  function SetupParametersLayout(): Layout
  {
    StructOf([U32, U32, U32, U32, U32, ArrayOf(U32, 5),
              SubmissionQueueRingOffsetsLayout(), CompletionQueueRingOffsetsLayout()])
  }

  lemma OperationFlagsSize()
    ensures OperationFlagsLayout() == Layout(4, 4)
  {
    var ms := [U32, U32, U32, U16];
    assert MaxAlign(ms, 3) == 2 && MaxSize(ms, 3) == 2;
    assert MaxAlign(ms, 2) == 4 && MaxSize(ms, 2) == 4;
    assert MaxAlign(ms, 1) == 4 && MaxSize(ms, 1) == 4;
    assert MaxAlign(ms, 0) == 4 && MaxSize(ms, 0) == 4;
  }

  lemma ExtraDataSize()
    ensures ExtraDataLayout() == Layout(24, 8)
  {
    var fixed := [U16];
    assert FieldsEnd(fixed, 1, 2) == 2 && MaxAlign(fixed, 1) == 1;
    assert FieldsEnd(fixed, 0, 0) == 2 && MaxAlign(fixed, 0) == 2;
    assert StructOf(fixed) == Layout(2, 2);
    var ms := [Layout(2, 2), ArrayOf(U64, 3)];
    assert ArrayOf(U64, 3) == Layout(24, 8);
    assert MaxAlign(ms, 2) == 1 && MaxSize(ms, 2) == 0;
    assert MaxAlign(ms, 1) == 8 && MaxSize(ms, 1) == 24;
    assert MaxAlign(ms, 0) == 8 && MaxSize(ms, 0) == 24;
  }

  /** The fields of `struct io_uring_sqe` end at byte 64 ... */
  lemma SubmissionEntryFieldsEnd(fs: seq<Layout>)
    requires fs == [U8, U8, U16, U32, U64, U64, U32, Layout(4, 4), U64, Layout(24, 8)]
    ensures FieldsEnd(fs, 0, 0) == 64
  {
    assert FieldsEnd(fs, 10, 64) == 64;
    assert FieldsEnd(fs, 9, 40) == 64;
    assert FieldsEnd(fs, 8, 32) == 64;
    assert FieldsEnd(fs, 7, 28) == 64;
    assert FieldsEnd(fs, 6, 24) == 64;
    assert FieldsEnd(fs, 5, 16) == 64;
    assert FieldsEnd(fs, 4, 8) == 64;
    assert FieldsEnd(fs, 3, 4) == 64;
    assert FieldsEnd(fs, 2, 2) == 64;
    assert FieldsEnd(fs, 1, 1) == 64;
  }

  /** ... and the widest of them is aligned to 8 bytes. */
  lemma SubmissionEntryFieldsAlign(fs: seq<Layout>)
    requires fs == [U8, U8, U16, U32, U64, U64, U32, Layout(4, 4), U64, Layout(24, 8)]
    ensures MaxAlign(fs, 0) == 8
  {
    assert MaxAlign(fs, 9) == 8;
    assert MaxAlign(fs, 8) == 8;
    assert MaxAlign(fs, 7) == 8;
    assert MaxAlign(fs, 6) == 8;
    assert MaxAlign(fs, 5) == 8;
    assert MaxAlign(fs, 4) == 8;
    assert MaxAlign(fs, 3) == 8;
    assert MaxAlign(fs, 2) == 8;
    assert MaxAlign(fs, 1) == 8;
  }

  /** `size_of::<SubmissionEntry>() == 64`. */
  lemma SubmissionEntrySize()
    ensures SubmissionEntryLayout().size == 64
  {
    OperationFlagsSize();
    ExtraDataSize();
    var fs := [U8, U8, U16, U32, U64, U64, U32, Layout(4, 4), U64, Layout(24, 8)];
    SubmissionEntryFieldsEnd(fs);
    SubmissionEntryFieldsAlign(fs);
  }

  /** `size_of::<CompletionEntry>() == 16`. */
  lemma CompletionEntrySize()
    ensures CompletionEntryLayout().size == 16
  {
    var fs := [U64, U32, U32];
    assert FieldsEnd(fs, 3, 16) == 16;
    assert FieldsEnd(fs, 2, 12) == 16;
    assert FieldsEnd(fs, 1, 8) == 16;
    assert FieldsEnd(fs, 0, 0) == 16;
    assert MaxAlign(fs, 2) == 4;
    assert MaxAlign(fs, 1) == 4;
    assert MaxAlign(fs, 0) == 8;
  }

  /** `size_of::<SubmissionQueueRingOffsets>() == 40`. */
  lemma SubmissionQueueRingOffsetsSize()
    ensures SubmissionQueueRingOffsetsLayout() == Layout(40, 4)
  {
    var fs := [U32, U32, U32, U32, U32, U32, U32, ArrayOf(U32, 3)];
    assert ArrayOf(U32, 3) == Layout(12, 4);
    assert FieldsEnd(fs, 8, 40) == 40;
    assert FieldsEnd(fs, 7, 28) == 40;
    assert FieldsEnd(fs, 6, 24) == 40;
    assert FieldsEnd(fs, 5, 20) == 40;
    assert FieldsEnd(fs, 4, 16) == 40;
    assert FieldsEnd(fs, 3, 12) == 40;
    assert FieldsEnd(fs, 2, 8) == 40;
    assert FieldsEnd(fs, 1, 4) == 40;
    assert FieldsEnd(fs, 0, 0) == 40;
    assert MaxAlign(fs, 7) == 4;
    assert MaxAlign(fs, 6) == 4;
    assert MaxAlign(fs, 5) == 4;
    assert MaxAlign(fs, 4) == 4;
    assert MaxAlign(fs, 3) == 4;
    assert MaxAlign(fs, 2) == 4;
    assert MaxAlign(fs, 1) == 4;
    assert MaxAlign(fs, 0) == 4;
  }

  /** `size_of::<CompletionQueueRingOffsets>() == 40`. */
  lemma CompletionQueueRingOffsetsSize()
    ensures CompletionQueueRingOffsetsLayout() == Layout(40, 8)
  {
    var fs := [U32, U32, U32, U32, U32, U32, ArrayOf(U64, 2)];
    assert ArrayOf(U64, 2) == Layout(16, 8);
    assert FieldsEnd(fs, 7, 40) == 40;
    assert FieldsEnd(fs, 6, 24) == 40;
    assert FieldsEnd(fs, 5, 20) == 40;
    assert FieldsEnd(fs, 4, 16) == 40;
    assert FieldsEnd(fs, 3, 12) == 40;
    assert FieldsEnd(fs, 2, 8) == 40;
    assert FieldsEnd(fs, 1, 4) == 40;
    assert FieldsEnd(fs, 0, 0) == 40;
    assert MaxAlign(fs, 6) == 8;
    assert MaxAlign(fs, 5) == 8;
    assert MaxAlign(fs, 4) == 8;
    assert MaxAlign(fs, 3) == 8;
    assert MaxAlign(fs, 2) == 8;
    assert MaxAlign(fs, 1) == 8;
    assert MaxAlign(fs, 0) == 8;
  }

  /** `size_of::<SetupParameters>() == 120`. */
  lemma SetupParametersSize()
    ensures SetupParametersLayout().size == 120
  {
    SubmissionQueueRingOffsetsSize();
    CompletionQueueRingOffsetsSize();
    var fs := [U32, U32, U32, U32, U32, ArrayOf(U32, 5), Layout(40, 4), Layout(40, 8)];
    assert ArrayOf(U32, 5) == Layout(20, 4);
    assert FieldsEnd(fs, 8, 120) == 120;
    assert FieldsEnd(fs, 7, 80) == 120;
    assert FieldsEnd(fs, 6, 40) == 120;
    assert FieldsEnd(fs, 5, 20) == 120;
    assert FieldsEnd(fs, 4, 16) == 120;
    assert FieldsEnd(fs, 3, 12) == 120;
    assert FieldsEnd(fs, 2, 8) == 120;
    assert FieldsEnd(fs, 1, 4) == 120;
    assert FieldsEnd(fs, 0, 0) == 120;
    assert MaxAlign(fs, 7) == 8;
    assert MaxAlign(fs, 6) == 8;
    assert MaxAlign(fs, 5) == 8;
    assert MaxAlign(fs, 4) == 8;
    assert MaxAlign(fs, 3) == 8;
    assert MaxAlign(fs, 2) == 8;
    assert MaxAlign(fs, 1) == 8;
    assert MaxAlign(fs, 0) == 8;
  }
}
