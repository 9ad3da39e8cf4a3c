// io-uring-sys/src/submission.rs: I/O priorities, file descriptors and the
// builders that fill a submission entry in place.

module SysSubmission {
  import Wrappers
  import opened MachineInt
  import opened Sys

  /* ---------------------------------------------------------------------- */
  /* I/O priority (ioprio_set(2) encoding)                                  */
  /* ---------------------------------------------------------------------- */

  datatype IoPriorityLevel = Level0 | Level1 | Level2 | Level3 | Level4 | Level5 | Level6 | Level7

  /** `level as u8`. */
  function LevelValue(l: IoPriorityLevel): u8
  {
    match l
    case Level0 => 0
    case Level1 => 1
    case Level2 => 2
    case Level3 => 3
    case Level4 => 4
    case Level5 => 5
    case Level6 => 6
    case Level7 => 7
  }

  /** `IoPriorityLevel::try_from`. */
  function LevelTryFrom(v: u8): (r: Wrappers.Option<IoPriorityLevel>)
    ensures r.Some? <==> v <= 7
    ensures r.Some? ==> LevelValue(r.value) == v
  {
    match v
    case 0 => Wrappers.Some(Level0)
    case 1 => Wrappers.Some(Level1)
    case 2 => Wrappers.Some(Level2)
    case 3 => Wrappers.Some(Level3)
    case 4 => Wrappers.Some(Level4)
    case 5 => Wrappers.Some(Level5)
    case 6 => Wrappers.Some(Level6)
    case 7 => Wrappers.Some(Level7)
    case _ => Wrappers.None
  }

  /** The I/O scheduling class with its level where the class has one. */
  datatype IoPriority = None | Realtime(level: IoPriorityLevel) | BestEffort(level: IoPriorityLevel) | Idle

  /** `EncodedIoPriority`: class in bits 13 to 15, level in the low bits. */
  type EncodedIoPriority = u16

  const CLASS_SHIFT: int := 0x2000

  /** `e >> 13`. */
  function ClassBits(e: EncodedIoPriority): int
  {
    e / CLASS_SHIFT
  }

  /** `e as u8`. */
  function LowByte(e: EncodedIoPriority): u8
  {
    e % 0x100
  }

  /** `IoPriority::try_from`. */
  function PriorityTryFrom(e: EncodedIoPriority): (r: Wrappers.Option<IoPriority>)
    ensures ClassBits(e) >= 4 ==> r.None?
    ensures ClassBits(e) == 0 ==> r == Wrappers.Some(IoPriority.None)
    ensures ClassBits(e) == 3 ==> r == Wrappers.Some(Idle)
    ensures (ClassBits(e) == 1 || ClassBits(e) == 2) ==> (r.Some? <==> LowByte(e) <= 7)
    ensures r.Some? && (r.value.Realtime? || r.value.BestEffort?) ==> LevelValue(r.value.level) == LowByte(e)
  {
    match ClassBits(e)
    case 0 => Wrappers.Some(IoPriority.None)
    case 1 =>
      (match LevelTryFrom(LowByte(e))
       case Some(l) => Wrappers.Some(Realtime(l))
       case None => Wrappers.None)
    case 2 =>
      (match LevelTryFrom(LowByte(e))
       case Some(l) => Wrappers.Some(BestEffort(l))
       case None => Wrappers.None)
    case 3 => Wrappers.Some(Idle)
    case _ => Wrappers.None
  }

  /** `Into<EncodedIoPriority> for IoPriority`. */
  function PriorityEncode(p: IoPriority): (e: EncodedIoPriority)
    ensures PriorityTryFrom(e) == Wrappers.Some(p)
  {
    match p
    case None => 0 * CLASS_SHIFT
    case Realtime(l) => 1 * CLASS_SHIFT + LevelValue(l)
    case BestEffort(l) => 2 * CLASS_SHIFT + LevelValue(l)
    case Idle => 3 * CLASS_SHIFT
  }

  /** `IoPriority::default()`. */
  function DefaultPriority(): IoPriority
  {
    IoPriority.None
  }

  lemma DefaultPriorityEncodesToZero()
    ensures PriorityEncode(DefaultPriority()) == 0
    ensures PriorityTryFrom(0) == Wrappers.Some(DefaultPriority())
  {
  }

  /** Distinct priorities have distinct encodings. */
  lemma PriorityEncodeInjective(p: IoPriority, q: IoPriority)
    requires PriorityEncode(p) == PriorityEncode(q)
    ensures p == q
  {
    assert Wrappers.Some(p) == PriorityTryFrom(PriorityEncode(p)) == Wrappers.Some(q);
  }

  /** Decoding reads only the class bits and the low byte: bits 8 to 12
      never influence the result. */
  lemma PriorityDecodeIgnoresBits8To12(e: EncodedIoPriority, f: EncodedIoPriority)
    requires ClassBits(e) == ClassBits(f) && LowByte(e) == LowByte(f)
    ensures PriorityTryFrom(e) == PriorityTryFrom(f)
  {
  }

  /** Hence decoding is not injective: 0x2100 decodes like 0x2000 but is not
      an encoding of anything. */
  lemma PriorityDecodeNotInjective()
    ensures PriorityTryFrom(0x2100) == PriorityTryFrom(0x2000) == Wrappers.Some(Realtime(Level0))
    ensures forall p :: PriorityEncode(p) != 0x2100
  {
  }

  /* ---------------------------------------------------------------------- */
  /* Submission entries                                                     */
  /* ---------------------------------------------------------------------- */

  datatype FileDescriptor = FD(fd: i32) | Fixed(index: u32)

  /** A slice handed to the kernel by address: its address and its element
      count (`usize`, so possibly wider than the 32-bit `len` field). */
  datatype Slice = Slice(addr: u64, count: nat)

  /** The 64 bytes of an `io_uring_sqe`, field by field. `bufIndex` is the
      `extra.fixed.buf_index` member; `extraRest` stands for the other 22
      bytes of `extra`, which no builder writes. */
  datatype Sqe = Sqe(
    opcode: RawOperation, flags: SubmissionEntryFlags, ioprio: EncodedIoPriority,
    fd: i32, off: u64, addr: u64, len: u32, opFlags: bv32, userData: u64,
    bufIndex: u16, extraRest: nat)

  /** `core::mem::zeroed()`. */
  const ZeroSqe: Sqe := Sqe(RawOperation(0), 0, 0, 0, 0, 0, 0, 0, 0, 0, 0)

  /** What a builder may be asked to write: one variant per public builder
      (`NopCmd` is a cleared entry that no builder touched). */
  datatype Command =
    | NopCmd
    | ReadvCmd(prio: IoPriority, file: FileDescriptor, offset: u64, rwFlags: ReadWriteFlags, iov: Slice)
    | WritevCmd(prio: IoPriority, file: FileDescriptor, offset: u64, rwFlags: ReadWriteFlags, iov: Slice)
    | ReadFixedCmd(prio: IoPriority, file: FileDescriptor, offset: u64, rwFlags: ReadWriteFlags, index: u16, buf: Slice)
    | WriteFixedCmd(prio: IoPriority, file: FileDescriptor, offset: u64, rwFlags: ReadWriteFlags, index: u16, buf: Slice)
    | FsyncCmd(file: FileDescriptor, fsyncFlags: FsyncFlags, offset: u64, length: u32)
    | FsyncFullCmd(file: FileDescriptor, fsyncFlags: FsyncFlags)
    | PollAddCmd(file: FileDescriptor, pollFlags: PollFlags)
    | PollRemoveCmd(matchUserData: u64)

  /** The `flags` byte and `fd` field for a file descriptor. */
  function FdFlags(fd: FileDescriptor): SubmissionEntryFlags
  {
    if fd.Fixed? then 0 | FIXED_FILE else 0
  }

  function FdField(fd: FileDescriptor): i32
  {
    match fd
    case FD(n) => n
    case Fixed(index) => U32AsI32(index)
  }

  /** `slice.len() as u32`. */
  function SliceLen(s: Slice): u32
  {
    s.count % TWO_32
  }

  /** The entry each builder leaves behind, starting from `prior`. Fields a
      builder does not assign keep their value from `prior`. */
  function Encode(cmd: Command, prior: Sqe): (e: Sqe)
    ensures e.userData == prior.userData && e.extraRest == prior.extraRest
  {
    match cmd
    case NopCmd => prior
    case ReadvCmd(prio, fd, offset, rw, iov) => RwEntry(Readv, prio, fd, offset, rw, iov, 0, prior)
    case WritevCmd(prio, fd, offset, rw, iov) => RwEntry(Writev, prio, fd, offset, rw, iov, 0, prior)
    case ReadFixedCmd(prio, fd, offset, rw, index, buf) => RwEntry(ReadFixed, prio, fd, offset, rw, buf, index, prior)
    case WriteFixedCmd(prio, fd, offset, rw, index, buf) => RwEntry(WriteFixed, prio, fd, offset, rw, buf, index, prior)
    case FsyncCmd(fd, f, offset, length) => FsyncEntry(fd, f, offset, length, prior)
    case FsyncFullCmd(fd, f) => FsyncEntry(fd, f, 0, 0, prior)
    case PollAddCmd(fd, f) => PollAddEntry(fd, f, prior)
    case PollRemoveCmd(target) => PollRemoveEntry(target, prior)
  }

  /** The entry `iov` (index 0) or `io_fixed` leaves behind. */
  function RwEntry(op: Operation, prio: IoPriority, fd: FileDescriptor, offset: u64, rw: ReadWriteFlags,
                   buf: Slice, index: u16, prior: Sqe): Sqe
  {
    prior.(opcode := FromOperation(op), flags := FdFlags(fd), ioprio := PriorityEncode(prio),
           fd := FdField(fd), off := offset, addr := buf.addr, len := SliceLen(buf),
           opFlags := rw, bufIndex := index)
  }

  /** The entry `fsync` leaves behind. */
  function FsyncEntry(fd: FileDescriptor, f: FsyncFlags, offset: u64, length: u32, prior: Sqe): Sqe
  {
    prior.(opcode := FromOperation(Fsync), flags := FdFlags(fd), ioprio := 0,
           fd := FdField(fd), off := offset, addr := 0, len := length,
           opFlags := f, bufIndex := 0)
  }

  /** The entry `poll_add` leaves behind: the union member `poll_events`
      covers only the low 16 bits of the operation flags. The builder does
      not write the high 16 bits; the model keeps them as they were, which
      is zero in a slot `submit_with` has just cleared. */
  function PollAddEntry(fd: FileDescriptor, f: PollFlags, prior: Sqe): Sqe
  {
    prior.(opcode := FromOperation(PollAdd), flags := FdFlags(fd), ioprio := 0,
           fd := FdField(fd), off := 0, addr := 0, len := 0,
           opFlags := (prior.opFlags & 0xFFFF_0000) | (f as bv32), bufIndex := 0)
  }

  /** The entry `poll_remove` leaves behind. */
  function PollRemoveEntry(target: u64, prior: Sqe): Sqe
  {
    prior.(opcode := FromOperation(PollRemove), flags := 0, ioprio := 0,
           fd := 0, off := 0, addr := target, len := 0,
           opFlags := 0, bufIndex := 0)
  }

  /** How the kernel reads the file of an entry. */
  function FileOf(e: Sqe): FileDescriptor
  {
    if e.flags & FIXED_FILE != 0 then Fixed(I32AsU32(e.fd)) else FD(e.fd)
  }

  /** The request the kernel reads out of an entry, if it is well formed. */
  function Decode(e: Sqe): Wrappers.Option<Command>
  {
    match e.opcode.Decode()
    case None => Wrappers.None
    case Some(op) =>
      match op
      case Nop => Wrappers.Some(NopCmd)
      case Readv =>
        (match PriorityTryFrom(e.ioprio)
         case Some(p) => Wrappers.Some(ReadvCmd(p, FileOf(e), e.off, e.opFlags, Slice(e.addr, e.len)))
         case None => Wrappers.None)
      case Writev =>
        (match PriorityTryFrom(e.ioprio)
         case Some(p) => Wrappers.Some(WritevCmd(p, FileOf(e), e.off, e.opFlags, Slice(e.addr, e.len)))
         case None => Wrappers.None)
      case ReadFixed =>
        (match PriorityTryFrom(e.ioprio)
         case Some(p) => Wrappers.Some(ReadFixedCmd(p, FileOf(e), e.off, e.opFlags, e.bufIndex, Slice(e.addr, e.len)))
         case None => Wrappers.None)
      case WriteFixed =>
        (match PriorityTryFrom(e.ioprio)
         case Some(p) => Wrappers.Some(WriteFixedCmd(p, FileOf(e), e.off, e.opFlags, e.bufIndex, Slice(e.addr, e.len)))
         case None => Wrappers.None)
      case Fsync => Wrappers.Some(FsyncCmd(FileOf(e), e.opFlags, e.off, e.len))
      case PollAdd => Wrappers.Some(PollAddCmd(FileOf(e), (e.opFlags & 0xFFFF) as bv16))
      case PollRemove => Wrappers.Some(PollRemoveCmd(e.addr))
  }

  /** The command as the kernel gets it back: slice lengths truncated to
      32 bits and `fsync_full` spelled as the `fsync` it delegates to. */
  function Normalize(cmd: Command): Command
  {
    match cmd
    case ReadvCmd(p, fd, o, f, s) => ReadvCmd(p, fd, o, f, Slice(s.addr, SliceLen(s)))
    case WritevCmd(p, fd, o, f, s) => WritevCmd(p, fd, o, f, Slice(s.addr, SliceLen(s)))
    case ReadFixedCmd(p, fd, o, f, i, s) => ReadFixedCmd(p, fd, o, f, i, Slice(s.addr, SliceLen(s)))
    case WriteFixedCmd(p, fd, o, f, i, s) => WriteFixedCmd(p, fd, o, f, i, Slice(s.addr, SliceLen(s)))
    case FsyncFullCmd(fd, f) => FsyncCmd(fd, f, 0, 0)
    case _ => cmd
  }

  lemma FileRoundTrip(fd: FileDescriptor, e: Sqe)
    requires e.flags == FdFlags(fd) && e.fd == FdField(fd)
    ensures FileOf(e) == fd
  {
    if fd.Fixed? {
      ReinterpretRoundTrip(fd.index);
    }
  }

  /** Every field the kernel reads back from a read or write entry is the
      one the builder was given. */
  lemma RwEntryFields(op: Operation, prio: IoPriority, fd: FileDescriptor, offset: u64, rw: ReadWriteFlags,
                      buf: Slice, index: u16, prior: Sqe)
    ensures var e := RwEntry(op, prio, fd, offset, rw, buf, index, prior);
      e.opcode.Decode() == Wrappers.Some(op) && PriorityTryFrom(e.ioprio) == Wrappers.Some(prio) &&
      FileOf(e) == fd && e.off == offset && e.opFlags == rw && e.bufIndex == index &&
      Slice(e.addr, e.len) == Slice(buf.addr, SliceLen(buf))
  {
    FileRoundTrip(fd, RwEntry(op, prio, fd, offset, rw, buf, index, prior));
  }

  /** `poll_add` keeps the high half of the flag word, and the kernel reads
      the events back from the low half. */
  lemma PollEventsLowHalf(prior: bv32, f: PollFlags)
    ensures (((prior & 0xFFFF_0000) | (f as bv32)) & 0xFFFF) as bv16 == f
  {
  }

  /** The round trip for the four read and write builders. */
  lemma RwRoundTrip(cmd: Command, prior: Sqe)
    requires cmd.ReadvCmd? || cmd.WritevCmd? || cmd.ReadFixedCmd? || cmd.WriteFixedCmd?
    ensures Decode(Encode(cmd, prior)) == Wrappers.Some(Normalize(cmd))
  {
    match cmd
    case ReadvCmd(p, fd, o, f, s) => RwEntryFields(Readv, p, fd, o, f, s, 0, prior);
    case WritevCmd(p, fd, o, f, s) => RwEntryFields(Writev, p, fd, o, f, s, 0, prior);
    case ReadFixedCmd(p, fd, o, f, i, s) => RwEntryFields(ReadFixed, p, fd, o, f, s, i, prior);
    case WriteFixedCmd(p, fd, o, f, i, s) => RwEntryFields(WriteFixed, p, fd, o, f, s, i, prior);
  }

  /** The round trip for `fsync`, `fsync_full` and `poll_add`. */
  lemma FileRoundTripCmd(cmd: Command, prior: Sqe)
    requires cmd.FsyncCmd? || cmd.FsyncFullCmd? || cmd.PollAddCmd?
    ensures Decode(Encode(cmd, prior)) == Wrappers.Some(Normalize(cmd))
  {
    match cmd
    case FsyncCmd(fd, f, o, l) => FileRoundTrip(fd, FsyncEntry(fd, f, o, l, prior));
    case FsyncFullCmd(fd, f) => FileRoundTrip(fd, FsyncEntry(fd, f, 0, 0, prior));
    case PollAddCmd(fd, f) =>
      FileRoundTrip(fd, PollAddEntry(fd, f, prior));
      PollEventsLowHalf(prior.opFlags, f);
  }

  /** Round trip: whatever the entry held before, the kernel reads back the
      command a builder wrote (up to the truncation of slice lengths). */
  lemma EncodeThenDecode(cmd: Command, prior: Sqe)
    requires cmd != NopCmd || prior.opcode == RawOperation(0)
    ensures Decode(Encode(cmd, prior)) == Wrappers.Some(Normalize(cmd))
  {
    if cmd.ReadvCmd? || cmd.WritevCmd? || cmd.ReadFixedCmd? || cmd.WriteFixedCmd? {
      RwRoundTrip(cmd, prior);
    } else if cmd.FsyncCmd? || cmd.FsyncFullCmd? || cmd.PollAddCmd? {
      FileRoundTripCmd(cmd, prior);
    }
  }

  /** Hence two builder calls the kernel can tell apart write different
      entries. */
  lemma EncodeInjective(a: Command, b: Command, prior: Sqe)
    requires a != NopCmd && b != NopCmd
    requires Encode(a, prior) == Encode(b, prior)
    ensures Normalize(a) == Normalize(b)
  {
    EncodeThenDecode(a, prior);
    EncodeThenDecode(b, prior);
  }

  /** Every builder with a file descriptor sets FIXED_FILE exactly for a
      fixed file, and stores a fixed index reinterpreted as `i32`. */
  lemma FixedFileFlag(cmd: Command, prior: Sqe)
    requires cmd.ReadvCmd? || cmd.WritevCmd? || cmd.ReadFixedCmd? || cmd.WriteFixedCmd?
          || cmd.FsyncCmd? || cmd.FsyncFullCmd? || cmd.PollAddCmd?
    ensures Encode(cmd, prior).flags & FIXED_FILE != 0 <==> cmd.file.Fixed?
    ensures Encode(cmd, prior).flags == (if cmd.file.Fixed? then FIXED_FILE else 0)
    ensures cmd.file.FD? ==> Encode(cmd, prior).fd == cmd.file.fd
    ensures cmd.file.Fixed? ==> Encode(cmd, prior).fd == U32AsI32(cmd.file.index)
  {
  }

  /** `fsync_full(fd, f)` is `fsync(fd, f, 0, 0)`; fsync clears the priority
      and the address. */
  lemma FsyncFullIsFsync(fd: FileDescriptor, f: FsyncFlags, offset: u64, length: u32, prior: Sqe)
    ensures Encode(FsyncFullCmd(fd, f), prior) == Encode(FsyncCmd(fd, f, 0, 0), prior)
    ensures Encode(FsyncCmd(fd, f, offset, length), prior).ioprio == 0
    ensures Encode(FsyncCmd(fd, f, offset, length), prior).addr == 0
  {
  }

  /** The vectored builders store index 0, the fixed-buffer builders the
      given index. */
  lemma BufferIndex(cmd: Command, prior: Sqe)
    requires cmd.ReadvCmd? || cmd.WritevCmd? || cmd.ReadFixedCmd? || cmd.WriteFixedCmd?
    ensures Encode(cmd, prior).bufIndex == (if cmd.ReadvCmd? || cmd.WritevCmd? then 0 else cmd.index)
  {
  }

  /** The entry as it sits in the mmap'd array of submission entries. */
  class SubmissionEntry {
    var opcode: RawOperation
    var flags: SubmissionEntryFlags
    var ioprio: EncodedIoPriority
    var fd: i32
    var off: u64
    var addr: u64
    var len: u32
    var opFlags: bv32
    var userData: u64
    var bufIndex: u16
    var extraRest: nat

    function View(): Sqe
      reads this
    {
      Sqe(opcode, flags, ioprio, fd, off, addr, len, opFlags, userData, bufIndex, extraRest)
    }

    /** Fresh pages from the kernel are zero. */
    constructor ()
      ensures View() == ZeroSqe
    {
      opcode, flags, ioprio, fd, off, addr, len := RawOperation(0), 0, 0, 0, 0, 0, 0;
      opFlags, userData, bufIndex, extraRest := 0, 0, 0, 0;
    }

    /** `clear`. */
    method Clear()
      modifies this
      ensures View() == ZeroSqe
    {
      opcode, flags, ioprio, fd, off, addr, len := RawOperation(0), 0, 0, 0, 0, 0, 0;
      opFlags, userData, bufIndex, extraRest := 0, 0, 0, 0;
    }

    /** The `match fd` block every builder with a file descriptor repeats,
        after `self.flags = Default::default()`. */
    method SetFile(file: FileDescriptor)
      modifies this
      ensures View() == old(View()).(flags := FdFlags(file), fd := FdField(file))
    {
      flags := 0;
      match file
      case FD(n) =>
        fd := n;
      case Fixed(index) =>
        flags := flags | FIXED_FILE;
        fd := U32AsI32(index);
    }

    /** `iov`, shared by `readv` and `writev`. */
    method Iov(op: Operation, prio: IoPriority, file: FileDescriptor, offset: u64, rw: ReadWriteFlags, iov: Slice)
      requires op == Sys.Readv || op == Sys.Writev
      modifies this
      ensures View() == RwEntry(op, prio, file, offset, rw, iov, 0, old(View()))
    {
      opcode := FromOperation(op);
      ioprio := PriorityEncode(prio);
      SetFile(file);
      off := offset;
      addr := iov.addr;
      len := SliceLen(iov);
      opFlags := rw;
      bufIndex := 0;
    }

    method Readv(prio: IoPriority, file: FileDescriptor, offset: u64, rw: ReadWriteFlags, iov: Slice)
      modifies this
      ensures View() == Encode(ReadvCmd(prio, file, offset, rw, iov), old(View()))
    {
      Iov(Sys.Readv, prio, file, offset, rw, iov);
    }

    method Writev(prio: IoPriority, file: FileDescriptor, offset: u64, rw: ReadWriteFlags, iov: Slice)
      modifies this
      ensures View() == Encode(WritevCmd(prio, file, offset, rw, iov), old(View()))
    {
      Iov(Sys.Writev, prio, file, offset, rw, iov);
    }

    /** `io_fixed`, shared by `read_fixed` and `write_fixed`. */
    method IoFixed(op: Operation, prio: IoPriority, file: FileDescriptor, offset: u64, rw: ReadWriteFlags,
                   index: u16, buf: Slice)
      requires op == Sys.ReadFixed || op == Sys.WriteFixed
      modifies this
      ensures View() == RwEntry(op, prio, file, offset, rw, buf, index, old(View()))
    {
      opcode := FromOperation(op);
      ioprio := PriorityEncode(prio);
      SetFile(file);
      off := offset;
      addr := buf.addr;
      len := SliceLen(buf);
      opFlags := rw;
      bufIndex := index;
    }

    method ReadFixed(prio: IoPriority, file: FileDescriptor, offset: u64, rw: ReadWriteFlags, index: u16, buf: Slice)
      modifies this
      ensures View() == Encode(ReadFixedCmd(prio, file, offset, rw, index, buf), old(View()))
    {
      IoFixed(Sys.ReadFixed, prio, file, offset, rw, index, buf);
    }

    method WriteFixed(prio: IoPriority, file: FileDescriptor, offset: u64, rw: ReadWriteFlags, index: u16, buf: Slice)
      modifies this
      ensures View() == Encode(WriteFixedCmd(prio, file, offset, rw, index, buf), old(View()))
    {
      IoFixed(Sys.WriteFixed, prio, file, offset, rw, index, buf);
    }

    method FsyncFull(file: FileDescriptor, f: FsyncFlags)
      modifies this
      ensures View() == Encode(FsyncFullCmd(file, f), old(View()))
    {
      Fsync(file, f, 0, 0);
    }

    method Fsync(file: FileDescriptor, f: FsyncFlags, offset: u64, length: u32)
      modifies this
      ensures View() == FsyncEntry(file, f, offset, length, old(View()))
    {
      opcode := FromOperation(Sys.Fsync);
      ioprio := 0;
      SetFile(file);
      off := offset;
      addr := 0;
      len := length;
      opFlags := f;
      bufIndex := 0;
    }

    method PollAdd(file: FileDescriptor, f: PollFlags)
      modifies this
      ensures View() == PollAddEntry(file, f, old(View()))
    {
      opFlags := (opFlags & 0xFFFF_0000) | (f as bv32);
      opcode := FromOperation(Sys.PollAdd);
      ioprio := 0;
      SetFile(file);
      off := 0;
      addr := 0;
      len := 0;
      bufIndex := 0;
    }

    method PollRemove(matchUserData: u64)
      modifies this
      ensures View() == PollRemoveEntry(matchUserData, old(View()))
    {
      opcode := FromOperation(Sys.PollRemove);
      flags := 0;
      ioprio := 0;
      fd := 0;
      off := 0;
      addr := matchUserData;
      len := 0;
      opFlags := 0;
      bufIndex := 0;
    }

    /** Run the builder named by `cmd` (nothing for `NopCmd`). */
    method Build(cmd: Command)
      modifies this
      ensures View() == Encode(cmd, old(View()))
    {
      match cmd
      case NopCmd =>
      case ReadvCmd(p, fd, o, f, s) => Readv(p, fd, o, f, s);
      case WritevCmd(p, fd, o, f, s) => Writev(p, fd, o, f, s);
      case ReadFixedCmd(p, fd, o, f, i, s) => ReadFixed(p, fd, o, f, i, s);
      case WriteFixedCmd(p, fd, o, f, i, s) => WriteFixed(p, fd, o, f, i, s);
      case FsyncCmd(fd, f, o, l) => Fsync(fd, f, o, l);
      case FsyncFullCmd(fd, f) => FsyncFull(fd, f);
      case PollAddCmd(fd, f) => PollAdd(fd, f);
      case PollRemoveCmd(u) => PollRemove(u);
    }
  }
}
