# rust-io-uring in Dafny

A model of the core of rust-io-uring. The repository has four layers, and the
model follows each of them.

- **Kernel ABI** (`io-uring-sys`). This covers:
  - operation codes and their byte encoding;
  - the flag words, which never truncate bits;
  - `SetupParameters::new`;
  - the `#[repr(C)]` sizes of the shared structures;
  - the I/O-priority encoding (class in bits 13 to 15, level in the low byte);
  - the `SubmissionEntry` builders. They are methods on an entry object, and each one writes the 64-byte `io_uring_sqe` field by field.
- **Rings** (`io-uring`). The submission queue and the completion queue are classes over arrays, with free-running `u32` counters and a power-of-two mask.
  - The counters the kernel owns (`k_head` of the submission ring, `k_tail` of the completion ring) are fields that the methods standing for the kernel move. The ring invariant constrains them.
  - Each ring's contents are stated through a ghost `Pending()` sequence, oldest first. The methods are proved against it: FIFO order, the full and empty tests, no change on `QueueFull`, and occupancy never above `ring_entries`.
- **Registrations and the reactor** (`tokio-uring-reactor`).
  - A registration is a `Cell` object that stands for the `Rc<UnsafeCell<Inner>>` allocation. It has a strong count and an address, which is the `user_data` token.
  - `CompletionState::handle_completion` routes completions to registrations. `check_completions` drains the completion ring.
  - `park_inner` decides whether to block in `io_uring_enter`. It is specified by a pure decision function, `PlanPark`, whose properties are proved as lemmas.
  - The `queue_*` methods append one entry to the submission ring and count it in `active_wait`.
- **Futures and streams**:
  - `AsyncRead` and `AsyncWrite`: a Pending, InitFailed or Closed state.
  - `AsyncPoll`: an `active` flag that re-arms a one-shot poll.
  - `Incoming`: a `blocked` flag and the accept-retry loop.
  - The `Timeout` combinator of `echo-async`: a lazily created delay that loses to a ready inner future.

The model represents what the program reads from outside as inputs:

- the kernel's replies to `io_uring_enter` (a `KernelResponse`: an optional error and the completions posted);
- the unpark side's `pending()` and `allow_wait`;
- the clock and the timer's failure (`Observed`);
- the connections and errors `accept` will meet (`Listener.backlog`);
- the address of each registration's allocation (`Address`). The model assumes it is nonzero and 8-aligned, as the allocator gives for an `Rc<UnsafeCell<Inner>>`. That assumption is what makes the `assert!` of `Registration::user_data` (an even, nonzero token) hold.

Panics of the source (`assert!`, `panic!`, `unreachable!`, an overflowing `-=` in a debug build) are either preconditions or an explicit `Outcome.Panicked` result. The choice depends on whether a caller can reach them. The model follows a debug build and the code as written: `park_inner` reads the pending count with the checked subtraction, and the poll stream reports the error number unnegated. The corrected definitions sit beside them, as "## Findings" lists.

## Model

| member | source | states |
|---|---|---|
| Sys.RawOperation.Decode | io-uring-sys/src/lib.rs:304-319 | a byte decodes to no operation exactly when it is above 7, and otherwise to the operation whose discriminant it is |
| Sys.FromOperation | io-uring-sys/src/lib.rs:321-325 | the byte an operation converts to decodes back to that operation and is at most 7 |
| Sys.FromOperationInjective | io-uring-sys/src/lib.rs:285-294 | distinct operations have distinct opcode bytes |
| Sys.DecodeThenEncode | io-uring-sys/src/lib.rs:304-325 | every byte that decodes is the encoding of what it decodes to |
| Sys.EnterFlagsFromBitsTruncate | io-uring-sys/src/lib.rs:72-85 | with the hidden `_ALL = !0`, `from_bits_truncate` keeps every bit |
| Sys.SetupFlagsFromBitsTruncate | io-uring-sys/src/lib.rs:149-166 | `from_bits_truncate` keeps every bit |
| Sys.SubmissionQueueFlagsFromBitsTruncate | io-uring-sys/src/lib.rs:211-224 | `from_bits_truncate` keeps every bit |
| Sys.SubmissionEntryFlagsFromBitsTruncate | io-uring-sys/src/lib.rs:336-349 | `from_bits_truncate` keeps every bit of the byte |
| Sys.ReadWriteFlagsFromBitsTruncate | io-uring-sys/src/lib.rs:398-460 | `from_bits_truncate` keeps every bit |
| Sys.FsyncFlagsFromBitsTruncate | io-uring-sys/src/lib.rs:462-471 | `from_bits_truncate` keeps every bit |
| Sys.PollFlagsFromBitsTruncate | io-uring-sys/src/lib.rs:473-493 | `from_bits_truncate` keeps all 16 bits |
| Sys.SupportedIsLowFiveBits | io-uring-sys/src/lib.rs:408-454 | `ReadWriteFlags::SUPPORTED` is 0x1F, and it has no bit outside HIPRI, DSYNC, SYNC, NOWAIT and APPEND |
| Sys.NamedFlagsAreDistinctBits | io-uring-sys/src/lib.rs:72-85 | GETEVENTS, SQ_WAKEUP, IOPOLL, SQPOLL and SQ_AFF are single bits, pairwise disjoint within their type |
| Sys.NewParameters | io-uring-sys/src/lib.rs:140-145 | the parameters carry the given flags and are otherwise the all-zero default; they are the default exactly for empty flags |
| Sys.OperationFlagsSize | io-uring-sys/src/lib.rs:28 | the operation-flags union is 4 bytes, aligned to 4 |
| Sys.ExtraDataSize | io-uring-sys/src/lib.rs:29 | the extra-data union is 24 bytes, aligned to 8 |
| Sys.SubmissionEntryFieldsEnd | io-uring-sys/src/lib.rs:269-280 | laid out in order with C alignment, the entry's fields end at byte 64 |
| Sys.SubmissionEntrySize | io-uring-sys/src/lib.rs:27 | `size_of::<SubmissionEntry>()` is 64 |
| Sys.CompletionEntrySize | io-uring-sys/src/lib.rs:30 | `size_of::<CompletionEntry>()` is 16 |
| Sys.SubmissionQueueRingOffsetsSize | io-uring-sys/src/lib.rs:25 | `size_of::<SubmissionQueueRingOffsets>()` is 40 |
| Sys.CompletionQueueRingOffsetsSize | io-uring-sys/src/lib.rs:26 | `size_of::<CompletionQueueRingOffsets>()` is 40 |
| Sys.SetupParametersSize | io-uring-sys/src/lib.rs:24 | `size_of::<SetupParameters>()` is 120 |
| SysSubmission.LevelTryFrom | io-uring-sys/src/submission.rs:19-31 | a level exists exactly for values up to 7, and its discriminant is the value |
| SysSubmission.PriorityTryFrom | io-uring-sys/src/submission.rs:43-51 | classes 4 to 7 decode to nothing; 0 and 3 to None and Idle whatever the low bits; 1 and 2 decode exactly when the low byte is a level, which becomes the priority's level |
| SysSubmission.PriorityEncode | io-uring-sys/src/submission.rs:60-69 | decoding the encoding of any priority gives that priority back |
| SysSubmission.DefaultPriorityEncodesToZero | io-uring-sys/src/submission.rs:54-58 | the default priority encodes to 0, and 0 decodes to it |
| SysSubmission.PriorityEncodeInjective | io-uring-sys/src/submission.rs:60-69 | distinct priorities have distinct encodings |
| SysSubmission.PriorityDecodeIgnoresBits8To12 | io-uring-sys/src/submission.rs:44-50 | decoding depends only on the class bits and the low byte |
| SysSubmission.PriorityDecodeNotInjective | io-uring-sys/src/submission.rs:44-50 | 0x2100 decodes like 0x2000 although no priority encodes to 0x2100 |
| SysSubmission.Encode | io-uring-sys/src/submission.rs:86-206 | no builder touches `user_data` or the rest of the extra data |
| SysSubmission.RwEntryFields | io-uring-sys/src/submission.rs:86-134 | the vectored and fixed builders store the opcode, the priority's encoding, the file, the offset, the flags, the slice's address and length, and the buffer index |
| SysSubmission.RwRoundTrip | io-uring-sys/src/submission.rs:107-144 | the kernel reads back from a read or write entry the request that built it, with the slice length truncated to u32 |
| SysSubmission.FileRoundTripCmd | io-uring-sys/src/submission.rs:146-191 | the kernel reads back the `fsync`, `fsync_full` and `poll_add` requests that built the entry |
| SysSubmission.EncodeThenDecode | io-uring-sys/src/submission.rs:86-206 | whatever the entry held before, every builder writes an entry the kernel reads back as that request |
| SysSubmission.EncodeInjective | io-uring-sys/src/submission.rs:86-206 | requests the kernel can tell apart write different entries |
| SysSubmission.FixedFileFlag | io-uring-sys/src/submission.rs:90-96 | FIXED_FILE is set exactly for a fixed file; `fd` is the raw descriptor or the index cast to i32 |
| SysSubmission.FsyncFullIsFsync | io-uring-sys/src/submission.rs:146-170 | `fsync_full(fd, f)` writes what `fsync(fd, f, 0, 0)` writes; `fsync` stores priority 0 and address 0 |
| SysSubmission.BufferIndex | io-uring-sys/src/submission.rs:101-103 | the vectored builders store buffer index 0, the fixed ones the given index |
| SysSubmission.PollEventsLowHalf | io-uring-sys/src/submission.rs:187 | the poll events land in the low 16 bits of the flag word |
| SysSubmission.SubmissionEntry.Clear | io-uring-sys/src/submission.rs:80-84 | the entry is all zero afterwards |
| SysSubmission.SubmissionEntry.SetFile | io-uring-sys/src/submission.rs:90-96 | only the flags and `fd` change, to the file's |
| SysSubmission.SubmissionEntry.Iov | io-uring-sys/src/submission.rs:86-104 | the entry becomes the vectored read or write entry with buffer index 0 |
| SysSubmission.SubmissionEntry.Readv | io-uring-sys/src/submission.rs:107-109 | the entry becomes the encoding of the readv request |
| SysSubmission.SubmissionEntry.Writev | io-uring-sys/src/submission.rs:112-114 | the entry becomes the encoding of the writev request |
| SysSubmission.SubmissionEntry.IoFixed | io-uring-sys/src/submission.rs:116-134 | the entry becomes the fixed-buffer entry with the given index |
| SysSubmission.SubmissionEntry.ReadFixed | io-uring-sys/src/submission.rs:137-139 | the entry becomes the encoding of the read_fixed request |
| SysSubmission.SubmissionEntry.WriteFixed | io-uring-sys/src/submission.rs:142-144 | the entry becomes the encoding of the write_fixed request |
| SysSubmission.SubmissionEntry.FsyncFull | io-uring-sys/src/submission.rs:146-148 | the entry becomes the encoding of fsync_full |
| SysSubmission.SubmissionEntry.Fsync | io-uring-sys/src/submission.rs:152-170 | the entry becomes the fsync entry |
| SysSubmission.SubmissionEntry.PollAdd | io-uring-sys/src/submission.rs:173-191 | the entry becomes the poll_add entry, offset, address and length zero |
| SysSubmission.SubmissionEntry.PollRemove | io-uring-sys/src/submission.rs:194-206 | the entry becomes the poll_remove entry: fd 0, address the matched user data, flags 0 |
| SysSubmission.SubmissionEntry.Build | io-uring-sys/src/submission.rs:79-206 | running the builder a request names leaves that request's encoding |
| Ring.SameSlotIff | io-uring/src/lib.rs:143 | the masked xor of two counters is zero exactly when their distance is a multiple of the ring length |
| Ring.FullTest | io-uring/src/lib.rs:157-161 | on counters at most a ring apart, "not equal and same slot" holds exactly when they are a whole ring apart |
| Ring.SubmissionQueue.Occupancy | io-uring/src/lib.rs:157-161 | the published entries are among the pending ones, and at most `ring_entries` are pending |
| Ring.SubmissionQueue.constructor | io-uring/src/lib.rs:87-133 | the asserts are the precondition; the index array is the identity and the counters are the kernel's |
| Ring.IdentityArray | io-uring/src/lib.rs:115-118 | slot `i` of the index array holds `i` |
| Ring.SubmissionQueue.RefreshHead | io-uring/src/lib.rs:151-155 | the cached head becomes the kernel head and is returned; nothing pending changes |
| Ring.SubmissionQueue.Head | io-uring/src/lib.rs:140-149 | the kernel head is reloaded exactly when the cached head differs from the tail but names the same slot |
| Ring.SubmissionQueue.IsFull | io-uring/src/lib.rs:157-161 | full exactly when `ring_entries` entries are pending |
| Ring.SubmissionQueue.FillSlot | io-uring/src/lib.rs:221-223 | only the chosen slot changes, to the cleared entry the closure filled |
| Ring.SubmissionQueue.SubmitWith | io-uring/src/lib.rs:215-227 | QueueFull exactly on a full ring, which changes nothing; a fill error keeps the tail; success appends the filled entry and advances the tail by one, wrapping |
| Ring.SubmissionQueue.Stage | io-uring/src/lib.rs:220-226 | on a ring with room: the closure's error, or the entry appended |
| Ring.SubmissionQueue.Advance | io-uring/src/lib.rs:225 | the tail advances by one and the pending window grows by the slot it passes |
| Ring.SubmissionQueue.FlushTail | io-uring/src/lib.rs:135-138 | the kernel tail becomes the local tail, so every pending entry is published |
| Ring.SubmissionQueue.HasPendingSubmissions | io-uring/src/lib.rs:175-177 | true exactly when entries are pending |
| Ring.SubmissionQueue.PendingSubmissions | io-uring/src/lib.rs:179-181 | the number of entries the kernel has not consumed |
| Ring.SubmissionQueue.PendingSubmissionsChecked | io-uring/src/lib.rs:179-181 | the checked subtraction as written, which `park_inner` uses: it panics exactly when the tail is below the head, and otherwise agrees with the count |
| Ring.CheckedSub | io-uring/src/lib.rs:180 | a checked u32 subtraction returns exactly when it does not underflow, and then gives the distance |
| Ring.PendingSubmissionsOverflow | io-uring/src/lib.rs:179-181 | after the counters wrap, one pending entry makes the checked subtraction panic |
| Ring.SubmissionQueue.KernelConsume | io-uring/src/lib.rs:54-85 | the kernel takes the oldest published entries in order |
| Ring.CompletionQueue.Occupancy | io-uring/src/lib.rs:236-257 | the unread completions fit between the kernel's counters, at most `ring_entries` |
| Ring.CompletionQueue.constructor | io-uring/src/lib.rs:260-292 | the asserts are the precondition; the unread completions are the ring's window between the counters |
| Ring.CompletionQueue.RefreshTail | io-uring/src/lib.rs:298-301 | the cached tail becomes the kernel tail |
| Ring.CompletionQueue.IsEmpty | io-uring/src/lib.rs:303-310 | empty exactly when nothing is unread; the tail is reloaded only when the cached one has been reached |
| Ring.CompletionQueue.Next | io-uring/src/lib.rs:331-338 | None on an empty ring; otherwise the oldest completion, with the head advanced by one, so completions come out in FIFO order |
| Ring.CompletionQueue.FlushHead | io-uring/src/lib.rs:294-296 | the kernel head becomes the local head, releasing what was read |
| Ring.CompletionQueue.KernelPost | io-uring/src/lib.rs:236-257 | the kernel appends a completion when the ring has room, and counts an overflow otherwise |
| Ring.CompletionQueue.KernelPostAll | io-uring/src/lib.rs:236-257 | completions posted into room are appended in order |
| Registration.Cell.constructor | tokio-uring-reactor/src/registration.rs:93-102 | a fresh unfinished cell that owns the data, with no waker and one reference |
| Registration.Cell.NotifyWaker | tokio-uring-reactor/src/registration.rs:21-28 | the waker is emptied, and the task it held, if any, is woken |
| Registration.Cell.Notify | tokio-uring-reactor/src/registration.rs:65-72 | on an unfinished cell: finished, holding the result, waker emptied and its task woken |
| Registration.Cell.Track | tokio-uring-reactor/src/registration.rs:104-108 | the waker becomes the current task |
| Registration.Cell.Poll | tokio-uring-reactor/src/registration.rs:117-132 | without data: NotReady; finished: the result and the data, taken out, so it happens once; otherwise NotReady with the task registered and the data kept |
| Registration.Cell.PollStreamAndReset | tokio-uring-reactor/src/registration.rs:179-189 | finished: the result, and the cell is reset to unfinished; otherwise NotReady with the task registered |
| Registration.Cell.UserData | tokio-uring-reactor/src/registration.rs:156-160 | the token is nonzero and even |
| Registration.Cell.ToRaw | tokio-uring-reactor/src/registration.rs:162-167 | one more reference |
| Registration.Cell.DropRaw | tokio-uring-reactor/src/registration.rs:60-62 | one reference fewer |
| Registration.Cell.IntoUserData | tokio-uring-reactor/src/registration.rs:74-78 | the token is the cell's, nonzero and even |
| Registration.Cell.Abort | tokio-uring-reactor/src/registration.rs:152-154 | the sole owner gets the data back and frees the cell; any other owner gets nothing and drops one reference |
| Registration.NewPinned | tokio-uring-reactor/src/reactor/async_read.rs:84-90 | a fresh cell whose context's `iovec` describes its own buffer |
| Registration.FromUserData | tokio-uring-reactor/src/registration.rs:80-84 | the cell a live token names has that token |
| Registration.UserDataRoundTrip | tokio-uring-reactor/src/registration.rs:74-84 | `from_user_data(into_user_data(r))` is `r` again |
| Registration.UserDataInjective | tokio-uring-reactor/src/registration.rs:156-160 | distinct live cells have distinct tokens |
| Reactor.SqFullError | tokio-uring-reactor/src/reactor.rs:42-44 | a full submission queue becomes an error of kind Other |
| Reactor.InnerMut | tokio-uring-reactor/src/reactor.rs:409-415 | the reactor exactly when the handle's target lives; otherwise the "reactor dead" error of kind Other |
| Reactor.CompletionState.constructor | tokio-uring-reactor/src/reactor.rs:68-76 | both wakeups need queueing, the timer is not pending, and nothing is in flight |
| Reactor.CompletionState.HandleCompletion | tokio-uring-reactor/src/reactor.rs:78-102 | 0 changes nothing; any other value decrements `active_wait` (and panics at 0); an even value notifies its registration, which panics if it already finished; TIMER sets both timer flags; PARK sets `requeue_park`; any other odd value panics |
| Reactor.CompletionState.Dispatch | tokio-uring-reactor/src/reactor.rs:140-145 | one completion of a batch is delivered, and `active_wait` drops by one unless the token is 0 |
| Reactor.WaitedStep | tokio-uring-reactor/src/reactor.rs:79-83 | each completion with a nonzero token counts once against `active_wait` |
| Reactor.Inner.CheckCompletions | tokio-uring-reactor/src/reactor.rs:134-149 | "received" exactly when a completion was unread; all unread completions are delivered in ring order, the ring is drained and released, and `active_wait` drops by the nonzero tokens among them |
| Reactor.LaterDeliverable | tokio-uring-reactor/src/reactor.rs:134-149 | after a batch, the later completions can still be delivered |
| Reactor.PlanPark | tokio-uring-reactor/src/reactor.rs:151-204 | a wakeup is requeued only while waiting is on and its flag is set; it waits only if the caller asked to and `allow_wait` holds |
| Reactor.PlanWaitsExactly | tokio-uring-reactor/src/reactor.rs:151-204 | it blocks exactly when asked to wait, nothing completed, no unpark is pending, `allow_wait` holds, and the ring has room for every wakeup to requeue |
| Reactor.PlanBlocksOnlyArmed | tokio-uring-reactor/src/reactor.rs:179-196 | it never blocks while a set requeue flag has not had its request queued |
| Reactor.PlanFailedRequeueNoWait | tokio-uring-reactor/src/reactor.rs:180-192 | a requeue that did not fit rules out waiting, and the park read is not tried after the timer poll failed |
| Reactor.PlanAllowWait | tokio-uring-reactor/src/reactor.rs:201-204 | `allow_wait` only turns waiting off, after the requeues |
| Reactor.EnterArgs | tokio-uring-reactor/src/reactor.rs:211-224 | `io_uring_enter` gets the pending count, with min_complete 1 and GETEVENTS when waiting, and 0 and no flags otherwise |
| Reactor.WakeupRequests | tokio-uring-reactor/src/reactor.rs:179-196 | the ring gains one entry per wakeup request queued |
| Reactor.Inner.constructor | tokio-uring-reactor/src/reactor.rs:116-126 | a fresh completion state and a disarmed timer over the given rings |
| Reactor.Inner.Submit | tokio-uring-reactor/src/reactor.rs:245-257 | one request through `submit_with`, with the tail published; it succeeds exactly when the ring has room, and then appends the entry and counts it in `active_wait` |
| Reactor.Inner.QueueTimerPoll | tokio-uring-reactor/src/reactor.rs:245-257 | a poll on the timerfd under TIMER is appended and counted exactly when the ring has room; otherwise nothing changes |
| Reactor.Inner.QueueParkRead | tokio-uring-reactor/src/reactor.rs:259-285 | a poll on the park descriptor under PARK is appended and counted exactly when the ring has room; otherwise nothing changes |
| Reactor.Inner.QueueAsync | tokio-uring-reactor/src/reactor.rs:287-336 | the request under the registration's token is appended and counted, and the reference moves into the token; on a full ring, the queue-full error and the reference dropped |
| Reactor.Inner.QueueAsyncRead | tokio-uring-reactor/src/reactor.rs:287-303 | a readv under the token is appended and counted exactly when the ring has room; otherwise the queue-full error and one reference fewer |
| Reactor.Inner.QueueAsyncWrite | tokio-uring-reactor/src/reactor.rs:305-321 | the same for writev |
| Reactor.Inner.QueueAsyncPoll | tokio-uring-reactor/src/reactor.rs:323-336 | the same for a one-shot poll |
| Reactor.Inner.Step | tokio-uring-reactor/src/reactor.rs:137-146 | one turn of the drain loop, which ends exactly when the batch is exhausted |
| Reactor.Inner.ArmTimer | tokio-uring-reactor/src/reactor.rs:164-177 | a timeout arms the timer one-shot; without one, a timer that fired is disarmed; either way the timer is no longer pending |
| Reactor.Inner.RequeueTimer | tokio-uring-reactor/src/reactor.rs:179-186 | the timer poll is tried exactly when its flag is set; the flag clears only on success, and a failure turns waiting off |
| Reactor.Inner.RequeuePark | tokio-uring-reactor/src/reactor.rs:189-196 | the park read is tried exactly while waiting with its flag set; the flag clears only on success, and a failure turns waiting off |
| Reactor.Inner.RequeueWakeups | tokio-uring-reactor/src/reactor.rs:179-196 | both requeues follow `PlanPark`, with the entries and `active_wait` grown by what was queued |
| Reactor.Inner.Decide | tokio-uring-reactor/src/reactor.rs:152-196 | `wait` becomes what `PlanPark` says, the timer is set up and the wakeups queued; a zero timeout while waiting is the debug assertion's failure |
| Reactor.Inner.Prepare | tokio-uring-reactor/src/reactor.rs:152-204 | waiting with a zero timeout is the `debug_assert!` panic; otherwise as `Settle` |
| Reactor.Inner.Settle | tokio-uring-reactor/src/reactor.rs:163-204 | `wait` follows `PlanPark`, `allow_wait` included, and the timer is set up; the pending count panics exactly when the tail has wrapped below the head, and otherwise counts every pending entry, the queued wakeups included |
| Reactor.Inner.CountPending | tokio-uring-reactor/src/reactor.rs:198-204 | the checked count of `pending_submissions`: a panic exactly when the tail is below the head, else the number of pending entries; `allow_wait` only turns waiting off; the ring is unchanged |
| Reactor.Inner.Begin | tokio-uring-reactor/src/reactor.rs:151-204 | completions are handled first, then `wait` and the pending count follow `PlanPark` |
| Reactor.Inner.KernelSubmit | tokio-uring-reactor/src/reactor.rs:224 | the kernel consumes published submissions oldest first |
| Reactor.Inner.DeliverPosted | tokio-uring-reactor/src/reactor.rs:224-227 | completions the kernel posts are all delivered |
| Reactor.Inner.Enter | tokio-uring-reactor/src/reactor.rs:224-227 | a failing `io_uring_enter` is the error; otherwise the completions it posted are delivered |
| Reactor.Inner.ParkInner | tokio-uring-reactor/src/reactor.rs:151-230 | `io_uring_enter` is skipped exactly when nothing is pending and it will not wait; otherwise it is called with the arguments `EnterArgs` gives for the decision of `PlanPark`; its error is returned |
| Reactor.Inner.Park | tokio-uring-reactor/src/reactor.rs:232-234 | it blocks only when no unpark is pending and waiting is allowed |
| Reactor.Inner.ParkTimeout | tokio-uring-reactor/src/reactor.rs:236-243 | a zero duration never blocks; a blocking call has the timer armed for the duration |
| Reactor.ResultOf | tokio-uring-reactor/src/reactor.rs:140-143 | the registration receives the completion's result and flags |
| Reactor.Request | tokio-uring-reactor/src/reactor.rs:245-336 | every request the reactor queues carries its token as user data |
| AsyncRead.IntoIoError | tokio-uring-reactor/src/reactor/async_read.rs:25-29 | only the error is kept |
| AsyncRead.WithError | tokio-uring-reactor/src/reactor/async_read.rs:37-45 | the error with the context's buffer and file |
| AsyncRead.CompletedReturnsBuffer | tokio-uring-reactor/src/reactor/async_read.rs:117-122 | success exactly for a non-negative result, which is the byte count; the buffer and the file come back either way; a failure is the positive OS error `-res` |
| AsyncRead.CompletedErrorKind | tokio-uring-reactor/src/reactor/async_read.rs:119 | -11 reads as WouldBlock and -4 as Interrupted |
| AsyncRead.AsyncRead.Poll | tokio-uring-reactor/src/reactor/async_read.rs:112-136 | NotReady while in flight, with the state, data, count, result and `finished` kept and the polling task registered as waker when the data is still there; a finished read resolves once, closes and drops one reference; InitFailed returns its error once and closes; Closed panics |
| AsyncRead.StartRead | tokio-uring-reactor/src/reactor/async_read.rs:84-98 | InitFailed with the queue-full error, buffer and file exactly when the ring is full, with nothing queued; otherwise Pending on a fresh registration whose readv is queued under its token |
| AsyncRead.NewAsyncRead | tokio-uring-reactor/src/reactor/async_read.rs:66-99 | a dead reactor gives InitFailed with the buffer and the file; otherwise as `StartRead` |
| AsyncWrite.IntoIoError | tokio-uring-reactor/src/reactor/async_write.rs:25-29 | only the error is kept |
| AsyncWrite.WithError | tokio-uring-reactor/src/reactor/async_write.rs:37-45 | the error with the context's buffer and file |
| AsyncWrite.CompletedReturnsBuffer | tokio-uring-reactor/src/reactor/async_write.rs:117-122 | success exactly for a non-negative result, which is the byte count; the buffer and the file come back either way; a failure is the positive OS error `-res` |
| AsyncWrite.CompletedErrorKind | tokio-uring-reactor/src/reactor/async_write.rs:119 | -11 reads as WouldBlock and -4 as Interrupted |
| AsyncWrite.AsyncWrite.Poll | tokio-uring-reactor/src/reactor/async_write.rs:112-136 | NotReady while in flight, with the state, data, count, result and `finished` kept and the polling task registered as waker when the data is still there; a finished write resolves once, closes and drops one reference; InitFailed returns its error once and closes; Closed panics |
| AsyncWrite.StartWrite | tokio-uring-reactor/src/reactor/async_write.rs:84-98 | InitFailed with the queue-full error, buffer and file exactly when the ring is full; otherwise Pending with its writev queued |
| AsyncWrite.NewAsyncWrite | tokio-uring-reactor/src/reactor/async_write.rs:66-99 | a dead reactor gives InitFailed with the buffer and the file; otherwise as `StartWrite` |
| Io.Resolved | tokio-uring-reactor/src/reactor/async_read.rs:118-122 | a result becomes a resolved poll: `Ok(v)` is `Ok(Ready(v))` and an error stays an error |
| AsyncPoll.PollResultMeaning | tokio-uring-reactor/src/reactor/async_poll.rs:56-60 | an error exactly for a negative result, the positive errno `-res` (so -11 is WouldBlock and -4 Interrupted); otherwise `Ready(Some(flags))` |
| AsyncPoll.PollItem | tokio-uring-reactor/src/reactor/async_poll.rs:56-60 | the item as written: an error exactly when `PollResult` gives one, but with the raw negative `res` as OS error, whose kind is always Other; otherwise the same events |
| AsyncPoll.PollErrorAsWrittenLosesKind | tokio-uring-reactor/src/reactor/async_poll.rs:56-57 | as written, res = -11 becomes OS error -11 of kind Other instead of WouldBlock |
| AsyncPoll.AsyncPoll.constructor | tokio-uring-reactor/src/reactor/async_poll.rs:26-36 | inactive, with a fresh data-less registration |
| AsyncPoll.AsyncPoll.Arm | tokio-uring-reactor/src/reactor/async_poll.rs:44-51 | a dead reactor or a full ring is an error that leaves the stream inactive; otherwise one poll request is queued under the token, the stream is active, and the task is tracked |
| AsyncPoll.AsyncPoll.Submit | tokio-uring-reactor/src/reactor/async_poll.rs:47-50 | on a live reactor: the queue-full error exactly on a full ring, with nothing queued; otherwise the request queued and NotReady |
| AsyncPoll.AsyncPoll.Poll | tokio-uring-reactor/src/reactor/async_poll.rs:43-63 | inactive: arm as `Arm` says; active and unfinished: NotReady with the task registered; finished: `PollItem` of the completion once, becoming inactive; never `Ready(None)` |
| Net.Listener.Accept | tokio-uring-reactor/src/net.rs:53 | the next connection or error the socket meets, or WouldBlock when none is waiting |
| Net.Incoming.constructor | tokio-uring-reactor/src/net.rs:21-28 | blocked, with an inactive poll stream for input on the listener |
| Net.Incoming.AwaitReadiness | tokio-uring-reactor/src/net.rs:69-76 | an event comes only from a completed poll request and leaves none in flight; never `Ready(None)` |
| Net.Incoming.Poll | tokio-uring-reactor/src/net.rs:50-79 | every accept result used before the last was Interrupted or WouldBlock; when not left blocked, the last is returned (a connection or another error); when left blocked, NotReady or the poll stream's error |
| EchoTimeout.IntoIoError | echo-async/src/timeout.rs:21-32 | Timeout becomes TimedOut "async operation timed out", an inner error stays itself, and a timer error has kind Other |
| EchoTimeout.TimedOutKind | echo-async/src/timeout.rs:21-32 | the converted error is TimedOut exactly for a timeout or an inner TimedOut error |
| EchoTimeout.PollDelay | echo-async/src/timeout.rs:65-68 | the delay is ready exactly when the timer fails or the deadline has come |
| EchoTimeout.MapInner | echo-async/src/timeout.rs:73 | `map_err(TimeoutError::Inner)` |
| EchoTimeout.StepMeaning | echo-async/src/timeout.rs:56-76 | a ready inner future wins even past the deadline and drops the delay; a pending one keeps its delay or starts one `timeout` after now; Timeout only at or past the deadline |
| EchoTimeout.Run | echo-async/src/timeout.rs:56-76 | one result per poll |
| EchoTimeout.RunOnDelay | echo-async/src/timeout.rs:61-64 | while the inner future stays pending, the delay is never recreated |
| EchoTimeout.TimesOutFromFirstPoll | echo-async/src/timeout.rs:56-76 | a pending inner future times out at exactly the polls `timeout` or more after the first poll, and is otherwise NotReady |
| EchoTimeout.TimeoutFuture.constructor | echo-async/src/timeout.rs:40-47 | no delay yet |
| EchoTimeout.TimeoutFuture.Poll | echo-async/src/timeout.rs:56-76 | the new delay and the result are one `Step` |

## Left out

- System calls: `io_uring_setup`, `io_uring_enter` and `io_uring_register`. Also `UringFile` and the `Uring` wrapper. `io_uring_enter` becomes a `KernelResponse` input. The kernel's side is the methods `KernelConsume`, `KernelPost` and `KernelPostAll`.
- Memory mapping (io-uring/src/mmap.rs). The rings are Dafny arrays and objects.
- Atomic orderings on the shared counters. The kernel's moves happen only through the kernel methods, between the program's own steps.
- The `flags()` and `dropped()` readers of the submission ring, and `overflow()` of the completion ring. The model does not use them.
- tokio-uring-reactor/src/unpark.rs. Its `pending()` and `allow_wait` become boolean inputs of `park_inner`. `clear_event` on a PARK completion is not modelled.
- timerfd handling. The timer is a `Disarmed`/`Oneshot` field, and a `Duration` is a natural number.
- `Reactor::new`, `init` and `Handle` cloning. A `Handle` is an optional reference to the reactor's `Inner`.
- `set_non_block` on the listener. The listener is modelled as already non-blocking.
- The `TcpStream` read and write impls. `net.rs` in the model is `incoming` and `Incoming::poll`.
- The `nightly-async` copies of every poll function.
- Debug impls and logging.
- `Box<dyn Any>` downcasts. The payload of a registration is `NoData` or an `IoContext` datatype.
- Sys.PollFlagsFromBitsTruncate: the model states that the 16 bits are kept. It does not prove `(res as u16) as int == res % 2^16` for the cast in the poll stream.
- Ring.SubmissionQueue.SubmitWith: the closure is a `Filler`, one builder call plus `user_data` and a result. Every closure the reactor passes has that shape; closures that write other fields or fill no entry are not modelled.
- Registration.Cell.Abort: the `expect("data")` panic on a sole owner without data is a precondition rather than a modelled panic.
- Reactor.Inner.ParkInner: the `check_completions` after `io_uring_enter` runs on the completions the kernel posts during the call. Completions that arrive at other times are not modelled.
- AsyncRead.NewAsyncRead: the `iovec` slice is given as its address `iovecAt`, not derived from the registration's memory.
- AsyncWrite.NewAsyncWrite: the same simplification of the `iovec` address applies.
- EchoTimeout.TimeoutFuture.Poll: the inner future, the clock and the timer are one `Observed` input per poll. Waker registration is not modelled.
- The echo-async and tokio-uring demo programs and tokio-uring/src/lib.rs are not part of this model.

## Findings

| source | as written | input that shows it | evidently intended | confidence | as-written member | corrected member |
|---|---|---|---|---|---|---|
| io-uring/src/lib.rs:179-181 | `local_tail - refresh_head()` is a plain u32 subtraction, which panics in a debug build when the tail has wrapped past 0 and the head has not | head = 0xFFFF_FFFF, tail = 0 (one pending entry after the counters wrap) | `local_tail.wrapping_sub(head)`, like every other counter operation on the ring | not executed | Ring.PendingSubmissionsOverflow | Ring.SubmissionQueue.PendingSubmissions |
| tokio-uring-reactor/src/reactor/async_poll.rs:56-57 | `from_raw_os_error(r.result)` receives the negative result | res = -11 (EAGAIN) gives OS error -11, of kind Other rather than WouldBlock | `from_raw_os_error(-r.result)`, as async_read.rs:119 and async_write.rs:119 do | not executed | AsyncPoll.PollErrorAsWrittenLosesKind | AsyncPoll.PollResultMeaning |
