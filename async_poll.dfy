// tokio-uring-reactor/src/reactor/async_poll.rs: a stream of readiness
// events of one file descriptor, one `IORING_OP_POLL_ADD` at a time.

module AsyncPoll {
  import opened Wrappers
  import opened MachineInt
  import opened Io
  import opened Sys
  import opened Registration
  import opened Reactor
  import SS = SysSubmission

  /** What the reactor's submission queue occupies, if the reactor lives. */
  ghost function QueueFrame(h: Handle): set<object>
  {
    if h.target.Some? then {h.target.value.sq, h.target.value.sq.kArray, h.target.value.sq.sces} + h.target.value.sq.Slots
    else {}
  }

  /** The entries the reactor has queued and not yet handed to the kernel,
      or nothing when the reactor is gone. */
  ghost function QueuedEntries(h: Handle): seq<SS.Sqe>
    reads QueueFrame(h)
  {
    if h.target.Some? && h.target.value.sq.Valid() then h.target.value.sq.Pending() else []
  }

  /** The item a finished poll yields: the OS error `-res`, or the events
      in the low 16 bits of `res` (`from_bits_truncate(res as u16)`). */
  function PollResult(r: UringResult): (p: Result<Async<Option<PollFlags>>, Error>)
  {
    if r.result < 0 then Err(Os(-(r.result as int)))
    else Ok(Ready(Some(PollFlagsFromBitsTruncate((r.result % 0x1_0000) as bv16))))
  }

  /** The error branch as the source writes it: the negative `res` is
      passed to `from_raw_os_error` unchanged. */
  function PollErrorAsWritten(r: UringResult): (e: Error)
    requires r.result < 0
  {
    Os(r.result as int)
  }

  /** A failed poll reports the positive error number the kernel negated,
      so its kind is the kind of that errno; a successful one never ends
      the stream. */
  lemma PollResultMeaning(r: UringResult)
    ensures PollResult(r).Err? <==> r.result < 0
    ensures PollResult(r).Err? ==> PollResult(r).error.Os? && PollResult(r).error.code == -(r.result as int) > 0
    ensures r.result == -11 ==> Kind(PollResult(r).error) == WouldBlock
    ensures r.result == -4 ==> Kind(PollResult(r).error) == Interrupted
    ensures PollResult(r).Ok? ==> PollResult(r).value.Ready? && PollResult(r).value.value.Some?
  {
  }

  /** The item a finished poll yields as the source builds it: the raw OS
      error `res` itself, still negative, or the events `PollResult` gives. */
  function PollItem(r: UringResult): (p: Result<Async<Option<PollFlags>>, Error>)
    ensures p.Err? <==> PollResult(r).Err?
    ensures p.Ok? ==> p == PollResult(r)
    ensures p.Err? ==> p.error == Os(-PollResult(r).error.code) && Kind(p.error) == Other
  {
    if r.result < 0 then Err(PollErrorAsWritten(r)) else PollResult(r)
  }

  /** The source's error branch turns `EAGAIN` (res = -11) into the raw OS
      error -11, which is no errno and has no `WouldBlock` kind. */
  lemma PollErrorAsWrittenLosesKind()
    ensures PollItem(UringResult(-11, 0)) == Err(Os(-11))
    ensures Kind(PollItem(UringResult(-11, 0)).error) == Other
    ensures Kind(PollResult(UringResult(-11, 0)).error) == WouldBlock
  {
  }

  /** `AsyncPoll`: the registration is reused for every event; `active`
      says whether a poll request for it is in flight. */
  class AsyncPoll {
    const handle: Handle
    const fd: i32
    const flags: PollFlags
    const registration: Cell
    var active: bool

    ghost predicate Valid()
      reads this, registration
    {
      registration.strong >= 1
    }

    /** `AsyncPoll::new`: nothing is queued until the first poll. */
    constructor (h: Handle, f: i32, events: PollFlags, at: Address)
      ensures handle == h && fd == f && flags == events && !active
      ensures fresh(registration) && registration.address == at
      ensures registration.data == Some(NoData) && !registration.finished
      ensures registration.waker == Empty && registration.strong == 1
      ensures Valid()
    {
      handle := h;
      fd := f;
      flags := events;
      registration := new Cell(NoData, at);
      active := false;
    }

    /** What polling an inactive stream does, given the reference count,
        the queued entries and the waker before the call: a dead reactor
        or a full submission queue is an error that leaves the stream
        inactive and the count unchanged; otherwise one poll request for
        the registration's token joins the queue, the token holds one more
        reference, and the stream waits for it. */
    ghost predicate ArmedAs(strongBefore: nat, queuedBefore: seq<SS.Sqe>, current: Task, r: Result<Async<Option<PollFlags>>, Error>)
      reads this, registration, QueueFrame(handle)
    {
      if handle.target.None? then
        r == Err(DeadError()) && !active && registration.strong == strongBefore
      else if |queuedBefore| == handle.target.value.sq.entries then
        && r == Err(SqFullError()) && !active
        && QueuedEntries(handle) == queuedBefore && registration.strong == strongBefore
      else
        && r == Ok(NotReady) && active && registration.waker == Old(current)
        && QueuedEntries(handle) == queuedBefore + [PollRequest(fd, flags, registration.UserData())]
        && registration.strong == strongBefore + 1
    }

    /** The inactive half of `Stream::poll`: queue a poll request for the
        registration and wait for it. */
    method Arm(current: Task) returns (r: Result<Async<Option<PollFlags>>, Error>)
      requires Valid() && !active
      requires handle.target.Some? ==> handle.target.value.sq.Valid()
      modifies this`active, registration
      modifies if handle.target.Some? then handle.target.value.Footprint() else {}
      ensures Valid()
      ensures handle.target.Some? ==> handle.target.value.sq.Valid()
      ensures ArmedAs(old(registration.strong), old(QueuedEntries(handle)), current, r)
    {
      var im := InnerMut(handle);
      if im.Err? {
        return Err(im.error);
      }
      r := Submit(im.value, current);
    }

    /** `Arm` on a live reactor. */
    method Submit(inner: Inner, current: Task) returns (r: Result<Async<Option<PollFlags>>, Error>)
      requires Valid() && !active && handle.target == Some(inner) && inner.sq.Valid()
      modifies this`active, registration, inner.Footprint()
      ensures Valid() && inner.sq.Valid()
      ensures r.Err? <==> old(|inner.sq.Pending()|) == inner.sq.entries
      ensures r.Err? ==>
                && r == Err(SqFullError()) && !active
                && inner.sq.Pending() == old(inner.sq.Pending()) && registration.strong == old(registration.strong)
      ensures r.Ok? ==>
                && r == Ok(NotReady) && active && registration.waker == Old(current)
                && inner.sq.Pending() == old(inner.sq.Pending()) + [PollRequest(fd, flags, registration.UserData())]
                && registration.strong == old(registration.strong) + 1
    {
      registration.ToRaw();
      var queued := inner.QueueAsyncPoll(fd, flags, registration);
      if queued.Err? {
        return Err(queued.error);
      }
      active := true;
      registration.Track(current);
      return Ok(NotReady);
    }

    /** `Stream::poll`. An inactive stream queues a poll request and waits;
        a failure to do so (dead reactor, full submission queue) leaves it
        inactive, so the next poll tries again. An active stream waits for
        the completion, then yields its result once, with the error number
        as the kernel reports it, and becomes inactive. The stream never
        ends. */
    method Poll(current: Task) returns (r: Result<Async<Option<PollFlags>>, Error>)
      requires Valid()
      requires handle.target.Some? ==> handle.target.value.sq.Valid()
      modifies this`active, registration
      modifies if handle.target.Some? then handle.target.value.Footprint() else {}
      ensures Valid()
      ensures handle.target.Some? ==> handle.target.value.sq.Valid()
      ensures r != Ok(Ready(None))
      ensures !old(active) ==> ArmedAs(old(registration.strong), old(QueuedEntries(handle)), current, r)
      ensures old(active) && !old(registration.finished) ==>
                r == Ok(NotReady) && active && registration.waker == Old(current)
      ensures old(active) && old(registration.finished) ==>
                r == PollItem(old(registration.result)) && !active && !registration.finished
    {
      if !active {
        r := Arm(current);
        return;
      }
      var p := registration.PollStreamAndReset(current);
      match p {
        case NotReady =>
          r := Ok(NotReady);
        case Ready(res) =>
          active := false;
          r := PollItem(res);
      }
    }
  }
}
