// tokio-uring-reactor/src/reactor/async_read.rs: the future of one `readv`
// at an offset, which hands the buffer and the file back when it resolves.

module AsyncRead {
  import opened Wrappers
  import opened MachineInt
  import opened Io
  import opened Registration
  import opened Reactor
  import SS = SysSubmission

  /** `AsyncReadError`: the error, with the buffer and the file returned to
      the caller. */
  datatype AsyncReadError = AsyncReadError(error: Error, buffer: Buffer, file: File)

  /** `From<AsyncReadError> for io::Error`: drop the buffer and the file. */
  function IntoIoError(e: AsyncReadError): (r: Error)
    ensures r == e.error
  {
    e.error
  }

  /** `Context::with_error`. */
  function WithError(ctx: Payload, error: Error): (e: AsyncReadError)
    requires ctx.IoContext?
    ensures e.error == error && e.buffer == ctx.buffer && e.file == ctx.file
  {
    AsyncReadError(error, ctx.buffer, ctx.file)
  }

  /** The state of the future. */
  datatype State = Pending(reg: Cell) | InitFailed(err: AsyncReadError) | Closed

  /** What a finished read means: `res` bytes read, or the OS error `-res`
      with the buffer and the file. */
  function Completed(r: UringResult, ctx: Payload): (out: Result<(nat, Buffer, File), AsyncReadError>)
    requires ctx.IoContext?
  {
    if r.result < 0 then Err(WithError(ctx, Os(-(r.result as int))))
    else Ok((r.result, ctx.buffer, ctx.file))
  }

  /** Whatever the kernel answers, the caller gets the buffer and the file
      back; a failure carries a positive OS error number, and a success the
      byte count the kernel reported. */
  lemma CompletedReturnsBuffer(r: UringResult, ctx: Payload)
    requires ctx.IoContext?
    ensures Completed(r, ctx).Ok? <==> r.result >= 0
    ensures Completed(r, ctx).Ok? ==> Completed(r, ctx).value == (r.result as nat, ctx.buffer, ctx.file)
    ensures Completed(r, ctx).Err? ==>
              && Completed(r, ctx).error.buffer == ctx.buffer && Completed(r, ctx).error.file == ctx.file
              && Completed(r, ctx).error.error.Os? && Completed(r, ctx).error.error.code == -(r.result as int) > 0
  {
  }

  /** A would-block or interrupted read keeps the kind the kernel's error
      number has. */
  lemma CompletedErrorKind(r: UringResult, ctx: Payload)
    requires ctx.IoContext? && r.result < 0
    ensures r.result == -11 ==> Kind(IntoIoError(Completed(r, ctx).error)) == WouldBlock
    ensures r.result == -4 ==> Kind(IntoIoError(Completed(r, ctx).error)) == Interrupted
  {
  }

  /** `AsyncRead`: the future itself. */
  class AsyncRead {
    var state: State

    /** A pending read owns a registration that still holds a reference,
        and the data it will hand back is the read's context. */
    ghost predicate Valid()
      reads this, (if state.Pending? then {state.reg} else {})
    {
      state.Pending? ==> state.reg.strong >= 1 && (state.reg.data.Some? ==> state.reg.data.value.IoContext?)
    }

    constructor (s: State)
      ensures state == s
    {
      state := s;
    }

    /** `Future::poll`: report progress while the read is in flight, then
        resolve exactly once; the state becomes `Closed` as soon as it has
        resolved, which drops the future's reference to the registration,
        and polling a closed future panics. While the read is in flight the
        registration remembers the polling task, to be woken on completion. */
    method Poll(current: Task) returns (o: Outcome<Result<Async<(nat, Buffer, File)>, AsyncReadError>>)
      requires Valid()
      modifies this, (if state.Pending? then {state.reg} else {})
      ensures Valid()
      ensures old(state).Closed? ==> o == Panicked("already finished") && state == Closed
      ensures old(state).InitFailed? ==> o == Returned(Err(old(state).err)) && state == Closed
      ensures old(state).Pending? && old(state.reg.finished && state.reg.data.Some?) ==>
                && o == Returned(Resolved(Completed(old(state.reg.result), old(state.reg.data.value))))
                && state == Closed && old(state).reg.data == None
                && old(state).reg.strong == old(state.reg.strong) - 1
                && old(state).reg.waker == old(state.reg.waker)
      ensures old(state).Pending? && !old(state.reg.finished && state.reg.data.Some?) ==>
                && o == Returned(Ok(NotReady)) && state == old(state)
                && state.reg.data == old(state.reg.data) && state.reg.strong == old(state.reg.strong)
                && state.reg.finished == old(state.reg.finished) && state.reg.result == old(state.reg.result)
                && state.reg.waker == (if old(state.reg.data).Some? then Old(current) else old(state.reg.waker))
      ensures o.Returned? && o.value != Ok(NotReady) ==> state == Closed
    {
      match state
      case Pending(reg) =>
        var p := reg.Poll(current);
        match p {
          case NotReady =>
            o := Returned(Ok(NotReady));
          case Ready(rc) =>
            var (r, context) := rc;
            var result := Resolved(Completed(r, context));
            state := Closed;
            reg.DropRaw();
            o := Returned(result);
        }
      case InitFailed(e) =>
        state := Closed;
        o := Returned(Err(e));
      case Closed =>
        state := Closed;
        o := Panicked("already finished");
    }
  }

  /** The queueing half of `AsyncRead::new` on a live reactor: pin the
      buffer in a fresh registration at `at`, queue a `readv` of it at
      `offset` (`iovecAt` is where the registration's `iovec` lives) and,
      if the submission queue is full, abort the registration and keep the
      error with the buffer and the file. */
  method StartRead(inner: Inner, file: File, offset: u64, buffer: Buffer, at: Address, iovecAt: u64)
    returns (s: State)
    requires inner.sq.Valid()
    modifies inner.Footprint()
    ensures inner.sq.Valid()
    ensures s.Pending? || s.InitFailed?
    ensures s.InitFailed? <==> old(|inner.sq.Pending()|) == inner.sq.entries
    ensures s.InitFailed? ==>
              && s.err == AsyncReadError(SqFullError(), buffer, file)
              && inner.sq.Pending() == old(inner.sq.Pending())
              && inner.state.activeWait == old(inner.state.activeWait)
    ensures s.Pending? ==>
              && fresh(s.reg) && s.reg.data == Some(IoContext(buffer, buffer, file))
              && !s.reg.finished && s.reg.waker == Empty && s.reg.strong == 2
              && inner.sq.Pending() == old(inner.sq.Pending())
                   + [ReadRequest(file.fd, offset, SS.Slice(iovecAt, 1), s.reg.UserData())]
              && inner.state.activeWait == old(inner.state.activeWait) + 1
  {
    var context := IoContext(EmptyIovec, buffer, file);
    var reg := NewPinned(context, at);
    assert reg as object !in inner.Footprint();
    reg.ToRaw();
    var queued := inner.QueueAsyncRead(file.fd, offset, SS.Slice(iovecAt, 1), reg);
    if queued.Err? {
      var d := reg.Abort();
      return InitFailed(WithError(d.value, queued.error));
    }
    s := Pending(reg);
  }

  /** `AsyncRead::new` (through `Handle::async_read`): a dead reactor
      leaves the future failed with the buffer and the file to hand back;
      otherwise the read is queued as `StartRead` says. */
  method NewAsyncRead(handle: Handle, file: File, offset: u64, buffer: Buffer, at: Address, iovecAt: u64)
    returns (f: AsyncRead)
    requires handle.target.Some? ==> handle.target.value.sq.Valid()
    modifies if handle.target.Some? then handle.target.value.Footprint() else {}
    ensures fresh(f) && f.Valid()
    ensures handle.target.None? ==> f.state == InitFailed(AsyncReadError(DeadError(), buffer, file))
    ensures handle.target.Some? ==>
              var inner := handle.target.value;
              && inner.sq.Valid()
              && (f.state.InitFailed? <==> old(|inner.sq.Pending()|) == inner.sq.entries)
              && (f.state.InitFailed? ==>
                    && f.state.err == AsyncReadError(SqFullError(), buffer, file)
                    && inner.sq.Pending() == old(inner.sq.Pending()))
              && (f.state.Pending? ==>
                    && fresh(f.state.reg) && f.state.reg.data == Some(IoContext(buffer, buffer, file))
                    && inner.sq.Pending() == old(inner.sq.Pending())
                         + [ReadRequest(file.fd, offset, SS.Slice(iovecAt, 1), f.state.reg.UserData())])
  {
    var im := InnerMut(handle);
    if im.Err? {
      f := new AsyncRead(InitFailed(WithError(IoContext(EmptyIovec, buffer, file), im.error)));
      return;
    }
    var s := StartRead(im.value, file, offset, buffer, at, iovecAt);
    f := new AsyncRead(s);
  }
}
