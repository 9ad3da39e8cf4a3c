// tokio-uring-reactor/src/net.rs: a stream of accepted connections that
// waits for readiness of the listening socket through the reactor.

module Net {
  import opened Wrappers
  import opened MachineInt
  import opened Io
  import opened Sys
  import opened Registration
  import opened Reactor
  import opened AsyncPoll

  /** An accepted connection: the new socket and the peer's address. */
  datatype Accepted = Accepted(stream: File, peer: string)

  /** `EAGAIN`: what a non-blocking `accept` reports when no connection
      is waiting. */
  const EAGAIN: int := 11

  /** An `accept` failure after which `Incoming` tries again rather than
      report it: interrupted, or nothing to accept yet. */
  predicate Retried(a: Result<Accepted, Error>)
  {
    a.Err? && (Kind(a.error) == Interrupted || Kind(a.error) == WouldBlock)
  }

  /** `TcpListener`: a non-blocking listening socket. The connections and
      errors its `accept` calls will meet, in order, are `backlog`; once
      they are used up, `accept` would block. */
  class Listener {
    const fd: i32
    var backlog: seq<Result<Accepted, Error>>

    constructor (f: i32, pending: seq<Result<Accepted, Error>>)
      ensures fd == f && backlog == pending
    {
      fd := f;
      backlog := pending;
    }

    /** `net::TcpListener::accept` on a non-blocking socket. */
    method Accept() returns (a: Result<Accepted, Error>)
      modifies this`backlog
      ensures old(backlog) == [] ==> a == Err(Os(EAGAIN)) && Kind(a.error) == WouldBlock && backlog == []
      ensures old(backlog) != [] ==> a == old(backlog)[0] && backlog == old(backlog)[1..]
    {
      if backlog == [] {
        return Err(Os(EAGAIN));
      }
      a := backlog[0];
      backlog := backlog[1..];
    }
  }

  /** `Incoming`: the listener, whether the last `accept` would have
      blocked, and the readiness stream of the listening socket. */
  class Incoming {
    const listener: Listener
    var blocked: bool
    const poll: AsyncPoll

    ghost predicate Valid()
      reads this, poll, poll.registration, QueueFrame(poll.handle)
    {
      && poll.Valid() && poll.fd == listener.fd && poll.flags == POLLIN
      && (poll.handle.target.Some? ==> poll.handle.target.value.sq.Valid())
    }

    /** `TcpListener::incoming`: start blocked, so that the first poll
        waits for readiness before calling `accept`, with a poll stream
        for input events on the listener whose registration lives at `at`. */
    constructor (l: Listener, handle: Handle, at: Address)
      requires handle.target.Some? ==> handle.target.value.sq.Valid()
      ensures listener == l && blocked && poll.handle == handle && !poll.active
      ensures fresh(poll) && fresh(poll.registration)
      ensures Valid()
    {
      listener := l;
      blocked := true;
      poll := new AsyncPoll(handle, l.fd, POLLIN, at);
    }

    /** One poll of the readiness stream, as `Incoming::poll` uses it: an
        event can only come from a request in flight that completed, and
        it leaves no request in flight. */
    method AwaitReadiness(current: Task) returns (p: Result<Async<Option<PollFlags>>, Error>)
      requires Valid()
      modifies poll`active, poll.registration
      modifies if poll.handle.target.Some? then poll.handle.target.value.Footprint() else {}
      ensures Valid()
      ensures p != Ok(Ready(None))
      ensures p.Ok? && p.value.Ready? ==> old(poll.active && poll.registration.finished) && !poll.active
      ensures listener.backlog == old(listener.backlog) && blocked == old(blocked)
    {
      p := poll.Poll(current);
    }

    /** `Stream::poll`: accept while the socket is not known to block;
        retry at once after an interruption, wait for readiness after a
        would-block, and pass any other result on. Every answer `accept`
        used up on the way was a retried one, except the last, which is
        the result when the stream is not left blocked. A blocked stream
        returns what the readiness stream reported: not ready, or its
        error. */
    method Poll(current: Task) returns (r: Result<Async<Option<Accepted>>, Error>, ghost used: nat)
      requires Valid()
      modifies this`blocked, listener`backlog, poll`active, poll.registration
      modifies if poll.handle.target.Some? then poll.handle.target.value.Footprint() else {}
      ensures Valid()
      ensures used <= |old(listener.backlog)| && listener.backlog == old(listener.backlog)[used..]
      ensures r != Ok(Ready(None))
      ensures blocked ==>
                && (r == Ok(NotReady) || r.Err?)
                && forall i :: 0 <= i < used ==> Retried(old(listener.backlog)[i])
      ensures !blocked ==> used > 0
      ensures !blocked ==>
                var last := old(listener.backlog)[used - 1];
                && (forall i :: 0 <= i < used - 1 ==> Retried(old(listener.backlog)[i]))
                && !Retried(last)
                && (r.Ok? <==> last.Ok?)
                && (r.Ok? ==> r == Ok(Ready(Some(last.value))))
                && (r.Err? ==> r.error == last.error)
    {
      ghost var start := listener.backlog;
      used := 0;
      while true
        invariant Valid()
        invariant used <= |start| && listener.backlog == start[used..]
        invariant forall i :: 0 <= i < used ==> Retried(start[i])
        decreases |listener.backlog|, if poll.active && poll.registration.finished then 1 else 0
      {
        if !blocked {
          var a := listener.Accept();
          if used < |start| {
            used := used + 1;
          }
          if a.Ok? {
            return Ok(Ready(Some(a.value))), used;
          }
          var e := a.error;
          if Kind(e) == Interrupted {
            continue;
          } else if Kind(e) == WouldBlock {
            blocked := true;
          } else {
            return Err(e), used;
          }
        }
        var p := AwaitReadiness(current);
        match p {
          case Err(e) =>
            return Err(e), used;
          case Ok(NotReady) =>
            return Ok(NotReady), used;
          case Ok(Ready(_)) =>
            blocked := false;
        }
      }
    }
  }
}
