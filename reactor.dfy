// tokio-uring-reactor/src/reactor.rs: the reactor that owns the rings,
// dispatches completions to registrations and decides how to call
// `io_uring_enter` when the executor parks. The unpark mechanism and the
// timerfd are outside the model: `park.pending()` and `park.enter()`'s
// `allow_wait` are inputs, and the timer is a state field.

module Reactor {
  import opened Wrappers
  import opened MachineInt
  import opened Io
  import opened Sys
  import SS = SysSubmission
  import opened Ring
  import opened Registration

  /** The odd `user_data` values of the reactor's own requests. */
  const TIMER: u64 := 1
  const PARK: u64 := 3

  /** `sq_full_map_err`: a full submission queue as an `io::Error`. */
  function SqFullError(): (e: Error)
    ensures Kind(e) == Other
  {
    Custom(Other, "submission queue full")
  }

  /** `Handle`: a weak reference to the reactor, which no longer upgrades
      once the reactor has been dropped. */
  datatype Handle = Handle(target: Option<Inner>)

  /** `Handle::inner_mut`: upgrade the weak reference, or report that the
      reactor is gone. */
  function InnerMut(h: Handle): (r: Result<Inner, Error>)
    ensures r.Ok? <==> h.target.Some?
    ensures r.Ok? ==> r.value == h.target.value
    ensures r.Err? ==> Kind(r.error) == Other && r.error == DeadError()
  {
    match h.target
    case None => Err(DeadError())
    case Some(inner) => Ok(inner)
  }

  /** The error of a dead reactor handle. */
  function DeadError(): Error
  {
    Custom(Other, "uring reactor dead")
  }

  /** A `user_data` that names a registration: nonzero and even. */
  predicate IsRegistration(u: u64)
  {
    u != 0 && u % 2 == 0
  }

  /** How many completions in `es` count against `active_wait`: all but
      the fire-and-forget ones with `user_data` 0. */
  function Waited(es: seq<CompletionEntry>): (n: nat)
    ensures n <= |es|
  {
    if es == [] then 0
    else Waited(es[..|es| - 1]) + (if es[|es| - 1].userData != 0 then 1 else 0)
  }

  lemma WaitedStep(es: seq<CompletionEntry>, k: nat)
    requires k < |es|
    ensures Waited(es[..k + 1]) == Waited(es[..k]) + (if es[k].userData != 0 then 1 else 0)
  {
    assert es[..k + 1][..k] == es[..k];
  }

  /** What dispatching `es` needs from memory: each registration token
      names a live cell, and no token is delivered twice. */
  ghost predicate Routable(es: seq<CompletionEntry>, live: map<u64, Cell>)
  {
    && AddressSpace(live)
    && (forall i :: 0 <= i < |es| && IsRegistration(es[i].userData) ==> es[i].userData in live)
    && (forall i, j :: 0 <= i < j < |es| && IsRegistration(es[i].userData) ==>
          es[i].userData != es[j].userData)
  }

  /** ... and each of those cells still holds a reference for the token. */
  ghost predicate Deliverable(es: seq<CompletionEntry>, live: map<u64, Cell>)
    reads live.Values
  {
    && Routable(es, live)
    && (forall i :: 0 <= i < |es| && IsRegistration(es[i].userData) ==>
          live[es[i].userData].strong >= 1)
  }

  /** Distinct tokens name distinct cells. */
  lemma DistinctCells(live: map<u64, Cell>, t: u64, u: u64)
    requires AddressSpace(live) && t in live && u in live && t != u
    ensures live[t] != live[u]
  {
    assert live[t].address == t && live[u].address == u;
  }

  /** The registrations among `es[..k]` hold their completion. */
  ghost predicate Delivered(es: seq<CompletionEntry>, k: nat, live: map<u64, Cell>)
    requires k <= |es|
    reads live.Values
  {
    forall i :: 0 <= i < k && IsRegistration(es[i].userData) && es[i].userData in live ==>
      live[es[i].userData].finished && live[es[i].userData].result == ResultOf(es[i])
  }

  /** The registrations among `es[k..]` still hold the token's reference. */
  ghost predicate Holding(es: seq<CompletionEntry>, k: nat, live: map<u64, Cell>)
    requires Routable(es, live) && k <= |es|
    reads live.Values
  {
    forall i :: k <= i < |es| && IsRegistration(es[i].userData) ==> live[es[i].userData].strong >= 1
  }

  class CompletionState {
    var requeueTimer: bool
    var timerPending: bool
    var requeuePark: bool
    /** Submitted requests whose completion has not been seen. */
    var activeWait: nat

    /** `CompletionState::new`: both wakeups need queueing, nothing is in
        flight. */
    constructor ()
      ensures requeueTimer && !timerPending && requeuePark && activeWait == 0
    {
      requeueTimer := true;
      timerPending := false;
      requeuePark := true;
      activeWait := 0;
    }

    /** `CompletionState::handle_completion`: route one completion. 0 is a
        fire-and-forget request and changes nothing; any other value first
        decrements `active_wait` (a debug-build overflow panic at 0); an
        even value notifies the registration it names (whose `assert!`
        panics if it already finished) and drops that reference; TIMER
        and PARK ask for their request to be queued again; any other odd
        value panics. Returns the task that was woken, if any. */
    method HandleCompletion(userData: u64, r: UringResult, live: map<u64, Cell>)
      returns (o: Outcome<Option<Task>>)
      requires AddressSpace(live)
      requires IsRegistration(userData) ==> userData in live && live[userData].strong >= 1
      modifies this, if userData in live then {live[userData]} else {}
      ensures o.Returned? && old(activeWait) >= 1 && IsRegistration(userData) ==>
                o.value == (if old(live[userData].waker).Old?
                            then Some(old(live[userData].waker).task) else None)
      ensures userData == 0 ==>
                o == Returned(None) && unchanged(this)
      ensures userData != 0 && old(activeWait) == 0 ==>
                o.Panicked? && unchanged(this)
      ensures userData != 0 && old(activeWait) >= 1 ==>
                activeWait == old(activeWait) - 1
      ensures userData != 0 && old(activeWait) >= 1 && IsRegistration(userData) ==>
                var c := live[userData];
                && (o.Returned? <==> !old(c.finished))
                && (o.Returned? ==> c.finished && c.result == r && c.waker == Empty
                                    && c.strong == old(c.strong) - 1)
                && requeueTimer == old(requeueTimer) && timerPending == old(timerPending)
                && requeuePark == old(requeuePark)
      ensures userData == TIMER && old(activeWait) >= 1 ==>
                o == Returned(None) && requeueTimer && timerPending && requeuePark == old(requeuePark)
      ensures userData == PARK && old(activeWait) >= 1 ==>
                o == Returned(None) && requeuePark
                && requeueTimer == old(requeueTimer) && timerPending == old(timerPending)
      ensures userData % 2 == 1 && userData != TIMER && userData != PARK ==> o.Panicked?
    {
      if 0 == userData {
        return Returned(None);
      }
      if activeWait == 0 {
        return Panicked("attempt to subtract with overflow");
      }
      activeWait := activeWait - 1;
      AndOne(userData);
      if 0 == BitAnd(userData, 1) {
        var reg := FromUserData(live, userData);
        if reg.finished {
          return Panicked("assertion failed: !inner.finished");
        }
        var woken := reg.Notify(r);
        reg.DropRaw();
        o := Returned(woken);
      } else if userData == TIMER {
        requeueTimer := true;
        timerPending := true;
        o := Returned(None);
      } else if userData == PARK {
        requeuePark := true;
        o := Returned(None);
      } else {
        o := Panicked("unknown event");
      }
    }

    /** `check_completions`' loop body for the `k`-th completion `es[k]`
        of a drained batch: dispatch it, keeping the batch's bookkeeping. */
    method Dispatch(cqe: CompletionEntry, ghost es: seq<CompletionEntry>, ghost k: nat, live: map<u64, Cell>)
      returns (o: Outcome<Option<Task>>)
      requires Routable(es, live) && k < |es| && cqe == es[k]
      requires Delivered(es, k, live) && Holding(es, k, live)
      modifies this, live.Values
      ensures o.Returned? ==>
                && Delivered(es, k + 1, live) && Holding(es, k + 1, live)
                && old(activeWait) >= (if es[k].userData != 0 then 1 else 0)
                && activeWait == old(activeWait) - (if es[k].userData != 0 then 1 else 0)
    {
      o := HandleCompletion(cqe.userData, ResultOf(cqe), live);
      if o.Panicked? {
        return;
      }
      forall i | 0 <= i < |es| && i != k && IsRegistration(es[i].userData) && IsRegistration(cqe.userData)
        ensures live[es[i].userData] != live[cqe.userData]
      {
        DistinctCells(live, es[i].userData, cqe.userData);
      }
    }

  }

  /** The timerfd's state as the reactor sets it. */
  datatype TimerState = Disarmed | Oneshot(timeout: nat)

  /** The arguments of an `io_uring_enter` call. */
  datatype EnterCall = EnterCall(toSubmit: u32, minComplete: u32, flags: EnterFlags)

  /** What the kernel does during `io_uring_enter`: it consumes up to
      `consumed` submitted entries and posts `posted`, or fails. */
  datatype KernelResponse = KernelResponse(consumed: u32, posted: seq<CompletionEntry>, error: Option<Error>)

  /** What `park_inner` settles between its first `check_completions` and
      `io_uring_enter`: whether the timer poll and the park read were
      queued (`None` when not tried) and whether it blocks. */
  datatype ParkPlan = ParkPlan(timerQueued: Option<bool>, parkQueued: Option<bool>, wait: bool)

  /** The decision of `park_inner` from what it reads: the caller's `wait`,
      whether the first check saw completions, the park's `pending()`, the
      two requeue flags, the free slots `room` of the submission ring and
      the unpark side's `allow_wait`. A requeue is tried only while waiting
      is still on, and queueing succeeds exactly when a slot is free. */
  function PlanPark(wait: bool, received: bool, parkPending: bool, requeueTimer: bool, requeuePark: bool,
                    room: int, allowWait: bool): (p: ParkPlan)
    ensures p.timerQueued.Some? ==> wait && !received && !parkPending && requeueTimer
    ensures p.parkQueued.Some? ==> wait && !received && !parkPending && requeuePark
    ensures p.wait ==> wait && allowWait
  {
    var preparing := wait && !received && !parkPending;
    var timerQueued := if preparing && requeueTimer then Some(room > 0) else None;
    var stillWait := preparing && timerQueued != Some(false);
    var parkQueued := if stillWait && requeuePark then Some(room - Queued(timerQueued) > 0) else None;
    ParkPlan(timerQueued, parkQueued, stillWait && parkQueued != Some(false) && allowWait)
  }

  /** 1 for a flag that asks for a requeue. */
  function Needed(flag: bool): (n: nat)
    ensures n <= 1 && (n == 1 <==> flag)
  {
    if flag then 1 else 0
  }

  /** `park_inner` blocks exactly when the caller asked to wait, nothing
      completed, no unpark is pending, the unpark side allows it, and the
      submission ring has room for every wakeup that must be requeued. */
  lemma PlanWaitsExactly(wait: bool, received: bool, parkPending: bool, requeueTimer: bool,
                         requeuePark: bool, room: nat, allowWait: bool)
    ensures PlanPark(wait, received, parkPending, requeueTimer, requeuePark, room, allowWait).wait
        <==> wait && !received && !parkPending && allowWait && room >= Needed(requeueTimer) + Needed(requeuePark)
  {
  }

  /** It never blocks while a wakeup is still waiting to be requeued: a
      flag that was set has had its request queued. */
  lemma PlanBlocksOnlyArmed(wait: bool, received: bool, parkPending: bool, requeueTimer: bool,
                            requeuePark: bool, room: int, allowWait: bool)
    ensures var p := PlanPark(wait, received, parkPending, requeueTimer, requeuePark, room, allowWait);
            p.wait ==> (requeueTimer ==> p.timerQueued == Some(true)) && (requeuePark ==> p.parkQueued == Some(true))
  {
  }

  /** A requeue that did not fit rules out blocking, and the park read is
      not tried after the timer poll did not fit. */
  lemma PlanFailedRequeueNoWait(wait: bool, received: bool, parkPending: bool, requeueTimer: bool,
                                requeuePark: bool, room: int, allowWait: bool)
    ensures var p := PlanPark(wait, received, parkPending, requeueTimer, requeuePark, room, allowWait);
            && (p.timerQueued == Some(false) ==> !p.wait && p.parkQueued == None)
            && (p.parkQueued == Some(false) ==> !p.wait)
  {
  }

  /** `allow_wait` only turns waiting off, after the requeues. */
  lemma PlanAllowWait(wait: bool, received: bool, parkPending: bool, requeueTimer: bool,
                      requeuePark: bool, room: int, allowWait: bool)
    ensures var p := PlanPark(wait, received, parkPending, requeueTimer, requeuePark, room, true);
            PlanPark(wait, received, parkPending, requeueTimer, requeuePark, room, allowWait)
              == p.(wait := p.wait && allowWait)
  {
  }

  /** What `park_inner` decided on the way, for the postconditions. */
  datatype ParkTrace = ParkTrace(
    aborted: bool,             // it panicked before deciding how to enter
    received: bool,            // the first `check_completions` saw something
    timerPending: bool,        // `timer_pending` after that check
    requeueTimer: bool,        // `requeue_timer` after that check
    requeuePark: bool,         // `requeue_park` after that check
    plan: ParkPlan,            // what it settled
    pending: u32)              // `pending_submissions()` before entering

  /** 1 for a request that was queued, 0 otherwise. */
  function Queued(q: Option<bool>): (n: nat)
    ensures n <= 1 && (n == 1 <==> q == Some(true))
  {
    if q == Some(true) then 1 else 0
  }

  /** The entries the wakeup requests that were queued add to the
      submission ring, the timer poll first. */
  function WakeupRequests(timerFd: i32, parkFd: i32, timerQueued: Option<bool>, parkQueued: Option<bool>)
    : (es: seq<SS.Sqe>)
    ensures |es| == Queued(timerQueued) + Queued(parkQueued)
  {
    (if timerQueued == Some(true) then [TimerRequest(timerFd)] else [])
    + (if parkQueued == Some(true) then [ParkRequest(parkFd)] else [])
  }

  /** The arguments `park_inner` passes to `io_uring_enter` for `pending`
      submissions: block for one completion when waiting, otherwise only
      submit. */
  function EnterArgs(pending: u32, wait: bool): (call: EnterCall)
    ensures call.toSubmit == pending
    ensures wait ==> call.minComplete == 1 && call.flags == GETEVENTS
    ensures !wait ==> call.minComplete == 0 && call.flags == 0
  {
    if wait then EnterCall(pending, 1, GETEVENTS) else EnterCall(pending, 0, 0)
  }

  /** `reactor::Inner`: the rings, the completion state and the timer. */
  class Inner {
    const sq: SubmissionQueue
    const cq: CompletionQueue
    const state: CompletionState
    var timer: TimerState
    const timerFd: i32
    const parkFd: i32

    ghost predicate Valid()
      reads this, sq, sq.kArray, sq.sces, cq
    {
      sq.Valid() && cq.Valid()
    }

    /** What queueing a request may change. */
    ghost function Footprint(): set<object>
    {
      {sq, state} + sq.Slots
    }

    /** `Inner::build` over rings already set up: a fresh completion state
        and a disarmed timer. */
    constructor (sq: SubmissionQueue, cq: CompletionQueue, timerFd: i32, parkFd: i32)
      requires sq.Valid() && cq.Valid()
      ensures Valid() && fresh(state)
      ensures this.sq == sq && this.cq == cq && this.timerFd == timerFd && this.parkFd == parkFd
      ensures timer == Disarmed
      ensures state.requeueTimer && !state.timerPending && state.requeuePark && state.activeWait == 0
    {
      this.sq := sq;
      this.cq := cq;
      this.timerFd := timerFd;
      this.parkFd := parkFd;
      timer := Disarmed;
      state := new CompletionState();
    }

    /** One request through `submit_with` on a fresh `BulkSubmission`,
        whose drop publishes the tail; on success one more request is in
        flight. The closure cannot fail. */
    method Submit(cmd: SS.Command, userData: u64) returns (r: Result<(), SubmissionError<()>>)
      requires sq.Valid()
      modifies sq`cachedHead, sq`localTail, sq`kTail, sq.Slots, state`activeWait
      ensures sq.Valid()
      ensures sq.kTail == sq.localTail
      ensures r.Ok? <==> old(|sq.Pending()|) < sq.entries
      ensures r.Ok? ==> sq.Pending() == old(sq.Pending()) + [Request(cmd, userData)]
                        && state.activeWait == old(state.activeWait) + 1
      ensures r.Err? ==> r.error == QueueFull && sq.Pending() == old(sq.Pending())
                         && state.activeWait == old(state.activeWait)
    {
      r := sq.SubmitWith<()>(Filler(cmd, userData, Ok(())));
      sq.FlushTail();
      if r.Ok? {
        state.activeWait := state.activeWait + 1;
      }
    }

    /** `queue_timer_poll`: wait for the timerfd to become readable. */
    method QueueTimerPoll() returns (r: Result<(), SubmissionError<()>>)
      requires sq.Valid()
      modifies sq`cachedHead, sq`localTail, sq`kTail, sq.Slots, state`activeWait
      ensures sq.Valid()
      ensures r.Ok? <==> old(|sq.Pending()|) < sq.entries
      ensures r.Ok? ==> sq.Pending() == old(sq.Pending()) + [TimerRequest(timerFd)]
                        && state.activeWait == old(state.activeWait) + 1
      ensures r.Err? ==> sq.Pending() == old(sq.Pending()) && state.activeWait == old(state.activeWait)
    {
      r := Submit(SS.PollAddCmd(SS.FD(timerFd), POLLIN), TIMER);
    }

    /** `queue_park_read`: wait for the unpark descriptor to become
        readable. */
    method QueueParkRead() returns (r: Result<(), SubmissionError<()>>)
      requires sq.Valid()
      modifies sq`cachedHead, sq`localTail, sq`kTail, sq.Slots, state`activeWait
      ensures sq.Valid()
      ensures r.Ok? <==> old(|sq.Pending()|) < sq.entries
      ensures r.Ok? ==> sq.Pending() == old(sq.Pending()) + [ParkRequest(parkFd)]
                        && state.activeWait == old(state.activeWait) + 1
      ensures r.Err? ==> sq.Pending() == old(sq.Pending()) && state.activeWait == old(state.activeWait)
    {
      r := Submit(SS.PollAddCmd(SS.FD(parkFd), POLLIN), PARK);
    }

    /** `queue_async_read`, `queue_async_write` and `queue_async_poll`:
        submit `cmd` under the registration's token. The raw handle's
        reference moves into the token on success and is dropped when the
        queue is full, which becomes `sq_full_map_err`'s error. */
    method QueueAsync(cmd: SS.Command, reg: Cell) returns (r: Result<(), Error>)
      requires sq.Valid() && reg.strong >= 1
      modifies sq`cachedHead, sq`localTail, sq`kTail, sq.Slots, state`activeWait, reg`strong
      ensures sq.Valid()
      ensures r.Ok? <==> old(|sq.Pending()|) < sq.entries
      ensures r.Ok? ==> sq.Pending() == old(sq.Pending()) + [Request(cmd, reg.UserData())]
                        && state.activeWait == old(state.activeWait) + 1
                        && reg.strong == old(reg.strong)
      ensures r.Err? ==> r.error == SqFullError() && sq.Pending() == old(sq.Pending())
                         && state.activeWait == old(state.activeWait)
                         && reg.strong == old(reg.strong) - 1
    {
      var token := reg.IntoUserData();
      var s := Submit(cmd, token);
      if s.Err? {
        reg.DropRaw();
        return Err(SqFullError());
      }
      r := Ok(());
    }

    /** `queue_async_read`: a `readv` at `offset` into the buffers `iov`
        describes. */
    method QueueAsyncRead(fd: i32, offset: u64, iov: SS.Slice, reg: Cell) returns (r: Result<(), Error>)
      requires sq.Valid() && reg.strong >= 1
      modifies sq`cachedHead, sq`localTail, sq`kTail, sq.Slots, state`activeWait, reg`strong
      ensures sq.Valid()
      ensures r.Ok? <==> old(|sq.Pending()|) < sq.entries
      ensures r.Ok? ==> sq.Pending() == old(sq.Pending()) + [ReadRequest(fd, offset, iov, reg.UserData())]
                        && state.activeWait == old(state.activeWait) + 1 && reg.strong == old(reg.strong)
      ensures r.Err? ==> r.error == SqFullError() && sq.Pending() == old(sq.Pending())
                         && state.activeWait == old(state.activeWait) && reg.strong == old(reg.strong) - 1
    {
      r := QueueAsync(SS.ReadvCmd(SS.IoPriority.None, SS.FD(fd), offset, 0, iov), reg);
    }

    /** `queue_async_write`: a `writev` at `offset` from the buffers `iov`
        describes. */
    method QueueAsyncWrite(fd: i32, offset: u64, iov: SS.Slice, reg: Cell) returns (r: Result<(), Error>)
      requires sq.Valid() && reg.strong >= 1
      modifies sq`cachedHead, sq`localTail, sq`kTail, sq.Slots, state`activeWait, reg`strong
      ensures sq.Valid()
      ensures r.Ok? <==> old(|sq.Pending()|) < sq.entries
      ensures r.Ok? ==> sq.Pending() == old(sq.Pending()) + [WriteRequest(fd, offset, iov, reg.UserData())]
                        && state.activeWait == old(state.activeWait) + 1 && reg.strong == old(reg.strong)
      ensures r.Err? ==> r.error == SqFullError() && sq.Pending() == old(sq.Pending())
                         && state.activeWait == old(state.activeWait) && reg.strong == old(reg.strong) - 1
    {
      r := QueueAsync(SS.WritevCmd(SS.IoPriority.None, SS.FD(fd), offset, 0, iov), reg);
    }

    /** `queue_async_poll`: a one-shot poll for `flags` on `fd`. */
    method QueueAsyncPoll(fd: i32, flags: PollFlags, reg: Cell) returns (r: Result<(), Error>)
      requires sq.Valid() && reg.strong >= 1
      modifies sq`cachedHead, sq`localTail, sq`kTail, sq.Slots, state`activeWait, reg`strong
      ensures sq.Valid()
      ensures r.Ok? <==> old(|sq.Pending()|) < sq.entries
      ensures r.Ok? ==> sq.Pending() == old(sq.Pending()) + [PollRequest(fd, flags, reg.UserData())]
                        && state.activeWait == old(state.activeWait) + 1 && reg.strong == old(reg.strong)
      ensures r.Err? ==> r.error == SqFullError() && sq.Pending() == old(sq.Pending())
                         && state.activeWait == old(state.activeWait) && reg.strong == old(reg.strong) - 1
    {
      r := QueueAsync(SS.PollAddCmd(SS.FD(fd), flags), reg);
    }

    /** The state of `check_completions` after dispatching `es[..k]` of
        the batch `es[..n]` it found, starting with `a0` requests in flight;
        `es[n..]` are completions the kernel posts later. */
    ghost predicate Draining(es: seq<CompletionEntry>, n: nat, k: nat, a0: nat, live: map<u64, Cell>)
      reads this, cq, cq.cqes, state, live.Values
    {
      && cq.Valid() && k <= n <= |es| && cq.Pending() == es[k..n]
      && Routable(es, live)
      && a0 >= Waited(es[..k]) && state.activeWait == a0 - Waited(es[..k])
      && Delivered(es, k, live) && Holding(es, k, live)
    }

    /** One turn of `check_completions`' loop: take the next completion,
        if any, and dispatch it. */
    method Step(ghost es: seq<CompletionEntry>, ghost n: nat, ghost k: nat, ghost a0: nat, live: map<u64, Cell>)
      returns (next: Option<CompletionEntry>, h: Outcome<Option<Task>>)
      requires Draining(es, n, k, a0, live)
      modifies cq`cachedTail, cq`localHead, state, live.Values
      ensures cq.Valid()
      ensures next.None? <==> k == n
      ensures next.None? ==> h == Returned(None) && Draining(es, n, k, a0, live)
      ensures next.Some? && h.Returned? ==> Draining(es, n, k + 1, a0, live)
    {
      next := cq.Next();
      if next.None? {
        return next, Returned(None);
      }
      assert cq.Pending() == es[k + 1..n];
      WaitedStep(es, k);
      label dispatching:
      h := state.Dispatch(next.value, es, k, live);
      assert unchanged@dispatching(cq, cq.cqes);
    }

    /** `check_completions`: drain the completion queue through one
        `BulkCompletion`, whose drop releases the entries, dispatching each
        completion in ring order. Returns whether any completion was seen,
        and the tasks woken. The registrations of the completions `later`
        the kernel may post afterwards keep their references. */
    method CheckCompletions(live: map<u64, Cell>, ghost later: seq<CompletionEntry>)
      returns (received: bool, o: Outcome<seq<Task>>)
      requires cq.Valid() && Deliverable(cq.Pending() + later, live)
      modifies cq`cachedTail, cq`localHead, cq`kHead, state, live.Values
      ensures cq.Valid()
      ensures received <==> old(cq.Pending()) != []
      ensures o.Returned? ==>
                && cq.Pending() == [] && Dist(cq.kHead, cq.kTail) == 0
                && old(state.activeWait) >= Waited(old(cq.Pending()))
                && state.activeWait == old(state.activeWait) - Waited(old(cq.Pending()))
      ensures o.Returned? ==> Delivered(old(cq.Pending()) + later, |old(cq.Pending())|, live)
      ensures o.Returned? ==> Deliverable(later, live)
    {
      ghost var es := cq.Pending() + later;
      ghost var n := |cq.Pending()|;
      ghost var a0 := state.activeWait;
      assert cq.Pending() == es[..n];
      received := false;
      var woken: seq<Task> := [];
      ghost var k := 0;
      while true
        invariant Draining(es, n, k, a0, live)
        invariant received <==> k > 0
        decreases n - k
      {
        var next, h := Step(es, n, k, a0, live);
        if next.None? {
          break;
        }
        received := true;
        if h.Panicked? {
          cq.FlushHead();
          return received, Panicked(h.message);
        }
        if h.value.Some? {
          woken := woken + [h.value.value];
        }
        k := k + 1;
      }
      LaterDeliverable(es, n, live);
      cq.FlushHead();
      o := Returned(woken);
    }

    /** The timer setup of `park_inner` before it waits: a timeout arms
        the timer and forgets an earlier expiry; without one, a timer that
        fired is disarmed. */
    method ArmTimer(timeout: Option<nat>)
      requires timeout.Some? ==> timeout.value > 0
      modifies this`timer, state`timerPending
      ensures !state.timerPending
      ensures timer == (if timeout.Some? then Oneshot(timeout.value)
                        else if old(state.timerPending) then Disarmed else old(timer))
    {
      match timeout {
        case Some(d) =>
          timer := Oneshot(d);
          state.timerPending := false;
        case None =>
          if state.timerPending {
            timer := Disarmed;
            state.timerPending := false;
          }
      }
    }

    /** Queue the timer poll again if it is not in flight; the flag stays
        set, and waiting is unsafe, if it does not fit. */
    method RequeueTimer() returns (wait: bool, ghost queued: Option<bool>)
      requires sq.Valid()
      modifies state`requeueTimer, state`activeWait, sq`cachedHead, sq`localTail, sq`kTail, sq.Slots
      ensures sq.Valid()
      ensures queued.Some? <==> old(state.requeueTimer)
      ensures queued.Some? ==> (queued.value <==> old(|sq.Pending()|) < sq.entries)
      ensures wait <==> queued != Some(false)
      ensures state.requeueTimer <==> queued == Some(false)
      ensures sq.Pending() == old(sq.Pending()) + WakeupRequests(timerFd, parkFd, queued, None)
      ensures state.activeWait == old(state.activeWait) + Queued(queued)
    {
      wait, queued := true, None;
      if state.requeueTimer {
        var q := QueueTimerPoll();
        queued := Some(q.Ok?);
        if q.Err? {
          wait := false;
        } else {
          state.requeueTimer := false;
        }
      }
    }

    /** Queue the park read again if waiting is still on and it is not in
        flight; the flag stays set, and waiting is unsafe, if it does not
        fit. */
    method RequeuePark(wait: bool) returns (stillWait: bool, ghost queued: Option<bool>)
      requires sq.Valid()
      modifies state`requeuePark, state`activeWait, sq`cachedHead, sq`localTail, sq`kTail, sq.Slots
      ensures sq.Valid()
      ensures queued.Some? <==> wait && old(state.requeuePark)
      ensures queued.Some? ==> (queued.value <==> old(|sq.Pending()|) < sq.entries)
      ensures stillWait <==> wait && queued != Some(false)
      ensures state.requeuePark <==> old(state.requeuePark) && queued != Some(true)
      ensures sq.Pending() == old(sq.Pending()) + WakeupRequests(timerFd, parkFd, None, queued)
      ensures state.activeWait == old(state.activeWait) + Queued(queued)
    {
      stillWait, queued := wait, None;
      if wait && state.requeuePark {
        var q := QueueParkRead();
        queued := Some(q.Ok?);
        if q.Err? {
          stillWait := false;
        } else {
          state.requeuePark := false;
        }
      }
    }

    /** The kernel's side of `io_uring_enter` on the submission ring: it
        consumes the first `consumed` published submissions, or all of
        them if fewer are published. */
    method KernelSubmit(consumed: u32)
      requires sq.Valid()
      modifies sq`kHead
      ensures sq.Valid()
      ensures consumed <= old(sq.Published()) ==> sq.Pending() == old(sq.Pending())[consumed..]
      ensures consumed > old(sq.Published()) ==> sq.Pending() == old(sq.Pending())[old(sq.Published())..]
    {
      var published := Dist(sq.kHead, sq.kTail);
      var n := if consumed <= published then consumed else published;
      ghost var taken := sq.KernelConsume(n);
    }

    /** The kernel posts `posted` into the drained completion ring, and
        the `check_completions` after `io_uring_enter` dispatches them. */
    method DeliverPosted(posted: seq<CompletionEntry>, live: map<u64, Cell>) returns (o: Outcome<seq<Task>>)
      requires cq.Valid() && Dist(cq.kHead, cq.kTail) == 0
      requires Deliverable(posted, live) && |posted| <= cq.entries
      modifies cq`kTail, cq`kOverflow, cq.cqes, cq`cachedTail, cq`localHead, cq`kHead, state, live.Values
      ensures cq.Valid()
      ensures o.Returned? ==> cq.Pending() == [] && Delivered(posted, |posted|, live)
    {
      assert cq.Pending() == [];
      cq.KernelPostAll(posted);
      assert cq.Pending() == posted;
      assert Deliverable(cq.Pending() + [], live) by {
        assert cq.Pending() + [] == posted;
      }
      var _, c := CheckCompletions(live, []);
      assert posted + [] == posted;
      o := c;
    }

    /** `io_uring_enter` and the `check_completions` after it, on a
        drained completion ring. A failing call is returned as the error
        of `park_inner` (its `?`). */
    method Enter(kernel: KernelResponse, live: map<u64, Cell>) returns (r: Outcome<Result<(), Error>>)
      requires sq.Valid() && cq.Valid() && Dist(cq.kHead, cq.kTail) == 0
      requires Deliverable(kernel.posted, live) && |kernel.posted| <= cq.entries
      modifies sq`kHead, cq`kTail, cq`kOverflow, cq.cqes, cq`cachedTail, cq`localHead, cq`kHead,
               state, live.Values
      ensures sq.Valid() && cq.Valid()
      ensures kernel.error.Some? ==> r == Returned(Err(kernel.error.value))
      ensures kernel.error.None? && r.Returned? ==>
                && r.value == Ok(()) && cq.Pending() == []
                && Delivered(kernel.posted, |kernel.posted|, live)
    {
      if kernel.error.Some? {
        return Returned(Err(kernel.error.value));
      }
      KernelSubmit(kernel.consumed);
      var o := DeliverPosted(kernel.posted, live);
      if o.Panicked? {
        return Panicked(o.message);
      }
      r := Returned(Ok(()));
    }

    /** Both requeues of `park_inner` while it still means to wait, on a
        ring with `room` free slots: the timer poll first, then the park
        read unless the timer poll did not fit. */
    method RequeueWakeups() returns (w: bool, ghost plan: ParkPlan)
      requires sq.Valid()
      modifies state`requeueTimer, state`requeuePark, state`activeWait,
               sq`cachedHead, sq`localTail, sq`kTail, sq.Slots
      ensures sq.Valid()
      ensures plan == PlanPark(true, false, false, old(state.requeueTimer), old(state.requeuePark),
                               sq.entries - old(|sq.Pending()|), true)
      ensures w == plan.wait
      ensures sq.Pending() == old(sq.Pending()) + WakeupRequests(timerFd, parkFd, plan.timerQueued, plan.parkQueued)
      ensures state.activeWait == old(state.activeWait) + Queued(plan.timerQueued) + Queued(plan.parkQueued)
      ensures state.requeueTimer <==> old(state.requeueTimer) && plan.timerQueued != Some(true)
      ensures state.requeuePark <==> old(state.requeuePark) && plan.parkQueued != Some(true)
    {
      ghost var p0 := sq.Pending();
      ghost var tq, pq;
      w, tq := RequeueTimer();
      w, pq := RequeuePark(w);
      plan := ParkPlan(tq, pq, w);
      assert sq.Pending() == p0 + WakeupRequests(timerFd, parkFd, tq, pq) by {
        assert WakeupRequests(timerFd, parkFd, tq, pq)
            == WakeupRequests(timerFd, parkFd, tq, None) + WakeupRequests(timerFd, parkFd, None, pq);
      }
    }

    /** The middle of `park_inner`, between the first `check_completions`
        and the reading of the pending submissions: settle `wait` as
        `PlanPark` says before `allow_wait` is consulted, arming the timer
        and queueing the wakeups that need it. `ok` is false when the
        `debug_assert!` against a zero timeout fails. */
    method Decide(wait: bool, timeout: Option<nat>, received: bool, parkPending: bool)
      returns (ok: bool, w: bool, ghost plan: ParkPlan)
      requires sq.Valid()
      modifies this`timer, state`timerPending, state`requeueTimer, state`requeuePark, state`activeWait,
               sq`cachedHead, sq`localTail, sq`kTail, sq.Slots
      ensures sq.Valid()
      ensures ok <==> !(wait && !received && !parkPending && timeout == Some(0))
      ensures ok ==> plan == PlanPark(wait, received, parkPending, old(state.requeueTimer),
                                      old(state.requeuePark), sq.entries - old(|sq.Pending()|), true)
                     && w == plan.wait
      ensures ok ==>
                && |sq.Pending()| == old(|sq.Pending()|) + Queued(plan.timerQueued) + Queued(plan.parkQueued)
                && state.activeWait == old(state.activeWait) + Queued(plan.timerQueued) + Queued(plan.parkQueued)
      ensures ok ==>
                && (state.requeueTimer <==> old(state.requeueTimer) && plan.timerQueued != Some(true))
                && (state.requeuePark <==> old(state.requeuePark) && plan.parkQueued != Some(true))
      ensures ok ==> timer == (if wait && !received && !parkPending && timeout.Some? then Oneshot(timeout.value)
                               else if wait && !received && !parkPending && old(state.timerPending) then Disarmed
                               else old(timer))
    {
      w := wait;
      if received {
        w := false;
      }
      if parkPending {
        w := false;
      }
      if !w {
        assert sq.Pending() == old(sq.Pending()) + [];
        return true, false, ParkPlan(None, None, false);
      }
      if timeout == Some(0) {
        return false, false, ParkPlan(None, None, false);
      }
      ArmTimer(timeout);
      ok := true;
      w, plan := RequeueWakeups();
    }

    /** The part of `park_inner` between the first `check_completions`
        and `io_uring_enter`: panic if it would wait with a zero timeout,
        as the `debug_assert!` does before anything else changes, and
        otherwise go on as `Settle` does. */
    method Prepare(wait: bool, timeout: Option<nat>, received: bool, parkPending: bool, allowWait: bool,
                   ghost live: map<u64, Cell>, ghost later: seq<CompletionEntry>)
      returns (o: Outcome<()>, w: bool, pending: u32, ghost plan: ParkPlan)
      requires sq.Valid() && Deliverable(later, live)
      modifies this`timer, state`timerPending, state`requeueTimer, state`requeuePark, state`activeWait,
               sq`cachedHead, sq`localTail, sq`kTail, sq.Slots
      ensures sq.Valid() && Deliverable(later, live)
      ensures wait && !received && !parkPending && timeout == Some(0) ==>
                o == Panicked("assertion failed: timeout != Duration::new(0, 0)")
      ensures !(wait && !received && !parkPending && timeout == Some(0)) ==>
                && plan == PlanPark(wait, received, parkPending, old(state.requeueTimer), old(state.requeuePark),
                                    sq.entries - old(|sq.Pending()|), allowWait)
                && w == plan.wait
                && (o.Panicked? <==> sq.localTail < sq.kHead)
                && (o.Panicked? ==> o == Panicked("attempt to subtract with overflow"))
                && (o.Returned? ==> pending as int == old(|sq.Pending()|) + Queued(plan.timerQueued) + Queued(plan.parkQueued))
      ensures !(wait && !received && !parkPending && timeout == Some(0)) ==>
                timer == (if wait && !received && !parkPending && timeout.Some? then Oneshot(timeout.value)
                          else if wait && !received && !parkPending && old(state.timerPending) then Disarmed
                          else old(timer))
    {
      if wait && !received && !parkPending && timeout == Some(0) {
        return Panicked("assertion failed: timeout != Duration::new(0, 0)"), false, 0, ParkPlan(None, None, false);
      }
      o, w, pending, plan := Settle(wait, timeout, received, parkPending, allowWait, live, later);
    }

    /** `park_inner` past the `debug_assert!` against a zero timeout: settle
        `wait` as `Decide` does, read how many submissions are pending and
        consult `allow_wait`. The count is the checked subtraction of a
        debug build, which panics once the tail has wrapped past 0 and the
        head has not. */
    method Settle(wait: bool, timeout: Option<nat>, received: bool, parkPending: bool, allowWait: bool,
                   ghost live: map<u64, Cell>, ghost later: seq<CompletionEntry>)
      returns (o: Outcome<()>, w: bool, pending: u32, ghost plan: ParkPlan)
      requires sq.Valid() && Deliverable(later, live)
      requires !(wait && !received && !parkPending && timeout == Some(0))
      modifies this`timer, state`timerPending, state`requeueTimer, state`requeuePark, state`activeWait,
               sq`cachedHead, sq`localTail, sq`kTail, sq.Slots
      ensures sq.Valid() && Deliverable(later, live)
      ensures plan == PlanPark(wait, received, parkPending, old(state.requeueTimer), old(state.requeuePark),
                               sq.entries - old(|sq.Pending()|), allowWait)
      ensures w == plan.wait
      ensures o.Panicked? <==> sq.localTail < sq.kHead
      ensures o.Panicked? ==> o == Panicked("attempt to subtract with overflow")
      ensures o.Returned? ==> pending as int == old(|sq.Pending()|) + Queued(plan.timerQueued) + Queued(plan.parkQueued)
      ensures timer == (if wait && !received && !parkPending && timeout.Some? then Oneshot(timeout.value)
                        else if wait && !received && !parkPending && old(state.timerPending) then Disarmed
                        else old(timer))
    {
      var ok;
      ok, w, plan := Decide(wait, timeout, received, parkPending);
      PlanAllowWait(wait, received, parkPending, old(state.requeueTimer), old(state.requeuePark),
                    sq.entries - old(|sq.Pending()|), allowWait);
      o, pending, w := CountPending(w, allowWait);
      plan := plan.(wait := w);
    }

    /** The reading of `pending_submissions` in `park_inner`, with the
        subtraction checked, and then `allow_wait`, which can only turn
        waiting off. */
    method CountPending(wait: bool, allowWait: bool) returns (o: Outcome<()>, pending: u32, w: bool)
      requires sq.Valid()
      modifies sq`cachedHead
      ensures sq.Valid() && sq.Pending() == old(sq.Pending())
      ensures o.Panicked? <==> sq.localTail < sq.kHead
      ensures o.Panicked? ==> o == Panicked("attempt to subtract with overflow")
      ensures o.Returned? ==> pending as int == |sq.Pending()|
      ensures w == (wait && allowWait)
    {
      w := wait && allowWait;
      var n := sq.PendingSubmissionsChecked();
      if n.Panicked? {
        return Panicked(n.message), 0, w;
      }
      return Returned(()), n.value, w;
    }

    /** The part of `park_inner` before `io_uring_enter`: handle what has
        completed, then settle `wait` and count the pending submissions as
        `Prepare` does. `later` are the completions the kernel posts
        afterwards. */
    method Begin(wait: bool, timeout: Option<nat>, parkPending: bool, allowWait: bool,
                 live: map<u64, Cell>, ghost later: seq<CompletionEntry>)
      returns (o: Outcome<()>, w: bool, pending: u32, ghost t: ParkTrace)
      requires Valid() && Deliverable(cq.Pending() + later, live)
      modifies this`timer, state, sq`cachedHead, sq`localTail, sq`kTail, sq.Slots,
               cq`cachedTail, cq`localHead, cq`kHead, live.Values
      ensures Valid()
      ensures t.received <==> old(cq.Pending()) != []
      ensures t.aborted <==> o.Panicked?
      ensures !t.aborted ==>
                && t.plan == PlanPark(wait, t.received, parkPending, t.requeueTimer, t.requeuePark,
                                      sq.entries - old(|sq.Pending()|), allowWait)
                && t.pending as int == |old(sq.Pending())| + Queued(t.plan.timerQueued) + Queued(t.plan.parkQueued)
                && w == t.plan.wait && pending == t.pending
      ensures !t.aborted ==>
                timer == (if wait && !t.received && !parkPending && timeout.Some? then Oneshot(timeout.value)
                          else if wait && !t.received && !parkPending && t.timerPending then Disarmed
                          else old(timer))
      ensures !t.aborted ==> Dist(cq.kHead, cq.kTail) == 0 && Deliverable(later, live)
    {
      var received, c := CheckCompletions(live, later);
      ghost var timerPending, requeueTimer, requeuePark := state.timerPending, state.requeueTimer, state.requeuePark;
      if c.Panicked? {
        t := ParkTrace(true, received, timerPending, requeueTimer, requeuePark, ParkPlan(None, None, false), 0);
        return Panicked(c.message), false, 0, t;
      }
      ghost var plan;
      o, w, pending, plan := Prepare(wait, timeout, received, parkPending, allowWait, live, later);
      t := ParkTrace(o.Panicked?, received, timerPending, requeueTimer, requeuePark, plan, pending);
    }

    /** `park_inner`: handle what has completed, then decide whether to
        block in `io_uring_enter` for the next completion, as `PlanPark`
        says; it skips the call when there is nothing to submit and it will
        not block. The park's `pending()` and `allow_wait` are inputs;
        `call` is the call it makes and `kernel` the kernel's answer. */
    method ParkInner(wait: bool, timeout: Option<nat>, parkPending: bool, allowWait: bool,
                     kernel: KernelResponse, live: map<u64, Cell>)
      returns (r: Outcome<Result<(), Error>>, call: Option<EnterCall>, ghost t: ParkTrace)
      requires Valid() && Deliverable(cq.Pending() + kernel.posted, live)
      requires |kernel.posted| <= cq.entries
      modifies this`timer, state, sq`cachedHead, sq`localTail, sq`kTail, sq`kHead, sq.Slots,
               cq`cachedTail, cq`localHead, cq`kHead, cq`kTail, cq`kOverflow, cq.cqes, live.Values
      ensures Valid()
      ensures t.received <==> old(cq.Pending()) != []
      ensures t.aborted ==> r.Panicked? && call.None?
      ensures !t.aborted ==>
                && t.plan == PlanPark(wait, t.received, parkPending, t.requeueTimer, t.requeuePark,
                                      sq.entries - old(|sq.Pending()|), allowWait)
                && t.pending as int == |old(sq.Pending())| + Queued(t.plan.timerQueued) + Queued(t.plan.parkQueued)
      ensures !t.aborted ==>
                timer == (if wait && !t.received && !parkPending && timeout.Some? then Oneshot(timeout.value)
                          else if wait && !t.received && !parkPending && t.timerPending then Disarmed
                          else old(timer))
      ensures !t.aborted ==> (call.None? <==> t.pending == 0 && !t.plan.wait)
      ensures !t.aborted && call.None? ==> r == Returned(Ok(()))
      ensures call.Some? ==> call.value == EnterArgs(t.pending, t.plan.wait)
      ensures call.Some? && kernel.error.Some? ==> r == Returned(Err(kernel.error.value))
      ensures call.Some? && kernel.error.None? && r.Returned? ==>
                r.value == Ok(()) && cq.Pending() == [] && Delivered(kernel.posted, |kernel.posted|, live)
    {
      var o, w, pending;
      o, w, pending, t := Begin(wait, timeout, parkPending, allowWait, live, kernel.posted);
      if o.Panicked? {
        return Panicked(o.message), None, t;
      }
      if 0 == pending && !w {
        return Returned(Ok(())), None, t;
      }
      call := Some(EnterArgs(pending, w));
      label entering:
      r := Enter(kernel, live);
      assert unchanged@entering(this`timer);
    }

    /** `Park::park`: park without a deadline. */
    method Park(parkPending: bool, allowWait: bool, kernel: KernelResponse, live: map<u64, Cell>)
      returns (r: Outcome<Result<(), Error>>, call: Option<EnterCall>)
      requires Valid() && Deliverable(cq.Pending() + kernel.posted, live)
      requires |kernel.posted| <= cq.entries
      modifies this`timer, state, sq`cachedHead, sq`localTail, sq`kTail, sq`kHead, sq.Slots,
               cq`cachedTail, cq`localHead, cq`kHead, cq`kTail, cq`kOverflow, cq.cqes, live.Values
      ensures Valid()
      ensures call.Some? && call.value.minComplete == 1 ==> !parkPending && allowWait
    {
      ghost var t;
      r, call, t := ParkInner(true, None, parkPending, allowWait, kernel, live);
    }

    /** `Park::park_timeout`: a zero duration never blocks; any other one
        blocks at most that long, by the timer. */
    method ParkTimeout(duration: nat, parkPending: bool, allowWait: bool, kernel: KernelResponse,
                       live: map<u64, Cell>)
      returns (r: Outcome<Result<(), Error>>, call: Option<EnterCall>)
      requires Valid() && Deliverable(cq.Pending() + kernel.posted, live)
      requires |kernel.posted| <= cq.entries
      modifies this`timer, state, sq`cachedHead, sq`localTail, sq`kTail, sq`kHead, sq.Slots,
               cq`cachedTail, cq`localHead, cq`kHead, cq`kTail, cq`kOverflow, cq.cqes, live.Values
      ensures Valid()
      ensures duration == 0 && call.Some? ==> call.value.minComplete == 0
      ensures call.Some? && call.value.minComplete == 1 ==> timer == Oneshot(duration)
    {
      ghost var t;
      if duration == 0 {
        r, call, t := ParkInner(false, None, parkPending, allowWait, kernel, live);
      } else {
        r, call, t := ParkInner(true, Some(duration), parkPending, allowWait, kernel, live);
      }
    }
  }

  /** What `check_completions` leaves for a later batch. */
  lemma LaterDeliverable(es: seq<CompletionEntry>, n: nat, live: map<u64, Cell>)
    requires Routable(es, live) && n <= |es| && Holding(es, n, live)
    ensures Deliverable(es[n..], live)
  {
    forall i | 0 <= i < |es| - n
      ensures es[n..][i] == es[n + i]
    {
    }
  }

  /** The result a completion carries to its registration. */
  function ResultOf(cqe: CompletionEntry): (r: UringResult)
    ensures r.result == cqe.res && r.flags == cqe.flags
  {
    UringResult(cqe.res, cqe.flags)
  }

  /** The entry a request the reactor submits leaves in the submission
      ring: the command under its token, with no fill error. */
  function Request(cmd: SS.Command, token: u64): (e: SS.Sqe)
    ensures e.userData == token
  {
    Filled<()>(Filler(cmd, token, Ok(())))
  }

  function TimerRequest(fd: i32): SS.Sqe
  {
    Request(SS.PollAddCmd(SS.FD(fd), POLLIN), TIMER)
  }

  function ParkRequest(fd: i32): SS.Sqe
  {
    Request(SS.PollAddCmd(SS.FD(fd), POLLIN), PARK)
  }

  function ReadRequest(fd: i32, offset: u64, iov: SS.Slice, token: u64): SS.Sqe
  {
    Request(SS.ReadvCmd(SS.IoPriority.None, SS.FD(fd), offset, 0, iov), token)
  }

  function WriteRequest(fd: i32, offset: u64, iov: SS.Slice, token: u64): SS.Sqe
  {
    Request(SS.WritevCmd(SS.IoPriority.None, SS.FD(fd), offset, 0, iov), token)
  }

  function PollRequest(fd: i32, flags: PollFlags, token: u64): SS.Sqe
  {
    Request(SS.PollAddCmd(SS.FD(fd), flags), token)
  }
}
