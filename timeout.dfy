// echo-async/src/timeout.rs: a future combinator that fails an inner
// future with a timeout error once a delay, started the first time the
// inner future is pending, has elapsed.

module EchoTimeout {
  import opened Wrappers
  import opened Io

  /** A `tokio_timer::Error`: the timer is shut down or at capacity; the
      model keeps only its description. */
  datatype TimerError = TimerError(description: string)

  /** `TimeoutError<E>`. */
  datatype TimeoutError<E> = Timeout | Inner(error: E) | Timer(timer: TimerError)

  /** `From<TimeoutError<E>> for io::Error`, for an inner error that is
      already an `io::Error` (so `e.into()` is `e`). */
  function IntoIoError(e: TimeoutError<Error>): (r: Error)
    ensures e.Timeout? ==> r == Custom(TimedOut, "async operation timed out")
    ensures e.Inner? ==> r == e.error
    ensures e.Timer? ==> Kind(r) == Other
  {
    match e
    case Timeout => Custom(TimedOut, "async operation timed out")
    case Inner(err) => err
    case Timer(t) => Custom(Other, t.description)
  }

  /** An `io::Error` converted from a `TimeoutError` reads as timed out
      exactly when the timeout fired or the inner future itself failed
      with a timed-out error; a timer failure never does. */
  lemma TimedOutKind(e: TimeoutError<Error>)
    ensures Kind(IntoIoError(e)) == TimedOut <==> e.Timeout? || (e.Inner? && Kind(e.error) == TimedOut)
    ensures e.Timer? ==> Kind(IntoIoError(e)) != TimedOut
  {
  }

  /** A `tokio_timer::Delay` that fires at `deadline`. */
  datatype Delay = Delay(deadline: nat)

  /** Polling a delay at time `now`: a failed timer reports its error,
      otherwise the delay is ready once `now` has reached its deadline. */
  function PollDelay(d: Delay, now: nat, failure: Option<TimerError>): (p: Async<Result<(), TimerError>>)
    ensures p.Ready? <==> failure.Some? || now >= d.deadline
    ensures p.Ready? && p.value.Ok? ==> failure.None? && now >= d.deadline
  {
    if failure.Some? then Ready(Err(failure.value))
    else if now >= d.deadline then Ready(Ok(()))
    else NotReady
  }

  /** `r.map_err(TimeoutError::Inner)`. */
  function MapInner<I, E>(r: Result<I, E>): (m: Result<I, TimeoutError<E>>)
    ensures m.Ok? <==> r.Ok?
    ensures m.Ok? ==> m.value == r.value
    ensures m.Err? ==> m.error == Inner(r.error)
  {
    match r
    case Ok(v) => Ok(v)
    case Err(e) => Err(Inner(e))
  }

  /** What one poll observes from outside: the inner future's poll, the
      clock, and whether the timer fails. */
  datatype Observed<I, E> = Observed(inner: Async<Result<I, E>>, now: nat, failure: Option<TimerError>)

  /** One `Future::poll` of `Timeout`, on the current delay: the new delay
      and the poll result. */
  function Step<I, E>(delay: Option<Delay>, timeout: nat, o: Observed<I, E>): (Option<Delay>, Async<Result<I, TimeoutError<E>>>)
  {
    match o.inner
    case Ready(r) => (None, Ready(MapInner(r)))
    case NotReady =>
      var d := if delay.None? then Delay(o.now + timeout) else delay.value;
      var fired := match PollDelay(d, o.now, o.failure)
        case NotReady => NotReady
        case Ready(Ok(_)) => Ready(Err(Timeout))
        case Ready(Err(e)) => Ready(Err(Timer(e)));
      (Some(d), fired)
  }

  /** A ready inner future wins, even past the deadline, and drops the
      delay; a pending one keeps the delay it has, or starts one that
      fires `timeout` after now. The timeout fires only at or past the
      deadline of that delay. */
  lemma StepMeaning<I, E>(delay: Option<Delay>, timeout: nat, o: Observed<I, E>)
    ensures o.inner.Ready? ==> Step(delay, timeout, o) == (None, Ready(MapInner(o.inner.value)))
    ensures o.inner.NotReady? ==>
              Step(delay, timeout, o).0 == Some(if delay.Some? then delay.value else Delay(o.now + timeout))
    ensures Step(delay, timeout, o).1 == Ready(Err(Timeout)) ==>
              o.inner.NotReady? && o.failure.None? && o.now >= Step(delay, timeout, o).0.value.deadline
  {
  }

  /** The poll results of a sequence of polls, starting from `delay`. */
  function Run<I, E>(delay: Option<Delay>, timeout: nat, polls: seq<Observed<I, E>>): (out: seq<Async<Result<I, TimeoutError<E>>>>)
    ensures |out| == |polls|
    decreases |polls|
  {
    if polls == [] then []
    else
      var (d, p) := Step(delay, timeout, polls[0]);
      [p] + Run(d, timeout, polls[1..])
  }

  /** While the inner future stays pending and the timer works, the
      delay is never recreated: every poll compares the clock with the
      same deadline. */
  lemma {:induction false} RunOnDelay<I, E>(d: Delay, timeout: nat, polls: seq<Observed<I, E>>)
    requires forall k :: 0 <= k < |polls| ==> polls[k].inner.NotReady? && polls[k].failure.None?
    ensures forall k :: 0 <= k < |polls| ==>
              Run(Some(d), timeout, polls)[k] == (if polls[k].now >= d.deadline then Ready(Err(Timeout)) else NotReady)
    decreases |polls|
  {
    if polls != [] {
      RunOnDelay(d, timeout, polls[1..]);
      forall k | 0 <= k < |polls|
        ensures Run(Some(d), timeout, polls)[k] == (if polls[k].now >= d.deadline then Ready(Err(Timeout)) else NotReady)
      {
        if k > 0 {
          assert polls[1..][k - 1] == polls[k];
        }
      }
    }
  }

  /** A fresh `Timeout` whose inner future stays pending times out at
      exactly the polls whose clock has reached `timeout` after the first
      poll, however often it is polled in between. */
  lemma TimesOutFromFirstPoll<I, E>(timeout: nat, polls: seq<Observed<I, E>>)
    requires polls != []
    requires forall k :: 0 <= k < |polls| ==> polls[k].inner.NotReady? && polls[k].failure.None?
    ensures forall k :: 0 <= k < |polls| ==>
              (Run(None, timeout, polls)[k] == Ready(Err(Timeout)) <==> polls[k].now >= polls[0].now + timeout)
    ensures forall k :: 0 <= k < |polls| ==> Run(None, timeout, polls)[k] != Ready(Err(Timeout)) ==> Run(None, timeout, polls)[k] == NotReady
  {
    var d := Delay(polls[0].now + timeout);
    assert Run(None, timeout, polls) == Run(Some(d), timeout, polls) by {
      RunOnDelay(d, timeout, polls[1..]);
    }
    RunOnDelay(d, timeout, polls);
  }

  /** `Timeout<T>`: the timeout, and the delay once the inner future has
      been pending. */
  class TimeoutFuture<I, E> {
    const timeout: nat
    var delay: Option<Delay>

    /** `Timeout::new`: no delay yet. */
    constructor (t: nat)
      ensures timeout == t && delay == None
    {
      timeout := t;
      delay := None;
    }

    /** `Future::poll`, given what the inner future, the clock and the
        timer report this time. */
    method Poll(o: Observed<I, E>) returns (p: Async<Result<I, TimeoutError<E>>>)
      modifies this`delay
      ensures (delay, p) == Step(old(delay), timeout, o)
    {
      match o.inner {
        case NotReady =>
          if delay.None? {
            delay := Some(Delay(o.now + timeout));
          }
          var polled := PollDelay(delay.value, o.now, o.failure);
          match polled {
            case NotReady => p := NotReady;
            case Ready(Ok(_)) => p := Ready(Err(Timeout));
            case Ready(Err(e)) => p := Ready(Err(Timer(e)));
          }
        case Ready(r) =>
          delay := None;
          p := Ready(MapInner(r));
      }
    }
  }
}
