// tokio-uring-reactor/src/registration.rs: a one-shot completion cell
// shared between the future waiting for an operation and the reactor, which
// refers to it by the `user_data` token of the submission entry.

module Registration {
  import opened Wrappers
  import opened MachineInt
  import opened Io

  /** The `res` and `flags` of a completion, as the cell stores them. */
  datatype UringResult = UringResult(result: i32, flags: u32)

  /** `CompatWaker` (the futures-0.1 variant): nothing, or a task to wake. */
  datatype Waker = Empty | Old(task: Task)

  /** The boxed per-operation data: nothing for a poll registration, or an
      I/O context holding the `iovec` that points at the buffer, the
      buffer and the file. */
  datatype Payload = NoData | IoContext(iovec: Buffer, buffer: Buffer, file: File)

  /** Where an `Rc<UnsafeCell<Inner>>` allocation can live: never at
      address 0, and aligned to the allocation's 8-byte alignment. */
  type Address = a: u64 | a != 0 && a % 8 == 0 witness 8

  /** One `Rc<UnsafeCell<Inner>>` allocation: the `Inner` fields and the
      reference count. `Registration` and `RawRegistration` are handles to
      a cell; a `user_data` token in flight also owns a reference. */
  class Cell {
    var result: UringResult
    var finished: bool
    var waker: Waker
    var data: Option<Payload>
    /** The `Rc` strong count; 0 once the allocation is freed. */
    var strong: nat
    const address: Address

    /** `Registration::new`: a fresh, unfinished cell owning `d`, with one
        reference held by the new `Registration`. */
    constructor (d: Payload, at: Address)
      ensures result == UringResult(0, 0) && !finished && waker == Empty
      ensures data == Some(d) && strong == 1 && address == at
    {
      result := UringResult(0, 0);
      finished := false;
      waker := Empty;
      data := Some(d);
      strong := 1;
      address := at;
    }

    /** `CompatWaker::notify`: take the waker out, leaving `Empty`, and wake
        its task if there was one. */
    method NotifyWaker() returns (woken: Option<Task>)
      modifies this`waker
      ensures waker == Empty
      ensures old(waker) == Empty <==> woken == None
      ensures old(waker).Old? ==> woken == Some(old(waker).task)
    {
      match waker {
        case Empty => woken := None;
        case Old(t) => woken := Some(t);
      }
      waker := Empty;
    }

    /** `RawRegistration::notify`: the operation completed with `r`. The
        `assert!(!finished)` is the precondition. */
    method Notify(r: UringResult) returns (woken: Option<Task>)
      requires !finished
      modifies this`finished, this`result, this`waker
      ensures finished && result == r && waker == Empty
      ensures old(waker) == Empty <==> woken == None
      ensures old(waker).Old? ==> woken == Some(old(waker).task)
    {
      finished := true;
      result := r;
      woken := NotifyWaker();
    }

    /** `Registration::track` (`register_old`): remember the current task. */
    method Track(current: Task)
      modifies this`waker
      ensures waker == Old(current)
    {
      waker := Old(current);
    }

    /** `Registration::poll`: once finished, hand out the result and the
        data exactly once; until then register the current task. */
    method Poll(current: Task) returns (r: Async<(UringResult, Payload)>)
      modifies this`data, this`waker
      ensures old(data) == None ==> r == NotReady && data == None && waker == old(waker)
      ensures old(data).Some? && finished ==>
                r == Ready((result, old(data).value)) && data == None && waker == old(waker)
      ensures old(data).Some? && !finished ==>
                r == NotReady && data == old(data) && waker == Old(current)
    {
      if data.None? {
        return NotReady;
      }
      if finished {
        var d := data.value;
        data := None;
        r := Ready((result, d));
      } else {
        Track(current);
        r := NotReady;
      }
    }

    /** `Registration<()>::poll_stream_and_reset`: a finished cell reports
        its result and becomes unfinished again, ready for reuse. */
    method PollStreamAndReset(current: Task) returns (r: Async<UringResult>)
      modifies this`finished, this`waker
      ensures !finished
      ensures old(finished) ==> r == Ready(result) && waker == old(waker)
      ensures !old(finished) ==> r == NotReady && waker == Old(current)
    {
      if finished {
        finished := false;
        r := Ready(result);
      } else {
        Track(current);
        r := NotReady;
      }
    }

    /** `Registration::user_data`: the token naming this cell. Its
        `assert!` holds for every cell: the token is nonzero and even. */
    function UserData(): (token: u64)
      ensures token != 0 && BitAnd(token, 1) == 0
    {
      AndOne(address);
      address
    }

    /** `Registration::to_raw`: one more reference, held by the new
        `RawRegistration`. */
    method ToRaw()
      modifies this`strong
      ensures strong == old(strong) + 1
    {
      strong := strong + 1;
    }

    /** Dropping a `RawRegistration` or a `Registration`: one reference
        fewer. */
    method DropRaw()
      requires strong >= 1
      modifies this`strong
      ensures strong == old(strong) - 1
    {
      strong := strong - 1;
    }

    /** `RawRegistration::into_user_data`: the handle's reference moves
        into the token, so the count does not change. */
    method IntoUserData() returns (token: u64)
      ensures token == UserData() && token != 0 && BitAnd(token, 1) == 0
    {
      token := UserData();
    }

    /** `Registration::abort`: consume the handle; if it was the only
        reference, free the cell and return its data (`expect("data")` is
        the precondition), otherwise just drop the reference. */
    method Abort() returns (d: Option<Payload>)
      requires strong >= 1
      requires strong == 1 ==> data.Some?
      modifies this`strong, this`data
      ensures old(strong) == 1 ==> d == old(data) && d.Some? && strong == 0 && data == None
      ensures old(strong) > 1 ==> d == None && strong == old(strong) - 1 && data == old(data)
    {
      if strong == 1 {
        d := data;
        data := None;
        strong := 0;
      } else {
        d := None;
        strong := strong - 1;
      }
    }
  }

  /** `iovec_empty()`: the placeholder `iovec` of a context whose buffer
      is not pinned yet. */
  const EmptyIovec: Buffer := Buffer(0, 0)

  /** `Registration::new` of an I/O context, then `iovec_from` of its
      buffer written into the context once it sits in the cell, so that
      the `iovec` describes exactly the pinned buffer. */
  method NewPinned(context: Payload, at: Address) returns (reg: Cell)
    requires context.IoContext?
    ensures fresh(reg) && reg.address == at
    ensures reg.data == Some(context.(iovec := context.buffer))
    ensures !reg.finished && reg.waker == Empty && reg.strong == 1
  {
    reg := new Cell(context, at);
    reg.data := Some(context.(iovec := context.buffer));
  }

  /** The live allocations the tokens may name: each address maps to the
      cell allocated there. */
  ghost predicate AddressSpace(live: map<u64, Cell>)
  {
    forall a :: a in live ==> live[a].address == a
  }

  /** `RawRegistration::from_user_data`: the cell a token names; the
      function is `unsafe` because the token must name a live cell. */
  function FromUserData(live: map<u64, Cell>, token: u64): (c: Cell)
    requires token in live && AddressSpace(live)
    ensures c.address == token && c.UserData() == token
  {
    live[token]
  }

  /** `from_user_data(into_user_data(r))` is `r` again. */
  lemma UserDataRoundTrip(live: map<u64, Cell>, c: Cell)
    requires AddressSpace(live) && c in live.Values
    ensures c.UserData() in live && FromUserData(live, c.UserData()) == c
  {
    var a :| a in live && live[a] == c;
    assert a == c.address;
  }

  /** Distinct live cells have distinct tokens. */
  lemma UserDataInjective(live: map<u64, Cell>, c: Cell, d: Cell)
    requires AddressSpace(live) && c in live.Values && d in live.Values
    requires c.UserData() == d.UserData()
    ensures c == d
  {
    UserDataRoundTrip(live, c);
    UserDataRoundTrip(live, d);
  }
}
