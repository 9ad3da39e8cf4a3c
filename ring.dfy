// io-uring/src/lib.rs: the submission and completion rings shared with the
// kernel. Both use free-running u32 counters; a counter names the slot
// `counter & ring_mask` of an array with `ring_entries` (a power of two)
// elements. Fields named `k...` live in memory the kernel writes too; the
// kernel's side of the protocol is the `Kernel...` methods.

module Ring {
  import opened Wrappers
  import opened MachineInt
  import opened Sys
  import SS = SysSubmission
  import opened Io

  /** How far `b` is ahead of `a` on the free-running counters
      (`b.wrapping_sub(a)`). */
  function Dist(a: u32, b: u32): (d: u32)
  {
    WrappingSub(b, a)
  }

  /* ---------------------------------------------------------------------- */
  /* Counter arithmetic                                                     */
  /* ---------------------------------------------------------------------- */

  lemma DistZero(a: u32, b: u32)
    ensures Dist(a, b) == 0 <==> a == b
  {
  }

  /** Distances along the ring add up. */
  lemma DistSplit(a: u32, b: u32, c: u32)
    requires Dist(a, b) <= Dist(a, c)
    ensures Dist(b, c) == Dist(a, c) - Dist(a, b)
  {
  }

  /** Advancing the near end by `n` shortens the distance by `n`. */
  lemma DistAdvance(a: u32, b: u32, n: u32)
    requires n <= Dist(a, b)
    ensures Dist(WrappingAdd(a, n), b) == Dist(a, b) - n
  {
  }

  /** The slot test of `head` and `is_full`: with the mask `n - 1` of a
      power of two `n`, the masked exclusive or is zero exactly when the
      two counters are a multiple of `n` apart. */
  lemma SameSlotIff(h: u32, t: u32, n: nat)
    requires IsPowerOfTwo(n) && n < TWO_32
    ensures BitAnd(BitXor(h, t), n - 1) == 0 <==> Dist(h, t) % n == 0
  {
    var x := BitXor(h, t);
    var k := Log2(n);
    assert BitAnd(x, n - 1) == x % n by {
      AndLowMask(x, k);
    }
    assert x % n == 0 <==> h % n == t % n by {
      XorLowBits(h, t, k);
    }
    assert Dist(h, t) % n == (t - h) % n by {
      WrappingSubIsMod(t, h);
      PowerOfTwoDivides(n);
      ModOfWrapped(t - h, n);
    }
    ModDiff(t, h, n);
  }

  /** Adding a multiple of `n` does not change the remainder modulo `n`. */
  lemma ModShift(y: int, m: int, n: int)
    requires n > 0
    ensures (y + m * n) % n == y % n
  {
    var q, r := y / n, y % n;
    assert y + m * n == (q + m) * n + r;
    ModUnique(y + m * n, n, q + m, r);
  }

  /** `n` divides `t - h` exactly when `t` and `h` agree modulo `n`. */
  lemma ModDiff(t: int, h: int, n: nat)
    requires n > 0
    ensures (t - h) % n == 0 <==> h % n == t % n
  {
    var qt, rt := t / n, t % n;
    var qh, rh := h / n, h % n;
    assert t - h == (rt - rh) + (qt - qh) * n;
    ModShift(rt - rh, qt - qh, n);
    if rt > rh {
      ModUnique(rt - rh, n, 0, rt - rh);
    } else if rt < rh {
      ModUnique(rt - rh, n, -1, rt - rh + n);
    }
  }

  /** 2^32 is a multiple of each of its divisors. */
  lemma DivisorMultiple(n: nat) returns (c: int)
    requires n > 0 && TWO_32 % n == 0
    ensures TWO_32 == c * n
  {
    c := TWO_32 / n;
  }

  /** Two counters less than a ring length apart use different slots. */
  lemma DistinctSlots(a: u32, i: nat, j: nat, n: nat)
    requires n > 0 && TWO_32 % n == 0
    requires i < j < n
    ensures (a + i) % n != (a + j) % n
  {
    if (a + i) % n == (a + j) % n {
      ModDiff(a + j, a + i, n);
      assert j - i == (a + j) - (a + i);
      ModUnique(j - i, n, 0, j - i);
      assert false;
    }
  }

  /** The slot of a counter is the counter modulo the ring length. */
  lemma SlotIsMod(x: u32, mask: u32, n: nat)
    requires IsPowerOfTwo(n) && mask == n - 1
    ensures BitAnd(x, mask) == x % n
  {
    AndLowMask(x, Log2(n));
  }

  /** The counter `b` in terms of `a` and their distance. */
  lemma SlotOfDist(a: u32, b: u32, n: nat)
    requires n > 0 && TWO_32 % n == 0
    ensures (a + Dist(a, b)) % n == b % n
  {
    var c := DivisorMultiple(n);
    var q := (b - a) / TWO_32;
    assert a + Dist(a, b) == b - q * TWO_32;
    assert q * TWO_32 == (q * c) * n;
    ModShift(b, -(q * c), n);
  }

  /** Extending the far end by `n` lengthens the distance by `n`. */
  lemma DistExtend(a: u32, b: u32, n: u32)
    requires Dist(a, b) + n < TWO_32
    ensures Dist(a, WrappingAdd(b, n)) == Dist(a, b) + n
  {
  }

  /** The test of `is_full` on a head and a tail at most a ring length
      apart: it holds exactly when they are a whole ring length apart. */
  lemma FullTest(h: u32, t: u32, mask: u32, n: nat)
    requires IsPowerOfTwo(n) && n < TWO_32 && mask == n - 1
    requires Dist(h, t) <= n
    ensures (h != t && BitAnd(BitXor(h, t), mask) == 0) <==> Dist(h, t) == n
  {
    PowerOfTwoDivides(n);
    SameSlotIff(h, t, n);
    DistZero(h, t);
    var d := Dist(h, t);
    if d % n == 0 && d != 0 && d != n {
      ModUnique(d, n, 0, d);
      assert false;
    }
    if d == n {
      ModUnique(n, n, 1, 0);
    }
  }

  /* ---------------------------------------------------------------------- */
  /* Ring contents                                                          */
  /* ---------------------------------------------------------------------- */

  /** The `count` slots of a ring holding `c` that follow counter `from`,
      in counter order. */
  ghost function RingWindow<T>(c: seq<T>, from: int, count: nat): (w: seq<T>)
    requires |c| > 0
    ensures |w| == count
  {
    seq(count, j requires 0 <= j < count => c[(from + j) % |c|])
  }

  /** Advancing the start of a window by `k` drops its first `k` items. */
  lemma WindowDrop<T>(c: seq<T>, from: u32, count: nat, k: u32)
    requires |c| > 0 && TWO_32 % |c| == 0 && k <= count
    ensures RingWindow(c, WrappingAdd(from, k), count - k) == RingWindow(c, from, count)[k..]
  {
    var n := |c|;
    var start := WrappingAdd(from, k);
    assert start == (from + k) % TWO_32 by {
      WrappingAddIsMod(from, k);
    }
    var w, v := RingWindow(c, start, count - k), RingWindow(c, from, count)[k..];
    forall j | 0 <= j < count - k
      ensures w[j] == v[j]
    {
      assert (start + j) % n == (from + k + j) % n by {
        AddMod(from + k, j, n);
      }
      assert v[j] == c[(from + (k + j)) % n];
    }
  }

  /** Writing the slot just past a window shorter than the ring leaves the
      window alone and extends it by the written item. */
  lemma WindowWrite<T>(c: seq<T>, from: u32, count: nat, slot: nat, v: T)
    requires |c| > 0 && TWO_32 % |c| == 0 && count < |c|
    requires slot == (from + count) % |c|
    ensures RingWindow(c[slot := v], from, count) == RingWindow(c, from, count)
    ensures RingWindow(c[slot := v], from, count + 1) == RingWindow(c, from, count) + [v]
  {
    var c' := c[slot := v];
    var w, w' := RingWindow(c, from, count), RingWindow(c', from, count + 1);
    forall j | 0 <= j < count
      ensures w'[j] == w[j]
    {
      DistinctSlots(from, j, count, |c|);
    }
    assert w'[..count] == w;
    assert RingWindow(c', from, count) == w'[..count];
  }

  /** Reducing a counter modulo 2^32 before adding an offset does not
      change the slot: `(x % 2^32 + j) % n == (x + j) % n` for a divisor
      `n` of 2^32. */
  lemma AddMod(x: int, j: int, n: nat)
    requires n > 0 && TWO_32 % n == 0
    ensures (x % TWO_32 + j) % n == (x + j) % n
  {
    var c := DivisorMultiple(n);
    var q, r := x / TWO_32, x % TWO_32;
    assert x == q * TWO_32 + r;
    assert q * TWO_32 == (q * c) * n;
    assert r + j == (x + j) + (-(q * c)) * n;
    ModShift(x + j, -(q * c), n);
  }

  /* ---------------------------------------------------------------------- */
  /* Submission queue                                                       */
  /* ---------------------------------------------------------------------- */

  datatype SubmissionError<E> = QueueFull | FillError(error: E)

  /** The closure given to `submit_with`: it runs one builder, stores the
      user data and then returns `result`. */
  datatype Filler<E> = Filler(cmd: SS.Command, userData: u64, result: Result<(), E>)

  /** The entry a `Filler` leaves in a cleared slot. */
  function Filled<E>(fill: Filler<E>): SS.Sqe
  {
    SS.Encode(fill.cmd, SS.ZeroSqe).(userData := fill.userData)
  }

  class SubmissionQueue {
    /** The kernel's consumer counter. */
    var kHead: u32
    /** The published producer counter. */
    var kTail: u32
    /** Our last reading of `kHead`. */
    var cachedHead: u32
    /** The producer counter including staged, unpublished entries. */
    var localTail: u32
    const ringMask: u32
    /** The index array, set up as the identity. */
    const kArray: array<u32>
    /** The submission entries, one object per slot. */
    const sces: array<SS.SubmissionEntry>
    /** `ring_entries`, which the source reads once and does not keep. */
    ghost const entries: nat
    ghost const Slots: set<SS.SubmissionEntry>
    ghost const Repr: set<object>

    /** The arrays: the identity index array and one distinct entry
        object per slot. */
    ghost predicate Arrays()
      reads kArray, sces
    {
      && kArray.Length == entries && sces.Length == entries
      && (forall i :: 0 <= i < entries ==> kArray[i] == i)
      && (forall i :: 0 <= i < sces.Length ==> sces[i] in Slots)
      && (forall i, j :: 0 <= i < j < sces.Length ==> sces[i] != sces[j])
    }

    ghost predicate Valid()
      reads this, kArray, sces
    {
      && Repr == {this, kArray, sces} + Slots
      && IsPowerOfTwo(entries) && entries < TWO_32 && ringMask == entries - 1
      && Arrays()
      // the kernel head lies between our cached copy and the published
      // tail, which is at most the staged tail, at most a ring apart
      && Dist(cachedHead, kHead) <= Dist(cachedHead, kTail) <= Dist(cachedHead, localTail) <= entries
    }

    /** What the entry array holds, slot by slot. */
    ghost function Contents(): seq<SS.Sqe>
      requires forall i :: 0 <= i < sces.Length ==> sces[i] in Slots
      reads sces, Slots
    {
      seq(sces.Length, i requires 0 <= i < sces.Length && sces[i] in Slots reads sces, Slots => sces[i].View())
    }

    /** The entries submitted and not yet consumed by the kernel, oldest
        first: the published ones, then the staged ones. */
    ghost function Pending(): seq<SS.Sqe>
      requires Valid()
      reads this, kArray, sces, Slots
    {
      RingWindow(Contents(), kHead, Dist(kHead, localTail))
    }

    /** How many of the pending entries the kernel may consume. */
    ghost function Published(): nat
      reads this
    {
      Dist(kHead, kTail)
    }

    lemma Occupancy()
      requires Valid()
      ensures Published() <= |Pending()| <= entries
      ensures TWO_32 % entries == 0 && entries <= 0x8000_0000
    {
      DistSplit(cachedHead, kHead, kTail);
      DistSplit(cachedHead, kHead, localTail);
      PowerOfTwoDivides(entries);
    }

    /** `SubmissionQueue::new`: the `assert`s become the precondition; the
        kernel hands over consistent counters and zeroed entries. */
    constructor (sqEntries: u32, ringEntries: u32, mask: u32, head: u32, tail: u32)
      requires sqEntries == ringEntries
      requires IsPowerOfTwo(ringEntries)
      requires mask == ringEntries - 1
      requires Dist(head, tail) <= ringEntries
      ensures Valid() && fresh(Repr)
      ensures kHead == cachedHead == head && kTail == localTail == tail
      ensures forall i :: 0 <= i < kArray.Length ==> kArray[i] == i
      ensures Pending() == seq(Dist(head, tail), _ => SS.ZeroSqe)
    {
      var index := IdentityArray(ringEntries);
      var objs, slots := FreshEntries(ringEntries);
      var entryArray := new SS.SubmissionEntry[ringEntries](j requires 0 <= j < ringEntries => objs[j]);
      kHead, cachedHead, kTail, localTail := head, head, tail, tail;
      ringMask := mask;
      kArray := index;
      sces := entryArray;
      entries := ringEntries;
      Slots := slots;
      Repr := {this, index, entryArray} + slots;
      new;
      assert forall j :: 0 <= j < sces.Length ==> sces[j] == objs[j];
      assert Contents() == seq(ringEntries, _ => SS.ZeroSqe);
    }

    /** `refresh_head`: load the kernel head. */
    method RefreshHead() returns (h: u32)
      requires Valid()
      modifies this`cachedHead
      ensures Valid() && Pending() == old(Pending())
      ensures h == cachedHead == kHead
    {
      DistSplit(cachedHead, kHead, kTail);
      DistSplit(cachedHead, kHead, localTail);
      cachedHead := kHead;
      h := cachedHead;
    }

    /** `head`: reload the kernel head only if the cached head differs from
        the tail but names the same slot, i.e. the ring looks full. */
    method Head() returns (h: u32)
      requires Valid()
      modifies this`cachedHead
      ensures Valid() && Pending() == old(Pending())
      ensures h == cachedHead
      ensures cachedHead == (if old(cachedHead) != localTail
                               && BitAnd(BitXor(old(cachedHead), localTail), ringMask) == 0
                             then kHead else old(cachedHead))
    {
      if cachedHead != localTail {
        if BitAnd(BitXor(cachedHead, localTail), ringMask) == 0 {
          h := RefreshHead();
        }
      }
      h := cachedHead;
    }

    /** `is_full`: true exactly when all `ring_entries` slots hold entries
        the kernel has not consumed, although the kernel head is reloaded
        only when the cached one already says so. */
    method IsFull() returns (full: bool)
      requires Valid()
      modifies this`cachedHead
      ensures Valid() && Pending() == old(Pending())
      ensures full <==> |Pending()| == entries
      ensures !full ==> Dist(cachedHead, localTail) < entries
    {
      ghost var c0 := cachedHead;
      FullTest(c0, localTail, ringMask, entries);
      DistSplit(c0, kHead, localTail);
      var head := Head();
      full := head != localTail && BitAnd(BitXor(head, localTail), ringMask) == 0;
      FullTest(cachedHead, localTail, ringMask, entries);
    }

    /** The body of `submit_with` on a free slot: clear the entry, then
        let the closure build it and set its user data. */
    method FillSlot<E>(slot: nat, fill: Filler<E>)
      requires Valid() && slot < sces.Length
      modifies sces[slot]
      ensures Contents() == old(Contents())[slot := Filled(fill)]
    {
      var entry := sces[slot];
      entry.Clear();
      entry.Build(fill.cmd);
      entry.userData := fill.userData;
      forall i | 0 <= i < sces.Length && i != slot
        ensures sces[i].View() == old(sces[i].View())
      {
        assert sces[i] != entry;
      }
    }

    /** `BulkSubmission::submit_with`: if the ring is full, fail with
        `QueueFull` and write nothing; otherwise clear the slot at
        `local_tail & ring_mask`, let the closure fill it, and stage it by
        advancing `local_tail` unless the closure failed. */
    method SubmitWith<E>(fill: Filler<E>) returns (r: Result<(), SubmissionError<E>>)
      requires Valid()
      modifies this`cachedHead, this`localTail, Slots
      ensures Valid()
      ensures r == Err(QueueFull) <==> old(|Pending()|) == entries
      ensures r == Err(QueueFull) ==> unchanged(Slots)
      ensures r.Err? ==> localTail == old(localTail) && Pending() == old(Pending())
      ensures r.Err? && r.error.FillError? ==> fill.result == Err(r.error.error)
      ensures r.Ok? <==> old(|Pending()|) < entries && fill.result.Ok?
      ensures r.Ok? ==> localTail == WrappingAdd(old(localTail), 1)
                        && Pending() == old(Pending()) + [Filled(fill)]
    {
      var full := IsFull();
      if full {
        return Err(QueueFull);
      }
      r := Stage(fill);
    }

    /** `submit_with` once the ring is known not to be full. */
    method Stage<E>(fill: Filler<E>) returns (r: Result<(), SubmissionError<E>>)
      requires Valid() && Dist(cachedHead, localTail) < entries
      modifies this`localTail, Slots
      ensures Valid()
      ensures r.Err? ==> localTail == old(localTail) && Pending() == old(Pending())
                         && fill.result.Err? && r == Err(FillError(fill.result.error))
      ensures r.Ok? <==> fill.result.Ok?
      ensures r.Ok? ==> localTail == WrappingAdd(old(localTail), 1)
                        && Pending() == old(Pending()) + [Filled(fill)]
    {
      ghost var p0 := Pending();
      ghost var before := Contents();
      ghost var n := Dist(kHead, localTail);
      assert n < entries && TWO_32 % entries == 0 && |before| == entries by {
        Occupancy();
        DistSplit(cachedHead, kHead, localTail);
      }
      var slot := BitAnd(localTail, ringMask);
      assert slot == (kHead + n) % entries by {
        SlotIsMod(localTail, ringMask, entries);
        SlotOfDist(kHead, localTail, entries);
      }
      FillSlot(slot, fill);
      ghost var after := Contents();
      assert after == before[slot := Filled(fill)];
      WindowWrite(before, kHead, n, slot, Filled(fill));
      assert Pending() == RingWindow(after, kHead, n);
      if fill.result.Err? {
        return Err(FillError(fill.result.error));
      }
      Advance();
      r := Ok(());
    }

    /** Stage the entry at `local_tail` by advancing it. */
    method Advance()
      requires Valid() && Dist(cachedHead, localTail) < entries
      modifies this`localTail
      ensures Valid()
      ensures localTail == WrappingAdd(old(localTail), 1)
      ensures Pending() == RingWindow(Contents(), kHead, old(|Pending()|) + 1)
    {
      Occupancy();
      DistSplit(cachedHead, kHead, localTail);
      DistExtend(cachedHead, localTail, 1);
      DistExtend(kHead, localTail, 1);
      localTail := WrappingAdd(localTail, 1);
    }

    /** Dropping `BulkSubmission` (`flush_tail`): publish the staged
        entries. */
    method FlushTail()
      requires Valid()
      modifies this`kTail
      ensures Valid() && Pending() == old(Pending())
      ensures kTail == localTail
      ensures Published() == |Pending()|
    {
      kTail := localTail;
    }

    /** `has_pending_submissions`: whether the kernel, freshly asked, has
        entries left to consume. */
    method HasPendingSubmissions() returns (b: bool)
      requires Valid()
      modifies this`cachedHead
      ensures Valid() && Pending() == old(Pending())
      ensures b <==> Pending() != []
    {
      var h := RefreshHead();
      b := h != localTail;
      DistZero(h, localTail);
    }

    /** `pending_submissions` with the subtraction wrapping, as the counters
        do: the number of entries the kernel has not consumed. */
    method PendingSubmissions() returns (n: u32)
      requires Valid()
      modifies this`cachedHead
      ensures Valid() && Pending() == old(Pending())
      ensures n == |Pending()|
    {
      var h := RefreshHead();
      n := WrappingSub(localTail, h);
    }

    /** `pending_submissions` as written: `local_tail - head` with the u32
        subtraction checked, as in a debug build. */
    method PendingSubmissionsChecked() returns (r: Outcome<u32>)
      requires Valid()
      modifies this`cachedHead
      ensures Valid() && Pending() == old(Pending())
      ensures r == CheckedSub(localTail, kHead)
      ensures r.Returned? ==> r.value == |Pending()|
    {
      var h := RefreshHead();
      r := CheckedSub(localTail, h);
    }

    /** The kernel consumes `n` published entries and advances its head. */
    method KernelConsume(n: u32) returns (ghost taken: seq<SS.Sqe>)
      requires Valid()
      requires n <= Published()
      modifies this`kHead
      ensures Valid()
      ensures taken == old(Pending())[..n]
      ensures Pending() == old(Pending())[n..]
      ensures Published() == old(Published()) - n
    {
      Occupancy();
      taken := Pending()[..n];
      DistSplit(cachedHead, kHead, kTail);
      DistSplit(cachedHead, kHead, localTail);
      DistAdvance(kHead, kTail, n);
      DistAdvance(kHead, localTail, n);
      DistExtend(cachedHead, kHead, n);
      WindowDrop(Contents(), kHead, Dist(kHead, localTail), n);
      kHead := WrappingAdd(kHead, n);
    }
  }

  /** The index array of `SubmissionQueue::new`: slot `i` holds `i`. */
  method IdentityArray(n: u32) returns (a: array<u32>)
    ensures fresh(a) && a.Length == n
    ensures forall i :: 0 <= i < n ==> a[i] == i
  {
    a := new u32[n];
    var i: u32 := 0;
    while i < n
      invariant i <= n
      invariant forall j :: 0 <= j < i ==> a[j] == j
    {
      a[i] := i;
      i := i + 1;
    }
  }

  /** `n` distinct zeroed submission entries, as the kernel maps them,
      and the set of them. */
  method FreshEntries(n: u32) returns (objs: seq<SS.SubmissionEntry>, ghost slots: set<SS.SubmissionEntry>)
    ensures |objs| == n && fresh(slots)
    ensures forall j :: 0 <= j < n ==> objs[j] in slots && objs[j].View() == SS.ZeroSqe
    ensures forall a, b :: 0 <= a < b < n ==> objs[a] != objs[b]
  {
    objs, slots := [], {};
    while |objs| < n
      invariant |objs| <= n && fresh(slots)
      invariant forall j :: 0 <= j < |objs| ==> objs[j] in slots && objs[j].View() == SS.ZeroSqe
      invariant forall a, b :: 0 <= a < b < |objs| ==> objs[a] != objs[b]
    {
      var e := new SS.SubmissionEntry();
      objs, slots := objs + [e], slots + {e};
    }
  }

  /** `a - b` on u32 with overflow checks on: a panic when `b > a`. */
  function CheckedSub(a: u32, b: u32): (r: Outcome<u32>)
    ensures r.Returned? <==> b <= a
    ensures r.Returned? ==> r.value == Dist(b, a)
  {
    if b <= a then Returned(a - b) else Panicked("attempt to subtract with overflow")
  }

  /** After the counters wrap, one pending entry makes the checked
      subtraction panic although the wrapping distance is 1. */
  lemma PendingSubmissionsOverflow()
    ensures Dist(0xFFFF_FFFF, 0) == 1
    ensures CheckedSub(0, 0xFFFF_FFFF).Panicked?
  {
  }

  /* ---------------------------------------------------------------------- */
  /* Completion queue                                                       */
  /* ---------------------------------------------------------------------- */

  class CompletionQueue {
    /** The published consumer counter. */
    var kHead: u32
    /** The consumer counter including entries read but not released. */
    var localHead: u32
    /** The kernel's producer counter. */
    var kTail: u32
    /** Our last reading of `kTail`. */
    var cachedTail: u32
    const ringMask: u32
    /** Completions the kernel dropped because the ring was full. */
    var kOverflow: u32
    const cqes: array<CompletionEntry>
    ghost const entries: nat
    ghost const Repr: set<object>

    ghost predicate Valid()
      reads this
    {
      && Repr == {this, cqes}
      && IsPowerOfTwo(entries) && entries < TWO_32 && ringMask == entries - 1
      && cqes.Length == entries
      // the published head, then the read head, then our copy of the
      // kernel tail, then the kernel tail, at most a ring apart
      && Dist(kHead, localHead) <= Dist(kHead, cachedTail) <= Dist(kHead, kTail) <= entries
    }

    /** The completions not yet read, oldest first. */
    ghost function Pending(): seq<CompletionEntry>
      requires Valid()
      reads this, cqes
    {
      RingWindow(cqes[..], localHead, Dist(localHead, kTail))
    }

    lemma Occupancy()
      requires Valid()
      ensures |Pending()| <= Dist(kHead, kTail) <= entries
      ensures TWO_32 % entries == 0 && entries <= 0x8000_0000
    {
      DistSplit(kHead, localHead, kTail);
      PowerOfTwoDivides(entries);
    }

    /** `CompletionQueue::new`: the `assert`s become the precondition; the
        kernel hands over consistent counters and the ring's contents. */
    constructor (cqEntries: u32, ringEntries: u32, mask: u32, head: u32, tail: u32,
                 ring: seq<CompletionEntry>)
      requires cqEntries == ringEntries
      requires IsPowerOfTwo(ringEntries)
      requires mask == ringEntries - 1
      requires Dist(head, tail) <= ringEntries && |ring| == ringEntries
      ensures Valid() && fresh(Repr)
      ensures kHead == localHead == head && kTail == cachedTail == tail && kOverflow == 0
      ensures Pending() == RingWindow(ring, head, Dist(head, tail))
    {
      kHead, localHead, kTail, cachedTail := head, head, tail, tail;
      ringMask := mask;
      kOverflow := 0;
      var a := new CompletionEntry[ringEntries](j requires 0 <= j < ringEntries => ring[j]);
      cqes := a;
      entries := ringEntries;
      Repr := {this, a};
      new;
      assert cqes[..] == ring;
    }

    /** `refresh_tail`. */
    method RefreshTail() returns (t: u32)
      requires Valid()
      modifies this`cachedTail
      ensures Valid() && Pending() == old(Pending())
      ensures t == cachedTail == kTail
    {
      cachedTail := kTail;
      t := cachedTail;
    }

    /** `is_empty`: the kernel tail is reloaded only when the cached tail
        has been reached. */
    method IsEmpty() returns (empty: bool)
      requires Valid()
      modifies this`cachedTail
      ensures Valid() && Pending() == old(Pending())
      ensures empty <==> Pending() == []
      ensures cachedTail == (if old(cachedTail) == localHead then kTail else old(cachedTail))
      ensures !empty ==> cachedTail != localHead
    {
      if cachedTail == localHead {
        var t := RefreshTail();
        empty := t == localHead;
        DistZero(localHead, kTail);
      } else {
        empty := false;
        DistSplit(kHead, localHead, cachedTail);
        DistSplit(kHead, localHead, kTail);
        DistZero(localHead, cachedTail);
      }
    }

    /** `BulkCompletion::next`: the oldest unread completion, read from slot
        `local_head & ring_mask`; completions come out in ring order. */
    method Next() returns (r: Option<CompletionEntry>)
      requires Valid()
      modifies this`cachedTail, this`localHead
      ensures Valid()
      ensures old(Pending()) == [] ==>
                r == None && Pending() == [] && localHead == old(localHead)
      ensures old(Pending()) != [] ==>
                r == Some(old(Pending())[0]) && Pending() == old(Pending())[1..]
                && localHead == WrappingAdd(old(localHead), 1)
    {
      var empty := IsEmpty();
      if empty {
        return None;
      }
      Occupancy();
      ghost var before := Pending();
      var ndx := localHead;
      SlotIsMod(ndx, ringMask, entries);
      var item := cqes[BitAnd(ndx, ringMask)];
      assert item == before[0];
      assert Dist(kHead, WrappingAdd(ndx, 1)) <= Dist(kHead, cachedTail) by {
        DistSplit(kHead, ndx, cachedTail);
        DistZero(ndx, cachedTail);
        DistExtend(kHead, ndx, 1);
      }
      assert RingWindow(cqes[..], WrappingAdd(ndx, 1), Dist(WrappingAdd(ndx, 1), kTail)) == before[1..] by {
        WindowDrop(cqes[..], ndx, Dist(ndx, kTail), 1);
        DistAdvance(ndx, kTail, 1);
      }
      localHead := WrappingAdd(ndx, 1);
      r := Some(item);
    }

    /** Dropping `BulkCompletion` (`flush_head`): release the entries read
        so far to the kernel. */
    method FlushHead()
      requires Valid()
      modifies this`kHead
      ensures Valid() && Pending() == old(Pending())
      ensures kHead == localHead
      ensures Dist(kHead, kTail) == |Pending()|
    {
      DistSplit(kHead, localHead, kTail);
      DistSplit(kHead, localHead, cachedTail);
      kHead := localHead;
    }

    /** The kernel posts a completion: appended when the ring has room as
        far as the published head tells, counted as overflow otherwise. */
    method KernelPost(e: CompletionEntry)
      requires Valid()
      modifies this`kTail, this`kOverflow, cqes
      ensures Valid()
      ensures old(Dist(kHead, kTail)) == entries ==>
                Pending() == old(Pending()) && kOverflow == WrappingAdd(old(kOverflow), 1)
      ensures old(Dist(kHead, kTail)) < entries ==>
                Pending() == old(Pending()) + [e] && kOverflow == old(kOverflow)
                && Dist(kHead, kTail) == old(Dist(kHead, kTail)) + 1
    {
      Occupancy();
      if Dist(kHead, kTail) == ringMask + 1 {
        kOverflow := WrappingAdd(kOverflow, 1);
        return;
      }
      ghost var c := cqes[..];
      ghost var n := Dist(localHead, kTail);
      SlotOfDist(localHead, kTail, entries);
      DistSplit(kHead, localHead, kTail);
      SlotIsMod(kTail, ringMask, entries);
      cqes[BitAnd(kTail, ringMask)] := e;
      assert cqes[..] == c[(localHead + n) % entries := e];
      WindowWrite(c, localHead, n, (localHead + n) % entries, e);
      DistExtend(kHead, kTail, 1);
      DistExtend(localHead, kTail, 1);
      kTail := WrappingAdd(kTail, 1);
    }

    /** The kernel posting `posted` in order into a ring with room for
        all of them. */
    method KernelPostAll(posted: seq<CompletionEntry>)
      requires Valid() && Dist(kHead, kTail) + |posted| <= entries
      modifies this`kTail, this`kOverflow, cqes
      ensures Valid() && kOverflow == old(kOverflow)
      ensures Pending() == old(Pending()) + posted
    {
      var i := 0;
      while i < |posted|
        invariant Valid() && i <= |posted| && kOverflow == old(kOverflow)
        invariant Dist(kHead, kTail) + |posted| - i <= entries
        invariant Pending() == old(Pending()) + posted[..i]
      {
        KernelPost(posted[i]);
        assert posted[..i + 1] == posted[..i] + [posted[i]];
        i := i + 1;
      }
      assert posted[..i] == posted;
    }
  }
}
