// Shared vocabulary: option/result wrappers, the Rust standard library's
// io::Error as far as the reactor inspects it, and futures-0.1 poll results.

module Wrappers {
  datatype Option<T> = None | Some(value: T)

  datatype Result<T, E> = Ok(value: T) | Err(error: E)
}

module Io {
  import opened Wrappers
  import opened MachineInt

  /** The `io::ErrorKind`s the model distinguishes. */
  datatype ErrorKind = Interrupted | WouldBlock | TimedOut | Other

  /** `io::Error`: either a raw OS error number or a kind with a message. */
  datatype Error = Os(code: int) | Custom(kind: ErrorKind, message: string)

  /** `io::Error::kind`: the errno table of Linux for the numbers the model
      distinguishes (EINTR = 4, EAGAIN = 11, ETIMEDOUT = 110); every other
      number, including a negative one, has no dedicated kind. */
  function Kind(e: Error): ErrorKind
  {
    match e
    case Os(code) =>
      if code == 4 then Interrupted
      else if code == 11 then WouldBlock
      else if code == 110 then TimedOut
      else Other
    case Custom(kind, _) => kind
  }

  /** `futures::Async`: the outcome of polling a future or a stream once. */
  datatype Async<T> = Ready(value: T) | NotReady

  /** `futures::Poll` of a future that resolved to `r`. */
  function Resolved<T, E>(r: Result<T, E>): (p: Result<Async<T>, E>)
    ensures p.Ok? <==> r.Ok?
    ensures p.Ok? ==> p.value == Ready(r.value)
    ensures p.Err? ==> p.error == r.error
  {
    match r
    case Ok(v) => Ok(Ready(v))
    case Err(e) => Err(e)
  }

  /** An explicit `panic!` of the source: the call does not return. */
  datatype Outcome<T> = Returned(value: T) | Panicked(message: string)

  /** A `futures::task::Task` handle, identified by the task it wakes. */
  type Task = nat

  /** A user buffer handed to the kernel: where it lives and how long it is. */
  datatype Buffer = Buffer(addr: int, len: nat)

  /** A file handle: only its raw descriptor is visible to the reactor. */
  datatype File = File(fd: i32)
}

/** Fixed-width integers and the bit operations the rings use on them.
    `&` and `^` are defined arithmetically on non-negative integers, bit by
    bit from the least significant end. */
module MachineInt {
  const TWO_8: int := 0x100
  const TWO_16: int := 0x1_0000
  const TWO_32: int := 0x1_0000_0000
  const TWO_64: int := 0x1_0000_0000_0000_0000

  type u8 = x: int | 0 <= x < TWO_8
  type u16 = x: int | 0 <= x < TWO_16
  type u32 = x: int | 0 <= x < TWO_32
  type u64 = x: int | 0 <= x < TWO_64
  type i32 = x: int | -0x8000_0000 <= x < 0x8000_0000

  /** `a.wrapping_add(b)` on u32: the sum, less 2^32 when it overflows. */
  function WrappingAdd(a: u32, b: u32): (r: u32)
  {
    if a + b < TWO_32 then a + b else a + b - TWO_32
  }

  /** `a.wrapping_sub(b)` on u32: the distance from `b` forward to `a`. */
  function WrappingSub(a: u32, b: u32): (r: u32)
  {
    if a >= b then a - b else a - b + TWO_32
  }

  /** Wrapping addition is addition modulo 2^32. */
  lemma WrappingAddIsMod(a: u32, b: u32)
    ensures WrappingAdd(a, b) == (a + b) % TWO_32
  {
  }

  /** Wrapping subtraction is subtraction modulo 2^32. */
  lemma WrappingSubIsMod(a: u32, b: u32)
    ensures WrappingSub(a, b) == (a - b) % TWO_32
  {
  }

  /** `n as i32` for a u32: the same 32 bits read as two's complement. */
  function U32AsI32(n: u32): (r: i32)
    ensures r == n || r == n - TWO_32
    ensures r >= 0 <==> n < 0x8000_0000
  {
    if n < 0x8000_0000 then n else n - TWO_32
  }

  /** `n as u32` for an i32, the inverse reinterpretation. */
  function I32AsU32(n: i32): (r: u32)
    ensures r % TWO_32 == n % TWO_32
  {
    if n >= 0 then n else n + TWO_32
  }

  /** Truncating cast to 16 bits (`x as u16` for a non-negative value). */
  function Low16(x: nat): (r: u16)
    ensures r == x % TWO_16
  {
    x % TWO_16
  }

  lemma ReinterpretRoundTrip(n: u32)
    ensures I32AsU32(U32AsI32(n)) == n
  {
  }

  function Pow2(k: nat): (r: nat)
    ensures r >= 1
  {
    if k == 0 then 1 else 2 * Pow2(k - 1)
  }

  /** `x & y` on non-negative integers. */
  function BitAnd(x: nat, y: nat): nat
    decreases x
  {
    if x == 0 || y == 0 then 0
    else 2 * BitAnd(x / 2, y / 2) + (if x % 2 == 1 && y % 2 == 1 then 1 else 0)
  }

  /** `x ^ y` on non-negative integers. */
  function BitXor(x: nat, y: nat): nat
    decreases x + y
  {
    if x == 0 then y
    else if y == 0 then x
    else 2 * BitXor(x / 2, y / 2) + (if x % 2 != y % 2 then 1 else 0)
  }

  /** A power of two, as `u32::is_power_of_two` tests it. */
  predicate IsPowerOfTwo(n: nat)
  {
    n == 1 || (n >= 2 && n % 2 == 0 && IsPowerOfTwo(n / 2))
  }

  /** The exponent of a power of two. */
  function Log2(n: nat): (k: nat)
    requires IsPowerOfTwo(n)
    ensures Pow2(k) == n
  {
    if n == 1 then 0 else 1 + Log2(n / 2)
  }

  lemma {:induction false} Pow2Monotone(j: nat, k: nat)
    requires j <= k
    ensures Pow2(j) <= Pow2(k)
    decreases k
  {
    if j < k {
      Pow2Monotone(j, k - 1);
    }
  }

  lemma Pow2Of32()
    ensures Pow2(32) == TWO_32
  {
    assert Pow2(8) == 0x100;
    assert Pow2(16) == 0x1_0000 by { assert Pow2(16) == Pow2(8) * Pow2(8) by { Pow2Add(8, 8); } }
    assert Pow2(32) == Pow2(16) * Pow2(16) by { Pow2Add(16, 16); }
  }

  lemma {:induction false} Pow2Add(j: nat, k: nat)
    ensures Pow2(j + k) == Pow2(j) * Pow2(k)
    decreases k
  {
    if k > 0 {
      Pow2Add(j, k - 1);
      assert Pow2(j + k) == 2 * Pow2(j + k - 1);
    }
  }

  /** 2^32 splits into 2^(32 - k) times 2^k. */
  lemma Pow2Split32(k: nat)
    requires k <= 32
    ensures Pow2(32 - k) * Pow2(k) == TWO_32
  {
    var a, b := Pow2(k), Pow2(32 - k);
    Pow2Add(k, 32 - k);
    assert Pow2(32) == a * b;
    Pow2Of32();
    assert b * a == a * b;
  }

  /** Every power of two that fits in a u32 divides 2^32. */
  lemma PowerOfTwoDivides(n: nat)
    requires IsPowerOfTwo(n) && n < TWO_32
    ensures TWO_32 % n == 0
    ensures n <= 0x8000_0000
  {
    var k := Log2(n);
    if k >= 32 {
      Pow2Monotone(32, k);
      Pow2Of32();
      assert false;
    }
    var q := Pow2(32 - k);
    Pow2Split32(k);
    assert TWO_32 == q * n + 0;
    ModUnique(TWO_32, n, q, 0);
    var h := Pow2(31);
    assert h * 2 == TWO_32 by {
      Pow2Split32(31);
      assert Pow2(1) == 2;
    }
    assert n <= h by {
      Pow2Monotone(k, 31);
    }
  }

  lemma ModSplit(x: nat, p: nat)
    requires p >= 1
    ensures x % (2 * p) == 2 * ((x / 2) % p) + x % 2
  {
    var q := (x / 2) / p;
    var r := (x / 2) % p;
    assert x / 2 == q * p + r;
    assert x == 2 * (x / 2) + x % 2;
    assert x == q * (2 * p) + (2 * r + x % 2);
    assert 0 <= 2 * r + x % 2 < 2 * p;
    ModUnique(x, 2 * p, q, 2 * r + x % 2);
  }

  lemma ModUnique(x: int, m: int, q: int, r: int)
    requires m > 0 && 0 <= r < m && x == q * m + r
    ensures x % m == r && x / m == q
  {
    var q', r' := x / m, x % m;
    assert (q - q') * m == r' - r;
    if q > q' {
      MulAtLeast(q - q', m);
    } else if q < q' {
      MulAtLeast(q' - q, m);
    }
  }

  lemma MulAtLeast(a: int, m: int)
    requires a >= 1 && m > 0
    ensures a * m >= m
  {
    assert (a - 1) * m >= 0;
  }

  /** Masking with `2^k - 1` keeps the remainder modulo `2^k`. */
  lemma {:induction false} AndLowMask(x: nat, k: nat)
    ensures BitAnd(x, Pow2(k) - 1) == x % Pow2(k)
  {
    if k == 0 {
      assert Pow2(0) == 1;
    } else if x == 0 {
      ModUnique(0, Pow2(k), 0, 0);
    } else {
      var p, P := Pow2(k - 1), Pow2(k);
      assert P == 2 * p;
      var m := P - 1;
      assert m / 2 == p - 1 && m % 2 == 1;
      AndLowMask(x / 2, k - 1);
      assert BitAnd(x, m) == 2 * ((x / 2) % p) + x % 2;
      ModSplit(x, p);
      assert x % P == x % (2 * p);
    }
  }

  /** The low `k` bits of `x ^ y` are clear exactly when `x` and `y` agree
      modulo `2^k`. */
  lemma {:induction false} XorLowBits(x: nat, y: nat, k: nat)
    ensures BitXor(x, y) % Pow2(k) == 0 <==> x % Pow2(k) == y % Pow2(k)
    decreases k
  {
    if k > 0 {
      var p := Pow2(k - 1);
      ModSplit(x, p);
      ModSplit(y, p);
      ModSplit(BitXor(x, y), p);
      XorLowBits(x / 2, y / 2, k - 1);
      assert BitXor(x, y) / 2 == BitXor(x / 2, y / 2)
        && BitXor(x, y) % 2 == (if x % 2 != y % 2 then 1 else 0);
    }
  }

  /** `x & 1 == 0` tests evenness. */
  lemma AndOne(x: nat)
    ensures BitAnd(x, 1) == x % 2
  {
    AndLowMask(x, 1);
  }

  /** Reducing modulo 2^32 first does not change the remainder modulo a
      divisor of 2^32. */
  lemma ModOfWrapped(x: int, n: nat)
    requires n > 0 && TWO_32 % n == 0
    ensures (x % TWO_32) % n == x % n
  {
    var c := TWO_32 / n;
    assert TWO_32 == c * n;
    var q := x / TWO_32;
    assert x == q * TWO_32 + x % TWO_32;
    assert x == (q * c) * n + (x % TWO_32) by {
      assert q * TWO_32 == q * (c * n);
      assert q * (c * n) == (q * c) * n;
    }
    var r := (x % TWO_32) % n;
    var s := (x % TWO_32) / n;
    assert x % TWO_32 == s * n + r;
    assert x == (q * c + s) * n + r;
    ModUnique(x, n, q * c + s, r);
  }
}
