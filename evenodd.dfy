/**
 * Parity by mutual recursion (evenodd.py), directly and through thunks that
 * a trampoline forces in a loop, so the stack stays flat.
 */
module EvenOdd {

  /** `is_even`, for n >= 0. */
  function IsEven(n: nat): bool {
    if n == 0 then true else IsOdd(n - 1)
  }

  /** `is_odd`, for n >= 0. */
  function IsOdd(n: nat): bool {
    if n == 0 then false else IsEven(n - 1)
  }

  /** `is_even(n)` holds exactly for even `n`, and `is_odd(n)` is its negation. */
  lemma {:induction false} ParityIsRemainder(n: nat)
    ensures IsEven(n) <==> n % 2 == 0
    ensures IsOdd(n) == !IsEven(n)
  {
    if n > 0 {
      ParityIsRemainder(n - 1);
    }
  }

  /** Which of the two mutually recursive functions a thunk calls. */
  datatype Parity = Even | Odd

  /** The value a thunked function returns: a result, or a `lambda` that calls `next` on `n`. */
  datatype Thunk = Done(value: bool) | Bounce(next: Parity, n: nat)

  /** The direct function for `p`. */
  function Direct(p: Parity, n: nat): bool {
    match p
    case Even => IsEven(n)
    case Odd => IsOdd(n)
  }

  /** `is_even_thunked`. */
  function IsEvenThunked(n: nat): Thunk {
    if n == 0 then Done(true) else Bounce(Odd, n - 1)
  }

  /** `is_odd_thunked`. */
  function IsOddThunked(n: nat): Thunk {
    if n == 0 then Done(false) else Bounce(Even, n - 1)
  }

  /** The thunked function for `p`. */
  function Thunked(p: Parity, n: nat): Thunk {
    match p
    case Even => IsEvenThunked(n)
    case Odd => IsOddThunked(n)
  }

  /** What a thunk stands for: its value, or what the function it calls would return directly. */
  function Meaning(t: Thunk): bool {
    match t
    case Done(b) => b
    case Bounce(p, n) => Direct(p, n)
  }

  /**
   * Each thunked function returns the direct function's result at 0 and
   * otherwise a thunk that calls the other function on `n - 1`; either way
   * the thunk means what the direct function returns.
   */
  lemma ThunkedMeansDirect(p: Parity, n: nat)
    ensures n == 0 ==> Thunked(p, n) == Done(Direct(p, 0))
    ensures n > 0 ==> Thunked(p, n) == Bounce(if p == Even then Odd else Even, n - 1)
    ensures Meaning(Thunked(p, n)) == Direct(p, n)
  {
  }

  /**
   * `trampoline(f, n)` with `f` the thunked function for `p`: calls the
   * thunk it holds until it holds a value, and returns that value, which is
   * what the direct function returns, after exactly `n` calls of thunks.
   */
  method Trampoline(p: Parity, n: nat) returns (v: bool, ghost bounces: nat)
    ensures v == Direct(p, n)
    ensures bounces == n
  {
    var t := Thunked(p, n);
    bounces := 0;
    while t.Bounce?
      invariant Meaning(t) == Direct(p, n)
      invariant t.Bounce? ==> bounces + t.n + 1 == n
      invariant t.Done? ==> bounces == n
      decreases if t.Bounce? then t.n + 1 else 0
    {
      ThunkedMeansDirect(t.next, t.n);
      t := Thunked(t.next, t.n);
      bounces := bounces + 1;
    }
    v := t.value;
  }

  /** The example's calls: `is_even(800)` and `trampoline(is_even_thunked, 1000)` are both True. */
  method Example() returns (direct: bool, trampolined: bool)
    ensures direct && trampolined
  {
    ParityIsRemainder(800);
    direct := IsEven(800);
    ghost var bounces;
    trampolined, bounces := Trampoline(Even, 1000);
    ParityIsRemainder(1000);
  }
}
