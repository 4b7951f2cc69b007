/**
 * Shared vocabulary of the model: optional values (Java's nullable
 * references), the exceptions the plugin throws or lets escape, Java's
 * 32-bit `int` arithmetic, and the few string and sequence helpers the
 * codecs and state providers use.
 */
module Base {

  /** A nullable reference: `None` plays the role of Java's `null`. */
  datatype Option<+T> = None | Some(value: T)

  /** The exception kinds that leave the modelled operations. */
  datatype Exc =
    | IllegalArgument(msg: string)   // java.lang.IllegalArgumentException
    | IllegalState(msg: string)      // java.lang.IllegalStateException
    | PlannerError(msg: string)      // PlannerException: wrapped transport or identity failure
    | UniformInterface               // Jersey's UniformInterfaceException, escaping unwrapped
    | ClientHandler                  // Jersey's ClientHandlerException, escaping unwrapped
    | AssertionFailure(msg: string)  // java.lang.AssertionError from a constructor guard
    | NullPointer                    // java.lang.NullPointerException
    | JsonFormat                     // json-lib's JSONException: missing key or wrong kind
    | ClassCast                      // java.lang.ClassCastException
    | FormFailure(msg: string)       // Descriptor.FormException

  /** Either a returned value or a thrown exception. */
  datatype Result<+T> = Ok(value: T) | Throw(exc: Exc)

  /**
   * A constructor's guard against a null argument: the dispatchers and the
   * periodic updaters throw AssertionError with their own message, and
   * otherwise keep the argument.
   */
  function Guard<T>(x: Option<T>, msg: string): (r: Result<T>)
    ensures x.None? <==> r == Throw(AssertionFailure(msg))
    ensures x.Some? ==> r == Ok(x.value)
  {
    if x.None? then Throw(AssertionFailure(msg)) else Ok(x.value)
  }

  // ---------------------------------------------------------------------
  // Java `int`

  const TwoTo31: int := 0x8000_0000
  const TwoTo32: int := 0x1_0000_0000

  type Int32 = x: int | -TwoTo31 <= x < TwoTo31

  /** Two's-complement truncation of a mathematical integer to Java `int`. */
  function Wrap32(x: int): (r: Int32)
    ensures (r - x) % TwoTo32 == 0
    ensures -TwoTo31 <= x < TwoTo31 ==> r == x
  {
    ((x + TwoTo31) % TwoTo32) - TwoTo31
  }

  /** 2^k. */
  function Pow2(k: nat): (r: nat)
    ensures r >= 1
  {
    if k == 0 then 1 else 2 * Pow2(k - 1)
  }

  /** Truncation to `int` keeps the low five bits: it moves by whole multiples of 2^32. */
  lemma Wrap32Mod32(x: int)
    ensures Wrap32(x) % 32 == x % 32
    ensures Wrap32(32 + x) % 32 == x % 32
  {
    var q := (Wrap32(x) - x) / TwoTo32;
    assert Wrap32(x) == x + 32 * (q * 0x800_0000);
    var q' := (Wrap32(32 + x) - 32 - x) / TwoTo32;
    assert Wrap32(32 + x) == x + 32 * (q' * 0x800_0000 + 1);
  }

  /**
   * Java `x << distance` on `int`: only the low five bits of the distance
   * count (section 15.19 of the Java Language Specification), and bits
   * shifted out past bit 31 are lost.
   */
  function ShiftLeft32(x: Int32, distance: Int32): (r: Int32)
    ensures distance % 32 == 0 ==> r == x
    ensures x == 0 ==> r == 0
    ensures -TwoTo31 <= x * Pow2(distance % 32) < TwoTo31 ==> r == x * Pow2(distance % 32)
  {
    Wrap32(x * Pow2(distance % 32))
  }

  /** A shift reads its distance modulo 32 only. */
  lemma ShiftLeft32Low5(x: Int32, d1: Int32, d2: Int32)
    requires d1 % 32 == d2 % 32
    ensures ShiftLeft32(x, d1) == ShiftLeft32(x, d2)
  {
  }

  // ---------------------------------------------------------------------
  // Strings

  predicate StartsWith(s: string, prefix: string) {
    |prefix| <= |s| && s[..|prefix|] == prefix
  }

  predicate EndsWith(s: string, suffix: string) {
    |suffix| <= |s| && s[|s| - |suffix|..] == suffix
  }

  /** The window of `s` starting at `i` spells `w`. */
  predicate OccursAt(s: string, i: int, w: string) {
    0 <= i <= |s| - |w| && s[i..i + |w|] == w
  }

  /** `s.contains(w)`: some window of `s` spells `w`. */
  predicate Contains(s: string, w: string) {
    exists i | 0 <= i <= |s| - |w| :: OccursAt(s, i, w)
  }

  /** Lower-casing of one character; only ASCII letters are mapped. */
  function ToLowerChar(c: char): (d: char)
    ensures 'A' <= c <= 'Z' ==> 'a' <= d <= 'z'
    ensures !('A' <= c <= 'Z') ==> d == c
  {
    if 'A' <= c <= 'Z' then (c as int - 'A' as int + 'a' as int) as char else c
  }

  function ToLower(s: string): (r: string)
    ensures |r| == |s|
    ensures forall i :: 0 <= i < |s| ==> r[i] == ToLowerChar(s[i])
  {
    seq(|s|, i requires 0 <= i < |s| => ToLowerChar(s[i]))
  }

  // ---------------------------------------------------------------------
  // Order-preserving filter, as every `for (x : xs) if (p(x)) out.add(x)` loop

  function Filter<T(!new)>(s: seq<T>, p: T -> bool): (r: seq<T>)
    ensures |r| <= |s|
    ensures forall x :: x in r <==> x in s && p(x)
  {
    if |s| == 0 then []
    else (if p(s[0]) then [s[0]] else []) + Filter(s[1..], p)
  }

  /** Filtering distributes over concatenation: relative order is kept. */
  lemma {:induction false} FilterAppend<T(!new)>(a: seq<T>, b: seq<T>, p: T -> bool)
    ensures Filter(a + b, p) == Filter(a, p) + Filter(b, p)
  {
    if |a| == 0 {
      assert a + b == b;
    } else {
      assert (a + b)[0] == a[0];
      assert (a + b)[1..] == a[1..] + b;
      FilterAppend(a[1..], b, p);
    }
  }

  /** Filtering keeps every element exactly when the predicate holds throughout. */
  lemma {:induction false} FilterKeepsAll<T(!new)>(s: seq<T>, p: T -> bool)
    requires forall i :: 0 <= i < |s| ==> p(s[i])
    ensures Filter(s, p) == s
  {
    if |s| > 0 {
      FilterKeepsAll(s[1..], p);
    }
  }

  /** Filtering keeps nothing when the predicate fails throughout. */
  lemma {:induction false} FilterKeepsNone<T(!new)>(s: seq<T>, p: T -> bool)
    requires forall i :: 0 <= i < |s| ==> !p(s[i])
    ensures Filter(s, p) == []
  {
    if |s| > 0 {
      FilterKeepsNone(s[1..], p);
    }
  }
}
