/** Vocabulary shared by every module: optional values, bytes, byte buffers and character classes. */
module Basics {
  datatype Option<+T> = None | Some(value: T)

  /** One `uint8_t`. */
  type byte = x: int | 0 <= x < 256

  /** What the UART functions return for arguments they refuse. */
  const UART_ERR_ARG := -9

  /** `isspace` in the C locale. */
  predicate IsSpace(c: char) {
    c == ' ' || '\t' <= c <= '\r'
  }

  predicate IsDigit(c: char) {
    '0' <= c <= '9'
  }

  function Min(a: nat, b: nat): nat {
    if a < b then a else b
  }

  function Max(a: nat, b: nat): nat {
    if a < b then b else a
  }

  /** The first `n` elements, or all of them when there are fewer. */
  function Take<T>(s: seq<T>, n: nat): seq<T> {
    s[..Min(|s|, n)]
  }

  function Zeros(n: nat): seq<byte> {
    seq(n, _ => 0)
  }

  /** A buffer of exactly `n` bytes that starts with `s` and is zero after it. */
  function Fit(s: seq<byte>, n: nat): (r: seq<byte>)
    ensures |r| == n
  {
    Take(s, n) + Zeros(n - Min(|s|, n))
  }

  lemma ConcatAssoc<T>(a: seq<T>, b: seq<T>, c: seq<T>)
    ensures (a + b) + c == a + (b + c)
  {
  }

  // ---- repeating a step ---------------------------------------------------------------------------------

  /** What `n` steps lead to, when each of them can be taken. */
  function Iterate<S>(step: S -> Option<S>, s: S, n: nat): Option<S>
    decreases n
  {
    if n == 0 then Some(s)
    else
      match step(s)
      case Some(s1) => Iterate(step, s1, n - 1)
      case None => None
  }

  lemma {:induction false} IterateThen<S>(step: S -> Option<S>, s: S, n: nat, m: nat)
    requires Iterate(step, s, n).Some?
    ensures Iterate(step, s, n + m) == Iterate(step, Iterate(step, s, n).value, m)
    decreases n
  {
    if n > 0 {
      IterateThen(step, step(s).value, n - 1, m);
    }
  }

  lemma IterateOne<S>(step: S -> Option<S>, s: S, s1: S)
    requires step(s) == Some(s1)
    ensures Iterate(step, s, 1) == Some(s1)
  {
  }

  /** Steps that are also steps of another kind. */
  lemma {:induction false} IterateAs<S(!new)>(step: S -> Option<S>, other: S -> Option<S>, s: S, n: nat)
    requires forall x :: step(x).Some? ==> other(x) == step(x)
    requires Iterate(step, s, n).Some?
    ensures Iterate(other, s, n) == Iterate(step, s, n)
    decreases n
  {
    if n > 0 {
      IterateAs(step, other, step(s).value, n - 1);
    }
  }
}
