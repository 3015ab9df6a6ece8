/** Vocabulary shared by every component. */
module Prelude {

  datatype Option<+T> = None | Some(value: T)

  /** Wall-clock instants and durations, in one integral unit. */
  type Time = int

  /** Go's zero time.Time, the value that IsZero recognises. */
  const ZERO_TIME: Time := 0

  type RunId = string

  function Max(a: int, b: int): int { if a < b then b else a }

  function Min(a: int, b: int): int { if a < b then a else b }

  lemma Associative<T>(x: seq<T>, y: seq<T>, z: seq<T>)
    ensures (x + y) + z == x + (y + z)
  {
  }

  /** What f makes of the elements of a list, end to end. */
  function Collect<S, T>(xs: seq<S>, f: S -> seq<T>): seq<T> {
    if xs == [] then [] else f(xs[0]) + Collect(xs[1..], f)
  }

  lemma CollectFirst<S, T>(x: S, rest: seq<S>, f: S -> seq<T>)
    ensures Collect([x] + rest, f) == f(x) + Collect(rest, f)
  {
    assert ([x] + rest)[1..] == rest;
  }

  lemma {:induction false} CollectConcat<S, T>(a: seq<S>, b: seq<S>, f: S -> seq<T>)
    ensures Collect(a + b, f) == Collect(a, f) + Collect(b, f)
  {
    if a == [] {
      assert a + b == b;
    } else {
      CollectConcat(a[1..], b, f);
      assert (a + b)[1..] == a[1..] + b;
      Associative(f(a[0]), Collect(a[1..], f), Collect(b, f));
    }
  }
}
