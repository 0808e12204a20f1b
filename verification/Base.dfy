/** Vocabulary shared by every module: results, bytes, and machine-width constants. */
module Base {

  datatype Option<+T> = None | Some(value: T)

  /** A computed value, or the exception the source would have thrown. */
  datatype Result<+T, +E> = Ok(value: T) | Err(error: E) {
    predicate IsFailure() {
      Err?
    }

    function PropagateFailure<U>(): Result<U, E>
      requires Err?
    {
      Err(error)
    }

    function Extract(): T
      requires Ok?
    {
      value
    }
  }

  type byte = x: int | 0 <= x < 256
  type bytes = seq<byte>

  const TWO32: nat := 0x1_0000_0000
  const TWO53: nat := 0x20_0000_0000_0000
  const TWO64: nat := 0x1_0000_0000_0000_0000

  /** `value & U64_MASK` on a bigint: the residue in 0..2^64, also for negative values. */
  function Wrap64(v: int): nat {
    v % TWO64
  }

  function Min(a: nat, b: nat): nat {
    if a <= b then a else b
  }

  function Max(a: nat, b: nat): nat {
    if a <= b then b else a
  }

  /** What is left of `b` after moving a cursor `n` places, stopping at the end. */
  function Drop(b: bytes, n: nat): bytes {
    if n >= |b| then [] else b[n..]
  }

  function Flatten<T>(parts: seq<seq<T>>): seq<T> {
    if parts == [] then [] else parts[0] + Flatten(parts[1..])
  }

  lemma {:induction false} FlattenConcat<T>(a: seq<seq<T>>, b: seq<seq<T>>)
    ensures Flatten(a + b) == Flatten(a) + Flatten(b)
  {
    if a == [] {
      assert a + b == b;
    } else {
      FlattenConcat(a[1..], b);
      assert (a + b)[1..] == a[1..] + b && (a + b)[0] == a[0];
      assert a[0] + (Flatten(a[1..]) + Flatten(b)) == a[0] + Flatten(a[1..]) + Flatten(b);
    }
  }

  lemma FlattenSnoc<T>(a: seq<seq<T>>, x: seq<T>)
    ensures Flatten(a + [x]) == Flatten(a) + x
  {
    FlattenConcat(a, [x]);
    assert Flatten([x]) == x + Flatten<T>([]);
  }
}
