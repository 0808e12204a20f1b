/** Base-128 varints: the byte format, the reader's recurrence, and JavaScript's `Number()` of a u64. */
module Varints {
  import opened Base

  datatype DecodeError = VarintTruncated | FieldTruncated | UnsupportedWireType(wireType: nat)

  /** Little-endian groups of seven bits, the high bit set on every byte but the last. */
  function Varint(v: nat): bytes {
    if v < 0x80 then [v] else [v % 0x80 + 0x80] + Varint(v / 0x80)
  }

  /**
   * Reads one varint off the front of `b`: the unmasked value and what follows it. The reader places
   * no limit on the number of bytes, so overlong encodings are accepted.
   */
  function ReadVarint(b: bytes): (r: Result<(nat, bytes), DecodeError>)
    ensures r.Ok? ==> |r.value.1| < |b| && r.value.1 == b[|b| - |r.value.1|..]
  {
    if b == [] then Err(VarintTruncated)
    else if b[0] < 0x80 then Ok((b[0], b[1..]))
    else
      match ReadVarint(b[1..])
      case Err(e) => Err(e)
      case Ok(p) => Ok((b[0] - 0x80 + 0x80 * p.0, p.1))
  }

  /** `Number(v)` for a bigint: exact up to 2^53, else the nearest double, ties to the even mantissa. */
  function ToNumber(v: nat): nat {
    if v <= TWO53 then v else RoundToUlp(v, 1)
  }

  function RoundToUlp(v: nat, ulp: nat): nat
    requires ulp > 0
    decreases v - TWO53 * ulp
  {
    if v >= TWO53 * ulp then RoundToUlp(v, 2 * ulp)
    else
      var q, r := v / ulp, v % ulp;
      if 2 * r < ulp || (2 * r == ulp && q % 2 == 0) then q * ulp else (q + 1) * ulp
  }

  /** A varint is read back exactly, whatever bytes follow it. */
  lemma {:induction false} VarintRoundTrip(v: nat, rest: bytes)
    ensures ReadVarint(Varint(v) + rest) == Ok((v, rest))
  {
    var b := Varint(v) + rest;
    if v < 0x80 {
      assert b[1..] == rest;
    } else {
      VarintRoundTrip(v / 0x80, rest);
      assert b[1..] == Varint(v / 0x80) + rest;
    }
  }

  /** What `varintBig` writes for any bigint reads back as its residue, and takes one to ten bytes. */
  lemma WrappedVarintRoundTrip(v: int, rest: bytes)
    ensures ReadVarint(Varint(Wrap64(v)) + rest) == Ok((Wrap64(v), rest))
    ensures 1 <= |Varint(Wrap64(v))| <= 10
  {
    VarintRoundTrip(Wrap64(v), rest);
    VarintLength(Wrap64(v), 10);
  }

  function Pow128(n: nat): nat {
    if n == 0 then 1 else 0x80 * Pow128(n - 1)
  }

  /** `Varint(v)` fits in `n` bytes exactly when `v` fits in `7n` bits. */
  lemma {:induction false} VarintLength(v: nat, n: nat)
    requires n > 0
    ensures |Varint(v)| <= n <==> v < Pow128(n)
    ensures n == 10 && v < TWO64 ==> |Varint(v)| <= 10
  {
    assert Pow128(n) == 0x80 * Pow128(n - 1);
    if v >= 0x80 {
      if n == 1 {
        assert Pow128(0) == 1;
        assert |Varint(v / 0x80)| >= 1;
      } else {
        VarintLength(v / 0x80, n - 1);
      }
    } else {
      Pow128Positive(n - 1);
    }
    if n == 10 {
      Pow128Ten();
    }
  }

  lemma {:induction false} Pow128Positive(n: nat)
    ensures Pow128(n) >= 1
  {
    if n > 0 {
      Pow128Positive(n - 1);
    }
  }

  lemma Pow128Ten()
    ensures TWO64 <= Pow128(10)
  {
    assert Pow128(2) == 0x4000;
    assert Pow128(4) == 0x1000_0000;
    assert Pow128(6) == 0x400_0000_0000;
    assert Pow128(8) == 0x100_0000_0000_0000;
    assert Pow128(10) == 0x40_0000_0000_0000_0000;
  }

  /** Minimality: no byte string that the reader takes for `v` is shorter than `Varint(v)`. */
  lemma {:induction false} VarintMinimal(b: bytes)
    requires ReadVarint(b).Ok?
    ensures |Varint(ReadVarint(b).value.0)| <= |b| - |ReadVarint(b).value.1|
  {
    if b[0] >= 0x80 {
      VarintMinimal(b[1..]);
      var v := ReadVarint(b[1..]).value.0;
      var w := b[0] - 0x80 + 0x80 * v;
      assert w / 0x80 == v;
    }
  }

  /** The reader fails exactly on bytes that all continue: it takes a varint of any length. */
  lemma {:induction false} VarintReadable(b: bytes)
    ensures ReadVarint(b).Ok? <==> exists i :: 0 <= i < |b| && b[i] < 0x80
  {
    if b != [] {
      VarintReadable(b[1..]);
      assert forall i :: 0 < i < |b| ==> b[i] == b[1..][i - 1];
      assert forall i :: 0 <= i < |b| - 1 ==> b[1..][i] == b[i + 1];
    }
  }

  lemma {:induction false} RoundsUpTo(v: nat, ulp: nat)
    requires ulp >= 2 && v >= TWO53 / 2 * ulp
    ensures RoundToUlp(v, ulp) >= TWO53
    decreases v - TWO53 * ulp
  {
    if v >= TWO53 * ulp {
      RoundsUpTo(v, 2 * ulp);
    } else {
      assert v / ulp >= TWO53 / 2;
      assert v / ulp * ulp >= TWO53 / 2 * ulp >= TWO53;
    }
  }

  /** Against any length a buffer can have, an announced length compares as its rounding to a double does. */
  lemma RoundedLengthsCompareAlike(announced: nat, n: nat)
    requires n < TWO53
    ensures ToNumber(announced) > n <==> announced > n
  {
    if announced > TWO53 {
      RoundsUpTo(announced, 2);
    }
  }
}
