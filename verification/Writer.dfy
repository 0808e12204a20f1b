/** The growable buffer that appends protobuf fields. */
module WireWriter {
  import opened Base
  import opened Fields
  import opened Messages

  /** Some doubling of the initial capacity. */
  ghost predicate Doubled(from: nat, to: nat)
    decreases to
  {
    to == from || (to >= 2 && to % 2 == 0 && Doubled(from, to / 2))
  }

  /** The capacity after `n` turns of the doubling loop. */
  function Grown(capacity: nat, n: nat): nat
    decreases n
  {
    if n == 0 then capacity else Grown(capacity * 2, n - 1)
  }

  lemma {:induction false} GrownAtLeast(capacity: nat, n: nat)
    ensures if capacity == 0 then Grown(capacity, n) == 0 else Grown(capacity, n) >= capacity + n
    decreases n
  {
    if n > 0 {
      GrownAtLeast(capacity * 2, n - 1);
    }
  }

  /** The doubling loop reaches what is needed if and only if it starts from something, or nothing is needed. */
  lemma DoublingEnds(capacity: nat, needed: nat)
    ensures (exists n :: Grown(capacity, n) >= needed) <==> capacity > 0 || needed == 0
  {
    GrownAtLeast(capacity, needed);
    assert Grown(capacity, needed) >= needed || (capacity == 0 && needed > 0);
    forall n
      ensures capacity == 0 ==> Grown(capacity, n) == 0
    {
      GrownAtLeast(capacity, n);
    }
  }

  lemma DoubledOnce(from: nat, to: nat)
    requires Doubled(from, to) && to > 0
    ensures Doubled(from, to * 2)
  {
  }

  class Writer {
    var buf: array<byte>
    var len: nat
    /** The capacity given to the constructor, and the bytes that growing has moved so far. */
    ghost const initial: nat
    ghost var copied: nat
    /** The fields written so far. */
    ghost var fields: seq<Field>

    /** Growth stays amortised: doublings only, at most half empty once grown, and few bytes moved. */
    ghost predicate Sound()
      reads this, buf
    {
      && initial <= buf.Length
      && len <= buf.Length <= Max(initial, 2 * len)
      && Doubled(initial, buf.Length)
      && copied + initial <= buf.Length
    }

    /** Between field writes the buffer holds exactly the fields written, in order. */
    ghost predicate Valid()
      reads this, buf
    {
      Sound() && Contents() == Ser(fields)
    }

    ghost function Contents(): bytes
      reads this, buf
      requires len <= buf.Length
    {
      buf[..len]
    }

    constructor (capacity: nat := 64)
      ensures Valid() && fresh(buf) && fields == [] && initial == capacity
    {
      buf := new byte[capacity](_ => 0);
      len := 0;
      initial := capacity;
      copied := 0;
      fields := [];
    }

    /** Room for `extra` more bytes; the contents do not change. From capacity 0 the loop would not end. */
    method Reserve(extra: nat)
      requires Sound() && (initial > 0 || extra == 0)
      modifies this
      ensures (buf == old(buf) || fresh(buf)) && fields == old(fields)
      ensures len == old(len) && len + extra <= buf.Length && Contents() == old(Contents())
      ensures initial <= buf.Length <= Max(initial, 2 * (len + extra))
      ensures Doubled(initial, buf.Length) && copied + initial <= buf.Length
    {
      hide Doubled;
      var needed := len + extra;
      if needed <= buf.Length {
        return;
      }
      var cap := buf.Length * 2;
      DoubledOnce(initial, buf.Length);
      while cap < needed
        invariant 2 * buf.Length <= cap && cap < 2 * needed
        invariant Doubled(initial, cap)
        modifies {}
        decreases needed - cap
      {
        DoubledOnce(initial, cap);
        cap := cap * 2;
      }
      var next := new byte[cap](_ => 0);
      forall i | 0 <= i < len {
        next[i] := buf[i];
      }
      copied := copied + len;
      buf := next;
    }

    /** `reserve(value.length); buf.set(value, len); len += value.length`. */
    method Append(value: bytes)
      requires Sound() && (initial > 0 || value == [])
      modifies this, buf
      ensures Sound() && (buf == old(buf) || fresh(buf)) && fields == old(fields)
      ensures Contents() == old(Contents()) + value
    {
      Reserve(|value|);
      forall i | 0 <= i < |value| {
        buf[len + i] := value[i];
      }
      len := len + |value|;
    }

    method PushByte(b: byte)
      requires Sound() && initial > 0
      modifies this, buf
      ensures Sound() && (buf == old(buf) || fresh(buf)) && fields == old(fields)
      ensures Contents() == old(Contents()) + [b]
    {
      Reserve(1);
      buf[len] := b;
      len := len + 1;
    }

    /** The 32-bit fast path and the bigint path write the same bytes. */
    method Varint(value: int)
      requires Sound() && initial > 0
      modifies this, buf
      ensures Sound() && (buf == old(buf) || fresh(buf)) && fields == old(fields)
      ensures Contents() == old(Contents()) + Varints.Varint(Wrap64(value))
    {
      if value > 0xffff_ffff || value < 0 {
        VarintBig(value);
        return;
      }
      var v := value;
      while v >= 0x80
        invariant 0 <= v <= value
        invariant Sound() && (buf == old(buf) || fresh(buf)) && fields == old(fields)
        invariant Contents() + Varints.Varint(v) == old(Contents()) + Varints.Varint(value)
        decreases v
      {
        PushByte(v % 0x80 + 0x80);
        v := v / 0x80;
      }
      PushByte(v);
    }

    method VarintBig(value: int)
      requires Sound() && initial > 0
      modifies this, buf
      ensures Sound() && (buf == old(buf) || fresh(buf)) && fields == old(fields)
      ensures Contents() == old(Contents()) + Varints.Varint(Wrap64(value))
    {
      var v := Wrap64(value);
      while v >= 0x80
        invariant Sound() && (buf == old(buf) || fresh(buf)) && fields == old(fields)
        invariant Contents() + Varints.Varint(v) == old(Contents()) + Varints.Varint(Wrap64(value))
        decreases v
      {
        PushByte(v % 0x80 + 0x80);
        v := v / 0x80;
      }
      PushByte(v);
    }

    method Tag(fieldNo: nat, wireType: nat)
      requires Sound() && initial > 0
      modifies this, buf
      ensures Sound() && (buf == old(buf) || fresh(buf)) && fields == old(fields)
      ensures Contents() == old(Contents()) + TagBytes(fieldNo, wireType)
    {
      Varint(8 * fieldNo + wireType);
    }

    /** Records a field whose bytes have just been appended to a valid buffer. */
    ghost method Wrote(f: Field, before: bytes)
      requires Sound() && before == Ser(fields) && Contents() == before + SerField(f)
      modifies `fields
      ensures Valid() && fields == old(fields) + [f]
    {
      SerConcat(fields, [f]);
      SerOne(f);
      fields := fields + [f];
    }

    method Uint64(fieldNo: nat, value: int)
      requires Valid() && (initial > 0 || value == 0)
      modifies this, buf
      ensures Valid() && (buf == old(buf) || fresh(buf))
      ensures fields == old(fields) + Uint(fieldNo, value)
    {
      if value == 0 {
        return;
      }
      Uint64Present(fieldNo, value);
    }

    method Uint64Present(fieldNo: nat, value: int)
      requires Valid() && initial > 0
      modifies this, buf
      ensures Valid() && (buf == old(buf) || fresh(buf))
      ensures fields == old(fields) + OptUint(fieldNo, Some(value))
    {
      hide Varints.Varint, Wrap64;
      ghost var before := Contents();
      Tag(fieldNo, WIRE_VARINT);
      VarintBig(value);
      ConcatAssoc(before, TagBytes(fieldNo, WIRE_VARINT), Varints.Varint(Wrap64(value)));
      Wrote(Num(fieldNo, Wrap64(value)), before);
    }

    method Bool(fieldNo: nat, value: bool)
      requires Valid() && (initial > 0 || !value)
      modifies this, buf
      ensures Valid() && (buf == old(buf) || fresh(buf))
      ensures fields == old(fields) + Flag(fieldNo, value)
    {
      if !value {
        return;
      }
      ghost var before := Contents();
      Tag(fieldNo, WIRE_VARINT);
      PushByte(1);
      ConcatAssoc(before, TagBytes(fieldNo, WIRE_VARINT), [1]);
      Wrote(Num(fieldNo, 1), before);
    }

    /** `enum` and `uint32`, which are the same code. */
    method Uint32(fieldNo: nat, value: int)
      requires Valid() && (initial > 0 || value == 0)
      modifies this, buf
      ensures Valid() && (buf == old(buf) || fresh(buf))
      ensures fields == old(fields) + Uint(fieldNo, value)
    {
      if value == 0 {
        return;
      }
      hide Varints.Varint, Wrap64;
      ghost var before := Contents();
      Tag(fieldNo, WIRE_VARINT);
      Varint(value);
      ConcatAssoc(before, TagBytes(fieldNo, WIRE_VARINT), Varints.Varint(Wrap64(value)));
      Wrote(Num(fieldNo, Wrap64(value)), before);
    }

    /** `bytes`, and `string` on the string's UTF-8 bytes. */
    method Bytes(fieldNo: nat, value: bytes)
      requires Valid() && (initial > 0 || value == [])
      modifies this, buf
      ensures Valid() && (buf == old(buf) || fresh(buf))
      ensures fields == old(fields) + Messages.Bytes(fieldNo, value)
    {
      if |value| == 0 {
        return;
      }
      RepeatedString(fieldNo, value);
    }

    method RepeatedString(fieldNo: nat, value: bytes)
      requires Valid() && initial > 0
      modifies this, buf
      ensures Valid() && (buf == old(buf) || fresh(buf))
      ensures fields == old(fields) + [Data(fieldNo, value)]
    {
      Message(fieldNo, value, Data(fieldNo, value));
    }

    /** An embedded message from its encoded bytes: the length-delimited field `f`. */
    method Message(fieldNo: nat, value: bytes, ghost f: Field)
      requires Valid() && initial > 0 && SerField(f) == LengthDelimited(fieldNo, value)
      modifies this, buf
      ensures Valid() && (buf == old(buf) || fresh(buf))
      ensures fields == old(fields) + [f]
    {
      hide Varints.Varint, Wrap64, SerField, Ser;
      ghost var before := Contents();
      Tag(fieldNo, WIRE_LEN);
      Varint(|value|);
      Append(value);
      ConcatAssoc(before, TagBytes(fieldNo, WIRE_LEN), Varints.Varint(Wrap64(|value|)));
      ConcatAssoc(before, TagBytes(fieldNo, WIRE_LEN) + Varints.Varint(Wrap64(|value|)), value);
      Wrote(f, before);
    }

    method Finish() returns (out: bytes)
      requires Valid()
      ensures out == Ser(fields)
    {
      out := buf[..len];
    }
  }
}
