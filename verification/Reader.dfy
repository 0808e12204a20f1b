/** A cursor over a protobuf message body. */
module WireReader {
  import opened Base
  import opened Varints
  import opened Fields

  class Reader {
    const buf: bytes
    /** Moves past the end when a skip overshoots. */
    var pos: nat

    constructor (buf: bytes)
      ensures this.buf == buf && Rest() == buf
    {
      this.buf := buf;
      pos := 0;
    }

    /** The bytes not yet read. */
    ghost function Rest(): bytes
      reads this
    {
      Drop(buf, pos)
    }

    predicate Done()
      reads this
      ensures Done() <==> Rest() == []
    {
      pos >= |buf|
    }

    /** Shifts seven-bit groups into an unbounded accumulator and masks at the end. */
    method VarintBig() returns (r: Result<nat, DecodeError>)
      modifies this
      ensures match ReadScalar(old(Rest()))
              case Err(e) => r == Err(e)
              case Ok(p) => r == Ok(p.0) && Rest() == p.1 && pos <= |buf|
    {
      var result, scale: nat := 0, 1;
      assert ReadVarint(Rest()) == Resume(0, 1, ReadVarint(Rest()));
      while true
        invariant 0 <= result < scale
        invariant ReadVarint(old(Rest())) == Resume(result, scale, ReadVarint(Rest()))
        decreases |Rest()|
      {
        if pos >= |buf| {
          return Err(VarintTruncated);
        }
        var b: int := buf[pos];
        ResumeStep(result, scale, Rest());
        pos := pos + 1;
        assert Rest() == Drop(buf, pos - 1)[1..];
        if b < 0x80 {
          result := result + b * scale;
          return Ok(Wrap64(result));
        }
        Below(result, b - 0x80, scale);
        result := result + (b - 0x80) * scale;
        scale := scale * 0x80;
      }
    }

    method Tag() returns (r: Result<Fields.Tag, DecodeError>)
      modifies this
      ensures match ReadTag(old(Rest()))
              case Err(e) => r == Err(e)
              case Ok(p) => r == Ok(p.0) && Rest() == p.1
    {
      var key :- VarintBig();
      var number := ToNumber(key);
      return Ok(Fields.Tag(number % TWO32 / 8, number % 8));
    }

    /** `Number(varintBig())`: a u64 rounded to a double. */
    method Varint() returns (r: Result<nat, DecodeError>)
      modifies this
      ensures match ReadScalar(old(Rest()))
              case Err(e) => r == Err(e)
              case Ok(p) => r == Ok(ToNumber(p.0)) && Rest() == p.1
    {
      var v :- VarintBig();
      return Ok(ToNumber(v));
    }

    method Bool() returns (r: Result<bool, DecodeError>)
      modifies this
      ensures match ReadScalar(old(Rest()))
              case Err(e) => r == Err(e)
              case Ok(p) => r == Ok(p.0 != 0) && Rest() == p.1
    {
      var v :- VarintBig();
      return Ok(v != 0);
    }

    /**
     * A length-delimited view. A length above 2^53 is rounded by `Number()` in the source; either way
     * it exceeds every buffer, so the exact length takes the same branch.
     */
    method Bytes() returns (r: Result<bytes, DecodeError>)
      modifies this
      ensures match ReadBytes(old(Rest()))
              case Err(e) => r == Err(e)
              case Ok(p) => r == Ok(p.0) && Rest() == p.1
    {
      ghost var before := Rest();
      var n :- VarintBig();
      ghost var here := Rest();
      assert ReadScalar(before) == Ok((n, here));
      var end := pos + n;
      if end > |buf| {
        return Err(FieldTruncated);
      }
      r := Ok(buf[pos..end]);
      assert r.value == here[..n];
      pos := end;
    }

    /** Skips a field of the given wire type; fixed-width and length skips may overshoot. */
    method Skip(wireType: nat) returns (r: Result<(), DecodeError>)
      modifies this
      ensures match SkipField(wireType, old(Rest()))
              case Err(e) => r == Err(e)
              case Ok(after) => r == Ok(()) && Rest() == after
    {
      if wireType == WIRE_VARINT {
        var _ :- VarintBig();
      } else if wireType == WIRE_FIXED64 {
        pos := pos + 8;
      } else if wireType == WIRE_LEN {
        var n :- VarintBig();
        pos := pos + n;
      } else if wireType == WIRE_FIXED32 {
        pos := pos + 4;
      } else {
        return Err(UnsupportedWireType(wireType));
      }
      return Ok(());
    }
  }

  /** The varint that `rest` completes when groups worth `result`, below `scale`, are already read. */
  ghost function Resume(result: nat, scale: nat, rest: Result<(nat, bytes), DecodeError>)
    : Result<(nat, bytes), DecodeError>
  {
    if rest.Err? then rest else Ok((result + scale * rest.value.0, rest.value.1))
  }

  lemma ResumeStep(result: nat, scale: nat, b: bytes)
    requires b != []
    ensures Resume(result, scale, ReadVarint(b))
            == if b[0] < 0x80 then Ok((result + b[0] * scale, b[1..]))
               else Resume(result + (b[0] - 0x80) * scale, scale * 0x80, ReadVarint(b[1..]))
  {
    var digit: int := b[0];
    if digit < 0x80 {
      Commute(scale, digit);
    } else if ReadVarint(b[1..]).Ok? {
      Horner(scale, digit, ReadVarint(b[1..]).value.0);
    }
  }

  lemma Commute(a: int, b: int)
    ensures a * b == b * a
  {
  }

  lemma Horner(scale: int, b: int, q: int)
    ensures scale * (b - 0x80 + 0x80 * q) == (b - 0x80) * scale + (scale * 0x80) * q
  {
  }

  lemma Below(result: nat, digit: nat, scale: nat)
    requires result < scale && digit < 0x80
    ensures result + digit * scale < scale * 0x80
  {
    assert digit * scale <= 0x7f * scale;
  }
}
