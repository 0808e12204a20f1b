/**
 * The protobuf message grammar, once for every message. A `Shape` says how the decoder's switch
 * treats each field number; `Parse` is the decode loop; `Ser` is what a sequence of field writes
 * appends. Message modules only say which fields a record has.
 */
module Fields {
  import opened Base
  import opened Varints

  const WIRE_VARINT := 0
  const WIRE_FIXED64 := 1
  const WIRE_LEN := 2
  const WIRE_FIXED32 := 5

  /** How a decoder's switch reads a field: skip it, as a varint, as bytes, or as a nested message. */
  datatype Shape = Skip | Scalar | Blob | Message(fields: seq<Shape>)

  /** One field of a message. `Unknown` is a complete field this build has no case for. */
  datatype Field =
    | Num(no: nat, value: nat)
    | Data(no: nat, data: bytes)
    | Msg(no: nat, fields: seq<Field>)
    | Unknown(no: nat, wireType: nat, payload: bytes)

  /** Field numbers count from one; anything past the table falls to the switch's default. */
  function Lookup(shape: Shape, no: nat): (s: Shape)
    requires shape.Message?
    ensures s != Skip ==> s in shape.fields
  {
    if 1 <= no <= |shape.fields| then shape.fields[no - 1] else Skip
  }

  // ---------------------------------------------------------------------------
  // Reading
  // ---------------------------------------------------------------------------

  datatype Tag = Tag(no: nat, wireType: nat)

  /** `key >>> 3` and `key & 7` of `Number(key)`: the shift works on the residue modulo 2^32. */
  function TagOfKey(v: nat): Tag {
    var key := ToNumber(Wrap64(v));
    Tag(key % TWO32 / 8, key % 8)
  }

  function ReadTag(b: bytes): (r: Result<(Tag, bytes), DecodeError>)
    ensures r.Ok? ==> |r.value.1| < |b|
  {
    match ReadVarint(b)
    case Err(e) => Err(e)
    case Ok(p) => Ok((TagOfKey(p.0), p.1))
  }

  function ReadScalar(b: bytes): (r: Result<(nat, bytes), DecodeError>)
    ensures r.Ok? ==> |r.value.1| < |b|
  {
    match ReadVarint(b)
    case Err(e) => Err(e)
    case Ok(p) => Ok((Wrap64(p.0), p.1))
  }

  function ReadBytes(b: bytes): (r: Result<(bytes, bytes), DecodeError>)
    ensures r.Ok? ==> |r.value.1| < |b|
  {
    match ReadScalar(b)
    case Err(e) => Err(e)
    case Ok(p) => if p.0 > |p.1| then Err(FieldTruncated) else Ok((p.1[..p.0], p.1[p.0..]))
  }

  /** Skipping may overshoot the buffer; the loop then simply ends. */
  function SkipField(wireType: nat, b: bytes): (r: Result<bytes, DecodeError>)
    ensures r.Ok? ==> |r.value| <= |b|
  {
    if wireType == WIRE_VARINT then
      match ReadVarint(b)
      case Err(e) => Err(e)
      case Ok(p) => Ok(p.1)
    else if wireType == WIRE_FIXED64 then Ok(Drop(b, 8))
    else if wireType == WIRE_LEN then
      match ReadScalar(b)
      case Err(e) => Err(e)
      case Ok(p) => Ok(Drop(p.1, p.0))
    else if wireType == WIRE_FIXED32 then Ok(Drop(b, 4))
    else Err(UnsupportedWireType(wireType))
  }

  /** The value of a field the switch has a case for. The wire type plays no part. */
  function ReadValue(s: Shape, no: nat, b: bytes): (r: Result<(Field, bytes), DecodeError>)
    requires s != Skip
    ensures r.Ok? ==> |r.value.1| < |b|
    decreases s, |b|, 2
  {
    if s == Scalar then
      match ReadScalar(b)
      case Err(e) => Err(e)
      case Ok(p) => Ok((Num(no, p.0), p.1))
    else
      match ReadBytes(b)
      case Err(e) => Err(e)
      case Ok(p) =>
        if s == Blob then Ok((Data(no, p.0), p.1))
        else
          match Parse(s, [], p.0)
          case Err(e) => Err(e)
          case Ok(sub) => Ok((Msg(no, sub), p.1))
  }

  /** One turn of the decode loop: the field it recorded, if any, and the bytes that follow. */
  function ReadField(shape: Shape, b: bytes): (r: Result<(seq<Field>, bytes), DecodeError>)
    requires shape.Message?
    ensures r.Ok? ==> |r.value.1| < |b|
    decreases shape, |b|, 0
  {
    match ReadTag(b)
    case Err(e) => Err(e)
    case Ok(t) =>
      var s := Lookup(shape, t.0.no);
      if s == Skip then
        match SkipField(t.0.wireType, t.1)
        case Err(e) => Err(e)
        case Ok(rest) => Ok(([], rest))
      else
        match ReadValue(s, t.0.no, t.1)
        case Err(e) => Err(e)
        case Ok(p) => Ok(([p.0], p.1))
  }

  /** The decode loop on a message body, `seen` being the fields already recorded. */
  function Parse(shape: Shape, seen: seq<Field>, b: bytes): Result<seq<Field>, DecodeError>
    requires shape.Message?
    decreases shape, |b|, 1
  {
    if b == [] then Ok(seen)
    else
      match ReadField(shape, b)
      case Err(e) => Err(e)
      case Ok(p) => Parse(shape, seen + p.0, p.1)
  }

  // ---------------------------------------------------------------------------
  // Writing
  // ---------------------------------------------------------------------------

  /** `(fieldNo << 3) | wireType` as a varint. */
  function TagBytes(no: nat, wireType: nat): bytes {
    Varint(Wrap64(8 * no + wireType))
  }

  function LengthDelimited(no: nat, data: bytes): bytes {
    TagBytes(no, WIRE_LEN) + Varint(Wrap64(|data|)) + data
  }

  function SerField(f: Field): bytes
    decreases f, 0
  {
    match f
    case Num(no, value) => TagBytes(no, WIRE_VARINT) + Varint(value)
    case Data(no, data) => LengthDelimited(no, data)
    case Msg(no, fields) => LengthDelimited(no, Ser(fields))
    case Unknown(no, wireType, payload) => TagBytes(no, wireType) + payload
  }

  function Ser(fs: seq<Field>): bytes
    decreases fs, 1
  {
    if fs == [] then [] else SerField(fs[0]) + Ser(fs[1..])
  }

  lemma {:induction false} SerConcat(a: seq<Field>, b: seq<Field>)
    ensures Ser(a + b) == Ser(a) + Ser(b)
  {
    if a == [] {
      assert a + b == b;
    } else {
      SerConcat(a[1..], b);
      assert (a + b)[1..] == a[1..] + b && (a + b)[0] == a[0];
      ConcatAssoc(SerField(a[0]), Ser(a[1..]), Ser(b));
    }
  }

  lemma ConcatAssoc(a: bytes, b: bytes, c: bytes)
    ensures a + (b + c) == a + b + c
  {
  }

  lemma SerOne(f: Field)
    ensures Ser([f]) == SerField(f)
  {
    assert [f][1..] == [];
  }

  // ---------------------------------------------------------------------------
  // Parsing inverts serialising, and unknown fields are invisible at every depth
  // ---------------------------------------------------------------------------

  /** A payload that `SkipField` consumes whole: any varint, eight bytes, length and data, or four bytes. */
  predicate CompletePayload(wireType: nat, payload: bytes) {
    if wireType == WIRE_FIXED64 then |payload| == 8
    else if wireType == WIRE_FIXED32 then |payload| == 4
    else if wireType == WIRE_VARINT then ReadVarint(payload).Ok? && ReadVarint(payload).value.1 == []
    else wireType == WIRE_LEN && ReadBytes(payload).Ok? && ReadBytes(payload).value.1 == []
  }

  predicate FieldFits(shape: Shape, f: Field)
    requires shape.Message?
    decreases f, 0
  {
    && 1 <= f.no < 0x2000_0000
    && var s := Lookup(shape, f.no);
       match f
       case Num(_, value) => s.Scalar? && value < TWO64
       case Data(_, _) => s.Blob?
       case Msg(_, fields) => s.Message? && Fits(s, fields)
       case Unknown(_, wireType, payload) => s.Skip? && CompletePayload(wireType, payload)
  }

  /** Every field is one the shape's switch reads as written, or a complete unknown field. */
  predicate Fits(shape: Shape, fs: seq<Field>)
    requires shape.Message?
    decreases fs, 1
  {
    fs == [] || (FieldFits(shape, fs[0]) && Fits(shape, fs[1..]))
  }

  function StripField(f: Field): seq<Field>
    decreases f, 0
  {
    match f
    case Unknown(_, _, _) => []
    case Msg(no, fields) => [Msg(no, Strip(fields))]
    case _ => [f]
  }

  /** The fields with every unknown one removed, at every nesting level. */
  function Strip(fs: seq<Field>): seq<Field>
    decreases fs, 1
  {
    if fs == [] then [] else StripField(fs[0]) + Strip(fs[1..])
  }

  lemma TagRoundTrip(no: nat, wireType: nat, rest: bytes)
    requires 1 <= no < 0x2000_0000 && wireType < 8
    ensures ReadTag(TagBytes(no, wireType) + rest) == Ok((Tag(no, wireType), rest))
    ensures 1 <= |TagBytes(no, wireType)|
  {
    TagOfKeyExact(no, wireType);
    WrappedVarintRoundTrip(8 * no + wireType, rest);
  }

  lemma TagOfKeyExact(no: nat, wireType: nat)
    requires 1 <= no < 0x2000_0000 && wireType < 8
    ensures TagOfKey(Wrap64(8 * no + wireType)) == Tag(no, wireType)
  {
    var key := 8 * no + wireType;
    assert Wrap64(key) == key && Wrap64(Wrap64(key)) == key && ToNumber(key) == key;
    assert key % TWO32 == key;
    assert key / 8 == no && key % 8 == wireType;
  }

  lemma LengthRoundTrip(data: bytes, rest: bytes)
    requires |data| < TWO64
    ensures ReadBytes(Varint(Wrap64(|data|)) + data + rest) == Ok((data, rest))
  {
    hide Varint, ReadVarint;
    WrappedVarintRoundTrip(|data|, data + rest);
    ConcatAssoc(Varint(Wrap64(|data|)), data, rest);
    assert Wrap64(Wrap64(|data|)) == |data|;
    assert (data + rest)[..|data|] == data && (data + rest)[|data|..] == rest;
  }

  lemma {:induction false} ReadVarintPrefix(b: bytes, rest: bytes)
    requires ReadVarint(b).Ok?
    ensures ReadVarint(b + rest) == Ok((ReadVarint(b).value.0, ReadVarint(b).value.1 + rest))
  {
    assert (b + rest)[1..] == b[1..] + rest;
    if b[0] >= 0x80 {
      ReadVarintPrefix(b[1..], rest);
    }
  }

  lemma SkipComplete(wireType: nat, payload: bytes, rest: bytes)
    requires CompletePayload(wireType, payload)
    ensures SkipField(wireType, payload + rest) == Ok(rest)
  {
    if wireType == WIRE_FIXED64 || wireType == WIRE_FIXED32 {
      assert Drop(payload + rest, |payload|) == rest;
    } else {
      ReadVarintPrefix(payload, rest);
      if wireType == WIRE_LEN {
        var p := ReadScalar(payload).value;
        assert p.0 == |p.1|;
        assert Drop(p.1 + rest, p.0) == rest;
      }
    }
  }

  /** The bytes that follow a field's tag. */
  function SerPayload(f: Field): bytes {
    match f
    case Num(_, value) => Varint(value)
    case Data(_, data) => Varint(Wrap64(|data|)) + data
    case Msg(_, fields) => Varint(Wrap64(|Ser(fields)|)) + Ser(fields)
    case Unknown(_, _, payload) => payload
  }

  function WireTypeOf(f: Field): nat {
    match f
    case Num(_, _) => WIRE_VARINT
    case Unknown(_, wireType, _) => wireType
    case _ => WIRE_LEN
  }

  lemma SerFieldSplit(f: Field)
    ensures SerField(f) == TagBytes(f.no, WireTypeOf(f)) + SerPayload(f)
  {
    match f
    case Num(_, _) =>
    case Data(no, data) => ConcatAssoc(TagBytes(no, WIRE_LEN), Varint(Wrap64(|data|)), data);
    case Msg(no, fields) => ConcatAssoc(TagBytes(no, WIRE_LEN), Varint(Wrap64(|Ser(fields)|)), Ser(fields));
    case Unknown(_, _, _) =>
  }

  lemma {:induction false} ValueRoundTrip(s: Shape, f: Field, rest: bytes)
    requires !f.Unknown? && s != Skip
    requires f.Num? ==> s.Scalar? && f.value < TWO64
    requires f.Data? ==> s.Blob?
    requires f.Msg? ==> s.Message? && Fits(s, f.fields)
    requires |SerField(f)| < TWO64
    ensures ReadValue(s, f.no, SerPayload(f) + rest) == Ok((StripField(f)[0], rest))
    decreases f, 0
  {
    match f
    case Num(_, value) =>
      VarintRoundTrip(value, rest);
    case Data(_, data) =>
      LengthRoundTrip(data, rest);
    case Msg(_, fields) =>
      LengthRoundTrip(Ser(fields), rest);
      ParseInvertsSer(s, [], fields);
      assert [] + Strip(fields) == Strip(fields);
  }

  /** One written field is one turn of the decode loop, which leaves exactly what follows. */
  lemma {:induction false} FieldRoundTrip(shape: Shape, f: Field, rest: bytes)
    requires shape.Message? && FieldFits(shape, f)
    requires |SerField(f)| < TWO64
    ensures ReadField(shape, SerField(f) + rest) == Ok((StripField(f), rest))
    ensures SerField(f) != []
    decreases f, 1
  {
    SerFieldSplit(f);
    ConcatAssoc(TagBytes(f.no, WireTypeOf(f)), SerPayload(f), rest);
    TagRoundTrip(f.no, WireTypeOf(f), SerPayload(f) + rest);
    if f.Unknown? {
      SkipComplete(f.wireType, f.payload, rest);
    } else {
      ValueRoundTrip(Lookup(shape, f.no), f, rest);
    }
  }

  /**
   * Round trip and forward compatibility in one: a body made of fitting fields, with any number of
   * complete unknown fields at any boundary and depth, parses to exactly the known fields in order.
   */
  lemma {:induction false} ParseInvertsSer(shape: Shape, seen: seq<Field>, fs: seq<Field>)
    requires shape.Message? && Fits(shape, fs)
    requires |Ser(fs)| < TWO64
    ensures Parse(shape, seen, Ser(fs)) == Ok(seen + Strip(fs))
    decreases fs, 2
  {
    hide ReadField, SerField, StripField;
    if fs == [] {
      assert seen + [] == seen;
    } else {
      var f, rest := fs[0], Ser(fs[1..]);
      FieldRoundTrip(shape, f, rest);
      ParseInvertsSer(shape, seen + StripField(f), fs[1..]);
      assert Parse(shape, seen, SerField(f) + rest) == Parse(shape, seen + StripField(f), rest);
      assert seen + StripField(f) + Strip(fs[1..]) == seen + (StripField(f) + Strip(fs[1..]));
    }
  }

  predicate KnownField(f: Field)
    decreases f, 0
  {
    !f.Unknown? && (f.Msg? ==> Known(f.fields))
  }

  /** No unknown field anywhere: what every encoder of this library produces. */
  predicate Known(fs: seq<Field>)
    decreases fs, 1
  {
    fs == [] || (KnownField(fs[0]) && Known(fs[1..]))
  }

  lemma {:induction false} StripKnown(fs: seq<Field>)
    requires Known(fs)
    ensures Strip(fs) == fs
    decreases fs
  {
    if fs != [] {
      StripKnown(fs[1..]);
      if fs[0].Msg? {
        StripKnown(fs[0].fields);
      }
      assert fs == [fs[0]] + fs[1..];
    }
  }

  /** `Fits` and `Known` together, field by field: the form the message modules establish. */
  ghost predicate WellShaped(shape: Shape, fs: seq<Field>)
    requires shape.Message?
  {
    Fits(shape, fs) && Known(fs)
  }

  lemma {:induction false} WellShapedConcat(shape: Shape, a: seq<Field>, b: seq<Field>)
    requires shape.Message? && WellShaped(shape, a) && WellShaped(shape, b)
    ensures WellShaped(shape, a + b)
  {
    if a == [] {
      assert a + b == b;
    } else {
      WellShapedConcat(shape, a[1..], b);
      assert (a + b)[1..] == a[1..] + b;
    }
  }

  lemma {:induction false} WellShapedAll(shape: Shape, fs: seq<Field>)
    requires shape.Message? && forall f <- fs :: FieldFits(shape, f) && KnownField(f)
    ensures WellShaped(shape, fs)
  {
    if fs != [] {
      WellShapedAll(shape, fs[1..]);
    }
  }

  /** A field the switch has a case for is read the same whatever wire type its tag announces. */
  lemma WireTypeIgnored(shape: Shape, no: nat, announced: nat, other: nat, rest: bytes)
    requires shape.Message? && 1 <= no < 0x2000_0000 && Lookup(shape, no) != Skip
    requires announced < 8 && other < 8
    ensures ReadField(shape, TagBytes(no, announced) + rest) == ReadField(shape, TagBytes(no, other) + rest)
  {
    hide TagBytes, ReadTag;
    TagRoundTrip(no, announced, rest);
    TagRoundTrip(no, other, rest);
  }
}
