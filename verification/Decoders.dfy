/**
 * The decoders as they run: a loop over a `Reader`, one switch case a field, an unknown field skipped.
 * Each is proved against `Parse` and the message's fold: the ghost `seen` holds the fields read so far.
 */
module Decoders {
  import opened Base
  import opened Varints
  import opened Fields
  import opened Messages
  import opened WireReader

  lemma TurnEnd(shape: Shape, seen: seq<Field>)
    requires shape.Message?
    ensures Parse(shape, seen, []) == Ok(seen)
  {
  }

  lemma TagTurn(shape: Shape, seen: seq<Field>, b: bytes)
    requires shape.Message? && b != []
    ensures ReadTag(b).Err? ==> Parse(shape, seen, b) == Err(ReadTag(b).error)
  {
  }

  lemma SkipTurn(shape: Shape, seen: seq<Field>, b: bytes)
    requires shape.Message? && b != [] && ReadTag(b).Ok?
    requires Lookup(shape, ReadTag(b).value.0.no) == Skip
    ensures var r := SkipField(ReadTag(b).value.0.wireType, ReadTag(b).value.1);
            Parse(shape, seen, b) == if r.Err? then Err(r.error) else Parse(shape, seen, r.value)
  {
    assert seen + [] == seen;
  }

  lemma ValueTurn(shape: Shape, seen: seq<Field>, b: bytes)
    requires shape.Message? && b != [] && ReadTag(b).Ok?
    requires Lookup(shape, ReadTag(b).value.0.no) != Skip
    ensures var no := ReadTag(b).value.0.no;
            var r := ReadValue(Lookup(shape, no), no, ReadTag(b).value.1);
            Parse(shape, seen, b) == if r.Err? then Err(r.error) else Parse(shape, seen + [r.value.0], r.value.1)
  {
    var no := ReadTag(b).value.0.no;
    var r := ReadValue(Lookup(shape, no), no, ReadTag(b).value.1);
    assert ReadField(shape, b) == if r.Err? then Err(r.error) else Ok(([r.value.0], r.value.1));
  }

  lemma ScalarTurn(shape: Shape, seen: seq<Field>, b: bytes)
    requires shape.Message? && b != [] && ReadTag(b).Ok?
    requires Lookup(shape, ReadTag(b).value.0.no) == Scalar
    ensures var r := ReadScalar(ReadTag(b).value.1);
            Parse(shape, seen, b) == if r.Err? then Err(r.error)
                                     else Parse(shape, seen + [Num(ReadTag(b).value.0.no, r.value.0)], r.value.1)
  {
    ValueTurn(shape, seen, b);
  }

  lemma BlobTurn(shape: Shape, seen: seq<Field>, b: bytes)
    requires shape.Message? && b != [] && ReadTag(b).Ok?
    requires Lookup(shape, ReadTag(b).value.0.no) == Blob
    ensures var r := ReadBytes(ReadTag(b).value.1);
            Parse(shape, seen, b) == if r.Err? then Err(r.error)
                                     else Parse(shape, seen + [Data(ReadTag(b).value.0.no, r.value.0)], r.value.1)
  {
    ValueTurn(shape, seen, b);
  }

  lemma MessageTurn(shape: Shape, seen: seq<Field>, b: bytes)
    requires shape.Message? && b != [] && ReadTag(b).Ok?
    requires Lookup(shape, ReadTag(b).value.0.no).Message?
    ensures var no, r := ReadTag(b).value.0.no, ReadBytes(ReadTag(b).value.1);
            Parse(shape, seen, b) ==
            if r.Err? then Err(r.error)
            else
              var sub := Parse(Lookup(shape, no), [], r.value.0);
              if sub.Err? then Err(sub.error) else Parse(shape, seen + [Msg(no, sub.value)], r.value.1)
  {
    ValueTurn(shape, seen, b);
  }

  method DecodeEvent(r: Reader) returns (res: Result<WireEvent, DecodeError>)
    modifies r
    ensures match Parse(EVENT, [], old(r.Rest()))
            case Err(e) => res == Err(e)
            case Ok(fs) => res == Ok(EventOf(fs))
  {
    hide TagOfKey, Wrap64, ToNumber, ReadVarint, Parse, ReadTag, ReadScalar, ReadBytes, SkipField, Fold;
    var event: WireEvent := WireEvent([], [], []);
    FoldNone(EventStep, WireEvent([], [], []));
    ghost var seen: seq<Field> := [];
    while !r.Done()
      invariant event == EventOf(seen)
      invariant Parse(EVENT, [], old(r.Rest())) == Parse(EVENT, seen, r.Rest())
      decreases |r.Rest()|
    {
      ghost var b := r.Rest();
      TagTurn(EVENT, seen, b);
      var tag :- r.Tag();
      match tag.no {
        case 1 =>
          BlobTurn(EVENT, seen, b);
          var d :- r.Bytes();
          event := event.(typ := d);
          FoldSnoc(EventStep, WireEvent([], [], []), seen, Data(1, d));
          seen := seen + [Data(1, d)];
        case 2 =>
          BlobTurn(EVENT, seen, b);
          var d :- r.Bytes();
          event := event.(tags := event.tags + [d]);
          FoldSnoc(EventStep, WireEvent([], [], []), seen, Data(2, d));
          seen := seen + [Data(2, d)];
        case 3 =>
          BlobTurn(EVENT, seen, b);
          var d :- r.Bytes();
          event := event.(payload := d);
          FoldSnoc(EventStep, WireEvent([], [], []), seen, Data(3, d));
          seen := seen + [Data(3, d)];
        case _ =>
          SkipTurn(EVENT, seen, b);
          var _ :- r.Skip(tag.wireType);
      }
    }
    TurnEnd(EVENT, seen);
    return Ok(event);
  }

  method DecodeQueryItem(r: Reader) returns (res: Result<WireQueryItem, DecodeError>)
    modifies r
    ensures match Parse(QUERY_ITEM, [], old(r.Rest()))
            case Err(e) => res == Err(e)
            case Ok(fs) => res == Ok(QueryItemOf(fs))
  {
    hide TagOfKey, Wrap64, ToNumber, ReadVarint, Parse, ReadTag, ReadScalar, ReadBytes, SkipField, Fold;
    var item: WireQueryItem := WireQueryItem([], []);
    FoldNone(QueryItemStep, WireQueryItem([], []));
    ghost var seen: seq<Field> := [];
    while !r.Done()
      invariant item == QueryItemOf(seen)
      invariant Parse(QUERY_ITEM, [], old(r.Rest())) == Parse(QUERY_ITEM, seen, r.Rest())
      decreases |r.Rest()|
    {
      ghost var b := r.Rest();
      TagTurn(QUERY_ITEM, seen, b);
      var tag :- r.Tag();
      match tag.no {
        case 1 =>
          BlobTurn(QUERY_ITEM, seen, b);
          var d :- r.Bytes();
          item := item.(types := item.types + [d]);
          FoldSnoc(QueryItemStep, WireQueryItem([], []), seen, Data(1, d));
          seen := seen + [Data(1, d)];
        case 2 =>
          BlobTurn(QUERY_ITEM, seen, b);
          var d :- r.Bytes();
          item := item.(tags := item.tags + [d]);
          FoldSnoc(QueryItemStep, WireQueryItem([], []), seen, Data(2, d));
          seen := seen + [Data(2, d)];
        case _ =>
          SkipTurn(QUERY_ITEM, seen, b);
          var _ :- r.Skip(tag.wireType);
      }
    }
    TurnEnd(QUERY_ITEM, seen);
    return Ok(item);
  }

  method DecodeQuery(r: Reader) returns (res: Result<WireQuery, DecodeError>)
    modifies r
    ensures match Parse(QUERY, [], old(r.Rest()))
            case Err(e) => res == Err(e)
            case Ok(fs) => res == Ok(QueryOf(fs))
  {
    hide TagOfKey, Wrap64, ToNumber, ReadVarint, Parse, ReadTag, ReadScalar, ReadBytes, SkipField, Fold;
    var query: WireQuery := WireQuery(false, []);
    FoldNone(QueryStep, EMPTY_QUERY);
    ghost var seen: seq<Field> := [];
    while !r.Done()
      invariant query == QueryOf(seen)
      invariant Parse(QUERY, [], old(r.Rest())) == Parse(QUERY, seen, r.Rest())
      decreases |r.Rest()|
    {
      ghost var b := r.Rest();
      TagTurn(QUERY, seen, b);
      var tag :- r.Tag();
      match tag.no {
        case 1 =>
          ScalarTurn(QUERY, seen, b);
          var v :- r.VarintBig();
          query := query.(all := v != 0);
          FoldSnoc(QueryStep, EMPTY_QUERY, seen, Num(1, v));
          seen := seen + [Num(1, v)];
        case 2 =>
          MessageTurn(QUERY, seen, b);
          var body :- r.Bytes();
          var m := new Reader(body);
          var d :- DecodeQueryItem(m);
          query := query.(items := query.items + [d]);
          FoldSnoc(QueryStep, EMPTY_QUERY, seen, Msg(2, Parse(QUERY_ITEM, [], body).value));
          seen := seen + [Msg(2, Parse(QUERY_ITEM, [], body).value)];
        case _ =>
          SkipTurn(QUERY, seen, b);
          var _ :- r.Skip(tag.wireType);
      }
    }
    TurnEnd(QUERY, seen);
    return Ok(query);
  }

  method DecodeCondition(r: Reader) returns (res: Result<WireAppendCondition, DecodeError>)
    modifies r
    ensures match Parse(CONDITION, [], old(r.Rest()))
            case Err(e) => res == Err(e)
            case Ok(fs) => res == Ok(ConditionOf(fs))
  {
    hide TagOfKey, Wrap64, ToNumber, ReadVarint, Parse, ReadTag, ReadScalar, ReadBytes, SkipField, Fold;
    var condition: WireAppendCondition := WireAppendCondition(WireQuery(false, []), 0, None);
    FoldNone(ConditionStep, WireAppendCondition(EMPTY_QUERY, 0, None));
    ghost var seen: seq<Field> := [];
    while !r.Done()
      invariant condition == ConditionOf(seen)
      invariant Parse(CONDITION, [], old(r.Rest())) == Parse(CONDITION, seen, r.Rest())
      decreases |r.Rest()|
    {
      ghost var b := r.Rest();
      TagTurn(CONDITION, seen, b);
      var tag :- r.Tag();
      match tag.no {
        case 1 =>
          MessageTurn(CONDITION, seen, b);
          var body :- r.Bytes();
          var m := new Reader(body);
          var d :- DecodeQuery(m);
          condition := condition.(failIfEventsMatch := d);
          FoldSnoc(ConditionStep, WireAppendCondition(EMPTY_QUERY, 0, None), seen,
                   Msg(1, Parse(QUERY, [], body).value));
          seen := seen + [Msg(1, Parse(QUERY, [], body).value)];
        case 2 =>
          ScalarTurn(CONDITION, seen, b);
          var v :- r.VarintBig();
          condition := condition.(after := v);
          FoldSnoc(ConditionStep, WireAppendCondition(EMPTY_QUERY, 0, None), seen, Num(2, v));
          seen := seen + [Num(2, v)];
        case 3 =>
          MessageTurn(CONDITION, seen, b);
          var body :- r.Bytes();
          var m := new Reader(body);
          var d :- DecodeQuery(m);
          condition := condition.(failIfExists := Some(d));
          FoldSnoc(ConditionStep, WireAppendCondition(EMPTY_QUERY, 0, None), seen,
                   Msg(3, Parse(QUERY, [], body).value));
          seen := seen + [Msg(3, Parse(QUERY, [], body).value)];
        case _ =>
          SkipTurn(CONDITION, seen, b);
          var _ :- r.Skip(tag.wireType);
      }
    }
    TurnEnd(CONDITION, seen);
    return Ok(condition);
  }

  // Requests

  method DecodeAppendRequest(r: Reader) returns (res: Result<WireAppendRequest, DecodeError>)
    modifies r
    ensures match Parse(APPEND_REQUEST, [], old(r.Rest()))
            case Err(e) => res == Err(e)
            case Ok(fs) => res == Ok(AppendRequestOf(fs))
  {
    hide TagOfKey, Wrap64, ToNumber, ReadVarint, Parse, ReadTag, ReadScalar, ReadBytes, SkipField, Fold;
    var req: WireAppendRequest := WireAppendRequest([], None);
    FoldNone(AppendRequestStep, WireAppendRequest([], None));
    ghost var seen: seq<Field> := [];
    while !r.Done()
      invariant req == AppendRequestOf(seen)
      invariant Parse(APPEND_REQUEST, [], old(r.Rest())) == Parse(APPEND_REQUEST, seen, r.Rest())
      decreases |r.Rest()|
    {
      ghost var b := r.Rest();
      TagTurn(APPEND_REQUEST, seen, b);
      var tag :- r.Tag();
      match tag.no {
        case 1 =>
          MessageTurn(APPEND_REQUEST, seen, b);
          var body :- r.Bytes();
          var m := new Reader(body);
          var d :- DecodeEvent(m);
          req := req.(events := req.events + [d]);
          FoldSnoc(AppendRequestStep, WireAppendRequest([], None), seen, Msg(1, Parse(EVENT, [], body).value));
          seen := seen + [Msg(1, Parse(EVENT, [], body).value)];
        case 2 =>
          MessageTurn(APPEND_REQUEST, seen, b);
          var body :- r.Bytes();
          var m := new Reader(body);
          var d :- DecodeCondition(m);
          req := req.(condition := Some(d));
          FoldSnoc(AppendRequestStep, WireAppendRequest([], None), seen, Msg(2, Parse(CONDITION, [], body).value));
          seen := seen + [Msg(2, Parse(CONDITION, [], body).value)];
        case _ =>
          SkipTurn(APPEND_REQUEST, seen, b);
          var _ :- r.Skip(tag.wireType);
      }
    }
    TurnEnd(APPEND_REQUEST, seen);
    return Ok(req);
  }

  method DecodeReadRequest(r: Reader) returns (res: Result<WireReadRequest, DecodeError>)
    modifies r
    ensures match Parse(READ_REQUEST, [], old(r.Rest()))
            case Err(e) => res == Err(e)
            case Ok(fs) => res == Ok(ReadRequestOf(fs))
  {
    hide TagOfKey, Wrap64, ToNumber, ReadVarint, Parse, ReadTag, ReadScalar, ReadBytes, SkipField, Fold;
    var req: WireReadRequest := WireReadRequest(WireQuery(false, []), 0, None, false);
    FoldNone(ReadRequestStep, WireReadRequest(EMPTY_QUERY, 0, None, false));
    ghost var seen: seq<Field> := [];
    while !r.Done()
      invariant req == ReadRequestOf(seen)
      invariant Parse(READ_REQUEST, [], old(r.Rest())) == Parse(READ_REQUEST, seen, r.Rest())
      decreases |r.Rest()|
    {
      ghost var b := r.Rest();
      TagTurn(READ_REQUEST, seen, b);
      var tag :- r.Tag();
      match tag.no {
        case 1 =>
          MessageTurn(READ_REQUEST, seen, b);
          var body :- r.Bytes();
          var m := new Reader(body);
          var d :- DecodeQuery(m);
          req := req.(query := d);
          FoldSnoc(ReadRequestStep, WireReadRequest(EMPTY_QUERY, 0, None, false), seen,
                   Msg(1, Parse(QUERY, [], body).value));
          seen := seen + [Msg(1, Parse(QUERY, [], body).value)];
        case 2 =>
          ScalarTurn(READ_REQUEST, seen, b);
          var v :- r.VarintBig();
          req := req.(after := v);
          FoldSnoc(ReadRequestStep, WireReadRequest(EMPTY_QUERY, 0, None, false), seen, Num(2, v));
          seen := seen + [Num(2, v)];
        case 3 =>
          ScalarTurn(READ_REQUEST, seen, b);
          var v :- r.VarintBig();
          req := req.(limit := Some(v));
          FoldSnoc(ReadRequestStep, WireReadRequest(EMPTY_QUERY, 0, None, false), seen, Num(3, v));
          seen := seen + [Num(3, v)];
        case 4 =>
          ScalarTurn(READ_REQUEST, seen, b);
          var v :- r.VarintBig();
          req := req.(reverse := v != 0);
          FoldSnoc(ReadRequestStep, WireReadRequest(EMPTY_QUERY, 0, None, false), seen, Num(4, v));
          seen := seen + [Num(4, v)];
        case _ =>
          SkipTurn(READ_REQUEST, seen, b);
          var _ :- r.Skip(tag.wireType);
      }
    }
    TurnEnd(READ_REQUEST, seen);
    return Ok(req);
  }

  method DecodeSubscribeRequest(r: Reader) returns (res: Result<WireSubscribeRequest, DecodeError>)
    modifies r
    ensures match Parse(SUBSCRIBE_REQUEST, [], old(r.Rest()))
            case Err(e) => res == Err(e)
            case Ok(fs) => res == Ok(SubscribeRequestOf(fs))
  {
    hide TagOfKey, Wrap64, ToNumber, ReadVarint, Parse, ReadTag, ReadScalar, ReadBytes, SkipField, Fold;
    var req: WireSubscribeRequest := WireSubscribeRequest(WireQuery(false, []), 0);
    FoldNone(SubscribeRequestStep, WireSubscribeRequest(EMPTY_QUERY, 0));
    ghost var seen: seq<Field> := [];
    while !r.Done()
      invariant req == SubscribeRequestOf(seen)
      invariant Parse(SUBSCRIBE_REQUEST, [], old(r.Rest())) == Parse(SUBSCRIBE_REQUEST, seen, r.Rest())
      decreases |r.Rest()|
    {
      ghost var b := r.Rest();
      TagTurn(SUBSCRIBE_REQUEST, seen, b);
      var tag :- r.Tag();
      match tag.no {
        case 1 =>
          MessageTurn(SUBSCRIBE_REQUEST, seen, b);
          var body :- r.Bytes();
          var m := new Reader(body);
          var d :- DecodeQuery(m);
          req := req.(query := d);
          FoldSnoc(SubscribeRequestStep, WireSubscribeRequest(EMPTY_QUERY, 0), seen,
                   Msg(1, Parse(QUERY, [], body).value));
          seen := seen + [Msg(1, Parse(QUERY, [], body).value)];
        case 2 =>
          ScalarTurn(SUBSCRIBE_REQUEST, seen, b);
          var v :- r.VarintBig();
          req := req.(after := v);
          FoldSnoc(SubscribeRequestStep, WireSubscribeRequest(EMPTY_QUERY, 0), seen, Num(2, v));
          seen := seen + [Num(2, v)];
        case _ =>
          SkipTurn(SUBSCRIBE_REQUEST, seen, b);
          var _ :- r.Skip(tag.wireType);
      }
    }
    TurnEnd(SUBSCRIBE_REQUEST, seen);
    return Ok(req);
  }

  /** `decodeCancelRequest` and `decodeWatermark`: a body whose one field is a u64. */
  method DecodeSingle(r: Reader) returns (res: Result<int, DecodeError>)
    modifies r
    ensures match Parse(SINGLE, [], old(r.Rest()))
            case Err(e) => res == Err(e)
            case Ok(fs) => res == Ok(SingleOf(fs))
  {
    hide TagOfKey, Wrap64, ToNumber, ReadVarint, Parse, ReadTag, ReadScalar, ReadBytes, SkipField, Fold;
    var value: int := 0;
    FoldNone(SingleStep, 0);
    ghost var seen: seq<Field> := [];
    while !r.Done()
      invariant value == SingleOf(seen)
      invariant Parse(SINGLE, [], old(r.Rest())) == Parse(SINGLE, seen, r.Rest())
      decreases |r.Rest()|
    {
      ghost var b := r.Rest();
      TagTurn(SINGLE, seen, b);
      var tag :- r.Tag();
      match tag.no {
        case 1 =>
          ScalarTurn(SINGLE, seen, b);
          var v :- r.VarintBig();
          value := v;
          FoldSnoc(SingleStep, 0, seen, Num(1, v));
          seen := seen + [Num(1, v)];
        case _ =>
          SkipTurn(SINGLE, seen, b);
          var _ :- r.Skip(tag.wireType);
      }
    }
    TurnEnd(SINGLE, seen);
    return Ok(value);
  }

  method DecodeHello(r: Reader) returns (res: Result<WireHello, DecodeError>)
    modifies r
    ensures match Parse(HELLO, [], old(r.Rest()))
            case Err(e) => res == Err(e)
            case Ok(fs) => res == Ok(HelloOf(fs))
  {
    hide TagOfKey, Wrap64, ToNumber, ReadVarint, Parse, ReadTag, ReadScalar, ReadBytes, SkipField, Fold;
    var hello: WireHello := WireHello(0, None);
    FoldNone(HelloStep, WireHello(0, None));
    ghost var seen: seq<Field> := [];
    while !r.Done()
      invariant hello == HelloOf(seen)
      invariant Parse(HELLO, [], old(r.Rest())) == Parse(HELLO, seen, r.Rest())
      decreases |r.Rest()|
    {
      ghost var b := r.Rest();
      TagTurn(HELLO, seen, b);
      var tag :- r.Tag();
      match tag.no {
        case 1 =>
          ScalarTurn(HELLO, seen, b);
          var v :- r.VarintBig();
          hello := hello.(protocolVersion := ToNumber(v));
          FoldSnoc(HelloStep, WireHello(0, None), seen, Num(1, v));
          seen := seen + [Num(1, v)];
        case 2 =>
          BlobTurn(HELLO, seen, b);
          var d :- r.Bytes();
          hello := hello.(authToken := Some(d));
          FoldSnoc(HelloStep, WireHello(0, None), seen, Data(2, d));
          seen := seen + [Data(2, d)];
        case _ =>
          SkipTurn(HELLO, seen, b);
          var _ :- r.Skip(tag.wireType);
      }
    }
    TurnEnd(HELLO, seen);
    return Ok(hello);
  }

  /** The nested message of a request, by its field number. */
  ghost function RequestShape(no: nat): (s: Shape)
    ensures s.Message?
  {
    match no
    case 2 => APPEND_REQUEST
    case 3 => READ_REQUEST
    case 4 => SUBSCRIBE_REQUEST
    case 5 => SINGLE
    case _ => HELLO
  }

  ghost function RequestKindOf(no: nat, fs: seq<Field>): RequestKind {
    match no
    case 2 => AppendRequest(AppendRequestOf(fs))
    case 3 => ReadRequest(ReadRequestOf(fs))
    case 4 => SubscribeRequest(SubscribeRequestOf(fs))
    case 5 => CancelRequest(SingleOf(fs))
    case _ => HelloRequest(HelloOf(fs))
  }

  lemma RequestTable(out: WireRequest, no: nat, fs: seq<Field>)
    requires 2 <= no <= 5 || no == 7
    ensures Lookup(REQUEST, no) == RequestShape(no)
    ensures RequestStep(out, Msg(no, fs)) == out.(kind := RequestKindOf(no, fs))
  {
    hide AppendRequestOf, HelloOf, ReadRequestOf, SingleOf, SubscribeRequestOf;
  }

  method DecodeRequestKind(no: nat, body: bytes) returns (res: Result<RequestKind, DecodeError>)
    requires 2 <= no <= 5 || no == 7
    ensures match Parse(RequestShape(no), [], body)
            case Err(e) => res == Err(e)
            case Ok(fs) => res == Ok(RequestKindOf(no, fs))
  {
    hide TagOfKey, Wrap64, ToNumber, ReadVarint, Parse, ReadTag, ReadScalar, ReadBytes, SkipField, Fold;
    hide AppendRequestOf, HelloOf, ReadRequestOf, SingleOf, SubscribeRequestOf;
    var m := new Reader(body);
    match no {
      case 2 =>
        var d :- DecodeAppendRequest(m);
        return Ok(AppendRequest(d));
      case 3 =>
        var d :- DecodeReadRequest(m);
        return Ok(ReadRequest(d));
      case 4 =>
        var d :- DecodeSubscribeRequest(m);
        return Ok(SubscribeRequest(d));
      case 5 =>
        var d :- DecodeSingle(m);
        return Ok(CancelRequest(d));
      case _ =>
        var d :- DecodeHello(m);
        return Ok(HelloRequest(d));
    }
  }

  method DecodeRequestFrom(r: Reader) returns (res: Result<WireRequest, DecodeError>)
    modifies r
    ensures match Parse(REQUEST, [], old(r.Rest()))
            case Err(e) => res == Err(e)
            case Ok(fs) => res == Ok(RequestOf(fs))
  {
    hide TagOfKey, Wrap64, ToNumber, ReadVarint, Parse, ReadTag, ReadScalar, ReadBytes, SkipField, Fold;
    hide AppendRequestOf, HelloOf, ReadRequestOf, SingleOf, SubscribeRequestOf;
    var out: WireRequest := WireRequest(0, NoRequest);
    FoldNone(RequestStep, WireRequest(0, NoRequest));
    ghost var seen: seq<Field> := [];
    while !r.Done()
      invariant out == RequestOf(seen)
      invariant Parse(REQUEST, [], old(r.Rest())) == Parse(REQUEST, seen, r.Rest())
      decreases |r.Rest()|
    {
      ghost var b := r.Rest();
      TagTurn(REQUEST, seen, b);
      var tag :- r.Tag();
      match tag.no {
        case 1 =>
          ScalarTurn(REQUEST, seen, b);
          var v :- r.VarintBig();
          out := out.(requestId := v);
          FoldSnoc(RequestStep, WireRequest(0, NoRequest), seen, Num(1, v));
          seen := seen + [Num(1, v)];
        case 2 | 3 | 4 | 5 | 7 =>
          RequestTable(out, tag.no, []);
          MessageTurn(REQUEST, seen, b);
          var body :- r.Bytes();
          var kind :- DecodeRequestKind(tag.no, body);
          ghost var f := Msg(tag.no, Parse(RequestShape(tag.no), [], body).value);
          RequestTable(out, tag.no, f.fields);
          out := out.(kind := kind);
          FoldSnoc(RequestStep, WireRequest(0, NoRequest), seen, f);
          seen := seen + [f];
        case 6 =>
          BlobTurn(REQUEST, seen, b);
          var d :- r.Bytes();
          out := out.(kind := StatsRequest);
          FoldSnoc(RequestStep, WireRequest(0, NoRequest), seen, Data(6, d));
          seen := seen + [Data(6, d)];
        case _ =>
          SkipTurn(REQUEST, seen, b);
          var _ :- r.Skip(tag.wireType);
      }
    }
    TurnEnd(REQUEST, seen);
    return Ok(out);
  }

  method DecodeRequest(body: bytes) returns (res: Result<WireRequest, DecodeError>)
    ensures res == DecodedRequest(body)
  {
    var r := new Reader(body);
    res := DecodeRequestFrom(r);
  }

  // Responses

  method DecodeSequencedEvent(r: Reader) returns (res: Result<WireSequencedEvent, DecodeError>)
    modifies r
    ensures match Parse(SEQUENCED, [], old(r.Rest()))
            case Err(e) => res == Err(e)
            case Ok(fs) => res == Ok(SequencedOf(fs))
  {
    hide TagOfKey, Wrap64, ToNumber, ReadVarint, Parse, ReadTag, ReadScalar, ReadBytes, SkipField, Fold;
    var event: WireSequencedEvent := WireSequencedEvent(0, None);
    FoldNone(SequencedStep, WireSequencedEvent(0, None));
    ghost var seen: seq<Field> := [];
    while !r.Done()
      invariant event == SequencedOf(seen)
      invariant Parse(SEQUENCED, [], old(r.Rest())) == Parse(SEQUENCED, seen, r.Rest())
      decreases |r.Rest()|
    {
      ghost var b := r.Rest();
      TagTurn(SEQUENCED, seen, b);
      var tag :- r.Tag();
      match tag.no {
        case 1 =>
          ScalarTurn(SEQUENCED, seen, b);
          var v :- r.VarintBig();
          event := event.(position := v);
          FoldSnoc(SequencedStep, WireSequencedEvent(0, None), seen, Num(1, v));
          seen := seen + [Num(1, v)];
        case 2 =>
          MessageTurn(SEQUENCED, seen, b);
          var body :- r.Bytes();
          var m := new Reader(body);
          var d :- DecodeEvent(m);
          event := event.(event := Some(d));
          FoldSnoc(SequencedStep, WireSequencedEvent(0, None), seen, Msg(2, Parse(EVENT, [], body).value));
          seen := seen + [Msg(2, Parse(EVENT, [], body).value)];
        case _ =>
          SkipTurn(SEQUENCED, seen, b);
          var _ :- r.Skip(tag.wireType);
      }
    }
    TurnEnd(SEQUENCED, seen);
    return Ok(event);
  }

  method DecodeAppendResponse(r: Reader) returns (res: Result<WireAppendResponse, DecodeError>)
    modifies r
    ensures match Parse(APPEND_RESPONSE, [], old(r.Rest()))
            case Err(e) => res == Err(e)
            case Ok(fs) => res == Ok(AppendResponseOf(fs))
  {
    hide TagOfKey, Wrap64, ToNumber, ReadVarint, Parse, ReadTag, ReadScalar, ReadBytes, SkipField, Fold;
    var out: WireAppendResponse := WireAppendResponse(0, 0);
    FoldNone(AppendResponseStep, WireAppendResponse(0, 0));
    ghost var seen: seq<Field> := [];
    while !r.Done()
      invariant out == AppendResponseOf(seen)
      invariant Parse(APPEND_RESPONSE, [], old(r.Rest())) == Parse(APPEND_RESPONSE, seen, r.Rest())
      decreases |r.Rest()|
    {
      ghost var b := r.Rest();
      TagTurn(APPEND_RESPONSE, seen, b);
      var tag :- r.Tag();
      match tag.no {
        case 1 =>
          ScalarTurn(APPEND_RESPONSE, seen, b);
          var v :- r.VarintBig();
          out := out.(first := v);
          FoldSnoc(AppendResponseStep, WireAppendResponse(0, 0), seen, Num(1, v));
          seen := seen + [Num(1, v)];
        case 2 =>
          ScalarTurn(APPEND_RESPONSE, seen, b);
          var v :- r.VarintBig();
          out := out.(last := v);
          FoldSnoc(AppendResponseStep, WireAppendResponse(0, 0), seen, Num(2, v));
          seen := seen + [Num(2, v)];
        case _ =>
          SkipTurn(APPEND_RESPONSE, seen, b);
          var _ :- r.Skip(tag.wireType);
      }
    }
    TurnEnd(APPEND_RESPONSE, seen);
    return Ok(out);
  }

  method DecodeReadEvents(r: Reader) returns (res: Result<seq<WireSequencedEvent>, DecodeError>)
    modifies r
    ensures match Parse(READ_EVENTS, [], old(r.Rest()))
            case Err(e) => res == Err(e)
            case Ok(fs) => res == Ok(ReadEventsOf(fs))
  {
    hide TagOfKey, Wrap64, ToNumber, ReadVarint, Parse, ReadTag, ReadScalar, ReadBytes, SkipField, Fold;
    var events: seq<WireSequencedEvent> := [];
    FoldNone(ReadEventsStep, []);
    ghost var seen: seq<Field> := [];
    while !r.Done()
      invariant events == ReadEventsOf(seen)
      invariant Parse(READ_EVENTS, [], old(r.Rest())) == Parse(READ_EVENTS, seen, r.Rest())
      decreases |r.Rest()|
    {
      ghost var b := r.Rest();
      TagTurn(READ_EVENTS, seen, b);
      var tag :- r.Tag();
      match tag.no {
        case 1 =>
          MessageTurn(READ_EVENTS, seen, b);
          var body :- r.Bytes();
          var m := new Reader(body);
          var d :- DecodeSequencedEvent(m);
          events := events + [d];
          FoldSnoc(ReadEventsStep, [], seen, Msg(1, Parse(SEQUENCED, [], body).value));
          seen := seen + [Msg(1, Parse(SEQUENCED, [], body).value)];
        case _ =>
          SkipTurn(READ_EVENTS, seen, b);
          var _ :- r.Skip(tag.wireType);
      }
    }
    TurnEnd(READ_EVENTS, seen);
    return Ok(events);
  }

  method DecodeStatsResponse(r: Reader) returns (res: Result<WireStatsResponse, DecodeError>)
    modifies r
    ensures match Parse(STATS_RESPONSE, [], old(r.Rest()))
            case Err(e) => res == Err(e)
            case Ok(fs) => res == Ok(StatsResponseOf(fs))
  {
    hide TagOfKey, Wrap64, ToNumber, ReadVarint, Parse, ReadTag, ReadScalar, ReadBytes, SkipField, Fold;
    var out: WireStatsResponse := WireStatsResponse(0, 0, 0, 0, 0, 0, [], 0, 0, 0);
    FoldNone(StatsResponseStep, EMPTY_STATS);
    ghost var seen: seq<Field> := [];
    while !r.Done()
      invariant out == StatsResponseOf(seen)
      invariant Parse(STATS_RESPONSE, [], old(r.Rest())) == Parse(STATS_RESPONSE, seen, r.Rest())
      decreases |r.Rest()|
    {
      ghost var b := r.Rest();
      TagTurn(STATS_RESPONSE, seen, b);
      var tag :- r.Tag();
      match tag.no {
        case 1 =>
          ScalarTurn(STATS_RESPONSE, seen, b);
          var v :- r.VarintBig();
          out := out.(eventCount := v);
          FoldSnoc(StatsResponseStep, EMPTY_STATS, seen, Num(1, v));
          seen := seen + [Num(1, v)];
        case 2 =>
          ScalarTurn(STATS_RESPONSE, seen, b);
          var v :- r.VarintBig();
          out := out.(segmentCount := v);
          FoldSnoc(StatsResponseStep, EMPTY_STATS, seen, Num(2, v));
          seen := seen + [Num(2, v)];
        case 3 =>
          ScalarTurn(STATS_RESPONSE, seen, b);
          var v :- r.VarintBig();
          out := out.(diskBytes := v);
          FoldSnoc(StatsResponseStep, EMPTY_STATS, seen, Num(3, v));
          seen := seen + [Num(3, v)];
        case 4 =>
          ScalarTurn(STATS_RESPONSE, seen, b);
          var v :- r.VarintBig();
          out := out.(uptimeSeconds := v);
          FoldSnoc(StatsResponseStep, EMPTY_STATS, seen, Num(4, v));
          seen := seen + [Num(4, v)];
        case 5 =>
          ScalarTurn(STATS_RESPONSE, seen, b);
          var v :- r.VarintBig();
          out := out.(activeConnections := v);
          FoldSnoc(StatsResponseStep, EMPTY_STATS, seen, Num(5, v));
          seen := seen + [Num(5, v)];
        case 6 =>
          ScalarTurn(STATS_RESPONSE, seen, b);
          var v :- r.VarintBig();
          out := out.(activeSubscriptions := v);
          FoldSnoc(StatsResponseStep, EMPTY_STATS, seen, Num(6, v));
          seen := seen + [Num(6, v)];
        case 7 =>
          BlobTurn(STATS_RESPONSE, seen, b);
          var d :- r.Bytes();
          out := out.(version := d);
          FoldSnoc(StatsResponseStep, EMPTY_STATS, seen, Data(7, d));
          seen := seen + [Data(7, d)];
        case 8 =>
          ScalarTurn(STATS_RESPONSE, seen, b);
          var v :- r.VarintBig();
          out := out.(connectionsRefused := v);
          FoldSnoc(StatsResponseStep, EMPTY_STATS, seen, Num(8, v));
          seen := seen + [Num(8, v)];
        case 9 =>
          ScalarTurn(STATS_RESPONSE, seen, b);
          var v :- r.VarintBig();
          out := out.(maxConnections := v);
          FoldSnoc(StatsResponseStep, EMPTY_STATS, seen, Num(9, v));
          seen := seen + [Num(9, v)];
        case 10 =>
          ScalarTurn(STATS_RESPONSE, seen, b);
          var v :- r.VarintBig();
          out := out.(connectionsReaped := v);
          FoldSnoc(StatsResponseStep, EMPTY_STATS, seen, Num(10, v));
          seen := seen + [Num(10, v)];
        case _ =>
          SkipTurn(STATS_RESPONSE, seen, b);
          var _ :- r.Skip(tag.wireType);
      }
    }
    TurnEnd(STATS_RESPONSE, seen);
    return Ok(out);
  }

  method DecodeErrorResponse(r: Reader) returns (res: Result<WireErrorResponse, DecodeError>)
    modifies r
    ensures match Parse(ERROR_RESPONSE, [], old(r.Rest()))
            case Err(e) => res == Err(e)
            case Ok(fs) => res == Ok(ErrorResponseOf(fs))
  {
    hide TagOfKey, Wrap64, ToNumber, ReadVarint, Parse, ReadTag, ReadScalar, ReadBytes, SkipField, Fold;
    var out: WireErrorResponse := WireErrorResponse(0, [], None, false);
    FoldNone(ErrorResponseStep, WireErrorResponse(0, [], None, false));
    ghost var seen: seq<Field> := [];
    while !r.Done()
      invariant out == ErrorResponseOf(seen)
      invariant Parse(ERROR_RESPONSE, [], old(r.Rest())) == Parse(ERROR_RESPONSE, seen, r.Rest())
      decreases |r.Rest()|
    {
      ghost var b := r.Rest();
      TagTurn(ERROR_RESPONSE, seen, b);
      var tag :- r.Tag();
      match tag.no {
        case 1 =>
          ScalarTurn(ERROR_RESPONSE, seen, b);
          var v :- r.VarintBig();
          out := out.(code := ToNumber(v));
          FoldSnoc(ErrorResponseStep, WireErrorResponse(0, [], None, false), seen, Num(1, v));
          seen := seen + [Num(1, v)];
        case 2 =>
          BlobTurn(ERROR_RESPONSE, seen, b);
          var d :- r.Bytes();
          out := out.(message := d);
          FoldSnoc(ErrorResponseStep, WireErrorResponse(0, [], None, false), seen, Data(2, d));
          seen := seen + [Data(2, d)];
        case 3 =>
          ScalarTurn(ERROR_RESPONSE, seen, b);
          var v :- r.VarintBig();
          out := out.(conflictPosition := Some(v));
          FoldSnoc(ErrorResponseStep, WireErrorResponse(0, [], None, false), seen, Num(3, v));
          seen := seen + [Num(3, v)];
        case 4 =>
          ScalarTurn(ERROR_RESPONSE, seen, b);
          var v :- r.VarintBig();
          out := out.(retryable := v != 0);
          FoldSnoc(ErrorResponseStep, WireErrorResponse(0, [], None, false), seen, Num(4, v));
          seen := seen + [Num(4, v)];
        case _ =>
          SkipTurn(ERROR_RESPONSE, seen, b);
          var _ :- r.Skip(tag.wireType);
      }
    }
    TurnEnd(ERROR_RESPONSE, seen);
    return Ok(out);
  }

  method DecodeHelloAck(r: Reader) returns (res: Result<WireHelloAck, DecodeError>)
    modifies r
    ensures match Parse(HELLO_ACK, [], old(r.Rest()))
            case Err(e) => res == Err(e)
            case Ok(fs) => res == Ok(HelloAckOf(fs))
  {
    hide TagOfKey, Wrap64, ToNumber, ReadVarint, Parse, ReadTag, ReadScalar, ReadBytes, SkipField, Fold;
    var ack: WireHelloAck := WireHelloAck(0, []);
    FoldNone(HelloAckStep, WireHelloAck(0, []));
    ghost var seen: seq<Field> := [];
    while !r.Done()
      invariant ack == HelloAckOf(seen)
      invariant Parse(HELLO_ACK, [], old(r.Rest())) == Parse(HELLO_ACK, seen, r.Rest())
      decreases |r.Rest()|
    {
      ghost var b := r.Rest();
      TagTurn(HELLO_ACK, seen, b);
      var tag :- r.Tag();
      match tag.no {
        case 1 =>
          ScalarTurn(HELLO_ACK, seen, b);
          var v :- r.VarintBig();
          ack := ack.(protocolVersion := ToNumber(v));
          FoldSnoc(HelloAckStep, WireHelloAck(0, []), seen, Num(1, v));
          seen := seen + [Num(1, v)];
        case 2 =>
          BlobTurn(HELLO_ACK, seen, b);
          var d :- r.Bytes();
          ack := ack.(serverVersion := d);
          FoldSnoc(HelloAckStep, WireHelloAck(0, []), seen, Data(2, d));
          seen := seen + [Data(2, d)];
        case _ =>
          SkipTurn(HELLO_ACK, seen, b);
          var _ :- r.Skip(tag.wireType);
      }
    }
    TurnEnd(HELLO_ACK, seen);
    return Ok(ack);
  }

  /** The nested message of a response, by its field number. */
  ghost function ResponseShape(no: nat): (s: Shape)
    ensures s.Message?
  {
    match no
    case 2 => APPEND_RESPONSE
    case 3 => READ_EVENTS
    case 4 => SINGLE
    case 5 => ERROR_RESPONSE
    case 6 => SINGLE
    case 7 => STATS_RESPONSE
    case _ => HELLO_ACK
  }

  ghost function ResponseKindOf(no: nat, fs: seq<Field>): ResponseKind {
    match no
    case 2 => AppendResponse(AppendResponseOf(fs))
    case 3 => ReadEvents(ReadEventsOf(fs))
    case 4 => ReadEnd(SingleOf(fs))
    case 5 => ErrorResponse(ErrorResponseOf(fs))
    case 6 => CaughtUp(SingleOf(fs))
    case 7 => StatsResponse(StatsResponseOf(fs))
    case _ => HelloAck(HelloAckOf(fs))
  }

  lemma ResponseTable(out: WireResponse, no: nat, fs: seq<Field>)
    requires 2 <= no <= 8
    ensures Lookup(RESPONSE, no) == ResponseShape(no)
    ensures ResponseStep(out, Msg(no, fs)) == out.(kind := ResponseKindOf(no, fs))
  {
    hide AppendResponseOf, ErrorResponseOf, HelloAckOf, ReadEventsOf, SingleOf, StatsResponseOf;
  }

  method DecodeResponseKind(no: nat, body: bytes) returns (res: Result<ResponseKind, DecodeError>)
    requires 2 <= no <= 8
    ensures match Parse(ResponseShape(no), [], body)
            case Err(e) => res == Err(e)
            case Ok(fs) => res == Ok(ResponseKindOf(no, fs))
  {
    hide TagOfKey, Wrap64, ToNumber, ReadVarint, Parse, ReadTag, ReadScalar, ReadBytes, SkipField, Fold;
    hide AppendResponseOf, ErrorResponseOf, HelloAckOf, ReadEventsOf, SingleOf, StatsResponseOf;
    var m := new Reader(body);
    match no {
      case 2 =>
        var d :- DecodeAppendResponse(m);
        return Ok(AppendResponse(d));
      case 3 =>
        var d :- DecodeReadEvents(m);
        return Ok(ReadEvents(d));
      case 4 =>
        var d :- DecodeSingle(m);
        return Ok(ReadEnd(d));
      case 5 =>
        var d :- DecodeErrorResponse(m);
        return Ok(ErrorResponse(d));
      case 6 =>
        var d :- DecodeSingle(m);
        return Ok(CaughtUp(d));
      case 7 =>
        var d :- DecodeStatsResponse(m);
        return Ok(StatsResponse(d));
      case _ =>
        var d :- DecodeHelloAck(m);
        return Ok(HelloAck(d));
    }
  }

  method DecodeResponseFrom(r: Reader) returns (res: Result<WireResponse, DecodeError>)
    modifies r
    ensures match Parse(RESPONSE, [], old(r.Rest()))
            case Err(e) => res == Err(e)
            case Ok(fs) => res == Ok(ResponseOf(fs))
  {
    hide TagOfKey, Wrap64, ToNumber, ReadVarint, Parse, ReadTag, ReadScalar, ReadBytes, SkipField, Fold;
    hide AppendResponseOf, ErrorResponseOf, HelloAckOf, ReadEventsOf, SingleOf, StatsResponseOf;
    var out: WireResponse := WireResponse(0, NoResponse);
    FoldNone(ResponseStep, WireResponse(0, NoResponse));
    ghost var seen: seq<Field> := [];
    while !r.Done()
      invariant out == ResponseOf(seen)
      invariant Parse(RESPONSE, [], old(r.Rest())) == Parse(RESPONSE, seen, r.Rest())
      decreases |r.Rest()|
    {
      ghost var b := r.Rest();
      TagTurn(RESPONSE, seen, b);
      var tag :- r.Tag();
      match tag.no {
        case 1 =>
          ScalarTurn(RESPONSE, seen, b);
          var v :- r.VarintBig();
          out := out.(requestId := v);
          FoldSnoc(ResponseStep, WireResponse(0, NoResponse), seen, Num(1, v));
          seen := seen + [Num(1, v)];
        case 2 | 3 | 4 | 5 | 6 | 7 | 8 =>
          ResponseTable(out, tag.no, []);
          MessageTurn(RESPONSE, seen, b);
          var body :- r.Bytes();
          var kind :- DecodeResponseKind(tag.no, body);
          ghost var f := Msg(tag.no, Parse(ResponseShape(tag.no), [], body).value);
          ResponseTable(out, tag.no, f.fields);
          out := out.(kind := kind);
          FoldSnoc(ResponseStep, WireResponse(0, NoResponse), seen, f);
          seen := seen + [f];
        case _ =>
          SkipTurn(RESPONSE, seen, b);
          var _ :- r.Skip(tag.wireType);
      }
    }
    TurnEnd(RESPONSE, seen);
    return Ok(out);
  }

  method DecodeResponse(body: bytes) returns (res: Result<WireResponse, DecodeError>)
    ensures res == DecodedResponse(body)
  {
    var r := new Reader(body);
    res := DecodeResponseFrom(r);
  }
}
