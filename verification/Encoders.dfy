/**
 * The encoders as they run: a fresh `Writer` driven field by field, a loop over each repeated field.
 * Each is proved to write exactly the fields its message's specification lists.
 */
module Encoders {
  import opened Base
  import opened Fields
  import opened Messages
  import opened WireWriter

  method EncodeEvent(event: WireEvent) returns (out: bytes)
    ensures out == Ser(EventFields(event))
  {
    hide Ser;
    var w := new Writer();
    w.Bytes(1, event.typ);
    for i := 0 to |event.tags|
      invariant fresh(w) && fresh(w.buf) && w.Valid()
      invariant w.fields == Bytes(1, event.typ) + Strings(2, event.tags[..i])
    {
      w.RepeatedString(2, event.tags[i]);
      StringsNext(2, event.tags, i);
    }
    assert event.tags[..|event.tags|] == event.tags;
    w.Bytes(3, event.payload);
    assert w.fields == EventFields(event);
    out := w.Finish();
  }

  lemma StringsNext(no: nat, values: seq<bytes>, i: nat)
    requires i < |values|
    ensures Strings(no, values[..i + 1]) == Strings(no, values[..i]) + [Data(no, values[i])]
  {
    assert values[..i + 1][..i] == values[..i];
  }

  method EncodeQueryItem(item: WireQueryItem) returns (out: bytes)
    ensures out == Ser(QueryItemFields(item))
  {
    hide Ser;
    var w := new Writer();
    for i := 0 to |item.types|
      invariant fresh(w) && fresh(w.buf) && w.Valid()
      invariant w.fields == Strings(1, item.types[..i])
    {
      w.RepeatedString(1, item.types[i]);
      StringsNext(1, item.types, i);
    }
    assert item.types[..|item.types|] == item.types;
    for i := 0 to |item.tags|
      invariant fresh(w) && fresh(w.buf) && w.Valid()
      invariant w.fields == Strings(1, item.types) + Strings(2, item.tags[..i])
    {
      w.RepeatedString(2, item.tags[i]);
      StringsNext(2, item.tags, i);
    }
    assert item.tags[..|item.tags|] == item.tags;
    assert w.fields == QueryItemFields(item);
    out := w.Finish();
  }

  method EncodeQuery(query: WireQuery) returns (out: bytes)
    ensures out == Ser(QueryFields(query))
  {
    hide Ser;
    var w := new Writer();
    w.Bool(1, query.all);
    for i := 0 to |query.items|
      invariant fresh(w) && fresh(w.buf) && w.Valid()
      invariant w.fields == Flag(1, query.all) + ItemsFields(query.items[..i])
    {
      var item := EncodeQueryItem(query.items[i]);
      w.Message(2, item, Msg(2, QueryItemFields(query.items[i])));
      assert query.items[..i + 1][..i] == query.items[..i];
    }
    assert query.items[..|query.items|] == query.items;
    assert w.fields == QueryFields(query);
    out := w.Finish();
  }

  method EncodeCondition(condition: WireAppendCondition) returns (out: bytes)
    ensures out == Ser(ConditionFields(condition))
  {
    hide Ser;
    var w := new Writer();
    var events := EncodeQuery(condition.failIfEventsMatch);
    w.Message(1, events, Msg(1, QueryFields(condition.failIfEventsMatch)));
    w.Uint64(2, condition.after);
    if condition.failIfExists != None {
      var clause := EncodeQuery(condition.failIfExists.value);
      w.Message(3, clause, Msg(3, QueryFields(condition.failIfExists.value)));
    }
    assert w.fields == ConditionFields(condition);
    out := w.Finish();
  }

  // Requests

  method EncodeAppendRequest(req: WireAppendRequest) returns (out: bytes)
    ensures out == Ser(AppendRequestFields(req))
  {
    hide Ser;
    var w := new Writer();
    for i := 0 to |req.events|
      invariant fresh(w) && fresh(w.buf) && w.Valid()
      invariant w.fields == EventsFields(req.events[..i])
    {
      var event := EncodeEvent(req.events[i]);
      w.Message(1, event, Msg(1, EventFields(req.events[i])));
      assert req.events[..i + 1][..i] == req.events[..i];
    }
    assert req.events[..|req.events|] == req.events;
    if req.condition != None {
      var condition := EncodeCondition(req.condition.value);
      w.Message(2, condition, Msg(2, ConditionFields(req.condition.value)));
    }
    assert w.fields == AppendRequestFields(req);
    out := w.Finish();
  }

  method EncodeReadRequest(req: WireReadRequest) returns (out: bytes)
    ensures out == Ser(ReadRequestFields(req))
  {
    hide Ser;
    var w := new Writer();
    var query := EncodeQuery(req.query);
    w.Message(1, query, Msg(1, QueryFields(req.query)));
    assert w.fields == [Msg(1, QueryFields(req.query))];
    w.Uint64(2, req.after);
    if req.limit != None {
      w.Uint64Present(3, req.limit.value);
    }
    w.Bool(4, req.reverse);
    assert w.fields == ReadRequestFields(req);
    out := w.Finish();
  }

  method EncodeSubscribeRequest(req: WireSubscribeRequest) returns (out: bytes)
    ensures out == Ser(SubscribeRequestFields(req))
  {
    hide Ser;
    var w := new Writer();
    var query := EncodeQuery(req.query);
    w.Message(1, query, Msg(1, QueryFields(req.query)));
    w.Uint64(2, req.after);
    assert w.fields == SubscribeRequestFields(req);
    out := w.Finish();
  }

  /** `encodeCancelRequest` and `encodeWatermark`. */
  method EncodeSingle(value: int) returns (out: bytes)
    ensures out == Ser(Uint(1, value))
  {
    var w := new Writer();
    w.Uint64(1, value);
    assert w.fields == Uint(1, value);
    out := w.Finish();
  }

  method EncodeHello(hello: WireHello) returns (out: bytes)
    ensures out == Ser(HelloFields(hello))
  {
    hide Ser;
    var w := new Writer();
    w.Uint32(1, hello.protocolVersion);
    if hello.authToken != None {
      w.Bytes(2, hello.authToken.value);
    }
    assert w.fields == HelloFields(hello);
    out := w.Finish();
  }

  /** The switch of `encodeRequest`: each case encodes the payload and writes it as one message field. */
  method EncodeRequest(request: WireRequest) returns (out: bytes)
    ensures out == EncodedRequest(request)
  {
    hide Ser;
    var w := new Writer();
    w.Uint64(1, request.requestId);
    assert w.fields == Uint(1, request.requestId);
    var no, body: bytes := 0, [];
    match request.kind {
      case AppendRequest(a) =>
        body := EncodeAppendRequest(a);
        no := 2;
      case ReadRequest(r) =>
        body := EncodeReadRequest(r);
        no := 3;
      case SubscribeRequest(r) =>
        body := EncodeSubscribeRequest(r);
        no := 4;
      case CancelRequest(target) =>
        body := EncodeSingle(target);
        no := 5;
      case StatsRequest =>
        no := 6;
      case HelloRequest(h) =>
        body := EncodeHello(h);
        no := 7;
      case NoRequest =>
    }
    if no != 0 {
      w.Message(no, body, RequestKindFields(request.kind)[0]);
    }
    assert w.fields == RequestFields(request);
    out := w.Finish();
  }

  // Responses

  method EncodeSequencedEvent(event: WireSequencedEvent) returns (out: bytes)
    ensures out == Ser(SequencedFields(event))
  {
    hide Ser;
    var w := new Writer();
    w.Uint64(1, event.position);
    if event.event != None {
      var body := EncodeEvent(event.event.value);
      w.Message(2, body, Msg(2, EventFields(event.event.value)));
    }
    assert w.fields == SequencedFields(event);
    out := w.Finish();
  }

  method EncodeAppendResponse(res: WireAppendResponse) returns (out: bytes)
    ensures out == Ser(AppendResponseFields(res))
  {
    hide Ser;
    var w := new Writer();
    w.Uint64(1, res.first);
    w.Uint64(2, res.last);
    assert w.fields == AppendResponseFields(res);
    out := w.Finish();
  }

  method EncodeReadEvents(events: seq<WireSequencedEvent>) returns (out: bytes)
    ensures out == Ser(ReadEventsFields(events))
  {
    hide Ser;
    var w := new Writer();
    for i := 0 to |events|
      invariant fresh(w) && fresh(w.buf) && w.Valid()
      invariant w.fields == ReadEventsFields(events[..i])
    {
      var event := EncodeSequencedEvent(events[i]);
      w.Message(1, event, Msg(1, SequencedFields(events[i])));
      assert events[..i + 1][..i] == events[..i];
    }
    assert events[..|events|] == events;
    assert w.fields == ReadEventsFields(events);
    out := w.Finish();
  }

  method EncodeStatsResponse(res: WireStatsResponse) returns (out: bytes)
    ensures out == Ser(StatsResponseFields(res))
  {
    hide Ser;
    var w := new Writer();
    w.Uint64(1, res.eventCount);
    assert w.fields == Uint(1, res.eventCount);
    w.Uint64(2, res.segmentCount);
    w.Uint64(3, res.diskBytes);
    w.Uint64(4, res.uptimeSeconds);
    w.Uint64(5, res.activeConnections);
    w.Uint64(6, res.activeSubscriptions);
    w.Bytes(7, res.version);
    w.Uint64(8, res.connectionsRefused);
    w.Uint64(9, res.maxConnections);
    w.Uint64(10, res.connectionsReaped);
    assert w.fields == StatsResponseFields(res);
    out := w.Finish();
  }

  method EncodeErrorResponse(res: WireErrorResponse) returns (out: bytes)
    ensures out == Ser(ErrorResponseFields(res))
  {
    hide Ser;
    var w := new Writer();
    w.Uint32(1, res.code);
    assert w.fields == Uint(1, res.code);
    w.Bytes(2, res.message);
    if res.conflictPosition != None {
      w.Uint64Present(3, res.conflictPosition.value);
    }
    w.Bool(4, res.retryable);
    assert w.fields == ErrorResponseFields(res);
    out := w.Finish();
  }

  method EncodeHelloAck(ack: WireHelloAck) returns (out: bytes)
    ensures out == Ser(HelloAckFields(ack))
  {
    hide Ser;
    var w := new Writer();
    w.Uint32(1, ack.protocolVersion);
    w.Bytes(2, ack.serverVersion);
    assert w.fields == HelloAckFields(ack);
    out := w.Finish();
  }

  method EncodeResponse(response: WireResponse) returns (out: bytes)
    ensures out == EncodedResponse(response)
  {
    hide Ser;
    var w := new Writer();
    w.Uint64(1, response.requestId);
    assert w.fields == Uint(1, response.requestId);
    var no, body: bytes := 0, [];
    match response.kind {
      case AppendResponse(a) =>
        body := EncodeAppendResponse(a);
        no := 2;
      case ReadEvents(es) =>
        body := EncodeReadEvents(es);
        no := 3;
      case ReadEnd(watermark) =>
        body := EncodeSingle(watermark);
        no := 4;
      case ErrorResponse(e) =>
        body := EncodeErrorResponse(e);
        no := 5;
      case CaughtUp(watermark) =>
        body := EncodeSingle(watermark);
        no := 6;
      case StatsResponse(s) =>
        body := EncodeStatsResponse(s);
        no := 7;
      case HelloAck(a) =>
        body := EncodeHelloAck(a);
        no := 8;
      case NoResponse =>
    }
    if no != 0 {
      w.Message(no, body, ResponseKindFields(response.kind)[0]);
    }
    assert w.fields == ResponseFields(response);
    out := w.Finish();
  }
}
