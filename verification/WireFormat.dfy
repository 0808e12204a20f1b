/** Every encoder's output fits its message's shape; hence the round trips on bytes, and forward compatibility. */
module WireFormat {
  import opened Base
  import opened Varints
  import opened Fields
  import opened Messages
  import opened RoundTrip

  // ---------------------------------------------------------------------------
  // What encoders write is well shaped
  // ---------------------------------------------------------------------------

  lemma SmallShape(shape: Shape, fs: seq<Field>)
    requires shape.Message? && |fs| <= 1
    requires fs != [] ==> FieldFits(shape, fs[0]) && KnownField(fs[0])
    ensures WellShaped(shape, fs)
  {
    if fs != [] { assert fs[1..] == []; }
  }

  lemma UintShape(shape: Shape, no: nat, value: int)
    requires shape.Message? && 1 <= no <= |shape.fields| < 100 && shape.fields[no - 1] == Scalar
    ensures WellShaped(shape, Uint(no, value))
  {
    SmallShape(shape, Uint(no, value));
  }

  lemma BytesShape(shape: Shape, no: nat, value: bytes)
    requires shape.Message? && 1 <= no <= |shape.fields| < 100 && shape.fields[no - 1] == Blob
    ensures WellShaped(shape, Bytes(no, value))
  {
    SmallShape(shape, Bytes(no, value));
  }

  lemma {:induction false} StringsShape(shape: Shape, no: nat, values: seq<bytes>)
    requires shape.Message? && 1 <= no <= |shape.fields| < 100 && shape.fields[no - 1] == Blob
    ensures WellShaped(shape, Strings(no, values))
  {
    if values != [] {
      var n := |values| - 1;
      StringsShape(shape, no, values[..n]);
      SmallShape(shape, [Data(no, values[n])]);
      WellShapedConcat(shape, Strings(no, values[..n]), [Data(no, values[n])]);
    }
  }

  lemma MsgShape(shape: Shape, no: nat, fs: seq<Field>)
    requires shape.Message? && 1 <= no <= |shape.fields| < 100
    requires shape.fields[no - 1].Message? && WellShaped(shape.fields[no - 1], fs)
    ensures WellShaped(shape, [Msg(no, fs)])
  {
    SmallShape(shape, [Msg(no, fs)]);
  }

  lemma EventShape(e: WireEvent)
    ensures WellShaped(EVENT, EventFields(e))
  {
    BytesShape(EVENT, 1, e.typ);
    StringsShape(EVENT, 2, e.tags);
    BytesShape(EVENT, 3, e.payload);
    WellShapedConcat(EVENT, Bytes(1, e.typ), Strings(2, e.tags));
    WellShapedConcat(EVENT, Bytes(1, e.typ) + Strings(2, e.tags), Bytes(3, e.payload));
  }

  lemma QueryItemShape(i: WireQueryItem)
    ensures WellShaped(QUERY_ITEM, QueryItemFields(i))
  {
    StringsShape(QUERY_ITEM, 1, i.types);
    StringsShape(QUERY_ITEM, 2, i.tags);
    WellShapedConcat(QUERY_ITEM, Strings(1, i.types), Strings(2, i.tags));
  }

  lemma {:induction false} ItemsShape(items: seq<WireQueryItem>)
    ensures WellShaped(QUERY, ItemsFields(items))
  {
    if items != [] {
      var n := |items| - 1;
      ItemsShape(items[..n]);
      QueryItemShape(items[n]);
      MsgShape(QUERY, 2, QueryItemFields(items[n]));
      WellShapedConcat(QUERY, ItemsFields(items[..n]), [Msg(2, QueryItemFields(items[n]))]);
    }
  }

  lemma QueryShape(q: WireQuery)
    ensures WellShaped(QUERY, QueryFields(q))
  {
    SmallShape(QUERY, Flag(1, q.all));
    ItemsShape(q.items);
    WellShapedConcat(QUERY, Flag(1, q.all), ItemsFields(q.items));
  }

  lemma ConditionShape(c: WireAppendCondition)
    ensures WellShaped(CONDITION, ConditionFields(c))
  {
    var f1 := [Msg(1, QueryFields(c.failIfEventsMatch))];
    var f2 := Uint(2, c.after);
    var f3 := if c.failIfExists == None then [] else [Msg(3, QueryFields(c.failIfExists.value))];
    QueryShape(c.failIfEventsMatch);
    MsgShape(CONDITION, 1, QueryFields(c.failIfEventsMatch));
    UintShape(CONDITION, 2, c.after);
    if c.failIfExists != None {
      QueryShape(c.failIfExists.value);
      MsgShape(CONDITION, 3, QueryFields(c.failIfExists.value));
    }
    WellShapedConcat(CONDITION, f1, f2);
    WellShapedConcat(CONDITION, f1 + f2, f3);
  }

  lemma {:induction false} EventsShape(events: seq<WireEvent>)
    ensures WellShaped(APPEND_REQUEST, EventsFields(events))
  {
    if events != [] {
      var n := |events| - 1;
      EventsShape(events[..n]);
      EventShape(events[n]);
      MsgShape(APPEND_REQUEST, 1, EventFields(events[n]));
      WellShapedConcat(APPEND_REQUEST, EventsFields(events[..n]), [Msg(1, EventFields(events[n]))]);
    }
  }

  lemma AppendRequestShape(a: WireAppendRequest)
    ensures WellShaped(APPEND_REQUEST, AppendRequestFields(a))
  {
    EventsShape(a.events);
    if a.condition != None {
      ConditionShape(a.condition.value);
      MsgShape(APPEND_REQUEST, 2, ConditionFields(a.condition.value));
      WellShapedConcat(APPEND_REQUEST, EventsFields(a.events), [Msg(2, ConditionFields(a.condition.value))]);
    } else {
      assert EventsFields(a.events) + [] == EventsFields(a.events);
    }
  }

  lemma ReadRequestShape(r: WireReadRequest)
    ensures WellShaped(READ_REQUEST, ReadRequestFields(r))
  {
    var f1, f2, f3, f4 := [Msg(1, QueryFields(r.query))], Uint(2, r.after), OptUint(3, r.limit), Flag(4, r.reverse);
    QueryShape(r.query);
    MsgShape(READ_REQUEST, 1, QueryFields(r.query));
    UintShape(READ_REQUEST, 2, r.after);
    SmallShape(READ_REQUEST, f3);
    SmallShape(READ_REQUEST, f4);
    WellShapedConcat(READ_REQUEST, f1, f2);
    WellShapedConcat(READ_REQUEST, f1 + f2, f3);
    WellShapedConcat(READ_REQUEST, f1 + f2 + f3, f4);
  }

  lemma SubscribeRequestShape(r: WireSubscribeRequest)
    ensures WellShaped(SUBSCRIBE_REQUEST, SubscribeRequestFields(r))
  {
    QueryShape(r.query);
    MsgShape(SUBSCRIBE_REQUEST, 1, QueryFields(r.query));
    UintShape(SUBSCRIBE_REQUEST, 2, r.after);
    WellShapedConcat(SUBSCRIBE_REQUEST, [Msg(1, QueryFields(r.query))], Uint(2, r.after));
  }

  lemma HelloShape(h: WireHello)
    ensures WellShaped(HELLO, HelloFields(h))
  {
    var token := if h.authToken == None then [] else Bytes(2, h.authToken.value);
    UintShape(HELLO, 1, h.protocolVersion);
    SmallShape(HELLO, token);
    WellShapedConcat(HELLO, Uint(1, h.protocolVersion), token);
  }

  lemma RequestShape(r: WireRequest)
    ensures WellShaped(REQUEST, RequestFields(r))
  {
    UintShape(REQUEST, 1, r.requestId);
    match r.kind {
      case AppendRequest(a) =>
        AppendRequestShape(a);
        MsgShape(REQUEST, 2, AppendRequestFields(a));
      case ReadRequest(q) =>
        ReadRequestShape(q);
        MsgShape(REQUEST, 3, ReadRequestFields(q));
      case SubscribeRequest(q) =>
        SubscribeRequestShape(q);
        MsgShape(REQUEST, 4, SubscribeRequestFields(q));
      case CancelRequest(target) =>
        UintShape(SINGLE, 1, target);
        MsgShape(REQUEST, 5, Uint(1, target));
      case StatsRequest =>
        SmallShape(REQUEST, [Data(6, [])]);
      case HelloRequest(h) =>
        HelloShape(h);
        MsgShape(REQUEST, 7, HelloFields(h));
      case NoRequest =>
    }
    WellShapedConcat(REQUEST, Uint(1, r.requestId), RequestKindFields(r.kind));
  }

  lemma SequencedShape(e: WireSequencedEvent)
    ensures WellShaped(SEQUENCED, SequencedFields(e))
  {
    var event := if e.event == None then [] else [Msg(2, EventFields(e.event.value))];
    UintShape(SEQUENCED, 1, e.position);
    if e.event != None {
      EventShape(e.event.value);
      MsgShape(SEQUENCED, 2, EventFields(e.event.value));
    }
    WellShapedConcat(SEQUENCED, Uint(1, e.position), event);
  }

  lemma {:induction false} ReadEventsShape(es: seq<WireSequencedEvent>)
    ensures WellShaped(READ_EVENTS, ReadEventsFields(es))
  {
    if es != [] {
      var n := |es| - 1;
      ReadEventsShape(es[..n]);
      SequencedShape(es[n]);
      MsgShape(READ_EVENTS, 1, SequencedFields(es[n]));
      WellShapedConcat(READ_EVENTS, ReadEventsFields(es[..n]), [Msg(1, SequencedFields(es[n]))]);
    }
  }

  lemma StatsShapeHead(s: WireStatsResponse) returns (p: seq<Field>)
    ensures p == Uint(1, s.eventCount) + Uint(2, s.segmentCount) + Uint(3, s.diskBytes)
                 + Uint(4, s.uptimeSeconds) + Uint(5, s.activeConnections) + Uint(6, s.activeSubscriptions)
    ensures WellShaped(STATS_RESPONSE, p)
  {
    p := Uint(1, s.eventCount);
    UintShape(STATS_RESPONSE, 1, s.eventCount);
    p := StatsShapeNext(p, 2, s.segmentCount);
    p := StatsShapeNext(p, 3, s.diskBytes);
    p := StatsShapeNext(p, 4, s.uptimeSeconds);
    p := StatsShapeNext(p, 5, s.activeConnections);
    p := StatsShapeNext(p, 6, s.activeSubscriptions);
  }

  lemma StatsShapeNext(p: seq<Field>, no: nat, value: int) returns (q: seq<Field>)
    requires WellShaped(STATS_RESPONSE, p) && 1 <= no <= 10 && no != 7
    ensures q == p + Uint(no, value) && WellShaped(STATS_RESPONSE, q)
  {
    UintShape(STATS_RESPONSE, no, value);
    WellShapedConcat(STATS_RESPONSE, p, Uint(no, value));
    q := p + Uint(no, value);
  }

  lemma StatsShape(s: WireStatsResponse)
    ensures WellShaped(STATS_RESPONSE, StatsResponseFields(s))
  {
    var p := StatsShapeHead(s);
    BytesShape(STATS_RESPONSE, 7, s.version);
    WellShapedConcat(STATS_RESPONSE, p, Bytes(7, s.version));
    p := StatsShapeNext(p + Bytes(7, s.version), 8, s.connectionsRefused);
    p := StatsShapeNext(p, 9, s.maxConnections);
    p := StatsShapeNext(p, 10, s.connectionsReaped);
  }

  lemma ErrorShape(e: WireErrorResponse)
    ensures WellShaped(ERROR_RESPONSE, ErrorResponseFields(e))
  {
    var f1, f2, f3, f4 := Uint(1, e.code), Bytes(2, e.message), OptUint(3, e.conflictPosition), Flag(4, e.retryable);
    UintShape(ERROR_RESPONSE, 1, e.code);
    BytesShape(ERROR_RESPONSE, 2, e.message);
    SmallShape(ERROR_RESPONSE, f3);
    SmallShape(ERROR_RESPONSE, f4);
    WellShapedConcat(ERROR_RESPONSE, f1, f2);
    WellShapedConcat(ERROR_RESPONSE, f1 + f2, f3);
    WellShapedConcat(ERROR_RESPONSE, f1 + f2 + f3, f4);
  }

  lemma ResponseKindShape(k: ResponseKind)
    ensures WellShaped(RESPONSE, ResponseKindFields(k))
  {
    match k {
      case AppendResponse(a) =>
        UintShape(APPEND_RESPONSE, 1, a.first);
        UintShape(APPEND_RESPONSE, 2, a.last);
        WellShapedConcat(APPEND_RESPONSE, Uint(1, a.first), Uint(2, a.last));
        MsgShape(RESPONSE, 2, AppendResponseFields(a));
      case ReadEvents(es) =>
        ReadEventsShape(es);
        MsgShape(RESPONSE, 3, ReadEventsFields(es));
      case ReadEnd(w) =>
        UintShape(SINGLE, 1, w);
        MsgShape(RESPONSE, 4, Uint(1, w));
      case ErrorResponse(e) =>
        ErrorShape(e);
        MsgShape(RESPONSE, 5, ErrorResponseFields(e));
      case CaughtUp(w) =>
        UintShape(SINGLE, 1, w);
        MsgShape(RESPONSE, 6, Uint(1, w));
      case StatsResponse(s) =>
        StatsShape(s);
        MsgShape(RESPONSE, 7, StatsResponseFields(s));
      case HelloAck(a) =>
        UintShape(HELLO_ACK, 1, a.protocolVersion);
        BytesShape(HELLO_ACK, 2, a.serverVersion);
        WellShapedConcat(HELLO_ACK, Uint(1, a.protocolVersion), Bytes(2, a.serverVersion));
        MsgShape(RESPONSE, 8, HelloAckFields(a));
      case NoResponse =>
    }
  }

  lemma ResponseShape(r: WireResponse)
    ensures WellShaped(RESPONSE, ResponseFields(r))
  {
    UintShape(RESPONSE, 1, r.requestId);
    ResponseKindShape(r.kind);
    WellShapedConcat(RESPONSE, Uint(1, r.requestId), ResponseKindFields(r.kind));
  }

  // ---------------------------------------------------------------------------
  // Main results
  // ---------------------------------------------------------------------------

  function BlankField(f: Field): Field {
    if f.Data? && f.no == 6 then Data(6, []) else f
  }

  /** A request's fields as its decoder uses them: the body of a stats request is read and dropped. */
  function Blank(fs: seq<Field>): seq<Field> {
    seq(|fs|, i requires 0 <= i < |fs| => BlankField(fs[i]))
  }

  lemma {:induction false} BlankFold(fs: seq<Field>)
    ensures RequestOf(Blank(fs)) == RequestOf(fs)
  {
    hide RequestStep;
    if fs == [] {
      assert Blank(fs) == fs;
    } else {
      var init, last := fs[..|fs| - 1], fs[|fs| - 1];
      BlankFold(init);
      assert Blank(fs) == Blank(init) + [BlankField(last)];
      FoldSnoc(RequestStep, WireRequest(0, NoRequest), Blank(init), BlankField(last));
      BlankStep(RequestOf(init), last);
    }
  }

  lemma BlankStep(r: WireRequest, f: Field)
    ensures RequestStep(r, BlankField(f)) == RequestStep(r, f)
  {
  }

  lemma WrittenBlank(r: WireRequest)
    ensures Blank(RequestFields(r)) == RequestFields(r)
  {
  }

  /**
   * A request decodes to its canonical form from its own encoding, and from any body that differs
   * only by complete unknown fields, at any field boundary and any nesting level, with the enclosing
   * lengths adjusted, or by what stands in the body of a stats request. The bound holds of every buffer
   * that can exist.
   */
  lemma RequestForwardCompatible(r: WireRequest, fs: seq<Field>)
    requires Fits(REQUEST, fs) && Blank(Strip(fs)) == RequestFields(r)
    requires |Ser(fs)| < TWO64
    ensures DecodedRequest(Ser(fs)) == Ok(CanonRequest(r))
  {
    ParseInvertsSer(REQUEST, [], fs);
    assert [] + Strip(fs) == Strip(fs);
    BlankFold(Strip(fs));
    RequestFold(r);
  }

  lemma ResponseForwardCompatible(r: WireResponse, fs: seq<Field>)
    requires Fits(RESPONSE, fs) && Strip(fs) == ResponseFields(r)
    requires |Ser(fs)| < TWO64
    ensures DecodedResponse(Ser(fs)) == Ok(CanonResponse(r))
  {
    ParseInvertsSer(RESPONSE, [], fs);
    assert [] + Strip(fs) == Strip(fs);
    ResponseFold(r);
  }

  /** Whoever wrote them: two bodies that differ only so decode, and to the same request. */
  lemma RequestsDecodeAlike(fs: seq<Field>, gs: seq<Field>)
    requires Fits(REQUEST, fs) && Fits(REQUEST, gs) && Blank(Strip(fs)) == Blank(Strip(gs))
    requires |Ser(fs)| < TWO64 && |Ser(gs)| < TWO64
    ensures DecodedRequest(Ser(fs)) == DecodedRequest(Ser(gs)) && DecodedRequest(Ser(fs)).Ok?
  {
    hide Blank, Parse;
    ParseInvertsSer(REQUEST, [], fs);
    ParseInvertsSer(REQUEST, [], gs);
    assert [] + Strip(fs) == Strip(fs) && [] + Strip(gs) == Strip(gs);
    BlankFold(Strip(fs));
    BlankFold(Strip(gs));
  }

  lemma ResponsesDecodeAlike(fs: seq<Field>, gs: seq<Field>)
    requires Fits(RESPONSE, fs) && Fits(RESPONSE, gs) && Strip(fs) == Strip(gs)
    requires |Ser(fs)| < TWO64 && |Ser(gs)| < TWO64
    ensures DecodedResponse(Ser(fs)) == DecodedResponse(Ser(gs)) && DecodedResponse(Ser(fs)).Ok?
  {
    hide Parse;
    ParseInvertsSer(RESPONSE, [], fs);
    ParseInvertsSer(RESPONSE, [], gs);
  }

  /** So a stats request is one whatever its body, unknown fields around it included. */
  lemma AnyStatsBody(id: int, d: bytes, fs: seq<Field>)
    requires Fits(REQUEST, fs) && Strip(fs) == Uint(1, id) + [Data(6, d)]
    requires |Ser(fs)| < TWO64
    ensures DecodedRequest(Ser(fs)) == Ok(WireRequest(Wrap64(id), StatsRequest))
  {
    var r := WireRequest(id, StatsRequest);
    assert Blank(Strip(fs)) == RequestFields(r);
    RequestForwardCompatible(r, fs);
  }

  lemma RequestRoundTrip(r: WireRequest)
    requires |EncodedRequest(r)| < TWO64
    ensures DecodedRequest(EncodedRequest(r)) == Ok(CanonRequest(r))
  {
    RequestShape(r);
    StripKnown(RequestFields(r));
    WrittenBlank(r);
    RequestForwardCompatible(r, RequestFields(r));
  }

  lemma ResponseRoundTrip(r: WireResponse)
    requires |EncodedResponse(r)| < TWO64
    ensures DecodedResponse(EncodedResponse(r)) == Ok(CanonResponse(r))
  {
    ResponseShape(r);
    StripKnown(ResponseFields(r));
    ResponseForwardCompatible(r, ResponseFields(r));
  }

  // ---------------------------------------------------------------------------
  // Exactly which messages survive unchanged
  // ---------------------------------------------------------------------------

  predicate IsU64(v: int) {
    0 <= v < TWO64
  }

  /** A non-negative integer a double holds exactly, within the u64 range. */
  predicate IsU64Number(v: int) {
    IsU64(v) && ToNumber(v) == v
  }

  predicate RepresentableRequest(r: WireRequest) {
    && IsU64(r.requestId)
    && match r.kind
       case AppendRequest(a) => a.condition.Some? ==> IsU64(a.condition.value.after)
       case ReadRequest(q) => IsU64(q.after) && (q.limit.Some? ==> IsU64(q.limit.value))
       case SubscribeRequest(q) => IsU64(q.after)
       case CancelRequest(target) => IsU64(target)
       case HelloRequest(h) => IsU64Number(h.protocolVersion) && h.authToken != Some([])
       case _ => true
  }

  predicate RepresentableResponse(r: WireResponse) {
    && IsU64(r.requestId)
    && match r.kind
       case AppendResponse(a) => IsU64(a.first) && IsU64(a.last)
       case ReadEvents(es) => forall e <- es :: IsU64(e.position)
       case ReadEnd(w) => IsU64(w)
       case ErrorResponse(e) =>
         IsU64Number(e.code) && (e.conflictPosition.Some? ==> IsU64(e.conflictPosition.value))
       case CaughtUp(w) => IsU64(w)
       case StatsResponse(s) =>
         && IsU64(s.eventCount) && IsU64(s.segmentCount) && IsU64(s.diskBytes) && IsU64(s.uptimeSeconds)
         && IsU64(s.activeConnections) && IsU64(s.activeSubscriptions) && IsU64(s.connectionsRefused)
         && IsU64(s.maxConnections) && IsU64(s.connectionsReaped)
       case HelloAck(a) => IsU64Number(a.protocolVersion)
       case NoResponse => true
  }

  lemma CanonNumberFixed(v: int)
    ensures CanonNumber(v) == v <==> IsU64Number(v)
  {
    ToNumberBound(Wrap64(v));
    assert ToNumber(0) == 0;
  }

  /** Rounding a u64 to a double never passes 2^64. */
  lemma ToNumberBound(v: nat)
    requires v < TWO64
    ensures ToNumber(v) <= TWO64
  {
    if v > TWO53 {
      RoundToUlpBound(v, 1, 0);
    }
  }

  function Pow2(n: nat): nat {
    if n == 0 then 1 else 2 * Pow2(n - 1)
  }

  lemma {:induction false} Pow2Add(a: nat, b: nat)
    ensures Pow2(a + b) == Pow2(a) * Pow2(b) && Pow2(a) > 0
    decreases a
  {
    if a > 0 {
      Pow2Add(a - 1, b);
      assert Pow2(a + b) == 2 * Pow2(a - 1 + b);
    }
  }

  lemma {:induction false} RoundToUlpBound(v: nat, ulp: nat, e: nat)
    requires v < TWO64 && ulp > 0 && ulp == Pow2(e) && e <= 11
    ensures RoundToUlp(v, ulp) <= TWO64
    decreases 11 - e
  {
    assert Pow2(11) == 2048 by {
      assert Pow2(3) == 8 && Pow2(6) == 64 && Pow2(9) == 512;
    }
    if v >= TWO53 * ulp {
      assert e < 11;
      RoundToUlpBound(v, 2 * ulp, e + 1);
    } else {
      var grid := Grid(e);
      QuotientBelow(v, grid, ulp);
      MulMono(v / ulp, grid, ulp);
      MulMono(v / ulp + 1, grid, ulp);
    }
  }

  /** How many steps of 2^e there are below 2^64. */
  lemma Grid(e: nat) returns (grid: nat)
    requires e <= 11
    ensures grid * Pow2(e) == TWO64
  {
    Pow2Add(e, 11 - e);
    grid := TWO53 * Pow2(11 - e);
    assert TWO53 * Pow2(11 - e) * Pow2(e) == TWO53 * (Pow2(e) * Pow2(11 - e));
    assert Pow2(3) == 8 && Pow2(6) == 64 && Pow2(9) == 512 && Pow2(11) == 2048;
  }

  lemma QuotientBelow(v: nat, grid: nat, ulp: nat)
    requires ulp > 0 && v < grid * ulp
    ensures v / ulp < grid
  {
    if v / ulp >= grid {
      MulMono(grid, v / ulp, ulp);
      assert false;
    }
  }

  lemma MulMono(a: nat, b: nat, c: nat)
    requires a <= b
    ensures a * c <= b * c
  {
  }

  lemma {:induction false} CanonEventsFixed(es: seq<WireSequencedEvent>)
    ensures |CanonEvents(es)| == |es|
    ensures CanonEvents(es) == es <==> forall e <- es :: IsU64(e.position)
  {
    if es != [] {
      var n := |es| - 1;
      CanonEventsFixed(es[..n]);
      assert es == es[..n] + [es[n]];
      assert forall e <- es :: e in es[..n] || e == es[n];
      assert CanonEvents(es)[..n] == CanonEvents(es[..n]);
      assert CanonEvents(es)[n] == CanonSequenced(es[n]);
    }
  }

  lemma CanonRequestFixed(r: WireRequest)
    ensures CanonRequest(r) == r <==> RepresentableRequest(r)
  {
    match r.kind
    case HelloRequest(h) => CanonNumberFixed(h.protocolVersion);
    case _ =>
  }

  lemma CanonResponseFixed(r: WireResponse)
    ensures CanonResponse(r) == r <==> RepresentableResponse(r)
  {
    match r.kind
    case ReadEvents(es) => CanonEventsFixed(es);
    case ErrorResponse(e) => CanonNumberFixed(e.code);
    case HelloAck(a) => CanonNumberFixed(a.protocolVersion);
    case _ =>
  }

  /** The request round trip is the identity exactly on the representable requests. */
  lemma RequestRoundTripExactly(r: WireRequest)
    requires |EncodedRequest(r)| < TWO64
    ensures DecodedRequest(EncodedRequest(r)) == Ok(r) <==> RepresentableRequest(r)
  {
    RequestRoundTrip(r);
    CanonRequestFixed(r);
  }

  /** The response round trip is the identity exactly on the representable responses. */
  lemma ResponseRoundTripExactly(r: WireResponse)
    requires |EncodedResponse(r)| < TWO64
    ensures DecodedResponse(EncodedResponse(r)) == Ok(r) <==> RepresentableResponse(r)
  {
    ResponseRoundTrip(r);
    CanonResponseFixed(r);
  }

  /** An empty bearer token is not carried: it reaches the peer as no token at all. */
  lemma EmptyTokenIsLost(id: nat)
    requires id < TWO64
    ensures var r := WireRequest(id, HelloRequest(WireHello(PROTOCOL_VERSION, Some([]))));
            DecodedRequest(EncodedRequest(r)) == Ok(r.(kind := HelloRequest(WireHello(PROTOCOL_VERSION, None))))
  {
    var r := WireRequest(id, HelloRequest(WireHello(PROTOCOL_VERSION, Some([]))));
    UintLength(1, id);
    UintLength(1, PROTOCOL_VERSION);
    SerConcat(Uint(1, id), [Msg(7, HelloFields(r.kind.hello))]);
    SerOne(Msg(7, HelloFields(r.kind.hello)));
    assert HelloFields(r.kind.hello) == Uint(1, PROTOCOL_VERSION);
    WrappedVarintRoundTrip(8 * 7 + 2, []);
    WrappedVarintRoundTrip(|Ser(Uint(1, PROTOCOL_VERSION))|, []);
    RequestRoundTrip(r);
  }

  /** A small-numbered u64 field takes at most eleven bytes. */
  lemma UintLength(no: nat, v: int)
    requires no <= 15
    ensures |Ser(Uint(no, v))| <= 11
  {
    if v != 0 {
      SerOne(Num(no, Wrap64(v)));
      WrappedVarintRoundTrip(v, []);
      assert |TagBytes(no, 0)| == 1 by { assert Wrap64(8 * no) == 8 * no < 0x80; }
    }
  }

  /** The body of a cancel is at most 24 bytes, whatever the two request ids. */
  lemma CancelFits(id: int, target: int)
    ensures |EncodedRequest(WireRequest(id, CancelRequest(target)))| <= 24
  {
    var inner := Uint(1, target);
    UintLength(1, id);
    UintLength(1, target);
    SerConcat(Uint(1, id), [Msg(5, inner)]);
    SerOne(Msg(5, inner));
    assert Wrap64(|Ser(inner)|) == |Ser(inner)| < 0x80;
    assert Wrap64(8 * 5 + 2) == 42;
  }

  /** Nor is it ever shorter than two. */
  lemma CancelNotEmpty(id: int, target: int)
    ensures |EncodedRequest(WireRequest(id, CancelRequest(target)))| >= 2
  {
    var inner := Uint(1, target);
    SerConcat(Uint(1, id), [Msg(5, inner)]);
    SerOne(Msg(5, inner));
    WrappedVarintRoundTrip(|Ser(inner)|, []);
    assert |TagBytes(5, 2)| == 1 by { assert Wrap64(8 * 5 + 2) == 42; }
  }
}
