/**
 * The round trip of every request and response. The wire form is canonical: a bigint becomes its u64
 * residue, a number goes through a u64 and back to a double, and an empty bearer token becomes absent.
 * Decoding an encoding yields exactly that canonical form, so the round trip is the identity exactly
 * on the messages already in canonical form.
 */
module RoundTrip {
  import opened Base
  import opened Varints
  import opened Fields
  import opened Messages

  // ---------------------------------------------------------------------------
  // Canonical forms
  // ---------------------------------------------------------------------------

  function CanonNumber(v: int): int {
    ToNumber(Wrap64(v))
  }

  function CanonOpt(v: Option<int>): Option<int> {
    if v == None then None else Some(Wrap64(v.value))
  }

  function CanonCondition(c: WireAppendCondition): WireAppendCondition {
    c.(after := Wrap64(c.after))
  }

  function CanonRequestKind(k: RequestKind): RequestKind {
    match k
    case AppendRequest(a) =>
      AppendRequest(a.(condition := if a.condition == None then None else Some(CanonCondition(a.condition.value))))
    case ReadRequest(r) => ReadRequest(r.(after := Wrap64(r.after), limit := CanonOpt(r.limit)))
    case SubscribeRequest(r) => SubscribeRequest(r.(after := Wrap64(r.after)))
    case CancelRequest(target) => CancelRequest(Wrap64(target))
    case HelloRequest(h) =>
      HelloRequest(WireHello(CanonNumber(h.protocolVersion), if h.authToken == Some([]) then None else h.authToken))
    case _ => k
  }

  function CanonRequest(r: WireRequest): WireRequest {
    WireRequest(Wrap64(r.requestId), CanonRequestKind(r.kind))
  }

  function CanonSequenced(e: WireSequencedEvent): WireSequencedEvent {
    e.(position := Wrap64(e.position))
  }

  function CanonEvents(es: seq<WireSequencedEvent>): seq<WireSequencedEvent> {
    if es == [] then [] else CanonEvents(es[..|es| - 1]) + [CanonSequenced(es[|es| - 1])]
  }

  function CanonStats(s: WireStatsResponse): WireStatsResponse {
    WireStatsResponse(
      Wrap64(s.eventCount), Wrap64(s.segmentCount), Wrap64(s.diskBytes), Wrap64(s.uptimeSeconds),
      Wrap64(s.activeConnections), Wrap64(s.activeSubscriptions), s.version, Wrap64(s.connectionsRefused),
      Wrap64(s.maxConnections), Wrap64(s.connectionsReaped))
  }

  function CanonResponseKind(k: ResponseKind): ResponseKind {
    match k
    case AppendResponse(r) => AppendResponse(WireAppendResponse(Wrap64(r.first), Wrap64(r.last)))
    case ReadEvents(es) => ReadEvents(CanonEvents(es))
    case ReadEnd(w) => ReadEnd(Wrap64(w))
    case ErrorResponse(e) =>
      ErrorResponse(e.(code := CanonNumber(e.code), conflictPosition := CanonOpt(e.conflictPosition)))
    case CaughtUp(w) => CaughtUp(Wrap64(w))
    case StatsResponse(s) => StatsResponse(CanonStats(s))
    case HelloAck(a) => HelloAck(a.(protocolVersion := CanonNumber(a.protocolVersion)))
    case NoResponse => k
  }

  function CanonResponse(r: WireResponse): WireResponse {
    WireResponse(Wrap64(r.requestId), CanonResponseKind(r.kind))
  }

  // ---------------------------------------------------------------------------
  // Folding over what each field writer appends
  // ---------------------------------------------------------------------------

  lemma SnocAssoc<T>(a: seq<T>, b: seq<T>, x: T)
    ensures a + (b + [x]) == a + b + [x]
  {
  }

  lemma FoldOne<R>(step: (R, Field) -> R, init: R, f: Field)
    ensures Fold(step, init, [f]) == step(init, f)
  {
    assert [f][..0] == [];
  }

  lemma FoldUint<R>(step: (R, Field) -> R, init: R, pre: seq<Field>, no: nat, v: int)
    ensures Fold(step, init, pre + Uint(no, v))
            == if v == 0 then Fold(step, init, pre) else step(Fold(step, init, pre), Num(no, Wrap64(v)))
  {
    if v == 0 { assert pre + [] == pre; } else { FoldSnoc(step, init, pre, Num(no, Wrap64(v))); }
  }

  lemma FoldFirstUint<R>(step: (R, Field) -> R, init: R, no: nat, v: int)
    ensures Fold(step, init, Uint(no, v)) == if v == 0 then init else step(init, Num(no, Wrap64(v)))
  {
    FoldUint(step, init, [], no, v);
    assert [] + Uint(no, v) == Uint(no, v);
  }

  lemma FoldOptUint<R>(step: (R, Field) -> R, init: R, pre: seq<Field>, no: nat, v: Option<int>)
    ensures Fold(step, init, pre + OptUint(no, v))
            == if v == None then Fold(step, init, pre) else step(Fold(step, init, pre), Num(no, Wrap64(v.value)))
  {
    if v == None { assert pre + [] == pre; } else { FoldSnoc(step, init, pre, Num(no, Wrap64(v.value))); }
  }

  lemma FoldFlag<R>(step: (R, Field) -> R, init: R, pre: seq<Field>, no: nat, v: bool)
    ensures Fold(step, init, pre + Flag(no, v))
            == if v then step(Fold(step, init, pre), Num(no, 1)) else Fold(step, init, pre)
  {
    if v { FoldSnoc(step, init, pre, Num(no, 1)); } else { assert pre + [] == pre; }
  }

  lemma FoldBytes<R>(step: (R, Field) -> R, init: R, pre: seq<Field>, no: nat, v: bytes)
    ensures Fold(step, init, pre + Bytes(no, v))
            == if v == [] then Fold(step, init, pre) else step(Fold(step, init, pre), Data(no, v))
  {
    if v == [] { assert pre + [] == pre; } else { FoldSnoc(step, init, pre, Data(no, v)); }
  }

  // ---------------------------------------------------------------------------
  // Event, query, condition
  // ---------------------------------------------------------------------------

  lemma {:induction false} EventTags(pre: seq<Field>, tags: seq<bytes>)
    ensures EventOf(pre + Strings(2, tags)) == EventOf(pre).(tags := EventOf(pre).tags + tags)
  {
    hide Fold;
    if tags == [] {
      assert pre + [] == pre;
    } else {
      var n := |tags| - 1;
      EventTags(pre, tags[..n]);
      SnocAssoc(pre, Strings(2, tags[..n]), Data(2, tags[n]));
      FoldSnoc(EventStep, WireEvent([], [], []), pre + Strings(2, tags[..n]), Data(2, tags[n]));
      assert tags == tags[..n] + [tags[n]];
    }
  }

  lemma EventRoundTrip(e: WireEvent)
    ensures EventOf(EventFields(e)) == e
  {
    hide Fold, Bytes, Strings;
    var init := WireEvent([], [], []);
    var typ := Bytes(1, e.typ);
    var tagged := typ + Strings(2, e.tags);
    FoldNone(EventStep, init);
    FoldBytes(EventStep, init, [], 1, e.typ);
    assert [] + typ == typ;
    assert EventOf(typ) == WireEvent(e.typ, [], []);
    EventTags(typ, e.tags);
    assert [] + e.tags == e.tags;
    assert EventOf(tagged) == WireEvent(e.typ, e.tags, []);
    FoldBytes(EventStep, init, tagged, 3, e.payload);
  }

  lemma {:induction false} ItemTypes(types: seq<bytes>)
    ensures QueryItemOf(Strings(1, types)) == WireQueryItem(types, [])
  {
    hide Fold;
    FoldNone(QueryItemStep, WireQueryItem([], []));
    if types != [] {
      var n := |types| - 1;
      ItemTypes(types[..n]);
      FoldSnoc(QueryItemStep, WireQueryItem([], []), Strings(1, types[..n]), Data(1, types[n]));
      assert types == types[..n] + [types[n]];
    }
  }

  lemma {:induction false} ItemRoundTrip(types: seq<bytes>, tags: seq<bytes>)
    ensures QueryItemOf(Strings(1, types) + Strings(2, tags)) == WireQueryItem(types, tags)
  {
    hide Fold;
    var pre := Strings(1, types);
    if tags == [] {
      ItemTypes(types);
      assert pre + [] == pre;
    } else {
      var n := |tags| - 1;
      ItemRoundTrip(types, tags[..n]);
      SnocAssoc(pre, Strings(2, tags[..n]), Data(2, tags[n]));
      FoldSnoc(QueryItemStep, WireQueryItem([], []), pre + Strings(2, tags[..n]), Data(2, tags[n]));
      assert tags == tags[..n] + [tags[n]];
    }
  }

  lemma QueryFieldsSnoc(q: WireQuery)
    requires q.items != []
    ensures var n := |q.items| - 1;
            QueryFields(q) == QueryFields(WireQuery(q.all, q.items[..n])) + [Msg(2, QueryItemFields(q.items[n]))]
  {
    hide QueryItemFields, Flag;
    var n := |q.items| - 1;
    SnocAssoc(Flag(1, q.all), ItemsFields(q.items[..n]), Msg(2, QueryItemFields(q.items[n])));
  }

  lemma {:induction false} QueryRoundTrip(q: WireQuery)
    ensures QueryOf(QueryFields(q)) == q
    decreases |q.items|
  {
    hide Fold, QueryItemOf, QueryItemFields, Flag;
    if q.items == [] {
      FoldNone(QueryStep, EMPTY_QUERY);
      FoldFlag(QueryStep, EMPTY_QUERY, [], 1, q.all);
      assert QueryFields(q) == [] + Flag(1, q.all);
    } else {
      hide QueryFields;
      var n := |q.items| - 1;
      var item, shorter := q.items[n], WireQuery(q.all, q.items[..n]);
      QueryRoundTrip(shorter);
      ItemDecodes(item);
      QueryFieldsSnoc(q);
      FoldSnoc(QueryStep, EMPTY_QUERY, QueryFields(shorter), Msg(2, QueryItemFields(item)));
      assert q.items == q.items[..n] + [item];
    }
  }

  lemma ItemDecodes(item: WireQueryItem)
    ensures QueryItemOf(QueryItemFields(item)) == item
  {
    ItemRoundTrip(item.types, item.tags);
  }

  lemma ConditionRoundTrip(c: WireAppendCondition)
    ensures ConditionOf(ConditionFields(c)) == CanonCondition(c)
  {
    hide Fold;
    var init := WireAppendCondition(EMPTY_QUERY, 0, None);
    var first := Msg(1, QueryFields(c.failIfEventsMatch));
    QueryRoundTrip(c.failIfEventsMatch);
    FoldOne(ConditionStep, init, first);
    FoldUint(ConditionStep, init, [first], 2, c.after);
    var two := [first] + Uint(2, c.after);
    if c.failIfExists != None {
      QueryRoundTrip(c.failIfExists.value);
      FoldSnoc(ConditionStep, init, two, Msg(3, QueryFields(c.failIfExists.value)));
    } else {
      assert two + [] == two;
    }
  }

  // ---------------------------------------------------------------------------
  // Requests
  // ---------------------------------------------------------------------------

  lemma {:induction false} EventsRoundTrip(events: seq<WireEvent>)
    ensures AppendRequestOf(EventsFields(events)) == WireAppendRequest(events, None)
  {
    hide Fold, EventOf, EventFields;
    FoldNone(AppendRequestStep, WireAppendRequest([], None));
    if events != [] {
      var n := |events| - 1;
      EventsRoundTrip(events[..n]);
      EventRoundTrip(events[n]);
      FoldSnoc(AppendRequestStep, WireAppendRequest([], None), EventsFields(events[..n]),
               Msg(1, EventFields(events[n])));
      assert events == events[..n] + [events[n]];
    }
  }

  lemma AppendRequestRoundTrip(a: WireAppendRequest)
    ensures AppendRequest(AppendRequestOf(AppendRequestFields(a))) == CanonRequestKind(AppendRequest(a))
  {
    hide Fold;
    var pre := EventsFields(a.events);
    EventsRoundTrip(a.events);
    if a.condition != None {
      var f := Msg(2, ConditionFields(a.condition.value));
      ConditionRoundTrip(a.condition.value);
      FoldSnoc(AppendRequestStep, WireAppendRequest([], None), pre, f);
    } else {
      assert pre + [] == pre;
    }
  }

  lemma ReadRequestRoundTrip(r: WireReadRequest)
    ensures ReadRequest(ReadRequestOf(ReadRequestFields(r))) == CanonRequestKind(ReadRequest(r))
  {
    hide Fold;
    var init := WireReadRequest(EMPTY_QUERY, 0, None, false);
    var first := Msg(1, QueryFields(r.query));
    QueryRoundTrip(r.query);
    FoldOne(ReadRequestStep, init, first);
    FoldUint(ReadRequestStep, init, [first], 2, r.after);
    FoldOptUint(ReadRequestStep, init, [first] + Uint(2, r.after), 3, r.limit);
    FoldFlag(ReadRequestStep, init, [first] + Uint(2, r.after) + OptUint(3, r.limit), 4, r.reverse);
  }

  lemma SubscribeRequestRoundTrip(r: WireSubscribeRequest)
    ensures SubscribeRequest(SubscribeRequestOf(SubscribeRequestFields(r))) == CanonRequestKind(SubscribeRequest(r))
  {
    hide Fold;
    var init := WireSubscribeRequest(EMPTY_QUERY, 0);
    var first := Msg(1, QueryFields(r.query));
    QueryRoundTrip(r.query);
    FoldOne(SubscribeRequestStep, init, first);
    FoldUint(SubscribeRequestStep, init, [first], 2, r.after);
  }

  lemma SingleRoundTrip(v: int)
    ensures SingleOf(Uint(1, v)) == Wrap64(v)
  {
    FoldFirstUint(SingleStep, 0, 1, v);
  }

  lemma ZeroNumber()
    ensures CanonNumber(0) == 0
  {
  }

  lemma HelloRoundTrip(h: WireHello)
    ensures HelloRequest(HelloOf(HelloFields(h))) == CanonRequestKind(HelloRequest(h))
  {
    hide Fold, ToNumber;
    ZeroNumber();
    var init := WireHello(0, None);
    var pre := Uint(1, h.protocolVersion);
    FoldFirstUint(HelloStep, init, 1, h.protocolVersion);
    if h.authToken != None {
      FoldBytes(HelloStep, init, pre, 2, h.authToken.value);
    } else {
      assert pre + [] == pre;
    }
  }

  lemma RequestKindRoundTrip(k: RequestKind, r: WireRequest)
    requires k != NoRequest
    ensures |RequestKindFields(k)| == 1
    ensures RequestStep(r, RequestKindFields(k)[0]) == r.(kind := CanonRequestKind(k))
  {
    hide Fold, ToNumber;
    match k
    case AppendRequest(a) => AppendRequestRoundTrip(a);
    case ReadRequest(q) => ReadRequestRoundTrip(q);
    case SubscribeRequest(q) => SubscribeRequestRoundTrip(q);
    case CancelRequest(target) => SingleRoundTrip(target);
    case HelloRequest(h) => HelloRoundTrip(h);
    case StatsRequest =>
  }

  lemma RequestFold(r: WireRequest)
    ensures RequestOf(RequestFields(r)) == CanonRequest(r)
  {
    hide Fold, CanonRequestKind;
    var init, pre := WireRequest(0, NoRequest), Uint(1, r.requestId);
    FoldFirstUint(RequestStep, init, 1, r.requestId);
    if r.kind == NoRequest {
      NoneIsCanonical();
      assert pre + [] == pre;
    } else {
      RequestKindRoundTrip(r.kind, WireRequest(Wrap64(r.requestId), NoRequest));
      assert RequestFields(r) == pre + [RequestKindFields(r.kind)[0]];
      FoldSnoc(RequestStep, init, pre, RequestKindFields(r.kind)[0]);
    }
  }

  lemma NoneIsCanonical()
    ensures CanonRequestKind(NoRequest) == NoRequest && CanonResponseKind(NoResponse) == NoResponse
  {
  }

  // ---------------------------------------------------------------------------
  // Responses
  // ---------------------------------------------------------------------------

  lemma SequencedRoundTrip(e: WireSequencedEvent)
    ensures SequencedOf(SequencedFields(e)) == CanonSequenced(e)
  {
    hide Fold;
    var init, pre := WireSequencedEvent(0, None), Uint(1, e.position);
    FoldFirstUint(SequencedStep, init, 1, e.position);
    if e.event != None {
      EventRoundTrip(e.event.value);
      FoldSnoc(SequencedStep, init, pre, Msg(2, EventFields(e.event.value)));
    } else {
      assert pre + [] == pre;
    }
  }

  lemma {:induction false} ReadEventsRoundTrip(es: seq<WireSequencedEvent>)
    ensures ReadEventsOf(ReadEventsFields(es)) == CanonEvents(es)
  {
    hide Fold, SequencedOf, SequencedFields;
    FoldNone(ReadEventsStep, []);
    if es != [] {
      var n := |es| - 1;
      ReadEventsRoundTrip(es[..n]);
      SequencedRoundTrip(es[n]);
      FoldSnoc(ReadEventsStep, [], ReadEventsFields(es[..n]), Msg(1, SequencedFields(es[n])));
    }
  }

  lemma AppendResponseRoundTrip(r: WireAppendResponse)
    ensures AppendResponse(AppendResponseOf(AppendResponseFields(r))) == CanonResponseKind(AppendResponse(r))
  {
    hide Fold;
    FoldFirstUint(AppendResponseStep, WireAppendResponse(0, 0), 1, r.first);
    FoldUint(AppendResponseStep, WireAppendResponse(0, 0), Uint(1, r.first), 2, r.last);
  }

  lemma StatsHead(s: WireStatsResponse) returns (p: seq<Field>)
    ensures p == Uint(1, s.eventCount) + Uint(2, s.segmentCount) + Uint(3, s.diskBytes)
                 + Uint(4, s.uptimeSeconds) + Uint(5, s.activeConnections) + Uint(6, s.activeSubscriptions)
    ensures StatsResponseOf(p)
            == CanonStats(s.(version := [], connectionsRefused := 0, maxConnections := 0, connectionsReaped := 0))
  {
    hide Fold;
    p := Uint(1, s.eventCount);
    FoldFirstUint(StatsResponseStep, EMPTY_STATS, 1, s.eventCount);
    FoldUint(StatsResponseStep, EMPTY_STATS, p, 2, s.segmentCount);
    p := p + Uint(2, s.segmentCount);
    FoldUint(StatsResponseStep, EMPTY_STATS, p, 3, s.diskBytes);
    p := p + Uint(3, s.diskBytes);
    FoldUint(StatsResponseStep, EMPTY_STATS, p, 4, s.uptimeSeconds);
    p := p + Uint(4, s.uptimeSeconds);
    FoldUint(StatsResponseStep, EMPTY_STATS, p, 5, s.activeConnections);
    p := p + Uint(5, s.activeConnections);
    FoldUint(StatsResponseStep, EMPTY_STATS, p, 6, s.activeSubscriptions);
    p := p + Uint(6, s.activeSubscriptions);
  }

  lemma StatsRoundTrip(s: WireStatsResponse)
    ensures StatsResponseOf(StatsResponseFields(s)) == CanonStats(s)
  {
    hide Fold;
    var p := StatsHead(s);
    FoldBytes(StatsResponseStep, EMPTY_STATS, p, 7, s.version);
    p := p + Bytes(7, s.version);
    FoldUint(StatsResponseStep, EMPTY_STATS, p, 8, s.connectionsRefused);
    p := p + Uint(8, s.connectionsRefused);
    FoldUint(StatsResponseStep, EMPTY_STATS, p, 9, s.maxConnections);
    p := p + Uint(9, s.maxConnections);
    FoldUint(StatsResponseStep, EMPTY_STATS, p, 10, s.connectionsReaped);
  }

  lemma ErrorRoundTrip(e: WireErrorResponse)
    ensures ErrorResponse(ErrorResponseOf(ErrorResponseFields(e))) == CanonResponseKind(ErrorResponse(e))
  {
    hide Fold, ToNumber;
    ZeroNumber();
    var init := WireErrorResponse(0, [], None, false);
    var p := Uint(1, e.code);
    FoldFirstUint(ErrorResponseStep, init, 1, e.code);
    FoldBytes(ErrorResponseStep, init, p, 2, e.message);
    p := p + Bytes(2, e.message);
    FoldOptUint(ErrorResponseStep, init, p, 3, e.conflictPosition);
    FoldFlag(ErrorResponseStep, init, p + OptUint(3, e.conflictPosition), 4, e.retryable);
  }

  lemma HelloAckRoundTrip(a: WireHelloAck)
    ensures HelloAck(HelloAckOf(HelloAckFields(a))) == CanonResponseKind(HelloAck(a))
  {
    hide Fold, ToNumber;
    ZeroNumber();
    FoldFirstUint(HelloAckStep, WireHelloAck(0, []), 1, a.protocolVersion);
    FoldBytes(HelloAckStep, WireHelloAck(0, []), Uint(1, a.protocolVersion), 2, a.serverVersion);
  }

  lemma ResponseKindRoundTrip(k: ResponseKind, r: WireResponse)
    requires k != NoResponse
    ensures |ResponseKindFields(k)| == 1
    ensures ResponseStep(r, ResponseKindFields(k)[0]) == r.(kind := CanonResponseKind(k))
  {
    hide Fold, ToNumber;
    match k
    case AppendResponse(a) => AppendResponseRoundTrip(a);
    case ReadEvents(es) => ReadEventsRoundTrip(es);
    case ReadEnd(w) => SingleRoundTrip(w);
    case ErrorResponse(e) => ErrorRoundTrip(e);
    case CaughtUp(w) => SingleRoundTrip(w);
    case StatsResponse(s) => StatsRoundTrip(s);
    case HelloAck(a) => HelloAckRoundTrip(a);
  }

  lemma ResponseFold(r: WireResponse)
    ensures ResponseOf(ResponseFields(r)) == CanonResponse(r)
  {
    hide Fold, CanonResponseKind;
    var init, pre := WireResponse(0, NoResponse), Uint(1, r.requestId);
    FoldFirstUint(ResponseStep, init, 1, r.requestId);
    if r.kind == NoResponse {
      NoneIsCanonical();
      assert pre + [] == pre;
    } else {
      ResponseKindRoundTrip(r.kind, WireResponse(Wrap64(r.requestId), NoResponse));
      assert ResponseFields(r) == pre + [ResponseKindFields(r.kind)[0]];
      FoldSnoc(ResponseStep, init, pre, ResponseKindFields(r.kind)[0]);
    }
  }
}
