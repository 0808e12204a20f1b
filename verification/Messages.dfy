/**
 * The tephra.v1 messages: records, the fields each encoder writes (`...Fields`), and how each decoder
 * folds fields into a record (`...Of`). Strings are their UTF-8 bytes; a bigint or number is an `int`,
 * of any sign and size, as the source's encoders accept.
 */
module Messages {
  import opened Base
  import Varints
  import opened Fields

  const PROTOCOL_VERSION := 1

  datatype WireEvent = WireEvent(typ: bytes, tags: seq<bytes>, payload: bytes)
  datatype WireQueryItem = WireQueryItem(types: seq<bytes>, tags: seq<bytes>)
  datatype WireQuery = WireQuery(all: bool, items: seq<WireQueryItem>)
  datatype WireAppendCondition =
    WireAppendCondition(failIfEventsMatch: WireQuery, after: int, failIfExists: Option<WireQuery>)
  datatype WireAppendRequest = WireAppendRequest(events: seq<WireEvent>, condition: Option<WireAppendCondition>)
  datatype WireReadRequest = WireReadRequest(query: WireQuery, after: int, limit: Option<int>, reverse: bool)
  datatype WireSubscribeRequest = WireSubscribeRequest(query: WireQuery, after: int)
  datatype WireHello = WireHello(protocolVersion: int, authToken: Option<bytes>)
  datatype RequestKind =
    | AppendRequest(append: WireAppendRequest)
    | ReadRequest(read: WireReadRequest)
    | SubscribeRequest(subscribe: WireSubscribeRequest)
    | CancelRequest(target: int)
    | StatsRequest
    | HelloRequest(hello: WireHello)
    | NoRequest
  datatype WireRequest = WireRequest(requestId: int, kind: RequestKind)

  datatype WireAppendResponse = WireAppendResponse(first: int, last: int)
  datatype WireSequencedEvent = WireSequencedEvent(position: int, event: Option<WireEvent>)
  datatype WireStatsResponse = WireStatsResponse(
    eventCount: int, segmentCount: int, diskBytes: int, uptimeSeconds: int, activeConnections: int,
    activeSubscriptions: int, version: bytes, connectionsRefused: int, maxConnections: int,
    connectionsReaped: int)
  datatype WireErrorResponse =
    WireErrorResponse(code: int, message: bytes, conflictPosition: Option<int>, retryable: bool)
  datatype WireHelloAck = WireHelloAck(protocolVersion: int, serverVersion: bytes)
  datatype ResponseKind =
    | AppendResponse(append: WireAppendResponse)
    | ReadEvents(events: seq<WireSequencedEvent>)
    | ReadEnd(watermark: int)
    | ErrorResponse(error: WireErrorResponse)
    | CaughtUp(watermark: int)
    | StatsResponse(stats: WireStatsResponse)
    | HelloAck(ack: WireHelloAck)
    | NoResponse
  datatype WireResponse = WireResponse(requestId: int, kind: ResponseKind)

  // ---------------------------------------------------------------------------
  // What the Writer's field methods append, as fields
  // ---------------------------------------------------------------------------

  /** `uint64`, `uint32` and `enum`: zero is omitted. */
  function Uint(no: nat, value: int): seq<Field> {
    if value == 0 then [] else [Num(no, Wrap64(value))]
  }

  /** `uint64Present` under a presence test. */
  function OptUint(no: nat, value: Option<int>): seq<Field> {
    if value == None then [] else [Num(no, Wrap64(value.value))]
  }

  function Flag(no: nat, value: bool): seq<Field> {
    if value then [Num(no, 1)] else []
  }

  /** `bytes` and `string`: empty is omitted. */
  function Bytes(no: nat, value: bytes): seq<Field> {
    if value == [] then [] else [Data(no, value)]
  }

  /** `repeatedString` in a loop: empties are kept. */
  function Strings(no: nat, values: seq<bytes>): seq<Field> {
    if values == [] then [] else Strings(no, values[..|values| - 1]) + [Data(no, values[|values| - 1])]
  }

  /** The effect of a decode loop that updates its record by `step` on each field it reads. */
  function Fold<R>(step: (R, Field) -> R, init: R, fs: seq<Field>): R {
    if fs == [] then init else step(Fold(step, init, fs[..|fs| - 1]), fs[|fs| - 1])
  }

  lemma FoldNone<R>(step: (R, Field) -> R, init: R)
    ensures Fold(step, init, []) == init
  {
  }

  lemma FoldSnoc<R>(step: (R, Field) -> R, init: R, fs: seq<Field>, f: Field)
    ensures Fold(step, init, fs + [f]) == step(Fold(step, init, fs), f)
  {
    assert (fs + [f])[..|fs|] == fs;
  }

  // ---------------------------------------------------------------------------
  // Event, query, condition
  // ---------------------------------------------------------------------------

  const EVENT := Message([Blob, Blob, Blob])

  function EventFields(e: WireEvent): seq<Field> {
    Bytes(1, e.typ) + Strings(2, e.tags) + Bytes(3, e.payload)
  }

  function EventStep(e: WireEvent, f: Field): WireEvent {
    match f
    case Data(1, d) => e.(typ := d)
    case Data(2, d) => e.(tags := e.tags + [d])
    case Data(3, d) => e.(payload := d)
    case _ => e
  }

  function EventOf(fs: seq<Field>): WireEvent {
    Fold(EventStep, WireEvent([], [], []), fs)
  }

  const QUERY_ITEM := Message([Blob, Blob])

  function QueryItemFields(i: WireQueryItem): seq<Field> {
    Strings(1, i.types) + Strings(2, i.tags)
  }

  function QueryItemStep(i: WireQueryItem, f: Field): WireQueryItem {
    match f
    case Data(1, d) => i.(types := i.types + [d])
    case Data(2, d) => i.(tags := i.tags + [d])
    case _ => i
  }

  function QueryItemOf(fs: seq<Field>): WireQueryItem {
    Fold(QueryItemStep, WireQueryItem([], []), fs)
  }

  const QUERY := Message([Scalar, QUERY_ITEM])
  const EMPTY_QUERY := WireQuery(false, [])

  function ItemsFields(items: seq<WireQueryItem>): seq<Field> {
    if items == [] then []
    else ItemsFields(items[..|items| - 1]) + [Msg(2, QueryItemFields(items[|items| - 1]))]
  }

  function QueryFields(q: WireQuery): seq<Field> {
    Flag(1, q.all) + ItemsFields(q.items)
  }

  function QueryStep(q: WireQuery, f: Field): WireQuery {
    match f
    case Num(1, v) => q.(all := v != 0)
    case Msg(2, fs) => q.(items := q.items + [QueryItemOf(fs)])
    case _ => q
  }

  function QueryOf(fs: seq<Field>): WireQuery {
    Fold(QueryStep, EMPTY_QUERY, fs)
  }

  const CONDITION := Message([QUERY, Scalar, QUERY])

  function ConditionFields(c: WireAppendCondition): seq<Field> {
    [Msg(1, QueryFields(c.failIfEventsMatch))] + Uint(2, c.after)
    + if c.failIfExists == None then [] else [Msg(3, QueryFields(c.failIfExists.value))]
  }

  function ConditionStep(c: WireAppendCondition, f: Field): WireAppendCondition {
    match f
    case Msg(1, fs) => c.(failIfEventsMatch := QueryOf(fs))
    case Num(2, v) => c.(after := v)
    case Msg(3, fs) => c.(failIfExists := Some(QueryOf(fs)))
    case _ => c
  }

  function ConditionOf(fs: seq<Field>): WireAppendCondition {
    Fold(ConditionStep, WireAppendCondition(EMPTY_QUERY, 0, None), fs)
  }

  // ---------------------------------------------------------------------------
  // Requests
  // ---------------------------------------------------------------------------

  const APPEND_REQUEST := Message([EVENT, CONDITION])

  function EventsFields(events: seq<WireEvent>): seq<Field> {
    if events == [] then []
    else EventsFields(events[..|events| - 1]) + [Msg(1, EventFields(events[|events| - 1]))]
  }

  function AppendRequestFields(a: WireAppendRequest): seq<Field> {
    EventsFields(a.events)
    + if a.condition == None then [] else [Msg(2, ConditionFields(a.condition.value))]
  }

  function AppendRequestStep(a: WireAppendRequest, f: Field): WireAppendRequest {
    match f
    case Msg(1, fs) => a.(events := a.events + [EventOf(fs)])
    case Msg(2, fs) => a.(condition := Some(ConditionOf(fs)))
    case _ => a
  }

  function AppendRequestOf(fs: seq<Field>): WireAppendRequest {
    Fold(AppendRequestStep, WireAppendRequest([], None), fs)
  }

  const READ_REQUEST := Message([QUERY, Scalar, Scalar, Scalar])

  function ReadRequestFields(r: WireReadRequest): seq<Field> {
    [Msg(1, QueryFields(r.query))] + Uint(2, r.after) + OptUint(3, r.limit) + Flag(4, r.reverse)
  }

  function ReadRequestStep(r: WireReadRequest, f: Field): WireReadRequest {
    match f
    case Msg(1, fs) => r.(query := QueryOf(fs))
    case Num(2, v) => r.(after := v)
    case Num(3, v) => r.(limit := Some(v))
    case Num(4, v) => r.(reverse := v != 0)
    case _ => r
  }

  function ReadRequestOf(fs: seq<Field>): WireReadRequest {
    Fold(ReadRequestStep, WireReadRequest(EMPTY_QUERY, 0, None, false), fs)
  }

  const SUBSCRIBE_REQUEST := Message([QUERY, Scalar])

  function SubscribeRequestFields(r: WireSubscribeRequest): seq<Field> {
    [Msg(1, QueryFields(r.query))] + Uint(2, r.after)
  }

  function SubscribeRequestStep(r: WireSubscribeRequest, f: Field): WireSubscribeRequest {
    match f
    case Msg(1, fs) => r.(query := QueryOf(fs))
    case Num(2, v) => r.(after := v)
    case _ => r
  }

  function SubscribeRequestOf(fs: seq<Field>): WireSubscribeRequest {
    Fold(SubscribeRequestStep, WireSubscribeRequest(EMPTY_QUERY, 0), fs)
  }

  /** A message whose only field is the u64 numbered 1: a cancel, a read end, a caught-up marker. */
  const SINGLE := Message([Scalar])

  function SingleStep(v: int, f: Field): int {
    if f.Num? && f.no == 1 then f.value else v
  }

  function SingleOf(fs: seq<Field>): int {
    Fold(SingleStep, 0, fs)
  }

  const HELLO := Message([Scalar, Blob])

  function HelloFields(h: WireHello): seq<Field> {
    Uint(1, h.protocolVersion) + if h.authToken == None then [] else Bytes(2, h.authToken.value)
  }

  function HelloStep(h: WireHello, f: Field): WireHello {
    match f
    case Num(1, v) => h.(protocolVersion := Varints.ToNumber(v))
    case Data(2, d) => h.(authToken := Some(d))
    case _ => h
  }

  function HelloOf(fs: seq<Field>): WireHello {
    Fold(HelloStep, WireHello(0, None), fs)
  }

  const REQUEST :=
    Message([Scalar, APPEND_REQUEST, READ_REQUEST, SUBSCRIBE_REQUEST, SINGLE, Blob, HELLO])

  function RequestKindFields(k: RequestKind): seq<Field> {
    match k
    case AppendRequest(a) => [Msg(2, AppendRequestFields(a))]
    case ReadRequest(r) => [Msg(3, ReadRequestFields(r))]
    case SubscribeRequest(r) => [Msg(4, SubscribeRequestFields(r))]
    case CancelRequest(target) => [Msg(5, Uint(1, target))]
    case StatsRequest => [Data(6, [])]
    case HelloRequest(h) => [Msg(7, HelloFields(h))]
    case NoRequest => []
  }

  function RequestFields(r: WireRequest): seq<Field> {
    Uint(1, r.requestId) + RequestKindFields(r.kind)
  }

  function RequestStep(r: WireRequest, f: Field): WireRequest {
    match f
    case Num(1, v) => r.(requestId := v)
    case Msg(2, fs) => r.(kind := AppendRequest(AppendRequestOf(fs)))
    case Msg(3, fs) => r.(kind := ReadRequest(ReadRequestOf(fs)))
    case Msg(4, fs) => r.(kind := SubscribeRequest(SubscribeRequestOf(fs)))
    case Msg(5, fs) => r.(kind := CancelRequest(SingleOf(fs)))
    case Data(6, _) => r.(kind := StatsRequest)
    case Msg(7, fs) => r.(kind := HelloRequest(HelloOf(fs)))
    case _ => r
  }

  function RequestOf(fs: seq<Field>): WireRequest {
    Fold(RequestStep, WireRequest(0, NoRequest), fs)
  }

  // ---------------------------------------------------------------------------
  // Responses
  // ---------------------------------------------------------------------------

  const SEQUENCED := Message([Scalar, EVENT])

  function SequencedFields(e: WireSequencedEvent): seq<Field> {
    Uint(1, e.position) + if e.event == None then [] else [Msg(2, EventFields(e.event.value))]
  }

  function SequencedStep(e: WireSequencedEvent, f: Field): WireSequencedEvent {
    match f
    case Num(1, v) => e.(position := v)
    case Msg(2, fs) => e.(event := Some(EventOf(fs)))
    case _ => e
  }

  function SequencedOf(fs: seq<Field>): WireSequencedEvent {
    Fold(SequencedStep, WireSequencedEvent(0, None), fs)
  }

  const APPEND_RESPONSE := Message([Scalar, Scalar])

  function AppendResponseFields(r: WireAppendResponse): seq<Field> {
    Uint(1, r.first) + Uint(2, r.last)
  }

  function AppendResponseStep(r: WireAppendResponse, f: Field): WireAppendResponse {
    match f
    case Num(1, v) => r.(first := v)
    case Num(2, v) => r.(last := v)
    case _ => r
  }

  function AppendResponseOf(fs: seq<Field>): WireAppendResponse {
    Fold(AppendResponseStep, WireAppendResponse(0, 0), fs)
  }

  const READ_EVENTS := Message([SEQUENCED])

  function ReadEventsFields(events: seq<WireSequencedEvent>): seq<Field> {
    if events == [] then []
    else ReadEventsFields(events[..|events| - 1]) + [Msg(1, SequencedFields(events[|events| - 1]))]
  }

  function ReadEventsStep(es: seq<WireSequencedEvent>, f: Field): seq<WireSequencedEvent> {
    if f.Msg? && f.no == 1 then es + [SequencedOf(f.fields)] else es
  }

  function ReadEventsOf(fs: seq<Field>): seq<WireSequencedEvent> {
    Fold(ReadEventsStep, [], fs)
  }

  const STATS_RESPONSE :=
    Message([Scalar, Scalar, Scalar, Scalar, Scalar, Scalar, Blob, Scalar, Scalar, Scalar])

  function StatsResponseFields(s: WireStatsResponse): seq<Field> {
    Uint(1, s.eventCount) + Uint(2, s.segmentCount) + Uint(3, s.diskBytes) + Uint(4, s.uptimeSeconds)
    + Uint(5, s.activeConnections) + Uint(6, s.activeSubscriptions) + Bytes(7, s.version)
    + Uint(8, s.connectionsRefused) + Uint(9, s.maxConnections) + Uint(10, s.connectionsReaped)
  }

  function StatsResponseStep(s: WireStatsResponse, f: Field): WireStatsResponse {
    match f
    case Num(1, v) => s.(eventCount := v)
    case Num(2, v) => s.(segmentCount := v)
    case Num(3, v) => s.(diskBytes := v)
    case Num(4, v) => s.(uptimeSeconds := v)
    case Num(5, v) => s.(activeConnections := v)
    case Num(6, v) => s.(activeSubscriptions := v)
    case Data(7, d) => s.(version := d)
    case Num(8, v) => s.(connectionsRefused := v)
    case Num(9, v) => s.(maxConnections := v)
    case Num(10, v) => s.(connectionsReaped := v)
    case _ => s
  }

  const EMPTY_STATS := WireStatsResponse(0, 0, 0, 0, 0, 0, [], 0, 0, 0)

  function StatsResponseOf(fs: seq<Field>): WireStatsResponse {
    Fold(StatsResponseStep, EMPTY_STATS, fs)
  }

  const ERROR_RESPONSE := Message([Scalar, Blob, Scalar, Scalar])

  function ErrorResponseFields(e: WireErrorResponse): seq<Field> {
    Uint(1, e.code) + Bytes(2, e.message) + OptUint(3, e.conflictPosition) + Flag(4, e.retryable)
  }

  function ErrorResponseStep(e: WireErrorResponse, f: Field): WireErrorResponse {
    match f
    case Num(1, v) => e.(code := Varints.ToNumber(v))
    case Data(2, d) => e.(message := d)
    case Num(3, v) => e.(conflictPosition := Some(v))
    case Num(4, v) => e.(retryable := v != 0)
    case _ => e
  }

  function ErrorResponseOf(fs: seq<Field>): WireErrorResponse {
    Fold(ErrorResponseStep, WireErrorResponse(0, [], None, false), fs)
  }

  const HELLO_ACK := Message([Scalar, Blob])

  function HelloAckFields(a: WireHelloAck): seq<Field> {
    Uint(1, a.protocolVersion) + Bytes(2, a.serverVersion)
  }

  function HelloAckStep(a: WireHelloAck, f: Field): WireHelloAck {
    match f
    case Num(1, v) => a.(protocolVersion := Varints.ToNumber(v))
    case Data(2, d) => a.(serverVersion := d)
    case _ => a
  }

  function HelloAckOf(fs: seq<Field>): WireHelloAck {
    Fold(HelloAckStep, WireHelloAck(0, []), fs)
  }

  const RESPONSE := Message(
    [Scalar, APPEND_RESPONSE, READ_EVENTS, SINGLE, ERROR_RESPONSE, SINGLE, STATS_RESPONSE, HELLO_ACK])

  function ResponseKindFields(k: ResponseKind): seq<Field> {
    match k
    case AppendResponse(r) => [Msg(2, AppendResponseFields(r))]
    case ReadEvents(es) => [Msg(3, ReadEventsFields(es))]
    case ReadEnd(w) => [Msg(4, Uint(1, w))]
    case ErrorResponse(e) => [Msg(5, ErrorResponseFields(e))]
    case CaughtUp(w) => [Msg(6, Uint(1, w))]
    case StatsResponse(s) => [Msg(7, StatsResponseFields(s))]
    case HelloAck(a) => [Msg(8, HelloAckFields(a))]
    case NoResponse => []
  }

  function ResponseFields(r: WireResponse): seq<Field> {
    Uint(1, r.requestId) + ResponseKindFields(r.kind)
  }

  function ResponseStep(r: WireResponse, f: Field): WireResponse {
    match f
    case Num(1, v) => r.(requestId := v)
    case Msg(2, fs) => r.(kind := AppendResponse(AppendResponseOf(fs)))
    case Msg(3, fs) => r.(kind := ReadEvents(ReadEventsOf(fs)))
    case Msg(4, fs) => r.(kind := ReadEnd(SingleOf(fs)))
    case Msg(5, fs) => r.(kind := ErrorResponse(ErrorResponseOf(fs)))
    case Msg(6, fs) => r.(kind := CaughtUp(SingleOf(fs)))
    case Msg(7, fs) => r.(kind := StatsResponse(StatsResponseOf(fs)))
    case Msg(8, fs) => r.(kind := HelloAck(HelloAckOf(fs)))
    case _ => r
  }

  function ResponseOf(fs: seq<Field>): WireResponse {
    Fold(ResponseStep, WireResponse(0, NoResponse), fs)
  }

  // ---------------------------------------------------------------------------
  // Encoding and decoding a whole body
  // ---------------------------------------------------------------------------

  function EncodedRequest(r: WireRequest): bytes {
    Ser(RequestFields(r))
  }

  function EncodedResponse(r: WireResponse): bytes {
    Ser(ResponseFields(r))
  }

  function DecodedRequest(b: bytes): Result<WireRequest, Varints.DecodeError> {
    match Parse(REQUEST, [], b)
    case Err(e) => Err(e)
    case Ok(fs) => Ok(RequestOf(fs))
  }

  function DecodedResponse(b: bytes): Result<WireResponse, Varints.DecodeError> {
    match Parse(RESPONSE, [], b)
    case Err(e) => Err(e)
    case Ok(fs) => Ok(ResponseOf(fs))
  }
}
