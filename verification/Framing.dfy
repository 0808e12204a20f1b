/** Length-prefixed framing: a 4-byte big-endian length, then the body. */
module Framing {
  import opened Base

  datatype FrameError = FrameTooLarge(length: nat, max: nat)

  function ByteAt(v: nat, unit: nat): byte
    requires unit > 0
  {
    v / unit % 0x100
  }

  /** The header holds the low 32 bits of the length. */
  function Header(len: nat): bytes {
    var v := len % TWO32;
    [ByteAt(v, 0x100_0000), ByteAt(v, 0x1_0000), ByteAt(v, 0x100), ByteAt(v, 1)]
  }

  function Frame(body: bytes): bytes {
    Header(|body|) + body
  }

  function HeaderValue(b: bytes): nat
    requires |b| >= 4
  {
    var b0: int, b1: int, b2: int, b3: int := b[0], b[1], b[2], b[3];
    b0 * 0x100_0000 + (b1 * 0x1_0000 + b2 * 0x100 + b3)
  }

  lemma BigEndian(v: nat)
    requires v < TWO32
    ensures ByteAt(v, 0x100_0000) * 0x100_0000
        + (ByteAt(v, 0x1_0000) * 0x1_0000 + ByteAt(v, 0x100) * 0x100 + ByteAt(v, 1)) == v
  {
    var q1, q2, q3 := v / 0x100, v / 0x1_0000, v / 0x100_0000;
    assert v == 0x100 * q1 + v % 0x100;
    assert q1 == 0x100 * q2 + q1 % 0x100;
    assert q2 == 0x100 * q3 + q2 % 0x100;
    assert q3 % 0x100 == q3;
  }

  lemma HeaderRoundTrip(len: nat, rest: bytes)
    ensures HeaderValue(Header(len) + rest) == len % TWO32
  {
    var v := len % TWO32;
    var h := Header(len) + rest;
    BigEndian(v);
    hide ByteAt;
    assert h[0] == ByteAt(v, 0x100_0000) && h[1] == ByteAt(v, 0x1_0000) && h[2] == ByteAt(v, 0x100)
        && h[3] == ByteAt(v, 1);
  }

  // ---------------------------------------------------------------------------
  // One-shot parsing of a byte stream
  // ---------------------------------------------------------------------------

  /** The complete frames at the front of a stream, what follows them, and the length that stopped it, if too large. */
  datatype Parsed = Parsed(frames: seq<bytes>, rest: bytes, oversized: Option<nat>)

  function Parse(max: nat, b: bytes): Parsed
    decreases |b|
  {
    if |b| < 4 then Parsed([], b, None)
    else
      var len := HeaderValue(b);
      if len > max then Parsed([], b, Some(len))
      else if |b| - 4 < len then Parsed([], b, None)
      else
        var tail := Parse(max, b[4 + len..]);
        Parsed([b[4..4 + len]] + tail.frames, tail.rest, tail.oversized)
  }

  /** `p` is what parsing one stream gives, `q` what parsing it with `b` appended gives. */
  ghost predicate Resumes(max: nat, p: Parsed, b: bytes, q: Parsed) {
    if p.oversized.Some? then q == p.(rest := p.rest + b)
    else
      var r := Parse(max, p.rest + b);
      q == Parsed(p.frames + r.frames, r.rest, r.oversized)
  }

  /** One frame at the front of a stream, or why there is none. */
  lemma ParseFront(max: nat, b: bytes)
    ensures |b| < 4 || (HeaderValue(b) <= max && |b| - 4 < HeaderValue(b)) ==> Parse(max, b) == Parsed([], b, None)
    ensures |b| >= 4 && HeaderValue(b) > max ==> Parse(max, b) == Parsed([], b, Some(HeaderValue(b)))
    ensures |b| >= 4 && HeaderValue(b) <= max && |b| - 4 >= HeaderValue(b) ==>
              var tail := Parse(max, b[4 + HeaderValue(b)..]);
              Parse(max, b) == Parsed([b[4..4 + HeaderValue(b)]] + tail.frames, tail.rest, tail.oversized)
  {
    hide HeaderValue;
  }

  /** Parsing a longer stream resumes where parsing a prefix of it stopped. */
  lemma {:induction false} ParseResumes(max: nat, a: bytes, b: bytes)
    ensures Resumes(max, Parse(max, a), b, Parse(max, a + b))
    decreases |a|
  {
    hide HeaderValue, Parse;
    ParseFront(max, a);
    ParseFront(max, a + b);
    assert [] + Parse(max, a + b).frames == Parse(max, a + b).frames;
    if |a| >= 4 {
      var len := HeaderValue(a);
      SameHeader(a, a + b);
      if len <= max && |a| - 4 >= len {
        var f, a' := a[4..4 + len], a[4 + len..];
        assert (a + b)[4..4 + len] == f && (a + b)[4 + len..] == a' + b;
        ParseResumes(max, a', b);
        var p := Parse(max, a');
        if p.oversized.None? {
          var r := Parse(max, p.rest + b);
          assert [f] + (p.frames + r.frames) == [f] + p.frames + r.frames;
        }
      }
    }
  }

  lemma SameHeader(a: bytes, b: bytes)
    requires 4 <= |a| <= |b| && a[..4] == b[..4]
    ensures HeaderValue(a) == HeaderValue(b)
  {
    assert a[0] == a[..4][0] && a[1] == a[..4][1] && a[2] == a[..4][2] && a[3] == a[..4][3];
  }

  /** What a decoder that has not failed retains is less than one maximal frame. */
  lemma {:induction false} RestIsPartial(max: nat, b: bytes)
    ensures var p := Parse(max, b);
            p.oversized.None? ==> |p.rest| < 4 + max && Parse(max, p.rest) == Parsed([], p.rest, None)
    decreases |b|
  {
    if |b| >= 4 && HeaderValue(b) <= max && |b| - 4 >= HeaderValue(b) {
      RestIsPartial(max, b[4 + HeaderValue(b)..]);
    }
  }

  /** A framed body is recovered, whatever follows, exactly when its length fits the 32-bit header. */
  lemma FrameRoundTrip(max: nat, body: bytes, rest: bytes)
    requires |body| <= max && |body| < TWO32
    ensures var tail := Parse(max, rest);
            Parse(max, Frame(body) + rest) == Parsed([body] + tail.frames, tail.rest, tail.oversized)
  {
    var h, b := Header(|body|), Frame(body) + rest;
    assert |h| == 4;
    HeaderRoundTrip(|body|, body + rest);
    hide ByteAt, HeaderValue, Header;
    assert b == h + (body + rest);
    assert |b| == 4 + |body| + |rest| && HeaderValue(b) == |body|;
    assert b[4..4 + |body|] == body && b[4 + |body|..] == rest;
  }

  lemma FirstFrameLength(max: nat, b: bytes)
    requires |b| >= 4
    ensures Parse(max, b).frames != [] ==> |Parse(max, b).frames[0]| == HeaderValue(b)
  {
  }

  lemma FrameRecoveredExactly(max: nat, body: bytes)
    requires |body| <= max
    ensures Parse(max, Frame(body)) == Parsed([body], [], None) <==> |body| < TWO32
  {
    assert Frame(body) + [] == Frame(body);
    if |body| < TWO32 {
      FrameRoundTrip(max, body, []);
    } else {
      HeaderRoundTrip(|body|, body);
      FirstFrameLength(max, Frame(body));
    }
  }

  function Framed(bodies: seq<bytes>): bytes {
    if bodies == [] then [] else Frame(bodies[0]) + Framed(bodies[1..])
  }

  lemma {:induction false} FramedConcat(a: seq<bytes>, b: seq<bytes>)
    ensures Framed(a + b) == Framed(a) + Framed(b)
  {
    if a == [] {
      assert a + b == b;
    } else {
      FramedConcat(a[1..], b);
      assert (a + b)[1..] == a[1..] + b && (a + b)[0] == a[0];
      assert Frame(a[0]) + (Framed(a[1..]) + Framed(b)) == Frame(a[0]) + Framed(a[1..]) + Framed(b);
    }
  }

  /** A frame at the front is the first one parsed exactly when its body fits the 32-bit header. */
  lemma FrontFrame(max: nat, body: bytes, rest: bytes, bodies: seq<bytes>)
    requires |body| <= max
    ensures Parse(max, Frame(body) + rest) == Parsed([body] + bodies, [], None)
            <==> |body| < TWO32 && Parse(max, rest) == Parsed(bodies, [], None)
  {
    if |body| < TWO32 {
      FrameRoundTrip(max, body, rest);
      var tail := Parse(max, rest);
      assert ([body] + tail.frames)[1..] == tail.frames && ([body] + bodies)[1..] == bodies;
    } else {
      HeaderRoundTrip(|body|, body + rest);
      assert Frame(body) + rest == Header(|body|) + (body + rest);
      FirstFrameLength(max, Frame(body) + rest);
      assert ([body] + bodies)[0] == body;
    }
  }

  /** Framed bodies parse back to themselves, with nothing left, exactly when each fits the 32-bit header. */
  lemma {:induction false} ParseFramed(max: nat, bodies: seq<bytes>)
    requires forall body <- bodies :: |body| <= max
    ensures Parse(max, Framed(bodies)) == Parsed(bodies, [], None) <==> forall body <- bodies :: |body| < TWO32
  {
    hide Parse, Frame;
    if bodies == [] {
      NothingBuffered(max);
    } else {
      assert bodies == [bodies[0]] + bodies[1..];
      ParseFramed(max, bodies[1..]);
      FrontFrame(max, bodies[0], Framed(bodies[1..]), bodies[1..]);
    }
  }

  lemma NothingBuffered(max: nat)
    ensures Parse(max, []) == Parsed([], [], None)
  {
  }

  // ---------------------------------------------------------------------------
  // Incremental decoding
  // ---------------------------------------------------------------------------

  /** What one `push` returns and retains. A throwing push retains everything. */
  function PushResult(max: nat, buffer: bytes, chunk: bytes): (Result<seq<bytes>, FrameError>, bytes) {
    var p := Parse(max, buffer + chunk);
    if p.oversized.Some? then (Err(FrameTooLarge(p.oversized.value, max)), buffer + chunk)
    else (Ok(p.frames), p.rest)
  }

  /** The results of successive pushes, and the final buffer. */
  function Pushes(max: nat, buffer: bytes, chunks: seq<bytes>): (seq<Result<seq<bytes>, FrameError>>, bytes)
    decreases |chunks|
  {
    if chunks == [] then ([], buffer)
    else
      var first := PushResult(max, buffer, chunks[0]);
      var tail := Pushes(max, first.1, chunks[1..]);
      ([first.0] + tail.0, tail.1)
  }

  /** All frames returned by the pushes that did not throw, in order. */
  function Delivered(results: seq<Result<seq<bytes>, FrameError>>): seq<bytes> {
    if results == [] then []
    else (if results[0].Ok? then results[0].value else []) + Delivered(results[1..])
  }

  /** The stream after chunk `k`, when `buffer` was retained from before. */
  ghost function StreamUpTo(buffer: bytes, chunks: seq<bytes>, k: nat): bytes
    requires k < |chunks|
  {
    buffer + Flatten(chunks[..k + 1])
  }

  lemma StreamShift(buffer: bytes, chunks: seq<bytes>, k: nat)
    requires k < |chunks|
    ensures StreamUpTo(buffer, chunks, k) == buffer + chunks[0] + Flatten(chunks[1..][..k])
  {
    assert chunks[..k + 1][1..] == chunks[1..][..k] && chunks[..k + 1][0] == chunks[0];
    assert buffer + (chunks[0] + Flatten(chunks[1..][..k])) == buffer + chunks[0] + Flatten(chunks[1..][..k]);
  }

  /** Push `k` succeeds exactly when the stream so far holds no oversized header. */
  lemma {:induction false} PushOutcome(max: nat, buffer: bytes, chunks: seq<bytes>, k: nat)
    requires Parse(max, buffer) == Parsed([], buffer, None) && k < |chunks|
    ensures |Pushes(max, buffer, chunks).0| == |chunks|
    ensures Pushes(max, buffer, chunks).0[k].Ok? <==> Parse(max, StreamUpTo(buffer, chunks, k)).oversized.None?
    decreases |chunks|
  {
    hide Parse, Flatten;
    var stream := buffer + chunks[0];
    var p, first := Parse(max, stream), PushResult(max, buffer, chunks[0]);
    StreamShift(buffer, chunks, k);
    ParseResumes(max, stream, Flatten(chunks[1..][..k]));
    if p.oversized.Some? {
      StickyPushes(max, stream, chunks[1..]);
    } else {
      RestIsPartial(max, stream);
      if k == 0 {
        assert Flatten(chunks[1..][..0]) == [] by { FlattenNone(chunks[1..][..0]); }
        assert stream + [] == stream;
        PushesLength(max, first.1, chunks[1..]);
      } else {
        PushOutcome(max, p.rest, chunks[1..], k - 1);
      }
    }
  }

  lemma FlattenNone(chunks: seq<bytes>)
    requires chunks == []
    ensures Flatten(chunks) == []
  {
  }

  lemma {:induction false} PushesLength(max: nat, buffer: bytes, chunks: seq<bytes>)
    ensures |Pushes(max, buffer, chunks).0| == |chunks|
    decreases |chunks|
  {
    if chunks != [] {
      PushesLength(max, PushResult(max, buffer, chunks[0]).1, chunks[1..]);
    }
  }

  /** With no oversized header, the frames returned are those of a one-shot parse. */
  lemma {:induction false} PushFrames(max: nat, buffer: bytes, chunks: seq<bytes>)
    requires Parse(max, buffer) == Parsed([], buffer, None)
    ensures var whole := Parse(max, buffer + Flatten(chunks));
            whole.oversized.None? ==>
              Delivered(Pushes(max, buffer, chunks).0) == whole.frames && Pushes(max, buffer, chunks).1 == whole.rest
    decreases |chunks|
  {
    if chunks == [] {
      assert buffer + [] == buffer;
    } else {
      hide Parse;
      var stream, rest := buffer + chunks[0], Flatten(chunks[1..]);
      var p := Parse(max, stream);
      assert buffer + (chunks[0] + rest) == stream + rest;
      ParseResumes(max, stream, rest);
      if p.oversized.None? {
        RestIsPartial(max, stream);
        PushFrames(max, p.rest, chunks[1..]);
      }
    }
  }

  /** Once a push has thrown, every later push throws too, and nothing received is ever given up again. */
  lemma {:induction false} StickyPushes(max: nat, buffer: bytes, chunks: seq<bytes>)
    requires Parse(max, buffer).oversized.Some?
    ensures var (results, final) := Pushes(max, buffer, chunks);
            && |results| == |chunks| && (forall k :: 0 <= k < |results| ==> results[k].Err?)
            && final == buffer + Flatten(chunks)
    decreases |chunks|
  {
    hide Parse;
    if chunks == [] {
      assert buffer + [] == buffer;
    } else {
      ParseResumes(max, buffer, chunks[0]);
      StickyPushes(max, buffer + chunks[0], chunks[1..]);
      assert buffer + (chunks[0] + Flatten(chunks[1..])) == buffer + chunks[0] + Flatten(chunks[1..]);
    }
  }

  lemma {:induction false} PushesConcat(max: nat, buffer: bytes, a: seq<bytes>, b: seq<bytes>)
    ensures Pushes(max, buffer, a + b).1 == Pushes(max, Pushes(max, buffer, a).1, b).1
    decreases |a|
  {
    if a == [] {
      assert a + b == b;
    } else {
      assert (a + b)[0] == a[0] && (a + b)[1..] == a[1..] + b;
      PushesConcat(max, PushResult(max, buffer, a[0]).1, a[1..], b);
    }
  }

  /** No chunk so far has completed an oversized header. */
  ghost predicate Sane(max: nat, chunks: seq<bytes>) {
    Parse(max, Flatten(chunks)).oversized.None?
  }

  /** What the decoder holds after these chunks. */
  ghost function Retained(max: nat, chunks: seq<bytes>): bytes {
    Pushes(max, [], chunks).1
  }

  /**
   * The decoder holds the unparsed remainder of the whole stream, and after an oversized header still
   * parses as one.
   */
  lemma {:induction false} RetainedParses(max: nat, buffer: bytes, chunks: seq<bytes>)
    ensures var whole, final := Parse(max, buffer + Flatten(chunks)), Pushes(max, buffer, chunks).1;
            Parse(max, final).oversized == whole.oversized
    decreases |chunks|
  {
    hide Parse;
    if chunks == [] {
      assert buffer + [] == buffer;
    } else {
      var stream, rest := buffer + chunks[0], Flatten(chunks[1..]);
      assert buffer + (chunks[0] + rest) == stream + rest;
      ParseResumes(max, stream, rest);
      RetainedParses(max, PushResult(max, buffer, chunks[0]).1, chunks[1..]);
    }
  }

  /** Before an oversized header less than one maximal frame is held; after one, everything that arrives is. */
  lemma RetainedBound(max: nat, chunks: seq<bytes>, more: seq<bytes>)
    ensures Sane(max, chunks) ==> |Retained(max, chunks)| < 4 + max
    ensures !Sane(max, chunks) ==> Retained(max, chunks + more) == Retained(max, chunks) + Flatten(more)
  {
    hide Parse, Pushes, Flatten;
    assert [] + Flatten(chunks) == Flatten(chunks);
    if Sane(max, chunks) {
      PushFrames(max, [], chunks) by { NothingBuffered(max); }
      RestIsPartial(max, Flatten(chunks));
    } else {
      RetainedParses(max, [], chunks);
      StickyPushes(max, Retained(max, chunks), more);
      PushesConcat(max, [], chunks, more);
    }
  }

  /** No stream makes the decoder hold more than `n` bytes. */
  ghost predicate Bounded(max: nat, n: nat) {
    forall chunks: seq<bytes> :: |Retained(max, chunks)| <= n
  }

  const WIDEST: bytes := [0xff, 0xff, 0xff, 0xff]

  lemma WidestHeader(max: nat)
    ensures Sane(max, [WIDEST]) <==> max >= TWO32 - 1
  {
    assert HeaderValue(WIDEST) == TWO32 - 1;
    assert [WIDEST][1..] == [] && WIDEST + Flatten<byte>([]) == WIDEST;
  }

  lemma {:induction false} NoHeaderTooWide(max: nat, b: bytes)
    requires max >= TWO32 - 1
    ensures Parse(max, b).oversized.None?
    decreases |b|
  {
    if |b| >= 4 && |b| - 4 >= HeaderValue(b) {
      NoHeaderTooWide(max, b[4 + HeaderValue(b)..]);
    }
  }

  /** Once an oversized header has arrived there is no bound on what the decoder holds. */
  lemma FloodIsRetained(max: nat, chunks: seq<bytes>, n: nat) returns (more: seq<bytes>)
    requires !Sane(max, chunks)
    ensures |Retained(max, chunks + more)| > n
  {
    hide Sane, Retained;
    more := [seq(n + 1, _ => 0)];
    RetainedBound(max, chunks, more);
    assert Flatten(more) == more[0] + Flatten(more[1..]);
  }

  /**
   * When memory is bounded: some bound holds for every stream if and only if no header can announce more
   * than the limit; and a stream without an oversized header always keeps within one frame.
   */
  lemma MemoryIsBoundedExactly(max: nat)
    ensures (exists n :: Bounded(max, n)) <==> max >= TWO32 - 1
    ensures forall chunks: seq<bytes> :: Sane(max, chunks) ==> |Retained(max, chunks)| < 4 + max
  {
    hide Retained;
    forall chunks: seq<bytes> | Sane(max, chunks)
      ensures |Retained(max, chunks)| < 4 + max
    {
      RetainedBound(max, chunks, []);
    }
    if max >= TWO32 - 1 {
      forall chunks: seq<bytes>
        ensures |Retained(max, chunks)| <= 4 + max
      {
        NoHeaderTooWide(max, Flatten(chunks));
      }
      assert Bounded(max, 4 + max);
    } else {
      WidestHeader(max);
      forall n: nat
        ensures !Bounded(max, n)
      {
        var more := FloodIsRetained(max, [WIDEST], n);
      }
    }
  }

  // ---------------------------------------------------------------------------
  // What a partial frame means
  // ---------------------------------------------------------------------------

  lemma Digits(b0: byte, b1: byte, b2: byte, b3: byte)
    ensures var v := b0 * 0x100_0000 + (b1 * 0x1_0000 + b2 * 0x100 + b3);
            v < TWO32 && ByteAt(v, 0x100_0000) == b0 && ByteAt(v, 0x1_0000) == b1
            && ByteAt(v, 0x100) == b2 && ByteAt(v, 1) == b3
  {
    var q3: int, q2: int, q1: int := b0, b0 * 0x100 + b1, b0 * 0x1_0000 + b1 * 0x100 + b2;
    var v := 0x100 * q1 + b3;
    assert v / 0x100 == q1 && v / 0x1_0000 == q2 && v / 0x100_0000 == q3;
    assert q1 % 0x100 == b2 && q2 % 0x100 == b1 && v % 0x100 == b3;
  }

  lemma HeaderOfValue(b: bytes)
    requires |b| >= 4
    ensures Header(HeaderValue(b)) == b[..4] && HeaderValue(b) < TWO32
  {
    hide ByteAt;
    Digits(b[0], b[1], b[2], b[3]);
    assert HeaderValue(b) % TWO32 == HeaderValue(b);
    assert b[..4] == [b[0], b[1], b[2], b[3]];
  }

  /** Bodies that frames can carry within the limit. */
  predicate Carried(max: nat, bodies: seq<bytes>) {
    forall body <- bodies :: |body| <= max && |body| < TWO32
  }

  lemma FrameFront(max: nat, frame: bytes, frames: seq<bytes>)
    requires Carried(max, [frame]) && Carried(max, frames)
    ensures Framed([frame] + frames) == Frame(frame) + Framed(frames) && Carried(max, [frame] + frames)
  {
    hide Frame;
    assert ([frame] + frames)[1..] == frames;
    assert frame in [frame];
  }

  /** Parsing loses nothing: the frames found, framed again, and the rest are the stream. */
  lemma {:induction false} ParseCovers(max: nat, b: bytes)
    ensures var p := Parse(max, b); Framed(p.frames) + p.rest == b && Carried(max, p.frames)
    decreases |b|
  {
    hide HeaderValue, Header, Parse, Framed, Carried;
    ParseFront(max, b);
    FramedNone(max);
    if |b| >= 4 && HeaderValue(b) <= max && |b| - 4 >= HeaderValue(b) {
      var n := 4 + HeaderValue(b);
      var frame, tail := b[4..n], Parse(max, b[n..]);
      ParseCovers(max, b[n..]);
      HeaderOfValue(b);
      assert Frame(frame) == b[..n];
      assert Carried(max, [frame]) by { OneCarried(max, frame); }
      FrameFront(max, frame, tail.frames);
      assert b[..n] + Framed(tail.frames) + tail.rest == b[..n] + (Framed(tail.frames) + tail.rest);
    } else {
      assert [] + b == b;
    }
  }

  lemma OneCarried(max: nat, body: bytes)
    requires |body| <= max && |body| < TWO32
    ensures Carried(max, [body])
  {
  }

  lemma FramedNone(max: nat)
    ensures Framed([]) == [] && Carried(max, [])
  {
  }

  /**
   * Nothing is buffered if and only if what arrived is whole frames within the limit; so anything
   * buffered when the connection ends is a torn frame, or all there is after an oversized header.
   */
  lemma NothingPartialExactly(max: nat, chunks: seq<bytes>)
    ensures Retained(max, chunks) == [] <==>
              exists bodies :: Carried(max, bodies) && Flatten(chunks) == Framed(bodies)
  {
    hide Parse, Pushes, Flatten, Framed;
    var stream := Flatten(chunks);
    assert [] + stream == stream;
    ChunkingInvariance(max, chunks);
    RetainedParses(max, [], chunks);
    NothingBuffered(max);
    if Retained(max, chunks) == [] {
      ParseCovers(max, stream);
      var bodies := Parse(max, stream).frames;
      assert Framed(bodies) + [] == Framed(bodies);
      assert Carried(max, bodies) && stream == Framed(bodies);
    }
    if bodies :| Carried(max, bodies) && stream == Framed(bodies) {
      ParseFramed(max, bodies);
    }
  }

  /**
   * Chunking invariance. Feeding any byte stream in any chunks: a push throws exactly when the stream
   * so far holds an oversized header, and if it never does, the frames returned across all pushes are
   * those of a one-shot parse, which also gives the bytes still buffered.
   */
  lemma ChunkingInvariance(max: nat, chunks: seq<bytes>)
    ensures var (results, final) := Pushes(max, [], chunks);
            |results| == |chunks|
            && (forall k :: 0 <= k < |chunks| ==>
                  (results[k].Ok? <==> Parse(max, Flatten(chunks[..k + 1])).oversized.None?))
            && var whole := Parse(max, Flatten(chunks));
               whole.oversized.None? ==> Delivered(results) == whole.frames && final == whole.rest
  {
    PushesLength(max, [], chunks);
    forall k | 0 <= k < |chunks|
      ensures Pushes(max, [], chunks).0[k].Ok? <==> Parse(max, Flatten(chunks[..k + 1])).oversized.None?
    {
      PushOutcome(max, [], chunks, k);
      assert [] + Flatten(chunks[..k + 1]) == Flatten(chunks[..k + 1]);
    }
    PushFrames(max, [], chunks);
    assert [] + Flatten(chunks) == Flatten(chunks);
  }

  lemma {:induction false} AllPushesSucceed(max: nat, chunks: seq<bytes>)
    ensures (forall r <- Pushes(max, [], chunks).0 :: r.Ok?) <==> Sane(max, chunks)
  {
    hide Parse, Pushes, Flatten;
    ChunkingInvariance(max, chunks);
    var results := Pushes(max, [], chunks).0;
    if Sane(max, chunks) {
      forall k | 0 <= k < |results|
        ensures results[k].Ok?
      {
        FlattenConcat(chunks[..k + 1], chunks[k + 1..]);
        assert chunks[..k + 1] + chunks[k + 1..] == chunks;
        PrefixNotOversized(max, Flatten(chunks[..k + 1]), Flatten(chunks[k + 1..]));
      }
    } else if chunks == [] {
      NothingBuffered(max);
      FlattenNone(chunks);
    } else {
      assert chunks[..|chunks| - 1 + 1] == chunks;
      assert results[|chunks| - 1] in results;
    }
  }

  /**
   * Any split of framed bodies within the maximum yields exactly those bodies, with no error and
   * nothing torn, if and only if each body fits the 32-bit header.
   */
  lemma AnySplitYieldsTheBodies(max: nat, bodies: seq<bytes>, chunks: seq<bytes>)
    requires forall body <- bodies :: |body| <= max
    requires Flatten(chunks) == Framed(bodies)
    ensures var (results, final) := Pushes(max, [], chunks);
            Delivered(results) == bodies && final == [] && (forall r <- results :: r.Ok?)
            <==> forall body <- bodies :: |body| < TWO32
  {
    hide Parse, Pushes, Flatten, Framed, Delivered;
    ParseFramed(max, bodies);
    ChunkingInvariance(max, chunks);
    AllPushesSucceed(max, chunks);
  }

  lemma PrefixNotOversized(max: nat, a: bytes, b: bytes)
    requires Parse(max, a + b).oversized.None?
    ensures Parse(max, a).oversized.None?
  {
    ParseResumes(max, a, b);
  }

  /**
   * Where detection happens: for a stream of complete frames followed by an oversized header, a prefix
   * is rejected exactly when it reaches the fourth byte of that header.
   */
  lemma OversizeDetectedAtFourthByte(max: nat, bodies: seq<bytes>, tail: bytes, n: nat)
    requires forall body <- bodies :: |body| <= max && |body| < TWO32
    requires |tail| >= 4 && HeaderValue(tail) > max
    requires n <= |Framed(bodies) + tail|
    ensures Parse(max, (Framed(bodies) + tail)[..n]).oversized.Some? <==> n >= |Framed(bodies)| + 4
  {
    hide HeaderValue;
    var good, stream := Framed(bodies), Framed(bodies) + tail;
    ParseFramed(max, bodies);
    if n <= |good| {
      assert stream[..n] + good[n..] == good;
      PrefixNotOversized(max, stream[..n], good[n..]);
    } else {
      var part := tail[..n - |good|];
      assert stream[..n] == good + part;
      ParseResumes(max, good, part);
      assert [] + part == part;
      if |part| >= 4 {
        SameHeader(part, tail);
      }
    }
  }

  // ---------------------------------------------------------------------------
  // The code
  // ---------------------------------------------------------------------------

  /** `(len >>> 24) & 0xff` and so on, then the body, in place. */
  method WriteFrame(body: bytes, maxFrameLen: nat) returns (r: Result<bytes, FrameError>)
    ensures r == if |body| > maxFrameLen then Err(FrameTooLarge(|body|, maxFrameLen)) else Ok(Frame(body))
  {
    if |body| > maxFrameLen {
      return Err(FrameTooLarge(|body|, maxFrameLen));
    }
    var out := new byte[4 + |body|](_ => 0);
    var len := |body| % TWO32;
    out[0] := ByteAt(len, 0x100_0000);
    out[1] := ByteAt(len, 0x1_0000);
    out[2] := ByteAt(len, 0x100);
    out[3] := ByteAt(len, 1);
    assert out[..4] == Header(|body|);
    forall i | 0 <= i < |body| {
      out[4 + i] := body[i];
    }
    assert out[..4] == Header(|body|);
    assert out[..] == out[..4] + out[4..] && out[4..] == body;
    return Ok(out[..]);
  }

  method Concat(a: bytes, b: bytes) returns (r: bytes)
    ensures r == a + b
  {
    if |a| == 0 {
      return b;
    }
    var out := new byte[|a| + |b|](_ => 0);
    forall i | 0 <= i < |a| {
      out[i] := a[i];
    }
    forall i | 0 <= i < |b| {
      out[|a| + i] := b[i];
    }
    assert out[..|a|] == a && out[|a|..] == b;
    r := out[..];
  }

  /** A parse whose first frames have already been taken off. */
  ghost function Prefixed(frames: seq<bytes>, q: Parsed): Parsed {
    Parsed(frames + q.frames, q.rest, q.oversized)
  }

  /** One turn of the decoder's loop. */
  lemma PushTurn(max: nat, frames: seq<bytes>, b: bytes)
    ensures |b| < 4 || (HeaderValue(b) <= max && |b| - 4 < HeaderValue(b)) ==>
              Prefixed(frames, Parse(max, b)) == Parsed(frames, b, None)
    ensures |b| >= 4 && HeaderValue(b) > max ==>
              Prefixed(frames, Parse(max, b)) == Parsed(frames, b, Some(HeaderValue(b)))
    ensures |b| >= 4 && HeaderValue(b) <= max && |b| - 4 >= HeaderValue(b) ==>
              Prefixed(frames, Parse(max, b))
              == Prefixed(frames + [b[4..4 + HeaderValue(b)]], Parse(max, b[4 + HeaderValue(b)..]))
  {
    hide HeaderValue;
    assert frames + [] == frames;
    if |b| >= 4 && HeaderValue(b) <= max && |b| - 4 >= HeaderValue(b) {
      var f, tail := b[4..4 + HeaderValue(b)], Parse(max, b[4 + HeaderValue(b)..]);
      assert frames + ([f] + tail.frames) == frames + [f] + tail.frames;
    }
  }

  /** Buffers socket chunks and yields complete frame bodies. */
  class FrameDecoder {
    const maxFrameLen: nat
    var buffer: bytes

    constructor (maxFrameLen: nat)
      ensures this.maxFrameLen == maxFrameLen && buffer == []
    {
      this.maxFrameLen := maxFrameLen;
      buffer := [];
    }

    /** Every complete frame the stream now yields, or the error of an oversized header. */
    method Push(chunk: bytes) returns (r: Result<seq<bytes>, FrameError>)
      modifies this
      ensures (r, buffer) == PushResult(maxFrameLen, old(buffer), chunk)
    {
      hide Parse, HeaderValue;
      buffer := Concat(buffer, chunk);
      var frames: seq<bytes> := [];
      var offset := 0;
      assert buffer[0..] == buffer;
      while |buffer| - offset >= 4
        invariant 0 <= offset <= |buffer| && buffer == old(buffer) + chunk
        invariant Parse(maxFrameLen, buffer) == Prefixed(frames, Parse(maxFrameLen, buffer[offset..]))
        decreases |buffer| - offset
      {
        ghost var here := buffer[offset..];
        PushTurn(maxFrameLen, frames, here);
        var header := buffer[offset..offset + 4];
        var len := HeaderValue(header);
        SameHeader(header, here);
        if len > maxFrameLen {
          return Err(FrameTooLarge(len, maxFrameLen));
        }
        if |buffer| - offset - 4 < len {
          break;
        }
        assert here[4..4 + len] == buffer[offset + 4..offset + 4 + len];
        assert here[4 + len..] == buffer[offset + 4 + len..];
        frames := frames + [buffer[offset + 4..offset + 4 + len]];
        offset := offset + 4 + len;
      }
      PushTurn(maxFrameLen, frames, buffer[offset..]);
      if |buffer| - offset >= 4 {
        SameHeader(buffer[offset..offset + 4], buffer[offset..]);
      }
      buffer := if offset == 0 then buffer else buffer[offset..];
      return Ok(frames);
    }

    /** Whether what was pushed so far ends in a partial frame. */
    predicate HasPartial(ghost chunks: seq<bytes>)
      requires buffer == Retained(maxFrameLen, chunks)
      reads this
      ensures !HasPartial(chunks) <==>
                exists bodies :: Carried(maxFrameLen, bodies) && Flatten(chunks) == Framed(bodies)
    {
      NothingPartialExactly(maxFrameLen, chunks);
      |buffer| > 0
    }
  }

  /** The concatenation of a batch of frames, copied into one buffer. */
  method ConcatFrames(frames: seq<bytes>) returns (r: bytes)
    ensures r == Flatten(frames)
  {
    if |frames| == 1 {
      assert frames == [frames[0]] && Flatten(frames) == frames[0] + Flatten(frames[1..]);
      return frames[0];
    }
    var total := 0;
    assert frames[..0] == [];
    for i := 0 to |frames|
      invariant total == |Flatten(frames[..i])|
    {
      total := total + |frames[i]|;
      FlattenSnoc(frames[..i], frames[i]);
      assert frames[..i + 1] == frames[..i] + [frames[i]];
    }
    assert frames[..|frames|] == frames;
    var out := new byte[total](_ => 0);
    var offset := 0;
    for i := 0 to |frames|
      invariant offset == |Flatten(frames[..i])| <= total && out[..offset] == Flatten(frames[..i])
    {
      FlattenSnoc(frames[..i], frames[i]);
      FlattenConcat(frames[..i + 1], frames[i + 1..]);
      assert frames[..i + 1] == frames[..i] + [frames[i]];
      assert frames[..i + 1] + frames[i + 1..] == frames;
      forall j | 0 <= j < |frames[i]| {
        out[offset + j] := frames[i][j];
      }
      offset := offset + |frames[i]|;
    }
    r := out[..];
  }
}
