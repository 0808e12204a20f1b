/** Events as callers build them: name validation, the canonical tag set, and the bytes they encode to. */
module Canonical {
  import opened Base
  import Fields
  import Messages
  import RoundTrip
  import WireFormat

  /** A JavaScript string: a sequence of UTF-16 code units, possibly ill-formed. */
  type unit16 = x: int | 0 <= x < 0x1_0000
  type text = seq<unit16>

  const MAX_NAME_LEN := 65535

  // ---------------------------------------------------------------------------
  // UTF-8
  // ---------------------------------------------------------------------------

  predicate High(u: unit16) {
    0xd800 <= u <= 0xdbff
  }

  predicate Low(u: unit16) {
    0xdc00 <= u <= 0xdfff
  }

  predicate StartsWithPair(s: text) {
    |s| >= 2 && High(s[0]) && Low(s[1])
  }

  /** The octets of one scalar value, section 3 of RFC 3629. */
  function ScalarBytes(c: nat): (b: bytes)
    requires c < 0x11_0000
  {
    if c < 0x80 then [c]
    else if c < 0x800 then [0xc0 + c / 0x40, 0x80 + c % 0x40]
    else if c < 0x1_0000 then [0xe0 + c / 0x1000, 0x80 + c / 0x40 % 0x40, 0x80 + c % 0x40]
    else [0xf0 + c / 0x4_0000, 0x80 + c / 0x1000 % 0x40, 0x80 + c / 0x40 % 0x40, 0x80 + c % 0x40]
  }

  function PairScalar(high: unit16, low: unit16): nat
    requires High(high) && Low(low)
  {
    0x1_0000 + (high - 0xd800) * 0x400 + (low - 0xdc00)
  }

  /** What `TextEncoder` produces: a lone surrogate becomes U+FFFD. */
  function Utf8(s: text): bytes {
    if s == [] then []
    else if StartsWithPair(s) then ScalarBytes(PairScalar(s[0], s[1])) + Utf8(s[2..])
    else if High(s[0]) || Low(s[0]) then ScalarBytes(0xfffd) + Utf8(s[1..])
    else ScalarBytes(s[0]) + Utf8(s[1..])
  }

  predicate WellFormed(s: text) {
    s == []
    || (StartsWithPair(s) && WellFormed(s[2..]))
    || (!High(s[0]) && !Low(s[0]) && WellFormed(s[1..]))
  }

  /** The counter's recurrence: a high surrogate counts four and skips the unit after it, whatever it is. */
  function Counted(s: text): nat {
    if s == [] then 0
    else if s[0] < 0x80 then 1 + Counted(s[1..])
    else if s[0] < 0x800 then 2 + Counted(s[1..])
    else if High(s[0]) then 4 + (if |s| == 1 then 0 else Counted(s[2..]))
    else 3 + Counted(s[1..])
  }

  /** On well-formed UTF-16 the counter is the length of the UTF-8 encoding. */
  lemma {:induction false} CountedIsUtf8Length(s: text)
    requires WellFormed(s)
    ensures Counted(s) == |Utf8(s)|
  {
    if s != [] {
      if StartsWithPair(s) {
        CountedIsUtf8Length(s[2..]);
      } else {
        CountedIsUtf8Length(s[1..]);
      }
    }
  }

  lemma {:induction false} TailShorter(s: text)
    requires s != []
    ensures |Utf8(s)| >= |Utf8(s[1..])| + 1
  {
    if StartsWithPair(s) {
      assert s[1..][1..] == s[2..];
    }
  }

  /** On any string at all the counter exceeds the encoded length by at most one. */
  lemma {:induction false} CountedAtMostOneOver(s: text)
    ensures Counted(s) <= |Utf8(s)| + 1
  {
    if s != [] {
      if High(s[0]) && |s| >= 2 {
        CountedAtMostOneOver(s[2..]);
        if !StartsWithPair(s) {
          TailShorter(s[1..]);
          assert s[1..][1..] == s[2..];
        }
      } else if |s| > 1 || !High(s[0]) {
        CountedAtMostOneOver(s[1..]);
      }
    }
  }

  /**
   * By how much the scan misses the encoded length, from the code units alone: only a high surrogate it
   * lands on can cost anything, by what follows it. A pair, or a unit of one byte, costs nothing; a
   * string's end counts one too many; any other unit, skipped unseen, counts one or two too few; and a
   * skipped high surrogate that starts a pair costs nothing over the three units together.
   */
  function Missed(s: text): int {
    if s == [] then 0
    else if !High(s[0]) then Missed(s[1..])
    else if |s| == 1 then -1
    else if Low(s[1]) || s[1] < 0x80 then Missed(s[2..])
    else if s[1] < 0x800 then 1 + Missed(s[2..])
    else if StartsWithPair(s[1..]) then Missed(s[3..])
    else 2 + Missed(s[2..])
  }

  /** The exact difference on every string, so the count is right if and only if nothing is missed. */
  lemma {:induction false} CountedExactly(s: text)
    ensures |Utf8(s)| == Counted(s) + Missed(s)
    ensures Counted(s) == |Utf8(s)| <==> Missed(s) == 0
  {
    if s != [] {
      if !High(s[0]) {
        CountedExactly(s[1..]);
      } else if |s| >= 2 {
        assert s[1..][1..] == s[2..];
        if StartsWithPair(s[1..]) {
          assert s[1..][2..] == s[3..] && s[2..][1..] == s[3..];
          CountedExactly(s[3..]);
        } else {
          CountedExactly(s[2..]);
        }
      }
    }
  }

  /** Ill-formed strings can be miscounted either way, or not at all. */
  lemma LoneSurrogateMiscounted()
    ensures Counted([0xd800]) == 4 && |Utf8([0xd800])| == 3
    ensures Counted([0xd800, 0xe9]) == 4 && |Utf8([0xd800, 0xe9])| == 5
    ensures Missed([0xd800]) == -1 && Missed([0xd800, 0xe9]) == 1 && Missed([0xd800, 0x41]) == 0
        && Missed([0xdc00]) == 0
  {
    var s: text := [0xd800, 0xe9];
    assert s[1..] == [0xe9] && s[2..] == [];
    assert [0xd800][1..] == [];
  }

  // ---------------------------------------------------------------------------
  // Which strings the encoding tells apart
  // ---------------------------------------------------------------------------

  /** The string with each lone surrogate replaced by U+FFFD. */
  function Repaired(s: text): text {
    if s == [] then []
    else if StartsWithPair(s) then s[..2] + Repaired(s[2..])
    else if High(s[0]) || Low(s[0]) then [0xfffd] + Repaired(s[1..])
    else [s[0]] + Repaired(s[1..])
  }

  lemma {:induction false} RepairedExactly(s: text)
    ensures WellFormed(Repaired(s)) && Utf8(Repaired(s)) == Utf8(s)
    ensures WellFormed(s) <==> Repaired(s) == s
  {
    hide ScalarBytes;
    if s != [] {
      var n := if StartsWithPair(s) then 2 else 1;
      RepairedExactly(s[n..]);
      assert Repaired(s)[n..] == Repaired(s[n..]);
    }
  }

  /** The digits in base 64 that the octets of a scalar value carry. */
  lemma Base64Digits(c: nat)
    ensures c == c / 0x40 * 0x40 + c % 0x40
    ensures c == c / 0x1000 * 0x1000 + c / 0x40 % 0x40 * 0x40 + c % 0x40
    ensures c == c / 0x4_0000 * 0x4_0000 + c / 0x1000 % 0x40 * 0x1000 + c / 0x40 % 0x40 * 0x40 + c % 0x40
  {
    var q1, q2 := c / 0x40, c / 0x1000;
    assert q1 / 0x40 == q2 && q2 / 0x40 == c / 0x4_0000;
    assert c == q1 * 0x40 + c % 0x40 && q1 == q2 * 0x40 + q1 % 0x40 && q2 == q2 / 0x40 * 0x40 + q2 % 0x40;
  }

  lemma ScalarBytesInjective(c: nat, d: nat)
    requires c < 0x11_0000 && d < 0x11_0000 && ScalarBytes(c) == ScalarBytes(d)
    ensures c == d
  {
    Base64Digits(c);
    Base64Digits(d);
    var b, e := ScalarBytes(c), ScalarBytes(d);
    assert b[0] == e[0] && b[|b| - 1] == e[|e| - 1] && (|b| >= 3 ==> b[1] == e[1] && b[2] == e[2]);
  }

  /** The first octet says how many there are. */
  lemma ScalarBytesPrefixFree(c: nat, x: bytes, d: nat, y: bytes)
    requires c < 0x11_0000 && d < 0x11_0000 && ScalarBytes(c) + x == ScalarBytes(d) + y
    ensures c == d && x == y
  {
    var b, e := ScalarBytes(c), ScalarBytes(d);
    assert b[0] == (b + x)[0] && e[0] == (e + y)[0];
    assert |b| == |e| by { FirstOctet(c); FirstOctet(d); }
    assert b == (b + x)[..|b|] && e == (e + y)[..|e|] && x == (b + x)[|b|..] && y == (e + y)[|e|..];
    ScalarBytesInjective(c, d);
  }

  lemma FirstOctet(c: nat)
    requires c < 0x11_0000
    ensures var b := ScalarBytes(c);
            |b| == if b[0] < 0x80 then 1 else if b[0] < 0xe0 then 2 else if b[0] < 0xf0 then 3 else 4
  {
  }

  /** How many units the scalar value at the front of a string takes, and which it is. */
  function Width(s: text): nat {
    if StartsWithPair(s) then 2 else 1
  }

  function Front(s: text): nat
    requires s != []
  {
    if StartsWithPair(s) then PairScalar(s[0], s[1]) else s[0]
  }

  lemma FrontDecides(a: text, b: text)
    requires a != [] && WellFormed(a) && b != [] && WellFormed(b) && Front(a) == Front(b)
    ensures Width(a) == Width(b) <= |a| && Width(a) <= |b| && a[..Width(a)] == b[..Width(b)]
  {
  }

  lemma WellFormedFront(s: text)
    requires s != [] && WellFormed(s)
    ensures Width(s) <= |s| && WellFormed(s[Width(s)..]) && Front(s) < 0x11_0000
    ensures Utf8(s) == ScalarBytes(Front(s)) + Utf8(s[Width(s)..]) && Utf8(s) != []
  {
  }

  /** The encoding loses nothing of well-formed text. */
  lemma {:induction false} Utf8Injective(a: text, b: text)
    requires WellFormed(a) && WellFormed(b) && Utf8(a) == Utf8(b)
    ensures a == b
  {
    hide Utf8, WellFormed, Front, Width;
    if a == [] || b == [] {
      assert Utf8([]) == [] by { Utf8None(); }
      if a != [] { WellFormedFront(a); }
      if b != [] { WellFormedFront(b); }
    } else {
      WellFormedFront(a);
      WellFormedFront(b);
      ScalarBytesPrefixFree(Front(a), Utf8(a[Width(a)..]), Front(b), Utf8(b[Width(b)..]));
      FrontDecides(a, b);
      WidthPositive(a);
      Utf8Injective(a[Width(a)..], b[Width(b)..]);
      assert a == a[..Width(a)] + a[Width(a)..] && b == b[..Width(b)] + b[Width(b)..];
    }
  }

  lemma Utf8None()
    ensures Utf8([]) == []
  {
  }

  lemma WidthPositive(s: text)
    ensures Width(s) > 0
  {
  }

  /** So two strings have the same encoding if and only if they differ in lone surrogates alone. */
  lemma Utf8AlikeExactly(a: text, b: text)
    ensures Utf8(a) == Utf8(b) <==> Repaired(a) == Repaired(b)
    ensures WellFormed(a) && WellFormed(b) ==> (Utf8(a) == Utf8(b) <==> a == b)
  {
    hide Utf8, WellFormed, Repaired;
    RepairedExactly(a);
    RepairedExactly(b);
    if Utf8(a) == Utf8(b) {
      Utf8Injective(Repaired(a), Repaired(b));
    }
  }

  method Utf8ByteLength(value: text) returns (count: nat)
    ensures count == Counted(value)
  {
    count := 0;
    var i := 0;
    assert value[0..] == value;
    while i < |value|
      invariant 0 <= i <= |value| + 1
      invariant count + (if i < |value| then Counted(value[i..]) else 0) == Counted(value)
    {
      ghost var here := value[i..];
      var code := value[i];
      assert here[0] == code && here[1..] == value[i + 1..];
      if code < 0x80 {
        count := count + 1;
      } else if code < 0x800 {
        count := count + 2;
      } else if code >= 0xd800 && code <= 0xdbff {
        count := count + 4;
        i := i + 1;
        assert i < |value| ==> here[2..] == value[i + 1..];
      } else {
        count := count + 3;
      }
      i := i + 1;
    }
  }

  // ---------------------------------------------------------------------------
  // Names and tag sets
  // ---------------------------------------------------------------------------

  datatype ValidationError = EmptyName | NameTooLong(len: nat) | DuplicateTag(tag: text)

  predicate ValidName(s: text) {
    s != [] && Counted(s) <= MAX_NAME_LEN
  }

  method ValidateName(value: text) returns (r: Result<(), ValidationError>)
    ensures r.Ok? <==> ValidName(value)
    ensures r.Err? ==> r.error == if value == [] then EmptyName else NameTooLong(Counted(value))
  {
    if |value| == 0 {
      return Err(EmptyName);
    }
    var len := Utf8ByteLength(value);
    if len > MAX_NAME_LEN {
      return Err(NameTooLong(len));
    }
    return Ok(());
  }

  /** The order of `Array.prototype.sort` on strings: by code units, a proper prefix first. */
  predicate Less(a: text, b: text) {
    b != [] && (a == [] || a[0] < b[0] || (a[0] == b[0] && Less(a[1..], b[1..])))
  }

  lemma {:induction false} LessTotal(a: text, b: text)
    ensures Less(a, b) || Less(b, a) || a == b
    ensures !(Less(a, b) && Less(b, a)) && !(a == b && Less(a, b))
  {
    if a != [] && b != [] {
      LessTotal(a[1..], b[1..]);
      if a[0] == b[0] && a[1..] == b[1..] {
        assert a == [a[0]] + a[1..] && b == [b[0]] + b[1..];
      }
    }
  }

  lemma {:induction false} LessTransitive(a: text, b: text, c: text)
    requires Less(a, b) && Less(b, c)
    ensures Less(a, c)
  {
    if a != [] && a[0] == b[0] && b[0] == c[0] {
      LessTransitive(a[1..], b[1..], c[1..]);
    }
  }

  /** `sort()` on strings, as any correct sort computes it. */
  function Sort(s: seq<text>): seq<text> {
    if s == [] then [] else Insert(s[0], Sort(s[1..]))
  }

  function Insert(x: text, s: seq<text>): seq<text> {
    if s == [] || Less(x, s[0]) then [x] + s else [s[0]] + Insert(x, s[1..])
  }

  ghost predicate NonDecreasing(s: seq<text>) {
    forall i :: 0 < i < |s| ==> !Less(s[i], s[i - 1])
  }

  ghost predicate Increasing(s: seq<text>) {
    forall i :: 0 < i < |s| ==> Less(s[i - 1], s[i])
  }

  lemma {:induction false} InsertSorted(x: text, s: seq<text>)
    requires NonDecreasing(s)
    ensures NonDecreasing(Insert(x, s)) && multiset(Insert(x, s)) == multiset(s) + multiset{x}
    ensures Insert(x, s) != [] && (Insert(x, s)[0] == x || (s != [] && Insert(x, s)[0] == s[0]))
  {
    if s == [] {
    } else if Less(x, s[0]) {
      LessTotal(x, s[0]);
    } else {
      var t := Insert(x, s[1..]);
      assert forall i :: 0 < i < |s| - 1 ==> s[1..][i] == s[i + 1] && s[1..][i - 1] == s[i];
      InsertSorted(x, s[1..]);
      assert s == [s[0]] + s[1..];
      assert !Less(t[0], s[0]);
      forall i | 0 < i < |t| + 1
        ensures !Less(([s[0]] + t)[i], ([s[0]] + t)[i - 1])
      {
        if i > 1 {
          assert !Less(t[i - 1], t[i - 2]);
        }
      }
    }
  }

  lemma {:induction false} SortSorts(s: seq<text>)
    ensures NonDecreasing(Sort(s)) && multiset(Sort(s)) == multiset(s)
  {
    if s != [] {
      SortSorts(s[1..]);
      InsertSorted(s[0], Sort(s[1..]));
      assert s == [s[0]] + s[1..];
    }
  }

  ghost predicate Distinct(s: seq<text>) {
    forall i, j :: 0 <= i < j < |s| ==> s[i] != s[j]
  }

  lemma {:induction false} IncreasingPairs(s: seq<text>, i: nat, j: nat)
    requires Increasing(s) && i < j < |s|
    ensures Less(s[i], s[j]) && s[i] != s[j]
    decreases j
  {
    if i < j - 1 {
      IncreasingPairs(s, i, j - 1);
      LessTransitive(s[i], s[j - 1], s[j]);
    }
    LessTotal(s[i], s[j]);
  }

  lemma {:induction false} DistinctMultiset(s: seq<text>, t: seq<text>)
    requires Distinct(s) && multiset(s) == multiset(t)
    ensures Distinct(t)
  {
    forall i, j | 0 <= i < j < |t|
      ensures t[i] != t[j]
    {
      if t[i] == t[j] {
        TwiceInMultiset(t, i, j);
        OnceInMultiset(s, t[i]);
        assert false;
      }
    }
  }

  lemma TwiceInMultiset(t: seq<text>, i: nat, j: nat)
    requires i < j < |t| && t[i] == t[j]
    ensures multiset(t)[t[i]] >= 2
  {
    assert t == t[..i] + [t[i]] + t[i + 1..j] + [t[j]] + t[j + 1..];
  }

  lemma {:induction false} OnceInMultiset(s: seq<text>, x: text)
    requires Distinct(s)
    ensures multiset(s)[x] <= 1
  {
    if s != [] {
      assert s == [s[0]] + s[1..];
      assert Distinct(s[1..]);
      OnceInMultiset(s[1..], x);
      assert s[0] !in s[1..];
      assert s[0] !in multiset(s[1..]);
    }
  }

  /** Sorting yields a strictly increasing list exactly when the elements are pairwise distinct. */
  lemma SortIncreasing(s: seq<text>)
    ensures Increasing(Sort(s)) <==> Distinct(s)
  {
    var t := Sort(s);
    SortSorts(s);
    if Distinct(s) {
      DistinctMultiset(s, t);
      forall i | 0 < i < |t| ensures Less(t[i - 1], t[i]) {
        LessTotal(t[i - 1], t[i]);
      }
    }
    if Increasing(t) {
      forall i, j | 0 <= i < j < |t| ensures t[i] != t[j] {
        IncreasingPairs(t, i, j);
      }
      DistinctMultiset(t, s);
    }
  }

  /** A strictly increasing list is determined by its set of elements. */
  lemma {:induction false} IncreasingUnique(s: seq<text>, t: seq<text>)
    requires Increasing(s) && Increasing(t)
    requires forall x :: x in s <==> x in t
    ensures s == t
  {
    assert t != [] ==> t[0] in t;
    if s != [] {
      assert s[0] in t && t != [];
      assert t[0] in s;
      if s[0] != t[0] {
        var i :| 0 <= i < |t| && t[i] == s[0];
        var j :| 0 <= j < |s| && s[j] == t[0];
        IncreasingPairs(t, 0, i);
        IncreasingPairs(s, 0, j);
        LessTotal(s[0], t[0]);
        assert false;
      }
      forall x ensures x in s[1..] <==> x in t[1..] {
        HeadNotInTail(s);
        HeadNotInTail(t);
        assert s == [s[0]] + s[1..] && t == [t[0]] + t[1..];
        assert x in s <==> x == s[0] || x in s[1..];
        assert x in t <==> x == t[0] || x in t[1..];
      }
      assert forall i :: 0 < i < |s| - 1 ==> s[1..][i] == s[i + 1] && s[1..][i - 1] == s[i];
      assert forall i :: 0 < i < |t| - 1 ==> t[1..][i] == t[i + 1] && t[1..][i - 1] == t[i];
      IncreasingUnique(s[1..], t[1..]);
      assert s == [s[0]] + s[1..] && t == [t[0]] + t[1..];
    }
  }

  lemma HeadNotInTail(s: seq<text>)
    requires s != [] && Increasing(s)
    ensures s[0] !in s[1..]
  {
    forall j | 1 <= j < |s| ensures s[j] != s[0] {
      IncreasingPairs(s, 0, j);
    }
  }

  ghost predicate AcceptableTags(tags: seq<text>) {
    (forall t <- tags :: ValidName(t)) && Distinct(tags)
  }

  /** Validates each tag, sorts a copy, and rejects a duplicate found by an adjacent scan. */
  method ValidatedTagSet(tags: seq<text>) returns (r: Result<seq<text>, ValidationError>)
    ensures r.Ok? <==> AcceptableTags(tags)
    ensures r.Ok? ==> r.value == Sort(tags) && Increasing(r.value) && multiset(r.value) == multiset(tags)
  {
    for i := 0 to |tags|
      invariant forall j :: 0 <= j < i ==> ValidName(tags[j])
    {
      var _ :- ValidateName(tags[i]);
    }
    var out := Sort(tags);
    SortSorts(tags);
    SortIncreasing(tags);
    var i := 1;
    while i < |out|
      invariant 1 <= i
      invariant forall j :: 0 < j < i && j < |out| ==> out[j] != out[j - 1]
    {
      if out[i] == out[i - 1] {
        LessTotal(out[i], out[i - 1]);
        assert !Increasing(out);
        return Err(DuplicateTag(out[i]));
      }
      i := i + 1;
    }
    forall j | 0 < j < |out| ensures Less(out[j - 1], out[j]) {
      LessTotal(out[j - 1], out[j]);
    }
    return Ok(out);
  }

  // ---------------------------------------------------------------------------
  // Events
  // ---------------------------------------------------------------------------

  datatype Event = Event(typ: text, tags: seq<text>, payload: bytes)

  /** Accepts exactly a valid type with valid, pairwise distinct tags, and stores the tags sorted. */
  method Create(typ: text, tags: seq<text>, payload: bytes) returns (r: Result<Event, ValidationError>)
    ensures r.Ok? <==> ValidName(typ) && AcceptableTags(tags)
    ensures r.Ok? ==> r.value == Event(typ, Sort(tags), payload) && Increasing(r.value.tags)
    ensures r.Ok? ==> multiset(r.value.tags) == multiset(tags)
  {
    var _ :- ValidateName(typ);
    var sorted :- ValidatedTagSet(tags);
    return Ok(Event(typ, sorted, payload));
  }

  function Utf8All(names: seq<text>): seq<bytes> {
    if names == [] then [] else Utf8All(names[..|names| - 1]) + [Utf8(names[|names| - 1])]
  }

  /** `encodeEvent(eventToWire(event))`. */
  function EncodedEvent(e: Event): bytes {
    Fields.Ser(Messages.EventFields(Messages.WireEvent(Utf8(e.typ), Utf8All(e.tags), e.payload)))
  }

  /** Two accepted events with the same type and payload and the same set of tags encode to the same bytes. */
  lemma EqualSetsEncodeEqually(typ: text, tags1: seq<text>, tags2: seq<text>, payload: bytes)
    requires AcceptableTags(tags1) && AcceptableTags(tags2)
    requires forall t :: t in tags1 <==> t in tags2
    ensures Sort(tags1) == Sort(tags2)
    ensures EncodedEvent(Event(typ, Sort(tags1), payload)) == EncodedEvent(Event(typ, Sort(tags2), payload))
  {
    SortSorts(tags1);
    SortSorts(tags2);
    SortIncreasing(tags1);
    SortIncreasing(tags2);
    forall t ensures t in Sort(tags1) <==> t in Sort(tags2) {
      assert t in tags1 <==> t in multiset(tags1);
      assert t in Sort(tags1) <==> t in multiset(Sort(tags1));
      assert t in tags2 <==> t in multiset(tags2);
      assert t in Sort(tags2) <==> t in multiset(Sort(tags2));
    }
    IncreasingUnique(Sort(tags1), Sort(tags2));
  }

  // ---------------------------------------------------------------------------
  // Which events the encoding tells apart
  // ---------------------------------------------------------------------------

  function RepairedAll(names: seq<text>): seq<text> {
    seq(|names|, i requires 0 <= i < |names| => Repaired(names[i]))
  }

  lemma {:induction false} Utf8AllPointwise(names: seq<text>)
    ensures |Utf8All(names)| == |names|
    ensures forall i :: 0 <= i < |names| ==> Utf8All(names)[i] == Utf8(names[i])
  {
    hide Utf8;
    if names != [] {
      Utf8AllPointwise(names[..|names| - 1]);
    }
  }

  lemma Utf8AllAlikeExactly(a: seq<text>, b: seq<text>)
    ensures Utf8All(a) == Utf8All(b) <==> RepairedAll(a) == RepairedAll(b)
  {
    hide Utf8, Repaired, Utf8All;
    Utf8AllPointwise(a);
    Utf8AllPointwise(b);
    if Utf8All(a) == Utf8All(b) || RepairedAll(a) == RepairedAll(b) {
      forall i | 0 <= i < |a|
        ensures Utf8(a[i]) == Utf8(b[i]) && Repaired(a[i]) == Repaired(b[i])
      {
        assert Utf8All(a)[i] == Utf8All(b)[i] || RepairedAll(a)[i] == RepairedAll(b)[i];
        Utf8AlikeExactly(a[i], b[i]);
      }
      assert Utf8All(a) == Utf8All(b);
      assert RepairedAll(a) == RepairedAll(b);
    }
  }

  /** The wire record of an event is a function of its bytes. */
  lemma EncodingsDiffer(v: Messages.WireEvent, w: Messages.WireEvent)
    requires Fields.Ser(Messages.EventFields(v)) == Fields.Ser(Messages.EventFields(w))
    requires |Fields.Ser(Messages.EventFields(v))| < TWO64
    ensures v == w
  {
    hide Fields.Ser, Fields.Parse, Messages.EventFields, Messages.EventOf;
    WireFormat.EventShape(v);
    WireFormat.EventShape(w);
    Fields.StripKnown(Messages.EventFields(v));
    Fields.StripKnown(Messages.EventFields(w));
    Fields.ParseInvertsSer(Messages.EVENT, [], Messages.EventFields(v));
    Fields.ParseInvertsSer(Messages.EVENT, [], Messages.EventFields(w));
    assert [] + Messages.EventFields(v) == Messages.EventFields(v);
    assert [] + Messages.EventFields(w) == Messages.EventFields(w);
    RoundTrip.EventRoundTrip(v);
    RoundTrip.EventRoundTrip(w);
  }

  /**
   * Two events encode to the same bytes if and only if they have the same payload and names that differ
   * in lone surrogates alone, tag by tag. The bound holds of every buffer that can exist.
   */
  lemma EncodedAlikeExactly(e: Event, f: Event)
    requires |EncodedEvent(e)| < TWO64
    ensures EncodedEvent(e) == EncodedEvent(f)
            <==> Repaired(e.typ) == Repaired(f.typ) && RepairedAll(e.tags) == RepairedAll(f.tags)
                 && e.payload == f.payload
  {
    hide Utf8, Repaired, Utf8All, RepairedAll, Fields.Ser, Messages.EventFields;
    Utf8AlikeExactly(e.typ, f.typ);
    Utf8AllAlikeExactly(e.tags, f.tags);
    if EncodedEvent(e) == EncodedEvent(f) {
      EncodingsDiffer(Messages.WireEvent(Utf8(e.typ), Utf8All(e.tags), e.payload),
                      Messages.WireEvent(Utf8(f.typ), Utf8All(f.tags), f.payload));
    }
  }

  ghost predicate AllWellFormed(names: seq<text>) {
    forall t <- names :: WellFormed(t)
  }

  lemma SortMembers(tags: seq<text>)
    ensures forall t :: t in Sort(tags) <==> t in tags
    ensures AllWellFormed(tags) ==> RepairedAll(Sort(tags)) == Sort(tags)
  {
    hide Repaired, WellFormed, Sort;
    SortSorts(tags);
    forall t
      ensures t in Sort(tags) <==> t in tags
    {
      assert t in tags <==> t in multiset(tags);
      assert t in Sort(tags) <==> t in multiset(Sort(tags));
    }
    if AllWellFormed(tags) {
      forall i | 0 <= i < |Sort(tags)|
        ensures Repaired(Sort(tags)[i]) == Sort(tags)[i]
      {
        assert Sort(tags)[i] in Sort(tags);
        RepairedExactly(Sort(tags)[i]);
      }
    }
  }

  /** Accepted events of well-formed names encode alike if and only if type, payload and set of tags agree. */
  lemma SameBytesSameEvent(typ1: text, tags1: seq<text>, payload1: bytes, typ2: text, tags2: seq<text>,
                           payload2: bytes)
    requires AcceptableTags(tags1) && AcceptableTags(tags2)
    requires WellFormed(typ1) && WellFormed(typ2) && AllWellFormed(tags1) && AllWellFormed(tags2)
    requires |EncodedEvent(Event(typ1, Sort(tags1), payload1))| < TWO64
    ensures EncodedEvent(Event(typ1, Sort(tags1), payload1)) == EncodedEvent(Event(typ2, Sort(tags2), payload2))
            <==> typ1 == typ2 && payload1 == payload2 && forall t :: t in tags1 <==> t in tags2
  {
    hide WellFormed, Repaired, RepairedAll, Sort, EncodedEvent, AcceptableTags;
    RepairedExactly(typ1);
    RepairedExactly(typ2);
    SortMembers(tags1);
    SortMembers(tags2);
    EncodedAlikeExactly(Event(typ1, Sort(tags1), payload1), Event(typ2, Sort(tags2), payload2));
    if forall t :: t in tags1 <==> t in tags2 {
      EqualSetsEncodeEqually(typ1, tags1, tags2, payload1);
    }
  }

  /** Names that are not well formed can be told apart by the validation and not by the encoding. */
  lemma LoneSurrogatesCollide()
    ensures AcceptableTags([[0xd800], [0xdbff]]) && Utf8([0xd800]) == Utf8([0xdbff])
  {
    var a: text, b: text := [0xd800], [0xdbff];
    assert a[1..] == [] && b[1..] == [];
    assert Counted(a) == 4 && Counted(b) == 4 && a[0] != b[0];
  }
}
