/** The bytes a tool result is hashed over (guard/serve.py `_raw`): the text alone, or, when an item carries a binary
    payload, a frame in which every part is length-prefixed. Text is UTF-8 (section 3 of RFC 3629, with the surrogates
    let through), so no byte of it is 0xFF. */
module Framing {
  type Byte = b: int | 0 <= b < 256
  type Code = c: int | 0 <= c < 0x110000

  const MARK: Byte := 0xFF

  // ---- UTF-8 ----

  function Encode(c: Code): (bs: seq<Byte>)
    ensures 1 <= |bs| <= 4 && MARK !in bs
  {
    if c < 0x80 then [c]
    else if c < 0x800 then [0xC0 + c / 64, 0x80 + c % 64]
    else if c < 0x10000 then [0xE0 + c / 4096, 0x80 + c / 64 % 64, 0x80 + c % 64]
    else [0xF0 + c / 262144, 0x80 + c / 4096 % 64, 0x80 + c / 64 % 64, 0x80 + c % 64]
  }

  function Utf8(text: seq<Code>): (bs: seq<Byte>)
    ensures MARK !in bs
    ensures bs == [] <==> text == []
  {
    if text == [] then [] else Encode(text[0]) + Utf8(text[1..])
  }

  /** What the lead byte of so many bytes starts with: 0, 110, 1110 or 11110. */
  function Lead(n: nat): int { if n <= 1 then 0 else if n == 2 then 0xC0 else if n == 3 then 0xE0 else 0xF0 }

  /** The bits after the markers, the highest first. */
  function Bits(bs: seq<int>, lead: int): int {
    if bs == [] then 0
    else if |bs| == 1 then bs[0] - lead
    else Bits(bs[..|bs| - 1], lead) * 64 + (bs[|bs| - 1] - 0x80)
  }

  /** The shortest of the four forms: the length marks the range, and the bits are read back from the lead byte and the
      continuation bytes. */
  lemma EncodeReads(c: Code)
    ensures var bs := Encode(c);
            && (|bs| == 1 <==> c < 0x80) && (|bs| == 2 <==> 0x80 <= c < 0x800) && (|bs| == 3 <==> 0x800 <= c < 0x10000)
            && (forall i | 1 <= i < |bs| :: 0x80 <= bs[i] < 0xC0)
            && bs[0] >= Lead(|bs|) && c == Bits(bs, Lead(|bs|))
  {
    Base64Digits(c);
    var bs: seq<int> := Encode(c);
    var lead := Lead(|bs|);
    assert |bs| >= 2 ==> bs[..1] == [bs[0]] && Bits(bs[..1], lead) == bs[0] - lead;
    assert |bs| >= 3 ==> bs[..2][..1] == bs[..1] && Bits(bs[..2], lead) == (bs[0] - lead) * 64 + (bs[1] - 0x80);
    assert |bs| == 4 ==> bs[..3][..2] == bs[..2] && Bits(bs[..3], lead) == Bits(bs[..2], lead) * 64 + (bs[2] - 0x80);
  }

  lemma {:induction false} Utf8Adds(a: seq<Code>, b: seq<Code>)
    ensures Utf8(a + b) == Utf8(a) + Utf8(b)
    ensures forall c: Code :: Utf8([c]) == Encode(c)
  {
    hide Encode;
    if a == [] {
      assert a + b == b;
    } else {
      assert (a + b)[0] == a[0] && (a + b)[1..] == a[1..] + b;
      Utf8Adds(a[1..], b);
    }
  }

  /** A code point can be read off the front. */
  lemma EncodePrefixFree(a: Code, b: Code, x: seq<Byte>, y: seq<Byte>)
    requires Encode(a) + x == Encode(b) + y
    ensures a == b && x == y
  {
    var (s, t) := (Encode(a) + x, Encode(b) + y);
    assert s[0] == Encode(a)[0] && t[0] == Encode(b)[0];
    assert |Encode(a)| == |Encode(b)|;
    assert forall i | 0 <= i < |Encode(a)| :: s[i] == Encode(a)[i] && t[i] == Encode(b)[i];
    SameBytes(a, b);
    assert s[|Encode(a)|..] == x && t[|Encode(b)|..] == y;
  }

  lemma Base64Digits(c: nat)
    ensures c / 4096 == c / 64 / 64 && c / 262144 == c / 64 / 64 / 64
  {
  }

  lemma SameQuotient(a: nat, b: nat)
    requires a % 64 == b % 64 && a / 64 == b / 64
    ensures a == b
  {
  }

  lemma SameBytes(a: Code, b: Code)
    requires Encode(a) == Encode(b)
    ensures a == b
  {
    var (s, t) := (Encode(a), Encode(b));
    var n := |s|;
    assert s[0] == t[0] && s[n - 1] == t[n - 1];
    if n > 1 {
      Base64Digits(a);
      Base64Digits(b);
      if n == 4 {
        assert s[1] == t[1] && s[2] == t[2];
        SameQuotient(a / 64 / 64, b / 64 / 64);
        SameQuotient(a / 64, b / 64);
      } else if n == 3 {
        assert s[1] == t[1];
        SameQuotient(a / 64, b / 64);
      }
      SameQuotient(a, b);
    }
  }

  lemma {:induction false} Utf8Injective(a: seq<Code>, b: seq<Code>)
    requires Utf8(a) == Utf8(b)
    ensures a == b
  {
    if a != [] {
      EncodePrefixFree(a[0], b[0], Utf8(a[1..]), Utf8(b[1..]));
      Utf8Injective(a[1..], b[1..]);
      assert a == [a[0]] + a[1..] && b == [b[0]] + b[1..];
    }
  }

  // ---- lengths ----

  function Power(k: nat): nat { if k == 0 then 1 else 256 * Power(k - 1) }

  /** `v.to_bytes(k, "big")`. */
  function BigEndian(v: nat, k: nat): (bs: seq<Byte>)
    ensures |bs| == k
  {
    if k == 0 then [] else BigEndian(v / 256, k - 1) + [v % 256]
  }

  /** The number the bytes spell, the most significant first. */
  function Value(bs: seq<Byte>): nat {
    if bs == [] then 0 else Value(bs[..|bs| - 1]) * 256 + bs[|bs| - 1]
  }

  lemma {:induction false} BigEndianReads(v: nat, k: nat)
    requires v < Power(k)
    ensures Value(BigEndian(v, k)) == v
  {
    if k > 0 {
      BigEndianReads(v / 256, k - 1);
      assert BigEndian(v, k)[..k - 1] == BigEndian(v / 256, k - 1);
    }
  }

  lemma U64Reads(v: nat)
    requires v < 0x1_0000_0000_0000_0000
    ensures |U64(v)| == 8 && Value(U64(v)) == v
  {
    assert Power(8) == 256 * Power(7) && Power(7) == 256 * Power(6) && Power(6) == 256 * Power(5);
    assert Power(5) == 256 * Power(4) && Power(4) == 256 * Power(3) && Power(3) == 256 * Power(2);
    BigEndianReads(v, 8);
  }

  lemma {:induction false} BigEndianInjective(v: nat, w: nat, k: nat)
    requires v < Power(k) && w < Power(k) && BigEndian(v, k) == BigEndian(w, k)
    ensures v == w
  {
    if k > 0 {
      var (s, t) := (BigEndian(v, k), BigEndian(w, k));
      assert s[..k - 1] == BigEndian(v / 256, k - 1) && t[..k - 1] == BigEndian(w / 256, k - 1);
      assert s[k - 1] == v % 256 && t[k - 1] == w % 256;
      BigEndianInjective(v / 256, w / 256, k - 1);
    }
  }

  function U64(v: nat): seq<Byte> { BigEndian(v, 8) }

  lemma U64PrefixFree(v: nat, w: nat, x: seq<Byte>, y: seq<Byte>)
    requires v < Power(8) && w < Power(8) && U64(v) + x == U64(w) + y
    ensures v == w && x == y
  {
    var (s, t) := (U64(v) + x, U64(w) + y);
    assert s[..8] == U64(v) && t[..8] == U64(w) && s[8..] == x && t[8..] == y;
    BigEndianInjective(v, w, 8);
  }

  /** A length and that many bytes. */
  function Field(bs: seq<Byte>): seq<Byte> { U64(|bs|) + bs }

  lemma FieldPrefixFree(a: seq<Byte>, b: seq<Byte>, x: seq<Byte>, y: seq<Byte>)
    requires |a| < Power(8) && |b| < Power(8) && Field(a) + x == Field(b) + y
    ensures a == b && x == y
  {
    hide Power, U64;
    assert Field(a) + x == U64(|a|) + (a + x) && Field(b) + y == U64(|b|) + (b + y);
    U64PrefixFree(|a|, |b|, a + x, b + y);
    assert (a + x)[..|a|] == a && (b + y)[..|b|] == b && (a + x)[|a|..] == x && (b + y)[|b|..] == y;
  }

  // ---- parts ----

  /** A binary payload, with the index and the type of its content item. */
  datatype Part = Part(index: nat, kind: seq<Byte>, payload: seq<Byte>)

  /** A well-formed item as it arrived: its string fields in order, then its payloads. */
  datatype Item = Item(index: nat, kind: seq<Byte>, texts: seq<seq<Code>>, payloads: seq<seq<Byte>>)

  /** `to_bytes` refuses what does not fit in 8 bytes. */
  predicate Fits(p: Part) { p.index < Power(8) && |p.kind| < Power(8) && |p.payload| < Power(8) }

  function Frame(p: Part): (bs: seq<Byte>)
    ensures bs != []
  { U64(p.index) + Field(p.kind) + Field(p.payload) }

  function Frames(parts: seq<Part>): (bs: seq<Byte>)
    ensures bs == [] <==> parts == []
  {
    if parts == [] then [] else Frame(parts[0]) + Frames(parts[1..])
  }

  lemma FramePrefixFree(p: Part, q: Part, x: seq<Byte>, y: seq<Byte>)
    requires Fits(p) && Fits(q) && Frame(p) + x == Frame(q) + y
    ensures p == q && x == y
  {
    hide Field, U64;
    assert Frame(p) + x == U64(p.index) + (Field(p.kind) + (Field(p.payload) + x));
    assert Frame(q) + y == U64(q.index) + (Field(q.kind) + (Field(q.payload) + y));
    U64PrefixFree(p.index, q.index, Field(p.kind) + (Field(p.payload) + x), Field(q.kind) + (Field(q.payload) + y));
    FieldPrefixFree(p.kind, q.kind, Field(p.payload) + x, Field(q.payload) + y);
    FieldPrefixFree(p.payload, q.payload, x, y);
  }

  predicate AllFit(parts: seq<Part>) { forall i | 0 <= i < |parts| :: Fits(parts[i]) }

  lemma {:induction false} FramesInjective(a: seq<Part>, b: seq<Part>)
    requires AllFit(a) && AllFit(b) && Frames(a) == Frames(b)
    ensures a == b
  {
    hide Power;
    if a != [] {
      FramePrefixFree(a[0], b[0], Frames(a[1..]), Frames(b[1..]));
      assert AllFit(a[1..]) && AllFit(b[1..]);
      FramesInjective(a[1..], b[1..]);
      assert a == [a[0]] + a[1..] && b == [b[0]] + b[1..];
    }
  }

  // ---- the result ----

  function Joined(texts: seq<seq<Code>>): seq<Code> {
    if texts == [] then [] else texts[0] + Joined(texts[1..])
  }

  function ItemTexts(arrived: seq<Item>): seq<Code> {
    if arrived == [] then [] else Joined(arrived[0].texts) + ItemTexts(arrived[1..])
  }

  /** T: every string field in item order, then the structured content. */
  function TextOf(arrived: seq<Item>, structured: seq<Code>): seq<Code> { ItemTexts(arrived) + structured }

  function ItemParts(item: Item, k: nat): seq<Part>
    requires k <= |item.payloads|
    decreases |item.payloads| - k
  {
    if k == |item.payloads| then []
    else [Part(item.index, item.kind, item.payloads[k])] + ItemParts(item, k + 1)
  }

  function PartsOf(arrived: seq<Item>): seq<Part> {
    if arrived == [] then [] else ItemParts(arrived[0], 0) + PartsOf(arrived[1..])
  }

  function PayloadBytes(parts: seq<Part>): nat {
    if parts == [] then 0 else |parts[0].payload| + PayloadBytes(parts[1..])
  }

  /** `_raw`: what the result is hashed over, and the size that is reported. */
  method Raw(arrived: seq<Item>, structured: seq<Code>) returns (bytes: seq<Byte>, size: nat)
    ensures bytes == Hashed(TextOf(arrived, structured), PartsOf(arrived))
    ensures size == |Utf8(TextOf(arrived, structured))| + PayloadBytes(PartsOf(arrived))
  {
    hide Utf8, TextOf, PartsOf, Field, Frame;
    var t, parts := Utf8(TextOf(arrived, structured)), PartsOf(arrived);
    if parts == [] {
      return t, |t|;
    }
    var framed := [MARK] + Field(t);
    size := |t|;
    var i := 0;
    while i < |parts|
      invariant 0 <= i <= |parts|
      invariant framed + Frames(parts[i..]) == [MARK] + Field(t) + Frames(parts)
      invariant size + PayloadBytes(parts[i..]) == |t| + PayloadBytes(parts)
    {
      assert parts[i..][1..] == parts[i + 1..];
      assert framed + Frames(parts[i..]) == framed + Frame(parts[i]) + Frames(parts[i + 1..]);
      framed := framed + Frame(parts[i]);
      size := size + |parts[i].payload|;
      i := i + 1;
    }
    assert framed + Frames(parts[i..]) == framed;
    bytes := framed;
  }

  function Hashed(text: seq<Code>, parts: seq<Part>): (bs: seq<Byte>)
    ensures parts == [] <==> MARK !in bs
  {
    if parts == [] then Utf8(text) else [MARK] + Field(Utf8(text)) + Frames(parts)
  }

  // ---- the layout ----

  /** The 8 bytes at i spell v. */
  predicate SpelledAt(bs: seq<Byte>, i: nat, v: nat) { i + 8 <= |bs| && Value(bs[i..i + 8]) == v }

  predicate BytesAt(bs: seq<Byte>, i: nat, part: seq<Byte>) { i + |part| <= |bs| && bs[i..i + |part|] == part }

  /** Index, length of the type, type, length of the payload, payload. */
  lemma FrameLayout(p: Part)
    requires p.index < 0x1_0000_0000_0000_0000 && |p.kind| < 0x1_0000_0000_0000_0000
    requires |p.payload| < 0x1_0000_0000_0000_0000
    ensures var (bs, k) := (Frame(p), |p.kind|);
            && |bs| == 24 + k + |p.payload|
            && SpelledAt(bs, 0, p.index) && SpelledAt(bs, 8, k) && BytesAt(bs, 16, p.kind)
            && SpelledAt(bs, 16 + k, |p.payload|) && BytesAt(bs, 24 + k, p.payload)
  {
    U64Reads(p.index);
    U64Reads(|p.kind|);
    U64Reads(|p.payload|);
    var (bs, k) := (Frame(p), |p.kind|);
    hide Value, U64;
    Sliced(U64(p.index), U64(k), p.kind, U64(|p.payload|), p.payload);
    assert bs == U64(p.index) + U64(k) + p.kind + U64(|p.payload|) + p.payload;
  }

  lemma Sliced(a: seq<Byte>, b: seq<Byte>, kind: seq<Byte>, c: seq<Byte>, payload: seq<Byte>)
    requires |a| == 8 && |b| == 8 && |c| == 8
    ensures var (bs, k) := (a + b + kind + c + payload, |kind|);
            && bs[0..8] == a && bs[8..16] == b && bs[16..16 + k] == kind && bs[16 + k..24 + k] == c
            && bs[24 + k..24 + k + |payload|] == payload
  {
  }

  lemma {:induction false} FramesAdd(a: seq<Part>, b: seq<Part>)
    ensures Frames(a + b) == Frames(a) + Frames(b) && PayloadBytes(a + b) == PayloadBytes(a) + PayloadBytes(b)
    ensures forall p: Part :: Frames([p]) == Frame(p) && PayloadBytes([p]) == |p.payload|
  {
    hide Frame;
    if a == [] {
      assert a + b == b;
    } else {
      assert (a + b)[0] == a[0] && (a + b)[1..] == a[1..] + b;
      FramesAdd(a[1..], b);
    }
  }

  lemma HashedParts(length: seq<Byte>, t: seq<Byte>, frames: seq<Byte>)
    requires |length| == 8
    ensures var (bs, n) := ([MARK] + (length + t) + frames, |t|);
            |bs| >= 9 + n && bs[0] == 0xFF && bs[1..9] == length && bs[9..9 + n] == t && bs[9 + n..] == frames
  {
  }

  /** Without binary parts the text alone; with them 0xFF, the text under its length, and the frames. */
  lemma HashedLayout(text: seq<Code>, parts: seq<Part>)
    requires |Utf8(text)| < 0x1_0000_0000_0000_0000
    ensures var (bs, t) := (Hashed(text, parts), Utf8(text));
            if parts == [] then bs == t
            else |bs| >= 9 + |t| && bs[0] == 0xFF && SpelledAt(bs, 1, |t|) && BytesAt(bs, 9, t) && bs[9 + |t|..] == Frames(parts)
  {
    var (bs, t) := (Hashed(text, parts), Utf8(text));
    U64Reads(|t|);
    hide Value, U64, Frames, Utf8;
    if parts != [] {
      HashedParts(U64(|t|), t, Frames(parts));
    }
  }

  lemma {:induction false} TextsAdd(a: seq<Item>, b: seq<Item>)
    ensures ItemTexts(a + b) == ItemTexts(a) + ItemTexts(b)
  {
    hide Joined;
    if a == [] {
      assert a + b == b;
    } else {
      assert (a + b)[0] == a[0] && (a + b)[1..] == a[1..] + b;
      TextsAdd(a[1..], b);
    }
  }

  lemma {:induction false} PartsAdd(a: seq<Item>, b: seq<Item>)
    ensures PartsOf(a + b) == PartsOf(a) + PartsOf(b)
  {
    hide ItemParts;
    if a == [] {
      assert a + b == b;
    } else {
      assert (a + b)[0] == a[0] && (a + b)[1..] == a[1..] + b;
      PartsAdd(a[1..], b);
    }
  }

  /** T and the parts are collected item by item, string by string and payload by payload, in order, and the structured
      content comes last. */
  lemma {:induction false} CollectedInOrder(a: seq<Item>, b: seq<Item>, structured: seq<Code>)
    ensures TextOf(a + b, structured) == TextOf(a, []) + TextOf(b, structured) && TextOf([], structured) == structured
    ensures PartsOf(a + b) == PartsOf(a) + PartsOf(b) && PartsOf([]) == []
  {
    TextsAdd(a, b);
    PartsAdd(a, b);
    assert ItemTexts([]) == [] && PartsOf([]) == [];
    hide ItemTexts, PartsOf;
    assert ItemTexts(a) + [] == ItemTexts(a) && [] + structured == structured;
  }

  lemma {:induction false} OneItem(item: Item, texts: seq<seq<Code>>, t: seq<Code>)
    ensures item.texts == texts + [t] ==> TextOf([item], []) == TextOf([item.(texts := texts)], []) + t
    ensures item.texts == [] ==> TextOf([item], []) == []
    ensures |PartsOf([item])| == |item.payloads|
    ensures forall k | 0 <= k < |item.payloads| :: PartsOf([item])[k] == Part(item.index, item.kind, item.payloads[k])
  {
    JoinedAppends(texts, t);
    ItemPartsAt(item, 0);
    assert PartsOf([item]) == ItemParts(item, 0);
    hide ItemParts, Joined;
    assert ItemTexts([item]) == Joined(item.texts);
    assert ItemTexts([item.(texts := texts)]) == Joined(texts);
    hide ItemTexts;
    if item.texts == [] {
      assert Joined([]) == [] by { hide *; JoinedAppends([], t); }
    }
  }

  lemma {:induction false} JoinedAppends(texts: seq<seq<Code>>, t: seq<Code>)
    ensures Joined(texts + [t]) == Joined(texts) + t && Joined([]) == []
  {
    if texts != [] {
      assert (texts + [t])[1..] == texts[1..] + [t];
      JoinedAppends(texts[1..], t);
    }
  }

  lemma {:induction false} ItemPartsAt(item: Item, k: nat)
    requires k <= |item.payloads|
    ensures |ItemParts(item, k)| == |item.payloads| - k
    ensures forall i | k <= i < |item.payloads| ::
              ItemParts(item, k)[i - k] == Part(item.index, item.kind, item.payloads[i])
    decreases |item.payloads| - k
  {
    if k < |item.payloads| {
      ItemPartsAt(item, k + 1);
    }
  }

  lemma HashedTail(text: seq<Code>, parts: seq<Part>)
    ensures if parts == [] then Hashed(text, parts) == Utf8(text)
            else Hashed(text, parts) != [] && Hashed(text, parts)[1..] == Field(Utf8(text)) + Frames(parts)
  {
    hide Utf8, Frames, Field;
  }

  /** Two results are hashed over the same bytes only if they have the same text and the same binary parts, index,
      type and payload; a framed result is never some text. */
  lemma HashedInjective(text: seq<Code>, parts: seq<Part>, text': seq<Code>, parts': seq<Part>)
    requires |Utf8(text)| < Power(8) && |Utf8(text')| < Power(8) && AllFit(parts) && AllFit(parts')
    requires Hashed(text, parts) == Hashed(text', parts')
    ensures text == text' && parts == parts'
  {
    hide Utf8, Frames, Field, Power, AllFit, Hashed;
    var (t, t') := (Utf8(text), Utf8(text'));
    HashedTail(text, parts);
    HashedTail(text', parts');
    if parts != [] {
      FieldPrefixFree(t, t', Frames(parts), Frames(parts'));
      FramesInjective(parts, parts');
    }
    Utf8Injective(text, text');
  }
}
