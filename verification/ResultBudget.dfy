/** The byte budget of a tool result (guard/serve.py `_wire`, `_fit`, `_rewrite`): how much of each string of each item
    the harness gets. */
module ResultBudget {
  import Canonical
  import Framing

  type Code = c: int | 0 <= c < 0x110000
  type Text = seq<Code>

  /** The bytes of one character in the JSON string `json.dumps(..., ensure_ascii=False)` writes. */
  function Cost(c: Code): (n: nat)
    ensures 1 <= n <= 6
  {
    if c == 0x22 || c == 0x5C || 8 <= c <= 10 || 12 <= c <= 13 then 2
    else if c < 0x20 then 6
    else if c < 0x80 then 1
    else if c < 0x800 then 2
    else if c < 0x10000 then 3
    else 4
  }

  function Body(t: Text): nat {
    if t == [] then 0 else Body(t[..|t| - 1]) + Cost(t[|t| - 1])
  }

  /** `_wire` of a string, quotes included. */
  function Wire(t: Text): nat { Body(t) + 2 }

  /** One character as `json.dumps` writes it; a surrogate is no Dafny character and stands for itself. */
  function Escaped(c: Code): seq<Framing.Code> {
    if 0xD800 <= c < 0xE000 then [c] else Canonical.Codes(Canonical.EscapeChar(c as char))
  }

  function EscapedAll(t: Text): seq<Framing.Code> {
    if t == [] then [] else EscapedAll(t[..|t| - 1]) + Escaped(t[|t| - 1])
  }

  lemma CostIs(c: Code)
    ensures Cost(c) == |Framing.Utf8(Escaped(c))|
  {
    if 0xD800 <= c < 0xE000 {
      Framing.Utf8Adds([c], []);
      Framing.EncodeReads(c);
    } else {
      Canonical.EscapeExact(c as char);
      EscapedCost(Canonical.EscapeChar(c as char), c);
    }
  }

  /** Every escape sequence is ASCII, one byte a character. */
  lemma EscapedCost(e: string, c: Code)
    requires !(0xD800 <= c < 0xE000) && e == Canonical.EscapeChar(c as char)
    ensures |Framing.Utf8(Canonical.Codes(e))| == if e == [c as char] then |Framing.Encode(c)| else |e|
  {
    var codes := Canonical.Codes(e);
    if e == [c as char] {
      Framing.Utf8Adds([c], []);
      assert codes == [c];
    } else {
      assert forall i | 0 <= i < 16 :: Canonical.HEX[i] < 128 as char;
      assert forall i | 0 <= i < |codes| :: codes[i] < 0x80;
      hide Canonical.Codes, Canonical.EscapeChar;
      AsciiBytes(codes);
    }
  }

  lemma {:induction false} AsciiBytes(codes: seq<Framing.Code>)
    requires forall i | 0 <= i < |codes| :: codes[i] < 0x80
    ensures |Framing.Utf8(codes)| == |codes|
  {
    if codes != [] {
      AsciiBytes(codes[1..]);
      Framing.EncodeReads(codes[0]);
    }
  }

  /** `_wire` of a string is the length of its quoted and escaped text in UTF-8. */
  lemma {:induction false} WireIs(t: Text)
    ensures Wire(t) == |Framing.Utf8([0x22] + EscapedAll(t) + [0x22])|
  {
    BodyIs(t);
    Framing.Utf8Adds([0x22] + EscapedAll(t), [0x22]);
    Framing.Utf8Adds([0x22], EscapedAll(t));
    Framing.EncodeReads(0x22);
  }

  lemma {:induction false} BodyIs(t: Text)
    ensures Body(t) == |Framing.Utf8(EscapedAll(t))|
  {
    if t != [] {
      BodyIs(t[..|t| - 1]);
      CostIs(t[|t| - 1]);
      hide Cost, Escaped;
      Framing.Utf8Adds(EscapedAll(t[..|t| - 1]), Escaped(t[|t| - 1]));
    }
  }

  lemma {:induction false} LongerCosts(t: Text, j: nat, k: nat)
    requires j <= k <= |t|
    ensures Body(t[..j]) + (k - j) <= Body(t[..k])
    decreases k
  {
    if j < k {
      assert t[..k][..k - 1] == t[..k - 1];
      LongerCosts(t, j, k - 1);
    }
  }

  /** k characters of t fit in the room, and no more do. */
  ghost predicate Longest(t: Text, room: int, k: nat) {
    && k <= |t| && Wire(t[..k]) <= room
    && (forall j | k < j <= |t| :: Wire(t[..j]) > room)
  }

  /** The prefix `_fit` keeps, found the slow way: one character less until it fits. */
  function Fitted(t: Text, room: int): Text {
    if t == [] || Wire(t) <= room then t else Fitted(t[..|t| - 1], room)
  }

  lemma {:induction false} FittedIsLongest(t: Text, room: int)
    requires room >= 2
    ensures |Fitted(t, room)| <= |t| && Fitted(t, room) == t[..|Fitted(t, room)|]
    ensures Longest(t, room, |Fitted(t, room)|)
  {
    if t == [] || Wire(t) <= room {
      assert t[..|t|] == t;
    } else {
      var less := t[..|t| - 1];
      FittedIsLongest(less, room);
      var k := |Fitted(less, room)|;
      assert less[..k] == t[..k];
      forall j | k < j <= |t| ensures Wire(t[..j]) > room {
        if j < |t| {
          assert less[..j] == t[..j];
        } else {
          assert t[..j] == t;
        }
      }
    }
  }

  lemma LongestUnique(t: Text, room: int, j: nat, k: nat)
    requires Longest(t, room, j) && Longest(t, room, k)
    ensures j == k
  {
  }

  /** `_fit`: a binary search for the longest prefix whose JSON string fits. */
  method Fit(t: Text, room: int) returns (fit: Text)
    requires room >= 2
    ensures fit == Fitted(t, room)
  {
    FittedIsLongest(t, room);
    var whole := Wire(t);
    if whole <= room {
      return t;
    }
    var lo, hi := 0, if |t| < room then |t| else room;
    forall j | hi < j <= |t| ensures Wire(t[..j]) > room {
      LongerCosts(t, 0, j);
    }
    while lo < hi
      invariant 0 <= lo <= hi <= |t|
      invariant Wire(t[..lo]) <= room
      invariant forall j | hi < j <= |t| :: Wire(t[..j]) > room
    {
      var mid := (lo + hi + 1) / 2;
      if Wire(t[..mid]) <= room {
        lo := mid;
      } else {
        forall j | mid <= j <= |t| ensures Wire(t[..j]) > room {
          LongerCosts(t, mid, j);
        }
        hi := mid - 1;
      }
    }
    LongestUnique(t, room, lo, |Fitted(t, room)|);
    return t[..lo];
  }

  // ---- items ----

  /** A content item: its string fields in order, whether it carries a payload, and the bytes of its JSON with every
      string empty. */
  datatype Item = Item(strings: seq<Text>, payload: bool, frame: nat)

  /** What the harness gets: an item, or the note that stands for this many more. */
  datatype Out = Kept(item: Item) | More(n: nat)

  function Sum(ts: seq<Text>): nat {
    if ts == [] then 0 else Body(ts[0]) + Sum(ts[1..])
  }

  /** `_wire` of an item, and the ", " between items. */
  function Size(c: Item): nat { c.frame + Sum(c.strings) + 2 }

  function Total(items: seq<Item>): nat {
    if items == [] then 0 else Size(items[0]) + Total(items[1..])
  }

  /** The strings as they are after the invisible characters are stripped and lone surrogates replaced. */
  function Cleaned(clean: Text -> Text, c: Item): Item {
    c.(strings := seq(|c.strings|, i requires 0 <= i < |c.strings| => clean(c.strings[i])))
  }

  function CleanedAll(clean: Text -> Text, items: seq<Item>): seq<Item> {
    if items == [] then [] else [Cleaned(clean, items[0])] + CleanedAll(clean, items[1..])
  }

  function CutString(t: Text, room: int): Text { if room > 0 then Fitted(t, room + 2) else [] }

  /** The strings of an item over the budget, each cut to what the ones before it left. */
  function CutStrings(ts: seq<Text>, room: int): (cut: seq<Text>)
    ensures |cut| == |ts|
  {
    if ts == [] then []
    else
      var t := CutString(ts[0], room);
      [t] + CutStrings(ts[1..], room - Body(t))
  }

  /** What `_rewrite` returns: the items, the budget left, and whether anything was cut. */
  datatype Rewriting = Rewriting(out: seq<Out>, left: int, cut: bool)

  /** The item does not fit in the budget and cannot be cut to it. */
  predicate Collapses(c: Item, budget: int) { Size(c) > budget && (c.frame + 2 > budget || c.payload) }

  function Trimmed(c: Item, budget: int): Item {
    if Size(c) > budget then c.(strings := CutStrings(c.strings, budget - c.frame - 2)) else c
  }

  function Rewritten(clean: Text -> Text, items: seq<Item>, budget: int): Rewriting {
    if items == [] then Rewriting([], budget, false)
    else
      var c := Cleaned(clean, items[0]);
      if Collapses(c, budget) then Rewriting([More(|items|)], 0, true)
      else
        var rest := Rewritten(clean, items[1..], budget - Size(Trimmed(c, budget)));
        Rewriting([Kept(Trimmed(c, budget))] + rest.out, rest.left, Size(c) > budget || rest.cut)
  }

  lemma RewrittenHead(clean: Text -> Text, items: seq<Item>, budget: int)
    requires items != [] && !Collapses(Cleaned(clean, items[0]), budget)
    ensures var c := Cleaned(clean, items[0]);
            var rest := Rewritten(clean, items[1..], budget - Size(Trimmed(c, budget)));
            Rewritten(clean, items, budget)
            == Rewriting([Kept(Trimmed(c, budget))] + rest.out, rest.left, Size(c) > budget || rest.cut)
  {
    hide Cleaned, Size, Trimmed, Collapses;
  }

  lemma RewrittenNone(clean: Text -> Text, items: seq<Item>, budget: int)
    requires items == []
    ensures Rewritten(clean, items, budget) == Rewriting([], budget, false)
  {
  }

  lemma RewrittenNote(clean: Text -> Text, items: seq<Item>, budget: int)
    requires items != [] && Collapses(Cleaned(clean, items[0]), budget)
    ensures Rewritten(clean, items, budget) == Rewriting([More(|items|)], 0, true)
  {
    hide Cleaned, Size, Trimmed, Collapses;
  }

  method Rewrite(clean: Text -> Text, items: seq<Item>, limit: nat) returns (r: Rewriting)
    ensures r == Rewritten(clean, items, limit)
  {
    hide CutStrings, Size, Cleaned, Rewritten;
    var out, left, cut := [], limit, false;
    var n := 0;
    while n < |items|
      invariant 0 <= n <= |items|
      invariant out + Rewritten(clean, items[n..], left).out == Rewritten(clean, items, limit).out
      invariant Rewritten(clean, items[n..], left).left == Rewritten(clean, items, limit).left
      invariant cut || Rewritten(clean, items[n..], left).cut <==> Rewritten(clean, items, limit).cut
    {
      var c := Cleaned(clean, items[n]);
      assert items[n..][1..] == items[n + 1..];
      ghost var before := left;
      if Size(c) > left {
        cut := true;
        var room := left - c.frame - 2;
        if room < 0 || c.payload {
          RewrittenNote(clean, items[n..], left);
          return Rewriting(out + [More(|items| - n)], 0, true);
        }
        var strings := CutAll(c.strings, room);
        c := c.(strings := strings);
      }
      RewrittenHead(clean, items[n..], before);
      left := left - Size(c);
      out := out + [Kept(c)];
      n := n + 1;
    }
    assert Rewritten(clean, items[n..], left) == Rewriting([], left, false) by { RewrittenNone(clean, items[n..], left); }
    return Rewriting(out, left, cut);
  }

  /** The inner loop: what one string takes is gone for the next. */
  method CutAll(ts: seq<Text>, whole: int) returns (cut: seq<Text>)
    ensures cut == CutStrings(ts, whole)
  {
    hide Fitted;
    var room, i := whole, 0;
    cut := [];
    while i < |ts|
      invariant 0 <= i <= |ts| && cut + CutStrings(ts[i..], room) == CutStrings(ts, whole)
    {
      assert ts[i..][1..] == ts[i + 1..];
      var t := [];
      if room > 0 {
        t := Fit(ts[i], room + 2);
      }
      cut := cut + [t];
      room := room - (Wire(t) - 2);
      i := i + 1;
    }
  }

  // ---- what the harness can rely on ----

  predicate Prefix(s: Text, t: Text) { |s| <= |t| && s == t[..|s|] }

  lemma CutStringFits(t: Text, room: nat)
    ensures var c := CutString(t, room);
            && Prefix(c, t) && Body(c) <= room
            && (c != t ==> |c| < |t| && Body(t[..|c| + 1]) > room)
  {
    hide Fitted;
    if room > 0 {
      FittedIsLongest(t, room + 2);
    } else if t != [] {
      LongerCosts(t, 0, 1);
    }
  }

  /** String i of the cut is a prefix, and when it was cut it could not have had one more character. */
  ghost predicate CutAt(ts: seq<Text>, cut: seq<Text>, room: int, i: nat)
    requires |cut| == |ts| && i < |ts|
  {
    && Prefix(cut[i], ts[i])
    && (cut[i] != ts[i] ==> |cut[i]| < |ts[i]| && Sum(cut[..i]) + Body(ts[i][..|cut[i]| + 1]) > room)
  }

  /** The cut strings fit together, each as long as what the ones before it left allows. */
  lemma {:induction false} CutFits(ts: seq<Text>, room: nat)
    ensures Sum(CutStrings(ts, room)) <= room
    ensures forall i: nat | i < |ts| :: CutAt(ts, CutStrings(ts, room), room, i)
  {
    hide Body, CutString, CutAt;
    if ts != [] {
      var cut := CutStrings(ts, room);
      CutStringFits(ts[0], room);
      CutFits(ts[1..], room - Body(cut[0]));
      assert cut[1..] == CutStrings(ts[1..], room - Body(cut[0]));
      forall i: nat | i < |ts| ensures CutAt(ts, cut, room, i) {
        if i == 0 {
          CutFirst(ts, cut, room);
        } else {
          CutLater(ts, cut, room, i);
        }
      }
    }
  }

  lemma CutFirst(ts: seq<Text>, cut: seq<Text>, room: nat)
    requires |cut| == |ts| && ts != [] && cut[0] == CutString(ts[0], room)
    ensures CutAt(ts, cut, room, 0)
  {
    hide Body, CutString, Prefix;
    CutStringFits(ts[0], room);
  }

  lemma CutLater(ts: seq<Text>, cut: seq<Text>, room: nat, i: nat)
    requires |cut| == |ts| && 0 < i < |ts| && CutAt(ts[1..], cut[1..], room - Body(cut[0]), i - 1)
    ensures CutAt(ts, cut, room, i)
  {
    hide Body, Prefix;
    assert cut[..i][1..] == cut[1..][..i - 1];
  }

  /** A trimmed item takes what is left or less, and is the item itself or a cut of it. */
  lemma TrimmedFits(c: Item, budget: nat)
    requires !Collapses(c, budget)
    ensures Size(Trimmed(c, budget)) <= budget && CutOf(Trimmed(c, budget), c)
  {
    hide CutStrings, Body;
    if Size(c) > budget {
      var room := budget - c.frame - 2;
      CutFits(c.strings, room);
      forall i: nat | i < |c.strings| ensures Prefix(CutStrings(c.strings, room)[i], c.strings[i]) {
        assert CutAt(c.strings, CutStrings(c.strings, room), room, i);
      }
    }
  }

  function KeptSize(out: seq<Out>): nat {
    if out == [] then 0 else (if out[0].Kept? then Size(out[0].item) else 0) + KeptSize(out[1..])
  }

  predicate Noted(out: seq<Out>) { out != [] && out[|out| - 1].More? }

  /** Every item is kept with prefixes of its strings, up to one note that counts the rest. */
  ghost predicate Faithful(clean: Text -> Text, items: seq<Item>, out: seq<Out>) {
    && |out| <= |items|
    && (forall i | 0 <= i < |out| :: if out[i].More? then i == |out| - 1 && out[i].n == |items| - i
                                     else CutOf(out[i].item, Cleaned(clean, items[i])))
    && (|out| < |items| ==> out != [] && out[|out| - 1].More?)
  }

  ghost predicate CutOf(c: Item, whole: Item) {
    && c.frame == whole.frame && c.payload == whole.payload && |c.strings| == |whole.strings|
    && (forall i | 0 <= i < |c.strings| :: Prefix(c.strings[i], whole.strings[i]))
    && (c.payload ==> c == whole)
  }

  /** What is kept and what is left add up to the budget; a note leaves nothing. */
  lemma {:induction false} BudgetConserved(clean: Text -> Text, items: seq<Item>, budget: nat)
    ensures var r := Rewritten(clean, items, budget);
            && r.left >= 0
            && (if Noted(r.out) then r.left == 0 && KeptSize(r.out) <= budget
                else KeptSize(r.out) + r.left == budget)
            && Faithful(clean, items, r.out)
  {
    hide Cleaned, CutOf, Size, Trimmed, Collapses, Rewritten, Faithful, KeptSize, Noted;
    if items == [] {
      RewrittenNone(clean, items, budget);
      NoteIsFaithful(clean, items);
    } else if Collapses(Cleaned(clean, items[0]), budget) {
      RewrittenNote(clean, items, budget);
      NoteIsFaithful(clean, items);
    } else {
      RewrittenHead(clean, items, budget);
      var c := Trimmed(Cleaned(clean, items[0]), budget);
      TrimmedFits(Cleaned(clean, items[0]), budget);
      BudgetConserved(clean, items[1..], budget - Size(c));
      Longer(clean, items, c, Rewritten(clean, items[1..], budget - Size(c)).out);
    }
  }

  lemma NoteIsFaithful(clean: Text -> Text, items: seq<Item>)
    ensures items == [] ==> Faithful(clean, items, []) && KeptSize([]) == 0 && !Noted([])
    ensures var note := [More(|items|)];
            items != [] ==> Faithful(clean, items, note) && KeptSize(note) == 0 && Noted(note)
  {
    hide Cleaned, CutOf;
  }

  lemma Longer(clean: Text -> Text, items: seq<Item>, c: Item, rest: seq<Out>)
    requires items != [] && CutOf(c, Cleaned(clean, items[0])) && Faithful(clean, items[1..], rest)
    ensures Faithful(clean, items, [Kept(c)] + rest)
    ensures KeptSize([Kept(c)] + rest) == Size(c) + KeptSize(rest) && Noted([Kept(c)] + rest) == Noted(rest)
  {
    hide Cleaned, CutOf, Size;
    var out := [Kept(c)] + rest;
    assert out[1..] == rest;
    forall i | 0 < i < |out|
      ensures if out[i].More? then i == |out| - 1 && out[i].n == |items| - i
              else CutOf(out[i].item, Cleaned(clean, items[i]))
    {
      assert out[i] == rest[i - 1] && items[i] == items[1..][i - 1];
    }
  }

  /** Nothing is cut exactly when everything fits, and then everything is kept whole. */
  lemma {:induction false} UncutIff(clean: Text -> Text, items: seq<Item>, budget: int)
    ensures var (r, whole) := (Rewritten(clean, items, budget), CleanedAll(clean, items));
            && (budget >= 0 ==> (!r.cut <==> Total(whole) <= budget))
            && (!r.cut ==> |r.out| == |whole| && (forall i | 0 <= i < |whole| :: r.out[i] == Kept(whole[i])))
  {
    hide Cleaned, CutStrings;
    if items != [] {
      var c := Cleaned(clean, items[0]);
      if Size(c) <= budget {
        UncutIff(clean, items[1..], budget - Size(c));
      }
    }
  }

  // ---- what becomes of one item ----

  /** The bytes of an item's JSON: its keys and quotes, and its strings. */
  function ItemBytes(c: Item): nat { c.frame + Sum(c.strings) }

  lemma {:induction false} SumAdds(a: seq<Text>, b: seq<Text>)
    ensures Sum(a + b) == Sum(a) + Sum(b)
    ensures forall t: Text :: Sum([t]) == Wire(t) - 2
  {
    hide Body;
    if a == [] {
      assert a + b == b;
    } else {
      assert (a + b)[0] == a[0] && (a + b)[1..] == a[1..] + b;
      SumAdds(a[1..], b);
    }
  }

  /** The output for an item with these cleaned strings when so much of the budget is left: whole when it fits with the
      separator after it; else the note when its keys do not fit or it carries a payload; else cut. */
  ghost predicate Placed(clean: Text -> Text, item: Item, later: nat, left: int, o: Out) {
    && var bytes := ItemBytes(Item(seq(|item.strings|, j requires 0 <= j < |item.strings| => clean(item.strings[j])),
                                   item.payload, item.frame));
       match o
       case More(n) => bytes + 2 > left && (item.frame + 2 > left || item.payload) && n == later
       case Kept(c) =>
         && c.frame == item.frame && c.payload == item.payload && |c.strings| == |item.strings|
         && (bytes + 2 <= left ==> forall j | 0 <= j < |c.strings| :: c.strings[j] == clean(item.strings[j]))
         && (bytes + 2 > left ==> item.frame + 2 <= left && !item.payload && ItemBytes(c) + 2 <= left)
  }

  lemma PlacedHead(clean: Text -> Text, items: seq<Item>, budget: nat)
    requires items != []
    ensures var c := Cleaned(clean, items[0]);
            Placed(clean, items[0], |items|, budget,
                   if Collapses(c, budget) then More(|items|) else Kept(Trimmed(c, budget)))
  {
    hide CutStrings, Body;
    var c := Cleaned(clean, items[0]);
    assert c == Item(seq(|items[0].strings|, j requires 0 <= j < |items[0].strings| => clean(items[0].strings[j])),
                     items[0].payload, items[0].frame);
    if !Collapses(c, budget) {
      TrimmedFits(c, budget);
    }
  }

  /** Each item is whole, cut or noted by what the items before it left. */
  lemma {:induction false} ItemPlaced(clean: Text -> Text, items: seq<Item>, budget: nat, i: nat)
    requires i < |Rewritten(clean, items, budget).out|
    ensures |Rewritten(clean, items, budget).out| <= |items|
    ensures var out := Rewritten(clean, items, budget).out;
            Placed(clean, items[i], |items| - i, budget - KeptSize(out[..i]), out[i])
  {
    hide Cleaned, Size, Trimmed, Collapses, Rewritten, Placed, CutOf;
    BudgetConserved(clean, items, budget);
    if items == [] {
      RewrittenNone(clean, items, budget);
    } else {
      PlacedHead(clean, items, budget);
      if Collapses(Cleaned(clean, items[0]), budget) {
        RewrittenNote(clean, items, budget);
      } else {
        RewrittenHead(clean, items, budget);
        var c := Trimmed(Cleaned(clean, items[0]), budget);
        TrimmedFits(Cleaned(clean, items[0]), budget);
        if i > 0 {
          var out := Rewritten(clean, items, budget).out;
          ItemPlaced(clean, items[1..], budget - Size(c), i - 1);
          assert out[1..] == Rewritten(clean, items[1..], budget - Size(c)).out && out[..i][1..] == out[1..][..i - 1];
          assert out[..i][0] == Kept(c);
        }
      }
    }
  }

  /** The items kept, as a JSON array: brackets, and ", " between the items. */
  function ArrayBytes(out: seq<Out>): nat {
    if out == [] || out[0].More? then 2
    else if |out| == 1 || out[1].More? then ItemBytes(out[0].item) + 2
    else ItemBytes(out[0].item) + 2 + ArrayBytes(out[1..])
  }

  /** The array of the items kept takes what the budget gave, and so never more than the budget. */
  lemma {:induction false} ArrayFits(clean: Text -> Text, items: seq<Item>, budget: nat)
    requires var out := Rewritten(clean, items, budget).out; out != [] && out[0].Kept?
    ensures var r := Rewritten(clean, items, budget);
            && ArrayBytes(r.out) <= budget
            && (!r.out[|r.out| - 1].More? ==> ArrayBytes(r.out) + r.left == budget)
  {
    hide Cleaned, CutOf, Rewritten, ItemBytes;
    BudgetConserved(clean, items, budget);
    ArraySize(clean, items, Rewritten(clean, items, budget).out);
  }

  lemma {:induction false} ArraySize(clean: Text -> Text, items: seq<Item>, out: seq<Out>)
    requires out != [] && out[0].Kept? && Faithful(clean, items, out)
    ensures ArrayBytes(out) == KeptSize(out)
  {
    hide Cleaned, CutOf;
    if |out| > 1 && out[1].Kept? {
      assert forall i | 0 <= i < |out| - 1 :: out[1..][i] == out[i + 1] && items[1..][i] == items[i + 1];
      ArraySize(clean, items[1..], out[1..]);
    } else if |out| > 1 {
      assert out[1].More? && |out| == 2;
      assert out[1..] == [out[1]] && KeptSize([out[1]]) == 0;
    }
  }
}
