/** The linear URL scanner of the command parser (guard/cmdparse.py `urls`) against the regular expression it stands
    for, `[a-zA-Z][a-zA-Z0-9+.-]*://[^\s'"<>|;&]+` searched left to right without overlaps. */
module UrlScan {
  import opened Records

  /** A Python character: any code point, lone surrogates included. */
  type Code = c: int | 0 <= c < 0x110000
  type Text = seq<Code>

  predicate Letter(c: Code) { 'a' as int <= c <= 'z' as int || 'A' as int <= c <= 'Z' as int }

  predicate SchemeChar(c: Code) {
    Letter(c) || '0' as int <= c <= '9' as int || c == '+' as int || c == '.' as int || c == '-' as int
  }

  /** `str.isspace`, and `\s` on text. */
  predicate Space(c: Code) {
    9 <= c <= 13 || 28 <= c <= 32 || c == 0x85 || c == 0xA0 || c == 0x1680 || 0x2000 <= c <= 0x200A || c == 0x2028
    || c == 0x2029 || c == 0x202F || c == 0x205F || c == 0x3000
  }

  predicate BodyChar(c: Code) {
    !Space(c) && c != '\'' as int && c != '\"' as int && c != '<' as int && c != '>' as int && c != '|' as int
    && c != ';' as int && c != '&' as int
  }

  type Ranges = seq<(char, char)>

  /** The scanner's own tables of the two classes: the scheme characters as ranges, and the stop characters. */
  const SCHEME_CHARS: Ranges := [('a', 'z'), ('A', 'Z'), ('0', '9'), ('+', '+'), ('.', '.'), ('-', '-')]
  const URL_STOP: Ranges :=
    [(' ', ' '), ('\t', '\t'), ('\n', '\n'), ('\r', '\r'), ('\U{c}', '\U{c}'), ('\U{b}', '\U{b}'), ('\'', '\''),
     ('\"', '\"'), ('<', '<'), ('>', '>'), ('|', '|'), (';', ';'), ('&', '&')]

  predicate InFrom(c: Code, table: Ranges, i: nat)
    decreases |table| - i
  {
    i < |table| && (table[i].0 as int <= c <= table[i].1 as int || InFrom(c, table, i + 1))
  }

  predicate In(c: Code, table: Ranges) { InFrom(c, table, 0) }

  lemma Unrolled(c: Code, table: Ranges)
    ensures forall i: nat {:trigger InFrom(c, table, i)} | i < |table| ::
              InFrom(c, table, i) <==> table[i].0 as int <= c <= table[i].1 as int || InFrom(c, table, i + 1)
    ensures !InFrom(c, table, |table|)
  {
    forall i: nat | i < |table|
      ensures InFrom(c, table, i) <==> table[i].0 as int <= c <= table[i].1 as int || InFrom(c, table, i + 1)
    {
    }
  }

  lemma SchemeCharIff(c: Code)
    ensures In(c, SCHEME_CHARS) <==> SchemeChar(c)
  {
    Unrolled(c, SCHEME_CHARS);
  }

  lemma BodyCharIff(c: Code)
    ensures !In(c, URL_STOP) && !Space(c) <==> BodyChar(c)
  {
    Unrolled(c, URL_STOP);
  }

  /** The twenty-nine characters of `\s`. */
  lemma SpaceIff(c: Code)
    ensures Space(c) <==> c in [9, 10, 11, 12, 13, 28, 29, 30, 31, 32, 133, 160, 5760, 8192, 8193, 8194, 8195, 8196, 8197,
                                8198, 8199, 8200, 8201, 8202, 8232, 8233, 8239, 8287, 12288]
  {
  }

  predicate SepAt(text: Text, j: int) {
    0 <= j && j + 3 <= |text| && text[j] == ':' as int && text[j + 1] == '/' as int && text[j + 2] == '/' as int
  }

  // ---- the regular expression ----

  /** text[p..k] is in the language of the expression. */
  ghost predicate Matches(text: Text, p: int, k: int) {
    0 <= p < k <= |text| && exists j :: MatchesWith(text, p, j, k)
  }

  /** ... with its `://` at j. */
  ghost predicate MatchesWith(text: Text, p: int, j: int, k: int)
    requires 0 <= p < k <= |text|
  {
    && p < j && j + 3 < k && Letter(text[p]) && SepAt(text, j)
    && (forall i | p < i < j :: SchemeChar(text[i]))
    && (forall i | j + 3 <= i < k :: BodyChar(text[i]))
  }

  function SchemeEnd(text: Text, p: nat): (j: nat)
    requires p <= |text|
    ensures p <= j <= |text| && (forall i | p <= i < j :: SchemeChar(text[i]))
    ensures j < |text| ==> !SchemeChar(text[j])
    decreases |text| - p
  {
    if p < |text| && SchemeChar(text[p]) then SchemeEnd(text, p + 1) else p
  }

  function BodyEnd(text: Text, p: nat): (k: nat)
    requires p <= |text|
    ensures p <= k <= |text| && (forall i | p <= i < k :: BodyChar(text[i]))
    ensures k < |text| ==> !BodyChar(text[k])
    decreases |text| - p
  {
    if p < |text| && BodyChar(text[p]) then BodyEnd(text, p + 1) else p
  }

  /** The end of the greedy match that starts at p. */
  function MatchEnd(text: Text, p: nat): (k: Option<nat>)
    requires p < |text|
    ensures k.Some? ==> p < k.value <= |text|
  {
    var j := SchemeEnd(text, p);
    if Letter(text[p]) && SepAt(text, j) && BodyEnd(text, j + 3) > j + 3 then Some(BodyEnd(text, j + 3)) else None
  }

  /** Greedy is longest: the match at p ends where the longest word of the language that starts at p does. */
  lemma MatchEndIsLongest(text: Text, p: nat)
    requires p < |text|
    ensures MatchEnd(text, p).Some? ==> Matches(text, p, MatchEnd(text, p).value)
    ensures forall k | Matches(text, p, k) :: MatchEnd(text, p).Some? && k <= MatchEnd(text, p).value
  {
    var j := SchemeEnd(text, p);
    if MatchEnd(text, p).Some? {
      assert MatchesWith(text, p, j, MatchEnd(text, p).value);
    }
    forall k | Matches(text, p, k) ensures MatchEnd(text, p).Some? && k <= MatchEnd(text, p).value {
      var j' :| MatchesWith(text, p, j', k);
      assert j' == j;
    }
  }

  /** `URL.findall` from i on: leftmost first, the next search from where the last match ended. */
  function FindAll(text: Text, i: nat): seq<Text>
    requires i <= |text|
    decreases |text| - i
  {
    if i == |text| then []
    else match MatchEnd(text, i)
      case Some(k) => [text[i..k]] + FindAll(text, k)
      case None => FindAll(text, i + 1)
  }

  /** Nothing in the language starts from i up to p. */
  ghost predicate Silent(text: Text, i: nat, p: nat) {
    forall q, k | i <= q < p :: !Matches(text, q, k)
  }

  /** From i on, the results are the longest words at these starts, in order and without overlap, and no word starts
      anywhere between them. */
  ghost predicate Leftmost(text: Text, i: nat, starts: seq<nat>, out: seq<Text>)
    requires i <= |text|
    decreases |starts|
  {
    && |starts| == |out|
    && if starts == [] then Silent(text, i, |text|)
       else
         var (s, k) := (starts[0], starts[0] + |out[0]|);
         && i <= s && k <= |text| && out[0] == text[s..k] && Silent(text, i, s)
         && Matches(text, s, k) && (forall k' | Matches(text, s, k') :: k' <= k)
         && Leftmost(text, k, starts[1..], out[1..])
  }

  lemma {:induction false} FindAllIs(text: Text, i: nat) returns (starts: seq<nat>)
    requires i <= |text|
    ensures Leftmost(text, i, starts, FindAll(text, i))
    decreases |text| - i
  {
    hide MatchEnd, Matches, Leftmost;
    if i == |text| {
      starts := [];
      assert Leftmost(text, i, [], []) by { NothingToFind(text); }
    } else {
      MatchEndIsLongest(text, i);
      match MatchEnd(text, i)
      case Some(k) =>
        var rest := FindAllIs(text, k);
        starts := [i] + rest;
        FoundAt(text, i, k, rest, FindAll(text, k));
      case None =>
        starts := FindAllIs(text, i + 1);
        SilentFrom(text, i, starts, FindAll(text, i + 1));
    }
  }

  lemma NothingToFind(text: Text)
    ensures Leftmost(text, |text|, [], [])
  {
  }

  lemma FoundAt(text: Text, i: nat, k: nat, starts: seq<nat>, out: seq<Text>)
    requires i < k <= |text| && Leftmost(text, k, starts, out)
    requires Matches(text, i, k) && forall k' | Matches(text, i, k') :: k' <= k
    ensures Leftmost(text, i, [i] + starts, [text[i..k]] + out)
  {
    hide Matches;
    assert ([i] + starts)[1..] == starts && ([text[i..k]] + out)[1..] == out && i + |text[i..k]| == k;
  }

  lemma SilentFrom(text: Text, i: nat, starts: seq<nat>, out: seq<Text>)
    requires i < |text| && Leftmost(text, i + 1, starts, out) && forall k :: !Matches(text, i, k)
    ensures Leftmost(text, i, starts, out)
  {
    hide Matches;
  }

  lemma {:induction false} NothingUpTo(text: Text, i: nat, p: nat)
    requires i <= p <= |text| && forall q | i <= q < p :: MatchEnd(text, q).None?
    ensures FindAll(text, i) == FindAll(text, p)
    decreases p - i
  {
    hide MatchEnd;
    if i < p {
      NothingUpTo(text, i + 1, p);
    }
  }

  // ---- the scanner ----

  /** `text.find("://", i)`; -1 when there is none. */
  function Find(text: Text, i: nat): (j: int)
    requires i <= |text|
    ensures j == -1 || (i <= j && SepAt(text, j))
    ensures forall q | i <= q && (j == -1 || q < j) :: !SepAt(text, q)
    decreases |text| - i
  {
    if SepAt(text, i) then i else if i == |text| then -1 else Find(text, i + 1)
  }

  /** With no separator between i and j, a match that starts there has its own at j. */
  lemma SchemeEndsAtSep(text: Text, i: nat, j: nat, q: nat)
    requires i <= q <= j && SepAt(text, j) && forall p | i <= p < j :: !SepAt(text, p)
    ensures MatchEnd(text, q).Some? ==> q < j && SchemeEnd(text, q) == j
  {
  }

  method Urls(text: Text) returns (out: seq<Text>)
    ensures out == FindAll(text, 0)
  {
    hide FindAll, MatchEnd, BodyEnd, SchemeEnd, SchemeChar, BodyChar, Letter, SepAt;
    out := [];
    var i := 0;
    var j := Find(text, i);
    while j != -1
      invariant 0 <= i <= |text| && j == Find(text, i)
      invariant out + FindAll(text, i) == FindAll(text, 0)
      decreases |text| - i
    {
      SepInside(text, j);
      var s := SchemeStart(text, i, j);
      var k := j + 3;
      if s < j {
        k := BodyStop(text, j + 3);
      }
      if s == j || k == j + 3 {
        NoMatchAt(text, i, j, s);
        NothingUpTo(text, i, j + 1);
        i := j + 1;
      } else {
        NothingUpTo(text, i, s);
        MatchIs(text, s, j);
        out := out + [text[s..k]];
        i := k;
      }
      j := Find(text, i);
    }
    NothingLeft(text, i);
  }

  /** Back over the scheme characters, then forward to the first letter; j when there is none. */
  method SchemeStart(text: Text, i: nat, j: nat) returns (s: nat)
    requires i <= j && SepAt(text, j) && forall p | i <= p < j :: !SepAt(text, p)
    ensures i <= s <= j && (s < j ==> Letter(text[s])) && forall q | s <= q < j :: SchemeChar(text[q])
    ensures forall q | i <= q < s :: MatchEnd(text, q).None?
  {
    hide MatchEnd, SchemeEnd, SchemeChar, Letter, InFrom;
    s := j;
    while s > i && In(text[s - 1], SCHEME_CHARS)
      invariant i <= s <= j && forall q | s <= q < j :: SchemeChar(text[q])
    {
      s := s - 1;
      SchemeCharIff(text[s]);
    }
    if s > i {
      SchemeCharIff(text[s - 1]);
    }
    ghost var run := s;
    while s < j && !Letter(text[s])
      invariant run <= s <= j && forall q | run <= q < s :: !Letter(text[q])
    {
      s := s + 1;
    }
    NoMatchBefore(text, i, j, run, s);
  }

  method BodyStop(text: Text, start: nat) returns (k: nat)
    requires start <= |text|
    ensures k == BodyEnd(text, start)
  {
    hide InFrom, Space, BodyChar;
    k := start;
    while k < |text| && !In(text[k], URL_STOP) && !Space(text[k])
      invariant start <= k <= |text| && BodyEnd(text, k) == BodyEnd(text, start)
    {
      BodyCharIff(text[k]);
      k := k + 1;
    }
    if k < |text| {
      BodyCharIff(text[k]);
    }
  }

  lemma SepInside(text: Text, j: int)
    requires SepAt(text, j)
    ensures 0 <= j && j + 3 <= |text|
  {
  }

  /** A run from a letter to a separator that something follows is the match. */
  lemma MatchIs(text: Text, s: nat, j: nat)
    requires s < j && SepAt(text, j) && Letter(text[s]) && forall q | s <= q < j :: SchemeChar(text[q])
    requires BodyEnd(text, j + 3) > j + 3
    ensures MatchEnd(text, s) == Some(BodyEnd(text, j + 3))
    ensures FindAll(text, s) == [text[s..BodyEnd(text, j + 3)]] + FindAll(text, BodyEnd(text, j + 3))
  {
    RunEndsAtSep(text, s, j);
  }

  lemma {:induction false} RunEndsAtSep(text: Text, s: nat, j: nat)
    requires s <= j && SepAt(text, j) && forall q | s <= q < j :: SchemeChar(text[q])
    ensures SchemeEnd(text, s) == j
    decreases j - s
  {
    if s < j {
      RunEndsAtSep(text, s + 1, j);
    }
  }

  /** Nothing matches before the first letter of the run. */
  lemma NoMatchBefore(text: Text, i: nat, j: nat, run: nat, s: nat)
    requires i <= run <= s <= j && SepAt(text, j) && forall p | i <= p < j :: !SepAt(text, p)
    requires run > i ==> !SchemeChar(text[run - 1])
    requires forall q | run <= q < s :: !Letter(text[q])
    ensures forall q | i <= q < s :: MatchEnd(text, q).None?
  {
    forall q | i <= q < s ensures MatchEnd(text, q).None? {
      SchemeEndsAtSep(text, i, j, q);
      assert q < run ==> SchemeEnd(text, q) < run;
    }
  }

  /** Nor up to the separator, when the run holds no letter or nothing follows the separator. */
  lemma NoMatchAt(text: Text, i: nat, j: nat, s: nat)
    requires i <= s <= j && SepAt(text, j) && forall p | i <= p < j :: !SepAt(text, p)
    requires forall q | i <= q < s :: MatchEnd(text, q).None?
    requires s == j || BodyEnd(text, j + 3) == j + 3
    ensures forall q | i <= q < j + 1 :: MatchEnd(text, q).None?
  {
    forall q | s <= q < j + 1 ensures MatchEnd(text, q).None? {
      SchemeEndsAtSep(text, i, j, q);
    }
  }

  lemma NothingLeft(text: Text, i: nat)
    requires i <= |text| && Find(text, i) == -1
    ensures FindAll(text, i) == []
  {
    NothingUpTo(text, i, |text|);
  }
}
