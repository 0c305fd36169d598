/** The canonical form of a record and its inverse (sijill/record.py `compute_record_hash`, verifier/sijill_verify.py
    `canonical_bytes`): a flat JSON object with sorted keys and no whitespace, its strings escaped as section 7 of
    RFC 8259 requires and otherwise printed as they are, and the empty v2 columns left out. */
module Canonical {
  import opened Records
  import Framing

  // ---- strings ----

  const HEX := "0123456789abcdef"

  function HexValue(c: char): Option<nat> {
    if '0' <= c <= '9' then Some(c as int - '0' as int)
    else if 'a' <= c <= 'f' then Some(c as int - 'a' as int + 10)
    else None
  }

  /** One character as `json.dumps(..., ensure_ascii=False)` writes it. */
  function EscapeChar(c: char): string {
    if c == '\"' then "\\\""
    else if c == '\\' then "\\\\"
    else if c == '\n' then "\\n"
    else if c == '\r' then "\\r"
    else if c == '\t' then "\\t"
    else if c == 8 as char then "\\b"
    else if c == 12 as char then "\\f"
    else if c < 32 as char then "\\u00" + [HEX[c as int / 16], HEX[c as int % 16]]
    else [c]
  }

  function Escape(s: string): string {
    if s == "" then "" else EscapeChar(s[0]) + Escape(s[1..])
  }

  /** A printed character stands for itself exactly when it is no quote, no backslash and no control character; the
      seven with a letter take two characters, and the other control characters six, in lower-case hexadecimal. */
  lemma EscapeExact(c: char)
    ensures (EscapeChar(c) == [c] <==> c >= ' ' && c != '\"' && c != '\\')
    ensures EscapeChar(c) != [c] ==> EscapeChar(c)[0] == '\\' && |EscapeChar(c)| == if c in "\"\\\n\r\t\U{8}\U{c}" then 2 else 6
    ensures |EscapeChar(c)| == 6 ==>
              && EscapeChar(c)[1..4] == "u00"
              && (forall i | i == 4 || i == 5 :: '0' <= EscapeChar(c)[i] <= '9' || 'a' <= EscapeChar(c)[i] <= 'f')
  {
    assert forall i | 0 <= i < 16 :: '0' <= HEX[i] <= '9' || 'a' <= HEX[i] <= 'f';
  }

  /** One escape sequence after its backslash: the character and how many characters it took. */
  function Unescape(s: string): Option<(char, nat)> {
    if s == "" then None
    else if s[0] == '\"' then Some(('\"', 1))
    else if s[0] == '\\' then Some(('\\', 1))
    else if s[0] == '/' then Some(('/', 1))
    else if s[0] == 'n' then Some(('\n', 1))
    else if s[0] == 'r' then Some(('\r', 1))
    else if s[0] == 't' then Some(('\t', 1))
    else if s[0] == 'b' then Some((8 as char, 1))
    else if s[0] == 'f' then Some((12 as char, 1))
    else if s[0] == 'u' && |s| >= 5 && HexValue(s[1]).Some? && HexValue(s[2]).Some? && HexValue(s[3]).Some?
            && HexValue(s[4]).Some? then
      var n := ((HexValue(s[1]).value * 16 + HexValue(s[2]).value) * 16 + HexValue(s[3]).value) * 16
               + HexValue(s[4]).value;
      if n < 0xD800 || 0xE000 <= n < 0x10000 then Some((n as char, 5)) else None
    else None
  }

  /** The string up to its closing quote, and what follows the quote. */
  function Unquote(s: string): Option<(string, string)>
    decreases |s|
  {
    if s == "" then None
    else if s[0] == '\"' then Some(("", s[1..]))
    else if s[0] == '\\' then
      match Unescape(s[1..])
      case None => None
      case Some((c, k)) =>
        if 1 + k > |s| then None
        else match Unquote(s[1 + k..])
          case None => None
          case Some((t, rest)) => Some(([c] + t, rest))
    else
      match Unquote(s[1..])
      case None => None
      case Some((t, rest)) => Some(([s[0]] + t, rest))
  }

  lemma UnescapeOne(c: char, rest: string)
    requires EscapeChar(c)[0] == '\\'
    ensures Unescape((EscapeChar(c) + rest)[1..]) == Some((c, |EscapeChar(c)| - 1))
  {
    var e := EscapeChar(c);
    assert (e + rest)[1..] == e[1..] + rest;
    if c < 32 as char && e[1] == 'u' {
      var hi, lo := c as int / 16, c as int % 16;
      assert HexValue(HEX[hi]) == Some(hi) && HexValue(HEX[lo]) == Some(lo);
      assert e[1..] + rest == "u00" + [HEX[hi], HEX[lo]] + rest;
    }
  }

  lemma UnquoteOne(c: char, rest: string)
    ensures Unquote(EscapeChar(c) + rest)
            == match Unquote(rest) case None => None case Some((t, tail)) => Some(([c] + t, tail))
  {
    var e := EscapeChar(c);
    if e[0] == '\\' {
      UnescapeOne(c, rest);
      assert (e + rest)[|e|..] == rest;
    } else {
      assert (e + rest)[1..] == rest;
    }
  }

  /** Reading back an escaped string gives the string, whatever follows its closing quote. */
  lemma {:induction false} UnquoteEscape(s: string, rest: string)
    ensures Unquote(Escape(s) + "\"" + rest) == Some((s, rest))
  {
    if s == "" {
      assert (Escape(s) + "\"" + rest)[1..] == rest;
    } else {
      var tail := Escape(s[1..]) + "\"" + rest;
      assert Escape(s) + "\"" + rest == EscapeChar(s[0]) + tail;
      UnquoteEscape(s[1..], rest);
      UnquoteOne(s[0], tail);
      assert [s[0]] + s[1..] == s;
    }
  }

  // ---- numbers ----

  function Digits(n: nat): string {
    if n < 10 then [HEX[n]] else Digits(n / 10) + [HEX[n % 10]]
  }

  predicate IsDigit(c: char) { '0' <= c <= '9' }

  predicate AllDigits(s: string) { forall i | 0 <= i < |s| :: IsDigit(s[i]) }

  function DigitsValue(s: string): nat
    requires AllDigits(s)
  {
    if s == "" then 0
    else
      assert IsDigit(s[|s| - 1]);
      DigitsValue(s[..|s| - 1]) * 10 + (s[|s| - 1] as int - '0' as int)
  }

  lemma {:induction false} DigitsRead(n: nat)
    ensures Digits(n) != "" && AllDigits(Digits(n)) && DigitsValue(Digits(n)) == n
    ensures Digits(n)[0] == '0' <==> n == 0
  {
    if n >= 10 {
      DigitsRead(n / 10);
      assert Digits(n)[..|Digits(n)| - 1] == Digits(n / 10);
    }
  }

  /** The leading run of decimal digits. */
  function DigitRun(s: string): (k: nat)
    ensures k <= |s| && AllDigits(s[..k])
  {
    if s == "" || !IsDigit(s[0]) then 0
    else
      var k := 1 + DigitRun(s[1..]);
      assert forall i | 0 < i < k :: s[..k][i] == s[1..][..k - 1][i - 1];
      k
  }

  predicate NoDigitFirst(s: string) { s == "" || !IsDigit(s[0]) }

  lemma {:induction false} DigitRunStops(d: string, rest: string)
    requires AllDigits(d) && NoDigitFirst(rest)
    ensures DigitRun(d + rest) == |d|
  {
    if d != "" {
      assert IsDigit(d[0]);
      assert (d + rest)[1..] == d[1..] + rest;
      DigitRunStops(d[1..], rest);
    } else {
      assert d + rest == rest;
    }
  }

  // ---- members and objects ----

  datatype Value = Text(s: string) | Num(n: nat)
  type Member = (string, Value)

  function PrintValue(v: Value): string {
    match v case Text(s) => "\"" + Escape(s) + "\"" case Num(n) => Digits(n)
  }

  function PrintMember(m: Member): string { "\"" + Escape(m.0) + "\":" + PrintValue(m.1) }

  /** The members, separated by commas and closed by the brace. */
  function PrintMembers(ms: seq<Member>): string
    requires ms != []
  {
    if |ms| == 1 then PrintMember(ms[0]) + "}" else PrintMember(ms[0]) + "," + PrintMembers(ms[1..])
  }

  function Print(ms: seq<Member>): string {
    if ms == [] then "{}" else "{" + PrintMembers(ms)
  }

  function ParseValue(s: string): Option<(Value, string)> {
    if s == "" then None
    else if s[0] == '\"' then
      match Unquote(s[1..]) case None => None case Some((t, rest)) => Some((Text(t), rest))
    else
      var k := DigitRun(s);
      if k == 0 then None else Some((Num(DigitsValue(s[..k])), s[k..]))
  }

  function ParseMember(s: string): Option<(Member, string)> {
    if s == "" || s[0] != '\"' then None
    else match Unquote(s[1..])
      case None => None
      case Some((key, rest)) =>
        if rest == "" || rest[0] != ':' then None
        else match ParseValue(rest[1..]) case None => None case Some((v, tail)) => Some(((key, v), tail))
  }

  function ParseMembers(s: string, fuel: nat): Option<seq<Member>>
    decreases fuel
  {
    if fuel == 0 then None
    else match ParseMember(s)
      case None => None
      case Some((m, rest)) =>
        if rest == "}" then Some([m])
        else if rest == "" || rest[0] != ',' then None
        else match ParseMembers(rest[1..], fuel - 1) case None => None case Some(ms) => Some([m] + ms)
  }

  function Parse(s: string): Option<seq<Member>> {
    if s == "{}" then Some([])
    else if s == "" || s[0] != '{' then None
    else ParseMembers(s[1..], |s|)
  }

  lemma ParsePrintNumber(n: nat, rest: string)
    requires NoDigitFirst(rest)
    ensures ParseValue(Digits(n) + rest) == Some((Num(n), rest))
  {
    DigitsRead(n);
    DigitRunStops(Digits(n), rest);
    var p := Digits(n) + rest;
    assert p[..|Digits(n)|] == Digits(n) && p[|Digits(n)|..] == rest;
    assert IsDigit(Digits(n)[0]) && p[0] == Digits(n)[0];
  }

  /** A quoted string, then whatever follows. */
  lemma QuotedReads(s: string, rest: string)
    ensures var p := "\"" + Escape(s) + "\"" + rest;
            p != "" && p[0] == '\"' && Unquote(p[1..]) == Some((s, rest))
  {
    hide Unquote, Escape;
    var p := "\"" + Escape(s) + "\"" + rest;
    assert p[1..] == Escape(s) + "\"" + rest;
    UnquoteEscape(s, rest);
  }

  lemma ParsePrintValue(v: Value, rest: string)
    requires NoDigitFirst(rest)
    ensures ParseValue(PrintValue(v) + rest) == Some((v, rest))
  {
    hide Unquote, Escape, Digits, DigitRun, DigitsValue;
    match v
    case Text(s) => QuotedReads(s, rest);
    case Num(n) => ParsePrintNumber(n, rest);
  }

  lemma ParsePrintMember(m: Member, rest: string)
    requires NoDigitFirst(rest)
    ensures ParseMember(PrintMember(m) + rest) == Some((m, rest))
  {
    hide Unquote, Escape, ParseValue, PrintValue;
    var after := ":" + PrintValue(m.1) + rest;
    assert PrintMember(m) + rest == "\"" + Escape(m.0) + "\"" + after;
    QuotedReads(m.0, after);
    assert after[1..] == PrintValue(m.1) + rest;
    ParsePrintValue(m.1, rest);
  }

  lemma {:induction false} ParsePrintMembers(ms: seq<Member>, fuel: nat)
    requires ms != [] && fuel >= |ms|
    ensures ParseMembers(PrintMembers(ms), fuel) == Some(ms)
  {
    hide ParseMember, PrintMember;
    if |ms| == 1 {
      ParsePrintMember(ms[0], "}");
      assert ms == [ms[0]];
    } else {
      var rest := "," + PrintMembers(ms[1..]);
      assert PrintMembers(ms) == PrintMember(ms[0]) + rest;
      ParsePrintMember(ms[0], rest);
      assert rest[1..] == PrintMembers(ms[1..]);
      ParsePrintMembers(ms[1..], fuel - 1);
      assert ms == [ms[0]] + ms[1..];
    }
  }

  lemma {:induction false} MembersFit(ms: seq<Member>)
    requires ms != []
    ensures |PrintMembers(ms)| >= |ms|
  {
    if |ms| > 1 {
      MembersFit(ms[1..]);
    }
  }

  /** Parsing the print of any members gives them back, in order. */
  lemma ParsePrint(ms: seq<Member>)
    ensures Parse(Print(ms)) == Some(ms)
  {
    if ms != [] {
      MembersFit(ms);
      assert Print(ms)[1..] == PrintMembers(ms);
      ParsePrintMembers(ms, |Print(ms)|);
      assert PrintMembers(ms)[0] == '\"';
    }
  }

  // ---- records ----

  /** The sealed columns in key order; `seq` is the one integer. */
  const NAMES: seq<string> :=
    ["agent_id", "approval_ref", "decision", "ext", "input_hash", "mode", "model_digest", "model_id", "node_id",
     "node_region", "output_hash", "parent_seq", "policy_hash", "policy_id", "prev_hash", "principal", "rule_hits",
     "rulepack_hash", "seq", "source_label", "task_seq", "ts", "type"]

  /** EXT_FIELDS: the v2 columns, left out when empty. */
  const EXTENSIONS: set<string> :=
    {"parent_seq", "source_label", "rulepack_hash", "ext", "agent_id", "principal", "task_seq"}

  /** A stored record without its hash and signature; a v1 row has no v2 columns. */
  datatype Row = Row(pos: nat, cols: map<string, string>)

  function Column(row: Row, name: string): string {
    if name in row.cols then row.cols[name] else ""
  }

  function MembersOf(row: Row, names: seq<string>): seq<Member> {
    if names == [] then []
    else
      var name := names[0];
      (if name == "seq" then [(name, Num(row.pos))]
       else if name in EXTENSIONS && Column(row, name) == "" then []
       else [(name, Text(Column(row, name)))])
      + MembersOf(row, names[1..])
  }

  /** What the record hash is taken over. */
  function CanonicalText(row: Row): string { Print(MembersOf(row, NAMES)) }

  function Lookup(ms: seq<Member>, name: string): Option<Value> {
    if ms == [] then None else if ms[0].0 == name then Some(ms[0].1) else Lookup(ms[1..], name)
  }

  /** Every sealed column present: what the stores hold and `read_rows` yields. */
  ghost predicate FullWidth(row: Row) {
    forall name :: name in row.cols <==> name in NAMES && name != "seq"
  }

  function ColumnIn(ms: seq<Member>, name: string): string {
    match Lookup(ms, name) case Some(Text(s)) => s case _ => ""
  }

  /** The record of a canonical object, with "" for every column it leaves out. */
  function Restore(ms: seq<Member>): Row {
    Row(match Lookup(ms, "seq") case Some(Num(n)) => n case _ => 0,
        map name | name in NAMES && name != "seq" :: ColumnIn(ms, name))
  }

  function Widened(row: Row): Row {
    Row(row.pos, map name | name in NAMES && name != "seq" :: Column(row, name))
  }

  lemma {:induction false} LookupMember(row: Row, names: seq<string>, name: string)
    requires name in names && forall i, j | 0 <= i < j < |names| :: names[i] != names[j]
    ensures Lookup(MembersOf(row, names), name)
            == if name == "seq" then Some(Num(row.pos))
               else if name in EXTENSIONS && Column(row, name) == "" then None
               else Some(Text(Column(row, name)))
  {
    var rest := names[1..];
    assert forall i, j | 0 <= i < j < |rest| :: rest[i] != rest[j];
    MembersHead(row, names);
    if names[0] == name {
      NotAMember(row, rest, name);
    } else {
      LookupMember(row, rest, name);
    }
  }

  lemma {:induction false} NotAMember(row: Row, names: seq<string>, name: string)
    requires name !in names
    ensures Lookup(MembersOf(row, names), name).None?
  {
    if names != [] {
      MembersHead(row, names);
      NotAMember(row, names[1..], name);
    }
  }

  /** The members of the first column, then those of the rest. */
  lemma MembersHead(row: Row, names: seq<string>)
    requires names != []
    ensures var (ms, rest, name) := (MembersOf(row, names), MembersOf(row, names[1..]), names[0]);
            if name == "seq" then ms != [] && ms[0] == (name, Num(row.pos)) && ms[1..] == rest
            else if name in EXTENSIONS && Column(row, name) == "" then ms == rest
            else ms != [] && ms[0] == (name, Text(Column(row, name))) && ms[1..] == rest
  {
  }

  lemma NamesDistinct()
    ensures forall i, j | 0 <= i < j < |NAMES| :: NAMES[i] != NAMES[j]
  {
  }

  // ---- what is left out, and what is not ----

  /** The columns v2 added to the record. */
  predicate IsV2(name: string) {
    || name == "parent_seq" || name == "source_label" || name == "rulepack_hash" || name == "ext" || name == "agent_id"
    || name == "principal" || name == "task_seq"
  }

  lemma ExtensionsAreV2(name: string)
    ensures name in EXTENSIONS <==> IsV2(name)
  {
  }

  lemma {:induction false} MemberIff(row: Row, names: seq<string>, m: Member)
    ensures m in MembersOf(row, names) <==>
            && m.0 in names
            && (if m.0 == "seq" then m.1 == Num(row.pos)
                else m.1 == Text(Column(row, m.0)) && !(IsV2(m.0) && Column(row, m.0) == ""))
  {
    if names != [] {
      MembersHead(row, names);
      ExtensionsAreV2(names[0]);
      hide MembersOf, Column, IsV2, EXTENSIONS;
      MemberIff(row, names[1..], m);
      var ms, rest := MembersOf(row, names), MembersOf(row, names[1..]);
      assert ms == rest || (ms != [] && ms == [ms[0]] + rest);
      assert names == [names[0]] + names[1..];
    }
  }

  /** A v2 column is a member exactly when it is not empty, a v1 column always, and no member carries anything else than
      its column. */
  lemma {:induction false} LeftOutIff(row: Row, name: string)
    requires name in NAMES && name != "seq"
    ensures (exists m :: m in MembersOf(row, NAMES) && m.0 == name) <==> !IsV2(name) || Column(row, name) != ""
    ensures forall m | m in MembersOf(row, NAMES) && m.0 == name :: m.1 == Text(Column(row, name))
    ensures forall m | m in MembersOf(row, NAMES) && IsV2(m.0) :: m.1 != Text("")
  {
    MemberIff(row, NAMES, (name, Text(Column(row, name))));
    forall m ensures m in MembersOf(row, NAMES) ==>
                       if m.0 == "seq" then m.1 == Num(row.pos)
                       else m.1 == Text(Column(row, m.0)) && !(IsV2(m.0) && Column(row, m.0) == "")
    {
      MemberIff(row, NAMES, m);
    }
    hide MembersOf, NAMES;
  }

  /** A row without v2 columns is printed with the sixteen v1 columns and no other. */
  lemma {:induction false} V1Members(row: Row, m: Member)
    requires forall name | IsV2(name) :: Column(row, name) == ""
    ensures m in MembersOf(row, NAMES) <==>
            || m == ("seq", Num(row.pos))
            || (m.1 == Text(Column(row, m.0))
                && (m.0 == "approval_ref" || m.0 == "decision" || m.0 == "input_hash" || m.0 == "mode"
                    || m.0 == "model_digest" || m.0 == "model_id" || m.0 == "node_id" || m.0 == "node_region"
                    || m.0 == "output_hash" || m.0 == "policy_hash" || m.0 == "policy_id" || m.0 == "prev_hash"
                    || m.0 == "rule_hits" || m.0 == "ts" || m.0 == "type"))
  {
    MemberIff(row, NAMES, m);
    V1Names(m.0);
    hide MembersOf, Column, NAMES;
  }

  lemma V1Names(name: string)
    ensures name in NAMES && name != "seq" && !IsV2(name) <==>
            || name == "approval_ref" || name == "decision" || name == "input_hash" || name == "mode"
            || name == "model_digest" || name == "model_id" || name == "node_id" || name == "node_region"
            || name == "output_hash" || name == "policy_hash" || name == "policy_id" || name == "prev_hash"
            || name == "rule_hits" || name == "ts" || name == "type"
    ensures "seq" in NAMES
  {
  }

  /** Before by code points: at the first character in which they differ, or as a proper prefix. */
  predicate PrecedesAt(a: string, b: string, k: nat) {
    k < |b| && k <= |a| && a[..k] == b[..k] && (k == |a| || a[k] < b[k])
  }

  ghost predicate Precedes(a: string, b: string) { exists k: nat :: PrecedesAt(a, b, k) }

  lemma PrecedesTransitive(a: string, b: string, c: string)
    requires Precedes(a, b) && Precedes(b, c)
    ensures Precedes(a, c)
  {
    var j: nat :| PrecedesAt(a, b, j);
    var k: nat :| PrecedesAt(b, c, k);
    var i := if j < k then j else k;
    assert a[..i] == a[..j][..i] && b[..i] == b[..j][..i] == b[..k][..i] && c[..i] == c[..k][..i];
    assert b[..k] == c[..k] && (i < k ==> b[i] == b[..k][i] == c[..k][i] == c[i]);
    assert i < j ==> a[i] == a[..j][i] == b[..j][i] == b[i];
    assert PrecedesAt(a, c, i);
  }

  /** Where each key first differs from the next. */
  const DIFFERS: seq<nat> := [1, 0, 0, 0, 0, 4, 6, 0, 5, 0, 0, 1, 7, 1, 2, 0, 4, 0, 1, 0, 1, 1]

  lemma NextName(i: nat)
    requires i + 1 < |NAMES|
    ensures Precedes(NAMES[i], NAMES[i + 1])
  {
    if i < 11 {
      assert PrecedesAt(NAMES[i], NAMES[i + 1], DIFFERS[i]);
    } else {
      assert PrecedesAt(NAMES[i], NAMES[i + 1], DIFFERS[i]);
    }
  }

  lemma {:induction false} NamesSorted(i: nat, j: nat)
    requires i < j < |NAMES|
    ensures Precedes(NAMES[i], NAMES[j])
  {
    hide NAMES, Precedes;
    if j == i + 1 {
      NextName(i);
    } else {
      NamesSorted(i, j - 1);
      NextName(j - 1);
      PrecedesTransitive(NAMES[i], NAMES[j - 1], NAMES[j]);
    }
  }

  /** Every canonical object has its keys in strictly increasing order. */
  lemma {:induction false} KeysSorted(row: Row, i: nat, j: nat)
    requires i < j < |MembersOf(row, NAMES)|
    ensures Precedes(MembersOf(row, NAMES)[i].0, MembersOf(row, NAMES)[j].0)
  {
    forall a, b | 0 <= a < b < |NAMES| ensures Precedes(NAMES[a], NAMES[b]) {
      NamesSorted(a, b);
    }
    hide NAMES, Precedes;
    MembersSorted(row, NAMES, i, j);
  }

  lemma {:induction false} MembersSorted(row: Row, names: seq<string>, i: nat, j: nat)
    requires forall a, b | 0 <= a < b < |names| :: Precedes(names[a], names[b])
    requires i < j < |MembersOf(row, names)|
    ensures Precedes(MembersOf(row, names)[i].0, MembersOf(row, names)[j].0)
  {
    MembersHead(row, names);
    var ms, rest := MembersOf(row, names), MembersOf(row, names[1..]);
    assert forall a | 0 <= a < |names| - 1 :: names[1..][a] == names[a + 1];
    hide MembersOf, Precedes;
    if ms == rest {
      MembersSorted(row, names[1..], i, j);
    } else if i > 0 {
      MembersSorted(row, names[1..], i - 1, j - 1);
      assert ms[i] == ms[1..][i - 1] && ms[j] == ms[1..][j - 1];
    } else {
      assert ms[j] == ms[1..][j - 1];
      MemberIff(row, names[1..], rest[j - 1]);
      var b :| 0 <= b < |names[1..]| && names[1..][b] == rest[j - 1].0;
      assert Precedes(names[0], names[b + 1]);
    }
  }

  /** Nothing is lost: parsing the canonical text and restoring the columns it leaves out gives the record back. */
  lemma CanonicalRoundTrip(row: Row)
    requires FullWidth(row)
    ensures Parse(CanonicalText(row)).Some? && Restore(Parse(CanonicalText(row)).value) == row
  {
    hide Parse, Print, MembersOf, Lookup;
    var ms := MembersOf(row, NAMES);
    ParsePrint(ms);
    NamesDistinct();
    LookupMember(row, NAMES, "seq");
    forall name | name in NAMES && name != "seq" ensures ColumnIn(ms, name) == Column(row, name) {
      LookupMember(row, NAMES, name);
    }
    assert Restore(ms).cols == row.cols;
  }

  /** The canonical text determines every sealed column. */
  lemma CanonicalInjective(a: Row, b: Row)
    requires FullWidth(a) && FullWidth(b) && CanonicalText(a) == CanonicalText(b)
    ensures a == b
  {
    hide CanonicalText, Parse, Restore;
    CanonicalRoundTrip(a);
    CanonicalRoundTrip(b);
  }

  /** The code points of a text; a Dafny character is a Unicode scalar value, as RFC 3629 encodes. */
  function Codes(s: string): seq<Framing.Code> {
    seq(|s|, i requires 0 <= i < |s| => s[i] as int)
  }

  /** `canonical_bytes`: what the record hash is taken over. */
  function CanonicalBytes(row: Row): seq<Framing.Byte> { Framing.Utf8(Codes(CanonicalText(row))) }

  lemma CodesInjective(s: string, t: string)
    requires Codes(s) == Codes(t)
    ensures s == t
  {
    assert |s| == |Codes(s)| == |t|;
    forall i | 0 <= i < |s| ensures s[i] == t[i] {
      assert Codes(s)[i] == Codes(t)[i];
    }
  }

  /** The bytes are equal only if the texts are. */
  lemma BytesOfText(a: Row, b: Row)
    ensures CanonicalBytes(a) == CanonicalBytes(b) <==> CanonicalText(a) == CanonicalText(b)
  {
    hide CanonicalText, Framing.Utf8;
    if CanonicalBytes(a) == CanonicalBytes(b) {
      Framing.Utf8Injective(Codes(CanonicalText(a)), Codes(CanonicalText(b)));
      CodesInjective(CanonicalText(a), CanonicalText(b));
    }
  }

  /** The canonical bytes determine every sealed column. */
  lemma CanonicalBytesInjective(a: Row, b: Row)
    requires FullWidth(a) && FullWidth(b) && CanonicalBytes(a) == CanonicalBytes(b)
    ensures a == b
  {
    hide CanonicalText, CanonicalBytes, FullWidth;
    BytesOfText(a, b);
    CanonicalInjective(a, b);
  }

  lemma {:induction false} WidenedMembers(row: Row, names: seq<string>)
    requires forall i | 0 <= i < |names| :: names[i] in NAMES
    ensures MembersOf(Widened(row), names) == MembersOf(row, names)
  {
    if names != [] {
      var rest := names[1..];
      assert forall i | 0 <= i < |rest| :: rest[i] == names[i + 1];
      WidenedMembers(row, rest);
      assert names[0] in NAMES;
      assert names[0] != "seq" ==> Column(Widened(row), names[0]) == Column(row, names[0]);
    }
  }

  /** A record written before v2 hashes the same once the v2 columns are added to its row. */
  lemma WideningKeepsHash(row: Row)
    ensures FullWidth(Widened(row)) && CanonicalText(Widened(row)) == CanonicalText(row)
    ensures CanonicalBytes(Widened(row)) == CanonicalBytes(row)
  {
    WidenedMembers(row, NAMES);
    hide MembersOf, Print;
  }
}
