/** The invisible-Unicode stripper (guard/unicode.py): what is flagged, and when one stripping pass leaves nothing to
    flag. The Unicode database is a parameter. */
module InvisibleUnicode {
  import opened Records

  type Code = c: int | 0 <= c < 0x110000
  type Text = seq<Code>

  /** `unicodedata.category`: "Cn", and a category in L or M. */
  datatype Database = Database(unassigned: Code -> bool, letterOrMark: Code -> bool)

  predicate Joiner(c: Code) { c == 0x200C || c == 0x200D }

  predicate JoiningScript(c: Code) {
    0x0600 <= c <= 0x06FF || 0x0700 <= c <= 0x074F || 0x0750 <= c <= 0x077F || 0x0860 <= c <= 0x08FF
    || 0x0900 <= c <= 0x0AFF || 0x0B80 <= c <= 0x0DFF || 0x0F00 <= c <= 0x0FFF || 0x1000 <= c <= 0x109F
    || 0x1780 <= c <= 0x18AF || 0xFB50 <= c <= 0xFDFF || 0xFE70 <= c <= 0xFEFC
  }

  predicate Pictographic(c: Code) {
    c == 0xA9 || c == 0xAE || c == 0x203C || c == 0x2049 || c == 0x2122 || c == 0x2139 || 0x2194 <= c <= 0x21AA
    || 0x231A <= c <= 0x23FF || c == 0x24C2 || 0x25AA <= c <= 0x27BF || 0x2934 <= c <= 0x2935 || 0x2B05 <= c <= 0x2B55
    || c == 0x3030 || c == 0x303D || 0x3297 <= c <= 0x3299 || 0x1F000 <= c <= 0x1FAFF
  }

  predicate EmojiPart(c: Code) { 0xFE00 <= c <= 0xFE0F || 0x1F3FB <= c <= 0x1F3FF }

  predicate ZeroWidth(c: Code) { 0x200B <= c <= 0x200D || c == 0x2060 || c == 0xFEFF || c == 0x180E }

  predicate Suspicious(u: Database, c: Code) {
    if 0xD800 <= c <= 0xDFFF then true
    else if c == 9 || c == 10 || c == 13 || 0xFE00 <= c <= 0xFE0F || 0xE0100 <= c <= 0xE01EF then false
    else
      ZeroWidth(c) || 0x2061 <= c <= 0x2064 || c == 0xAD || 0xE0000 <= c <= 0xE007F || 0x202A <= c <= 0x202E
      || 0x2066 <= c <= 0x2069 || 0xE000 <= c <= 0xF8FF || c >= 0xF0000 || c <= 0x1F || 0x7F <= c <= 0x9F
      || u.unassigned(c)
  }

  // ---- the neighbours of a joiner ----

  /** The nearest code point at or before j that is not an emoji part. */
  function LeftOf(t: Text, j: int): Option<Code>
    requires j < |t|
    decreases j
  {
    if j < 0 then None else if EmojiPart(t[j]) then LeftOf(t, j - 1) else Some(t[j])
  }

  function RightOf(t: Text, j: int): Option<Code>
    requires 0 <= j
    decreases |t| - j
  {
    if j >= |t| then None else if EmojiPart(t[j]) then RightOf(t, j + 1) else Some(t[j])
  }

  /** `_neighbour`: past the variation selectors and skin tones beside offset i. */
  method Neighbour(t: Text, i: nat, step: int) returns (c: Option<Code>)
    requires i < |t| && (step == 1 || step == -1)
    ensures c == if step == 1 then RightOf(t, i + 1) else LeftOf(t, i - 1)
  {
    var j := i + step;
    while 0 <= j < |t| && EmojiPart(t[j])
      invariant -1 <= j <= |t|
      invariant step == 1 ==> 0 <= j && RightOf(t, j) == RightOf(t, i + 1)
      invariant step == -1 ==> j < |t| && LeftOf(t, j) == LeftOf(t, i - 1)
      decreases if step == 1 then |t| - j else j + 1
    {
      j := j + step;
    }
    return if 0 <= j < |t| then Some(t[j]) else None;
  }

  predicate Letter(u: Database, c: Option<Code>) {
    c.Some? && JoiningScript(c.value) && u.letterOrMark(c.value)
  }

  /** The two neighbours between which a joiner belongs: an emoji sequence, or a script that joins. */
  predicate Joins(u: Database, joiner: Code, left: Option<Code>, right: Option<Code>) {
    || (joiner == 0x200D && left.Some? && Pictographic(left.value) && right.Some? && Pictographic(right.value))
    || (Letter(u, left) && Letter(u, right))
  }

  predicate ContextOk(u: Database, t: Text, i: nat)
    requires i < |t|
  {
    || (t[i] == 0xFEFF && i == 0)
    || (Joiner(t[i]) && Joins(u, t[i], LeftOf(t, i - 1), RightOf(t, i + 1)))
  }

  predicate Flag(u: Database, t: Text, i: nat)
    requires i < |t|
  {
    Suspicious(u, t[i]) && !ContextOk(u, t, i)
  }

  // ---- the tables, and what is flagged, said of the text alone ----

  type Ranges = seq<(int, int)>

  const JOINING_SCRIPTS: Ranges :=
    [(0x0600, 0x06FF), (0x0700, 0x074F), (0x0750, 0x077F), (0x0860, 0x08FF), (0x0900, 0x0AFF), (0x0B80, 0x0DFF),
     (0x0F00, 0x0FFF), (0x1000, 0x109F), (0x1780, 0x18AF), (0xFB50, 0xFDFF), (0xFE70, 0xFEFC)]

  const PICTOGRAPHIC: Ranges :=
    [(0x00A9, 0x00A9), (0x00AE, 0x00AE), (0x203C, 0x203C), (0x2049, 0x2049), (0x2122, 0x2122), (0x2139, 0x2139),
     (0x2194, 0x21AA), (0x231A, 0x23FF), (0x24C2, 0x24C2), (0x25AA, 0x27BF), (0x2934, 0x2935), (0x2B05, 0x2B55),
     (0x3030, 0x3030), (0x303D, 0x303D), (0x3297, 0x3299), (0x1F000, 0x1FAFF)]

  const EMOJI_PARTS: Ranges := [(0xFE00, 0xFE0F), (0x1F3FB, 0x1F3FF)]

  /** The suspicious code points in order: controls but tab, LF and CR, the soft hyphen, zero-width and invisible
      operators, bidirectional controls, surrogates and the private use area, the byte order mark, tags and the last two
      planes. */
  const SUSPECTS: Ranges :=
    [(0x0000, 0x0008), (0x000B, 0x000C), (0x000E, 0x001F), (0x007F, 0x009F), (0x00AD, 0x00AD), (0x180E, 0x180E),
     (0x200B, 0x200D), (0x202A, 0x202E), (0x2060, 0x2064), (0x2066, 0x2069), (0xD800, 0xF8FF), (0xFEFF, 0xFEFF),
     (0xE0000, 0xE007F), (0xF0000, 0x10FFFF)]

  /** Never suspicious, assigned or not. */
  const ALLOWED: Ranges := [(0x0009, 0x000A), (0x000D, 0x000D), (0xFE00, 0xFE0F), (0xE0100, 0xE01EF)]

  predicate InFrom(c: Code, table: Ranges, i: nat)
    decreases |table| - i
  {
    i < |table| && (table[i].0 <= c <= table[i].1 || InFrom(c, table, i + 1))
  }

  /** `_in`. */
  predicate In(c: Code, table: Ranges) { InFrom(c, table, 0) }

  lemma Unrolled(c: Code, table: Ranges)
    ensures forall i: nat {:trigger InFrom(c, table, i)} | i < |table| ::
              InFrom(c, table, i) <==> table[i].0 <= c <= table[i].1 || InFrom(c, table, i + 1)
    ensures !InFrom(c, table, |table|)
  {
    forall i: nat | i < |table| ensures InFrom(c, table, i) <==> table[i].0 <= c <= table[i].1 || InFrom(c, table, i + 1) {
    }
  }

  lemma JoiningScriptIff(c: Code)
    ensures In(c, JOINING_SCRIPTS) <==> JoiningScript(c)
  {
    Unrolled(c, JOINING_SCRIPTS);
  }

  lemma PictographicIff(c: Code)
    ensures In(c, PICTOGRAPHIC) <==> Pictographic(c)
  {
    Unrolled(c, PICTOGRAPHIC);
    assert InFrom(c, PICTOGRAPHIC, 8) <==>
           || c == 0x24C2 || 0x25AA <= c <= 0x27BF || 0x2934 <= c <= 0x2935 || 0x2B05 <= c <= 0x2B55 || c == 0x3030
           || c == 0x303D || 0x3297 <= c <= 0x3299 || 0x1F000 <= c <= 0x1FAFF;
  }

  lemma EmojiPartIff(c: Code)
    ensures In(c, EMOJI_PARTS) <==> EmojiPart(c)
  {
    Unrolled(c, EMOJI_PARTS);
  }

  lemma SuspiciousIff(u: Database, c: Code)
    ensures Suspicious(u, c) <==> In(c, SUSPECTS) || (u.unassigned(c) && !In(c, ALLOWED))
  {
    Unrolled(c, SUSPECTS);
    Unrolled(c, ALLOWED);
    assert InFrom(c, SUSPECTS, 7) <==>
           || 0x202A <= c <= 0x202E || 0x2060 <= c <= 0x2064 || 0x2066 <= c <= 0x2069 || 0xD800 <= c <= 0xF8FF
           || c == 0xFEFF || 0xE0000 <= c <= 0xE007F || 0xF0000 <= c <= 0x10FFFF;
  }

  // ---- stripping ----

  /** The unflagged code points among the first n. */
  function Kept(u: Database, t: Text, n: nat): Text
    requires n <= |t|
  {
    if n == 0 then [] else Kept(u, t, n - 1) + (if Flag(u, t, n - 1) then [] else [t[n - 1]])
  }

  function Strip(u: Database, t: Text): Text { Kept(u, t, |t|) }

  /** `flagged` is empty. */
  ghost predicate Clean(u: Database, t: Text) {
    forall i | 0 <= i < |t| :: !Flag(u, t, i)
  }

  /** Where the code point at offset i goes, if it is kept. */
  function Place(u: Database, t: Text, i: nat): nat
    requires i <= |t|
  {
    |Kept(u, t, i)|
  }

  lemma {:induction false} PlacesGrow(u: Database, t: Text, i: nat, j: nat)
    requires i <= j <= |t|
    ensures Kept(u, t, i) <= Kept(u, t, j)
    ensures i < j && !Flag(u, t, i) ==> Place(u, t, i) < Place(u, t, j)
    decreases j
  {
    hide Flag;
    if i < j {
      PlacesGrow(u, t, i, j - 1);
    }
  }

  /** A kept code point is found at its place. */
  lemma KeptAt(u: Database, t: Text, i: nat)
    requires i < |t| && !Flag(u, t, i)
    ensures Place(u, t, i) < |Strip(u, t)| && Strip(u, t)[Place(u, t, i)] == t[i]
  {
    hide Flag;
    PlacesGrow(u, t, i + 1, |t|);
    assert Kept(u, t, i + 1) == Kept(u, t, i) + [t[i]];
  }

  /** Every place holds a kept code point. */
  lemma {:induction false} KeptFrom(u: Database, t: Text, n: nat, p: nat) returns (i: nat)
    requires n <= |t| && p < |Kept(u, t, n)|
    ensures i < n && !Flag(u, t, i) && Place(u, t, i) == p && Kept(u, t, n)[p] == t[i]
    decreases n
  {
    hide Flag;
    if p < |Kept(u, t, n - 1)| {
      i := KeptFrom(u, t, n - 1, p);
    } else {
      i := n - 1;
    }
  }

  // ---- one pass ----

  /** The nearest code point at or before j that the pass keeps and that is not an emoji part. */
  function KeptLeft(u: Database, t: Text, j: int): Option<Code>
    requires j < |t|
    decreases j
  {
    if j < 0 then None else if EmojiPart(t[j]) || Flag(u, t, j) then KeptLeft(u, t, j - 1) else Some(t[j])
  }

  function KeptRight(u: Database, t: Text, j: nat): Option<Code>
    decreases |t| - j
  {
    if j >= |t| then None else if EmojiPart(t[j]) || Flag(u, t, j) then KeptRight(u, t, j + 1) else Some(t[j])
  }

  lemma {:induction false} LeftOfPrefix(s: Text, longer: Text, j: int)
    requires s <= longer && j < |s|
    ensures LeftOf(s, j) == LeftOf(longer, j)
    decreases j
  {
    hide EmojiPart;
    if j >= 0 {
      LeftOfPrefix(s, longer, j - 1);
    }
  }

  /** After the pass, the left neighbour of a place is the nearest kept one. */
  lemma {:induction false} LeftAfter(u: Database, t: Text, n: nat)
    requires n <= |t|
    ensures LeftOf(Kept(u, t, n), Place(u, t, n) - 1) == KeptLeft(u, t, n - 1)
  {
    hide Flag, EmojiPart;
    if n > 0 {
      LeftAfter(u, t, n - 1);
      LeftOfPrefix(Kept(u, t, n - 1), Kept(u, t, n), Place(u, t, n - 1) - 1);
    }
  }

  lemma {:induction false} RightAfter(u: Database, t: Text, n: nat)
    requires n <= |t|
    ensures RightOf(Strip(u, t), Place(u, t, n)) == KeptRight(u, t, n)
    decreases |t| - n
  {
    hide Flag, EmojiPart;
    if n < |t| {
      RightAfter(u, t, n + 1);
      if !Flag(u, t, n) {
        KeptAt(u, t, n);
      }
    }
  }

  /** A code point that is kept is flagged at its place exactly when it is a joiner whose nearest kept neighbours it
      does not join. */
  lemma FlaggedAfter(u: Database, t: Text, i: nat)
    requires i < |t| && !Flag(u, t, i)
    ensures Place(u, t, i) < |Strip(u, t)| && Strip(u, t)[Place(u, t, i)] == t[i]
    ensures Flag(u, Strip(u, t), Place(u, t, i)) <==>
            Joiner(t[i]) && !Joins(u, t[i], KeptLeft(u, t, i - 1), KeptRight(u, t, i + 1))
  {
    KeptAt(u, t, i);
    LeftAfter(u, t, i);
    PlacesGrow(u, t, i, |t|);
    LeftOfPrefix(Kept(u, t, i), Strip(u, t), Place(u, t, i) - 1);
    RightAfter(u, t, i + 1);
    assert Place(u, t, i + 1) == Place(u, t, i) + 1;
    hide Joins, Kept, Strip, LeftOf, RightOf, KeptLeft, KeptRight;
    JoinerIsSuspicious(u, t[i]);
  }

  lemma JoinerIsSuspicious(u: Database, c: Code)
    ensures Joiner(c) ==> Suspicious(u, c)
  {
  }

  /** Exactly when one pass leaves nothing flagged, for every text: when every joiner it keeps still joins its nearest
      kept neighbours. */
  lemma {:induction false} CleanIff(u: Database, t: Text)
    ensures Clean(u, Strip(u, t)) <==>
            forall i | 0 <= i < |t| && Joiner(t[i]) && !Flag(u, t, i) ::
              Joins(u, t[i], KeptLeft(u, t, i - 1), KeptRight(u, t, i + 1))
  {
    hide Flag, Joins, Joiner, Kept, KeptLeft, KeptRight;
    var s := Strip(u, t);
    forall i | 0 <= i < |t| && !Flag(u, t, i)
      ensures Clean(u, s) ==> Joiner(t[i]) ==> Joins(u, t[i], KeptLeft(u, t, i - 1), KeptRight(u, t, i + 1))
    {
      FlaggedAfter(u, t, i);
    }
    if forall i | 0 <= i < |t| && Joiner(t[i]) && !Flag(u, t, i) ::
         Joins(u, t[i], KeptLeft(u, t, i - 1), KeptRight(u, t, i + 1)) {
      forall p | 0 <= p < |s| ensures !Flag(u, s, p) {
        var i := KeptFrom(u, t, |t|, p);
        FlaggedAfter(u, t, i);
      }
    }
  }

  // ---- texts and databases for which one pass suffices ----

  /** A code point that is dropped and that a kept joiner may have needed. */
  predicate Breaks(u: Database, c: Code) {
    Suspicious(u, c) && !EmojiPart(c) && (Pictographic(c) || (JoiningScript(c) && u.letterOrMark(c)))
  }

  lemma {:induction false} LeftIndex(t: Text, j: int) returns (l: int)
    requires j < |t| && LeftOf(t, j).Some?
    ensures 0 <= l <= j && t[l] == LeftOf(t, j).value && !EmojiPart(t[l])
    ensures forall k | l < k <= j :: EmojiPart(t[k])
    decreases j
  {
    hide EmojiPart;
    if EmojiPart(t[j]) {
      l := LeftIndex(t, j - 1);
    } else {
      l := j;
    }
  }

  lemma {:induction false} KeptLeftFound(u: Database, t: Text, l: nat, j: int)
    requires l <= j < |t| && !EmojiPart(t[l]) && !Flag(u, t, l) && forall k | l < k <= j :: EmojiPart(t[k])
    ensures KeptLeft(u, t, j) == Some(t[l])
    decreases j
  {
    hide EmojiPart, Flag;
    if l < j {
      KeptLeftFound(u, t, l, j - 1);
    }
  }

  lemma {:induction false} RightIndex(t: Text, j: int) returns (r: int)
    requires 0 <= j && RightOf(t, j).Some?
    ensures j <= r < |t| && t[r] == RightOf(t, j).value && !EmojiPart(t[r])
    ensures forall k | j <= k < r :: EmojiPart(t[k])
    decreases |t| - j
  {
    hide EmojiPart;
    if EmojiPart(t[j]) {
      r := RightIndex(t, j + 1);
    } else {
      r := j;
    }
  }

  lemma {:induction false} KeptRightFound(u: Database, t: Text, j: nat, r: nat)
    requires j <= r < |t| && !EmojiPart(t[r]) && !Flag(u, t, r) && forall k | j <= k < r :: EmojiPart(t[k])
    ensures KeptRight(u, t, j) == Some(t[r])
    decreases r - j
  {
    hide EmojiPart, Flag;
    if j < r {
      KeptRightFound(u, t, j + 1, r);
    }
  }

  // ---- what is flagged and what is left, said of the text alone ----

  ghost predicate LastBefore(t: Text, i: int, p: int) {
    0 <= p < i <= |t| && !In(t[p], EMOJI_PARTS) && forall q | p < q < i :: In(t[q], EMOJI_PARTS)
  }

  ghost predicate FirstAfter(t: Text, i: int, p: int) {
    0 <= i < p < |t| && !In(t[p], EMOJI_PARTS) && forall q | i < q < p :: In(t[q], EMOJI_PARTS)
  }

  lemma {:induction false} LeftFound(t: Text, l: int, j: int)
    requires j < |t| && LastBefore(t, j + 1, l)
    ensures LeftOf(t, j) == Some(t[l])
    decreases j
  {
    EmojiPartIff(t[j]);
    hide EmojiPart, In;
    if l < j {
      LeftFound(t, l, j - 1);
    }
  }

  lemma {:induction false} RightFound(t: Text, j: int, r: int)
    requires 0 < j && FirstAfter(t, j - 1, r)
    ensures RightOf(t, j) == Some(t[r])
    decreases r - j
  {
    EmojiPartIff(t[j]);
    hide EmojiPart, In;
    if j < r {
      RightFound(t, j + 1, r);
    }
  }

  /** The joiner stands between the nearest other code points of an emoji sequence or of a script that joins. */
  ghost predicate Between(u: Database, t: Text, i: nat, l: int, r: int)
    requires i < |t|
  {
    && LastBefore(t, i, l) && FirstAfter(t, i, r)
    && ((t[i] == 0x200D && In(t[l], PICTOGRAPHIC) && In(t[r], PICTOGRAPHIC))
        || (In(t[l], JOINING_SCRIPTS) && u.letterOrMark(t[l]) && In(t[r], JOINING_SCRIPTS) && u.letterOrMark(t[r])))
  }

  lemma BetweenJoins(u: Database, t: Text, i: nat, l: int, r: int)
    requires i < |t| && LastBefore(t, i, l) && FirstAfter(t, i, r)
    ensures LeftOf(t, i - 1) == Some(t[l]) && RightOf(t, i + 1) == Some(t[r])
    ensures Joins(u, t[i], LeftOf(t, i - 1), RightOf(t, i + 1)) <==> Between(u, t, i, l, r)
  {
    LeftFound(t, l, i - 1);
    RightFound(t, i + 1, r);
    PictographicIff(t[l]);
    PictographicIff(t[r]);
    JoiningScriptIff(t[l]);
    JoiningScriptIff(t[r]);
    hide In, LeftOf, RightOf, Pictographic, JoiningScript, LastBefore, FirstAfter;
  }

  /** A code point is flagged exactly when it is suspicious, no byte order mark at the start, and no joiner between what
      it joins. */
  lemma {:induction false} FlagIff(u: Database, t: Text, i: nat)
    requires i < |t|
    ensures Flag(u, t, i) <==>
            && (In(t[i], SUSPECTS) || (u.unassigned(t[i]) && !In(t[i], ALLOWED)))
            && !(t[i] == 0xFEFF && i == 0)
            && !((t[i] == 0x200C || t[i] == 0x200D) && exists l, r :: Between(u, t, i, l, r))
  {
    SuspiciousIff(u, t[i]);
    hide In, Suspicious, Joins, LeftOf, RightOf, EmojiPart, Between;
    if Joins(u, t[i], LeftOf(t, i - 1), RightOf(t, i + 1)) {
      JoinsNeeds(u, t[i], LeftOf(t, i - 1), RightOf(t, i + 1));
      var l := LeftIndex(t, i - 1);
      var r := RightIndex(t, i + 1);
      forall q | 0 <= q < |t| ensures In(t[q], EMOJI_PARTS) <==> EmojiPart(t[q]) {
        EmojiPartIff(t[q]);
      }
      BetweenJoins(u, t, i, l, r);
    }
    if l, r :| Between(u, t, i, l, r) {
      BetweenNear(u, t, i, l, r);
      BetweenJoins(u, t, i, l, r);
    }
  }

  lemma BetweenNear(u: Database, t: Text, i: nat, l: int, r: int)
    requires i < |t| && Between(u, t, i, l, r)
    ensures LastBefore(t, i, l) && FirstAfter(t, i, r)
  {
  }

  /** Place p of the stripped text is that of an unflagged code point. */
  ghost predicate ComesFrom(u: Database, t: Text, p: nat) {
    exists i :: 0 <= i < |t| && !Flag(u, t, i) && Place(u, t, i) == p
  }

  /** One pass leaves the unflagged code points, in their order, and nothing else. */
  lemma {:induction false} StripIs(u: Database, t: Text)
    ensures forall i | 0 <= i < |t| && !Flag(u, t, i) ::
              Place(u, t, i) < |Strip(u, t)| && Strip(u, t)[Place(u, t, i)] == t[i]
    ensures forall i, j | 0 <= i < j < |t| && !Flag(u, t, i) && !Flag(u, t, j) :: Place(u, t, i) < Place(u, t, j)
    ensures forall p | 0 <= p < |Strip(u, t)| :: ComesFrom(u, t, p)
  {
    hide Flag, Kept, Place;
    forall i | 0 <= i < |t| && !Flag(u, t, i)
      ensures Place(u, t, i) < |Strip(u, t)| && Strip(u, t)[Place(u, t, i)] == t[i]
    {
      KeptAt(u, t, i);
    }
    forall i, j | 0 <= i < j < |t| && !Flag(u, t, i) && !Flag(u, t, j) ensures Place(u, t, i) < Place(u, t, j) {
      PlacesGrow(u, t, i, j);
    }
    forall p | 0 <= p < |Strip(u, t)| ensures ComesFrom(u, t, p) {
      var i := KeptFrom(u, t, |t|, p);
    }
  }

  /** What a joiner needs beside it is kept, unless it breaks. */
  lemma NeededIsKept(u: Database, t: Text, i: nat)
    requires i < |t| && !Breaks(u, t[i]) && !EmojiPart(t[i])
    requires Pictographic(t[i]) || (JoiningScript(t[i]) && u.letterOrMark(t[i]))
    ensures !Flag(u, t, i)
  {
    hide Pictographic, JoiningScript;
  }

  lemma JoinsNeeds(u: Database, joiner: Code, left: Option<Code>, right: Option<Code>)
    requires Joins(u, joiner, left, right)
    ensures left.Some? && (Pictographic(left.value) || (JoiningScript(left.value) && u.letterOrMark(left.value)))
    ensures right.Some? && (Pictographic(right.value) || (JoiningScript(right.value) && u.letterOrMark(right.value)))
  {
    hide Pictographic, JoiningScript;
  }

  /** A kept joiner loses neither neighbour. */
  lemma NeighboursKept(u: Database, t: Text, i: nat)
    requires i < |t| && Joins(u, t[i], LeftOf(t, i - 1), RightOf(t, i + 1))
    requires forall k | 0 <= k < |t| :: !Breaks(u, t[k])
    ensures KeptLeft(u, t, i - 1) == LeftOf(t, i - 1) && KeptRight(u, t, i + 1) == RightOf(t, i + 1)
  {
    hide Flag, Joins, Breaks, EmojiPart, Pictographic, JoiningScript;
    JoinsNeeds(u, t[i], LeftOf(t, i - 1), RightOf(t, i + 1));
    var l := LeftIndex(t, i - 1);
    NeededIsKept(u, t, l);
    KeptLeftFound(u, t, l, i - 1);
    var r := RightIndex(t, i + 1);
    NeededIsKept(u, t, r);
    KeptRightFound(u, t, i + 1, r);
  }

  /** A kept joiner has the same neighbours after the pass. */
  lemma SameNeighbours(u: Database, t: Text, i: nat)
    requires i < |t| && !Flag(u, t, i) && Joins(u, t[i], LeftOf(t, i - 1), RightOf(t, i + 1))
    requires forall k | 0 <= k < |t| :: !Breaks(u, t[k])
    ensures var (s, p) := (Strip(u, t), Place(u, t, i));
            p < |s| && LeftOf(s, p - 1) == LeftOf(t, i - 1) && RightOf(s, p + 1) == RightOf(t, i + 1)
  {
    NeighboursKept(u, t, i);
    KeptAt(u, t, i);
    LeftAfter(u, t, i);
    PlacesGrow(u, t, i, |t|);
    LeftOfPrefix(Kept(u, t, i), Strip(u, t), Place(u, t, i) - 1);
    RightAfter(u, t, i + 1);
    hide Flag, Joins, Breaks, KeptLeft, KeptRight, LeftOf, RightOf, Suspicious;
    assert Place(u, t, i + 1) == Place(u, t, i) + 1;
  }

  /** One pass leaves nothing flagged, in any text without a code point that breaks. */
  lemma OnePass(u: Database, t: Text)
    requires forall k | 0 <= k < |t| :: !Breaks(u, t[k])
    ensures Clean(u, Strip(u, t))
  {
    hide Breaks, Joins, KeptLeft, KeptRight, LeftOf, RightOf, Strip, Clean;
    CleanIff(u, t);
    forall i | 0 <= i < |t| && Joiner(t[i]) && !Flag(u, t, i)
      ensures Joins(u, t[i], KeptLeft(u, t, i - 1), KeptRight(u, t, i + 1))
    {
      JoinerIsSuspicious(u, t[i]);
      NeighboursKept(u, t, i);
    }
  }

  /** Between two code points that break, a joiner is kept; without them it is flagged. */
  lemma TwoPasses(u: Database, c: Code)
    requires Breaks(u, c)
    ensures !Clean(u, Strip(u, [c, 0x200D, c]))
  {
    var t: Text := [c, 0x200D, c];
    assert LeftOf(t, 0) == Some(c) && RightOf(t, 2) == Some(c);
    assert Flag(u, t, 0) && !Flag(u, t, 1) && Flag(u, t, 2);
    assert Kept(u, t, 1) == [] && Kept(u, t, 2) == [0x200D];
    assert Strip(u, t) == [0x200D];
    var s := Strip(u, t);
    assert LeftOf(s, -1).None?;
    assert Flag(u, s, 0);
  }

  /** One pass suffices for every text exactly when the database has no code point that breaks. */
  lemma OnePassIff(u: Database)
    ensures (forall t: Text :: Clean(u, Strip(u, t))) <==> (forall c: Code :: !Breaks(u, c))
  {
    hide Breaks, Clean, Strip;
    if forall t: Text :: Clean(u, Strip(u, t)) {
      forall c: Code ensures !Breaks(u, c) {
        if Breaks(u, c) {
          TwoPasses(u, c);
        }
      }
    } else {
      var t: Text :| !Clean(u, Strip(u, t));
      if forall c: Code :: !Breaks(u, c) {
        OnePass(u, t);
      }
    }
  }

  /** In a database where an unassigned code point and U+180E are no letters or marks, only an unassigned code point
      in a pictographic block breaks. */
  lemma BreaksIsUnassigned(u: Database, c: Code)
    requires !u.letterOrMark(0x180E) && (u.unassigned(c) ==> !u.letterOrMark(c))
    ensures Breaks(u, c) <==> u.unassigned(c) && Pictographic(c) && !EmojiPart(c)
  {
  }
}
