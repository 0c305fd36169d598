/** The hash chain: what the four chain checks of `verify_full` alone establish (verifier/sijill_verify.py), and that
    `Node.seal` extends it (sijill/record.py `seal`). The hash is a parameter. */
module HashChain {
  import opened Records
  import opened Checks
  import opened Canonical
  import Framing

  /** A row with its record_hash, and whether its signature is valid for that hash. */
  datatype Stored = Stored(row: Row, hash: string, signed: bool)

  /** The record_hash of a row: any function of its columns; `RecordHash` is the ledger's. */
  type Digest = Row -> string

  /** `record_hash`: a hash of the canonical bytes. */
  function RecordHash(sha256: seq<Framing.Byte> -> string): Digest { row => sha256(CanonicalBytes(row)) }

  function Zeros(n: nat): (s: string)
    ensures |s| == n && forall i | 0 <= i < n :: s[i] == '0'
  {
    if n == 0 then "" else "0" + Zeros(n - 1)
  }

  const GENESIS := Zeros(64)

  function HashAt(chain: seq<Stored>, n: nat): string
    requires n <= |chain|
  {
    if n == 0 then GENESIS else chain[n - 1].hash
  }

  /** The chain checks on one row, in order, after `prevSeq` rows the last of which has hash `prevHash`. */
  function LinkCode(H: Digest, prevSeq: nat, prevHash: string, s: Stored): Code {
    if s.row.pos != prevSeq + 1 then Gap
    else if H(s.row) != s.hash then ContentAltered
    else if Column(s.row, "prev_hash") != prevHash then ChainBroken
    else if !s.signed then SignatureInvalid
    else Ok
  }

  ghost predicate LinkOk(H: Digest, chain: seq<Stored>, n: nat)
    requires n < |chain|
  {
    LinkCode(H, n, HashAt(chain, n), chain[n]) == Ok
  }

  ghost predicate Linked(H: Digest, chain: seq<Stored>) {
    forall n: nat | n < |chain| :: LinkOk(H, chain, n)
  }

  /** Numbered from 1 without a gap, hashed as it stands, linked to the row before or to 64 zeros, and signed. */
  ghost predicate InPlace(H: Digest, chain: seq<Stored>, i: nat)
    requires i < |chain|
  {
    && chain[i].row.pos == i + 1 && chain[i].hash == H(chain[i].row) && chain[i].signed
    && (if i > 0 then Column(chain[i].row, "prev_hash") == chain[i - 1].hash
        else AllZeros(Column(chain[i].row, "prev_hash")))
  }

  lemma InPlaceIff(H: Digest, chain: seq<Stored>, i: nat)
    requires i < |chain|
    ensures LinkOk(H, chain, i) <==> InPlace(H, chain, i)
  {
    hide Column, GENESIS, AllZeros;
    ZerosUnique(Column(chain[i].row, "prev_hash"));
  }

  /** A chain passes the chain checks exactly when every row is in its place. */
  lemma {:induction false} LinkedIff(H: Digest, chain: seq<Stored>)
    ensures Linked(H, chain) <==> forall i: nat | i < |chain| :: InPlace(H, chain, i)
  {
    hide LinkOk, InPlace;
    forall i: nat | i < |chain| ensures LinkOk(H, chain, i) <==> InPlace(H, chain, i) {
      InPlaceIff(H, chain, i);
    }
  }

  predicate AllZeros(s: string) { |s| == 64 && forall i | 0 <= i < |s| :: s[i] == '0' }

  lemma ZerosUnique(s: string)
    ensures AllZeros(s) <==> s == GENESIS
  {
    if AllZeros(s) {
      assert forall i | 0 <= i < 64 :: s[i] == GENESIS[i];
    }
  }

  /** Two different rows have the same hash. */
  ghost predicate Collide(H: Digest, a: seq<Stored>, b: seq<Stored>) {
    exists i, j :: 0 <= i < |a| && 0 <= j < |b| && a[i].row != b[j].row && H(a[i].row) == H(b[j].row)
  }

  /** Two records with the same hash are the same record, and so link to the same hash. */
  lemma {:induction false} SameHashSameRecord(H: Digest, a: seq<Stored>, b: seq<Stored>, i: nat, j: nat)
    requires Linked(H, a) && Linked(H, b) && !Collide(H, a, b)
    requires i < |a| && j < |b| && a[i].hash == b[j].hash
    ensures a[i] == b[j] && i == j && HashAt(a, i) == HashAt(b, j)
  {
    assert LinkOk(H, a, i) && LinkOk(H, b, j);
  }

  /** One record's hash fixes its seq and the whole history up to it: an alteration, insertion or removal changes
      every later hash. */
  lemma {:induction false} HashFixesHistory(H: Digest, a: seq<Stored>, b: seq<Stored>, i: nat, j: nat)
    requires Linked(H, a) && Linked(H, b) && !Collide(H, a, b)
    requires i < |a| && j < |b| && a[i].hash == b[j].hash
    ensures i == j && a[..i + 1] == b[..j + 1]
    decreases i
  {
    hide Linked, Collide;
    SameHashSameRecord(H, a, b, i, j);
    if i > 0 {
      HashFixesHistory(H, a, b, i - 1, i - 1);
    }
    assert a[..i + 1] == a[..i] + [a[i]] && b[..i + 1] == b[..i] + [b[i]];
  }

  /** Two chains that pass the chain checks and end in the same hash are the same chain, or exhibit a collision of
      the hash: the head commits to the length and to every sealed field of every record. */
  lemma {:induction false} HeadFixesChain(H: Digest, a: seq<Stored>, b: seq<Stored>)
    requires Linked(H, a) && Linked(H, b) && a != [] && b != []
    requires HashAt(a, |a|) == HashAt(b, |b|)
    ensures a == b || Collide(H, a, b)
  {
    hide Linked, Collide;
    if !Collide(H, a, b) {
      HashFixesHistory(H, a, b, |a| - 1, |b| - 1);
      assert a[..|a|] == a && b[..|b|] == b;
    }
  }

  // ---- the ledger's hash ----

  /** The rows the stores hold: `read_rows` yields every column. */
  ghost predicate Wide(chain: seq<Stored>) {
    forall n | 0 <= n < |chain| :: FullWidth(chain[n].row)
  }

  /** Two different byte strings among the chains' canonical bytes have the same hash. */
  ghost predicate BytesCollide(sha256: seq<Framing.Byte> -> string, a: seq<Stored>, b: seq<Stored>) {
    exists i, j :: 0 <= i < |a| && 0 <= j < |b| && CanonicalBytes(a[i].row) != CanonicalBytes(b[j].row)
                   && sha256(CanonicalBytes(a[i].row)) == sha256(CanonicalBytes(b[j].row))
  }

  /** A collision of record hashes is a collision of the hash itself: the canonical bytes lose nothing. */
  lemma {:induction false} CollisionIsOfBytes(sha256: seq<Framing.Byte> -> string, a: seq<Stored>, b: seq<Stored>)
    requires Wide(a) && Wide(b)
    ensures Collide(RecordHash(sha256), a, b) <==> BytesCollide(sha256, a, b)
  {
    hide CanonicalBytes, FullWidth;
    var H := RecordHash(sha256);
    if i, j :| 0 <= i < |a| && 0 <= j < |b| && a[i].row != b[j].row && H(a[i].row) == H(b[j].row) {
      if CanonicalBytes(a[i].row) == CanonicalBytes(b[j].row) {
        CanonicalBytesInjective(a[i].row, b[j].row);
      }
    }
  }

  /** `Node.seal` and record.py `seal`: the row at the head of the chain, hashed and signed. */
  function SealRow(H: Digest, chain: seq<Stored>, cols: map<string, string>): Stored {
    var row := Row(|chain| + 1, cols["prev_hash" := HashAt(chain, |chain|)]);
    Stored(row, H(row), true)
  }

  lemma SealPasses(H: Digest, chain: seq<Stored>, cols: map<string, string>)
    ensures LinkCode(H, |chain|, HashAt(chain, |chain|), SealRow(H, chain, cols)) == Ok
  {
    hide HashAt;
  }

  /** A chain grown one seal at a time passes the chain checks, whatever is sealed. */
  lemma {:induction false} SealLinks(H: Digest, chain: seq<Stored>, cols: map<string, string>)
    requires Linked(H, chain)
    ensures Linked(H, chain + [SealRow(H, chain, cols)])
  {
    hide LinkCode, SealRow;
    var longer := chain + [SealRow(H, chain, cols)];
    SealPasses(H, chain, cols);
    forall n: nat | n < |longer| ensures LinkOk(H, longer, n) {
      assert n > 0 ==> longer[n - 1] == chain[n - 1];
      assert n < |chain| ==> LinkOk(H, chain, n);
    }
  }
}
