/** What a confirm rule, a confirm budget and a claimed confirmation demand of a call: in any accepted chain, and of
    whatever the ledger seals. */
module ConfirmRules {
  import opened Records
  import opened Checks
  import opened Store
  import opened ChainFacts
  import opened Budgets
  import opened Writer
  import opened Runs
  import opened ActRefinement
  import opened Reference
  import opened Recounts

  /** The call cites a grant, and these hits of its are hits that the request it answers was about. */
  ghost predicate Covered(chain: seq<Record>, call: Record, hits: set<Hit>)
    requires call.body.ToolCall?
  {
    && call.body.approvalSeq.Int?
    && exists q :: Grants(chain, call.body.approvalSeq.i, q) && forall h | h in hits :: h in At(chain, q).hits
  }

  /** Record d grants what record q asked for. */
  ghost predicate Grants(chain: seq<Record>, d: int, q: int) {
    && Has(chain, d) && At(chain, d).body.ApprovalDecision? && At(chain, d).body.outcome == Grant
    && Has(chain, q) && At(chain, q).body.ApprovalRequest? && At(chain, d).parent == Dec(q)
  }

  /** The record was sealed under the verifier's pack, whose channel is entra. */
  predicate UnderEntra(env: Env, r: Record) {
    env.pack.Some? && env.pack.value.hash == r.rulepack && env.pack.value.entra
  }

  predicate ConfirmBudget(pack: Pack, bid: string) {
    exists i | 0 <= i < |pack.budgets| :: pack.budgets[i].id == bid && pack.budgets[i].confirms
  }

  /** The relay's own record of a call that already ran: it says so, and its agent registered as a relay. */
  ghost predicate RelayRecord(chain: seq<Record>, r: Record)
    requires r.body.ToolCall?
  {
    && r.body.afterTheFact && r.body.byRelay
    && exists m :: RegisteredAt(chain, r.agent, m) && At(chain, m).body.auth == RelayAuth
  }

  /** Under an entra pack no call runs on a confirm rule, a confirm budget's excess or a claimed confirmation unless it
      cites a grant that covers all its confirm hits and all its excesses. */
  lemma {:induction false} ConfirmCited(env: Env, chain: seq<Record>, n: int)
    requires Accepted(env, chain) && Has(chain, n)
    requires var r := At(chain, n);
             && r.body.ToolCall? && r.decision != Block && UnderEntra(env, r) && !RelayRecord(chain[..n - 1], r)
    ensures var (r, pack) := (At(chain, n), env.pack.value);
            && (forall id | Rule(id) in r.hits && id in pack.confirm :: Covered(chain[..n - 1], r, {Rule(id)}))
            && (forall bid, m | Over(bid, m) in r.hits && ConfirmBudget(pack, bid) ::
                  Covered(chain[..n - 1], r, {Over(bid, m)}))
            && (r.body.confirmation == Granted ==> Covered(chain[..n - 1], r, {}))
  {
    AcceptedIff(env, chain);
    assert SoundAt(env, chain, n);
    var r := At(chain, n);
    PrefixAccepted(env, chain, n - 1);
    RegistryOf(env, chain[..n - 1], r.agent);
    NoRelay(chain[..n - 1], r);
    SoundCovers(env, chain[..n - 1], r);
  }

  predicate RelayExcuse(chain: seq<Record>, r: Record)
    requires r.body.ToolCall?
  {
    r.body.afterTheFact && r.body.byRelay && r.agent in AgentsOf(chain) && AgentsOf(chain)[r.agent].auth == RelayAuth
  }

  lemma NoRelay(chain: seq<Record>, r: Record)
    requires r.body.ToolCall? && RegistryIs(chain, r.agent) && !RelayRecord(chain, r)
    ensures !RelayExcuse(chain, r)
  {
  }

  lemma SoundCovers(env: Env, chain: seq<Record>, r: Record)
    requires r.body.ToolCall? && SoundCall(env, chain, r)
    requires r.decision != Block && UnderEntra(env, r) && !RelayExcuse(chain, r)
    ensures var pack := env.pack.value;
            && (forall id | Rule(id) in r.hits && id in pack.confirm :: Covered(chain, r, {Rule(id)}))
            && (forall bid, m | Over(bid, m) in r.hits && ConfirmBudget(pack, bid) :: Covered(chain, r, {Over(bid, m)}))
            && (r.body.confirmation == Granted ==> Covered(chain, r, {}))
  {
    var pack := env.pack.value;
    forall id | Rule(id) in r.hits && id in pack.confirm ensures Covered(chain, r, {Rule(id)}) {
      HitCovered(env, chain, r, Rule(id));
    }
    forall bid, m | Over(bid, m) in r.hits && ConfirmBudget(pack, bid) ensures Covered(chain, r, {Over(bid, m)}) {
      HitCovered(env, chain, r, Over(bid, m));
    }
    if r.body.confirmation == Granted {
      var d := r.body.approvalSeq.i;
      var q :| AskedBy(chain, d, q) && SoundCite(env, chain, r, d, q);
      assert Grants(chain, d, q);
    }
  }

  lemma HitCovered(env: Env, chain: seq<Record>, r: Record, h: Hit)
    requires r.body.ToolCall? && SoundCall(env, chain, r) && h in r.hits
    requires r.decision != Block && UnderEntra(env, r) && !RelayExcuse(chain, r)
    requires NeedsPerson(env.pack.value, h)
    ensures Covered(chain, r, {h})
  {
    hide NeedsPerson;
    var d := r.body.approvalSeq.i;
    var q :| AskedBy(chain, d, q) && SoundCite(env, chain, r, d, q);
    assert Grants(chain, d, q);
  }

  /** The endpoint seals no such call either: the citation is checked against the pack in force, before the seal. */
  lemma {:induction false} SealedCovered(env: Env, w: WState, ev: Event)
    requires MemoryIs(w) && ev.Act? && SealedBy(env, w, ev).Some?
    requires var r := SealedBy(env, w, ev).value;
             r.body.ToolCall? && r.decision != Block && w.pack.Some? && w.pack.value.entra
    ensures var (r, pack) := (SealedBy(env, w, ev).value, w.pack.value);
            && (forall id | Rule(id) in r.hits && id in pack.confirm :: Covered(w.store, r, {Rule(id)}))
            && (forall bid, m | Over(bid, m) in r.hits && ConfirmBudget(pack, bid) :: Covered(w.store, r, {Over(bid, m)}))
            && (r.body.confirmation == Granted ==> Covered(w.store, r, {}))
  {
    hide ActDraft;
    SealedIs(env, w, ev);
    var r, pack := SealedBy(env, w, ev).value, w.pack.value;
    ActSealedGuarded(env, w, ev, r);
    forall id | Rule(id) in r.hits && id in pack.confirm ensures Covered(w.store, r, {Rule(id)}) {
      GuardCovers(w, r, Rule(id));
    }
    forall bid, m | Over(bid, m) in r.hits && ConfirmBudget(pack, bid) ensures Covered(w.store, r, {Over(bid, m)}) {
      GuardCovers(w, r, Over(bid, m));
    }
    if r.body.confirmation == Granted {
      GuardGrants(w, r);
    }
  }

  lemma GuardGrants(w: WState, r: Record)
    requires r.body.ToolCall? && SealedGuarded(w, r) && r.decision != Block && w.pack.Some? && w.pack.value.entra
    requires r.body.confirmation == Granted || !r.body.approvalSeq.NoInt?
    ensures Covered(w.store, r, {})
  {
    hide ParentRefusal, Ended, Writer.Used, ConfirmHit;
    var d := r.body.approvalSeq.i;
    assert Grants(w.store, d, At(w.store, d).parent.n);
  }

  lemma GuardCovers(w: WState, r: Record, h: Hit)
    requires r.body.ToolCall? && SealedGuarded(w, r) && r.decision != Block && w.pack.Some? && w.pack.value.entra
    requires h in r.hits && NeedsPerson(w.pack.value, h)
    ensures Covered(w.store, r, {h})
  {
    hide ParentRefusal, Ended, Writer.Used, NeedsPerson, ConfirmHit;
    NeedsPersonIff(w.pack.value, h);
    var d := r.body.approvalSeq.i;
    assert Asked(w.pack, h);
    assert Grants(w.store, d, At(w.store, d).parent.n);
  }
}
