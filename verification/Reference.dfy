/** A reference for the verifier without running state: when a record is sound after the records before it, said of
    those records alone and without the verifier's own definitions. The walk accepts a chain exactly when each record is
    sound. */
module Reference {
  import opened Records
  import opened Checks
  import opened Store
  import opened ChainFacts

  /** The record was sealed under the rule pack the verifier was given. */
  predicate UnderPack(env: Env, r: Record) { env.pack.Some? && env.pack.value.hash == r.rulepack }

  /** A person answers it: the pack's confirm rule, or the excess of one of its confirm budgets. */
  predicate NeedsPerson(pack: Pack, h: Hit) {
    || (h.Rule? && h.id in pack.confirm)
    || (h.Over? && exists i :: 0 <= i < |pack.budgets| && pack.budgets[i].id == h.bid && pack.budgets[i].confirms)
  }

  lemma NeedsPersonIff(pack: Pack, h: Hit)
    ensures NeedsPerson(pack, h) <==> ConfirmHit(pack, h)
  {
    if h.Over? && ConfirmHit(pack, h) {
      var b :| b in pack.budgets && b.id == h.bid && b.confirms;
      var i :| 0 <= i < |pack.budgets| && pack.budgets[i] == b;
    }
  }

  // ---- checks 5-7, A-C: the parent ----

  ghost predicate SoundParent(env: Env, chain: seq<Record>, r: Record) {
    && !r.body.Unknown?
    && !r.parent.Garbled?
    && (r.parent.Blank? ==> !r.body.IntegrityDrift?)
    && (r.parent.Blank? && r.body.ToolCall? ==> r.body.uncorrelated && env.allowOrphans)
    && (r.parent.Dec? ==>
          && Has(chain, r.parent.n)
          && var parent := At(chain, r.parent.n);
             && (r.body.ToolCall? ==>
                   && parent.body.Inference?
                   && exists u :: u in parent.body.uses && u.argsHash == r.inputHash
                                  && (r.body.toolUseId.Some? ==> u.id == r.body.toolUseId))
             && (r.body.ToolResult? ==> parent.body.ToolCall? && !HasResult(chain, r.parent.n))
             && (r.body.Egress? ==> parent.body.ToolCall?)
             && (r.body.IntegrityDrift? ==> parent.body.IntegrityBaseline? && parent.inputHash == r.inputHash))
  }

  lemma {:induction false} ParentIff(env: Env, s: VState, chain: seq<Record>, r: Record)
    requires MirrorsSeen(s, chain) && MirrorsRest(s, chain) && r.pos == |chain| + 1
    ensures ParentCode(env, s, r) == Ok <==> SoundParent(env, chain, r)
  {
    if r.parent.Dec? && Has(chain, r.parent.n) {
      assert s.seen[r.parent.n] == SeenOf(At(chain, r.parent.n));
    }
  }

  // ---- D, E: the rule pack; W2: the cost ----

  /** The hash moves only by a rulepack_change that names both, and never back to none. */
  predicate SoundRulepack(chain: seq<Record>, r: Record) {
    var before := RulepackOf(chain);
    && (before != "" ==> r.rulepack != "")
    && (if r.body.RulepackChange? then r.body.before == before && r.body.after == r.rulepack else r.rulepack == before)
  }

  /** The cost in millionths, rounded down. */
  predicate Rounded(micro: int, cost: int) { 1000000 * cost <= micro < 1000000 * (cost + 1) }

  /** Entry i is the first whose model glob matches the digest. */
  ghost predicate PricedBy(env: Env, pricing: seq<Price>, digest: string, i: int) {
    && 0 <= i < |pricing| && env.glob(digest, pricing[i].model)
    && forall j | 0 <= j < i :: !env.glob(digest, pricing[j].model)
  }

  /** `RulePack.price`: the first entry that matches, and none exactly when none matches. */
  lemma {:induction false} PriceIsFirst(env: Env, pricing: seq<Price>, digest: string)
    ensures forall i | PricedBy(env, pricing, digest, i) :: PriceOf(env, pricing, digest) == Some(pricing[i])
    ensures PriceOf(env, pricing, digest).None? <==> forall i | 0 <= i < |pricing| :: !env.glob(digest, pricing[i].model)
    ensures PriceOf(env, pricing, digest).Some? ==> exists i :: PricedBy(env, pricing, digest, i)
  {
    if pricing != [] {
      var rest := pricing[1..];
      PriceIsFirst(env, rest, digest);
      forall i | PricedBy(env, pricing, digest, i) ensures PriceOf(env, pricing, digest) == Some(pricing[i]) {
        if i > 0 {
          assert !env.glob(digest, pricing[0].model);
          assert PricedBy(env, rest, digest, i - 1);
        }
      }
      if env.glob(digest, pricing[0].model) {
        assert PricedBy(env, pricing, digest, 0);
      } else if i :| PricedBy(env, rest, digest, i) {
        assert PricedBy(env, pricing, digest, i + 1);
      }
    }
  }

  predicate Unpriced(b: Body)
    requires b.Inference?
  {
    b.priceRule.None? && b.cost.NoInt?
  }

  /** The inference carries this price and the cost it gives. */
  predicate PricedAs(b: Body, p: Price)
    requires b.Inference?
  {
    && b.priceRule == Some(p.id) && b.cost.Int?
    && (b.usage.None? ==> b.cost.i == p.missingUsage)
    && (b.usage.Some? ==>
          && b.usage.value.input >= 0 && b.usage.value.output >= 0
          && Rounded(b.usage.value.input * p.inputPerMtok + b.usage.value.output * p.outputPerMtok, b.cost.i))
  }

  ghost predicate SoundCost(env: Env, r: Record) {
    r.body.Inference? ==>
      && !r.body.cost.NotInt? && (r.body.cost.Int? ==> r.body.cost.i >= 0)
      && (UnderPack(env, r) ==>
            var pricing := env.pack.value.pricing;
            && ((forall i | 0 <= i < |pricing| :: !env.glob(r.digest, pricing[i].model)) ==> Unpriced(r.body))
            && (forall i | PricedBy(env, pricing, r.digest, i) ::
                  (Unpriced(r.body) && r.decision == Block) || PricedAs(r.body, pricing[i])))
  }

  lemma {:induction false} RulepackIff(s: VState, chain: seq<Record>, r: Record)
    requires MirrorsRest(s, chain)
    ensures RulepackCode(s, r) == Ok <==> SoundRulepack(chain, r)
  {
  }

  lemma {:induction false} CostIff(env: Env, r: Record)
    ensures CostCode(env, r) == Ok <==> SoundCost(env, r)
  {
    if UnderPack(env, r) {
      PriceIsFirst(env, env.pack.value.pricing, r.digest);
    }
    hide PriceOf, PricedBy;
  }

  // ---- H, I: the task ----

  ghost predicate SoundTask(chain: seq<Record>, r: Record) {
    && !r.task.Garbled?
    && (r.task.Blank? ==> !r.body.ToolCall? && !r.body.ToolResult? && !r.body.Egress? && !r.body.TaskEnd?)
    && (r.task.Dec? ==>
          && Has(chain, r.task.n) && At(chain, r.task.n).body.TaskStart?
          && !(r.body.TaskStart? || r.body.PolicyChange? || r.body.RulepackChange? || r.body.AgentRegister?
               || r.body.AgentRotate? || r.body.AgentRevoke? || r.body.AgentIdentityUpdate?)
          && r.agent == At(chain, r.task.n).agent && r.principal == At(chain, r.task.n).principal
          && (TaskEnded(chain, r.task.n) ==> r.body.TaskEnd?))
    && (r.parent.Dec? && !r.body.IntegrityDrift? ==> Has(chain, r.parent.n) && At(chain, r.parent.n).task == r.task)
  }

  lemma {:induction false} TaskIff(env: Env, s: VState, chain: seq<Record>, r: Record)
    requires MirrorsSeen(s, chain) && MirrorsTasks(env, s, chain) && MirrorsEnded(s, chain) && r.pos == |chain| + 1
    requires r.parent.Dec? ==> Has(chain, r.parent.n)
    ensures TaskCode(s, r) == Ok <==> SoundTask(chain, r)
    ensures SoundTask(chain, r) ==>
              if r.task.Dec? then TaskOf(s, r) == Some(s.tasks[r.task.n]) && MirrorsTask(env, s.tasks[r.task.n], chain, r.task.n)
              else TaskOf(s, r).None?
  {
    hide MirrorsTask;
    if r.parent.Dec? {
      assert s.seen[r.parent.n] == SeenOf(At(chain, r.parent.n));
    }
    if r.task.Dec? && Has(chain, r.task.n) {
      assert s.seen[r.task.n] == SeenOf(At(chain, r.task.n));
      if r.task.n in s.tasks {
        TaskIdentity(env, s.tasks[r.task.n], chain, r.task.n);
      }
    }
  }

  lemma TaskIdentity(env: Env, k: Task, chain: seq<Record>, t: int)
    requires Has(chain, t) && MirrorsTask(env, k, chain, t)
    ensures k.agent == At(chain, t).agent && k.principal == At(chain, t).principal
  {
  }

  // ---- V-V4: approvals ----

  ghost predicate SoundRequest(env: Env, chain: seq<Record>, r: Record)
    requires r.body.ApprovalRequest?
  {
    && r.task.Dec?
    && r.mode == RecordOnly && r.decision == Flag && r.body.timeoutMs > 0
    && (forall q | Has(chain, q) && At(chain, q).body.ApprovalRequest? :: At(chain, q).body.aid != r.body.aid)
    && (if r.parent.Dec? then Has(chain, r.parent.n) && At(chain, r.parent.n).body.Inference?
        else r.body.uncorrelated && env.allowOrphans)
  }

  /** The levels of assurance, low below substantial below high. */
  predicate AtLeast(level: Level, min: Level) {
    match min
    case Low => true
    case Substantial => level != Low
    case High => level == High
  }

  /** The decision answers the request at q: a person in time, or the timer after it. */
  ghost predicate SoundAnswer(chain: seq<Record>, r: Record, q: int)
    requires r.body.ApprovalDecision?
  {
    && Has(chain, q) && At(chain, q).body.ApprovalRequest?
    && var req := At(chain, q);
       && req.body.aid == r.body.aid && r.parent == Dec(q) && r.task == req.task && r.inputHash == req.inputHash
       && match r.body.outcome
          case OtherOutcome => false
          case Timeout =>
            r.ts >= req.ts + req.body.timeoutMs && r.body.approver.None? && r.mode == Enforce && r.decision == Block
          case _ =>
            && r.ts < req.ts + req.body.timeoutMs
            && r.body.approver.Some? && r.body.approver.value.Human?
            && r.body.assurance.Some? && AtLeast(r.body.assurance.value, req.body.minAssurance)
            && (req.body.sod ==> r.body.approver.value != r.principal)
            && (if r.body.outcome == Grant then r.mode == RecordOnly && r.decision == Allow
                else r.mode == Enforce && r.decision == Block)
  }

  ghost predicate SoundDecision(chain: seq<Record>, r: Record)
    requires r.body.ApprovalDecision?
  {
    && (exists q :: SoundAnswer(chain, r, q))
    && (forall d | Has(chain, d) && At(chain, d).body.ApprovalDecision? :: At(chain, d).body.aid != r.body.aid)
  }

  /** The request that decision d answers, when it is one. */
  ghost predicate AskedBy(chain: seq<Record>, d: int, q: int) {
    && Has(chain, d) && At(chain, d).body.ApprovalDecision? && Has(chain, q) && At(chain, q).body.ApprovalRequest?
    && At(chain, d).parent == Dec(q)
  }

  /** The decision was asked for on this very call, and the call does what it decided. */
  ghost predicate CiteAgrees(env: Env, chain: seq<Record>, r: Record, d: int, q: int)
    requires r.body.ToolCall? && AskedBy(chain, d, q)
  {
    var req := At(chain, q);
    && req.task == r.task && req.body.qualified == r.body.qualified && req.inputHash == r.inputHash
    && req.parent == r.parent
    && (if At(chain, d).body.outcome == Grant then
          && r.body.confirmation == Granted && r.decision == Flag && r.mode == RecordOnly
          && forall h | h in r.hits && (h.Over? || (UnderPack(env, r) && NeedsPerson(env.pack.value, h))) :: h in req.hits
        else r.body.confirmation != Granted && r.decision == Block && r.mode == Enforce)
  }

  ghost predicate SoundCite(env: Env, chain: seq<Record>, r: Record, d: int, q: int)
    requires r.body.ToolCall? && AskedBy(chain, d, q)
  {
    CiteAgrees(env, chain, r, d, q) && !ApprovalUsed(chain, d)
  }

  /** Under an entra channel only a block, a cited grant or the relay's own after-the-fact record may carry a confirm
      hit or claim a confirmation. */
  ghost predicate SoundUncited(env: Env, chain: seq<Record>, r: Record)
    requires r.body.ToolCall?
  {
    var agents := AgentsOf(chain);
    UnderPack(env, r) && env.pack.value.entra && r.decision != Block ==>
      || (r.body.afterTheFact && r.body.byRelay && r.agent in agents && agents[r.agent].auth == RelayAuth)
      || (r.body.confirmation != Granted && forall h | h in r.hits :: !NeedsPerson(env.pack.value, h))
  }

  ghost predicate SoundCall(env: Env, chain: seq<Record>, r: Record)
    requires r.body.ToolCall?
  {
    match r.body.approvalSeq
    case NoInt => SoundUncited(env, chain, r)
    case NotInt => false
    case Int(d) => exists q :: AskedBy(chain, d, q) && SoundCite(env, chain, r, d, q)
  }

  ghost predicate SoundApproval(env: Env, chain: seq<Record>, r: Record) {
    && (r.body.ApprovalRequest? ==> SoundRequest(env, chain, r))
    && (r.body.ApprovalDecision? ==> SoundDecision(chain, r))
    && (r.body.ToolCall? ==> SoundCall(env, chain, r))
    && (r.body.TaskEnd? ==> AllDecided(chain, r.task))
  }

  lemma {:induction false} RequestIff(env: Env, s: VState, chain: seq<Record>, r: Record)
    requires MirrorsSeen(s, chain) && MirrorsRequests(s, chain) && r.body.ApprovalRequest?
    requires TaskOf(s, r).Some? <==> r.task.Dec?
    requires r.parent.Dec? ==> Has(chain, r.parent.n)
    ensures ApprovalCode(env, s, r) == Ok <==> SoundRequest(env, chain, r)
  {
    hide RequestOf;
    if r.parent.Dec? {
      assert s.seen[r.parent.n] == SeenOf(At(chain, r.parent.n));
    }
    if r.body.aid in s.requests {
      assert At(chain, s.requests[r.body.aid].pos).body.aid == r.body.aid;
    }
  }

  lemma {:induction false} AnswerIff(s: VState, chain: seq<Record>, r: Record, q: int)
    requires r.body.ApprovalDecision? && r.body.aid !in s.decided && r.body.aid in s.requests
    requires Has(chain, q) && At(chain, q).body.ApprovalRequest? && At(chain, q).pos == q
    requires At(chain, q).body.aid == r.body.aid && s.requests[r.body.aid] == RequestOf(At(chain, q))
    ensures DecisionCode(s, r) == Ok <==> SoundAnswer(chain, r, q)
  {
  }

  lemma {:induction false} DecisionIff(env: Env, s: VState, chain: seq<Record>, r: Record)
    requires Sequenced(chain) && MirrorsRequests(s, chain) && MirrorsDecisions(s, chain) && r.body.ApprovalDecision?
    ensures ApprovalCode(env, s, r) == Ok <==> SoundDecision(chain, r)
  {
    hide MirrorsRequests, MirrorsDecisions, RequestOf, SoundDecision, RequestFits, CiteFits, UncitedConfirm;
    var aid := r.body.aid;
    DecidedIff(s, chain, aid);
    RequestedIff(s, chain, aid);
    if aid in s.requests && aid !in s.decided {
      AskedAt(s, chain, aid);
      AnswerIff(s, chain, r, s.requests[aid].pos);
      hide DecisionCode;
      SoundDecisionIs(chain, r, s.requests[aid].pos);
    } else {
      UnsoundDecision(chain, r);
    }
  }

  lemma AskedAt(s: VState, chain: seq<Record>, aid: string)
    requires Sequenced(chain) && MirrorsRequests(s, chain) && aid in s.requests
    ensures var q := s.requests[aid].pos;
            && Has(chain, q) && At(chain, q).body.ApprovalRequest? && At(chain, q).pos == q
            && At(chain, q).body.aid == aid && s.requests[aid] == RequestOf(At(chain, q))
  {
  }

  /** With one request of the id and no decision, the decision is sound when it answers that request. */
  lemma SoundDecisionIs(chain: seq<Record>, r: Record, q: int)
    requires r.body.ApprovalDecision?
    requires forall p | Has(chain, p) && At(chain, p).body.ApprovalRequest? && At(chain, p).body.aid == r.body.aid :: p == q
    requires !exists d :: Has(chain, d) && At(chain, d).body.ApprovalDecision? && At(chain, d).body.aid == r.body.aid
    ensures SoundDecision(chain, r) <==> SoundAnswer(chain, r, q)
  {
  }

  lemma UnsoundDecision(chain: seq<Record>, r: Record)
    requires r.body.ApprovalDecision?
    requires || (exists d :: Has(chain, d) && At(chain, d).body.ApprovalDecision? && At(chain, d).body.aid == r.body.aid)
             || !exists q :: Has(chain, q) && At(chain, q).body.ApprovalRequest? && At(chain, q).body.aid == r.body.aid
    ensures !SoundDecision(chain, r)
  {
  }

  lemma DecidedIff(s: VState, chain: seq<Record>, aid: string)
    requires MirrorsDecisions(s, chain)
    ensures aid in s.decided <==> exists d :: Has(chain, d) && At(chain, d).body.ApprovalDecision? && At(chain, d).body.aid == aid
  {
    hide Answers;
    if d :| Has(chain, d) && At(chain, d).body.ApprovalDecision? && At(chain, d).body.aid == aid {
      assert d in s.decisions;
    }
  }

  lemma RequestedIff(s: VState, chain: seq<Record>, aid: string)
    requires Sequenced(chain) && MirrorsRequests(s, chain)
    ensures aid in s.requests <==> exists q :: Has(chain, q) && At(chain, q).body.ApprovalRequest? && At(chain, q).body.aid == aid
    ensures forall q | Has(chain, q) && At(chain, q).body.ApprovalRequest? && At(chain, q).body.aid == aid ::
              s.requests[aid].pos == q
  {
  }

  /** The verifier's cited decision is the record the call names, and its request the one that record answers. */
  lemma {:induction false} CitedIs(s: VState, chain: seq<Record>, r: Record)
    requires MirrorsRequests(s, chain) && MirrorsDecisions(s, chain) && MirrorsUsed(s, chain)
    requires r.body.ToolCall? && r.body.approvalSeq.Int?
    ensures var d := r.body.approvalSeq.i;
            && (Cited(s, r.body).Some? <==> Has(chain, d) && At(chain, d).body.ApprovalDecision?)
            && (Cited(s, r.body).Some? ==>
                  var c := Cited(s, r.body).value;
                  && AskedBy(chain, d, c.req.pos) && c.req == RequestOf(At(chain, c.req.pos))
                  && c.outcome == At(chain, d).body.outcome && (c.used <==> ApprovalUsed(chain, d))
                  && forall q | AskedBy(chain, d, q) :: q == c.req.pos)
  {
    hide RequestOf;
    var d := r.body.approvalSeq.i;
    if d in s.decisions {
      assert Answers(At(chain, d), s.decisions[d].req);
    }
  }

  lemma {:induction false} CiteIff(env: Env, chain: seq<Record>, r: Record, c: Decided, d: int)
    requires r.body.ToolCall? && AskedBy(chain, d, c.req.pos) && c.req == RequestOf(At(chain, c.req.pos))
    requires c.outcome == At(chain, d).body.outcome && (c.used <==> ApprovalUsed(chain, d))
    ensures CiteFits(env, r, c) <==> CiteAgrees(env, chain, r, d, c.req.pos)
    ensures CiteFits(env, r, c) && !c.used <==> SoundCite(env, chain, r, d, c.req.pos)
  {
    hide ApprovalUsed, ConfirmHit, NeedsPerson;
    forall h | UnderPack(env, r) ensures NeedsPerson(env.pack.value, h) <==> ConfirmHit(env.pack.value, h) {
      NeedsPersonIff(env.pack.value, h);
    }
    var req := At(chain, c.req.pos);
    assert forall h :: h in c.req.hits <==> h in req.hits;
  }

  lemma {:induction false} UncitedIff(env: Env, s: VState, chain: seq<Record>, r: Record)
    requires r.body.ToolCall? && s.agents == AgentsOf(chain)
    ensures !UncitedConfirm(env, s, r) <==> SoundUncited(env, chain, r)
  {
    hide ConfirmHit, NeedsPerson;
    forall h | UnderPack(env, r) ensures NeedsPerson(env.pack.value, h) <==> ConfirmHit(env.pack.value, h) {
      NeedsPersonIff(env.pack.value, h);
    }
  }

  lemma {:induction false} CallIff(env: Env, s: VState, chain: seq<Record>, r: Record)
    requires MirrorsRequests(s, chain) && MirrorsDecisions(s, chain) && MirrorsUsed(s, chain) && s.agents == AgentsOf(chain)
    requires r.body.ToolCall?
    ensures ApprovalCode(env, s, r) == Ok <==> SoundCall(env, chain, r)
  {
    hide CiteFits, SoundCite, SoundUncited, UncitedConfirm, RequestOf, MirrorsRequests, MirrorsDecisions, MirrorsUsed;
    match r.body.approvalSeq
    case NoInt => UncitedIff(env, s, chain, r);
    case NotInt =>
    case Int(d) =>
      CitedIs(s, chain, r);
      if Cited(s, r.body).Some? {
        CiteIff(env, chain, r, Cited(s, r.body).value, d);
      }
  }

  lemma {:induction false} UndecidedIff(s: VState, chain: seq<Record>, t: int)
    requires Sequenced(chain) && MirrorsRequests(s, chain) && MirrorsDecisions(s, chain) && MirrorsPending(s) && t in s.tasks
    ensures s.tasks[t].pending == {} <==>
            forall q | Has(chain, q) && At(chain, q).body.ApprovalRequest? && Names(At(chain, q).task, t) ::
              exists d :: AskedBy(chain, d, q)
  {
    forall q | Has(chain, q) && At(chain, q).body.ApprovalRequest? && Names(At(chain, q).task, t)
      ensures (exists d :: AskedBy(chain, d, q)) <==> At(chain, q).body.aid !in s.tasks[t].pending
    {
      DecidedAsked(s, chain, q);
      assert s.requests[At(chain, q).body.aid] == RequestOf(At(chain, q));
    }
    hide MirrorsDecisions;
    forall aid | aid in s.tasks[t].pending
      ensures exists q :: Has(chain, q) && At(chain, q).body.ApprovalRequest? && Names(At(chain, q).task, t)
                          && At(chain, q).body.aid == aid
    {
      assert s.requests[aid] == RequestOf(At(chain, s.requests[aid].pos));
    }
  }

  lemma {:induction false} DecidedAsked(s: VState, chain: seq<Record>, q: int)
    requires Sequenced(chain) && MirrorsRequests(s, chain) && MirrorsDecisions(s, chain)
    requires Has(chain, q) && At(chain, q).body.ApprovalRequest?
    ensures At(chain, q).body.aid in s.decided <==> exists d :: AskedBy(chain, d, q)
  {
    var aid := At(chain, q).body.aid;
    assert s.requests[aid] == RequestOf(At(chain, q));
    hide RequestOf;
    if aid in s.decided {
      var d := s.decided[aid];
      assert d in s.decisions && Answers(At(chain, d), s.requests[aid]);
      assert AskedBy(chain, d, q);
    }
    if d :| AskedBy(chain, d, q) {
      assert d in s.decisions && Answers(At(chain, d), s.requests[At(chain, d).body.aid]);
    }
  }

  /** Every request of the task has a decision. */
  ghost predicate AllDecided(chain: seq<Record>, t: Ref) {
    forall q | Has(chain, q) && At(chain, q).body.ApprovalRequest? && At(chain, q).task == t ::
      exists d :: AskedBy(chain, d, q)
  }

  lemma {:induction false} EndApprovalIff(env: Env, s: VState, chain: seq<Record>, r: Record)
    requires Sequenced(chain) && MirrorsRequests(s, chain) && MirrorsDecisions(s, chain) && MirrorsPending(s)
    requires r.body.TaskEnd? && r.task.Dec? && r.task.n in s.tasks
    ensures ApprovalCode(env, s, r) == Ok <==> AllDecided(chain, r.task)
  {
    hide MirrorsRequests, MirrorsDecisions, MirrorsPending, AskedBy, DecisionCode, RequestFits, CiteFits, UncitedConfirm;
    UndecidedIff(s, chain, r.task.n);
    assert forall q :: Has(chain, q) ==> (At(chain, q).task == r.task <==> Names(At(chain, q).task, r.task.n));
  }

  lemma NoApproval(env: Env, s: VState, r: Record)
    requires !r.body.ApprovalRequest? && !r.body.ApprovalDecision? && !r.body.ToolCall? && !r.body.TaskEnd?
    ensures ApprovalCode(env, s, r) == Ok
  {
  }

  lemma {:induction false} ApprovalIff(env: Env, s: VState, chain: seq<Record>, r: Record)
    requires Mirrors(env, s, chain) && SoundTask(chain, r)
    requires if r.task.Dec? then r.task.n in s.tasks && TaskOf(s, r).Some? else TaskOf(s, r).None?
    requires r.parent.Dec? ==> Has(chain, r.parent.n)
    ensures ApprovalCode(env, s, r) == Ok <==> SoundApproval(env, chain, r)
  {
    hide Mirrors, MirrorsSeen, MirrorsTasks, MirrorsEnded, MirrorsRequests, MirrorsDecisions, MirrorsUsed,
         MirrorsPending, MirrorsRest, SoundRequest, SoundDecision, SoundCall, ApprovalCode, TaskOf, AllDecided, SoundTask;
    MirrorsHas(env, s, chain);
    TaskNeeded(chain, r);
    if r.body.ApprovalRequest? {
      RequestIff(env, s, chain, r);
    } else if r.body.ApprovalDecision? {
      DecisionIff(env, s, chain, r);
    } else if r.body.ToolCall? {
      CallIff(env, s, chain, r);
    } else if r.body.TaskEnd? {
      EndApprovalIff(env, s, chain, r);
    } else {
      NoApproval(env, s, r);
    }
  }

  lemma TaskNeeded(chain: seq<Record>, r: Record)
    requires SoundTask(chain, r)
    ensures r.body.TaskEnd? ==> r.task.Dec?
  {
  }

  lemma MirrorsHas(env: Env, s: VState, chain: seq<Record>)
    requires Mirrors(env, s, chain)
    ensures Sequenced(chain) && MirrorsSeen(s, chain) && MirrorsTasks(env, s, chain) && MirrorsEnded(s, chain)
    ensures MirrorsRequests(s, chain) && MirrorsDecisions(s, chain) && MirrorsUsed(s, chain) && MirrorsPending(s)
    ensures MirrorsRest(s, chain) && s.agents == AgentsOf(chain)
  {
  }

  // ---- X, X1, W-W2: budgets ----

  function MatchesAt(env: Env, calls: seq<string>, glob: string): set<int> {
    set i | 0 <= i < |calls| && env.glob(calls[i], glob)
  }

  lemma {:induction false} MatchesCount(env: Env, calls: seq<string>, glob: string)
    ensures CountMatching(env, calls, glob) == |MatchesAt(env, calls, glob)|
  {
    if calls == [] {
      assert MatchesAt(env, calls, glob) == {};
    } else {
      hide MatchesAt;
      MatchesCount(env, calls[..|calls| - 1], glob);
      MatchesAppended(env, calls, glob);
    }
  }

  lemma MatchesAppended(env: Env, calls: seq<string>, glob: string)
    requires calls != []
    ensures |MatchesAt(env, calls, glob)|
            == |MatchesAt(env, calls[..|calls| - 1], glob)| + (if env.glob(calls[|calls| - 1], glob) then 1 else 0)
  {
    var n := |calls| - 1;
    var front := calls[..n];
    forall i ensures i in MatchesAt(env, calls, glob) <==>
                     i in MatchesAt(env, front, glob) || (i == n && env.glob(calls[n], glob))
    {
      assert 0 <= i < n ==> front[i] == calls[i];
    }
    assert MatchesAt(env, calls, glob) == MatchesAt(env, front, glob) + (if env.glob(calls[n], glob) then {n} else {});
  }

  /** The record type a metric counts. */
  predicate MetricOf(m: Metric, b: Body) {
    || (b.ToolCall? && (m.ToolCalls? || m.ToolCallsBy? || m.BareCallsBy?))
    || (b.Egress? && m.EgressHosts?)
    || (b.Inference? && m.SpendMicro?)
  }

  /** The `budget` key of the three record types that carry one. */
  function SealedEntries(b: Body): seq<Entry> {
    if (b.ToolCall? || b.Egress? || b.Inference?) && b.budget.Budget? then b.budget.entries else []
  }

  predicate BadEntries(b: Body) { (b.ToolCall? || b.Egress? || b.Inference?) && b.budget.BadBudget? }

  /** The limits name this one. */
  ghost predicate LimitGiven(l: Limits, m: Metric, limit: int) {
    match m
    case ToolCalls => l.toolCalls.Some? && l.toolCalls.value == limit
    case ToolCallsBy(g) =>
      exists i :: 0 <= i < |l.toolCallsBy| && l.toolCallsBy[i] == (g, limit)
                  && forall j | 0 <= j < i :: l.toolCallsBy[j].0 != g
    case EgressHosts => l.egressHosts.Some? && l.egressHosts.value == limit
    case SpendMicro => l.spendMicro.Some? && l.spendMicro.value == limit
    case _ => false
  }

  lemma {:induction false} GlobGiven(globs: seq<(string, nat)>, g: string, limit: int)
    ensures GlobLimit(globs, g) == Some(limit) <==>
            exists i :: 0 <= i < |globs| && globs[i] == (g, limit) && forall j | 0 <= j < i :: globs[j].0 != g
  {
    if globs != [] {
      var rest := globs[1..];
      GlobGiven(rest, g, limit);
      if i :| 0 <= i < |rest| && rest[i] == (g, limit) && forall j | 0 <= j < i :: rest[j].0 != g {
        if globs[0].0 != g {
          assert globs[i + 1] == (g, limit) && forall j | 0 <= j < i + 1 :: globs[j].0 != g;
        }
      }
      if i :| 0 <= i < |globs| && globs[i] == (g, limit) && forall j | 0 <= j < i :: globs[j].0 != g {
        if i > 0 {
          assert rest[i - 1] == (g, limit) && forall j | 0 <= j < i - 1 :: rest[j].0 == globs[j + 1].0;
        }
      }
    }
  }

  lemma {:induction false} LimitIff(l: Limits, m: Metric, limit: int)
    ensures LimitIn(l, m) == Some(limit) <==> LimitGiven(l, m, limit)
  {
    if m.ToolCallsBy? {
      GlobGiven(l.toolCallsBy, m.glob, limit);
    }
  }

  /** A metric over the records of the task so far. */
  function Measure(env: Env, rows: seq<Record>, m: Metric): int {
    match m
    case ToolCalls => |CallsOf(rows)|
    case ToolCallsBy(g) => |MatchesAt(env, CallsOf(rows), g)|
    case EgressHosts => |HostsOf(env, rows)|
    case SpendMicro => SpendOf(rows)
    case BareCallsBy => SpendOf(rows)
    case OtherMetric(_) => 0
  }

  /** The record goes past the limit: spend already there, one more call, or one more host. */
  predicate Past(env: Env, rows: seq<Record>, b: Body, e: Entry)
    requires e.Entry?
  {
    match e.metric
    case SpendMicro => e.used >= e.limit
    case EgressHosts => e.used >= e.limit && !(b.Egress? && b.host.Str? && env.lower(b.host.s) in HostsOf(env, rows))
    case _ => e.used >= e.limit
  }

  /** The pack's limit for this budget and metric: of two budgets with one id, the later counts. */
  ghost predicate PackGives(pack: Pack, bid: string, m: Metric, limit: int) {
    exists i :: && 0 <= i < |pack.budgets| && pack.budgets[i].id == bid
                && (forall j | i < j < |pack.budgets| :: pack.budgets[j].id != bid)
                && LimitGiven(pack.budgets[i].limits, m, limit)
  }

  ghost predicate CitesGrant(chain: seq<Record>, r: Record) {
    && r.body.ToolCall? && r.body.approvalSeq.Int? && Has(chain, r.body.approvalSeq.i)
    && At(chain, r.body.approvalSeq.i).body.ApprovalDecision? && At(chain, r.body.approvalSeq.i).body.outcome == Grant
  }

  ghost predicate SoundEntry(env: Env, chain: seq<Record>, rows: seq<Record>, r: Record, e: Entry) {
    && e.Entry? && MetricOf(e.metric, r.body) && e.used == Measure(env, rows, e.metric)
    && (Past(env, rows, r.body, e) ==>
          Over(e.bid, e.metric) in r.hits && (r.decision == Block || CitesGrant(chain, r)))
    && (UnderPack(env, r) ==> PackGives(env.pack.value, e.bid, e.metric, e.limit))
  }

  ghost predicate SoundBudget(env: Env, chain: seq<Record>, r: Record) {
    r.task.Dec? ==>
      var rows := InTask(chain, r.task.n);
      && (r.body.ToolCall? ==> r.body.httpShaped
                               && (r.body.afterTheFact ==> r.mode == RecordOnly && r.decision != Block))
      && !BadEntries(r.body)
      && (forall e | e in SealedEntries(r.body) :: SoundEntry(env, chain, rows, r, e))
      && (!r.body.ApprovalRequest? && !r.body.ApprovalDecision? ==>
            forall h | h in r.hits && h.Over? ::
              exists e :: e in SealedEntries(r.body) && e.Entry? && h == Over(e.bid, e.metric)
                          && Past(env, rows, r.body, e))
  }

  lemma EntriesSealed(b: Body)
    ensures SealedEntries(b) == Entries(b)
    ensures BadEntries(b) <==> BudgetOf(b).BadBudget?
  {
  }

  lemma {:induction false} PackGivesIff(budgets: seq<BudgetRule>, pack: Pack, bid: string, m: Metric, limit: int)
    requires budgets == pack.budgets
    ensures PackLimit(budgets, bid, m) == Some(limit) <==> PackGives(pack, bid, m, limit)
  {
    hide LimitIn, LimitGiven;
    LastWith(budgets, bid, m);
    forall i | 0 <= i < |budgets| ensures LimitIn(budgets[i].limits, m) == Some(limit) <==> LimitGiven(budgets[i].limits, m, limit) {
      LimitIff(budgets[i].limits, m, limit);
    }
  }

  lemma {:induction false} LastWith(budgets: seq<BudgetRule>, bid: string, m: Metric)
    ensures forall i | 0 <= i < |budgets| && budgets[i].id == bid
                       && (forall j | i < j < |budgets| :: budgets[j].id != bid) ::
              PackLimit(budgets, bid, m) == LimitIn(budgets[i].limits, m)
    ensures PackLimit(budgets, bid, m).Some? ==>
              exists i :: 0 <= i < |budgets| && budgets[i].id == bid
                          && forall j | i < j < |budgets| :: budgets[j].id != bid
  {
    hide LimitIn;
    if budgets != [] {
      var last := |budgets| - 1;
      var front := budgets[..last];
      LastWith(front, bid, m);
      if budgets[last].id != bid && PackLimit(front, bid, m).Some? {
        var i :| 0 <= i < |front| && front[i].id == bid && forall j | i < j < |front| :: front[j].id != bid;
        assert budgets[i].id == bid && forall j | i < j < |budgets| :: budgets[j].id != bid;
      }
      forall i | 0 <= i < |budgets| && budgets[i].id == bid && (forall j | i < j < |budgets| :: budgets[j].id != bid)
        ensures PackLimit(budgets, bid, m) == LimitIn(budgets[i].limits, m)
      {
        if i < last {
          assert budgets[last].id != bid;
          assert front[i] == budgets[i] && forall j | i < j < |front| :: front[j].id == budgets[j].id;
        }
      }
    }
  }

  lemma {:induction false} EntryIff(env: Env, s: VState, chain: seq<Record>, k: Task, t: int, r: Record, e: Entry)
    requires Has(chain, t) && MirrorsTask(env, k, chain, t)
    requires CitesGrant(chain, r) <==> Cited(s, r.body).Some? && Cited(s, r.body).value.outcome == Grant
    ensures EntryCode(env, s, k, r, e) == Ok <==> SoundEntry(env, chain, InTask(chain, t), r, e)
    ensures e.Entry? ==> (Admitted(env, k, r.body, e) <==> !Past(env, InTask(chain, t), r.body, e))
  {
    hide CitesGrant, Cited, PackGives, PackLimit, CountMatching, MatchesAt;
    if e.Entry? && e.metric.ToolCallsBy? {
      MatchesCount(env, CallsOf(InTask(chain, t)), e.metric.glob);
    }
    if PackFor(env, r).Some? && e.Entry? {
      PackGivesIff(PackFor(env, r).value.budgets, PackFor(env, r).value, e.bid, e.metric, e.limit);
    }
  }

  /** A budget entry under the bare name `tool_calls_by` is measured by what the task has spent on models; under the
      verifier's pack no limit is the pack's, and it fails. */
  lemma {:induction false} BareEntryIff(env: Env, s: VState, chain: seq<Record>, k: Task, t: int, r: Record, e: Entry)
    requires Has(chain, t) && MirrorsTask(env, k, chain, t) && r.body.ToolCall? && e.Entry? && e.metric == BareCallsBy
    requires CitesGrant(chain, r) <==> Cited(s, r.body).Some? && Cited(s, r.body).value.outcome == Grant
    ensures EntryCode(env, s, k, r, e) == Ok <==>
            && !UnderPack(env, r) && e.used == SpendOf(InTask(chain, t))
            && (e.used < e.limit || (Over(e.bid, e.metric) in r.hits && (r.decision == Block || CitesGrant(chain, r))))
  {
    hide CitesGrant, Cited, InTask, SpendOf;
    EntryIff(env, s, chain, k, t, r, e);
  }

  lemma {:induction false} EntriesIff(env: Env, s: VState, chain: seq<Record>, k: Task, t: int, r: Record, es: seq<Entry>)
    requires Has(chain, t) && MirrorsTask(env, k, chain, t)
    requires CitesGrant(chain, r) <==> Cited(s, r.body).Some? && Cited(s, r.body).value.outcome == Grant
    ensures EntriesCode(env, s, k, r, es) == Ok <==> forall e | e in es :: SoundEntry(env, chain, InTask(chain, t), r, e)
  {
    hide MirrorsTask, EntryCode, SoundEntry, CitesGrant, Cited;
    if es != [] {
      EntryIff(env, s, chain, k, t, r, es[0]);
      EntriesIff(env, s, chain, k, t, r, es[1..]);
      assert forall e :: e in es <==> e == es[0] || e in es[1..];
    }
  }

  lemma {:induction false} SpuriousIff(env: Env, chain: seq<Record>, k: Task, t: int, r: Record)
    requires Has(chain, t) && MirrorsTask(env, k, chain, t)
    requires forall e | e in Entries(r.body) && e.Entry? ::
               Admitted(env, k, r.body, e) <==> !Past(env, InTask(chain, t), r.body, e)
    ensures !Spurious(env, k, r) <==>
            forall h | h in r.hits && h.Over? ::
              exists e :: e in Entries(r.body) && e.Entry? && h == Over(e.bid, e.metric)
                          && Past(env, InTask(chain, t), r.body, e)
  {
    hide MirrorsTask, Admitted, Past;
    forall h
      ensures Failed(env, k, r.body, h) <==>
              exists e :: e in Entries(r.body) && e.Entry? && h == Over(e.bid, e.metric)
                          && Past(env, InTask(chain, t), r.body, e)
    {
    }
  }

  lemma {:induction false} GrantIff(s: VState, chain: seq<Record>, r: Record)
    requires MirrorsRequests(s, chain) && MirrorsDecisions(s, chain) && MirrorsUsed(s, chain)
    ensures CitesGrant(chain, r) <==> Cited(s, r.body).Some? && Cited(s, r.body).value.outcome == Grant
  {
    hide MirrorsRequests, MirrorsDecisions, MirrorsUsed, RequestOf, AskedBy;
    if r.body.ToolCall? && r.body.approvalSeq.Int? {
      CitedIs(s, chain, r);
    }
  }

  lemma {:induction false} BudgetIff(env: Env, s: VState, chain: seq<Record>, k: Task, r: Record)
    requires r.task.Dec? && Has(chain, r.task.n) && MirrorsTask(env, k, chain, r.task.n)
    requires MirrorsRequests(s, chain) && MirrorsDecisions(s, chain) && MirrorsUsed(s, chain)
    ensures BudgetCode(env, s, k, r) == Ok <==> SoundBudget(env, chain, r)
  {
    GrantIff(s, chain, r);
    EntriesSealed(r.body);
    hide SealedEntries, BadEntries, Entries;
    hide MirrorsTask, MirrorsRequests, MirrorsDecisions, MirrorsUsed, CitesGrant, Cited, SoundEntry, EntryCode,
         EntriesCode, Spurious, Admitted, Past;
    EntriesIff(env, s, chain, k, r.task.n, r, Entries(r.body));
    forall e | e in Entries(r.body) && e.Entry?
      ensures Admitted(env, k, r.body, e) <==> !Past(env, InTask(chain, r.task.n), r.body, e)
    {
      EntryIff(env, s, chain, k, r.task.n, r, e);
    }
    SpuriousIff(env, chain, k, r.task.n, r);
  }

  // ---- J-N, K-K3, L: agents, and the ends of a task ----

  ghost predicate SoundKind(env: Env, chain: seq<Record>, r: Record) {
    var agents := AgentsOf(chain);
    match r.body
    case TaskStart(auth, _, from, _, _, by_) =>
      && auth != OtherAuth && by_ != ByOther
      && (auth == NoAuth ==> env.allowUnauthenticated)
      && (auth != NoAuth ==> r.agent in agents && !agents[r.agent].revoked
                             && (auth == agents[r.agent].auth || (auth == MtlsAuth && agents[r.agent].auth == KeyAuth))
                             && auth in {KeyAuth, MtlsAuth, OidcAuth, RelayAuth} && agents[r.agent].auth != MtlsAuth)
      && !from.Garbled? && (from.Dec? ==> Has(chain, from.n) && At(chain, from.n).body.TaskStart?)
    case AgentRegister(auth, _, wellFormed, proven) =>
      r.agent !in agents && wellFormed && auth in {KeyAuth, OidcAuth, RelayAuth} && (auth == KeyAuth ==> proven)
    case AgentRotate(oldKey, _, proven) =>
      && r.agent in agents && !agents[r.agent].revoked && agents[r.agent].auth == KeyAuth
      && agents[r.agent].key == oldKey && proven
    case AgentRevoke(key) => r.agent in agents && !agents[r.agent].revoked && agents[r.agent].key == key
    case TaskEnd(counts, last) =>
      r.task.Dec? && !TaskEnded(chain, r.task.n)
      && counts == Tally(InTask(chain, r.task.n)) && last == LastSeq(InTask(chain, r.task.n), r.task.n)
    case _ => true
  }

  lemma {:induction false} StartIff(env: Env, s: VState, chain: seq<Record>, r: Record)
    requires MirrorsSeen(s, chain) && s.agents == AgentsOf(chain) && r.body.TaskStart? && r.pos == |chain| + 1
    ensures StartCode(env, s, r) == Ok <==> SoundKind(env, chain, r)
  {
    hide AgentsOf;
    if r.body.delegatedFrom.Dec? && Has(chain, r.body.delegatedFrom.n) {
      assert s.seen[r.body.delegatedFrom.n] == SeenOf(At(chain, r.body.delegatedFrom.n));
    }
  }

  lemma {:induction false} EndIff(env: Env, s: VState, chain: seq<Record>, r: Record)
    requires MirrorsEnded(s, chain) && r.body.TaskEnd? && r.task.Dec? && Has(chain, r.task.n) && r.task.n in s.tasks
    requires MirrorsTask(env, s.tasks[r.task.n], chain, r.task.n)
    ensures EndCode(s, r) == Ok <==> SoundKind(env, chain, r)
  {
    hide TaskEnded;
  }

  lemma {:induction false} KindIff(env: Env, s: VState, chain: seq<Record>, r: Record)
    requires MirrorsSeen(s, chain) && MirrorsEnded(s, chain) && s.agents == AgentsOf(chain) && r.pos == |chain| + 1
    requires r.body.TaskEnd? ==> && r.task.Dec? && Has(chain, r.task.n) && r.task.n in s.tasks
                                 && MirrorsTask(env, s.tasks[r.task.n], chain, r.task.n)
    ensures KindCode(env, s, r) == Ok <==> SoundKind(env, chain, r)
  {
    hide StartCode, EndCode, RegisterCode, RotateCode, RevokeCode, MirrorsSeen, MirrorsEnded, MirrorsTask, SoundKind;
    if r.body.TaskStart? {
      StartIff(env, s, chain, r);
    } else if r.body.TaskEnd? {
      EndIff(env, s, chain, r);
    } else {
      AgentIff(env, s, chain, r);
    }
  }

  lemma {:induction false} AgentIff(env: Env, s: VState, chain: seq<Record>, r: Record)
    requires s.agents == AgentsOf(chain) && !r.body.TaskStart? && !r.body.TaskEnd?
    ensures KindCode(env, s, r) == Ok <==> SoundKind(env, chain, r)
  {
    hide AgentsOf;
  }

  // ---- the whole record, the whole chain ----

  ghost predicate Sound(env: Env, chain: seq<Record>, r: Record) {
    && SoundParent(env, chain, r) && SoundRulepack(chain, r) && SoundCost(env, r) && SoundTask(chain, r)
    && SoundApproval(env, chain, r) && SoundBudget(env, chain, r) && SoundKind(env, chain, r)
  }

  /** The verifier passes a record exactly when it is sound after the records before it. */
  lemma {:induction false} VerifyIff(env: Env, s: VState, chain: seq<Record>, r: Record)
    requires Mirrors(env, s, chain) && r.pos == |chain| + 1
    ensures Verify(env, s, r) == Ok <==> Sound(env, chain, r)
  {
    MirrorsHas(env, s, chain);
    hide Mirrors, MirrorsSeen, MirrorsTask, MirrorsTasks, MirrorsEnded, MirrorsRequests, MirrorsDecisions, MirrorsUsed,
         MirrorsPending, MirrorsRest, ParentCode, RulepackCode, CostCode, TaskCode, ApprovalCode, BudgetCode, KindCode,
         SoundRulepack, SoundCost, SoundApproval, SoundBudget, SoundKind;
    ParentIff(env, s, chain, r);
    RulepackIff(s, chain, r);
    CostIff(env, r);
    if SoundParent(env, chain, r) {
      TaskIff(env, s, chain, r);
      if SoundTask(chain, r) {
        ApprovalIff(env, s, chain, r);
        if r.task.Dec? {
          BudgetIff(env, s, chain, s.tasks[r.task.n], r);
        }
        OutsideBudget(env, chain, r);
        KindIff(env, s, chain, r);
      }
    }
  }

  lemma OutsideBudget(env: Env, chain: seq<Record>, r: Record)
    ensures !r.task.Dec? ==> SoundBudget(env, chain, r)
  {
  }

  ghost predicate SoundAt(env: Env, chain: seq<Record>, n: int)
    requires Has(chain, n)
  {
    At(chain, n).pos == n && Sound(env, chain[..n - 1], At(chain, n))
  }

  /** The incremental walk and the stateless reference accept the same chains. */
  lemma {:induction false} AcceptedIff(env: Env, chain: seq<Record>)
    ensures Accepted(env, chain) <==> forall n | Has(chain, n) :: SoundAt(env, chain, n)
  {
    hide Verify, Sound, Mirrors;
    if chain != [] {
      var front, r := chain[..|chain| - 1], chain[|chain| - 1];
      assert front + [r] == chain;
      AcceptedIff(env, front);
      RunStep(env, front, r);
      forall n | Has(front, n) ensures SoundAt(env, front, n) <==> SoundAt(env, chain, n) {
        assert At(front, n) == At(chain, n) && front[..n - 1] == chain[..n - 1];
      }
      if Accepted(env, front) && r.pos == |chain| {
        StateIsRecount(env, front);
        VerifyIff(env, StateAfter(env, front), front, r);
      }
      assert SoundAt(env, chain, |chain|) <==> r.pos == |chain| && Sound(env, front, r);
      assert forall n :: Has(chain, n) <==> Has(front, n) || n == |chain|;
    }
  }
}
