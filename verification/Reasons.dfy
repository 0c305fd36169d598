/** Which check a record fails, said of the records before it: the verifier names the first of these reasons that applies,
    in this order. */
module Reasons {
  import opened Records
  import opened Checks
  import opened Store
  import opened ChainFacts
  import opened Reference

  // ---- the parent ----

  ghost function ParentReason(env: Env, chain: seq<Record>, r: Record): Code {
    if r.body.Unknown? then UnknownType
    else if r.parent.Garbled? then ParentMalformed
    else if r.parent.Blank? then
      if r.body.IntegrityDrift? then ParentMissing
      else if r.body.ToolCall? && (!r.body.uncorrelated || !env.allowOrphans) then OrphanToolCall
      else Ok
    else if r.parent.n > |chain| then ParentNotEarlier
    else if r.parent.n == 0 then ParentMissing
    else
      var parent := At(chain, r.parent.n);
      if || (r.body.ToolCall? && !parent.body.Inference?)
         || ((r.body.ToolResult? || r.body.Egress?) && !parent.body.ToolCall?)
         || (r.body.IntegrityDrift? && !parent.body.IntegrityBaseline?) then ParentType
      else if r.body.ToolCall? && !Asks(parent.body.uses, r) then ArgsNotRequested
      else if r.body.ToolResult? && HasResult(chain, r.parent.n) then DuplicateToolResult
      else if r.body.IntegrityDrift? && parent.inputHash != r.inputHash then DriftBaselineMismatch
      else Ok
  }

  /** Some tool_use asks for these arguments, under the call's own id when it names one. */
  ghost predicate Asks(uses: seq<ToolUse>, r: Record)
    requires r.body.ToolCall?
  {
    exists u :: u in uses && u.argsHash == r.inputHash && (r.body.toolUseId.Some? ==> u.id == r.body.toolUseId)
  }

  lemma {:induction false} ParentReasonIs(env: Env, s: VState, chain: seq<Record>, r: Record)
    requires MirrorsSeen(s, chain) && MirrorsRest(s, chain) && r.pos == |chain| + 1
    ensures ParentCode(env, s, r) == ParentReason(env, chain, r)
  {
    hide RulepackOf, AgentsOf, HasResult;
    if r.parent.Dec? && Has(chain, r.parent.n) {
      assert s.seen[r.parent.n] == SeenOf(At(chain, r.parent.n));
    }
  }

  // ---- the rule pack and the cost ----

  ghost function RulepackReason(chain: seq<Record>, r: Record): Code {
    var before := RulepackOf(chain);
    if r.rulepack == "" && before != "" then SchemaDowngrade
    else if r.body.RulepackChange? && !(r.body.before == before && r.body.after == r.rulepack) then RulepackChangeMismatch
    else if !r.body.RulepackChange? && r.rulepack != before then RulepackUnsealed
    else Ok
  }

  lemma {:induction false} RulepackReasonIs(s: VState, chain: seq<Record>, r: Record)
    requires MirrorsRest(s, chain)
    ensures RulepackCode(s, r) == RulepackReason(chain, r)
  {
  }

  lemma {:induction false} CostReasonIs(env: Env, r: Record)
    ensures CostCode(env, r) == if SoundCost(env, r) then Ok else CostMismatch
  {
    CostIff(env, r);
    hide SoundCost, CostFits;
  }

  // ---- the task ----

  /** The task the record names, or that it names none. */
  ghost function PlaceReason(chain: seq<Record>, r: Record): Code {
    var b := r.body;
    if r.task.Garbled? || (r.task.Dec? && r.task.n == 0) then TaskMissing
    else if r.task.Dec? && r.task.n > |chain| then TaskNotEarlier
    else if r.task.Dec? && !At(chain, r.task.n).body.TaskStart? then TaskType
    else if r.task.Blank? && (b.ToolCall? || b.ToolResult? || b.Egress?) then RecordOutsideTask
    else if r.task.Blank? && b.TaskEnd? then TaskEndWithoutTaskStart
    else if r.task.Dec? && (b.TaskStart? || b.PolicyChange? || b.RulepackChange? || b.AgentRegister? || b.AgentRotate?
                            || b.AgentRevoke? || b.AgentIdentityUpdate?) then TaskSeqNotAllowed
    else Ok
  }

  ghost function TaskReason(chain: seq<Record>, r: Record): Code {
    if PlaceReason(chain, r) != Ok then PlaceReason(chain, r)
    else if r.task.Dec? && TaskEnded(chain, r.task.n) && !r.body.TaskEnd? then TaskAlreadyEnded
    else if r.parent.Dec? && Has(chain, r.parent.n) && !r.body.IntegrityDrift? && At(chain, r.parent.n).task != r.task
      then ParentInDifferentTask
    else if r.task.Dec? && r.agent != At(chain, r.task.n).agent then AgentIdDiffers
    else if r.task.Dec? && r.principal != At(chain, r.task.n).principal then PrincipalDiffers
    else Ok
  }

  lemma PlaceReasonIs(s: VState, chain: seq<Record>, r: Record)
    requires MirrorsSeen(s, chain) && r.pos == |chain| + 1
    ensures PlaceReason(chain, r) != Ok ==> TaskCode(s, r) == PlaceReason(chain, r)
    ensures PlaceReason(chain, r) == Ok ==>
              var task := TaskOf(s, r);
              TaskCode(s, r)
              == if task.Some? && task.value.ended && !r.body.TaskEnd? then TaskAlreadyEnded
                 else if r.parent.Dec? && r.parent.n in s.seen && !r.body.IntegrityDrift?
                         && s.seen[r.parent.n].task != r.task then ParentInDifferentTask
                 else if task.Some? && r.agent != task.value.agent then AgentIdDiffers
                 else if task.Some? && r.principal != task.value.principal then PrincipalDiffers
                 else Ok
  {
    if r.task.Dec? {
      SeenIs(s, chain, r.task.n);
    }
    hide MirrorsSeen, TaskOf;
  }

  lemma {:induction false} TaskReasonIs(env: Env, s: VState, chain: seq<Record>, r: Record)
    requires MirrorsSeen(s, chain) && MirrorsTasks(env, s, chain) && MirrorsEnded(s, chain) && r.pos == |chain| + 1
    ensures TaskCode(s, r) == TaskReason(chain, r)
  {
    hide MirrorsSeen, MirrorsTasks, MirrorsEnded, TaskEnded, TaskCode;
    PlaceReasonIs(s, chain, r);
    if r.parent.Dec? {
      SeenIs(s, chain, r.parent.n);
    }
    if r.task.Dec? {
      TaskIs(env, s, chain, r.task.n);
      if PlaceReason(chain, r) == Ok {
        PlacedInTask(chain, r);
      }
    }
    hide PlaceReason;
  }

  lemma PlacedInTask(chain: seq<Record>, r: Record)
    requires r.task.Dec? && PlaceReason(chain, r) == Ok
    ensures Has(chain, r.task.n) && At(chain, r.task.n).body.TaskStart?
  {
  }

  lemma SeenIs(s: VState, chain: seq<Record>, n: nat)
    requires MirrorsSeen(s, chain)
    ensures n in s.seen <==> Has(chain, n)
    ensures Has(chain, n) ==> s.seen[n] == SeenOf(At(chain, n))
  {
  }

  lemma TaskIs(env: Env, s: VState, chain: seq<Record>, t: nat)
    requires MirrorsTasks(env, s, chain) && MirrorsEnded(s, chain)
    ensures t in s.tasks <==> Has(chain, t) && At(chain, t).body.TaskStart?
    ensures t in s.tasks ==>
              var (k, start) := (s.tasks[t], At(chain, t));
              k.agent == start.agent && k.principal == start.principal && (k.ended <==> TaskEnded(chain, t))
  {
    hide MirrorsTask, TaskEnded;
    if t in s.tasks {
      assert MirrorsTask(env, s.tasks[t], chain, t);
      TaskIdentity(env, s.tasks[t], chain, t);
    }
  }

  // ---- approvals ----

  /** The decision is on the one request of its approval, which nothing answered yet, as its outcome demands. */
  ghost predicate OnRequest(chain: seq<Record>, r: Record, q: int)
    requires r.body.ApprovalDecision?
  {
    && Has(chain, q) && At(chain, q).body.ApprovalRequest? && At(chain, q).body.aid == r.body.aid
    && (forall d | Has(chain, d) && At(chain, d).body.ApprovalDecision? :: At(chain, d).body.aid != r.body.aid)
    && r.parent == Dec(q) && r.task == At(chain, q).task && r.inputHash == At(chain, q).inputHash
    && (if r.body.outcome == Grant then r.mode == RecordOnly && r.decision == Allow
        else r.mode == Enforce && r.decision == Block)
  }

  /** A person decided at or after the deadline. */
  ghost predicate Late(chain: seq<Record>, r: Record, q: int)
    requires r.body.ApprovalDecision?
  {
    && OnRequest(chain, r, q) && (r.body.outcome == Grant || r.body.outcome == Refusal)
    && r.ts >= At(chain, q).ts + At(chain, q).body.timeoutMs
  }

  /** The principal decided in person, in time and with enough assurance, where another had to. */
  ghost predicate OwnApprover(chain: seq<Record>, r: Record, q: int)
    requires r.body.ApprovalDecision?
  {
    && OnRequest(chain, r, q) && (r.body.outcome == Grant || r.body.outcome == Refusal)
    && var req := At(chain, q);
       && r.ts < req.ts + req.body.timeoutMs && r.body.assurance.Some?
       && AtLeast(r.body.assurance.value, req.body.minAssurance)
       && req.body.sod && r.body.approver == Some(r.principal) && r.principal.Human?
  }

  ghost function DecisionReason(chain: seq<Record>, r: Record): Code
    requires r.body.ApprovalDecision?
  {
    if SoundDecision(chain, r) then Ok
    else if exists q :: Late(chain, r, q) then ApprovalAfterDeadline
    else if exists q :: OwnApprover(chain, r, q) then ApproverIsPrincipal
    else ApprovalDecisionInvalid
  }

  /** The decision was asked for on this very call: only its being cited before can be wrong with the citation. */
  ghost predicate CitesOwn(env: Env, chain: seq<Record>, r: Record, d: int)
    requires r.body.ToolCall?
  {
    exists q :: AskedBy(chain, d, q) && CiteAgrees(env, chain, r, d, q)
  }

  ghost function ApprovalReason(env: Env, chain: seq<Record>, r: Record): Code {
    var b := r.body;
    if b.ApprovalRequest? then if SoundRequest(env, chain, r) then Ok else ApprovalRequestMalformed
    else if b.ApprovalDecision? then DecisionReason(chain, r)
    else if b.ToolCall? then
      if SoundCall(env, chain, r) then Ok
      else if b.approvalSeq.Int? && CitesOwn(env, chain, r, b.approvalSeq.i) then ApprovalReused
      else ApprovalMismatch
    else if b.TaskEnd? && !AllDecided(chain, r.task) then ApprovalUndecided
    else Ok
  }

  lemma {:induction false} DecisionReasonIs(env: Env, s: VState, chain: seq<Record>, r: Record)
    requires Sequenced(chain) && MirrorsRequests(s, chain) && MirrorsDecisions(s, chain) && r.body.ApprovalDecision?
    ensures ApprovalCode(env, s, r) == DecisionReason(chain, r)
  {
    hide MirrorsRequests, MirrorsDecisions, RequestOf, SoundDecision, RequestFits, CiteFits, UncitedConfirm;
    var aid := r.body.aid;
    DecisionIff(env, s, chain, r);
    DecidedIff(s, chain, aid);
    RequestedIff(s, chain, aid);
    if aid in s.requests && aid !in s.decided {
      AskedAt(s, chain, aid);
      OnRequestIs(s, chain, r, s.requests[aid].pos);
    }
  }

  lemma {:induction false} OnRequestIs(s: VState, chain: seq<Record>, r: Record, q: int)
    requires r.body.ApprovalDecision? && r.body.aid !in s.decided && r.body.aid in s.requests
    requires Has(chain, q) && At(chain, q).body.ApprovalRequest? && At(chain, q).pos == q
    requires At(chain, q).body.aid == r.body.aid && s.requests[r.body.aid] == RequestOf(At(chain, q))
    requires !exists d :: Has(chain, d) && At(chain, d).body.ApprovalDecision? && At(chain, d).body.aid == r.body.aid
    ensures DecisionCode(s, r) == ApprovalAfterDeadline <==> Late(chain, r, q)
    ensures DecisionCode(s, r) == ApproverIsPrincipal <==> OwnApprover(chain, r, q)
    ensures DecisionCode(s, r) in {Ok, ApprovalAfterDeadline, ApproverIsPrincipal, ApprovalDecisionInvalid}
  {
  }

  lemma {:induction false} CallReasonIs(env: Env, s: VState, chain: seq<Record>, r: Record)
    requires MirrorsRequests(s, chain) && MirrorsDecisions(s, chain) && MirrorsUsed(s, chain) && s.agents == AgentsOf(chain)
    requires r.body.ToolCall?
    ensures ApprovalCode(env, s, r) == ApprovalReason(env, chain, r)
  {
    hide CiteFits, UncitedConfirm, MirrorsRequests, MirrorsDecisions, MirrorsUsed, SoundCall, AgentsOf, CitesOwn, Cited,
         DecisionReason, DecisionCode, SoundRequest, RequestFits, AllDecided, TaskOf;
    CallIff(env, s, chain, r);
    if r.body.approvalSeq.Int? {
      CiteReason(env, s, chain, r);
    } else {
      NotCited(s, r.body);
    }
  }

  lemma NotCited(s: VState, b: Body)
    requires b.ToolCall? && !b.approvalSeq.Int?
    ensures Cited(s, b).None?
  {
  }

  lemma CiteReason(env: Env, s: VState, chain: seq<Record>, r: Record)
    requires MirrorsRequests(s, chain) && MirrorsDecisions(s, chain) && MirrorsUsed(s, chain)
    requires r.body.ToolCall? && r.body.approvalSeq.Int?
    ensures CitesOwn(env, chain, r, r.body.approvalSeq.i) <==>
            Cited(s, r.body).Some? && CiteFits(env, r, Cited(s, r.body).value)
  {
    var d := r.body.approvalSeq.i;
    CitedIs(s, chain, r);
    hide CiteFits, CiteAgrees, RequestOf, MirrorsRequests, MirrorsDecisions, MirrorsUsed, Cited;
    if Cited(s, r.body).Some? {
      CiteIff(env, chain, r, Cited(s, r.body).value, d);
    }
  }

  lemma {:induction false} ApprovalReasonIs(env: Env, s: VState, chain: seq<Record>, r: Record)
    requires Mirrors(env, s, chain) && SoundTask(chain, r)
    requires if r.task.Dec? then r.task.n in s.tasks && TaskOf(s, r).Some? else TaskOf(s, r).None?
    requires r.parent.Dec? ==> Has(chain, r.parent.n)
    ensures ApprovalCode(env, s, r) == ApprovalReason(env, chain, r)
  {
    MirrorsHas(env, s, chain);
    hide Mirrors, MirrorsSeen, MirrorsTasks, MirrorsEnded, MirrorsRequests, MirrorsDecisions, MirrorsUsed, MirrorsPending,
         MirrorsRest, SoundRequest, SoundCall, RequestFits, AllDecided, SoundTask, DecisionReason, CitesOwn;
    TaskNeeded(chain, r);
    if r.body.ApprovalRequest? {
      RequestIff(env, s, chain, r);
    } else if r.body.ApprovalDecision? {
      DecisionReasonIs(env, s, chain, r);
    } else if r.body.ToolCall? {
      CallReasonIs(env, s, chain, r);
    } else if r.body.TaskEnd? {
      EndApprovalIff(env, s, chain, r);
    }
  }

  // ---- budgets ----

  ghost function EntryReason(env: Env, chain: seq<Record>, rows: seq<Record>, r: Record, e: Entry): Code {
    if e.BadEntry? || !MetricOf(e.metric, r.body) || e.used != Measure(env, rows, e.metric) then BudgetCounterMismatch
    else if Past(env, rows, r.body, e) && !(Over(e.bid, e.metric) in r.hits && (r.decision == Block || CitesGrant(chain, r)))
      then BudgetUnenforced
    else if UnderPack(env, r) && !PackGives(env.pack.value, e.bid, e.metric, e.limit) then BudgetLimitNotInPack
    else Ok
  }

  /** The code is that of the first entry that fails. */
  ghost predicate FirstFailing(env: Env, chain: seq<Record>, rows: seq<Record>, r: Record, es: seq<Entry>, i: int) {
    && 0 <= i < |es| && EntryReason(env, chain, rows, r, es[i]) != Ok
    && forall j | 0 <= j < i :: EntryReason(env, chain, rows, r, es[j]) == Ok
  }

  lemma {:induction false} EntryReasonIs(env: Env, s: VState, chain: seq<Record>, k: Task, t: int, r: Record, e: Entry)
    requires Has(chain, t) && MirrorsTask(env, k, chain, t)
    requires CitesGrant(chain, r) <==> Cited(s, r.body).Some? && Cited(s, r.body).value.outcome == Grant
    ensures EntryCode(env, s, k, r, e) == EntryReason(env, chain, InTask(chain, t), r, e)
  {
    hide MirrorsTask, CitesGrant, Cited, PackGives, PackLimit, OwnCount, Measure, Admitted, Past, InTask, SoundEntry;
    if e.Entry? {
      EntryIff(env, s, chain, k, t, r, e);
      CountIs(env, chain, k, t, e.metric);
      if PackFor(env, r).Some? {
        PackGivesIff(PackFor(env, r).value.budgets, PackFor(env, r).value, e.bid, e.metric, e.limit);
      }
    }
  }

  lemma CountIs(env: Env, chain: seq<Record>, k: Task, t: int, m: Metric)
    requires Has(chain, t) && MirrorsTask(env, k, chain, t)
    ensures OwnCount(env, k, m) == Measure(env, InTask(chain, t), m)
  {
    hide CountMatching, MatchesAt;
    if m.ToolCallsBy? {
      MatchesCount(env, CallsOf(InTask(chain, t)), m.glob);
    }
  }

  lemma {:induction false} EntriesReason(env: Env, s: VState, chain: seq<Record>, k: Task, t: int, r: Record, es: seq<Entry>)
    requires Has(chain, t) && MirrorsTask(env, k, chain, t)
    requires CitesGrant(chain, r) <==> Cited(s, r.body).Some? && Cited(s, r.body).value.outcome == Grant
    ensures EntriesCode(env, s, k, r, es) == Ok <==>
            forall i | 0 <= i < |es| :: EntryReason(env, chain, InTask(chain, t), r, es[i]) == Ok
    ensures forall i | FirstFailing(env, chain, InTask(chain, t), r, es, i) ::
              EntriesCode(env, s, k, r, es) == EntryReason(env, chain, InTask(chain, t), r, es[i])
  {
    hide MirrorsTask, EntryCode, EntryReason, CitesGrant, Cited, InTask;
    var rows := InTask(chain, t);
    if es != [] {
      var rest := es[1..];
      EntryReasonIs(env, s, chain, k, t, r, es[0]);
      EntriesReason(env, s, chain, k, t, r, rest);
      forall i | FirstFailing(env, chain, rows, r, es, i) && i > 0 ensures FirstFailing(env, chain, rows, r, rest, i - 1) {
        assert forall j | 0 <= j < i - 1 :: rest[j] == es[j + 1];
      }
      if EntriesCode(env, s, k, r, es) == Ok {
        assert forall i | 0 < i < |es| :: es[i] == rest[i - 1];
      }
    }
  }

  /** Some budget hit is no excess of a limit the record carries. */
  ghost predicate Stray(env: Env, rows: seq<Record>, r: Record) {
    && !r.body.ApprovalRequest? && !r.body.ApprovalDecision?
    && exists h :: h in r.hits && h.Over?
                   && !exists e :: e in SealedEntries(r.body) && e.Entry? && h == Over(e.bid, e.metric)
                                   && Past(env, rows, r.body, e)
  }

  ghost predicate BudgetReason(env: Env, chain: seq<Record>, r: Record, code: Code)
    requires r.task.Dec?
  {
    var rows, es := InTask(chain, r.task.n), SealedEntries(r.body);
    if r.body.ToolCall? && !r.body.httpShaped then code == HttpToolCallMalformed
    else if r.body.ToolCall? && r.body.afterTheFact && !(r.mode == RecordOnly && r.decision != Block)
      then code == AfterTheFactEnforced
    else if BadEntries(r.body) then code == BudgetCounterMismatch
    else
      && (forall i | FirstFailing(env, chain, rows, r, es, i) :: code == EntryReason(env, chain, rows, r, es[i]))
      && (code == Ok || code == BudgetSpuriousHit ==>
            && (forall i | 0 <= i < |es| :: EntryReason(env, chain, rows, r, es[i]) == Ok)
            && code == if Stray(env, rows, r) then BudgetSpuriousHit else Ok)
  }

  lemma {:induction false} BudgetReasonIs(env: Env, s: VState, chain: seq<Record>, k: Task, r: Record)
    requires r.task.Dec? && Has(chain, r.task.n) && MirrorsTask(env, k, chain, r.task.n)
    requires MirrorsRequests(s, chain) && MirrorsDecisions(s, chain) && MirrorsUsed(s, chain)
    ensures BudgetReason(env, chain, r, BudgetCode(env, s, k, r))
  {
    GrantIff(s, chain, r);
    EntriesSealed(r.body);
    var rows, es := InTask(chain, r.task.n), SealedEntries(r.body);
    hide SealedEntries, BadEntries, Entries, InTask, MirrorsTask, MirrorsRequests, MirrorsDecisions, MirrorsUsed,
         CitesGrant, Cited, EntryReason, EntryCode, Spurious, Stray, EntriesCode, FirstFailing;
    EntriesReason(env, s, chain, k, r.task.n, r, es);
    EntryCodes(env, s, k, r, es);
    StrayIff(env, s, chain, k, r);
  }

  lemma StrayIff(env: Env, s: VState, chain: seq<Record>, k: Task, r: Record)
    requires r.task.Dec? && Has(chain, r.task.n) && MirrorsTask(env, k, chain, r.task.n)
    requires CitesGrant(chain, r) <==> Cited(s, r.body).Some? && Cited(s, r.body).value.outcome == Grant
    ensures Stray(env, InTask(chain, r.task.n), r) <==>
            !r.body.ApprovalRequest? && !r.body.ApprovalDecision? && Spurious(env, k, r)
  {
    EntriesSealed(r.body);
    hide SealedEntries, Entries, InTask, MirrorsTask, CitesGrant, Cited, Admitted, Past, EntryCode, SoundEntry, Spurious;
    forall e | e in Entries(r.body) && e.Entry?
      ensures Admitted(env, k, r.body, e) <==> !Past(env, InTask(chain, r.task.n), r.body, e)
    {
      EntryIff(env, s, chain, k, r.task.n, r, e);
    }
    SpuriousIff(env, chain, k, r.task.n, r);
  }

  lemma {:induction false} EntryCodes(env: Env, s: VState, k: Task, r: Record, es: seq<Entry>)
    ensures EntriesCode(env, s, k, r, es) in {Ok, BudgetCounterMismatch, BudgetUnenforced, BudgetLimitNotInPack}
  {
    if es != [] {
      EntryCodes(env, s, k, r, es[1..]);
    }
  }

  // ---- tasks and agents ----

  ghost function AuthReason(env: Env, agents: map<string, Agent>, r: Record): Code
    requires r.body.TaskStart?
  {
    var auth := r.body.agentAuth;
    if auth == OtherAuth || r.body.principalAuth == ByOther || (auth == NoAuth && !env.allowUnauthenticated)
      then UnauthenticatedAgent
    else if auth != NoAuth && r.agent !in agents then AgentNotRegistered
    else if auth != NoAuth && agents[r.agent].revoked then AgentIsRevoked
    else if auth != NoAuth && !Consistent(agents[r.agent].auth, auth) then AgentAuthInconsistent
    else Ok
  }

  ghost function StartReason(env: Env, chain: seq<Record>, r: Record): Code
    requires r.body.TaskStart?
  {
    var from := r.body.delegatedFrom;
    if AuthReason(env, AgentsOf(chain), r) != Ok then AuthReason(env, AgentsOf(chain), r)
    else if from.Garbled? || (from.Dec? && !(Has(chain, from.n) && At(chain, from.n).body.TaskStart?))
      then DelegatedFromMissing
    else Ok
  }

  /** A registered key agent may also come over mutual TLS; the others come the way they registered. */
  predicate Consistent(registered: AgentAuth, auth: AgentAuth) {
    || (registered == KeyAuth && (auth == KeyAuth || auth == MtlsAuth))
    || (registered == OidcAuth && auth == OidcAuth)
    || (registered == RelayAuth && auth == RelayAuth)
  }

  ghost function RegisterReason(chain: seq<Record>, r: Record): Code
    requires r.body.AgentRegister?
  {
    var (agents, auth) := (AgentsOf(chain), r.body.auth);
    if r.agent in agents then AgentAlreadyRegistered
    else if !r.body.wellFormed || (auth != KeyAuth && auth != OidcAuth && auth != RelayAuth) then AgentRegisterMalformed
    else if auth == KeyAuth && !r.body.proven then AgentSelfProofInvalid
    else Ok
  }

  ghost function RotateReason(chain: seq<Record>, r: Record): Code
    requires r.body.AgentRotate?
  {
    var agents := AgentsOf(chain);
    if r.agent !in agents then AgentNotRegistered
    else if agents[r.agent].revoked then AgentIsRevoked
    else if agents[r.agent].auth != KeyAuth || r.body.oldKey != agents[r.agent].key then RotationKeyMismatch
    else if !r.body.proven then AgentRotationProofInvalid
    else Ok
  }

  ghost function RevokeReason(chain: seq<Record>, r: Record): Code
    requires r.body.AgentRevoke?
  {
    var agents := AgentsOf(chain);
    if r.agent !in agents then AgentNotRegistered
    else if agents[r.agent].revoked then AgentAlreadyRevoked
    else if r.body.key != agents[r.agent].key then RevokeKeyMismatch
    else Ok
  }

  ghost function EndReason(chain: seq<Record>, r: Record): Code
    requires r.body.TaskEnd?
  {
    if !r.task.Dec? then Ok
    else if TaskEnded(chain, r.task.n) then DuplicateTaskEnd
    else if r.body.counts != Tally(InTask(chain, r.task.n)) || r.body.lastSeq != LastSeq(InTask(chain, r.task.n), r.task.n)
      then TaskEndCountsMismatch
    else Ok
  }

  ghost function KindReason(env: Env, chain: seq<Record>, r: Record): Code {
    if r.body.TaskStart? then StartReason(env, chain, r)
    else if r.body.TaskEnd? then EndReason(chain, r)
    else if r.body.AgentRegister? then RegisterReason(chain, r)
    else if r.body.AgentRotate? then RotateReason(chain, r)
    else if r.body.AgentRevoke? then RevokeReason(chain, r)
    else Ok
  }

  lemma AuthReasonIs(env: Env, s: VState, r: Record)
    requires r.body.TaskStart?
    ensures AuthReason(env, s.agents, r) != Ok ==> StartCode(env, s, r) == AuthReason(env, s.agents, r)
    ensures AuthReason(env, s.agents, r) == Ok ==>
              var from := r.body.delegatedFrom;
              StartCode(env, s, r)
              == if from.Blank? || (from.Dec? && from.n < r.pos && from.n in s.seen && s.seen[from.n].body.TaskStart?) then Ok
                 else DelegatedFromMissing
  {
  }

  lemma StartReasonIs(env: Env, s: VState, chain: seq<Record>, r: Record)
    requires MirrorsSeen(s, chain) && s.agents == AgentsOf(chain) && r.pos == |chain| + 1 && r.body.TaskStart?
    ensures StartCode(env, s, r) == StartReason(env, chain, r)
  {
    AuthReasonIs(env, s, r);
    if r.body.delegatedFrom.Dec? {
      SeenIs(s, chain, r.body.delegatedFrom.n);
    }
    hide AgentsOf, MirrorsSeen, StartCode, AuthReason;
  }

  lemma AgentReasonIs(s: VState, chain: seq<Record>, r: Record)
    requires s.agents == AgentsOf(chain)
    ensures r.body.AgentRegister? ==> RegisterCode(s, r) == RegisterReason(chain, r)
    ensures r.body.AgentRotate? ==> RotateCode(s, r) == RotateReason(chain, r)
    ensures r.body.AgentRevoke? ==> RevokeCode(s, r) == RevokeReason(chain, r)
  {
    hide AgentsOf;
  }

  lemma EndReasonIs(env: Env, s: VState, chain: seq<Record>, r: Record)
    requires MirrorsEnded(s, chain) && r.body.TaskEnd?
    requires r.task.Dec? ==>
               Has(chain, r.task.n) && r.task.n in s.tasks && MirrorsTask(env, s.tasks[r.task.n], chain, r.task.n)
    requires !r.task.Dec? ==> TaskOf(s, r).None?
    ensures EndCode(s, r) == EndReason(chain, r)
  {
    hide TaskEnded;
  }

  lemma {:induction false} KindReasonIs(env: Env, s: VState, chain: seq<Record>, r: Record)
    requires MirrorsSeen(s, chain) && MirrorsEnded(s, chain) && s.agents == AgentsOf(chain) && r.pos == |chain| + 1
    requires r.body.TaskEnd? && r.task.Dec? ==>
               Has(chain, r.task.n) && r.task.n in s.tasks && MirrorsTask(env, s.tasks[r.task.n], chain, r.task.n)
    requires r.body.TaskEnd? && !r.task.Dec? ==> TaskOf(s, r).None?
    ensures KindCode(env, s, r) == KindReason(env, chain, r)
  {
    hide AgentsOf, MirrorsSeen, MirrorsEnded, MirrorsTask, TaskOf;
    hide StartReason, EndReason, RegisterReason, RotateReason, RevokeReason, StartCode, EndCode, RegisterCode, RotateCode, RevokeCode;
    if r.body.TaskStart? {
      StartReasonIs(env, s, chain, r);
    } else if r.body.TaskEnd? {
      EndReasonIs(env, s, chain, r);
    } else {
      AgentReasonIs(s, chain, r);
    }
  }

  // ---- the whole record ----

  /** The first reason, in the verifier's order. */
  ghost predicate FirstReason(env: Env, chain: seq<Record>, r: Record, code: Code) {
    if ParentReason(env, chain, r) != Ok then code == ParentReason(env, chain, r)
    else if RulepackReason(chain, r) != Ok then code == RulepackReason(chain, r)
    else if !SoundCost(env, r) then code == CostMismatch
    else if TaskReason(chain, r) != Ok then code == TaskReason(chain, r)
    else if ApprovalReason(env, chain, r) != Ok then code == ApprovalReason(env, chain, r)
    else if r.task.Dec? && !SoundBudget(env, chain, r) then code != Ok && BudgetReason(env, chain, r, code)
    else code == KindReason(env, chain, r)
  }

  /** Past the task checks the rest of the reasons are the rest of the codes. */
  lemma LaterReasons(env: Env, s: VState, chain: seq<Record>, r: Record)
    requires Mirrors(env, s, chain) && r.pos == |chain| + 1 && ParentCode(env, s, r) == Ok && TaskCode(s, r) == Ok
    ensures ApprovalCode(env, s, r) == ApprovalReason(env, chain, r) && KindCode(env, s, r) == KindReason(env, chain, r)
    ensures TaskOf(s, r).Some? <==> r.task.Dec?
    ensures r.task.Dec? ==>
              var code := BudgetCode(env, s, TaskOf(s, r).value, r);
              (code == Ok <==> SoundBudget(env, chain, r)) && BudgetReason(env, chain, r, code)
  {
    MirrorsHas(env, s, chain);
    hide Mirrors, MirrorsSeen, MirrorsTask, MirrorsTasks, MirrorsEnded, MirrorsRequests, MirrorsDecisions, MirrorsUsed,
         MirrorsPending, MirrorsRest, ParentCode, TaskCode, ApprovalCode, BudgetCode, KindCode, SoundBudget,
         ApprovalReason, BudgetReason, KindReason, SoundParent, SoundTask;
    ParentIff(env, s, chain, r);
    ParentHas(env, chain, r);
    TaskIff(env, s, chain, r);
    ApprovalReasonIs(env, s, chain, r);
    KindReasonIs(env, s, chain, r);
    if r.task.Dec? {
      BudgetReasonIs(env, s, chain, s.tasks[r.task.n], r);
      BudgetIff(env, s, chain, s.tasks[r.task.n], r);
    }
  }

  /** The chain of codes is the chain of reasons. */
  lemma FirstOfEach(env: Env, s: VState, chain: seq<Record>, r: Record)
    requires ParentCode(env, s, r) == ParentReason(env, chain, r) && RulepackCode(s, r) == RulepackReason(chain, r)
    requires CostCode(env, r) == (if SoundCost(env, r) then Ok else CostMismatch) && TaskCode(s, r) == TaskReason(chain, r)
    requires ParentCode(env, s, r) == Ok && TaskCode(s, r) == Ok ==>
               && ApprovalCode(env, s, r) == ApprovalReason(env, chain, r) && KindCode(env, s, r) == KindReason(env, chain, r)
               && (TaskOf(s, r).Some? <==> r.task.Dec?)
               && (r.task.Dec? ==>
                     var code := BudgetCode(env, s, TaskOf(s, r).value, r);
                     (code == Ok <==> SoundBudget(env, chain, r)) && BudgetReason(env, chain, r, code))
    ensures FirstReason(env, chain, r, Verify(env, s, r))
  {
    hide ParentCode, RulepackCode, CostCode, TaskCode, ApprovalCode, BudgetCode, KindCode, TaskOf, SoundCost, SoundBudget,
         ParentReason, RulepackReason, TaskReason, ApprovalReason, BudgetReason, KindReason;
  }

  /** The verifier reports the first reason that applies. */
  lemma {:induction false} ReasonIs(env: Env, s: VState, chain: seq<Record>, r: Record)
    requires Mirrors(env, s, chain) && r.pos == |chain| + 1
    ensures FirstReason(env, chain, r, Verify(env, s, r))
  {
    MirrorsHas(env, s, chain);
    hide Mirrors, MirrorsSeen, MirrorsTask, MirrorsTasks, MirrorsEnded, MirrorsRest, ParentCode, RulepackCode, CostCode,
         TaskCode, ApprovalCode, BudgetCode, KindCode, TaskOf, SoundCost, SoundBudget, Verify, FirstReason;
    hide ParentReason, RulepackReason, TaskReason, ApprovalReason, BudgetReason, KindReason;
    ParentReasonIs(env, s, chain, r);
    RulepackReasonIs(s, chain, r);
    CostReasonIs(env, r);
    TaskReasonIs(env, s, chain, r);
    if ParentCode(env, s, r) == Ok && TaskCode(s, r) == Ok {
      LaterReasons(env, s, chain, r);
    }
    FirstOfEach(env, s, chain, r);
  }

  lemma ParentHas(env: Env, chain: seq<Record>, r: Record)
    ensures SoundParent(env, chain, r) && r.parent.Dec? ==> Has(chain, r.parent.n)
  {
  }

  /** After any accepted chain, the code for the next record is the first reason its records give. */
  lemma {:induction false} FailureIs(env: Env, chain: seq<Record>, r: Record)
    requires Accepted(env, chain) && r.pos == |chain| + 1
    ensures FirstReason(env, chain, r, Verify(env, StateAfter(env, chain), r))
  {
    StateIsRecount(env, chain);
    ReasonIs(env, StateAfter(env, chain), chain, r);
    hide *;
  }
}
