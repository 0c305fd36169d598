/** The writer refines the verifier: every chain the ledger can write, by any interleaving of its endpoints, passes
    the verifier, under the conditions `InScope` states on each call and the state it meets. */
module Refinement {
  import opened Records
  import opened Checks
  import opened Store
  import opened ChainFacts
  import opened Budgets
  import opened Writer
  import opened BudgetStamps
  import opened Runs
  import opened ApprovalRuns

  // ---- hypotheses ----

  /** The verifier's rule pack is named by a SHA-256, and the ledger loads no other pack with that hash. */
  ghost predicate SamePack(env: Env, pack: Pack) {
    env.pack.Some? && env.pack.value.hash == pack.hash ==> env.pack.value == pack
  }

  predicate EnvOk(env: Env) { env.pack.Some? ==> env.pack.value.hash != "" }

  /** What the ledger does not check and the verifier does, of a sealed record alone. */
  predicate RecordInScope(env: Env, r: Record) {
    && (r.parent.Blank? && Orphanable(r.body) ==> env.allowOrphans)
    && (r.body.ToolCall? ==>
          && r.body.httpShaped
          && (r.body.afterTheFact ==> r.mode == RecordOnly && r.decision != Block)
          && (r.decision != Block && (exists h <- r.hits :: h.Over?) ==> !r.body.approvalSeq.NoInt?))
  }

  ghost predicate PackScope(env: Env, ev: Event) {
    && (ev.AdoptPack? ==> SamePack(env, ev.newPack))
    && (ev.Restart? && ev.loaded.Some? ==> SamePack(env, ev.loaded.value))
  }

  /** Packs adopted in the run under the hash of the verifier's pack are that pack. */
  ghost predicate PackRun(env: Env, evs: seq<Event>) {
    forall i | 0 <= i < |evs| :: PackScope(env, evs[i])
  }

  /** Every host limit in force over the task: the ledger has counted as many hosts as the verifier, and this host is
      a string, or new to the ledger, or within the limit either way. */
  ghost predicate HostsFit(env: Env, w: WState, t: nat, body: Body)
    requires Has(w.store, t) && At(w.store, t).body.TaskStart?
  {
    body.Egress? && w.pack.Some? ==>
      var rows := InTask(w.store, t);
      var shown := HostsShown(env, rows);
      forall b | b in w.pack.value.budgets && Concerns(b, At(w.store, t)) && b.limits.egressHosts.Some? ::
        && |shown| == |HostsOf(env, rows)|
        && (body.host.Str? || env.lower(TextOf(body.host)) !in shown || |shown| + 1 <= b.limits.egressHosts.value)
  }

  /** What /api/agent/seal does not check of a call and the verifier does. */
  predicate CallInScope(env: Env, w: WState, d: Record) {
    && (d.parent.Blank? && d.body.ToolCall? && d.body.uncorrelated ==> env.allowOrphans)
    && (d.body.ToolCall? ==>
          && d.body.httpShaped
          && (d.body.afterTheFact ==> !w.halted && d.mode == RecordOnly && d.decision != Block)
          && (!w.halted && d.decision != Block && (exists h <- d.hits :: h.Over?) ==> !d.body.approvalSeq.NoInt?))
  }

  /** The condition on a call and the state it meets under which what it seals passes the verifier. */
  ghost predicate InScope(env: Env, w: WState, ev: Event) {
    match ev
    case Act(_, _, place, _, draft) =>
      && CallInScope(env, w, draft)
      && (place.Dec? && !w.halted && Has(w.store, place.n) && At(w.store, place.n).body.TaskStart? ==>
            HostsFit(env, w, place.n, draft.body))
    case Ask(_, _, _, _, parent, _, _, _, uncorrelated, _, _, _) => parent.Blank? && uncorrelated ==> env.allowOrphans
    case _ => true
  }

  // ---- the invariant ----

  ghost predicate PackHeld(env: Env, w: WState) {
    && (w.pack.Some? ==> LoadedPack(w.pack.value) && w.pack.value.hash == w.rulepackHash && SamePack(env, w.pack.value))
    && (w.pack.None? ==> w.rulepackHash == "")
  }

  ghost predicate SessionsHeld(w: WState) {
    forall s | s in w.sessions ::
      && s.agent in w.agents && w.agents[s.agent].auth == s.auth && (s.auth == KeyAuth || s.auth == OidcAuth)
  }

  ghost predicate Ready(env: Env, w: WState) {
    && MemoryIs(w) && Held(w) && PackHeld(env, w) && SessionsHeld(w)
    && Accepted(env, w.store)
  }

  // ---- the parts of `Verify` ----

  lemma FromParts(env: Env, s: VState, r: Record)
    requires ParentCode(env, s, r) == Ok && RulepackCode(s, r) == Ok && CostCode(env, r) == Ok
    requires TaskCode(s, r) == Ok && ApprovalCode(env, s, r) == Ok && KindCode(env, s, r) == Ok
    requires TaskOf(s, r).Some? ==> BudgetCode(env, s, TaskOf(s, r).value, r) == Ok
    ensures Verify(env, s, r) == Ok
  {
  }

  /** Every record but a rulepack_change carries the hash in force. */
  lemma SameRulepack(s: VState, chain: seq<Record>, r: Record)
    requires MirrorsRest(s, chain) && !r.body.RulepackChange? && r.rulepack == RulepackOf(chain)
    ensures RulepackCode(s, r) == Ok
  {
  }

  lemma OutsideTask(s: VState, r: Record)
    requires r.task.Blank? && !NeedsTask(r.body) && !r.body.TaskEnd?
    requires r.parent.Blank? || r.body.IntegrityDrift?
    ensures TaskCode(s, r) == Ok && TaskOf(s, r).None?
  {
  }

  /** The record names an open task, carries its identity, and its parent lies in the same task. */
  ghost predicate InOpenTask(chain: seq<Record>, r: Record) {
    && r.task.Dec? && Has(chain, r.task.n) && At(chain, r.task.n).body.TaskStart?
    && r.agent == At(chain, r.task.n).agent && r.principal == At(chain, r.task.n).principal
    && !TaskEnded(chain, r.task.n)
    && !TaskForbidden(r.body)
    && (r.parent.Dec? && Has(chain, r.parent.n) && !r.body.IntegrityDrift? ==> At(chain, r.parent.n).task == r.task)
  }

  lemma InsideTask(env: Env, s: VState, chain: seq<Record>, r: Record)
    requires MirrorsSeen(s, chain) && MirrorsTasks(env, s, chain) && MirrorsEnded(s, chain)
    requires InOpenTask(chain, r) && r.pos == |chain| + 1
    ensures TaskCode(s, r) == Ok
    ensures TaskOf(s, r) == Some(s.tasks[r.task.n]) && !s.tasks[r.task.n].ended
    ensures MirrorsTask(env, s.tasks[r.task.n], chain, r.task.n)
  {
    var t := r.task.n;
    assert t in s.tasks && MirrorsTask(env, s.tasks[t], chain, t);
    assert s.seen[t] == SeenOf(At(chain, t));
    if r.parent.Dec? && r.parent.n in s.seen {
      assert s.seen[r.parent.n] == SeenOf(At(chain, r.parent.n));
    }
  }

  lemma FitsIff(uses: seq<ToolUse>, hash: string, id: Option<string>, u: ToolUse)
    ensures u in Fits(uses, hash, id) <==> u in uses && u.argsHash == hash && (id.None? || u.id == id)
  {
  }

  lemma ResultIff(chain: seq<Record>, p: int)
    ensures HasResultFor(chain, p) <==> HasResult(chain, p)
  {
    if HasResult(chain, p) {
      var n :| Has(chain, n) && At(chain, n).body.ToolResult? && Names(At(chain, n).parent, p);
      assert chain[n - 1].body.ToolResult?;
    }
    if HasResultFor(chain, p) {
      var i :| 0 <= i < |chain| && chain[i].body.ToolResult? && Names(chain[i].parent, p);
      assert Has(chain, i + 1) && At(chain, i + 1) == chain[i];
    }
  }

  lemma UsedIff(chain: seq<Record>, d: int)
    ensures Writer.Used(chain, d) <==> ApprovalUsed(chain, d)
  {
    if ApprovalUsed(chain, d) {
      var n :| Has(chain, n) && Cites(At(chain, n), d);
      assert Cites(chain[n - 1], d);
    }
    if Writer.Used(chain, d) {
      var i :| 0 <= i < |chain| && Cites(chain[i], d);
      assert Has(chain, i + 1) && At(chain, i + 1) == chain[i];
    }
  }

  lemma ParentPasses(env: Env, s: VState, chain: seq<Record>, r: Record)
    requires MirrorsSeen(s, chain) && MirrorsRest(s, chain) && r.pos == |chain| + 1
    requires ParentRefusal(chain, r) == 0 && Sealable(r.body) && WellFormed(r)
    requires r.parent.Blank? && Orphanable(r.body) ==> env.allowOrphans
    ensures ParentCode(env, s, r) == Ok
    ensures r.parent.Dec? && Has(chain, r.parent.n) && !r.body.IntegrityDrift? ==> At(chain, r.parent.n).task == r.task
    ensures r.parent.Dec? ==> Has(chain, r.parent.n)
  {
    if r.parent.Dec? {
      var p := r.parent.n;
      assert s.seen[p] == SeenOf(At(chain, p));
      if r.body.ToolCall? {
        var fits := Fits(At(chain, p).body.uses, r.inputHash, r.body.toolUseId);
        FitsIff(At(chain, p).body.uses, r.inputHash, r.body.toolUseId, fits[0]);
        assert Requested(s.seen[p].body, r);
      }
      ResultIff(chain, p);
    }
  }

  /** The pack the verifier applies to a record is the one the ledger evaluated. */
  lemma PackForIs(env: Env, w: WState, r: Record)
    requires PackHeld(env, w) && EnvOk(env) && r.rulepack == w.rulepackHash
    ensures PackFor(env, r).Some? ==> PackFor(env, r) == w.pack
  {
  }

  // ---- approvals ----

  /** The verifier's requests and decisions are the ledger's pending approvals. */
  lemma ApprovalsAgree(env: Env, w: WState, s: VState, aid: string)
    requires Held(w) && Mirrors(env, s, w.store)
    ensures aid in s.requests <==> aid in w.approvals
    ensures aid in w.approvals ==>
              && s.requests[aid] == RequestOf(w.approvals[aid].request)
              && (aid in s.decided <==> w.approvals[aid].outcome.Some?)
  {
    if aid in s.requests {
      assert At(w.store, s.requests[aid].pos).body.aid == aid;
    }
    if aid in w.approvals {
      var p := w.approvals[aid];
      assert At(w.store, p.request.pos) == p.request;
      if aid in s.decided {
        assert At(w.store, s.decided[aid]).body.aid == aid;
      }
      if p.outcome.Some? {
        assert p.decisionSeq in s.decisions;
      }
    }
  }

  lemma NonePending(env: Env, w: WState, s: VState, t: int)
    requires Held(w) && Mirrors(env, s, w.store) && t in s.tasks && !PendingIn(w, t)
    ensures s.tasks[t].pending == {}
  {
    forall aid ensures aid !in s.tasks[t].pending {
      ApprovalsAgree(env, w, s, aid);
      assert aid in w.approvals <==> aid in w.approvals.Keys;
    }
  }

  /** A call `check_approval` lets through fits the decision it cites, and the decision is unused. */
  lemma CitePasses(env: Env, s: VState, chain: seq<Record>, pack: Option<Pack>, r: Record)
    requires MirrorsRequests(s, chain) && MirrorsDecisions(s, chain) && MirrorsUsed(s, chain)
    requires Sequenced(chain)
    requires r.body.ToolCall? && ApprovalRefusal(chain, pack, r) == 0
    requires PackFor(env, r).Some? ==> PackFor(env, r) == pack
    ensures Cited(s, r.body).Some? && CiteFits(env, r, Cited(s, r.body).value) && !Cited(s, r.body).value.used
  {
    var d := r.body.approvalSeq.i;
    assert d in s.decisions;
    var q := At(chain, d).parent.n;
    var req := s.decisions[d].req;
    assert Answers(At(chain, d), req) && req == RequestOf(At(chain, q));
    UsedIff(chain, d);
    if s.decisions[d].outcome == Grant {
      forall h | h in r.hits && (h.Over? || (PackFor(env, r).Some? && ConfirmHit(PackFor(env, r).value, h)))
        ensures h in req.hits
      {
        assert Asked(pack, h);
      }
    }
  }

  lemma UncitedPasses(env: Env, s: VState, pack: Option<Pack>, r: Record)
    requires r.body.ToolCall? && r.body.approvalSeq.NoInt? && (r.decision == Block || !MustCite(pack, r))
    requires PackFor(env, r).Some? ==> PackFor(env, r) == pack
    ensures ApprovalCode(env, s, r) == Ok
  {
  }

  // ---- one lemma per endpoint: its record passes ----

  /** What every sealed record has in common. */
  ghost predicate Fresh(w: WState, r: Record) {
    && r.pos == |w.store| + 1 && WellFormed(r)
    && (!r.body.RulepackChange? ==> r.rulepack == w.rulepackHash)
  }

  lemma PolicyPasses(env: Env, w: WState, s: VState, ev: Event, r: Record)
    requires MemoryIs(w) && MirrorsRest(s, w.store) && Fresh(w, r)
    requires ev.ChangePolicy? || ev.Halt?
    requires DraftOf(env, w, ev).Sealing? && r == DraftOf(env, w, ev).r.(pos := r.pos, rulepack := r.rulepack)
    ensures Verify(env, s, r) == Ok
  {
    SameRulepack(s, w.store, r);
    OutsideTask(s, r);
    FromParts(env, s, r);
  }

  lemma AdoptPasses(env: Env, w: WState, s: VState, ts: int, pack: Pack, r: Record)
    requires MirrorsRest(s, w.store) && r.pos == |w.store| + 1 && LoadedPack(pack)
    requires AdoptDraft(w, ts, pack).Sealing? && r == AdoptDraft(w, ts, pack).r.(pos := r.pos)
    requires w.rulepackHash == RulepackOf(w.store)
    ensures Verify(env, s, r) == Ok
  {
    OutsideTask(s, r);
    FromParts(env, s, r);
  }

  lemma AgentPasses(env: Env, w: WState, s: VState, ev: Event, r: Record)
    requires MemoryIs(w) && MirrorsRest(s, w.store) && Fresh(w, r)
    requires ev.Register? || ev.Rotate? || ev.Revoke?
    requires DraftOf(env, w, ev).Sealing? && r == DraftOf(env, w, ev).r.(pos := r.pos, rulepack := r.rulepack)
    ensures Verify(env, s, r) == Ok
  {
    AgentDrafted(env, w, s, ev, r);
    hide DraftOf, Verify, KindCode;
    SameRulepack(s, w.store, r);
    OutsideTask(s, r);
    FromParts(env, s, r);
  }

  /** The registry the ledger checks under the lock is the verifier's. */
  lemma AgentDrafted(env: Env, w: WState, s: VState, ev: Event, r: Record)
    requires w.agents == AgentsOf(w.store) && s.agents == AgentsOf(w.store)
    requires ev.Register? || ev.Rotate? || ev.Revoke?
    requires DraftOf(env, w, ev).Sealing? && r == DraftOf(env, w, ev).r.(pos := r.pos, rulepack := r.rulepack)
    ensures (r.body.AgentRegister? || r.body.AgentRotate? || r.body.AgentRevoke?) && r.task.Blank? && r.parent.Blank?
    ensures KindCode(env, s, r) == Ok
  {
    hide AgentsOf;
  }

  lemma StartPasses(env: Env, w: WState, s: VState, ev: Event, r: Record)
    requires MemoryIs(w) && SessionsHeld(w) && MirrorsRest(s, w.store) && MirrorsSeen(s, w.store) && Fresh(w, r)
    requires ev.StartTask?
    requires StartDraft(w, ev).Sealing? && r == StartDraft(w, ev).r.(pos := r.pos, rulepack := r.rulepack)
    ensures Verify(env, s, r) == Ok
  {
    SameRulepack(s, w.store, r);
    OutsideTask(s, r);
    if r.body.delegatedFrom.Dec? {
      var d := r.body.delegatedFrom.n;
      assert s.seen[d] == SeenOf(At(w.store, d));
    }
    FromParts(env, s, r);
  }

  lemma EndPasses(env: Env, w: WState, s: VState, ev: Event, r: Record)
    requires MemoryIs(w) && Held(w) && Mirrors(env, s, w.store) && Fresh(w, r)
    requires ev.EndTask?
    requires EndDraft(w, ev).Sealing? && r == EndDraft(w, ev).r.(pos := r.pos, rulepack := r.rulepack)
    ensures Verify(env, s, r) == Ok
  {
    SameRulepack(s, w.store, r);
    EndedIff(w.store, ev.task);
    InsideTask(env, s, w.store, r);
    NonePending(env, w, s, ev.task);
    NoBudgetPasses(env, s, s.tasks[ev.task], r);
    FromParts(env, s, r);
  }

  /** What `decide` and the timer seal: the body_of record of a pending request, on its side of the deadline. */
  ghost predicate DecidesPending(w: WState, r: Record) {
    && r.body.ApprovalDecision? && r.body.aid in w.approvals && w.approvals[r.body.aid].outcome.None?
    && w.approvals[r.body.aid].request.body.ApprovalRequest?
    && var p := w.approvals[r.body.aid];
       && r == DecisionRecord(p, r.ts, r.body).(pos := r.pos, rulepack := r.rulepack)
       && (if r.body.outcome == Timeout then r.ts >= p.deadline && r.body.approver.None?
           else && (r.body.outcome == Grant || r.body.outcome == Refusal)
                && r.ts < p.deadline && r.body.approver.Some? && r.body.approver.value.Human?
                && r.body.assurance.Some? && Rank(r.body.assurance.value) >= Rank(p.request.body.minAssurance)
                && (p.request.body.sod ==> r.body.approver.value != p.request.principal))
  }

  lemma DecisionDrafted(env: Env, w: WState, ev: Event, r: Record)
    requires RequestsHeld(w) && (ev.Decide? || ev.Expire?)
    requires DraftOf(env, w, ev).Sealing? && r == DraftOf(env, w, ev).r.(pos := r.pos, rulepack := r.rulepack)
    ensures DecidesPending(w, r)
  {
  }

  lemma DecisionOk(s: VState, w: WState, r: Record)
    requires DecidesPending(w, r) && r.body.aid in s.requests && r.body.aid !in s.decided
    requires s.requests[r.body.aid] == RequestOf(w.approvals[r.body.aid].request)
    requires w.approvals[r.body.aid].deadline
             == w.approvals[r.body.aid].request.ts + w.approvals[r.body.aid].request.body.timeoutMs
    ensures DecisionCode(s, r) == Ok
  {
  }

  lemma DecisionInTask(w: WState, r: Record)
    requires RequestsHeld(w) && EndsClosed(w) && TasksNamed(w.store) && DecidesPending(w, r) && WellFormed(r)
    ensures InOpenTask(w.store, r)
  {
    var req := w.approvals[r.body.aid].request;
    assert Has(w.store, req.pos) && At(w.store, req.pos) == req && req.task.Dec?;
    PendingTaskOpen(w, r.body.aid);
  }

  lemma DecisionParent(env: Env, s: VState, w: WState, r: Record)
    requires RequestsHeld(w) && DecidesPending(w, r) && WellFormed(r) && MirrorsSeen(s, w.store)
    ensures ParentCode(env, s, r) == Ok
  {
    var req := w.approvals[r.body.aid].request;
    assert Has(w.store, req.pos) && req.pos in s.seen;
  }

  lemma DecisionAgrees(env: Env, w: WState, s: VState, r: Record)
    requires Held(w) && Mirrors(env, s, w.store) && DecidesPending(w, r)
    ensures DecisionCode(s, r) == Ok
  {
    ApprovalsAgree(env, w, s, r.body.aid);
    DecisionOk(s, w, r);
  }

  lemma DecisionPasses(env: Env, w: WState, s: VState, r: Record)
    requires MemoryIs(w) && Held(w) && Mirrors(env, s, w.store) && Fresh(w, r)
    requires DecidesPending(w, r)
    ensures Verify(env, s, r) == Ok
  {
    hide ParentCode, TaskCode, RulepackCode, BudgetCode, DecisionCode, InOpenTask, CostCode, KindCode, ApprovalCode;
    hide RequestsHeld, DecisionsHeld, EndsClosed, MirrorsRequests, MirrorsDecisions, MirrorsUsed, MirrorsPending,
         MirrorsTasks, MirrorsEnded, MirrorsSeen, TasksNamed, MirrorsTask;
    SameRulepack(s, w.store, r);
    DecisionAgrees(env, w, s, r);
    DecisionInTask(w, r);
    DecisionParent(env, s, w, r);
    InsideTask(env, s, w.store, r);
    NoBudgetPasses(env, s, s.tasks[r.task.n], r);
    DecisionParts(env, s, r);
    FromParts(env, s, r);
  }

  lemma DecisionParts(env: Env, s: VState, r: Record)
    requires r.body.ApprovalDecision?
    ensures ApprovalCode(env, s, r) == DecisionCode(s, r) && KindCode(env, s, r) == Ok && CostCode(env, r) == Ok
  {
  }

  /** What `request_approval` seals: a flagged request with a fresh id in an open task, its parent an inference of
      the task or, uncorrelated, none. */
  ghost predicate AsksFresh(w: WState, r: Record) {
    && r.body.ApprovalRequest? && r.body.aid !in w.approvals && r.body.timeoutMs > 0
    && r.mode == RecordOnly && r.decision == Flag
    && InOpenTask(w.store, r)
    && (r.parent.Dec? ==> Has(w.store, r.parent.n) && At(w.store, r.parent.n).body.Inference?)
  }

  lemma RequestDrafted(env: Env, w: WState, ev: Event, r: Record)
    requires ev.Ask? && Shaped(w, ev) && WellFormed(r)
    requires AskDraft(w, ev).Sealing? && r == AskDraft(w, ev).r.(pos := r.pos, rulepack := r.rulepack)
    ensures AsksFresh(w, r)
  {
    EndedIff(w.store, ev.task);
  }

  lemma RequestOk(env: Env, w: WState, s: VState, r: Record)
    requires AsksFresh(w, r) && r.body.aid !in s.requests && TaskOf(s, r).Some? && WellFormed(r)
    requires MirrorsSeen(s, w.store) && (r.parent.Blank? ==> env.allowOrphans) && r.pos == |w.store| + 1
    ensures ApprovalCode(env, s, r) == Ok && ParentCode(env, s, r) == Ok
  {
    if r.parent.Dec? {
      assert s.seen[r.parent.n] == SeenOf(At(w.store, r.parent.n));
    }
  }

  lemma AskPasses(env: Env, w: WState, s: VState, ev: Event, r: Record)
    requires MemoryIs(w) && Held(w) && Mirrors(env, s, w.store) && Fresh(w, r)
    requires ev.Ask? && Shaped(w, ev) && (r.parent.Blank? ==> env.allowOrphans)
    requires AskDraft(w, ev).Sealing? && r == AskDraft(w, ev).r.(pos := r.pos, rulepack := r.rulepack)
    ensures Verify(env, s, r) == Ok
  {
    RequestDrafted(env, w, ev, r);
    hide AskDraft, BudgetCode, TaskCode, MirrorsUsed, MirrorsDecisions, MirrorsPending, TasksNamed;
    SameRulepack(s, w.store, r);
    ApprovalsAgree(env, w, s, r.body.aid);
    InsideTask(env, s, w.store, r);
    NoBudgetPasses(env, s, s.tasks[r.task.n], r);
    RequestOk(env, w, s, r);
    FromParts(env, s, r);
  }

  // ---- inferences ----

  lemma {:induction false} RulesAreRules(ids: seq<string>, h: Hit)
    requires h in Rules(ids)
    ensures h.Rule?
  {
    if h != Rule(ids[0]) {
      RulesAreRules(ids[1..], h);
    }
  }

  /** The ledger counts every host the verifier counts. */
  lemma {:induction false} HostsCovered(env: Env, rows: seq<Record>)
    ensures HostsOf(env, rows) <= HostsShown(env, rows)
  {
    if rows != [] {
      HostsCovered(env, rows[..|rows| - 1]);
    }
  }

  lemma SameSize<T>(a: set<T>, b: set<T>)
    requires a <= b
    ensures |a| == |b| <==> a == b
  {
    assert b == a + (b - a);
  }

  /** The body `chat_completions` builds before the seal. */
  function InferBody(env: Env, w: WState, ev: Event): Body
    requires ev.Infer?
  {
    if ev.forwarded then Priced(env, w.pack, ev.digest, ev.uses, ev.usage)
    else Inference(ev.uses, None, NoInt, None, NoBudget)
  }

  lemma InferCost(env: Env, w: WState, ev: Event, r: Record, budget: BudgetKey)
    requires PackHeld(env, w) && EnvOk(env) && r.rulepack == w.rulepackHash
    requires ev.Infer? && r.body == WithBudget(InferBody(env, w, ev), budget) && r.digest == ev.digest
    requires !ev.forwarded ==> r.decision == Block
    ensures CostCode(env, r) == Ok
  {
    PackForIs(env, w, r);
    if ev.forwarded {
      PricedPasses(env, w.pack, r, ev.uses, ev.usage, budget);
    }
  }

  /** An inference outside a task: nothing is counted and nothing is checked but its cost. */
  lemma InferOutside(env: Env, w: WState, s: VState, r: Record)
    requires MirrorsRest(s, w.store) && MemoryIs(w) && Fresh(w, r)
    requires r.body.Inference? && r.task.Blank? && r.parent.Blank? && CostCode(env, r) == Ok
    ensures Verify(env, s, r) == Ok
  {
    SameRulepack(s, w.store, r);
    OutsideTask(s, r);
    FromParts(env, s, r);
  }

  lemma InferInside(env: Env, w: WState, s: VState, r: Record)
    requires MemoryIs(w) && Mirrors(env, s, w.store) && Fresh(w, r)
    requires r.body.Inference? && r.parent.Blank? && InOpenTask(w.store, r) && CostCode(env, r) == Ok
    requires r.task.n in s.tasks ==> BudgetCode(env, s, s.tasks[r.task.n], r) == Ok
    ensures Verify(env, s, r) == Ok
  {
    hide TaskCode, BudgetCode, CostCode, MirrorsRequests, MirrorsDecisions, MirrorsUsed, MirrorsPending, MirrorsTasks,
         MirrorsEnded, MirrorsSeen, TasksNamed, MirrorsTask;
    SameRulepack(s, w.store, r);
    InsideTask(env, s, w.store, r);
    FromParts(env, s, r);
  }

  /** The counters the ledger evaluates a budget with are the verifier's. */
  lemma CountersAgree(env: Env, s: VState, chain: seq<Record>, t: int)
    requires MirrorsTasks(env, s, chain) && t in s.tasks
    ensures SameCounters(s.tasks[t], UsedIn(env, InTask(chain, t)))
    ensures s.tasks[t].hosts == HostsOf(env, InTask(chain, t))
  {
    assert MirrorsTask(env, s.tasks[t], chain, t);
  }

  /** The two programs admit the same hosts exactly when the hosts fit. */
  lemma {:induction false} HostsFitIff(env: Env, w: WState, k: Task, t: nat, body: Body)
    requires Has(w.store, t) && At(w.store, t).body.TaskStart? && w.pack.Some?
    requires k.hosts == HostsOf(env, InTask(w.store, t))
    ensures HostsFit(env, w, t, body) <==>
            AllSameHosts(env, w.pack.value.budgets, At(w.store, t), k, UsedIn(env, InTask(w.store, t)), body)
  {
    HostsCovered(env, InTask(w.store, t));
    SameSize(HostsOf(env, InTask(w.store, t)), HostsShown(env, InTask(w.store, t)));
    forall b | b in w.pack.value.budgets ensures Matches(b, At(w.store, t)) <==> Concerns(b, At(w.store, t)) {
      MatchesIff(b, At(w.store, t));
    }
    hide HostsShown, HostsOf, InTask, CallsOf, SpendOf, Matches, Concerns;
  }

  /** `budgets.inference` leaves a record the budget checks pass. */
  lemma InferBudget(env: Env, w: WState, s: VState, t: nat, r0: Record, r: Record)
    requires PackHeld(env, w) && EnvOk(env) && MirrorsTasks(env, s, w.store)
    requires Has(w.store, t) && At(w.store, t).body.TaskStart? && t in s.tasks
    requires r0.body.Inference? && BudgetOf(r0.body).NoBudget?
    requires r == BudgetInference(env, w, t, r0).(pos := r.pos, rulepack := w.rulepackHash)
    ensures BudgetCode(env, s, s.tasks[t], r) == Ok
  {
    var lines := LinesFor(env, w, t, r0.body);
    forall h ensures h in r.hits && h.Over? ==> h in Exceeded(lines) {
      OverHitsIff(r0.hits, h);
    }
    if w.pack.None? {
      NoBudgetPasses(env, s, s.tasks[t], r);
    } else {
      PackForIs(env, w, r);
      CountersAgree(env, s, w.store, t);
      forall l | l in lines && !l.admitted ensures Over(l.bid, l.metric) in r.hits && r.decision == Block {
        ExceededIff(lines, Over(l.bid, l.metric));
      }
      StampPasses(env, s, s.tasks[t], r, w.pack.value.budgets, At(w.store, t), UsedIn(env, InTask(w.store, t)),
                  r0.body, lines);
    }
  }

  lemma InferPasses(env: Env, w: WState, s: VState, ev: Event, r: Record)
    requires MemoryIs(w) && PackHeld(env, w) && EnvOk(env) && Mirrors(env, s, w.store)
    requires Fresh(w, r) && ev.Infer? && Shaped(w, ev)
    requires InferDraft(env, w, ev).Sealing? && r == InferDraft(env, w, ev).r.(pos := r.pos, rulepack := r.rulepack)
    ensures Verify(env, s, r) == Ok
  {
    hide Verify, BudgetCode, CostCode, LinesFor, MirrorsRequests, MirrorsDecisions, MirrorsUsed, MirrorsPending,
         MirrorsEnded, MirrorsSeen, TasksNamed, MirrorsTask, WithBudget, Priced, Rules, HostsShown;
    if ev.place.Blank? || (ev.place.Dec? && Ended(w.store, ev.place.n)) {
      InferBodyPlain(env, w, ev);
      InferCost(env, w, ev, r, NoBudget);
      InferOutside(env, w, s, r);
    } else {
      var t := ev.place.n;
      EndedIff(w.store, t);
      InferBodyPlain(env, w, ev);
      if HALTED in ev.rules {
        forall h | h in r.hits ensures !h.Over? { RulesAreRules(ev.rules, h); }
        if t in s.tasks {
          NoBudgetPasses(env, s, s.tasks[t], r);
        }
        InferCost(env, w, ev, r, NoBudget);
      } else {
        InferEvaluated(env, w, s, ev, r);
      }
      InferInside(env, w, s, r);
    }
  }

  lemma InferBodyPlain(env: Env, w: WState, ev: Event)
    requires ev.Infer?
    ensures var b := InferBody(env, w, ev);
            b.Inference? && BudgetOf(b).NoBudget? && b == WithBudget(b, NoBudget)
  {
  }

  lemma InferEvaluated(env: Env, w: WState, s: VState, ev: Event, r: Record)
    requires MemoryIs(w) && PackHeld(env, w) && EnvOk(env) && MirrorsTasks(env, s, w.store)
    requires Fresh(w, r) && ev.Infer? && Shaped(w, ev)
    requires InferDraft(env, w, ev).Sealing? && r == InferDraft(env, w, ev).r.(pos := r.pos, rulepack := r.rulepack)
    requires ev.place.Dec? && !Ended(w.store, ev.place.n) && HALTED !in ev.rules
    ensures r.body.Inference? && CostCode(env, r) == Ok
    ensures r.task.n in s.tasks ==> BudgetCode(env, s, s.tasks[r.task.n], r) == Ok
  {
    var t := ev.place.n;
    InferBodyPlain(env, w, ev);
    var who := if ev.caller.Some? then ev.caller.value.agent else "";
    var r0 := InTaskOf(w, BaseRecord(ev.ts, InferBody(env, w, ev)).(mode := ev.mode, decision := ev.decision,
                          hits := Rules(ev.rules) + ev.early, inputHash := ev.inputHash, digest := ev.digest,
                          agent := who, principal := ev.principal), t);
    hide BudgetCode, CostCode, LinesFor, Evaluate, Exceeded, MirrorsTasks, Priced, Rules, InferBody, HostsShown;
    assert r == BudgetInference(env, w, t, r0).(pos := r.pos, rulepack := r.rulepack);
    InferCost(env, w, ev, r, BudgetObject(LinesFor(env, w, t, r0.body)));
    if t in s.tasks {
      InferBudget(env, w, s, t, r0, r);
    }
  }
}
