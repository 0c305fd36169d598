/** `/api/agent/seal` refines the verifier, and with it every run of the ledger (sijill/agents.py:431-493). */
module ActRefinement {
  import opened Records
  import opened Checks
  import opened Store
  import opened ChainFacts
  import opened Budgets
  import opened Writer
  import opened BudgetStamps
  import opened Runs
  import opened ApprovalRuns
  import opened Refinement

  /** The draft after the halt and the identity columns, before the budget stamp. */
  function Prepared(w: WState, ev: Event): Record
    requires ev.Act? && (ev.place.Dec? ==> Has(w.store, ev.place.n))
  {
    var r0 := (if Overridden(w, ev) then HaltedDraft(ev.draft) else ev.draft).(ts := ev.ts);
    if ev.place.Dec? then InTaskOf(w, r0, ev.place.n)
    else r0.(task := Blank, agent := ev.session.agent, principal := ev.session.principal)
  }

  predicate Overridden(w: WState, ev: Event)
    requires ev.Act?
  {
    w.halted && (ev.draft.body.ToolCall? || ev.draft.body.ToolResult? || ev.draft.body.Egress?)
  }

  predicate Stamps(w: WState, ev: Event)
    requires ev.Act?
  {
    ev.place.Dec? && (ev.draft.body.ToolCall? || ev.draft.body.Egress?) && !Overridden(w, ev)
  }

  /** What the guards of the endpoint establish of the prepared draft. */
  ghost predicate Guarded(w: WState, ev: Event, p: Record) {
    && ev.Act? && Sealable(p.body) && ParentRefusal(w.store, p) == 0
    && (ev.place.Dec? || (ev.place.Blank? && !TaskRequired(p.body)))
    && (ev.place.Dec? ==> Has(w.store, ev.place.n) && At(w.store, ev.place.n).body.TaskStart?
                          && !Ended(w.store, ev.place.n) && p.task == ev.place
                          && p.agent == At(w.store, ev.place.n).agent
                          && p.principal == At(w.store, ev.place.n).principal)
    && (ev.place.Blank? ==> p.task.Blank?)
    && (p.body.ToolCall? ==>
          if p.body.approvalSeq.NoInt? then p.decision == Block || !MustCite(w.pack, p)
          else ApprovalRefusal(w.store, w.pack, p) == 0)
    && (!Stamps(w, ev) ==> BudgetOf(p.body).NoBudget? && forall h | h in p.hits :: !h.Over?)
    && (Stamps(w, ev) ==> p.body.ToolCall? || p.body.Egress?)
  }

  lemma HaltedShape(r: Record)
    requires Sealable(r.body)
    ensures var h := HaltedDraft(r);
            && BudgetOf(h.body).NoBudget? && (forall x | x in h.hits :: !x.Over?) && Sealable(h.body)
            && TaskRequired(h.body) == TaskRequired(r.body)
            && (h.body.ToolCall? ==> h.body.approvalSeq.NoInt?) && h.decision == Block
  {
    forall x | x in HaltedDraft(r).hits ensures !x.Over? { OverHitsIff(r.hits, x); }
  }

  lemma ActGuarded(env: Env, w: WState, ev: Event)
    requires ev.Act? && ActDraft(env, w, ev).Sealing?
    ensures ev.place.Dec? ==> Has(w.store, ev.place.n)
    ensures Guarded(w, ev, Prepared(w, ev))
    ensures if Stamps(w, ev) then Has(w.store, ev.place.n) && At(w.store, ev.place.n).body.TaskStart?
                                  && ActDraft(env, w, ev) == BudgetStamp(env, w, ev.place.n, Prepared(w, ev))
            else ActDraft(env, w, ev).r == Prepared(w, ev)
  {
    hide ParentRefusal, ApprovalRefusal, MustCite, BudgetStamp, HaltedDraft, Ended;
    HaltedShape(ev.draft);
    assert forall h | h in ev.draft.hits :: MaySend(ev.draft, h);
  }

  /** Stamping the budget changes nothing the parent and approval guards read. */
  lemma StampIrrelevant(chain: seq<Record>, pack: Option<Pack>, p: Record, budget: BudgetKey)
    ensures ParentRefusal(chain, p.(body := WithBudget(p.body, budget))) == ParentRefusal(chain, p)
    ensures p.body.ToolCall? ==> var b := WithBudget(p.body, budget);
              && b.ToolCall? && b.approvalSeq == p.body.approvalSeq && b.confirmation == p.body.confirmation
              && ApprovalRefusal(chain, pack, p.(body := b)) == ApprovalRefusal(chain, pack, p)
              && MustCite(pack, p.(body := b)) == MustCite(pack, p)
  {
  }

  /** The guards read neither the number nor the rule pack hash of the record. */
  lemma NumberIrrelevant(chain: seq<Record>, pack: Option<Pack>, p: Record, pos: nat, hash: string)
    ensures ParentRefusal(chain, p.(pos := pos, rulepack := hash)) == ParentRefusal(chain, p)
    ensures p.body.ToolCall? ==>
              && ApprovalRefusal(chain, pack, p.(pos := pos, rulepack := hash)) == ApprovalRefusal(chain, pack, p)
              && MustCite(pack, p.(pos := pos, rulepack := hash)) == MustCite(pack, p)
  {
  }

  /** The sealed record itself meets the guards. */
  ghost predicate SealedGuarded(w: WState, r: Record) {
    && Sealable(r.body) && ParentRefusal(w.store, r) == 0
    && (r.task.Blank? ==> !TaskRequired(r.body))
    && (!r.task.Blank? ==> r.task.Dec? && Has(w.store, r.task.n) && At(w.store, r.task.n).body.TaskStart?
                           && !Ended(w.store, r.task.n) && r.agent == At(w.store, r.task.n).agent
                           && r.principal == At(w.store, r.task.n).principal)
    && (r.body.ToolCall? ==>
          if r.body.approvalSeq.NoInt? then r.decision == Block || !MustCite(w.pack, r)
          else ApprovalRefusal(w.store, w.pack, r) == 0)
  }

  lemma ActSealedGuarded(env: Env, w: WState, ev: Event, r: Record)
    requires ev.Act? && ActDraft(env, w, ev).Sealing?
    requires r == ActDraft(env, w, ev).r.(pos := r.pos, rulepack := r.rulepack)
    ensures SealedGuarded(w, r)
  {
    hide ActDraft, Guarded, Prepared, LinesFor, BudgetStamp, WithBudget, SealedGuarded;
    ActGuarded(env, w, ev);
    var budget := SealedShape(env, w, ev, r);
    GuardedSealed(w, ev, Prepared(w, ev), r, budget);
  }

  /** The sealed record is the prepared draft with the ledger's budget object, numbered. */
  lemma SealedShape(env: Env, w: WState, ev: Event, r: Record) returns (budget: BudgetKey)
    requires ev.Act? && ActDraft(env, w, ev).Sealing?
    requires r == ActDraft(env, w, ev).r.(pos := r.pos, rulepack := r.rulepack)
    ensures ev.place.Dec? ==> Has(w.store, ev.place.n)
    ensures var p := Prepared(w, ev);
            && r == p.(pos := r.pos, rulepack := r.rulepack, body := WithBudget(p.body, budget))
            && (if Stamps(w, ev) then
                  && At(w.store, ev.place.n).body.TaskStart?
                  && budget == BudgetObject(LinesFor(env, w, ev.place.n, p.body))
                else budget == NoBudget)
  {
    ActGuarded(env, w, ev);
    var p := Prepared(w, ev);
    hide ActDraft, Prepared, LinesFor, BudgetStamp, ParentRefusal, ApprovalRefusal, MustCite, Ended;
    if Stamps(w, ev) {
      StampFacts(env, w, ev.place.n, p);
      budget := BudgetObject(LinesFor(env, w, ev.place.n, p.body));
    } else {
      budget := NoBudget;
    }
  }

  lemma GuardedSealed(w: WState, ev: Event, p: Record, r: Record, budget: BudgetKey)
    requires Guarded(w, ev, p)
    requires r == p.(pos := r.pos, rulepack := r.rulepack, body := WithBudget(p.body, budget))
    ensures SealedGuarded(w, r)
  {
    hide ParentRefusal, ApprovalRefusal, MustCite, Ended;
    StampIrrelevant(w.store, w.pack, p, budget);
    NumberIrrelevant(w.store, w.pack, p.(body := WithBudget(p.body, budget)), r.pos, r.rulepack);
  }

  /** Of a call, the condition on its draft is the one on the record it seals. */
  lemma {:induction false} ActScope(env: Env, w: WState, ev: Event, r: Record)
    requires ev.Act? && ActDraft(env, w, ev).Sealing?
    requires r == ActDraft(env, w, ev).r.(pos := r.pos, rulepack := r.rulepack)
    ensures CallInScope(env, w, ev.draft) <==> RecordInScope(env, r)
  {
    assert Sealable(ev.draft.body) by { hide ParentRefusal, ApprovalRefusal, BudgetStamp, MustCite; }
    hide ActDraft, Prepared, WithBudget, CallInScope, RecordInScope;
    var budget := SealedShape(env, w, ev, r);
    PreparedScope(env, w, ev);
    BudgetKeepsScope(env, Prepared(w, ev), r, budget);
  }

  lemma PreparedScope(env: Env, w: WState, ev: Event)
    requires ev.Act? && Sealable(ev.draft.body) && (ev.place.Dec? ==> Has(w.store, ev.place.n))
    ensures CallInScope(env, w, ev.draft) <==> RecordInScope(env, Prepared(w, ev))
  {
    HaltedShape(ev.draft);
    hide RuleHits;
  }

  lemma BudgetKeepsScope(env: Env, p: Record, r: Record, budget: BudgetKey)
    requires r == p.(pos := r.pos, rulepack := r.rulepack, body := WithBudget(p.body, budget))
    ensures RecordInScope(env, p) <==> RecordInScope(env, r)
  {
  }

  lemma ScopeParts(env: Env, w: WState, ev: Event, r: Record)
    requires ev.Act? && InScope(env, w, ev)
    ensures CallInScope(env, w, ev.draft)
  {
  }

  // ---- the checks ----

  lemma ActTask(env: Env, w: WState, s: VState, r: Record)
    requires MirrorsSeen(s, w.store) && MirrorsTasks(env, s, w.store) && MirrorsEnded(s, w.store)
    requires SealedGuarded(w, r) && Fresh(w, r)
    requires r.parent.Dec? && Has(w.store, r.parent.n) && !r.body.IntegrityDrift? ==> At(w.store, r.parent.n).task == r.task
    ensures TaskCode(s, r) == Ok
    ensures r.task.Dec? ==> r.task.n in s.tasks && TaskOf(s, r) == Some(s.tasks[r.task.n])
    ensures r.task.Blank? ==> TaskOf(s, r).None?
  {
    hide ParentRefusal, ApprovalRefusal, MustCite;
    if r.task.Dec? {
      EndedIff(w.store, r.task.n);
      InsideTask(env, s, w.store, r);
    } else {
      OutsideTask(s, r);
    }
  }

  lemma ActApproval(env: Env, w: WState, s: VState, r: Record)
    requires MirrorsRequests(s, w.store) && MirrorsDecisions(s, w.store) && MirrorsUsed(s, w.store)
    requires Sequenced(w.store) && PackHeld(env, w) && EnvOk(env)
    requires SealedGuarded(w, r) && r.rulepack == w.rulepackHash
    ensures ApprovalCode(env, s, r) == Ok
    ensures r.body.ToolCall? && !r.body.approvalSeq.NoInt? && r.body.confirmation == Granted ==>
              Cited(s, r.body).Some? && Cited(s, r.body).value.outcome == Grant
  {
    hide ParentRefusal, Ended;
    PackForIs(env, w, r);
    if r.body.ToolCall? {
      if r.body.approvalSeq.NoInt? {
        UncitedPasses(env, s, w.pack, r);
      } else {
        CitePasses(env, s, w.store, w.pack, r);
      }
    }
  }

  /** A stamped call or egress: its excess hits are exactly the failing limits, and enforced. */
  lemma ActBudget(env: Env, w: WState, s: VState, t: nat, p: Record, r: Record)
    requires PackHeld(env, w) && EnvOk(env) && MirrorsTasks(env, s, w.store)
    requires Has(w.store, t) && At(w.store, t).body.TaskStart? && t in s.tasks
    requires p.body.ToolCall? || p.body.Egress?
    requires BudgetStamp(env, w, t, p).Sealing?
    requires r == BudgetStamp(env, w, t, p).r.(pos := r.pos, rulepack := w.rulepackHash)
    requires RecordInScope(env, r) && HostsFit(env, w, t, p.body)
    requires r.body.ToolCall? && !r.body.approvalSeq.NoInt? && r.body.confirmation == Granted ==>
               Cited(s, r.body).Some? && Cited(s, r.body).value.outcome == Grant
    ensures BudgetCode(env, s, s.tasks[t], r) == Ok
  {
    hide BudgetCode, Evaluate, Cited, HostsFit, AllSameHosts, BudgetStamp, MirrorsTasks, Enforced, LoadedPack, Exceeded,
         UsedIn;
    var lines := LinesFor(env, w, t, p.body);
    StampFacts(env, w, t, p);
    StampEnforced(env, w, s, t, p, r);
    PackForIs(env, w, r);
    if w.pack.None? {
      NoneEvaluated(env, w, t, r);
      NoBudgetPasses(env, s, s.tasks[t], r);
    } else {
      CountersAgree(env, s, w.store, t);
      HostsFitIff(env, w, s.tasks[t], t, p.body);
      PackUnique(w.pack.value);
      StampPasses(env, s, s.tasks[t], r, w.pack.value.budgets, At(w.store, t), UsedIn(env, InTask(w.store, t)),
                  p.body, lines);
    }
  }

  lemma PackUnique(pack: Pack)
    requires LoadedPack(pack)
    ensures forall i, j | 0 <= i < j < |pack.budgets| :: pack.budgets[i].id != pack.budgets[j].id
    ensures forall i | 0 <= i < |pack.budgets| :: UniqueGlobs(pack.budgets[i].limits.toolCallsBy)
  {
  }

  lemma NoneEvaluated(env: Env, w: WState, t: nat, r: Record)
    requires w.pack.None? && Has(w.store, t) && At(w.store, t).body.TaskStart?
    requires exists p: Record :: (p.body.ToolCall? || p.body.Egress?) && r.hits == p.hits
               && r.body == WithBudget(p.body, BudgetObject(LinesFor(env, w, t, p.body)))
               && forall h :: h in p.hits && h.Over? <==> h in Exceeded(LinesFor(env, w, t, p.body))
    ensures BudgetOf(r.body).NoBudget? && forall h | h in r.hits :: !h.Over?
  {
  }

  /** The excesses of a stamped record are among its hits, and a block or a grant enforces them. */
  lemma StampEnforced(env: Env, w: WState, s: VState, t: nat, p: Record, r: Record)
    requires Has(w.store, t) && At(w.store, t).body.TaskStart? && BudgetStamp(env, w, t, p).Sealing?
    requires r == BudgetStamp(env, w, t, p).r.(pos := r.pos, rulepack := r.rulepack) && RecordInScope(env, r)
    requires r.body.ToolCall? && !r.body.approvalSeq.NoInt? && r.body.confirmation == Granted ==>
               Cited(s, r.body).Some? && Cited(s, r.body).value.outcome == Grant
    ensures Enforced(s, r, LinesFor(env, w, t, p.body))
  {
    hide BudgetStamp, LinesFor, Exceeded, Cited;
    StampFacts(env, w, t, p);
    var lines := LinesFor(env, w, t, p.body);
    forall l | l in lines && !l.admitted
      ensures Over(l.bid, l.metric) in r.hits
      ensures r.decision == Block || (Cited(s, r.body).Some? && Cited(s, r.body).value.outcome == Grant)
    {
      ExceededIff(lines, Over(l.bid, l.metric));
    }
  }

  /** What a stamp that is not refused says of the draft. */
  lemma StampFacts(env: Env, w: WState, t: nat, p: Record)
    requires Has(w.store, t) && At(w.store, t).body.TaskStart? && BudgetStamp(env, w, t, p).Sealing?
    ensures var lines := LinesFor(env, w, t, p.body);
            && BudgetStamp(env, w, t, p).r == p.(body := WithBudget(p.body, BudgetObject(lines)))
            && (forall h :: h in p.hits && h.Over? <==> h in Exceeded(lines))
            && (Exceeded(lines) != [] ==> p.decision == Block || (p.body.ToolCall? && p.body.confirmation == Granted))
  {
    var lines := LinesFor(env, w, t, p.body);
    forall h ensures h in p.hits && h.Over? <==> h in Exceeded(lines) {
      SameHits(p.hits, lines, h);
    }
  }

  lemma ActBudgets(env: Env, w: WState, s: VState, ev: Event, r: Record)
    requires PackHeld(env, w) && EnvOk(env) && MirrorsTasks(env, s, w.store)
    requires ev.Act? && ActDraft(env, w, ev).Sealing? && RecordInScope(env, r) && InScope(env, w, ev)
    requires r == ActDraft(env, w, ev).r.(pos := r.pos, rulepack := r.rulepack) && r.rulepack == w.rulepackHash
    requires r.task.Dec? && r.task.n in s.tasks
    requires r.body.ToolCall? && !r.body.approvalSeq.NoInt? && r.body.confirmation == Granted ==>
               Cited(s, r.body).Some? && Cited(s, r.body).value.outcome == Grant
    ensures BudgetCode(env, s, s.tasks[r.task.n], r) == Ok
  {
    ActGuarded(env, w, ev);
    var p := Prepared(w, ev);
    if Stamps(w, ev) {
      assert p.body == ev.draft.body && HostsFit(env, w, ev.place.n, p.body);
    }
    hide ActDraft, ParentRefusal, ApprovalRefusal, MustCite, Ended, Prepared, BudgetCode, LinesFor, HostsFit, InScope;
    if Stamps(w, ev) {
      ActBudget(env, w, s, ev.place.n, p, r);
    } else {
      NoBudgetPasses(env, s, s.tasks[r.task.n], r);
    }
  }

  lemma ActPasses(env: Env, w: WState, s: VState, ev: Event, r: Record)
    requires MemoryIs(w) && PackHeld(env, w) && EnvOk(env) && Mirrors(env, s, w.store)
    requires Fresh(w, r) && ev.Act? && InScope(env, w, ev)
    requires ActDraft(env, w, ev).Sealing? && r == ActDraft(env, w, ev).r.(pos := r.pos, rulepack := r.rulepack)
    ensures Verify(env, s, r) == Ok
  {
    hide ActDraft, Verify, BudgetCode, ApprovalCode, TaskCode, ParentCode, ParentRefusal, ApprovalRefusal, MustCite,
         MirrorsRequests, MirrorsDecisions, MirrorsUsed, MirrorsPending, MirrorsEnded, MirrorsSeen, MirrorsTasks,
         TasksNamed, MirrorsTask, Ended, Cited, InScope, CallInScope;
    ActScope(env, w, ev, r);
    ScopeParts(env, w, ev, r);
    ActSealedGuarded(env, w, ev, r);
    ParentPasses(env, s, w.store, r);
    SameRulepack(s, w.store, r);
    ActTask(env, w, s, r);
    ActApproval(env, w, s, r);
    if r.task.Dec? {
      ActBudgets(env, w, s, ev, r);
    }
    FromParts(env, s, r);
  }

  // ---- every run ----

  /** The record is the event's draft, numbered and stamped by `Node.seal`. */
  ghost predicate Drafted(env: Env, w: WState, ev: Event, r: Record) {
    && DraftOf(env, w, ev).Sealing?
    && r == DraftOf(env, w, ev).r.(pos := r.pos, rulepack := r.rulepack)
    && Fresh(w, r)
    && (r.body.RulepackChange? ==> r.rulepack == DraftOf(env, w, ev).r.rulepack)
  }

  lemma SealedDrafted(env: Env, w: WState, ev: Event)
    requires MemoryIs(w) && SealedBy(env, w, ev).Some?
    ensures Drafted(env, w, ev, SealedBy(env, w, ev).value)
  {
    hide DraftOf;
    SealedIs(env, w, ev);
  }

  lemma RestartSame(w: WState)
    requires MemoryIs(w)
    ensures Rebuilt(w) == w
  {
  }

  /** Records of the ledger itself and of the agent registry, outside any task. */
  lemma LedgerPasses(env: Env, w: WState, s: VState, ev: Event, r: Record)
    requires MemoryIs(w) && SessionsHeld(w) && MirrorsRest(s, w.store) && MirrorsSeen(s, w.store)
    requires Shaped(w, ev) && Drafted(env, w, ev, r)
    requires !ev.Infer? && !ev.Act? && !ev.Ask? && !ev.Decide? && !ev.Expire? && !ev.EndTask?
    ensures Verify(env, s, r) == Ok
  {
    hide Verify, MirrorsRest, MirrorsSeen, SessionsHeld;
    match ev
    case ChangePolicy(_, _) => PolicyPasses(env, w, s, ev, r);
    case Halt(_, _) => PolicyPasses(env, w, s, ev, r);
    case AdoptPack(ts, pack) => AdoptPasses(env, w, s, ts, pack, r);
    case Restart(ts, pack) => RestartSame(w); AdoptPasses(env, w, s, ts, pack.value, r);
    case Register(_, _, _, _) => AgentPasses(env, w, s, ev, r);
    case Rotate(_, _, _, _) => AgentPasses(env, w, s, ev, r);
    case Revoke(_, _, _) => AgentPasses(env, w, s, ev, r);
    case StartTask(_, _, _, _, _, _) => StartPasses(env, w, s, ev, r);
    case _ =>
  }

  lemma TaskPasses(env: Env, w: WState, s: VState, ev: Event, r: Record)
    requires MemoryIs(w) && Held(w) && PackHeld(env, w) && EnvOk(env)
    requires Mirrors(env, s, w.store) && Shaped(w, ev) && Drafted(env, w, ev, r) && InScope(env, w, ev)
    requires ev.Infer? || ev.Act? || ev.Ask? || ev.Decide? || ev.Expire? || ev.EndTask?
    ensures Verify(env, s, r) == Ok
  {
    hide Verify, Mirrors, Held, PackHeld, MemoryIs,
         ActDraft, InferDraft, AskDraft, StartDraft, EndDraft, DecideDraft, ExpireDraft, AdoptDraft;
    if ev.EndTask? {
      EndPasses(env, w, s, ev, r);
    } else if ev.Infer? {
      InferPasses(env, w, s, ev, r);
    } else if ev.Act? {
      ActPasses(env, w, s, ev, r);
    } else if ev.Ask? {
      AskScope(env, w, ev, r);
      AskPasses(env, w, s, ev, r);
    } else {
      HeldParts(w);
      DecisionDrafted(env, w, ev, r);
      DecisionPasses(env, w, s, r);
    }
  }

  /** In a state the invariant describes, whatever an event seals passes the verifier. */
  lemma SealedPasses(env: Env, w: WState, s: VState, ev: Event)
    requires Ready(env, w) && EnvOk(env) && Shaped(w, ev) && InScope(env, w, ev) && Mirrors(env, s, w.store)
    requires SealedBy(env, w, ev).Some?
    ensures Verify(env, s, SealedBy(env, w, ev).value) == Ok
  {
    hide Verify, Mirrors, Held, PackHeld, MemoryIs, SessionsHeld, Drafted, SealedBy;
    SealedDrafted(env, w, ev);
    var r := SealedBy(env, w, ev).value;
    if ev.Infer? || ev.Act? || ev.Ask? || ev.Decide? || ev.Expire? || ev.EndTask? {
      TaskPasses(env, w, s, ev, r);
    } else {
      MirrorsParts(env, s, w.store);
      LedgerPasses(env, w, s, ev, r);
    }
  }

  lemma MirrorsParts(env: Env, s: VState, chain: seq<Record>)
    requires Mirrors(env, s, chain)
    ensures MirrorsRest(s, chain) && MirrorsSeen(s, chain)
  {
  }

  lemma HeldParts(w: WState)
    requires Held(w)
    ensures RequestsHeld(w)
  {
  }

  lemma AskScope(env: Env, w: WState, ev: Event, r: Record)
    requires ev.Ask? && AskDraft(w, ev).Sealing? && r == AskDraft(w, ev).r.(pos := r.pos, rulepack := r.rulepack)
    requires WellFormed(r) && InScope(env, w, ev)
    ensures r.parent.Blank? ==> env.allowOrphans
  {
  }

  /** Putting a pack in force always moves the chain to its hash. */
  lemma AdoptSeals(env: Env, w: WState, ev: Event)
    requires MemoryIs(w)
    requires ev.AdoptPack? || (ev.Restart? && ev.loaded.Some?)
    ensures var pack := if ev.AdoptPack? then ev.newPack else ev.loaded.value;
            && Step(env, w, ev).rulepackHash == pack.hash && Step(env, w, ev).pack == Some(pack)
  {
    RestartSame(w);
  }

  lemma OthersKeepPack(env: Env, w: WState, ev: Event)
    requires MemoryIs(w) && !ev.AdoptPack? && !ev.Restart?
    ensures Step(env, w, ev).rulepackHash == w.rulepackHash && Step(env, w, ev).pack == w.pack
  {
    hide DraftOf, SealedBy, Step;
    LoadedMemory(w, ev);
    StepSealsNothing(env, w, ev);
    LoadedPackSame(w, ev);
    if SealedBy(env, w, ev).Some? {
      SealedIs(env, w, ev);
      OthersNoChange(env, w, ev);
    }
  }

  lemma LoadedPackSame(w: WState, ev: Event)
    requires !ev.AdoptPack? && !ev.Restart?
    ensures Loaded(w, ev).pack == w.pack
  {
  }

  lemma OthersNoChange(env: Env, w: WState, ev: Event)
    requires !ev.AdoptPack? && !ev.Restart? && DraftOf(env, w, ev).Sealing?
    ensures !DraftOf(env, w, ev).r.body.RulepackChange?
  {
    if ev.Act? {
      ActKinds(env, w, ev);
    }
  }

  lemma StepPack(env: Env, w: WState, ev: Event)
    requires MemoryIs(w) && PackHeld(env, w) && Shaped(w, ev) && PackScope(env, ev)
    ensures PackHeld(env, Step(env, w, ev))
  {
    if ev.AdoptPack? || (ev.Restart? && ev.loaded.Some?) {
      AdoptSeals(env, w, ev);
    } else if ev.Restart? {
      RestartSame(w);
    } else {
      OthersKeepPack(env, w, ev);
    }
  }

  lemma AgentsKeepAuth(agents: map<string, Agent>, r: Record)
    requires r.body.AgentRegister? ==> r.agent !in agents
    ensures forall a | a in agents :: a in NextAgents(agents, r) && NextAgents(agents, r)[a].auth == agents[a].auth
  {
  }

  lemma RegisterIsNew(env: Env, w: WState, ev: Event)
    requires DraftOf(env, w, ev).Sealing? && DraftOf(env, w, ev).r.body.AgentRegister?
    ensures DraftOf(env, w, ev).r.agent !in w.agents
  {
    if ev.Act? {
      ActKinds(env, w, ev);
    }
  }

  lemma LoadedSessions(w: WState, ev: Event)
    requires SessionsHeld(w) && MemoryIs(w)
    ensures SessionsHeld(Loaded(w, ev))
  {
    RestartSame(w);
  }

  lemma StepSessions(env: Env, w: WState, ev: Event)
    requires MemoryIs(w) && SessionsHeld(w)
    ensures SessionsHeld(Step(env, w, ev))
  {
    LoadedMemory(w, ev);
    LoadedSessions(w, ev);
    if SealedBy(env, w, ev).Some? {
      SealedIs(env, w, ev);
      if DraftOf(env, w, ev).r.body.AgentRegister? {
        RegisterIsNew(env, w, ev);
      }
      hide DraftOf, Loaded;
      AgentsKeepAuth(Loaded(w, ev).agents, SealedBy(env, w, ev).value);
    }
  }

  lemma StepReady(env: Env, w: WState, ev: Event)
    requires Ready(env, w) && EnvOk(env) && Shaped(w, ev) && PackScope(env, ev)
    requires SealedBy(env, w, ev).Some? ==> InScope(env, w, ev)
    ensures Ready(env, Step(env, w, ev))
  {
    hide Step, Held, PackHeld, SessionsHeld, Accepted, Shaped, SealedBy;
    StepRemembers(env, w, ev);
    StepHolds(env, w, ev);
    StepPack(env, w, ev);
    StepSessions(env, w, ev);
    if SealedBy(env, w, ev).Some? {
      StateIsRecount(env, w.store);
      SealedPasses(env, w, StateAfter(env, w.store), ev);
      var r := SealedBy(env, w, ev).value;
      RunStep(env, w.store, r);
      SealedNumber(env, w, ev);
      AtExtended(w.store, r);
    }
  }

  lemma SealedNumber(env: Env, w: WState, ev: Event)
    requires MemoryIs(w) && SealedBy(env, w, ev).Some?
    ensures SealedBy(env, w, ev).value.pos == |w.store| + 1
  {
    hide DraftOf;
    SealedIs(env, w, ev);
  }

  /** Every call of the run that seals a record is in scope in the state it meets. */
  ghost predicate ScopedAt(env: Env, evs: seq<Event>, i: int)
    requires 0 <= i < |evs|
  {
    SealedBy(env, After(env, evs[..i]), evs[i]).Some? ==> InScope(env, After(env, evs[..i]), evs[i])
  }

  ghost predicate InScopeRun(env: Env, evs: seq<Event>) {
    forall i | 0 <= i < |evs| :: ScopedAt(env, evs, i)
  }

  lemma ScopedStep(env: Env, evs: seq<Event>)
    requires evs != []
    ensures InScopeRun(env, evs) <==> InScopeRun(env, evs[..|evs| - 1]) && ScopedAt(env, evs, |evs| - 1)
  {
    hide After, SealedBy, InScope;
    var front := evs[..|evs| - 1];
    forall i | 0 <= i < |front| ensures ScopedAt(env, front, i) <==> ScopedAt(env, evs, i) {
      assert front[..i] == evs[..i];
    }
  }

  lemma {:induction false} RunReady(env: Env, evs: seq<Event>)
    requires EnvOk(env) && ShapedRun(env, evs) && PackRun(env, evs) && InScopeRun(env, evs)
    ensures Ready(env, After(env, evs))
  {
    hide Step, Shaped, InScope, SealedBy, PackScope, InScopeRun;
    if evs != [] {
      var front := evs[..|evs| - 1];
      ShapedStep(env, evs);
      ScopedStep(env, evs);
      RunReady(env, front);
      StepReady(env, After(env, front), evs[|evs| - 1]);
    }
  }

  /** Every chain the ledger writes, by any interleaving of its endpoints and any readings of its clock, passes the
      verifier, with or without the rule pack given to it. */
  lemma {:induction false} WriterRefinesVerifier(env: Env, evs: seq<Event>)
    requires EnvOk(env) && ShapedRun(env, evs) && PackRun(env, evs) && InScopeRun(env, evs)
    ensures Accepted(env, After(env, evs).store)
  {
    RunReady(env, evs);
  }
}
