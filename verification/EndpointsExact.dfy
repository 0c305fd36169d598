/** When an agent's and the operator's endpoints seal, and what: exactly, and said of the records already sealed
    (sijill/agents.py, sijill/approvals.py, sijill/proxy.py). */
module EndpointsExact {
  import opened Records
  import opened Checks
  import opened Store
  import opened ChainFacts
  import opened Budgets
  import opened Writer
  import opened Runs
  import opened ApprovalRuns
  import opened Refinement
  import opened ActRefinement
  import opened Reference
  import opened Recounts
  import opened GuardsExact

  // ---- the registry over every run ----

  /** Only `seal_agent` seals a registration, a rotation or a revocation, and only of an agent it fits. */
  lemma DraftAgentFits(env: Env, w: WState, ev: Event)
    requires MemoryIs(w) && DraftOf(env, w, ev).Sealing?
    ensures AgentFits(w.store, DraftOf(env, w, ev).r)
  {
    hide AgentsOf, InferDraft, AskDraft, StartDraft, EndDraft, DecideDraft, ExpireDraft, AdoptDraft, ActDraft;
    if ev.Act? {
      ActKinds(env, w, ev);
    } else if !ev.Register? && !ev.Rotate? && !ev.Revoke? {
      OtherKinds(env, w, ev);
    }
  }

  lemma OtherKinds(env: Env, w: WState, ev: Event)
    requires !ev.Act? && !ev.Register? && !ev.Rotate? && !ev.Revoke? && DraftOf(env, w, ev).Sealing?
    ensures var b := DraftOf(env, w, ev).r.body; !b.AgentRegister? && !b.AgentRotate? && !b.AgentRevoke?
  {
  }

  /** After every run the registry in memory is what the chain's own records say. */
  lemma {:induction false} RunRegistry(env: Env, evs: seq<Event>, a: string)
    ensures RegistryIs(After(env, evs).store, a)
  {
    hide Step, DraftOf, RegistryIs, AgentFits;
    if evs == [] {
      EmptyRun(env);
    } else {
      var w, ev := After(env, evs[..|evs| - 1]), evs[|evs| - 1];
      RunRegistry(env, evs[..|evs| - 1], a);
      RestartInvisible(env, evs[..|evs| - 1]);
      StepRemembers(env, w, ev);
      if SealedBy(env, w, ev).Some? {
        SealedIs(env, w, ev);
        DraftAgentFits(env, w, ev);
        FitsUnnumbered(w.store, DraftOf(env, w, ev).r, SealedBy(env, w, ev).value);
        RegistryStep(w.store, SealedBy(env, w, ev).value, a);
      }
    }
  }

  lemma FitsUnnumbered(chain: seq<Record>, d: Record, r: Record)
    requires AgentFits(chain, d) && r == d.(pos := r.pos, rulepack := r.rulepack)
    ensures AgentFits(chain, r)
  {
  }

  lemma RegisteredHas(chain: seq<Record>, a: string)
    requires Registered(chain, a)
    ensures exists n :: RegisteredAt(chain, a, n)
  {
  }

  /** Registered, and not revoked, by the chain's records. */
  ghost predicate Enrolled(chain: seq<Record>, a: string) { Registered(chain, a) && !Revoked(chain, a) }

  lemma ActiveIff(w: WState, a: string)
    requires MemoryIs(w) && RegistryIs(w.store, a)
    ensures Active(w, a) <==> Enrolled(w.store, a)
  {
    hide AgentsOf, Registered, Revoked;
  }

  ghost predicate RegisteredBy(chain: seq<Record>, a: string, auth: AgentAuth) {
    exists n :: RegisteredAt(chain, a, n) && At(chain, n).body.auth == auth
  }

  /** An agent session opens exactly for an enrolled agent, by the way it registered: its key or its own token. */
  lemma {:induction false} SessionOpensIff(w: WState, s: Session)
    requires MemoryIs(w) && RegistryIs(w.store, s.agent)
    ensures s in Loaded(w, OpenSession(s)).sessions <==>
            || s in w.sessions
            || (Enrolled(w.store, s.agent) && (s.auth == KeyAuth || s.auth == OidcAuth) && RegisteredBy(w.store, s.agent, s.auth))
  {
    ActiveIff(w, s.agent);
    hide AgentsOf, Registered, Revoked;
    if Enrolled(w.store, s.agent) {
      RegisteredHas(w.store, s.agent);
    }
  }

  // ---- POST /api/agent/seal ----

  /** What the door admits: five record types, and reserved ids only where they may stand. */
  predicate DoorAdmits(d: Record) {
    && (d.body.ToolCall? || d.body.ToolResult? || d.body.Egress? || d.body.IntegrityBaseline? || d.body.IntegrityDrift?)
    && forall h | h in d.hits ::
         && (h.Over? ==> d.body.ToolCall? || d.body.Egress?)
         && (h.Rule? && IsReserved(h.id) ==>
               && (h.id == "http-operation-unknown" || h.id == "command-too-long")
               && d.body.ToolCall? && d.decision == Block && d.mode == Enforce)
  }

  predicate IsReserved(id: string) {
    || id == "upstream_error" || id == "halted" || id == "resumed" || id == "approval-timeout" || id == "command-too-long"
    || id == "http-operation-unknown" || id == "http-task-ambiguous" || id == "foundry-item-unknown"
    || id == "principal-missing" || id == "principal-invalid" || id == "principal-expired"
    || id == "principal-assurance-low" || id == "principal-task-mismatch" || id == "principal-jwks-unavailable"
  }

  /** The call's place: a task this session started and nobody ended, or none for a record that needs none. */
  ghost predicate Placed(chain: seq<Record>, place: Ref, s: Session, b: Body) {
    match place
    case Garbled => false
    case Blank => !b.ToolCall? && !b.ToolResult? && !b.Egress?
    case Dec(t) => OwnTask(chain, t, s) && !TaskEnded(chain, t)
  }

  ghost predicate OwnTask(chain: seq<Record>, t: int, s: Session) {
    Has(chain, t) && At(chain, t).body.TaskStart? && At(chain, t).body.session == s.id
  }

  /** The halt stops agents too: of calls, results and egress. */
  predicate Stopped(w: WState, ev: Event)
    requires ev.Act?
  {
    w.halted && (ev.draft.body.ToolCall? || ev.draft.body.ToolResult? || ev.draft.body.Egress?)
  }

  /** A call that runs without a citation under an entra pack claims no confirmation and met no confirm hit. */
  ghost predicate NeedsNoCitation(pack: Option<Pack>, r: Record)
    requires r.body.ToolCall?
  {
    pack.Some? && pack.value.entra && r.decision != Block ==>
      r.body.confirmation != Granted && forall h | h in r.hits :: !NeedsPerson(pack.value, h)
  }

  /** The caller's budget hits are the excesses, and a block or a claimed grant enforces them. */
  predicate BudgetAgreed(env: Env, w: WState, t: nat, d: Record)
    requires Has(w.store, t) && At(w.store, t).body.TaskStart?
  {
    var over := Exceeded(LinesFor(env, w, t, d.body));
    && multiset(OverHits(d.hits)) == multiset(over)
    && (over != [] ==> d.decision == Block || (d.body.ToolCall? && d.body.confirmation == Granted))
  }

  /** Which calls the endpoint seals: all of its conditions, said of the chain's records, the pack and the halt. */
  ghost predicate ActSealed(env: Env, w: WState, ev: Event)
    requires ev.Act? && (ev.place.Dec? ==> Has(w.store, ev.place.n))
  {
    var d, p := ev.draft, Prepared(w, ev);
    && DoorAdmits(d) && Placed(w.store, ev.place, ev.session, d.body)
    && ev.named == RulepackOf(w.store)
    && ev.session in w.sessions && Enrolled(w.store, ev.session.agent)
    && (if d.parent.Blank? then d.body.IntegrityBaseline? || (d.body.ToolCall? && d.body.uncorrelated)
        else ParentRefusal(w.store, p) == 0)
    && (p.body.ToolCall? ==>
          if p.body.approvalSeq.NoInt? then NeedsNoCitation(w.pack, p) else ApprovalRefusal(w.store, w.pack, p) == 0)
    && (ev.place.Dec? && (d.body.ToolCall? || d.body.Egress?) && !Stopped(w, ev) ==>
          BudgetAgreed(env, w, ev.place.n, p))
  }

  lemma MaySendIff(d: Record)
    ensures Sealable(d.body) && (forall h | h in d.hits :: MaySend(d, h)) <==> DoorAdmits(d)
  {
    forall id ensures id in RESERVED <==> IsReserved(id) {
    }
  }

  lemma MustCiteIff(pack: Option<Pack>, r: Record)
    requires r.body.ToolCall?
    ensures MustCite(pack, r) <==> !NeedsNoCitation(pack, r)
  {
    hide ConfirmHit, NeedsPerson;
    forall h | pack.Some? ensures NeedsPerson(pack.value, h) <==> ConfirmHit(pack.value, h) {
      NeedsPersonIff(pack.value, h);
    }
  }

  lemma TaskOfSessionIff(chain: seq<Record>, t: int, s: Session)
    ensures TaskOfSession(chain, t, s) <==> OwnTask(chain, t, s)
  {
  }

  /** The draft passes the endpoint exactly when all of its conditions hold. */
  lemma {:induction false} ActDraftIff(env: Env, w: WState, ev: Event)
    requires MemoryIs(w) && ev.Act? && RegistryIs(w.store, ev.session.agent)
    ensures ActDraft(env, w, ev).Sealing? && (ev.draft.parent.Blank? ==> Unparented(ev.draft.body)) <==>
            (ev.place.Dec? ==> Has(w.store, ev.place.n)) && ActSealed(env, w, ev)
  {
    ActiveIff(w, ev.session.agent);
    MaySendIff(ev.draft);
    hide RegistryIs, Active, Enrolled, MaySend, DoorAdmits, IsReserved;
    if ev.place.Dec? {
      EndedIff(w.store, ev.place.n);
      TaskOfSessionIff(w.store, ev.place.n, ev.session);
    }
    if ev.draft.body.ToolCall? && (ev.place.Dec? ==> Has(w.store, ev.place.n)) {
      MustCiteIff(w.pack, Prepared(w, ev));
    }
    hide AgentsOf, ApprovalsOf, MustCite, NeedsNoCitation, ParentRefusal, ApprovalRefusal, Ended, TaskEnded, LinesFor,
         Exceeded, OverHits, RuleHits, OwnTask;
  }

  predicate Unparented(b: Body) { b.IntegrityBaseline? || (b.ToolCall? && b.uncorrelated) }

  lemma NotLoaded(w: WState, ev: Event)
    requires ev.Act? || ev.Ask? || ev.StartTask? || ev.Infer? || ev.Decide? || ev.Expire? || ev.EndTask?
    ensures Loaded(w, ev) == w
  {
  }

  /** record.py refuses a call without a parent that does not say so, and nothing else the guards let through. */
  lemma ActFormed(w: WState, r: Record)
    requires MemoryIs(w) && SealedGuarded(w, r)
    ensures Stamped(w, r).Some? <==> (r.parent.Blank? ==> Unparented(r.body))
  {
    hide AgentsOf, ApprovalsOf, ApprovalRefusal, MustCite, Ended;
  }

  /** `/api/agent/seal` seals exactly the calls that meet its conditions, the active agent among them. */
  lemma {:induction false} ActSealsIff(env: Env, w: WState, ev: Event)
    requires MemoryIs(w) && ev.Act? && RegistryIs(w.store, ev.session.agent)
    ensures SealedBy(env, w, ev).Some? <==> (ev.place.Dec? ==> Has(w.store, ev.place.n)) && ActSealed(env, w, ev)
  {
    ActDraftIff(env, w, ev);
    NotLoaded(w, ev);
    if ActDraft(env, w, ev).Sealing? {
      var r := ActDraft(env, w, ev).r;
      ActSealedGuarded(env, w, ev, r);
      ActFormed(w, r);
      SealedParent(env, w, ev);
    }
    hide MemoryIs, ActDraft, ActSealed, Stamped, SealedGuarded;
  }

  lemma SealedParent(env: Env, w: WState, ev: Event)
    requires ev.Act? && ActDraft(env, w, ev).Sealing?
    ensures var r := ActDraft(env, w, ev).r;
            r.parent == ev.draft.parent && (Unparented(r.body) <==> Unparented(ev.draft.body))
  {
    hide ActDraft, BudgetStamp, LinesFor;
    ActGuarded(env, w, ev);
    var budget := SealedShape(env, w, ev, ActDraft(env, w, ev).r);
  }

  lemma ActIs(env: Env, w: WState, ev: Event)
    requires ev.Act?
    ensures DraftOf(env, w, ev) == ActDraft(env, w, ev)
  {
    hide ActDraft;
  }

  lemma BudgetRead(b: Body, budget: BudgetKey)
    requires Sealable(b)
    ensures WithBudget(b, BudgetOf(WithBudget(b, budget))) == WithBudget(b, budget)
  {
  }

  /** What is sealed: the draft as sent, in the task and under the identity of its place, with the ledger's own budget
      object. */
  lemma {:induction false} ActRecord(env: Env, w: WState, ev: Event)
    requires MemoryIs(w) && ev.Act? && SealedBy(env, w, ev).Some? && !Stopped(w, ev)
    ensures ev.place.Dec? ==> Has(w.store, ev.place.n)
    ensures var (r, d) := (SealedBy(env, w, ev).value, ev.draft);
            && r == d.(pos := r.pos, rulepack := r.rulepack, ts := ev.ts, task := ev.place, agent := r.agent,
                       principal := r.principal, body := r.body)
            && (r.agent, r.principal) == (if ev.place.Dec? then (At(w.store, ev.place.n).agent, At(w.store, ev.place.n).principal)
                                          else (ev.session.agent, ev.session.principal))
            && r.body == WithBudget(d.body, BudgetOf(r.body))
  {
    hide ActDraft, BudgetStamp, LinesFor, DraftOf;
    SealedIs(env, w, ev);
    ActIs(env, w, ev);
    ActGuarded(env, w, ev);
    var budget := SealedShape(env, w, ev, SealedBy(env, w, ev).value);
    hide Prepared;
    BudgetRead(Prepared(w, ev).body, budget);
  }

  /** Under the halt: blocked and enforced, the halt among the hits and no budget hit, no budget sealed, and a citation
      dropped for a denied confirmation. */
  lemma {:induction false} HaltedRecord(env: Env, w: WState, ev: Event)
    requires MemoryIs(w) && ev.Act? && SealedBy(env, w, ev).Some? && Stopped(w, ev)
    ensures var (r, d) := (SealedBy(env, w, ev).value, ev.draft);
            && r == d.(pos := r.pos, rulepack := r.rulepack, ts := ev.ts, task := ev.place, agent := r.agent,
                       principal := r.principal, mode := Enforce, decision := Block, hits := r.hits, body := r.body)
            && r.task.Dec? && Has(w.store, r.task.n)
            && r.agent == At(w.store, r.task.n).agent && r.principal == At(w.store, r.task.n).principal
            && (forall h :: h in r.hits <==> (h in d.hits && h.Rule?) || h == Rule("halted"))
            && (d.body.ToolResult? ==> r.body == d.body)
            && (d.body.Egress? ==> r.body == Egress(d.body.host, NoBudget))
            && (d.body.ToolCall? ==>
                  && r.body.ToolCall?
                  && r.body == d.body.(approvalSeq := NoInt, confirmation := r.body.confirmation, budget := NoBudget)
                  && r.body.confirmation == if d.body.approvalSeq.NoInt? then d.body.confirmation else Denied)
  {
    hide ActDraft, DraftOf;
    SealedIs(env, w, ev);
    ActIs(env, w, ev);
    ActGuarded(env, w, ev);
    forall h ensures h in RuleHits(ev.draft.hits) <==> h in ev.draft.hits && h.Rule? {
      OverHitsIff(ev.draft.hits, h);
    }
    hide RuleHits;
  }

  // ---- POST /api/agent/approval/request ----

  /** A tool_use of the inference still asks for this call, or the request says the call has no parent. */
  ghost predicate AskParented(env: Env, w: WState, ev: Event)
    requires ev.Ask? && Has(w.store, ev.task)
  {
    var asCall := AskedCall(w, ev);
    if ev.parent.Blank? then ev.uncorrelated
    else && ev.parent.Dec? && SoundParent(env, w.store, asCall) && At(w.store, ev.parent.n).task == Dec(ev.task)
         && UseLeft(w.store, asCall)
  }

  /** The call the request is about, as its parent rules see it. */
  function AskedCall(w: WState, ev: Event): Record
    requires ev.Ask? && Has(w.store, ev.task)
  {
    Record(0, ev.ts, RecordOnly, Flag, ev.hits, ev.inputHash, ev.parent, Dec(ev.task), "", At(w.store, ev.task).agent,
           At(w.store, ev.task).principal, "",
           ToolCall(None, ev.uncorrelated, ev.qualified, NoConfirmation, NoInt, false, false, true, NoBudget))
  }

  ghost predicate AskSealed(env: Env, w: WState, ev: Event)
    requires ev.Ask?
  {
    && w.pack.Some? && w.pack.value.entra && ev.hits != [] && (forall h | h in ev.hits :: NeedsPerson(w.pack.value, h))
    && OwnTask(w.store, ev.task, ev.session) && !TaskEnded(w.store, ev.task)
    && ev.session in w.sessions && Enrolled(w.store, ev.session.agent)
    && AskParented(env, w, ev)
  }

  lemma {:induction false} AskDraftIff(env: Env, w: WState, ev: Event)
    requires MemoryIs(w) && ev.Ask? && RegistryIs(w.store, ev.session.agent)
    ensures AskDraft(w, ev).Sealing? && (ev.parent.Blank? ==> ev.uncorrelated) <==> AskSealed(env, w, ev)
  {
    ActiveIff(w, ev.session.agent);
    hide RegistryIs, Active, Enrolled;
    EndedIff(w.store, ev.task);
    TaskOfSessionIff(w.store, ev.task, ev.session);
    forall h | w.pack.Some? ensures NeedsPerson(w.pack.value, h) <==> ConfirmHit(w.pack.value, h) {
      NeedsPersonIff(w.pack.value, h);
    }
    hide NeedsPerson, ConfirmHit;
    if Has(w.store, ev.task) {
      AskedParent(env, w, ev);
    }
    hide AgentsOf, ApprovalsOf, Ended, TaskEnded, OwnTask, TaskOfSession, ParentRefusal, AskParented;
  }

  lemma AskedParent(env: Env, w: WState, ev: Event)
    requires ev.Ask? && Has(w.store, ev.task)
    ensures ParentRefusal(w.store, AskedCall(w, ev)) == 0 && (ev.parent.Blank? ==> ev.uncorrelated)
            <==> AskParented(env, w, ev)
  {
    if ev.parent.Dec? {
      ParentRefusalIff(env, w.store, AskedCall(w, ev));
    }
    hide SoundParent, UseLeft;
  }

  /** The request endpoint seals exactly when every hit is one a person answers, the task is the session's own and
      open, the agent enrolled, and the call it asks about could be sealed under its parent. */
  lemma {:induction false} AskSealsIff(env: Env, w: WState, ev: Event)
    requires MemoryIs(w) && ev.Ask? && RegistryIs(w.store, ev.session.agent)
    ensures SealedBy(env, w, ev).Some? <==> AskSealed(env, w, ev)
    ensures AskSealed(env, w, ev) ==>
              var start := At(w.store, ev.task);
              SealedBy(env, w, ev).value
              == Record(|w.store| + 1, ev.ts, RecordOnly, Flag, ev.hits, ev.inputHash, ev.parent, Dec(ev.task),
                        w.rulepackHash, start.agent, start.principal, "",
                        ApprovalRequest(ev.aid, ev.qualified, ev.uncorrelated, ev.timeoutMs, ev.minAssurance, ev.sod))
  {
    AskDraftIff(env, w, ev);
    NotLoaded(w, ev);
    if AskDraft(w, ev).Sealing? {
      AskFormed(w, ev);
    }
    hide AskDraft, AskSealed, Stamped, AgentsOf, ApprovalsOf;
  }

  lemma AskFormed(w: WState, ev: Event)
    requires MemoryIs(w) && ev.Ask? && AskDraft(w, ev).Sealing?
    ensures Has(w.store, ev.task)
    ensures Stamped(w, AskDraft(w, ev).r).Some? <==> (ev.parent.Blank? ==> ev.uncorrelated)
    ensures var start := At(w.store, ev.task);
            AskDraft(w, ev).r.(pos := |w.store| + 1, rulepack := w.rulepackHash)
            == Record(|w.store| + 1, ev.ts, RecordOnly, Flag, ev.hits, ev.inputHash, ev.parent, Dec(ev.task),
                      w.rulepackHash, start.agent, start.principal, "",
                      ApprovalRequest(ev.aid, ev.qualified, ev.uncorrelated, ev.timeoutMs, ev.minAssurance, ev.sod))
  {
    hide ConfirmHit, Ended, AgentsOf, ApprovalsOf;
  }

  // ---- POST /api/agent/task/start ----

  /** A task starts exactly for an open session of an enrolled agent, delegated from a task or from none, and carries
      the session's own authentication. */
  lemma {:induction false} StartSealsIff(env: Env, w: WState, ev: Event)
    requires MemoryIs(w) && ev.StartTask? && RegistryIs(w.store, ev.session.agent)
    ensures SealedBy(env, w, ev).Some? <==>
            && ev.session in w.sessions && Enrolled(w.store, ev.session.agent)
            && !ev.delegatedFrom.Garbled?
            && (ev.delegatedFrom.Dec? ==>
                  Has(w.store, ev.delegatedFrom.n) && At(w.store, ev.delegatedFrom.n).body.TaskStart?)
    ensures SealedBy(env, w, ev).Some? ==>
              var r := SealedBy(env, w, ev).value;
              && r.ts == ev.ts && r.mode == RecordOnly && r.decision == Allow && r.hits == []
              && r.parent == Blank && r.task == Blank && r.agent == ev.session.agent && r.principal == ev.principal
              && r.body == TaskStart(ev.session.auth, ev.session.id, ev.delegatedFrom, ev.harness, "",
                                     if ev.token || ev.session.auth == OidcAuth then ByOidc else ByNone)
  {
    ActiveIff(w, ev.session.agent);
    hide RegistryIs, Active, Enrolled, AgentsOf, ApprovalsOf;
  }

  // ---- the registry's own endpoints ----

  /** The newest record that gives the agent a key gives it this one. */
  ghost predicate HoldsKey(chain: seq<Record>, a: string, key: string) {
    exists n :: KeyedAt(chain, a, n) && KeyGiven(At(chain, n).body) == key
  }

  lemma HoldsKeyIff(w: WState, a: string, key: string)
    requires MemoryIs(w) && RegistryIs(w.store, a) && a in w.agents
    ensures w.agents[a].key == key <==> HoldsKey(w.store, a, key)
  {
    hide AgentsOf, Registered, Revoked;
    var n :| KeyedAt(w.store, a, n) && w.agents[a].key == KeyGiven(At(w.store, n).body);
    assert forall m | KeyedAt(w.store, a, m) :: m == n;
  }

  lemma RegisteredByIff(w: WState, a: string, auth: AgentAuth)
    requires MemoryIs(w) && RegistryIs(w.store, a)
    ensures a in w.agents && w.agents[a].auth == auth <==> RegisteredBy(w.store, a, auth)
  {
    hide AgentsOf, Revoked;
    if a in w.agents {
      RegisteredHas(w.store, a);
    }
  }

  /** The columns of the record an agent event seals. */
  predicate AgentSealed(ev: Event, r: Record)
    requires ev.Register? || ev.Rotate? || ev.Revoke?
  {
    && r.ts == ev.ts && r.agent == ev.agent && r.parent == Blank && r.task == Blank && r.hits == []
    && (r.mode, r.decision) == (if ev.Revoke? then (Enforce, Block) else (RecordOnly, Allow))
    && r.body == match ev
         case Register(_, _, auth, key) => AgentRegister(auth, key, true, true)
         case Rotate(_, _, oldKey, newKey) => AgentRotate(oldKey, newKey, true)
         case Revoke(_, _, key) => AgentRevoke(key)
  }

  lemma AgentDraftIff(env: Env, w: WState, ev: Event)
    requires MemoryIs(w) && (ev.Register? || ev.Rotate? || ev.Revoke?)
    ensures SealedBy(env, w, ev).Some? <==>
            match ev
            case Register(_, a, auth, _) => a !in w.agents && (auth == KeyAuth || auth == OidcAuth || auth == RelayAuth)
            case Rotate(_, a, oldKey, _) => Active(w, a) && w.agents[a].auth == KeyAuth && w.agents[a].key == oldKey
            case Revoke(_, a, key) => Active(w, a) && w.agents[a].key == key
    ensures SealedBy(env, w, ev).Some? ==> AgentSealed(ev, SealedBy(env, w, ev).value)
  {
    hide AgentsOf, ApprovalsOf;
  }

  /** An agent registers once; a key agent that is enrolled rotates the key it holds; an enrolled agent is revoked under
      the key it holds. */
  lemma {:induction false} AgentSealsIff(env: Env, w: WState, ev: Event)
    requires MemoryIs(w) && (ev.Register? || ev.Rotate? || ev.Revoke?) && RegistryIs(w.store, ev.agent)
    ensures SealedBy(env, w, ev).Some? <==>
            match ev
            case Register(_, a, auth, _) =>
              !Registered(w.store, a) && (auth == KeyAuth || auth == OidcAuth || auth == RelayAuth)
            case Rotate(_, a, oldKey, _) =>
              Enrolled(w.store, a) && RegisteredBy(w.store, a, KeyAuth) && HoldsKey(w.store, a, oldKey)
            case Revoke(_, a, key) => Enrolled(w.store, a) && HoldsKey(w.store, a, key)
    ensures SealedBy(env, w, ev).Some? ==> AgentSealed(ev, SealedBy(env, w, ev).value)
  {
    var a := ev.agent;
    AgentDraftIff(env, w, ev);
    ActiveIff(w, a);
    RegisteredByIff(w, a, KeyAuth);
    if a in w.agents && !ev.Register? {
      HoldsKeyIff(w, a, if ev.Rotate? then ev.oldKey else ev.key);
    }
    assert a in w.agents <==> Registered(w.store, a) by { hide AgentsOf; }
    hide AgentsOf, ApprovalsOf, Registered, Revoked, HoldsKey, RegisteredBy, SealedBy, RegistryIs, AgentSealed, MemoryIs;
  }

  // ---- the operator's halt and the rule pack ----

  /** The halt is recorded when it changes, and a rule pack when its hash does: before and after, under the new hash. */
  lemma {:induction false} ControlSeals(env: Env, w: WState, ev: Event)
    requires MemoryIs(w) && (ev.Halt? || ev.AdoptPack?)
    ensures ev.Halt? ==>
              && Step(env, w, ev).halted == ev.on
              && (SealedBy(env, w, ev).Some? <==> ev.on != w.halted)
              && (SealedBy(env, w, ev).Some? ==>
                    var r := SealedBy(env, w, ev).value;
                    r.body == PolicyChange && r.hits == [Rule(if ev.on then "halted" else "resumed")])
    ensures ev.AdoptPack? ==>
              && Step(env, w, ev).pack == Some(ev.newPack) && Step(env, w, ev).rulepackHash == ev.newPack.hash
              && (SealedBy(env, w, ev).Some? <==> ev.newPack.hash != RulepackOf(w.store))
              && (SealedBy(env, w, ev).Some? ==>
                    var r := SealedBy(env, w, ev).value;
                    r.body == RulepackChange(RulepackOf(w.store), ev.newPack.hash) && r.rulepack == ev.newPack.hash)
  {
    hide AgentsOf, ApprovalsOf, NextAgents;
  }

  // ---- an agent that is revoked or was never registered ----

  lemma {:induction false} UnenrolledRefused(env: Env, w: WState, ev: Event)
    requires MemoryIs(w) && (ev.Act? || ev.Ask? || ev.StartTask?) && RegistryIs(w.store, ev.session.agent)
    requires !Registered(w.store, ev.session.agent) || Revoked(w.store, ev.session.agent)
    ensures SealedBy(env, w, ev).None? && Step(env, w, ev) == w
  {
    hide Registered, Revoked, RegistryIs, MemoryIs, DraftOf, SealedBy, AskParented, OwnTask, Placed, DoorAdmits;
    assert !Enrolled(w.store, ev.session.agent);
    if ev.Act? {
      ActSealsIff(env, w, ev);
    } else if ev.Ask? {
      AskSealsIff(env, w, ev);
    } else {
      StartSealsIff(env, w, ev);
    }
    NotLoaded(w, ev);
  }

  /** On any accepted chain that the memory was built from, an agent it revokes or never registered seals nothing. */
  lemma {:induction false} UnenrolledOnAccepted(env: Env, w: WState, ev: Event)
    requires MemoryIs(w) && Accepted(env, w.store) && (ev.Act? || ev.Ask? || ev.StartTask?)
    requires !Registered(w.store, ev.session.agent) || Revoked(w.store, ev.session.agent)
    ensures SealedBy(env, w, ev).None? && Step(env, w, ev) == w
  {
    RegistryOf(env, w.store, ev.session.agent);
    UnenrolledRefused(env, w, ev);
    hide *;
  }

  /** After any run nothing is sealed through a session whose agent the chain revokes or never registered: no call, no
      request for approval, no task. */
  lemma {:induction false} NothingForUnenrolled(env: Env, evs: seq<Event>, ev: Event)
    requires ev.Act? || ev.Ask? || ev.StartTask?
    requires !Registered(After(env, evs).store, ev.session.agent) || Revoked(After(env, evs).store, ev.session.agent)
    ensures SealedBy(env, After(env, evs), ev).None?
    ensures Step(env, After(env, evs), ev) == After(env, evs)
  {
    RunRegistry(env, evs, ev.session.agent);
    RestartInvisible(env, evs);
    UnenrolledRefused(env, After(env, evs), ev);
    hide *;
  }
}
