/** The metric name `tool_calls_by` without a glob: the verifier accepts an entry under it, measured by model spend, and
    the ledger seals none (verifier/sijill_verify.py:673-679, 703-710). */
module BareMetric {
  import opened Records
  import opened Checks
  import opened Store
  import opened ChainFacts
  import opened Budgets
  import opened Writer
  import opened Runs
  import opened ApprovalRuns
  import opened Refinement
  import opened ActRefinement

  // ---- a chain with such an entry passes ----

  const WHO := NonHuman("p")
  const REGISTER: Record := BaseRecord(0, AgentRegister(KeyAuth, "k", true, true)).(pos := 1, agent := "a")
  const START_TASK: Record := BaseRecord(0, TaskStart(KeyAuth, "s", Blank, "", "", ByNone)).(pos := 2, agent := "a", principal := WHO)
  const SPENT: Record := BaseRecord(0, Inference([ToolUse(None, "h")], None, Int(7), None, NoBudget))
                           .(pos := 3, agent := "a", principal := WHO, task := Dec(2))

  /** A call that seals the spend so far as its `tool_calls_by`. */
  const BARE: Record :=
    BaseRecord(0, ToolCall(None, false, "q", NoConfirmation, NoInt, false, false, true, Budget([Entry("b", BareCallsBy, 10, 7)])))
      .(pos := 4, agent := "a", principal := WHO, task := Dec(2), parent := Dec(3), inputHash := "h")

  function AfterStart(): VState {
    VState(map[1 := SeenOf(REGISTER), 2 := SeenOf(START_TASK)], {}, "", false, map["a" := Agent(1, "k", KeyAuth, false)],
           map[2 := Opened(START_TASK)], map[], map[], map[])
  }

  lemma Registers(env: Env)
    ensures Verify(env, Init(), REGISTER) == Ok
    ensures Next(env, Init(), REGISTER)
            == Init().(seen := map[1 := SeenOf(REGISTER)], agents := map["a" := Agent(1, "k", KeyAuth, false)])
  {
  }

  lemma StartsTask(env: Env)
    ensures var s := Init().(seen := map[1 := SeenOf(REGISTER)], agents := map["a" := Agent(1, "k", KeyAuth, false)]);
            Verify(env, s, START_TASK) == Ok && Next(env, s, START_TASK) == AfterStart()
  {
  }

  lemma SpendPasses(env: Env)
    requires env.pack.None?
    ensures Verify(env, AfterStart(), SPENT) == Ok
  {
    assert Entries(SPENT.body) == [];
  }

  /** What the call reads of the state the inference left. */
  lemma SpendLeaves(env: Env)
    ensures var s := Next(env, AfterStart(), SPENT);
            && s.seen == map[1 := SeenOf(REGISTER), 2 := SeenOf(START_TASK), 3 := SeenOf(SPENT)]
            && s.rulepack == "" && !s.rulepackSeen && s.decisions == map[]
            && 2 in s.tasks && s.tasks[2].agent == "a" && s.tasks[2].principal == WHO && !s.tasks[2].ended
            && s.tasks[2].spend == 7
  {
    hide Tallied, NextHosts, NextCalls, NextPending;
    assert TaskOf(AfterStart(), SPENT) == Some(Opened(START_TASK));
  }

  lemma CallsBare(env: Env)
    requires env.pack.None?
    ensures Verify(env, Next(env, AfterStart(), SPENT), BARE) == Ok
  {
    hide Next, AfterStart, CiteFits, UncitedConfirm, Verify;
    SpendLeaves(env);
    var s := Next(env, AfterStart(), SPENT);
    BareEntryPasses(env, s, s.tasks[2]);
    BareParentPasses(env, s);
    BareTaskPasses(s);
    BareUncited(env, s);
    hide BudgetCode, ParentCode, TaskCode, TaskOf, ApprovalCode;
    FromParts(env, s, BARE);
  }

  lemma BareTaskPasses(s: VState)
    requires 2 in s.seen && s.seen[2] == SeenOf(START_TASK) && 3 in s.seen && s.seen[3] == SeenOf(SPENT)
    requires 2 in s.tasks && s.tasks[2].agent == "a" && s.tasks[2].principal == WHO && !s.tasks[2].ended
    ensures TaskCode(s, BARE) == Ok && TaskOf(s, BARE) == Some(s.tasks[2])
  {
  }

  lemma BareUncited(env: Env, s: VState)
    requires env.pack.None?
    ensures ApprovalCode(env, s, BARE) == Ok
  {
  }

  lemma BareParentPasses(env: Env, s: VState)
    requires 3 in s.seen && s.seen[3] == SeenOf(SPENT)
    ensures ParentCode(env, s, BARE) == Ok
  {
    var use := ToolUse(None, "h");
    assert use in SPENT.body.uses && Requested(SPENT.body, BARE);
    hide Requested;
  }

  lemma BareEntryPasses(env: Env, s: VState, k: Task)
    requires env.pack.None? && k.spend == 7
    ensures BudgetCode(env, s, k, BARE) == Ok
  {
    var es := Entries(BARE.body);
    assert es == [Entry("b", BareCallsBy, 10, 7)] && es[1..] == [];
    assert EntryCode(env, s, k, BARE, es[0]) == Ok;
    assert EntriesCode(env, s, k, BARE, es[1..]) == Ok;
    assert EntriesCode(env, s, k, BARE, es) == Ok;
    assert BARE.hits == [] && !Spurious(env, k, BARE);
    hide EntriesCode, Spurious;
  }

  /** Given no rule pack, the verifier accepts this chain. */
  lemma {:induction false} BareAccepted(env: Env)
    requires env.pack.None?
    ensures Accepted(env, [REGISTER, START_TASK, SPENT, BARE])
  {
    hide Verify, Next;
    Registers(env);
    StartsTask(env);
    SpendPasses(env);
    CallsBare(env);
    RunStep(env, [], REGISTER);
    RunStep(env, [] + [REGISTER], START_TASK);
    RunStep(env, [] + [REGISTER] + [START_TASK], SPENT);
    RunStep(env, [] + [REGISTER] + [START_TASK] + [SPENT], BARE);
    assert [] + [REGISTER] + [START_TASK] + [SPENT] + [BARE] == [REGISTER, START_TASK, SPENT, BARE];
  }

  // ---- the ledger seals none ----

  predicate NamesGlob(b: Body) {
    forall e <- Entries(b) :: e.Entry? ==> !e.metric.BareCallsBy?
  }

  lemma {:induction false} LinesNameGlob(env: Env, budgets: seq<BudgetRule>, start: Record, u: Budgets.Used, body: Body, l: Line)
    requires start.body.TaskStart? && l in Evaluate(env, budgets, start, u, body)
    ensures !l.metric.BareCallsBy?
  {
    EvaluateIff(env, budgets, start, u, body, l);
    var b :| b in budgets && Matches(b, start) && l in LinesOf(env, b, u, body);
    hide GlobLines;
    if body.ToolCall? {
      GlobLinesIff(env, b.id, b.limits.toolCallsBy, u.calls, body.qualified, l);
    }
  }

  lemma StampNamesGlob(env: Env, w: WState, t: nat, body: Body, b: Body)
    requires Has(w.store, t) && At(w.store, t).body.TaskStart?
    ensures NamesGlob(WithBudget(b, BudgetObject(LinesFor(env, w, t, body))))
            || !(b.Inference? || b.ToolCall? || b.Egress?)
  {
    var lines := LinesFor(env, w, t, body);
    forall l | l in lines ensures !l.metric.BareCallsBy? {
      LinesNameGlob(env, w.pack.value.budgets, At(w.store, t), UsedIn(env, InTask(w.store, t)), body, l);
    }
    hide LinesFor;
    SealedLines(lines);
    assert forall e | e in Sealed(lines) :: e.Entry? && !e.metric.BareCallsBy?;
  }

  lemma PlainNamesGlob(b: Body)
    ensures BudgetOf(b).NoBudget? ==> NamesGlob(b)
    ensures NamesGlob(WithBudget(b, NoBudget))
  {
  }

  lemma DraftNamesGlob(env: Env, w: WState, ev: Event)
    requires DraftOf(env, w, ev).Sealing?
    ensures NamesGlob(DraftOf(env, w, ev).r.body)
  {
    hide NamesGlob;
    PlainNamesGlob(DraftOf(env, w, ev).r.body);
    if ev.Act? {
      ActNamesGlob(env, w, ev);
    } else if ev.Infer? {
      InferNamesGlob(env, w, ev);
    } else {
      OtherBody(env, w, ev);
    }
  }

  lemma OtherBody(env: Env, w: WState, ev: Event)
    requires DraftOf(env, w, ev).Sealing? && !ev.Act? && !ev.Infer?
    ensures BudgetOf(DraftOf(env, w, ev).r.body).NoBudget?
  {
  }

  lemma ActNamesGlob(env: Env, w: WState, ev: Event)
    requires ev.Act? && ActDraft(env, w, ev).Sealing?
    ensures NamesGlob(ActDraft(env, w, ev).r.body)
  {
    hide ActDraft, NamesGlob, Prepared, LinesFor, WithBudget;
    var r := ActDraft(env, w, ev).r;
    var budget := SealedShape(env, w, ev, r);
    ActGuarded(env, w, ev);
    PlainNamesGlob(Prepared(w, ev).body);
    if Stamps(w, ev) {
      StampNamesGlob(env, w, ev.place.n, Prepared(w, ev).body, Prepared(w, ev).body);
    }
  }

  lemma InferNamesGlob(env: Env, w: WState, ev: Event)
    requires ev.Infer? && InferDraft(env, w, ev).Sealing?
    ensures NamesGlob(InferDraft(env, w, ev).r.body)
  {
    hide NamesGlob, LinesFor, Priced;
    var body := if ev.forwarded then Priced(env, w.pack, ev.digest, ev.uses, ev.usage)
                else Inference(ev.uses, None, NoInt, None, NoBudget);
    PlainNamesGlob(body);
    if ev.place.Dec? && Has(w.store, ev.place.n) && At(w.store, ev.place.n).body.TaskStart? {
      StampNamesGlob(env, w, ev.place.n, body, body);
    }
  }

  /** After every run, no sealed record carries an entry under the bare name. */
  lemma {:induction false} NeverBare(env: Env, evs: seq<Event>)
    ensures forall n | Has(After(env, evs).store, n) :: NamesGlob(At(After(env, evs).store, n).body)
  {
    hide Step, NamesGlob, DraftOf;
    if evs != [] {
      var w, ev := After(env, evs[..|evs| - 1]), evs[|evs| - 1];
      NeverBare(env, evs[..|evs| - 1]);
      RestartInvisible(env, evs[..|evs| - 1]);
      StepRemembers(env, w, ev);
      if SealedBy(env, w, ev).Some? {
        SealedIs(env, w, ev);
        DraftNamesGlob(env, w, ev);
        AtExtended(w.store, SealedBy(env, w, ev).value);
      }
    }
  }
}
