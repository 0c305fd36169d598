/** Runs of the ledger, event by event, whose chain the verifier refuses: one for each way a call can be out of scope
    that the ledger lets through. They hold for any glob matching, lower-casing and verifier options. */
module BrokenRuns {
  import opened Records
  import opened Checks
  import opened Store
  import opened Budgets
  import opened Writer
  import opened Runs
  import opened ApprovalRuns
  import opened Refinement
  import opened ActRefinement
  import opened ScopeLimits

  const SOMEONE := NonHuman("p")
  const SESSION := Session("s", "a", SOMEONE, KeyAuth)

  /** One budget with these limits, for every task; the `self` channel. */
  function PackOf(l: Limits): Pack { Pack("p", false, {}, [BudgetRule("b", map[], l, false)], []) }

  // ---- the opening: an agent, its session, a pack, a task, an inference that asks for two calls ----

  const REGISTERED: Record := BaseRecord(0, AgentRegister(KeyAuth, "k", true, true)).(pos := 1, agent := "a")
  const ADOPTED: Record := BaseRecord(0, RulepackChange("", "p")).(pos := 2, rulepack := "p")
  const STARTED: Record := BaseRecord(0, TaskStart(KeyAuth, "s", Blank, "", "", ByNone)).(pos := 3, rulepack := "p", agent := "a",
                                                                             principal := SOMEONE)
  const INFERRED: Record := BaseRecord(0, Inference([ToolUse(None, "h")], None, NoInt, None, NoBudget))
                              .(pos := 4, rulepack := "p", agent := "a", principal := SOMEONE, task := Dec(3))

  function Opening(l: Limits): seq<Event> {
    [Register(0, "a", KeyAuth, "k"), OpenSession(SESSION), AdoptPack(0, PackOf(l)),
     StartTask(0, SESSION, SOMEONE, false, Blank, ""),
     Infer(0, Some(SESSION), Dec(3), SOMEONE, [], [], RecordOnly, Allow, "", "", [ToolUse(None, "h")], true, None)]
  }

  function Opened(l: Limits): WState {
    WState([REGISTERED, ADOPTED, STARTED, INFERRED], 4, "p", Some(PackOf(l)),
           map["a" := Agent(1, "k", KeyAuth, false)], map[], {SESSION}, false)
  }

  /** The run can happen, its chain has passed so far, and it leads here. */
  ghost predicate Reaches(env: Env, evs: seq<Event>, w: WState) {
    ShapedRun(env, evs) && PackRun(env, evs) && After(env, evs) == w && Ready(env, w)
  }

  lemma RunExtended(env: Env, evs: seq<Event>, w: WState, ev: Event)
    requires ShapedRun(env, evs) && PackRun(env, evs) && After(env, evs) == w && Shaped(w, ev) && PackScope(env, ev)
    ensures ShapedRun(env, evs + [ev]) && PackRun(env, evs + [ev]) && After(env, evs + [ev]) == Step(env, w, ev)
  {
    hide Step, Shaped, PackScope;
    var longer := evs + [ev];
    assert longer[..|evs|] == evs;
    forall i | 0 <= i < |longer| ensures Shaped(After(env, longer[..i]), longer[i]) {
      assert i < |evs| ==> longer[..i] == evs[..i];
    }
  }

  lemma Extended(env: Env, evs: seq<Event>, w: WState, ev: Event)
    requires EnvOk(env) && Reaches(env, evs, w) && Shaped(w, ev) && PackScope(env, ev) && InScope(env, w, ev)
    ensures Reaches(env, evs + [ev], Step(env, w, ev))
  {
    hide Step, Shaped, PackScope, InScope, Ready, ShapedRun, PackRun, After, SealedBy;
    RunExtended(env, evs, w, ev);
    StepReady(env, w, ev);
  }

  lemma Nothing(env: Env)
    requires EnvOk(env)
    ensures Reaches(env, [], START)
  {
    RunReady(env, []);
  }

  function AtRegister(): WState {
    WState([REGISTERED], 1, "", None, map["a" := Agent(1, "k", KeyAuth, false)], map[], {}, false)
  }

  function AtAdopt(l: Limits): WState {
    WState([REGISTERED, ADOPTED], 2, "p", Some(PackOf(l)), map["a" := Agent(1, "k", KeyAuth, false)], map[], {SESSION}, false)
  }

  function AtStart(l: Limits): WState {
    AtAdopt(l).(store := [REGISTERED, ADOPTED, STARTED], head := 3)
  }

  lemma Registers(env: Env)
    ensures Step(env, START, Register(0, "a", KeyAuth, "k")) == AtRegister()
  {
  }

  lemma Opens(env: Env)
    ensures Step(env, AtRegister(), OpenSession(SESSION)) == AtRegister().(sessions := {SESSION})
  {
  }

  lemma Adopts(env: Env, l: Limits)
    ensures Step(env, AtRegister().(sessions := {SESSION}), AdoptPack(0, PackOf(l))) == AtAdopt(l)
  {
  }

  lemma StartsTask(env: Env, l: Limits)
    ensures Step(env, AtAdopt(l), StartTask(0, SESSION, SOMEONE, false, Blank, "")) == AtStart(l)
  {
  }

  /** The pack has one budget and it matches every task. */
  lemma LinesAre(env: Env, w: WState, l: Limits, t: nat, body: Body)
    requires w.pack == Some(PackOf(l)) && Has(w.store, t) && At(w.store, t).body.TaskStart?
    ensures LinesFor(env, w, t, body)
            == LinesOf(env, BudgetRule("b", map[], l, false), UsedIn(env, InTask(w.store, t)), body)
  {
    hide LinesOf, UsedIn, InTask;
    var budgets := PackOf(l).budgets;
    var (start, u) := (At(w.store, t), UsedIn(env, InTask(w.store, t)));
    assert budgets[1..] == [] && budgets[0] == BudgetRule("b", map[], l, false) && Matches(budgets[0], start);
    assert Evaluate(env, budgets[1..], start, u, body) == [];
    assert LinesOf(env, budgets[0], u, body) + [] == LinesOf(env, budgets[0], u, body);
  }

  lemma Infers(env: Env, l: Limits)
    requires l.spendMicro.None?
    ensures Step(env, AtStart(l), Opening(l)[4]) == Opened(l)
  {
    var (w, ev) := (AtStart(l), Opening(l)[4]);
    InferLines(env, l);
    hide LinesFor;
    assert Rules(ev.rules) + ev.early == [];
    assert !Ended(w.store, 3);
    assert InferDraft(env, w, ev) == Sealing(INFERRED.(pos := 0, rulepack := ""));
    hide InferDraft, Ended;
    assert SealedBy(env, w, ev) == Some(INFERRED);
  }

  lemma InferLines(env: Env, l: Limits)
    requires l.spendMicro.None?
    ensures LinesFor(env, AtStart(l), 3, Inference([ToolUse(None, "h")], None, NoInt, None, NoBudget)) == []
  {
    LinesAre(env, AtStart(l), l, 3, Inference([ToolUse(None, "h")], None, NoInt, None, NoBudget));
  }

  /** The opening can happen, and passes. */
  lemma OpeningReaches(env: Env, l: Limits)
    requires EnvOk(env) && SamePack(env, PackOf(l)) && l.spendMicro.None? && UniqueGlobs(l.toolCallsBy)
    ensures Reaches(env, Opening(l), Opened(l))
  {
    hide Step, Reaches, SamePack;
    var evs := Opening(l);
    Nothing(env);
    Registers(env);
    Extended(env, [], START, evs[0]);
    Opens(env);
    assert [] + [evs[0]] == [evs[0]];
    Extended(env, [evs[0]], AtRegister(), evs[1]);
    Adopts(env, l);
    Extended(env, [evs[0]] + [evs[1]], AtRegister().(sessions := {SESSION}), evs[2]);
    StartsTask(env, l);
    Extended(env, [evs[0]] + [evs[1]] + [evs[2]], AtAdopt(l), evs[3]);
    Infers(env, l);
    Extended(env, [evs[0]] + [evs[1]] + [evs[2]] + [evs[3]], AtStart(l), evs[4]);
    assert evs == [evs[0]] + [evs[1]] + [evs[2]] + [evs[3]] + [evs[4]];
  }

  lemma {:induction false} NoCalls(chain: seq<Record>, p: int)
    requires forall i | 0 <= i < |chain| :: !chain[i].body.ToolCall?
    ensures Calls(chain, p) == []
  {
    if chain != [] {
      NoCalls(chain[..|chain| - 1], p);
    }
  }

  /** The inference has a use for a call with its arguments while no call took it. */
  lemma UseFree(chain: seq<Record>, r: Record)
    requires |chain| >= 4 && chain[3] == INFERRED && forall i | 0 <= i < |chain| :: !chain[i].body.ToolCall?
    requires r.body.ToolCall? && r.body.toolUseId.None? && r.parent == Dec(4) && r.task == Dec(3) && r.inputHash == "h"
    ensures ParentRefusal(chain, r) == 0
  {
    NoCalls(chain, 4);
    var use := ToolUse(None, "h");
    assert [use][1..] == [];
    assert Fits([use], "h", None) == [use] && Untaken([use], {}) == [use];
    assert TakenIds([]) == {} && Unnamed([], "h") == 0;
  }

  // ---- a call claimed to have run already, during a halt ----

  /** A call under the inference. */
  function CallDraft(confirmation: Confirmation, after: bool): Record {
    BaseRecord(0, ToolCall(None, false, "q", confirmation, NoInt, after, false, true, NoBudget))
      .(parent := Dec(4), inputHash := "h", decision := Flag)
  }

  function ActOn(d: Record): Event { Act(0, SESSION, Dec(3), "p", d) }

  const NONE := Limits(None, [], None, None)

  function HaltedRun(): seq<Event> { Opening(NONE) + [Halt(0, true)] + [ActOn(CallDraft(NoConfirmation, true))] }

  function HaltedState(l: Limits): WState {
    Opened(l).(store := Opened(l).store + [BaseRecord(0, PolicyChange).(hits := [Rule(HALTED)], pos := 5, rulepack := "p")],
               head := 5, halted := true)
  }

  lemma Halts(env: Env, l: Limits)
    ensures Step(env, Opened(l), Halt(0, true)) == HaltedState(l)
  {
  }

  lemma HaltedSeals(env: Env)
    ensures SealedBy(env, HaltedState(NONE), ActOn(CallDraft(NoConfirmation, true))).Some?
  {
    hide ParentRefusal, Ended, ActDraft;
    HaltedStore();
    HaltedActs(env, HaltedState(NONE), CallDraft(NoConfirmation, true));
  }

  lemma HaltedStore()
    ensures var (w, d) := (HaltedState(NONE), CallDraft(NoConfirmation, true));
            !Ended(w.store, 3) && ParentRefusal(w.store, InTaskOf(w, HaltedDraft(d), 3)) == 0
  {
    hide ParentRefusal;
    var (w, d) := (HaltedState(NONE), CallDraft(NoConfirmation, true));
    assert w.store[4].body.PolicyChange?;
    UseFree(w.store, InTaskOf(w, HaltedDraft(d), 3));
  }

  lemma HaltedActs(env: Env, w: WState, d: Record)
    requires |w.store| >= 4 && w.store[2] == STARTED && !Ended(w.store, 3) && w.halted && w.rulepackHash == "p"
    requires SESSION in w.sessions && Active(w, "a") && d.body.ToolCall? && d.hits == [] && d.ts == 0
    requires d.body.approvalSeq.NoInt? && ParentRefusal(w.store, InTaskOf(w, HaltedDraft(d), 3)) == 0
    ensures ActDraft(env, w, ActOn(d)) == Sealing(InTaskOf(w, HaltedDraft(d), 3))
  {
    hide ParentRefusal, Ended, ApprovalRefusal;
    assert At(w.store, 3) == STARTED && TaskOfSession(w.store, 3, SESSION);
    assert HaltedDraft(d).(ts := 0) == HaltedDraft(d);
  }

  /** The chain of this run fails the verifier. */
  lemma HaltedRunFails(env: Env)
    requires EnvOk(env) && SamePack(env, PackOf(NONE))
    ensures ShapedRun(env, HaltedRun()) && PackRun(env, HaltedRun())
    ensures !Accepted(env, After(env, HaltedRun()).store)
  {
    hide Step, SamePack, Ready, SealedBy, Accepted;
    var ev := ActOn(CallDraft(NoConfirmation, true));
    OpeningReaches(env, NONE);
    Halts(env, NONE);
    Extended(env, Opening(NONE), Opened(NONE), Halt(0, true));
    HaltedSeals(env);
    HaltedAfterTheFact(env, HaltedState(NONE), ev);
    RunFails(env, Opening(NONE) + [Halt(0, true)], HaltedState(NONE), ev);
  }

  /** A run that passed so far fails with its next record. */
  lemma RunFails(env: Env, evs: seq<Event>, w: WState, ev: Event)
    requires Reaches(env, evs, w) && Shaped(w, ev) && PackScope(env, ev) && SealedBy(env, w, ev).Some?
    requires !Accepted(env, w.store + [SealedBy(env, w, ev).value])
    ensures Accepted(env, After(env, evs).store)
    ensures ShapedRun(env, evs + [ev]) && PackRun(env, evs + [ev]) && !Accepted(env, After(env, evs + [ev]).store)
  {
    hide Shaped, PackScope, SealedBy, Accepted, ShapedRun, PackRun, Step, After, MemoryIs, Held;
    RunExtended(env, evs, w, ev);
    SealsOnto(env, w, ev);
  }

  lemma SealsOnto(env: Env, w: WState, ev: Event)
    requires Ready(env, w) && SealedBy(env, w, ev).Some?
    ensures Step(env, w, ev).store == w.store + [SealedBy(env, w, ev).value]
  {
    hide Step, SealedBy, Held, Accepted;
    StepRemembers(env, w, ev);
  }

  // ---- what the endpoint does with a call of the session ----

  /** The opening has happened, and no halt, revocation or task_end since. */
  ghost predicate Working(w: WState, l: Limits) {
    && |w.store| >= 4 && w.store[2] == STARTED && !Ended(w.store, 3) && w.head == |w.store|
    && w.rulepackHash == "p" && w.pack == Some(PackOf(l)) && SESSION in w.sessions && Active(w, "a") && !w.halted
  }

  lemma ActStamps(env: Env, w: WState, l: Limits, d: Record)
    requires Working(w, l) && (d.body.ToolCall? || d.body.Egress?) && d.ts == 0
    requires (forall h <- d.hits :: h.Over?) && (d.body.ToolCall? ==> d.body.approvalSeq.NoInt?)
    requires ParentRefusal(w.store, InTaskOf(w, d, 3)) == 0
    ensures ActDraft(env, w, ActOn(d)) == BudgetStamp(env, w, 3, InTaskOf(w, d, 3))
  {
    hide ParentRefusal, BudgetStamp, ApprovalRefusal, Ended;
    assert At(w.store, 3) == STARTED && TaskOfSession(w.store, 3, SESSION);
    assert forall h <- d.hits :: MaySend(d, h);
    var r := InTaskOf(w, d, 3);
    assert d.(ts := 0) == d;
    assert !PackOf(l).entra;
  }

  /** The stamp seals the record when its hits are the excesses and something enforces them. */
  lemma StampSeals(env: Env, w: WState, l: Limits, d: Record, lines: seq<Line>)
    requires Working(w, l) && (d.body.ToolCall? || d.body.Egress?) && d.ts == 0
    requires (forall h <- d.hits :: h.Over?) && (d.body.ToolCall? ==> d.body.approvalSeq.NoInt?)
    requires d.parent.Dec? && d.parent.n <= |w.store| && ParentRefusal(w.store, InTaskOf(w, d, 3)) == 0
    requires lines == LinesFor(env, w, 3, d.body) && OverHits(d.hits) == Exceeded(lines)
    requires Exceeded(lines) != [] ==> d.body.ToolCall? && d.body.confirmation == Granted
    ensures SealedBy(env, w, ActOn(d))
            == Some(InTaskOf(w, d, 3).(pos := w.head + 1, rulepack := "p", body := WithBudget(d.body, BudgetObject(lines))))
  {
    hide ParentRefusal, Ended, LinesFor, Exceeded, ActDraft, BudgetStamp, SealedBy, WithBudget, BudgetObject;
    ActStamps(env, w, l, d);
    var r := InTaskOf(w, d, 3);
    StampedAs(env, w, r, lines);
    Numbered(env, w, ActOn(d), r.(body := WithBudget(d.body, BudgetObject(lines))), d.body);
  }

  lemma StampedAs(env: Env, w: WState, r: Record, lines: seq<Line>)
    requires Has(w.store, 3) && At(w.store, 3).body.TaskStart? && lines == LinesFor(env, w, 3, r.body)
    requires OverHits(r.hits) == Exceeded(lines)
    requires Exceeded(lines) != [] ==> r.body.ToolCall? && r.body.confirmation == Granted
    ensures BudgetStamp(env, w, 3, r) == Sealing(r.(body := WithBudget(r.body, BudgetObject(lines))))
  {
    hide LinesFor, Exceeded;
  }

  /** A call or egress of the task is numbered and appended as drafted. */
  lemma Numbered(env: Env, w: WState, ev: Event, r: Record, b: Body)
    requires DraftOf(env, w, ev) == Sealing(r) && ev.Act? && w.rulepackHash == "p"
    requires (b.ToolCall? || b.Egress?) && exists budget :: r.body == WithBudget(b, budget)
    requires r.task == Dec(3) && w.head >= 3 && r.parent.Dec? && r.parent.n <= w.head
    ensures SealedBy(env, w, ev) == Some(r.(pos := w.head + 1, rulepack := "p"))
  {
    hide DraftOf;
  }

  // ---- a call let through over budget on its own word ----

  const NO_CALLS := Limits(Some(0), [], None, None)

  function UncitedRun(): seq<Event> { Opening(NO_CALLS) + [ActOn(UncitedDraft())] }

  function UncitedDraft(): Record { CallDraft(Granted, false).(hits := [Over("b", ToolCalls)]) }

  lemma UncitedSeals(env: Env)
    ensures SealedBy(env, Opened(NO_CALLS), ActOn(UncitedDraft())).Some?
  {
    var (w, ev) := (Opened(NO_CALLS), ActOn(UncitedDraft()));
    var r := InTaskOf(w, ev.draft, 3);
    assert Working(w, NO_CALLS);
    UseFree(w.store, r);
    LinesAre(env, w, NO_CALLS, 3, r.body);
    TaskRows(w.store, 3);
    CallLines(env, w, r);
    assert ev.draft.hits[1..] == [] && OverHits(ev.draft.hits) == [Over("b", ToolCalls)];
    hide ParentRefusal, LinesFor, Exceeded, Working, SealedBy;
    StampSeals(env, w, NO_CALLS, ev.draft, LinesFor(env, w, 3, ev.draft.body));
  }

  /** No call has run in the task yet. */
  lemma TaskRows(chain: seq<Record>, t: int)
    requires chain == [REGISTERED, ADOPTED, STARTED, INFERRED] && t == 3
    ensures InTask(chain, t) == [INFERRED]
  {
    assert chain[..3] == [REGISTERED, ADOPTED, STARTED];
    assert chain[..3][..2] == [REGISTERED, ADOPTED] && [REGISTERED, ADOPTED][..1] == [REGISTERED];
    var two := [REGISTERED, ADOPTED];
    assert |two| == 2 && two[|two| - 1] == ADOPTED && two[..|two| - 1] == [REGISTERED];
    assert InTask([REGISTERED], t) == [];
    assert InTask(two, t) == [];
    assert InTask(chain[..3], t) == [];
  }

  lemma CallLines(env: Env, w: WState, r: Record)
    requires r.body.ToolCall? && Has(w.store, 3) && At(w.store, 3).body.TaskStart? && InTask(w.store, 3) == [INFERRED]
    requires LinesFor(env, w, 3, r.body)
             == LinesOf(env, BudgetRule("b", map[], NO_CALLS, false), UsedIn(env, InTask(w.store, 3)), r.body)
    ensures LinesFor(env, w, 3, r.body) == [Line("b", ToolCalls, 0, 0, false)]
    ensures Exceeded(LinesFor(env, w, 3, r.body)) == [Over("b", ToolCalls)]
  {
    assert [INFERRED][..0] == [];
    assert CallsOf([INFERRED]) == [];
    var line := Line("b", ToolCalls, 0, 0, false);
    assert [line] + [] == [line] && [line][1..] == [];
  }

  /** The chain of this run fails the verifier. */
  lemma UncitedRunFails(env: Env)
    requires EnvOk(env) && SamePack(env, PackOf(NO_CALLS))
    ensures ShapedRun(env, UncitedRun()) && PackRun(env, UncitedRun())
    ensures !Accepted(env, After(env, UncitedRun()).store)
  {
    hide Step, SamePack, Ready, SealedBy, Accepted;
    var ev := ActOn(UncitedDraft());
    OpeningReaches(env, NO_CALLS);
    UncitedSeals(env);
    UncitedOverBudget(env, Opened(NO_CALLS), ev, Over("b", ToolCalls));
    RunFails(env, Opening(NO_CALLS), Opened(NO_CALLS), ev);
  }

  // ---- an egress to a host that is not a string, and the next one ----

  const FIVE_HOSTS := Limits(None, [], Some(5), None)

  function EgressDraft(host: TextVal): Record { BaseRecord(0, Egress(host, NoBudget)).(parent := Dec(5)) }

  function EgressRun(): seq<Event> {
    Opening(FIVE_HOSTS) + [ActOn(CallDraft(NoConfirmation, false))] + [ActOn(EgressDraft(NotStr("x")))]
  }

  function HostRun(): seq<Event> { EgressRun() + [ActOn(EgressDraft(Str("y")))] }

  const CALLED: Record := CallDraft(NoConfirmation, false).(pos := 5, rulepack := "p", agent := "a",
                                                            principal := SOMEONE, task := Dec(3))
  const WENT: Record :=
    EgressDraft(NotStr("x")).(pos := 6, rulepack := "p", agent := "a", principal := SOMEONE, task := Dec(3),
                              body := Egress(NotStr("x"), Budget([Entry("b", EgressHosts, 5, 0)])))

  function Called(): WState {
    Opened(FIVE_HOSTS).(store := Opened(FIVE_HOSTS).store + [CALLED], head := 5)
  }

  function Went(): WState { Called().(store := Called().store + [WENT], head := 6) }

  lemma CallSealed(env: Env)
    ensures Step(env, Opened(FIVE_HOSTS), ActOn(CallDraft(NoConfirmation, false))) == Called()
    ensures InScope(env, Opened(FIVE_HOSTS), ActOn(CallDraft(NoConfirmation, false)))
  {
    var (w, ev) := (Opened(FIVE_HOSTS), ActOn(CallDraft(NoConfirmation, false)));
    hide ParentRefusal, LinesFor, Working, SealedBy;
    CallFacts(env);
    StampSeals(env, w, FIVE_HOSTS, ev.draft, []);
    assert SealedBy(env, w, ev) == Some(CALLED);
  }

  lemma CallFacts(env: Env)
    ensures var (w, d) := (Opened(FIVE_HOSTS), CallDraft(NoConfirmation, false));
            && Working(w, FIVE_HOSTS) && ParentRefusal(w.store, InTaskOf(w, d, 3)) == 0
            && LinesFor(env, w, 3, d.body) == [] && Exceeded([]) == []
  {
    hide ParentRefusal;
    var (w, d) := (Opened(FIVE_HOSTS), CallDraft(NoConfirmation, false));
    UseFree(w.store, InTaskOf(w, d, 3));
    LinesAre(env, w, FIVE_HOSTS, 3, d.body);
  }

  /** The rows of the task, after the inference. */
  lemma {:induction false} RowsAfter(more: seq<Record>)
    requires forall i | 0 <= i < |more| :: more[i].task == Dec(3)
    ensures InTask([REGISTERED, ADOPTED, STARTED, INFERRED] + more, 3) == [INFERRED] + more
    decreases |more|
  {
    var base := [REGISTERED, ADOPTED, STARTED, INFERRED];
    if more == [] {
      TaskRows(base, 3);
      assert base + more == base && [INFERRED] + more == [INFERRED];
    } else {
      var front, r := more[..|more| - 1], more[|more| - 1];
      RowsAfter(front);
      assert (base + more)[..|base + more| - 1] == base + front;
      assert [INFERRED] + more == [INFERRED] + front + [r];
    }
  }

  lemma HostsSoFar(env: Env)
    ensures HostsShown(env, [INFERRED, CALLED]) == {} && HostsOf(env, [INFERRED, CALLED]) == {}
    ensures HostsShown(env, [INFERRED, CALLED, WENT]) == {env.lower("x")}
    ensures HostsOf(env, [INFERRED, CALLED, WENT]) == {}
  {
    assert [INFERRED][..0] == [] && [INFERRED, CALLED][..1] == [INFERRED];
    assert [INFERRED, CALLED, WENT][..2] == [INFERRED, CALLED];
    assert HostsShown(env, [INFERRED]) == {} && HostsOf(env, [INFERRED]) == {};
  }

  lemma CalledRows(env: Env)
    ensures InTask(Called().store, 3) == [INFERRED, CALLED]
    ensures InTask(Went().store, 3) == [INFERRED, CALLED, WENT]
  {
    RowsAfter([CALLED]);
    RowsAfter([CALLED, WENT]);
    assert Called().store == [REGISTERED, ADOPTED, STARTED, INFERRED] + [CALLED];
    assert Went().store == [REGISTERED, ADOPTED, STARTED, INFERRED] + [CALLED, WENT];
  }

  lemma CalledFacts(env: Env)
    ensures var w := Called();
            && Working(w, FIVE_HOSTS) && w.store[4] == CALLED
            && HostsShown(env, InTask(w.store, 3)) == {} && HostsOf(env, InTask(w.store, 3)) == {}
  {
    hide InTask, HostsShown, HostsOf;
    CalledRows(env);
    HostsSoFar(env);
  }

  lemma WentFacts(env: Env)
    ensures var w := Went();
            && Working(w, FIVE_HOSTS) && |w.store| == 6 && w.store[2] == STARTED && w.store[4] == CALLED && w.head == 6
            && w.pack == Some(PackOf(FIVE_HOSTS)) && |HostsShown(env, InTask(w.store, 3))| == 1
            && HostsOf(env, InTask(w.store, 3)) == {}
  {
    hide InTask, HostsShown, HostsOf;
    CalledRows(env);
    HostsSoFar(env);
  }

  function EgressLine(used: nat): Line { Line("b", EgressHosts, 5, used, true) }

  lemma EgressLines(env: Env, w: WState, host: TextVal, used: nat)
    requires w.pack == Some(PackOf(FIVE_HOSTS)) && Has(w.store, 3) && At(w.store, 3).body.TaskStart?
    requires |HostsShown(env, InTask(w.store, 3))| == used < 5
    ensures LinesFor(env, w, 3, Egress(host, NoBudget)) == [EgressLine(used)]
    ensures Exceeded([EgressLine(used)]) == [] && Sealed([EgressLine(used)]) == [Entry("b", EgressHosts, 5, used)]
  {
    hide InTask, HostsShown, CallsOf, SpendOf, LinesFor;
    LinesAre(env, w, FIVE_HOSTS, 3, Egress(host, NoBudget));
    assert [EgressLine(used)][1..] == [];
  }

  lemma EgressParent(chain: seq<Record>, r: Record)
    requires |chain| >= 5 && chain[4] == CALLED && r.body.Egress? && r.parent == Dec(5) && r.task == Dec(3)
    ensures ParentRefusal(chain, r) == 0
  {
    assert At(chain, 5) == CALLED;
  }

  lemma Goes(env: Env)
    ensures Step(env, Called(), ActOn(EgressDraft(NotStr("x")))) == Went()
    ensures InScope(env, Called(), ActOn(EgressDraft(NotStr("x"))))
  {
    var (w, ev) := (Called(), ActOn(EgressDraft(NotStr("x"))));
    hide LinesFor, InTask, HostsShown, HostsOf, SealedBy, Exceeded, Sealed, ParentRefusal, Working;
    var r := InTaskOf(w, ev.draft, 3);
    CalledFacts(env);
    EgressLines(env, w, NotStr("x"), 0);
    EgressParent(w.store, r);
    StampSeals(env, w, FIVE_HOSTS, ev.draft, [EgressLine(0)]);
    assert SealedBy(env, w, ev) == Some(WENT);
  }

  lemma GoesAgain(env: Env)
    ensures SealedBy(env, Went(), ActOn(EgressDraft(Str("y")))).Some?
  {
    hide LinesFor, InTask, HostsShown, HostsOf, SealedBy, Exceeded, Sealed, ParentRefusal, Working, Went;
    var (w, ev) := (Went(), ActOn(EgressDraft(Str("y"))));
    WentFacts(env);
    var r := InTaskOf(w, ev.draft, 3);
    EgressLines(env, w, Str("y"), 1);
    EgressParent(w.store, r);
    StampSeals(env, w, FIVE_HOSTS, ev.draft, [EgressLine(1)]);
  }

  /** The first egress passes; after the second the chain fails the verifier. */
  lemma HostRunFails(env: Env)
    requires EnvOk(env) && SamePack(env, PackOf(FIVE_HOSTS))
    ensures ShapedRun(env, HostRun()) && PackRun(env, HostRun())
    ensures Accepted(env, After(env, EgressRun()).store)
    ensures !Accepted(env, After(env, HostRun()).store)
  {
    hide Step, SamePack, SealedBy, Accepted, EgressRun, Ready, Went, After, ShapedRun, PackRun;
    FirstEgress(env);
    GoesAgain(env);
    GoesWrong(env);
    RunFails(env, EgressRun(), Went(), ActOn(EgressDraft(Str("y"))));
  }

  lemma FirstEgress(env: Env)
    requires EnvOk(env) && SamePack(env, PackOf(FIVE_HOSTS))
    ensures Reaches(env, EgressRun(), Went())
  {
    hide Step, SamePack, Reaches, Opening, Opened, Went, Called, HostsFit, InScope;
    var (call, out) := (ActOn(CallDraft(NoConfirmation, false)), ActOn(EgressDraft(NotStr("x"))));
    OpeningReaches(env, FIVE_HOSTS);
    CallSealed(env);
    Extended(env, Opening(FIVE_HOSTS), Opened(FIVE_HOSTS), call);
    Goes(env);
    Extended(env, Opening(FIVE_HOSTS) + [call], Called(), out);
  }

  lemma GoesWrong(env: Env)
    requires EnvOk(env) && Ready(env, Went()) && SealedBy(env, Went(), ActOn(EgressDraft(Str("y")))).Some?
    ensures !Accepted(env, Went().store + [SealedBy(env, Went(), ActOn(EgressDraft(Str("y")))).value])
  {
    hide SealedBy, Accepted, Ready, HostsShown, HostsOf, InTask;
    CalledRows(env);
    HostsSoFar(env);
    assert At(Went().store, 3) == STARTED;
    NextEgressRefused(env, Went(), ActOn(EgressDraft(Str("y"))), BudgetRule("b", map[], FIVE_HOSTS, false), 3);
  }
}
