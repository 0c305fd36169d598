/** The verifier as it runs: one mutable `State`, changed check by check, and the walk of `verify_full` over the
    stored rows (verifier/sijill_verify.py). `Checks.Verify` and `Checks.Next` specify a record's checks as functions
    of the state it finds; here the earlier checks have already written to the state that the later ones read. */
module Verifier {
  import opened Records
  import opened Checks
  import opened Canonical
  import opened HashChain
  import opened ChainFacts

  // ---- what the later checks read is what the record found ----

  /** The same outcome cited, and the same counters: the budget checks cannot tell the two states apart. */
  ghost predicate SameForBudget(s: VState, s': VState, k: Task, k': Task, r: Record) {
    && Cited(s, r.body).Some? == Cited(s', r.body).Some?
    && (Cited(s, r.body).Some? ==> Cited(s, r.body).value.outcome == Cited(s', r.body).value.outcome)
    && k.calls == k'.calls && k.hosts == k'.hosts && k.spend == k'.spend
  }

  lemma BudgetCodeReads(env: Env, s: VState, s': VState, k: Task, k': Task, r: Record)
    requires SameForBudget(s, s', k, k', r)
    ensures BudgetCode(env, s, k, r) == BudgetCode(env, s', k', r)
  {
    EntriesCodeReads(env, s, s', k, k', r, Entries(r.body));
    assert forall e <- Entries(r.body) :: e.Entry? ==> Admitted(env, k, r.body, e) == Admitted(env, k', r.body, e);
    assert forall h <- r.hits :: Failed(env, k, r.body, h) == Failed(env, k', r.body, h);
  }

  lemma {:induction false} EntriesCodeReads(env: Env, s: VState, s': VState, k: Task, k': Task, r: Record,
                                            es: seq<Entry>)
    requires SameForBudget(s, s', k, k', r)
    ensures EntriesCode(env, s, k, r, es) == EntriesCode(env, s', k', r, es)
  {
    if es != [] {
      assert EntryCode(env, s, k, r, es[0]) == EntryCode(env, s', k', r, es[0]);
      EntriesCodeReads(env, s, s', k, k', r, es[1..]);
    }
  }

  /** The same registry and the same task, apart from its open approvals and budget counters. */
  ghost predicate SameForKind(s: VState, s': VState, r: Record) {
    && s.agents == s'.agents && s.seen == s'.seen
    && var (a, b) := (TaskOf(s, r), TaskOf(s', r));
       a.Some? == b.Some? && (a.Some? ==> a.value.ended == b.value.ended && a.value.counts == b.value.counts
                                          && a.value.lastSeq == b.value.lastSeq)
  }

  lemma StartCodeReads(env: Env, s: VState, s': VState, r: Record)
    requires r.body.TaskStart? && s.agents == s'.agents && s.seen == s'.seen
    ensures StartCode(env, s, r) == StartCode(env, s', r)
  {
  }

  lemma EndCodeReads(s: VState, s': VState, r: Record)
    requires r.body.TaskEnd? && SameForKind(s, s', r)
    ensures EndCode(s, r) == EndCode(s', r)
  {
    hide TaskOf;
  }

  lemma AgentCodeReads(s: VState, s': VState, r: Record)
    requires s.agents == s'.agents
    ensures r.body.AgentRegister? ==> RegisterCode(s, r) == RegisterCode(s', r)
    ensures r.body.AgentRotate? ==> RotateCode(s, r) == RotateCode(s', r)
    ensures r.body.AgentRevoke? ==> RevokeCode(s, r) == RevokeCode(s', r)
  {
  }

  lemma KindCodeReads(env: Env, s: VState, s': VState, r: Record)
    requires SameForKind(s, s', r)
    ensures KindCode(env, s, r) == KindCode(env, s', r)
  {
    hide StartCode, EndCode, RegisterCode, RotateCode, RevokeCode, TaskOf;
    AgentCodeReads(s, s', r);
    if r.body.TaskStart? {
      StartCodeReads(env, s, s', r);
    } else if r.body.TaskEnd? {
      EndCodeReads(s, s', r);
    }
  }

  // ---- one record ----

  /** The checks of `identity_checks`, in order. */
  ghost function IdentityCode(env: Env, s: VState, r: Record): Code {
    var d := TaskCode(s, r);
    if d != Ok then d else
    var e := ApprovalCode(env, s, r);
    if e != Ok then e else
    var task := TaskOf(s, r);
    var f := if task.Some? then BudgetCode(env, s, task.value, r) else Ok;
    if f != Ok then f else KindCode(env, s, r)
  }


  /** Every task_start seen opened a task, and every request was made in one. */
  ghost predicate Coherent(s: VState) {
    && (forall n <- s.seen :: s.seen[n].body.TaskStart? ==> n in s.tasks)
    && (forall aid <- s.requests :: s.requests[aid].task.Dec? && s.requests[aid].task.n in s.tasks)
  }

  /** The task_seq itself. */
  ghost function RefCode(s: VState, r: Record): Code {
    match r.task
    case Garbled => TaskMissing
    case Dec(n) =>
      if n >= r.pos then TaskNotEarlier
      else if n !in s.seen then TaskMissing
      else if !s.seen[n].body.TaskStart? then TaskType
      else if TaskForbidden(r.body) then TaskSeqNotAllowed
      else Ok
    case Blank =>
      if NeedsTask(r.body) then RecordOutsideTask
      else if r.body.TaskEnd? then TaskEndWithoutTaskStart
      else Ok
  }

  /** The record as one of its task. */
  ghost function MemberCode(s: VState, r: Record): Code {
    var task := TaskOf(s, r);
    if task.Some? && task.value.ended && !r.body.TaskEnd? then TaskAlreadyEnded
    else if r.parent.Dec? && r.parent.n in s.seen && !r.body.IntegrityDrift? && s.seen[r.parent.n].task != r.task
      then ParentInDifferentTask
    else if task.Some? && r.agent != task.value.agent then AgentIdDiffers
    else if task.Some? && r.principal != task.value.principal then PrincipalDiffers
    else Ok
  }

  lemma TaskCodeIs(s: VState, r: Record)
    ensures TaskCode(s, r) == if RefCode(s, r) != Ok then RefCode(s, r) else MemberCode(s, r)
  {
    hide NeedsTask, TaskForbidden;
  }

  /** A record past checks H and H2 is in an opened task or in none, and opens one only outside. */
  lemma TaskNamed(env: Env, s: VState, r: Record)
    requires Coherent(s) && TaskCode(s, r) == Ok
    ensures if r.task.Dec? then r.task.n in s.tasks && TaskOf(s, r) == Some(s.tasks[r.task.n]) && !r.body.TaskStart?
            else TaskOf(s, r).None? && !r.body.TaskEnd?
  {
  }

  /** What an approval record that passes may rely on to be folded into the state. */
  lemma ApprovalFacts(env: Env, s: VState, r: Record)
    requires Coherent(s) && ApprovalCode(env, s, r) == Ok
    ensures r.body.ApprovalRequest? ==> r.task.Dec?
    ensures r.body.ApprovalDecision? ==> r.body.aid in s.requests && r.task.Dec?
    ensures r.body.ToolCall? ==> !r.body.approvalSeq.NotInt?
    ensures r.body.ToolCall? && r.body.approvalSeq.Int? ==> r.body.approvalSeq.i in s.decisions
  {
    hide CiteFits, UncitedConfirm;
  }

  /** The budget checks see the state the approval stage left as the one the record found. */
  lemma BudgetAfterApproval(env: Env, s: VState, s': VState, r: Record)
    requires ApprovalCode(env, s, r) == Ok && s'.decisions == NextDecisions(s, r) && r.task.Dec? && r.task.n in s.tasks
    requires var k := s.tasks[r.task.n]; s'.tasks == s.tasks[r.task.n := k.(pending := NextPending(k.pending, r))]
    ensures BudgetCode(env, s, s.tasks[r.task.n], r) == BudgetCode(env, s', s'.tasks[r.task.n], r)
  {
    hide ApprovalCode, NextDecisions, BudgetCode, Cited;
    CitedAfterApproval(env, s, s', r);
    BudgetCodeReads(env, s, s', s.tasks[r.task.n], s'.tasks[r.task.n], r);
  }

  /** The last checks see the state the budget stage left as the one the record found. */
  lemma KindAfterBudget(env: Env, s: VState, s': VState, r: Record, k: Task)
    requires s'.agents == s.agents && s'.seen == s.seen
    requires if r.task.Dec? then
               && r.task.n in s.tasks && s'.tasks == s.tasks[r.task.n := k]
               && k.ended == s.tasks[r.task.n].ended && k.counts == s.tasks[r.task.n].counts
               && k.lastSeq == s.tasks[r.task.n].lastSeq
             else s'.tasks == s.tasks
    ensures KindCode(env, s, r) == KindCode(env, s', r)
  {
    hide KindCode;
    KindCodeReads(env, s, s', r);
  }

  lemma NextTasksIs(env: Env, s: VState, r: Record)
    ensures NextTasks(env, s, r) == if r.body.TaskStart? then s.tasks[r.pos := Opened(r)]
                                    else if r.task.Dec? && r.task.n in s.tasks
                                    then s.tasks[r.task.n := Advance(env, s.tasks[r.task.n], r)] else s.tasks
  {
    hide Advance, Opened;
  }

  lemma TaskSettled(env: Env, k: Task, r: Record)
    ensures var k' := k.(pending := NextPending(k.pending, r), calls := NextCalls(k.calls, r),
                         hosts := NextHosts(env, k.hosts, r), spend := NextSpend(k.spend, r));
            Advance(env, k, r) == Settled(k', r)
  {
    hide Tallied;
    TaskAdvanced(env, k, r);
  }

  /** A task after the last stage: ended, or counted. */
  ghost function Settled(k: Task, r: Record): Task {
    if r.body.TaskEnd? then k.(ended := true) else k.(counts := Tallied(k.counts, r), lastSeq := r.pos)
  }

  lemma CitedAfterApproval(env: Env, s: VState, s': VState, r: Record)
    requires ApprovalCode(env, s, r) == Ok && s'.decisions == NextDecisions(s, r)
    ensures Cited(s, r.body).Some? == Cited(s', r.body).Some?
    ensures Cited(s, r.body).Some? ==> Cited(s, r.body).value.outcome == Cited(s', r.body).value.outcome
  {
    hide ApprovalCode;
  }

  /** The checks of `identity_checks` do not read what the checks before them write. */
  lemma IdentityReads(env: Env, s: VState, s': VState, r: Record)
    requires s' == s.(resultParents := s'.resultParents, rulepack := s'.rulepack, rulepackSeen := s'.rulepackSeen)
    ensures IdentityCode(env, s, r) == IdentityCode(env, s', r)
  {
    hide BudgetCode, KindCode, TaskCode, ApprovalCode;
    TaskReads(env, s, s', r);
    ApprovalReads(env, s, s', r);
    if TaskOf(s, r).Some? {
      BudgetCodeReads(env, s, s', TaskOf(s, r).value, TaskOf(s, r).value, r);
    }
    KindCodeReads(env, s, s', r);
  }

  lemma TaskReads(env: Env, s: VState, s': VState, r: Record)
    requires s.seen == s'.seen && s.tasks == s'.tasks
    ensures TaskCode(s, r) == TaskCode(s', r) && NextTasks(env, s, r) == NextTasks(env, s', r)
  {
    hide NextTasks, TaskCode;
    NextTasksReads(env, s, s', r);
    TaskCodeReads(s, s', r);
  }

  lemma TaskCodeReads(s: VState, s': VState, r: Record)
    requires s.seen == s'.seen && s.tasks == s'.tasks
    ensures TaskCode(s, r) == TaskCode(s', r)
  {
    hide NeedsTask, TaskForbidden;
    if r.task.Dec? {
      assert TaskOf(s, r) == TaskOf(s', r);
      hide TaskOf;
    } else {
      assert TaskOf(s, r).None? && TaskOf(s', r).None?;
      hide TaskOf;
    }
  }

  lemma NextTasksReads(env: Env, s: VState, s': VState, r: Record)
    requires s.tasks == s'.tasks
    ensures NextTasks(env, s, r) == NextTasks(env, s', r)
  {
    hide Advance, Opened;
  }

  lemma ApprovalReads(env: Env, s: VState, s': VState, r: Record)
    requires s' == s.(resultParents := s'.resultParents, rulepack := s'.rulepack, rulepackSeen := s'.rulepackSeen)
    ensures ApprovalCode(env, s, r) == ApprovalCode(env, s', r)
    ensures NextRequests(s, r) == NextRequests(s', r) && NextDecided(s, r) == NextDecided(s', r)
            && NextDecisions(s, r) == NextDecisions(s', r)
  {
    hide CiteFits, UncitedConfirm, DecisionCode, RequestFits, RequestOf;
    assert TaskOf(s, r) == TaskOf(s', r);
    if r.body.ApprovalRequest? {
      assert RequestFits(env, s, r) == RequestFits(env, s', r) by { RequestReads(env, s, s', r); }
    } else if r.body.ApprovalDecision? {
      assert DecisionCode(s, r) == DecisionCode(s', r) by { DecisionReads(s, s', r); }
    } else if r.body.ToolCall? {
      assert UncitedConfirm(env, s, r) == UncitedConfirm(env, s', r) by { UncitedReads(env, s, s', r); }
    }
  }

  lemma RequestReads(env: Env, s: VState, s': VState, r: Record)
    requires r.body.ApprovalRequest? && s.seen == s'.seen && s.tasks == s'.tasks && s.requests == s'.requests
    ensures RequestFits(env, s, r) == RequestFits(env, s', r)
  {
  }

  lemma DecisionReads(s: VState, s': VState, r: Record)
    requires r.body.ApprovalDecision? && s.requests == s'.requests && s.decided == s'.decided
    ensures DecisionCode(s, r) == DecisionCode(s', r)
  {
  }

  lemma UncitedReads(env: Env, s: VState, s': VState, r: Record)
    requires r.body.ToolCall? && s.agents == s'.agents
    ensures UncitedConfirm(env, s, r) == UncitedConfirm(env, s', r)
  {
  }

  /** A task taken through the approval, budget, kind and count stages is the advanced task. */
  lemma TaskAdvanced(env: Env, k: Task, r: Record)
    ensures var k' := k.(pending := NextPending(k.pending, r), calls := NextCalls(k.calls, r),
                         hosts := NextHosts(env, k.hosts, r), spend := NextSpend(k.spend, r));
            Advance(env, k, r) == if r.body.TaskEnd? then k'.(ended := true)
                                  else k'.(counts := Tallied(k.counts, r), lastSeq := r.pos)
  {
    hide Tallied;
  }

  lemma SameCoherence(s: VState, s': VState)
    requires Coherent(s) && s'.seen == s.seen && s'.tasks == s.tasks && s'.requests == s.requests
    ensures Coherent(s')
  {
  }

  lemma NextCoherent(env: Env, s: VState, r: Record)
    requires Coherent(s) && Verify(env, s, r) == Ok
    ensures Coherent(Next(env, s, r))
  {
    hide Advance;
  }

  class State {
    const env: Env
    var seen: map<int, Seen>
    var resultParents: set<int>
    var rulepack: string
    var rulepackSeen: bool
    var agents: map<string, Agent>
    var tasks: map<int, Task>
    var requests: map<string, Request>
    var decided: map<string, int>
    var decisions: map<int, Decided>

    function View(): VState
      reads this
    {
      VState(seen, resultParents, rulepack, rulepackSeen, agents, tasks, requests, decided, decisions)
    }

    constructor (env: Env)
      ensures this.env == env && View() == Init()
    {
      this.env := env;
      seen, resultParents, rulepack, rulepackSeen, agents := map[], {}, "", false, map[];
      tasks, requests, decided, decisions := map[], map[], map[], map[];
    }

    /** `check_record` on a record that passed the four chain checks: the first failing check, or the next state. */
    method CheckRecord(r: Record) returns (c: Code)
      requires Coherent(View())
      modifies this
      ensures c == Verify(env, old(View()), r)
      ensures c == Ok ==> View() == Next(env, old(View()), r) && Coherent(View())
    {
      hide ParentCode, RulepackCode, CostCode, TaskCode, ApprovalCode, BudgetCode, KindCode, NextTasks, NextRequests,
           NextDecided, NextDecisions, NextAgents, Coherent;
      ghost var s := View();
      c := CheckLinks(r);
      if c != Ok {
        return;
      }
      c := CheckCost(r);
      if c != Ok {
        return;
      }
      IdentityReads(env, s, View(), r);
      TaskReads(env, s, View(), r);
      ApprovalReads(env, s, View(), r);
      SameCoherence(s, View());
      c := CheckIdentity(r);
      if c != Ok {
        return;
      }
      seen := seen[r.pos := SeenOf(r)];
      NextCoherent(env, s, r);
    }

    /** Checks 5-7 and A-E: the causal parent, which a tool_result takes, and the rule pack, which is adopted. */
    method CheckLinks(r: Record) returns (c: Code)
      modifies this`resultParents, this`rulepack, this`rulepackSeen
      ensures c == if ParentCode(env, old(View()), r) != Ok then ParentCode(env, old(View()), r)
                   else RulepackCode(old(View()), r)
      ensures c == Ok ==> resultParents == Next(env, old(View()), r).resultParents
      ensures c == Ok ==> rulepack == r.rulepack && rulepackSeen == (old(rulepackSeen) || r.rulepack != "")
    {
      c := CheckParent(r);
      if c != Ok {
        return;
      }
      if r.body.ToolResult? && r.parent.Dec? {
        resultParents := resultParents + {r.parent.n};
      }
      if r.rulepack == "" && rulepackSeen {
        return SchemaDowngrade;
      }
      if r.body.RulepackChange? {
        if r.body.before != rulepack || r.body.after != r.rulepack {
          return RulepackChangeMismatch;
        }
      } else if r.rulepack != rulepack {
        return RulepackUnsealed;
      }
      rulepack, rulepackSeen := r.rulepack, rulepackSeen || r.rulepack != "";
    }

    /** Checks 5-7, A-C: the parent the record names, or that it needs none. */
    method CheckParent(r: Record) returns (c: Code)
      ensures c == ParentCode(env, View(), r)
    {
      c := Ok;
      if r.body.Unknown? {
        return UnknownType;
      }
      match r.parent
      case Garbled => return ParentMalformed;
      case Blank =>
        if r.body.IntegrityDrift? {
          return ParentMissing;
        }
        if r.body.ToolCall? && (!r.body.uncorrelated || !env.allowOrphans) {
          return OrphanToolCall;
        }
      case Dec(n) =>
        if n >= r.pos {
          return ParentNotEarlier;
        }
        if n !in seen {
          return ParentMissing;
        }
        c := JudgeParent(r, seen[n]);
    }

    /** A, A2, B, B3, C of a parent that is there. */
    method JudgeParent(r: Record, parent: Seen) returns (c: Code)
      requires r.parent.Dec?
      ensures c == if !RightParent(r.body, parent.body) then ParentType
                   else if r.body.ToolCall? && !Requested(parent.body, r) then ArgsNotRequested
                   else if r.body.ToolResult? && r.parent.n in resultParents then DuplicateToolResult
                   else if r.body.IntegrityDrift? && r.inputHash != parent.inputHash then DriftBaselineMismatch
                   else Ok
    {
      if (r.body.ToolCall? && !parent.body.Inference?) || (r.body.ToolResult? && !parent.body.ToolCall?)
         || (r.body.Egress? && !parent.body.ToolCall?) || (r.body.IntegrityDrift? && !parent.body.IntegrityBaseline?) {
        return ParentType;
      }
      if r.body.ToolCall? {
        var asked := AskedFor(parent.body.uses, r);
        if !asked {
          return ArgsNotRequested;
        }
      }
      if r.body.ToolResult? && r.parent.n in resultParents {
        return DuplicateToolResult;
      }
      if r.body.IntegrityDrift? && r.inputHash != parent.inputHash {
        return DriftBaselineMismatch;
      }
      return Ok;
    }

    /** Some tool_use asks for these arguments, under the call's own id when it names one. */
    method AskedFor(uses: seq<ToolUse>, r: Record) returns (asked: bool)
      requires r.body.ToolCall?
      ensures asked <==> exists u <- uses :: u.argsHash == r.inputHash && (r.body.toolUseId.None? || u.id == r.body.toolUseId)
    {
      var i := 0;
      while i < |uses|
        invariant 0 <= i <= |uses|
        invariant forall j | 0 <= j < i ::
                    !(uses[j].argsHash == r.inputHash && (r.body.toolUseId.None? || uses[j].id == r.body.toolUseId))
      {
        if uses[i].argsHash == r.inputHash && (r.body.toolUseId.None? || uses[i].id == r.body.toolUseId) {
          return true;
        }
        i := i + 1;
      }
      return false;
    }

    /** W2's cost, in `pack_checks`. */
    method CheckCost(r: Record) returns (c: Code)
      ensures c == CostCode(env, r)
    {
      if !r.body.Inference? {
        return Ok;
      }
      var b := r.body;
      if b.cost.NotInt? || (b.cost.Int? && b.cost.i < 0) {
        return CostMismatch;
      }
      if env.pack.None? || r.rulepack != env.pack.value.hash {
        return Ok;
      }
      var price := PriceOf(env, env.pack.value.pricing, r.digest);
      var carried := b.priceRule.Some? || !b.cost.NoInt?;
      var fits: bool;
      if price.None? {
        fits := !carried;
      } else if r.decision == Block && !carried {
        fits := true;
      } else {
        var want := CostOf(price.value, b);
        fits := b.priceRule == Some(price.value.id) && want.Some? && b.cost == Int(want.value);
      }
      return if fits then Ok else CostMismatch;
    }

    /** H, H2, H3 and I: the task the record is in, or that it needs none. */
    method CheckTask(r: Record) returns (c: Code)
      requires Coherent(View())
      ensures c == TaskCode(View(), r)
    {
      hide TaskCode, RefCode, MemberCode;
      TaskCodeIs(View(), r);
      c := CheckRef(r);
      if c == Ok {
        c := CheckMember(r);
      }
    }

    /** H, H2: the task_seq names an earlier task_start, or the record may do without. */
    method CheckRef(r: Record) returns (c: Code)
      ensures c == RefCode(View(), r)
    {
      match r.task
      case Garbled => c := TaskMissing;
      case Dec(n) =>
        if n >= r.pos {
          c := TaskNotEarlier;
        } else if n !in seen {
          c := TaskMissing;
        } else if !seen[n].body.TaskStart? {
          c := TaskType;
        } else {
          c := if TaskForbidden(r.body) then TaskSeqNotAllowed else Ok;
        }
      case Blank =>
        if r.body.ToolCall? || r.body.ToolResult? || r.body.Egress? {
          c := RecordOutsideTask;
        } else {
          c := if r.body.TaskEnd? then TaskEndWithoutTaskStart else Ok;
        }
    }

    /** H3, I: the task is open, the parent lies in it, and the record carries its identity. */
    method CheckMember(r: Record) returns (c: Code)
      requires Coherent(View()) && RefCode(View(), r) == Ok
      ensures c == MemberCode(View(), r)
    {
      var inTask := r.task.Dec?;
      if inTask && tasks[r.task.n].ended && !r.body.TaskEnd? {
        return TaskAlreadyEnded;
      }
      if r.parent.Dec? && r.parent.n in seen && !r.body.IntegrityDrift? && seen[r.parent.n].task != r.task {
        return ParentInDifferentTask;
      }
      if inTask && r.agent != tasks[r.task.n].agent {
        return AgentIdDiffers;
      }
      if inTask && r.principal != tasks[r.task.n].principal {
        return PrincipalDiffers;
      }
      return Ok;
    }

    /** Checks H-N, V-V4 and W-W2, in `identity_checks`; then the task's own counts. */
    method CheckIdentity(r: Record) returns (c: Code)
      requires Coherent(View())
      modifies this`agents, this`tasks, this`requests, this`decided, this`decisions
      ensures c == IdentityCode(env, old(View()), r)
      ensures c == Ok ==> agents == NextAgents(old(agents), r) && tasks == NextTasks(env, old(View()), r)
                          && requests == NextRequests(old(View()), r) && decided == NextDecided(old(View()), r)
                          && decisions == NextDecisions(old(View()), r)
    {
      hide BudgetCode, KindCode, ApprovalCode, TaskCode, Tallied, NextRequests, NextDecided, NextDecisions, NextPending,
           NextCalls, NextHosts, NextSpend, NextAgents, Advance, Opened, Coherent, TaskOf, NextTasks, Settled;
      ghost var s := View();
      c := CheckTask(r);
      if c != Ok {
        return;
      }
      TaskNamed(env, s, r);
      c := CheckApproval(r);
      if c != Ok {
        return;
      }
      var inTask := r.task.Dec?;
      if inTask {
        BudgetAfterApproval(env, s, View(), r);
        c := CheckBudget(r);
        if c != Ok {
          return;
        }
      }
      KindAfterBudget(env, s, View(), r, if inTask then tasks[r.task.n] else Opened(r));
      c := Enact(r);
      if c == Ok && inTask {
        TaskSettled(env, s.tasks[r.task.n], r);
        assert tasks == s.tasks[r.task.n := Advance(env, s.tasks[r.task.n], r)];
      }
      NextTasksIs(env, s, r);
    }

    /** The record's own effect on the registry and the tasks, then the counts of its task. */
    method Enact(r: Record) returns (c: Code)
      requires r.task.Dec? ==> r.task.n in tasks && !r.body.TaskStart?
      modifies this`agents, this`tasks
      ensures c == KindCode(env, old(View()), r)
      ensures c == Ok ==> agents == NextAgents(old(agents), r)
      ensures c == Ok && r.body.TaskStart? ==> tasks == old(tasks)[r.pos := Opened(r)]
      ensures c == Ok && r.task.Dec? ==> tasks == old(tasks)[r.task.n := Settled(old(tasks)[r.task.n], r)]
      ensures c == Ok && !r.task.Dec? && !r.body.TaskStart? ==> tasks == old(tasks)
    {
      hide KindCode, NextAgents, Tallied;
      c := CheckKind(r);
      if c == Ok && r.task.Dec? && !r.body.TaskEnd? {
        var k := tasks[r.task.n];
        tasks := tasks[r.task.n := k.(counts := Tallied(k.counts, r), lastSeq := r.pos)];
      }
    }

    /** V-V4: requests are opened, decided and cited; a task keeps the ids still open in it. */
    method CheckApproval(r: Record) returns (c: Code)
      requires Coherent(View()) && (r.task.Dec? ==> r.task.n in tasks)
      modifies this`tasks, this`requests, this`decided, this`decisions
      ensures c == ApprovalCode(env, old(View()), r)
      ensures c == Ok ==> requests == NextRequests(old(View()), r) && decided == NextDecided(old(View()), r)
                          && decisions == NextDecisions(old(View()), r)
      ensures c == Ok && !r.task.Dec? ==> tasks == old(tasks)
      ensures c == Ok && r.task.Dec? ==> var k := old(tasks)[r.task.n];
              tasks == old(tasks)[r.task.n := k.(pending := NextPending(k.pending, r))]
    {
      c := JudgeApproval(r);
      if c != Ok {
        return;
      }
      ApprovalFacts(env, View(), r);
      hide ApprovalCode, Coherent, NextRequests, NextDecided, NextDecisions, NextPending;
      FoldApproval(r);
    }

    method FoldApproval(r: Record)
      requires r.task.Dec? ==> r.task.n in tasks
      requires r.body.ApprovalRequest? ==> r.task.Dec?
      requires r.body.ApprovalDecision? ==> r.body.aid in requests && r.task.Dec?
      requires r.body.ToolCall? ==> !r.body.approvalSeq.NotInt?
      requires r.body.ToolCall? && r.body.approvalSeq.Int? ==> r.body.approvalSeq.i in decisions
      modifies this`tasks, this`requests, this`decided, this`decisions
      ensures requests == NextRequests(old(View()), r) && decided == NextDecided(old(View()), r)
      ensures decisions == NextDecisions(old(View()), r)
      ensures !r.task.Dec? ==> tasks == old(tasks)
      ensures r.task.Dec? ==> var k := old(tasks)[r.task.n];
              tasks == old(tasks)[r.task.n := k.(pending := NextPending(k.pending, r))]
    {
      match r.body
      case ApprovalRequest(aid, _, _, _, _, _) =>
        requests := requests[aid := RequestOf(r)];
        tasks := tasks[r.task.n := tasks[r.task.n].(pending := tasks[r.task.n].pending + {aid})];
      case ApprovalDecision(aid, outcome, _, _) =>
        decided := decided[aid := r.pos];
        decisions := decisions[r.pos := Decided(requests[aid], outcome, false)];
        tasks := tasks[r.task.n := tasks[r.task.n].(pending := tasks[r.task.n].pending - {aid})];
      case ToolCall(_, _, _, _, approvalSeq, _, _, _, _) =>
        if approvalSeq.Int? {
          decisions := decisions[approvalSeq.i := decisions[approvalSeq.i].(used := true)];
        }
      case _ =>
    }

    /** The phases of `approval_checks`. */
    method JudgeApproval(r: Record) returns (c: Code)
      requires r.task.Dec? ==> r.task.n in tasks
      ensures c == ApprovalCode(env, View(), r)
    {
      hide DecisionCode, CiteFits, UncitedConfirm, Cited, RequestFits;
      c := Ok;
      if r.body.ApprovalRequest? {
        c := JudgeRequest(r);
      } else if r.body.ApprovalDecision? {
        c := JudgeDecision(r);
      } else if r.body.ToolCall? {
        c := JudgeCall(r);
      } else if r.body.TaskEnd? && r.task.Dec? && tasks[r.task.n].pending != {} {
        c := ApprovalUndecided;
      }
    }

    /** V: a request is made in a task, once per id, from an inference or as an orphan the verifier allows. */
    method JudgeRequest(r: Record) returns (c: Code)
      requires r.body.ApprovalRequest? && (r.task.Dec? ==> r.task.n in tasks)
      ensures c == if RequestFits(env, View(), r) then Ok else ApprovalRequestMalformed
    {
      var fits := r.task.Dec? && r.body.aid !in requests && r.mode == RecordOnly && r.decision == Flag
                  && r.body.timeoutMs > 0;
      if r.parent.Dec? && r.parent.n in seen {
        fits := fits && seen[r.parent.n].body.Inference?;
      } else {
        fits := fits && r.body.uncorrelated && env.allowOrphans;
      }
      return if fits then Ok else ApprovalRequestMalformed;
    }

    /** V1, in `approval_decision`: the decision answers its own request, once, in time, by someone who may. */
    method JudgeDecision(r: Record) returns (c: Code)
      requires r.body.ApprovalDecision?
      ensures c == DecisionCode(View(), r)
    {
      var b := r.body;
      if b.aid !in requests || b.aid in decided {
        return ApprovalDecisionInvalid;
      }
      var req := requests[b.aid];
      var granted := b.outcome == Grant;
      if r.parent != Dec(req.pos) || r.task != req.task || r.inputHash != req.inputHash
         || r.mode != (if granted then RecordOnly else Enforce) || r.decision != (if granted then Allow else Block) {
        return ApprovalDecisionInvalid;
      }
      if granted || b.outcome == Refusal {
        c := JudgeApprover(r, req);
      } else if b.outcome != Timeout || r.ts < req.deadline || b.approver.Some? {
        c := ApprovalDecisionInvalid;
      } else {
        c := Ok;
      }
    }

    /** A person answers in time, assured enough, and under separation of duties not for himself. */
    method JudgeApprover(r: Record, req: Request) returns (c: Code)
      requires r.body.ApprovalDecision?
      ensures var b := r.body;
              c == if r.ts >= req.deadline then ApprovalAfterDeadline
                   else if !(b.approver.Some? && b.approver.value.Human? && b.assurance.Some?
                             && Rank(b.assurance.value) >= Rank(req.minAssurance)) then ApprovalDecisionInvalid
                   else if req.sod && b.approver.value == r.principal then ApproverIsPrincipal else Ok
    {
      var b := r.body;
      if r.ts >= req.deadline {
        return ApprovalAfterDeadline;
      }
      if b.approver.None? || !b.approver.value.Human? || b.assurance.None?
         || Rank(b.assurance.value) < Rank(req.minAssurance) {
        return ApprovalDecisionInvalid;
      }
      return if req.sod && b.approver.value == r.principal then ApproverIsPrincipal else Ok;
    }

    /** V2, V3: the cited decision is on this very call and unused; uncited, no confirmation was owed. */
    method JudgeCall(r: Record) returns (c: Code)
      requires r.body.ToolCall?
      ensures c == ApprovalCode(env, View(), r)
    {
      hide UncitedConfirm, CiteFits;
      if r.body.approvalSeq.NoInt? {
        var owed := OwesCitation(r);
        return if owed then ApprovalMismatch else Ok;
      }
      c := JudgeCited(r);
    }

    /** A confirm hit, or a claimed confirmation, let through without a citation under an entra channel. */
    method OwesCitation(r: Record) returns (owed: bool)
      requires r.body.ToolCall?
      ensures owed <==> UncitedConfirm(env, View(), r)
    {
      hide ConfirmHit;
      var pack := PackFor(env, r);
      var relayed := r.body.afterTheFact && r.body.byRelay && r.agent in agents && agents[r.agent].auth == RelayAuth;
      return pack.Some? && pack.value.entra && r.decision != Block && !relayed
             && (r.body.confirmation == Granted || exists h <- r.hits :: ConfirmHit(pack.value, h));
    }

    method JudgeCited(r: Record) returns (c: Code)
      requires r.body.ToolCall? && !r.body.approvalSeq.NoInt?
      ensures c == if Cited(View(), r.body).None? || !CiteFits(env, r, Cited(View(), r.body).value) then ApprovalMismatch
                   else if Cited(View(), r.body).value.used then ApprovalReused else Ok
    {
      hide Covers;
      var a := r.body.approvalSeq;
      if !a.Int? || a.i !in decisions {
        return ApprovalMismatch;
      }
      var d := decisions[a.i];
      var granted := d.outcome == Grant;
      if d.req.task != r.task || d.req.qualified != r.body.qualified || d.req.inputHash != r.inputHash
         || d.req.parent != r.parent || (r.body.confirmation == Granted) != granted
         || r.decision != (if granted then Flag else Block) || r.mode != (if granted then RecordOnly else Enforce) {
        return ApprovalMismatch;
      }
      var covers := CoveredBy(r, d.req);
      if granted && !covers {
        return ApprovalMismatch;
      }
      return if d.used then ApprovalReused else Ok;
    }

    /** The loop over the hits: a grant covers the excesses and the confirm hits it was asked about. */
    method CoveredBy(r: Record, req: Request) returns (covers: bool)
      ensures covers <==> Covers(env, r, req)
    {
      hide ConfirmHit;
      var pack := PackFor(env, r);
      var i := 0;
      while i < |r.hits|
        invariant 0 <= i <= |r.hits|
        invariant forall j | 0 <= j < i ::
                    r.hits[j].Over? || (pack.Some? && ConfirmHit(pack.value, r.hits[j])) ==> r.hits[j] in req.hits
      {
        if (r.hits[i].Over? || (pack.Some? && ConfirmHit(pack.value, r.hits[i]))) && r.hits[i] !in req.hits {
          return false;
        }
        i := i + 1;
      }
      return true;
    }

    /** X, X1, W-W2: every entry's count is the task's own, every excess is a hit that something enforced, and no hit
        names an excess that is not there; then the record's own contribution to the counts. */
    method CheckBudget(r: Record) returns (c: Code)
      requires r.task.Dec? && r.task.n in tasks
      modifies this`tasks
      ensures c == BudgetCode(env, old(View()), old(tasks)[r.task.n], r)
      ensures c == Ok ==> var k := old(tasks)[r.task.n];
              tasks == old(tasks)[r.task.n := k.(calls := NextCalls(k.calls, r), hosts := NextHosts(env, k.hosts, r),
                                                 spend := NextSpend(k.spend, r))]
    {
      hide BudgetCode;
      var k := tasks[r.task.n];
      c := JudgeBudget(k, r);
      if c != Ok {
        return;
      }
      if r.body.ToolCall? && r.decision != Block {
        k := k.(calls := k.calls + [r.body.qualified]);
      } else if r.body.Egress? && r.decision != Block && r.body.host.Str? {
        k := k.(hosts := k.hosts + {env.lower(r.body.host.s)});
      } else if r.body.Inference? && r.body.cost.Int? {
        k := k.(spend := k.spend + r.body.cost.i);
      }
      tasks := tasks[r.task.n := k];
    }

    /** The checks of `budget_checks`, before the record counts itself. */
    method JudgeBudget(k: Task, r: Record) returns (c: Code)
      ensures c == BudgetCode(env, View(), k, r)
    {
      hide EntriesCode, Failed, Entries;
      if r.body.ToolCall? && !r.body.httpShaped {
        return HttpToolCallMalformed;
      }
      if r.body.ToolCall? && r.body.afterTheFact && (r.mode != RecordOnly || r.decision == Block) {
        return AfterTheFactEnforced;
      }
      if BudgetOf(r.body).BadBudget? {
        return BudgetCounterMismatch;
      }
      var failed: set<Hit>;
      c, failed := CheckEntries(k, r);
      if c != Ok {
        return;
      }
      if !r.body.ApprovalRequest? && !r.body.ApprovalDecision? && exists h <- r.hits :: h.Over? && h !in failed {
        return BudgetSpuriousHit;
      }
      return Ok;
    }

    /** The loop over the entries of `budget`: the first failing check, and the hits of the excesses. */
    method CheckEntries(k: Task, r: Record) returns (c: Code, failed: set<Hit>)
      ensures c == EntriesCode(env, View(), k, r, Entries(r.body))
      ensures c == Ok ==> forall h :: h in failed <==> Failed(env, k, r.body, h)
    {
      hide EntryCode, Admitted;
      var es, i := Entries(r.body), 0;
      failed := {};
      while i < |es|
        invariant 0 <= i <= |es|
        invariant EntriesCode(env, View(), k, r, es) == EntriesCode(env, View(), k, r, es[i..])
        invariant forall h :: h in failed <==>
                    exists j :: 0 <= j < i && es[j].Entry? && h == Over(es[j].bid, es[j].metric)
                                && !Admitted(env, k, r.body, es[j])
      {
        assert es[i..][0] == es[i] && es[i..][1..] == es[i + 1..];
        c := CheckEntry(k, r, es[i]);
        if c != Ok {
          return;
        }
        if es[i].Entry? && !Admitted(env, k, r.body, es[i]) {
          failed := failed + {Over(es[i].bid, es[i].metric)};
        }
        i := i + 1;
      }
      return Ok, failed;
    }

    /** One entry: its count is the task's own (W), an excess is a hit that a block or a grant enforces (W1), and the
        limit is the pack's (W2). */
    method CheckEntry(k: Task, r: Record, e: Entry) returns (c: Code)
      ensures c == EntryCode(env, View(), k, r, e)
    {
      hide OwnCount, Admitted, PackLimit, Cited;
      if e.BadEntry? || !Counted(e.metric, r.body) || e.used != OwnCount(env, k, e.metric) {
        return BudgetCounterMismatch;
      }
      if !Admitted(env, k, r.body, e) {
        var d := Cited(View(), r.body);
        var granted := d.Some? && d.value.outcome == Grant;
        if Over(e.bid, e.metric) !in r.hits || !(r.decision == Block || granted) {
          return BudgetUnenforced;
        }
      }
      if PackFor(env, r).Some? && PackLimit(PackFor(env, r).value.budgets, e.bid, e.metric) != Some(e.limit) {
        return BudgetLimitNotInPack;
      }
      return Ok;
    }

    /** J-N, K-K3, L: the registry and the tasks change with the record that says so. */
    method CheckKind(r: Record) returns (c: Code)
      requires r.task.Dec? ==> r.task.n in tasks
      modifies this`agents, this`tasks
      ensures c == KindCode(env, old(View()), r)
      ensures c == Ok ==> agents == NextAgents(old(agents), r)
      ensures c == Ok ==> tasks == if r.body.TaskStart? then old(tasks)[r.pos := Opened(r)]
                                   else if r.body.TaskEnd? && r.task.Dec?
                                   then old(tasks)[r.task.n := old(tasks)[r.task.n].(ended := true)]
                                   else old(tasks)
    {
      c := JudgeKind(r);
      if c != Ok {
        return;
      }
      match r.body
      case TaskStart(_, _, _, _, _, _) => tasks := tasks[r.pos := Opened(r)];
      case TaskEnd(_, _) =>
        if r.task.Dec? {
          tasks := tasks[r.task.n := tasks[r.task.n].(ended := true)];
        }
      case AgentRegister(auth, key, _, _) =>
        agents := agents[r.agent := Agent(r.pos, if auth == KeyAuth then key else "", auth, false)];
      case AgentRotate(_, newKey, _) => agents := agents[r.agent := agents[r.agent].(key := newKey)];
      case AgentRevoke(_) => agents := agents[r.agent := agents[r.agent].(revoked := true)];
      case _ =>
    }

    method JudgeKind(r: Record) returns (c: Code)
      requires r.task.Dec? ==> r.task.n in tasks
      ensures c == KindCode(env, View(), r)
    {
      hide StartCode, RegisterCode, RotateCode, RevokeCode, EndCode;
      c := Ok;
      if r.body.TaskStart? {
        c := JudgeStart(r);
      } else if r.body.AgentRegister? || r.body.AgentRotate? || r.body.AgentRevoke? {
        c := JudgeAgent(r);
      } else if r.body.TaskEnd? {
        c := JudgeEnd(r);
      }
    }

    /** L, L2: the counts of an open task are the ones the verifier kept. */
    method JudgeEnd(r: Record) returns (c: Code)
      requires r.body.TaskEnd? && (r.task.Dec? ==> r.task.n in tasks)
      ensures c == EndCode(View(), r)
    {
      c := Ok;
      if r.task.Dec? {
        var k := tasks[r.task.n];
        if k.ended {
          return DuplicateTaskEnd;
        }
        if r.body.counts != k.counts || r.body.lastSeq != k.lastSeq {
          return TaskEndCountsMismatch;
        }
      }
    }

    /** K-K3: the registry allows the record. */
    method JudgeAgent(r: Record) returns (c: Code)
      requires r.body.AgentRegister? || r.body.AgentRotate? || r.body.AgentRevoke?
      ensures c == if r.body.AgentRegister? then RegisterCode(View(), r)
                   else if r.body.AgentRotate? then RotateCode(View(), r) else RevokeCode(View(), r)
    {
      if r.body.AgentRegister? {
        if r.agent in agents {
          return AgentAlreadyRegistered;
        }
        if !r.body.wellFormed || r.body.auth !in {KeyAuth, OidcAuth, RelayAuth} {
          return AgentRegisterMalformed;
        }
        return if r.body.auth == KeyAuth && !r.body.proven then AgentSelfProofInvalid else Ok;
      }
      if r.agent !in agents {
        return AgentNotRegistered;
      }
      var a := agents[r.agent];
      if r.body.AgentRevoke? {
        return if a.revoked then AgentAlreadyRevoked else if r.body.key != a.key then RevokeKeyMismatch else Ok;
      }
      if a.revoked {
        return AgentIsRevoked;
      }
      if a.auth != KeyAuth || r.body.oldKey != a.key {
        return RotationKeyMismatch;
      }
      return if r.body.proven then Ok else AgentRotationProofInvalid;
    }

    /** J, M, N, in `start_task`. */
    method JudgeStart(r: Record) returns (c: Code)
      requires r.body.TaskStart?
      ensures c == StartCode(env, View(), r)
    {
      var (auth, from) := (r.body.agentAuth, r.body.delegatedFrom);
      if auth == OtherAuth || r.body.principalAuth == ByOther {
        return UnauthenticatedAgent;
      }
      if auth == NoAuth {
        if !env.allowUnauthenticated {
          return UnauthenticatedAgent;
        }
      } else {
        if r.agent !in agents {
          return AgentNotRegistered;
        }
        if agents[r.agent].revoked {
          return AgentIsRevoked;
        }
        if !AuthConsistent(agents[r.agent].auth, auth) {
          return AgentAuthInconsistent;
        }
      }
      if !from.Blank? && !(from.Dec? && from.n < r.pos && from.n in seen && seen[from.n].body.TaskStart?) {
        return DelegatedFromMissing;
      }
      return Ok;
    }
  }

  // ---- the walk ----

  /** The record a row holds: the typed columns and ext of `read`, at the row's own seq. */
  function RecordOf(read: Row -> Record, s: Stored): Record { read(s.row).(pos := s.row.pos) }

  function RecordsOf(read: Row -> Record, rows: seq<Stored>): (rs: seq<Record>)
    ensures |rs| == |rows| && forall n | 0 <= n < |rows| :: rs[n] == RecordOf(read, rows[n])
  {
    if rows == [] then []
    else RecordsOf(read, rows[..|rows| - 1]) + [RecordOf(read, rows[|rows| - 1])]
  }

  /** What `verify_full` finds at row n, once the rows before it passed. */
  ghost function CodeAt(env: Env, H: Digest, read: Row -> Record, rows: seq<Stored>, n: nat): Code
    requires n < |rows|
  {
    var link := LinkCode(H, n, HashAt(rows, n), rows[n]);
    if link != Ok then link
    else Verify(env, StateAfter(env, RecordsOf(read, rows[..n])), RecordOf(read, rows[n]))
  }

  ghost predicate Passes(env: Env, H: Digest, read: Row -> Record, rows: seq<Stored>) {
    Linked(H, rows) && Accepted(env, RecordsOf(read, rows))
  }

  lemma PrefixRun(env: Env, H: Digest, read: Row -> Record, rows: seq<Stored>, n: nat)
    requires n < |rows| && Passes(env, H, read, rows[..n])
    ensures Passes(env, H, read, rows[..n + 1]) <==> CodeAt(env, H, read, rows, n) == Ok
    ensures CodeAt(env, H, read, rows, n) == Ok ==>
              StateAfter(env, RecordsOf(read, rows[..n + 1]))
              == Next(env, StateAfter(env, RecordsOf(read, rows[..n])), RecordOf(read, rows[n]))
  {
    hide Verify, Next, LinkCode, Linked, HashAt, Run;
    LinkedLonger(H, rows, n);
    var less, more := rows[..n], rows[..n + 1];
    assert more[..n] == less;
    assert RecordsOf(read, more) == RecordsOf(read, less) + [RecordOf(read, rows[n])];
    LinkedAt(H, n, HashAt(rows, n), rows[n]);
    RunStep(env, RecordsOf(read, less), RecordOf(read, rows[n]));
  }

  lemma LinkedAt(H: Digest, n: nat, prevHash: string, s: Stored)
    ensures LinkCode(H, n, prevHash, s) == Ok ==> s.row.pos == n + 1
  {
  }

  lemma LinkedLonger(H: Digest, rows: seq<Stored>, n: nat)
    requires n < |rows| && Linked(H, rows[..n])
    ensures Linked(H, rows[..n + 1]) <==> LinkCode(H, n, HashAt(rows, n), rows[n]) == Ok
  {
    hide LinkCode;
    var less, more := rows[..n], rows[..n + 1];
    forall k: nat | k < n ensures LinkOk(H, more, k) {
      assert LinkOk(H, less, k) && more[k] == less[k] && (k > 0 ==> more[k - 1] == less[k - 1]);
    }
    assert more[n] == rows[n] && HashAt(more, n) == HashAt(rows, n);
    assert LinkOk(H, more, n) <==> LinkCode(H, n, HashAt(rows, n), rows[n]) == Ok;
  }

  lemma PassesPrefix(env: Env, H: Digest, read: Row -> Record, rows: seq<Stored>, n: nat)
    requires n <= |rows| && Passes(env, H, read, rows)
    ensures Passes(env, H, read, rows[..n])
  {
    hide LinkCode, Verify, Next;
    var less := rows[..n];
    forall k: nat | k < n ensures LinkOk(H, less, k) {
      assert LinkOk(H, rows, k);
    }
    PrefixAccepted(env, RecordsOf(read, rows), n);
    assert RecordsOf(read, rows)[..n] == RecordsOf(read, less);
  }

  /** The loop of `verify_full`: rows that pass the chain checks and the record checks up to the first failure, its
      code and its index; `code == Ok` exactly when the whole store passes. */
  method VerifyFull(env: Env, H: Digest, read: Row -> Record, rows: seq<Stored>) returns (code: Code, n: nat)
    ensures n <= |rows| && Passes(env, H, read, rows[..n])
    ensures if n == |rows| then code == Ok else code == CodeAt(env, H, read, rows, n) && code != Ok
    ensures code == Ok <==> Passes(env, H, read, rows)
  {
    hide Verify, Next, LinkCode, Passes, CodeAt, Run, StateAfter, RecordsOf, RecordOf, Coherent, Init;
    var st := new State(env);
    var prevHash := GENESIS;
    n := 0;
    NothingPasses(env, H, read);
    assert rows[..0] == [];
    while n < |rows|
      invariant n <= |rows| && Passes(env, H, read, rows[..n])
      invariant st.env == env && st.View() == StateAfter(env, RecordsOf(read, rows[..n])) && Coherent(st.View())
      invariant prevHash == HashAt(rows, n)
    {
      PrefixRun(env, H, read, rows, n);
      code := LinkCode(H, n, prevHash, rows[n]);
      if code == Ok {
        code := st.CheckRecord(RecordOf(read, rows[n]));
      }
      assert code == CodeAt(env, H, read, rows, n) by { CodeAtParts(env, H, read, rows, n); }
      if code != Ok {
        if Passes(env, H, read, rows) {
          PassesPrefix(env, H, read, rows, n + 1);
        }
        return;
      }
      prevHash := rows[n].hash;
      n := n + 1;
    }
    assert rows[..n] == rows;
    return Ok, n;
  }

  lemma NothingPasses(env: Env, H: Digest, read: Row -> Record)
    ensures Passes(env, H, read, []) && StateAfter(env, RecordsOf(read, [])) == Init() && Coherent(Init())
  {
  }

  lemma CodeAtParts(env: Env, H: Digest, read: Row -> Record, rows: seq<Stored>, n: nat)
    requires n < |rows|
    ensures var link := LinkCode(H, n, HashAt(rows, n), rows[n]);
            CodeAt(env, H, read, rows, n)
            == if link != Ok then link
               else Verify(env, StateAfter(env, RecordsOf(read, rows[..n])), RecordOf(read, rows[n]))
  {
    hide Verify, LinkCode;
  }
}
