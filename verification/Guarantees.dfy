/** What every accepted chain guarantees, stated over its records alone: the life of an approval and the ceilings of
    a budget. Nothing here assumes who wrote the chain. */
module Guarantees {
  import opened Records
  import opened Checks
  import opened Store
  import opened ChainFacts

  // ---- the life of an approval ----

  /** Record d decides the request q: same approval, task and input hash, and on its side of the deadline. */
  ghost predicate Decides(chain: seq<Record>, d: int, q: int) {
    && Has(chain, d) && Has(chain, q) && q < d
    && At(chain, d).body.ApprovalDecision? && At(chain, q).body.ApprovalRequest?
    && var (dec, req) := (At(chain, d), At(chain, q));
       && dec.body.aid == req.body.aid && dec.parent == Dec(q) && dec.task == req.task
       && dec.inputHash == req.inputHash
       && (match dec.body.outcome
           case Grant => dec.ts < req.ts + req.body.timeoutMs && NamedApprover(dec, req)
           case Refusal => dec.ts < req.ts + req.body.timeoutMs && NamedApprover(dec, req)
           case Timeout => dec.ts >= req.ts + req.body.timeoutMs
           case OtherOutcome => false)
  }

  /** Assured enough, and under separation of duties not the principal the task runs for. */
  ghost predicate NamedApprover(dec: Record, req: Record)
    requires dec.body.ApprovalDecision? && req.body.ApprovalRequest?
  {
    && dec.body.approver.Some? && dec.body.assurance.Some?
    && Rank(dec.body.assurance.value) >= Rank(req.body.minAssurance)
    && (req.body.sod ==> dec.body.approver.value != dec.principal)
  }

  /** Every decision decides one request, and no request has two. */
  lemma OneDecision(env: Env, chain: seq<Record>)
    requires Accepted(env, chain)
    ensures forall d | Has(chain, d) && At(chain, d).body.ApprovalDecision? ::
              At(chain, d).parent.Dec? && Decides(chain, d, At(chain, d).parent.n)
    ensures forall d, e, q | Decides(chain, d, q) && Decides(chain, e, q) :: d == e
    ensures forall p, q | Has(chain, p) && Has(chain, q) && At(chain, p).body.ApprovalRequest?
                          && At(chain, q).body.ApprovalRequest? && At(chain, p).body.aid == At(chain, q).body.aid ::
              p == q
  {
    StateIsRecount(env, chain);
    var s := StateAfter(env, chain);
    forall d | Has(chain, d) && At(chain, d).body.ApprovalDecision?
      ensures At(chain, d).parent.Dec? && Decides(chain, d, At(chain, d).parent.n)
    {
      assert d in s.decisions;
      var req := s.requests[At(chain, d).body.aid];
      assert Answers(At(chain, d), req) && req == RequestOf(At(chain, req.pos));
    }
    forall d, e, q | Decides(chain, d, q) && Decides(chain, e, q) ensures d == e {
      assert d in s.decisions && e in s.decisions;
    }
  }

  /** A call that cites an approval cites one decision, made for this very call, and no other call cites it. */
  lemma CitedOnce(env: Env, chain: seq<Record>, n: int)
    requires Accepted(env, chain)
    requires Has(chain, n) && At(chain, n).body.ToolCall? && !At(chain, n).body.approvalSeq.NoInt?
    ensures var call := At(chain, n);
            && call.body.approvalSeq.Int? && call.body.approvalSeq.i < n && Has(chain, call.body.approvalSeq.i)
            && var d := call.body.approvalSeq.i;
               && At(chain, d).body.ApprovalDecision? && At(chain, d).parent.Dec?
               && Decides(chain, d, At(chain, d).parent.n)
               && var req := At(chain, At(chain, d).parent.n);
                  && call.task == req.task && call.body.qualified == req.body.qualified
                  && call.inputHash == req.inputHash && call.parent == req.parent
                  && (call.decision == Flag <==> At(chain, d).body.outcome == Grant)
                  && (call.decision == Block <==> At(chain, d).body.outcome != Grant)
    ensures forall m | Has(chain, m) && At(chain, m).body.ToolCall?
                       && At(chain, m).body.approvalSeq == At(chain, n).body.approvalSeq :: m == n
  {
    StateIsRecount(env, chain);
    OneDecision(env, chain);
    var s := StateAfter(env, chain);
    var d := At(chain, n).body.approvalSeq.i;
    assert d in s.decisions && CallAnswered(At(chain, n), At(chain, d), s.decisions[d].req);
    assert s.decisions[d].req == RequestOf(At(chain, s.decisions[d].req.pos));
    forall m | Has(chain, m) && At(chain, m).body.ToolCall?
               && At(chain, m).body.approvalSeq == At(chain, n).body.approvalSeq ensures m == n
    {
      assert Cites(At(chain, m), d) && Cites(At(chain, n), d);
    }
  }

  /** A task_end is the last record of its task. */
  lemma NothingAfterTaskEnd(env: Env, chain: seq<Record>, t: int, n: int, m: int)
    requires Accepted(env, chain)
    requires Has(chain, n) && At(chain, n).body.TaskEnd? && Names(At(chain, n).task, t)
    requires Has(chain, m) && Names(At(chain, m).task, t)
    ensures m <= n
  {
    if n < m {
      PassedAt(env, chain, m);
      var front, s := chain[..m - 1], StateAfter(env, chain[..m - 1]);
      assert Has(front, n) && At(front, n) == At(chain, n);
      EndedTaskRefuses(env, s, front, At(chain, m), t);
    }
  }

  lemma EndedTaskRefuses(env: Env, s: VState, chain: seq<Record>, r: Record, t: int)
    requires TasksNamed(chain) && MirrorsTasks(env, s, chain) && MirrorsEnded(s, chain)
    requires TaskEnded(chain, t) && Names(r.task, t)
    ensures Verify(env, s, r) != Ok
  {
    assert t in s.tasks && s.tasks[t].ended by {
      var n :| Has(chain, n) && At(chain, n).body.TaskEnd? && Names(At(chain, n).task, t);
      assert At(chain, n).task.Dec?;
    }
    hide TaskEnded, MirrorsTask, TasksNamed;
    assert TaskOf(s, r) == Some(s.tasks[t]);
    EndedCode(env, s, r);
  }

  lemma EndedCode(env: Env, s: VState, r: Record)
    requires TaskOf(s, r).Some? && TaskOf(s, r).value.ended
    ensures Verify(env, s, r) != Ok
  {
    hide ParentCode, RulepackCode, CostCode, ApprovalCode, BudgetCode;
    assert if r.body.TaskEnd? then KindCode(env, s, r) == DuplicateTaskEnd else TaskCode(s, r) != Ok;
  }

  /** When a task ends, every approval asked for in it has been decided. */
  lemma DecidedBeforeTaskEnd(env: Env, chain: seq<Record>, n: int, q: int)
    requires Accepted(env, chain)
    requires Has(chain, n) && At(chain, n).body.TaskEnd? && At(chain, n).task.Dec?
    requires Has(chain, q) && At(chain, q).body.ApprovalRequest? && At(chain, q).task == At(chain, n).task
    ensures exists d :: d < n && Decides(chain, d, q)
  {
    var t := At(chain, n).task.n;
    NothingAfterTaskEnd(env, chain, t, n, q);
    PrefixAccepted(env, chain, n);
    var front := chain[..n];
    assert At(front, n) == At(chain, n) && At(front, q) == At(chain, q);
    StateIsRecount(env, front);
    var d := DecidedByEnd(env, StateAfter(env, front), front, n, q);
    OneDecision(env, front);
    assert Decides(front, d, q);
    assert Decides(chain, d, q) by { assert At(front, d) == At(chain, d); }
  }

  lemma DecidedByEnd(env: Env, s: VState, chain: seq<Record>, n: int, q: int) returns (d: int)
    requires Mirrors(env, s, chain)
    requires Has(chain, n) && At(chain, n).body.TaskEnd? && At(chain, n).task.Dec?
    requires Has(chain, q) && At(chain, q).body.ApprovalRequest? && At(chain, q).task == At(chain, n).task
    ensures Has(chain, d) && At(chain, d).body.ApprovalDecision? && At(chain, d).parent == Dec(q)
  {
    var t, aid := At(chain, n).task.n, At(chain, q).body.aid;
    assert t in s.tasks && TaskEnded(chain, t) by { assert Names(At(chain, n).task, t); }
    assert s.requests[aid] == RequestOf(At(chain, q)) && At(chain, q).pos == q;
    assert aid !in s.tasks[t].pending;
    d := s.decided[aid];
    assert d in s.decisions && Answers(At(chain, d), s.requests[aid]);
  }

  // ---- the ceilings of a budget ----

  function Max(a: int, b: int): int { if a < b then b else a }

  /** What a tool_calls or tool_calls_by limit counts. */
  function CountOf(env: Env, m: Metric, calls: seq<string>): nat {
    if m.ToolCallsBy? then CountMatching(env, calls, m.glob) else |calls|
  }

  predicate CountsCall(env: Env, m: Metric, qualified: string) {
    m.ToolCallsBy? ==> env.glob(qualified, m.glob)
  }

  /** The record seals a `budget` entry for this budget and metric with this limit. */
  predicate Seals(b: Body, bid: string, m: Metric, limit: int) {
    exists e <- Entries(b) :: e.Entry? && e.bid == bid && e.metric == m && e.limit == limit
  }

  /** Every non-blocked call of the task that the metric counts seals the limit. */
  ghost predicate CallsSeal(env: Env, chain: seq<Record>, t: int, bid: string, m: Metric, limit: int) {
    forall n | Has(chain, n) && Names(At(chain, n).task, t) && At(chain, n).body.ToolCall?
               && At(chain, n).decision != Block && CountsCall(env, m, At(chain, n).body.qualified) ::
      Seals(At(chain, n).body, bid, m, limit)
  }

  /** The approvals granted in a task. */
  function GrantsIn(chain: seq<Record>, t: int): set<int> {
    set d | 1 <= d <= |chain| && At(chain, d).body.ApprovalDecision? && At(chain, d).body.outcome == Grant
            && Names(At(chain, d).task, t)
  }

  function GrantsUsed(s: VState, t: int): set<int> {
    set d | d in s.decisions && s.decisions[d].used && s.decisions[d].outcome == Grant
            && Names(s.decisions[d].req.task, t)
  }

  /** An entry that passed recounts to the verifier's own value, and a call over its limit cites a grant. */
  lemma EntryPassed(env: Env, s: VState, k: Task, r: Record, es: seq<Entry>, e: Entry)
    requires EntriesCode(env, s, k, r, es) == Ok && e in es
    ensures EntryCode(env, s, k, r, e) == Ok
  {
    if e != es[0] {
      EntryPassed(env, s, k, r, es[1..], e);
    }
  }

  lemma SealedEntry(env: Env, s: VState, k: Task, r: Record, bid: string, m: Metric, limit: int) returns (e: Entry)
    requires BudgetCode(env, s, k, r) == Ok && Seals(r.body, bid, m, limit)
    ensures e.Entry? && e.bid == bid && e.metric == m && e.limit == limit && EntryCode(env, s, k, r, e) == Ok
  {
    e :| e in Entries(r.body) && e.Entry? && e.bid == bid && e.metric == m && e.limit == limit;
    EntryPassed(env, s, k, r, Entries(r.body), e);
  }

  lemma CountAppended(env: Env, m: Metric, calls: seq<string>, q: string)
    ensures CountOf(env, m, calls + [q]) == CountOf(env, m, calls) + One(CountsCall(env, m, q))
  {
    assert (calls + [q])[..|calls|] == calls;
  }

  /** A counted call of the task either finds room under the limit or spends a grant no earlier call spent. */
  lemma CallStep(env: Env, s: VState, r: Record, t: int, bid: string, m: Metric, limit: int)
    requires m.ToolCalls? || m.ToolCallsBy?
    requires t in s.tasks && Names(r.task, t) && r.body.ToolCall? && r.decision != Block
    requires Verify(env, s, r) == Ok && Seals(r.body, bid, m, limit)
    requires CountsCall(env, m, r.body.qualified)
    ensures CountOf(env, m, s.tasks[t].calls) + 1 <= limit
            || exists d :: && d in s.decisions && !s.decisions[d].used && s.decisions[d].outcome == Grant
                           && Names(s.decisions[d].req.task, t)
                           && NextDecisions(s, r) == s.decisions[d := s.decisions[d].(used := true)]
  {
    VerifyParts(env, s, r);
    var e := SealedEntry(env, s, s.tasks[t], r, bid, m, limit);
    assert e.used == CountOf(env, m, s.tasks[t].calls);
    if e.used + 1 > limit {
      var d := r.body.approvalSeq.i;
      assert Cited(s, r.body).Some? && s.decisions[d].outcome == Grant;
      CiteFacts(env, s, r);
    }
  }

  lemma GrantSpent(s: VState, t: int, d: int, s': VState)
    requires d in s.decisions && !s.decisions[d].used && s.decisions[d].outcome == Grant
    requires Names(s.decisions[d].req.task, t)
    requires s'.decisions == s.decisions[d := s.decisions[d].(used := true)]
    ensures |GrantsUsed(s', t)| == |GrantsUsed(s, t)| + 1
  {
    assert GrantsUsed(s', t) == GrantsUsed(s, t) + {d};
  }

  lemma GrantsKept(env: Env, s: VState, chain: seq<Record>, r: Record, t: int)
    requires MirrorsDecisions(s, chain) && r.pos == |chain| + 1
    ensures |GrantsUsed(Next(env, s, r), t)| >= |GrantsUsed(s, t)|
  {
    var s' := Next(env, s, r);
    assert forall d | d in s.decisions :: d in NextDecisions(s, r) && NextDecisions(s, r)[d].outcome
             == s.decisions[d].outcome && NextDecisions(s, r)[d].req == s.decisions[d].req
             && (s.decisions[d].used ==> NextDecisions(s, r)[d].used);
    assert GrantsUsed(s, t) <= GrantsUsed(s', t);
    CardinalityMonotone(GrantsUsed(s, t), GrantsUsed(s', t));
  }

  lemma CardinalityMonotone<T>(a: set<T>, b: set<T>)
    requires a <= b
    ensures |a| <= |b|
  {
    assert b == a + (b - a);
  }

  lemma CallsSealPrefix(env: Env, chain: seq<Record>, r: Record, t: int, bid: string, m: Metric, limit: int)
    requires CallsSeal(env, chain + [r], t, bid, m, limit)
    ensures CallsSeal(env, chain, t, bid, m, limit)
    ensures Names(r.task, t) && r.body.ToolCall? && r.decision != Block && CountsCall(env, m, r.body.qualified)
            ==> Seals(r.body, bid, m, limit)
  {
    AtExtended(chain, r);
  }

  lemma {:induction false} CallsWithinGrants(env: Env, chain: seq<Record>, t: int, bid: string, m: Metric, limit: int)
    requires Accepted(env, chain) && CallsSeal(env, chain, t, bid, m, limit)
    requires m.ToolCalls? || m.ToolCallsBy?
    requires t in StateAfter(env, chain).tasks
    ensures var s := StateAfter(env, chain);
            CountOf(env, m, s.tasks[t].calls) <= Max(limit, 0) + |GrantsUsed(s, t)|
  {
    hide Verify, Next, Mirrors, Seals, CallsSeal, GrantsUsed;
    if chain != [] {
      var front, r := chain[..|chain| - 1], chain[|chain| - 1];
      assert front + [r] == chain;
      RunStep(env, front, r);
      StateIsRecount(env, front);
      CallsSealPrefix(env, front, r, t, bid, m, limit);
      var s, s' := StateAfter(env, front), StateAfter(env, chain);
      if t in s.tasks {
        CallsWithinGrants(env, front, t, bid, m, limit);
        CallsStep(env, s, s', front, r, t, bid, m, limit);
      } else {
        NewTask(env, s, r, t);
      }
    }
  }

  lemma NewTask(env: Env, s: VState, r: Record, t: int)
    requires t !in s.tasks && t in Next(env, s, r).tasks
    ensures Next(env, s, r).tasks[t].calls == [] && Next(env, s, r).tasks[t].hosts == {}
  {
  }

  lemma CallsStep(env: Env, s: VState, s': VState, chain: seq<Record>, r: Record, t: int, bid: string, m: Metric,
                  limit: int)
    requires Mirrors(env, s, chain) && r.pos == |chain| + 1 && Verify(env, s, r) == Ok && s' == Next(env, s, r)
    requires m.ToolCalls? || m.ToolCallsBy?
    requires t in s.tasks
    requires Names(r.task, t) && r.body.ToolCall? && r.decision != Block && CountsCall(env, m, r.body.qualified)
             ==> Seals(r.body, bid, m, limit)
    requires CountOf(env, m, s.tasks[t].calls) <= Max(limit, 0) + |GrantsUsed(s, t)|
    ensures t in s'.tasks && CountOf(env, m, s'.tasks[t].calls) <= Max(limit, 0) + |GrantsUsed(s', t)|
  {
    assert MirrorsDecisions(s, chain);
    hide Verify, Mirrors, MirrorsDecisions, NextTasks, Seals, GrantsUsed, CountsCall, CountOf;
    GrantsKept(env, s, chain, r, t);
    StartsOutside(env, s, chain, r, t);
    CallsMove(env, s, r, t);
    if Names(r.task, t) && r.body.ToolCall? && r.decision != Block {
      CountAppended(env, m, s.tasks[t].calls, r.body.qualified);
      if CountsCall(env, m, r.body.qualified) {
        CountedCall(env, s, s', r, t, bid, m, limit);
      }
    }
  }

  lemma CountedCall(env: Env, s: VState, s': VState, r: Record, t: int, bid: string, m: Metric, limit: int)
    requires m.ToolCalls? || m.ToolCallsBy?
    requires t in s.tasks && Names(r.task, t) && r.body.ToolCall? && r.decision != Block
    requires Verify(env, s, r) == Ok && Seals(r.body, bid, m, limit) && CountsCall(env, m, r.body.qualified)
    requires s'.decisions == NextDecisions(s, r)
    requires CountOf(env, m, s.tasks[t].calls) <= Max(limit, 0) + |GrantsUsed(s, t)| <= Max(limit, 0) + |GrantsUsed(s', t)|
    ensures CountOf(env, m, s.tasks[t].calls) + 1 <= Max(limit, 0) + |GrantsUsed(s', t)|
  {
    hide Verify, NextDecisions;
    CallStep(env, s, r, t, bid, m, limit);
    if CountOf(env, m, s.tasks[t].calls) + 1 > limit {
      var d :| && d in s.decisions && !s.decisions[d].used && s.decisions[d].outcome == Grant
               && Names(s.decisions[d].req.task, t)
               && NextDecisions(s, r) == s.decisions[d := s.decisions[d].(used := true)];
      GrantSpent(s, t, d, s');
    }
  }

  lemma CallsMove(env: Env, s: VState, r: Record, t: int)
    requires t in s.tasks && t != r.pos && (r.body.TaskStart? ==> !r.task.Dec?)
    ensures t in NextTasks(env, s, r)
    ensures NextTasks(env, s, r)[t].calls
            == if Names(r.task, t) then NextCalls(s.tasks[t].calls, r) else s.tasks[t].calls
    ensures NextTasks(env, s, r)[t].hosts
            == if Names(r.task, t) then NextHosts(env, s.tasks[t].hosts, r) else s.tasks[t].hosts
  {
  }

  /** The calls of a task that a limit counts, sealed with that limit on each, number at most the limit plus the
      approvals granted in the task. */
  lemma BudgetBound(env: Env, chain: seq<Record>, t: int, bid: string, m: Metric, limit: int)
    requires Accepted(env, chain) && Has(chain, t) && At(chain, t).body.TaskStart?
    requires m.ToolCalls? || m.ToolCallsBy?
    requires CallsSeal(env, chain, t, bid, m, limit)
    ensures CountOf(env, m, CallsOf(InTask(chain, t))) <= Max(limit, 0) + |GrantsIn(chain, t)|
  {
    StateIsRecount(env, chain);
    var s := StateAfter(env, chain);
    CallsWithinGrants(env, chain, t, bid, m, limit);
    assert MirrorsTask(env, s.tasks[t], chain, t);
    forall d | d in GrantsUsed(s, t) ensures d in GrantsIn(chain, t) {
      assert d in s.decisions && s.decisions[d].req == s.requests[At(chain, d).body.aid];
      assert Answers(At(chain, d), s.decisions[d].req);
    }
    CardinalityMonotone(GrantsUsed(s, t), GrantsIn(chain, t));
  }

  // ---- egress hosts and model spend: no approval lifts these ----

  /** Every non-blocked egress of the task to a host given as text seals the limit. */
  ghost predicate EgressSeals(chain: seq<Record>, t: int, bid: string, limit: int) {
    forall n | Has(chain, n) && Names(At(chain, n).task, t) && At(chain, n).body.Egress?
               && At(chain, n).decision != Block && At(chain, n).body.host.Str? ::
      Seals(At(chain, n).body, bid, EgressHosts, limit)
  }

  lemma NewHostFits(env: Env, s: VState, r: Record, t: int, bid: string, limit: int)
    requires t in s.tasks && Names(r.task, t) && r.body.Egress? && r.decision != Block && r.body.host.Str?
    requires Verify(env, s, r) == Ok && Seals(r.body, bid, EgressHosts, limit)
    ensures env.lower(r.body.host.s) in s.tasks[t].hosts || |s.tasks[t].hosts| + 1 <= limit
  {
    VerifyParts(env, s, r);
    var e := SealedEntry(env, s, s.tasks[t], r, bid, EgressHosts, limit);
  }

  lemma {:induction false} HostsWithin(env: Env, chain: seq<Record>, t: int, bid: string, limit: int)
    requires Accepted(env, chain) && EgressSeals(chain, t, bid, limit)
    requires t in StateAfter(env, chain).tasks
    ensures |StateAfter(env, chain).tasks[t].hosts| <= Max(limit, 0)
  {
    hide Verify, Next, Mirrors, Seals;
    if chain != [] {
      var front, r := chain[..|chain| - 1], chain[|chain| - 1];
      assert front + [r] == chain;
      RunStep(env, front, r);
      StateIsRecount(env, front);
      AtExtended(front, r);
      assert EgressSeals(front, t, bid, limit);
      if t in StateAfter(env, front).tasks {
        HostsWithin(env, front, t, bid, limit);
        HostsStep(env, StateAfter(env, front), front, r, t, bid, limit);
      } else {
        NewTask(env, StateAfter(env, front), r, t);
      }
    }
  }

  lemma StartsOutside(env: Env, s: VState, chain: seq<Record>, r: Record, t: int)
    requires Mirrors(env, s, chain) && r.pos == |chain| + 1 && Verify(env, s, r) == Ok && t in s.tasks
    ensures t != r.pos && (r.body.TaskStart? ==> !r.task.Dec?)
  {
    VerifyParts(env, s, r);
    hide Verify;
  }

  lemma HostsStep(env: Env, s: VState, chain: seq<Record>, r: Record, t: int, bid: string, limit: int)
    requires Mirrors(env, s, chain) && r.pos == |chain| + 1 && Verify(env, s, r) == Ok
    requires t in s.tasks && |s.tasks[t].hosts| <= Max(limit, 0)
    requires Names(r.task, t) && r.body.Egress? && r.decision != Block && r.body.host.Str?
             ==> Seals(r.body, bid, EgressHosts, limit)
    ensures t in Next(env, s, r).tasks && |Next(env, s, r).tasks[t].hosts| <= Max(limit, 0)
  {
    hide Verify, Mirrors, NextTasks, Seals;
    assert t != r.pos && (r.body.TaskStart? ==> !r.task.Dec?) by { StartsOutside(env, s, chain, r, t); }
    CallsMove(env, s, r, t);
    if Names(r.task, t) && r.body.Egress? && r.decision != Block && r.body.host.Str? {
      NewHostFits(env, s, r, t, bid, limit);
      var h := env.lower(r.body.host.s);
      if h in s.tasks[t].hosts {
        assert s.tasks[t].hosts + {h} == s.tasks[t].hosts;
      }
    }
  }

  /** The distinct hosts a task reached, sealed with a limit on each egress, number at most the limit. */
  lemma HostBound(env: Env, chain: seq<Record>, t: int, bid: string, limit: int)
    requires Accepted(env, chain) && Has(chain, t) && At(chain, t).body.TaskStart?
    requires EgressSeals(chain, t, bid, limit)
    ensures |HostsOf(env, InTask(chain, t))| <= Max(limit, 0)
  {
    StateIsRecount(env, chain);
    HostsWithin(env, chain, t, bid, limit);
    assert MirrorsTask(env, StateAfter(env, chain).tasks[t], chain, t);
  }

  /** A non-blocked inference that seals a spend limit ran while the task had spent less. */
  lemma SpendBelowLimit(env: Env, chain: seq<Record>, n: int, bid: string, limit: int)
    requires Accepted(env, chain) && Has(chain, n) && At(chain, n).body.Inference? && At(chain, n).decision != Block
    requires At(chain, n).task.Dec? && Seals(At(chain, n).body, bid, SpendMicro, limit)
    ensures SpendOf(InTask(chain[..n - 1], At(chain, n).task.n)) < limit
  {
    PassedAt(env, chain, n);
    var s, r := StateAfter(env, chain[..n - 1]), At(chain, n);
    SpendStep(env, s, chain[..n - 1], r, bid, limit);
  }

  lemma SpendStep(env: Env, s: VState, chain: seq<Record>, r: Record, bid: string, limit: int)
    requires MirrorsTasks(env, s, chain) && MirrorsSeen(s, chain) && Verify(env, s, r) == Ok
    requires r.body.Inference? && r.decision != Block && r.task.Dec? && Seals(r.body, bid, SpendMicro, limit)
    ensures SpendOf(InTask(chain, r.task.n)) < limit
  {
    VerifyParts(env, s, r);
    assert r.task.n in s.tasks && MirrorsTask(env, s.tasks[r.task.n], chain, r.task.n);
    var e := SealedEntry(env, s, s.tasks[r.task.n], r, bid, SpendMicro, limit);
  }
}
