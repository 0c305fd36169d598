/** What acceptance alone says about a chain: the verifier's running state is, after every record, exactly what the
    ledger would recount from the records so far. */
module ChainFacts {
  import opened Records
  import opened Checks
  import opened Store

  ghost predicate MirrorsSeen(s: VState, chain: seq<Record>) {
    && (forall n :: n in s.seen <==> Has(chain, n))
    && (forall n | Has(chain, n) :: s.seen[n] == SeenOf(At(chain, n)))
  }

  /** Every task_seq names an earlier task_start whose identity the record carries. */
  ghost predicate TasksNamed(chain: seq<Record>) {
    forall n | Has(chain, n) && At(chain, n).task.Dec? ::
      && Has(chain, At(chain, n).task.n) && At(chain, n).task.n < n
      && var start := At(chain, At(chain, n).task.n);
         start.body.TaskStart? && start.agent == At(chain, n).agent && start.principal == At(chain, n).principal
  }

  ghost predicate MirrorsTask(env: Env, k: Task, chain: seq<Record>, t: int)
    requires Has(chain, t)
  {
    var rows := InTask(chain, t);
    && k.agent == At(chain, t).agent && k.principal == At(chain, t).principal
    && k.counts == Tally(rows)
    && k.lastSeq == LastSeq(rows, t)
    && k.calls == CallsOf(rows)
    && k.hosts == HostsOf(env, rows)
    && k.spend == SpendOf(rows)
  }

  ghost predicate MirrorsTasks(env: Env, s: VState, chain: seq<Record>) {
    && (forall t :: t in s.tasks <==> Has(chain, t) && At(chain, t).body.TaskStart?)
    && (forall t | t in s.tasks :: MirrorsTask(env, s.tasks[t], chain, t))
  }

  ghost predicate MirrorsEnded(s: VState, chain: seq<Record>) {
    && (forall t | t in s.tasks :: s.tasks[t].ended <==> TaskEnded(chain, t))
    && (forall t | t in s.tasks && s.tasks[t].ended :: s.tasks[t].pending == {})
  }

  ghost predicate MirrorsRequests(s: VState, chain: seq<Record>) {
    && (forall n | Has(chain, n) && At(chain, n).body.ApprovalRequest? ::
          At(chain, n).body.aid in s.requests && s.requests[At(chain, n).body.aid] == RequestOf(At(chain, n)))
    && (forall aid | aid in s.requests ::
          var n := s.requests[aid].pos;
          && Has(chain, n) && At(chain, n).body.ApprovalRequest? && At(chain, n).body.aid == aid
          && s.requests[aid] == RequestOf(At(chain, n))
          && s.requests[aid].task.Dec? && s.requests[aid].task.n in s.tasks)
  }

  /** The decision answers this request: its own task, parent and input hash, on the right side of the deadline. */
  ghost predicate Answers(r: Record, req: Request)
    requires r.body.ApprovalDecision?
  {
    && r.parent == Dec(req.pos) && r.task == req.task && r.inputHash == req.inputHash && req.pos < r.pos
    && (r.body.outcome == Grant || r.body.outcome == Refusal ==> r.ts < req.deadline)
    && (r.body.outcome == Timeout ==> r.ts >= req.deadline)
    && (r.body.outcome == Grant || r.body.outcome == Refusal ==>
          && r.body.approver.Some? && r.body.assurance.Some?
          && Rank(r.body.assurance.value) >= Rank(req.minAssurance)
          && (req.sod ==> r.body.approver.value != r.principal))
    && !r.body.outcome.OtherOutcome?
  }

  ghost predicate MirrorsDecisions(s: VState, chain: seq<Record>) {
    && (forall d :: d in s.decisions <==> Has(chain, d) && At(chain, d).body.ApprovalDecision?)
    && (forall d | d in s.decisions ::
          var r := At(chain, d);
          && r.body.aid in s.requests && s.decisions[d].req == s.requests[r.body.aid]
          && s.decisions[d].outcome == r.body.outcome
          && r.body.aid in s.decided && s.decided[r.body.aid] == d
          && Answers(r, s.requests[r.body.aid]))
    && (forall aid | aid in s.decided ::
          aid in s.requests && s.decided[aid] in s.decisions && At(chain, s.decided[aid]).body.aid == aid)
  }

  /** A tool_call that cites a decision is the very call its request asked about. */
  ghost predicate CallAnswered(r: Record, d: Record, req: Request)
    requires r.body.ToolCall? && d.body.ApprovalDecision?
  {
    && req.task == r.task && req.qualified == r.body.qualified && req.inputHash == r.inputHash
    && req.parent == r.parent
    && (r.body.confirmation == Granted <==> d.body.outcome == Grant)
    && (d.body.outcome == Grant ==> r.decision == Flag && forall h | h in r.hits && h.Over? :: h in req.hits)
    && (d.body.outcome != Grant ==> r.decision == Block)
  }

  ghost predicate CitesAnswered(s: VState, chain: seq<Record>) {
    forall n | Has(chain, n) && At(chain, n).body.ToolCall? && !At(chain, n).body.approvalSeq.NoInt? ::
      var a := At(chain, n).body.approvalSeq;
      && a.Int? && a.i in s.decisions && a.i < n
      && Has(chain, a.i) && At(chain, a.i).body.ApprovalDecision?
      && CallAnswered(At(chain, n), At(chain, a.i), s.decisions[a.i].req)
  }

  ghost predicate MirrorsUsed(s: VState, chain: seq<Record>) {
    && (forall d | d in s.decisions :: s.decisions[d].used <==> ApprovalUsed(chain, d))
    && CitesAnswered(s, chain)
    && EachCitedOnce(chain)
  }

  ghost predicate MirrorsPending(s: VState) {
    forall t, aid | t in s.tasks ::
      aid in s.tasks[t].pending <==> aid in s.requests && Names(s.requests[aid].task, t) && aid !in s.decided
  }

  ghost predicate MirrorsRest(s: VState, chain: seq<Record>) {
    && s.agents == AgentsOf(chain)
    && s.rulepack == RulepackOf(chain)
    && (s.rulepackSeen <==> s.rulepack != "")
    && (forall p :: p in s.resultParents <==> HasResult(chain, p))
  }

  ghost predicate Mirrors(env: Env, s: VState, chain: seq<Record>) {
    && Sequenced(chain)
    && MirrorsSeen(s, chain)
    && TasksNamed(chain)
    && MirrorsTasks(env, s, chain)
    && MirrorsEnded(s, chain)
    && MirrorsRequests(s, chain)
    && MirrorsDecisions(s, chain)
    && MirrorsUsed(s, chain)
    && MirrorsPending(s)
    && MirrorsRest(s, chain)
  }

  // ---- one more record ----

  /** Looking up an extended chain. */
  lemma AtExtended(chain: seq<Record>, r: Record)
    ensures forall n | Has(chain, n) :: Has(chain + [r], n) && At(chain + [r], n) == At(chain, n)
    ensures Has(chain + [r], |chain| + 1) && At(chain + [r], |chain| + 1) == r
    ensures forall n :: Has(chain + [r], n) <==> Has(chain, n) || n == |chain| + 1
    ensures (chain + [r])[..|chain|] == chain
  {
  }

  lemma InTaskExtended(chain: seq<Record>, r: Record, t: int)
    ensures InTask(chain + [r], t) == if Names(r.task, t) then InTask(chain, t) + [r] else InTask(chain, t)
  {
    assert (chain + [r])[..|chain|] == chain;
  }

  /** A record outside every earlier record's future: no record names a task that has not started. */
  lemma NotYetNamed(chain: seq<Record>, t: int)
    requires TasksNamed(chain) && t > |chain|
    ensures InTask(chain, t) == []
  {
    if chain != [] {
      var front := chain[..|chain| - 1];
      forall n | Has(front, n) ensures At(front, n) == At(chain, n) {}
      NotYetNamedFront(chain);
      NotYetNamed(front, t);
      var r := chain[|chain| - 1];
      assert r == At(chain, |chain|);
    }
  }

  lemma NotYetNamedFront(chain: seq<Record>)
    requires TasksNamed(chain) && chain != []
    ensures TasksNamed(chain[..|chain| - 1])
  {
    var front := chain[..|chain| - 1];
    forall n | Has(front, n) && At(front, n).task.Dec?
      ensures && Has(front, At(front, n).task.n) && At(front, n).task.n < n
              && var start := At(front, At(front, n).task.n);
                 start.body.TaskStart? && start.agent == At(front, n).agent
                 && start.principal == At(front, n).principal
    {
      assert At(front, n) == At(chain, n);
    }
  }

  lemma RecountExtended(env: Env, rows: seq<Record>, r: Record, start: nat)
    ensures Tally(rows + [r]) == if r.body.TaskEnd? then Tally(rows) else Tallied(Tally(rows), r)
    ensures LastSeq(rows + [r], start) == if r.body.TaskEnd? then LastSeq(rows, start) else r.pos
    ensures CallsOf(rows + [r]) == NextCalls(CallsOf(rows), r)
    ensures HostsOf(env, rows + [r]) == NextHosts(env, HostsOf(env, rows), r)
    ensures SpendOf(rows + [r]) == NextSpend(SpendOf(rows), r)
  {
    assert (rows + [r])[..|rows|] == rows;
  }

  lemma NextSeen(env: Env, s: VState, chain: seq<Record>, r: Record)
    requires Sequenced(chain) && MirrorsSeen(s, chain) && TasksNamed(chain) && MirrorsTasks(env, s, chain)
    requires r.pos == |chain| + 1 && TaskCode(s, r) == Ok
    ensures Sequenced(chain + [r]) && MirrorsSeen(Next(env, s, r), chain + [r]) && TasksNamed(chain + [r])
  {
    AtExtended(chain, r);
    var chain' := chain + [r];
    if r.task.Dec? {
      assert Has(chain, r.task.n) && s.seen[r.task.n] == SeenOf(At(chain, r.task.n));
      assert r.task.n in s.tasks;
      assert MirrorsTask(env, s.tasks[r.task.n], chain, r.task.n);
    }
    forall n | Has(chain', n) && At(chain', n).task.Dec?
      ensures && Has(chain', At(chain', n).task.n) && At(chain', n).task.n < n
              && var start := At(chain', At(chain', n).task.n);
                 start.body.TaskStart? && start.agent == At(chain', n).agent
                 && start.principal == At(chain', n).principal
    {
    }
  }

  /** `Advance` moves each counter of a task as the recount over its records moves. */
  lemma AdvanceRecounts(env: Env, k: Task, rows: seq<Record>, r: Record, t: nat)
    requires k.counts == Tally(rows) && k.lastSeq == LastSeq(rows, t) && k.calls == CallsOf(rows)
    requires k.hosts == HostsOf(env, rows) && k.spend == SpendOf(rows)
    ensures var k' := Advance(env, k, r);
            && k'.agent == k.agent && k'.principal == k.principal
            && k'.counts == Tally(rows + [r]) && k'.lastSeq == LastSeq(rows + [r], t)
            && k'.calls == CallsOf(rows + [r]) && k'.hosts == HostsOf(env, rows + [r])
            && k'.spend == SpendOf(rows + [r])
  {
    RecountExtended(env, rows, r, t);
  }

  lemma NextTaskView(env: Env, s: VState, chain: seq<Record>, r: Record, t: int)
    requires t in s.tasks && Has(chain, t) && MirrorsTask(env, s.tasks[t], chain, t) && r.pos == |chain| + 1
    requires r.task.Dec? ==> !r.body.TaskStart?
    ensures t in NextTasks(env, s, r) && MirrorsTask(env, NextTasks(env, s, r)[t], chain + [r], t)
  {
    assert Has(chain + [r], t) && At(chain + [r], t) == At(chain, t);
    InTaskExtended(chain, r, t);
    AdvanceRecounts(env, s.tasks[t], InTask(chain, t), r, t);
  }

  lemma NextTaskViews(env: Env, s: VState, chain: seq<Record>, r: Record, s': VState)
    requires TasksNamed(chain) && MirrorsSeen(s, chain) && MirrorsTasks(env, s, chain)
    requires r.pos == |chain| + 1 && TaskCode(s, r) == Ok
    requires s'.tasks == NextTasks(env, s, r)
    ensures MirrorsTasks(env, s', chain + [r])
  {
    AtExtended(chain, r);
    var chain' := chain + [r];
    forall t | t in s'.tasks ensures Has(chain', t) && MirrorsTask(env, s'.tasks[t], chain', t) {
      if t in s.tasks {
        NextTaskView(env, s, chain, r, t);
      } else {
        InTaskExtended(chain, r, t);
        NotYetNamed(chain, t);
      }
    }
  }

  lemma NextEnded(env: Env, s: VState, chain: seq<Record>, r: Record, s': VState)
    requires MirrorsTasks(env, s, chain) && MirrorsEnded(s, chain) && MirrorsSeen(s, chain) && TasksNamed(chain)
    requires r.pos == |chain| + 1
    requires TaskCode(s, r) == Ok && ApprovalCode(env, s, r) == Ok && KindCode(env, s, r) == Ok
    requires s'.tasks == NextTasks(env, s, r)
    ensures MirrorsEnded(s', chain + [r])
  {
    EndTaskOpen(env, s, r);
    forall t | t in s'.tasks
      ensures s'.tasks[t].ended <==> TaskEnded(chain + [r], t)
      ensures s'.tasks[t].ended ==> s'.tasks[t].pending == {}
    {
      EndedLonger(chain, r, t);
      EndedMove(env, s, chain, r, t);
    }
  }

  lemma EndedLonger(chain: seq<Record>, r: Record, t: int)
    ensures TaskEnded(chain + [r], t) <==> TaskEnded(chain, t) || (r.body.TaskEnd? && Names(r.task, t))
  {
    AtExtended(chain, r);
    if TaskEnded(chain, t) {
      var n :| Has(chain, n) && At(chain, n).body.TaskEnd? && Names(At(chain, n).task, t);
      assert At(chain + [r], n) == At(chain, n);
    }
    assert At(chain + [r], |chain| + 1) == r;
  }

  /** A task that ends has no open approval. */
  lemma EndTaskOpen(env: Env, s: VState, r: Record)
    requires ApprovalCode(env, s, r) == Ok
    ensures r.body.TaskEnd? && TaskOf(s, r).Some? ==> TaskOf(s, r).value.pending == {}
  {
  }

  lemma EndedMove(env: Env, s: VState, chain: seq<Record>, r: Record, t: int)
    requires MirrorsTasks(env, s, chain) && MirrorsEnded(s, chain) && TasksNamed(chain) && r.pos == |chain| + 1
    requires TaskCode(s, r) == Ok && t in NextTasks(env, s, r)
    requires r.body.TaskEnd? && TaskOf(s, r).Some? ==> TaskOf(s, r).value.pending == {}
    ensures NextTasks(env, s, r)[t].ended <==> TaskEnded(chain, t) || (r.body.TaskEnd? && Names(r.task, t))
    ensures NextTasks(env, s, r)[t].ended ==> NextTasks(env, s, r)[t].pending == {}
  {
    hide MirrorsTask, Tallied, NextCalls, NextHosts, NextSpend;
  }

  /** A record that passes fails no single check. */
  lemma VerifyParts(env: Env, s: VState, r: Record)
    requires Verify(env, s, r) == Ok
    ensures ParentCode(env, s, r) == Ok && RulepackCode(s, r) == Ok && CostCode(env, r) == Ok
    ensures TaskCode(s, r) == Ok && ApprovalCode(env, s, r) == Ok && KindCode(env, s, r) == Ok
    ensures TaskOf(s, r).Some? ==> BudgetCode(env, s, TaskOf(s, r).value, r) == Ok
  {
  }

  // What acceptance of an approval record, or of a call that cites one, says.

  lemma RequestFacts(env: Env, s: VState, r: Record)
    requires ApprovalCode(env, s, r) == Ok && r.body.ApprovalRequest?
    ensures r.body.aid !in s.requests && TaskOf(s, r).Some?
  {
  }

  lemma DecisionFacts(env: Env, s: VState, r: Record)
    requires ApprovalCode(env, s, r) == Ok && r.body.ApprovalDecision?
    ensures r.body.aid in s.requests && r.body.aid !in s.decided
    ensures s.requests[r.body.aid].pos < r.pos ==> Answers(r, s.requests[r.body.aid])
  {
  }

  lemma CiteFacts(env: Env, s: VState, r: Record)
    requires ApprovalCode(env, s, r) == Ok && r.body.ToolCall? && !r.body.approvalSeq.NoInt?
    ensures Cited(s, r.body).Some? && CiteFits(env, r, Cited(s, r.body).value) && !Cited(s, r.body).value.used
  {
  }

  lemma NextRequestsMirror(env: Env, s: VState, chain: seq<Record>, r: Record, s': VState)
    requires MirrorsRequests(s, chain) && r.pos == |chain| + 1
    requires ApprovalCode(env, s, r) == Ok
    requires s'.requests == NextRequests(s, r) && s.tasks.Keys <= s'.tasks.Keys
    ensures MirrorsRequests(s', chain + [r])
  {
    AtExtended(chain, r);
    if r.body.ApprovalRequest? {
      RequestFacts(env, s, r);
      assert forall aid | aid in s'.requests :: aid == r.body.aid || aid in s.requests;
    }
  }

  lemma NextDecisionsMirror(env: Env, s: VState, chain: seq<Record>, r: Record, s': VState)
    requires MirrorsRequests(s, chain) && MirrorsDecisions(s, chain) && r.pos == |chain| + 1
    requires Sequenced(chain)
    requires ApprovalCode(env, s, r) == Ok
    requires s'.requests == NextRequests(s, r) && s'.decided == NextDecided(s, r)
    requires s'.decisions == NextDecisions(s, r)
    ensures MirrorsDecisions(s', chain + [r])
  {
    if r.body.ApprovalDecision? {
      DecisionFacts(env, s, r);
      assert Has(chain, s.requests[r.body.aid].pos);
      hide ApprovalCode, MirrorsDecisions, MirrorsRequests, Answers;
      DecisionAdded(s, s', chain, r);
    } else {
      DecisionsSame(env, s, r);
      hide ApprovalCode, MirrorsDecisions, MirrorsRequests, RequestOf, NextDecisions, NextRequests;
      DecisionsKept(s, s', chain, r);
    }
  }

  /** A record that decides nothing changes no decision but for its use, and no request. */
  lemma DecisionsSame(env: Env, s: VState, r: Record)
    requires ApprovalCode(env, s, r) == Ok && !r.body.ApprovalDecision?
    ensures NextDecided(s, r) == s.decided
    ensures forall d :: d in NextDecisions(s, r) <==> d in s.decisions
    ensures forall d | d in s.decisions ::
              && NextDecisions(s, r)[d].req == s.decisions[d].req
              && NextDecisions(s, r)[d].outcome == s.decisions[d].outcome
    ensures forall aid | aid in s.requests :: aid in NextRequests(s, r) && NextRequests(s, r)[aid] == s.requests[aid]
  {
    if r.body.ApprovalRequest? {
      RequestFacts(env, s, r);
    }
    hide ApprovalCode, RequestOf;
  }

  lemma DecisionAdded(s: VState, s': VState, chain: seq<Record>, r: Record)
    requires MirrorsDecisions(s, chain) && r.pos == |chain| + 1 && r.body.ApprovalDecision?
    requires r.body.aid in s.requests && r.body.aid !in s.decided && Answers(r, s.requests[r.body.aid])
    requires s'.requests == s.requests && s'.decided == s.decided[r.body.aid := r.pos]
    requires s'.decisions == s.decisions[r.pos := Decided(s.requests[r.body.aid], r.body.outcome, false)]
    ensures MirrorsDecisions(s', chain + [r])
  {
    AtExtended(chain, r);
  }

  lemma DecisionsKept(s: VState, s': VState, chain: seq<Record>, r: Record)
    requires MirrorsDecisions(s, chain) && r.pos == |chain| + 1 && !r.body.ApprovalDecision?
    requires s'.decided == s.decided
    requires forall d :: d in s'.decisions <==> d in s.decisions
    requires forall d | d in s.decisions ::
               s'.decisions[d].req == s.decisions[d].req && s'.decisions[d].outcome == s.decisions[d].outcome
    requires forall aid | aid in s.requests :: aid in s'.requests && s'.requests[aid] == s.requests[aid]
    ensures MirrorsDecisions(s', chain + [r])
  {
    AtExtended(chain, r);
  }

  lemma NextUsed(env: Env, s: VState, chain: seq<Record>, r: Record, s': VState)
    requires MirrorsDecisions(s, chain) && MirrorsUsed(s, chain) && r.pos == |chain| + 1
    requires ApprovalCode(env, s, r) == Ok
    requires s'.decisions == NextDecisions(s, r)
    ensures MirrorsUsed(s', chain + [r])
  {
    if r.body.ToolCall? && !r.body.approvalSeq.NoInt? {
      CiteFacts(env, s, r);
      hide ApprovalCode, CiteFits, MirrorsUsed, MirrorsDecisions;
      CitationAdded(env, s, s', chain, r, r.body.approvalSeq.i);
    } else {
      UsedKept(s, s', chain, r);
    }
  }

  lemma UsedExtended(chain: seq<Record>, r: Record, d: int)
    ensures ApprovalUsed(chain + [r], d) <==> ApprovalUsed(chain, d) || Cites(r, d)
  {
    AtExtended(chain, r);
    if ApprovalUsed(chain, d) {
      var n :| Has(chain, n) && Cites(At(chain, n), d);
      assert Cites(At(chain + [r], n), d);
    }
    if Cites(r, d) {
      assert Cites(At(chain + [r], |chain| + 1), d);
    }
  }

  lemma UsedKept(s: VState, s': VState, chain: seq<Record>, r: Record)
    requires MirrorsUsed(s, chain) && r.pos == |chain| + 1
    requires r.body.ToolCall? ==> r.body.approvalSeq.NoInt?
    requires forall d | d in s.decisions :: Has(chain, d) && d in s'.decisions && s'.decisions[d] == s.decisions[d]
    requires forall d | d in s'.decisions && d !in s.decisions :: d == r.pos && !s'.decisions[d].used
    ensures MirrorsUsed(s', chain + [r])
  {
    AtExtended(chain, r);
    forall d | d in s'.decisions ensures s'.decisions[d].used <==> ApprovalUsed(chain + [r], d) {
      UsedExtended(chain, r, d);
    }
  }

  lemma CitationAdded(env: Env, s: VState, s': VState, chain: seq<Record>, r: Record, d: int)
    requires MirrorsDecisions(s, chain) && MirrorsUsed(s, chain) && r.pos == |chain| + 1
    requires r.body.ToolCall? && Cites(r, d) && d in s.decisions && !s.decisions[d].used
    requires CiteFits(env, r, s.decisions[d])
    requires s'.decisions == s.decisions[d := s.decisions[d].(used := true)]
    ensures MirrorsUsed(s', chain + [r])
  {
    CitedAnswered(env, s, chain, r, d);
    hide CiteFits, CallAnswered, Answers, ApprovalUsed, EachCitedOnce, CitesAnswered;
    assert !ApprovalUsed(chain, d);
    forall e | e in s'.decisions ensures s'.decisions[e].used <==> ApprovalUsed(chain + [r], e) {
      UsedExtended(chain, r, e);
    }
    CitesLonger(s, s', chain, r, d);
    CitesOnce(chain, r, d);
  }

  lemma CitesLonger(s: VState, s': VState, chain: seq<Record>, r: Record, d: int)
    requires CitesAnswered(s, chain) && r.body.ToolCall? && Cites(r, d) && d in s.decisions
    requires Has(chain, d) && At(chain, d).body.ApprovalDecision? && CallAnswered(r, At(chain, d), s.decisions[d].req)
    requires s'.decisions == s.decisions[d := s.decisions[d].(used := true)]
    ensures CitesAnswered(s', chain + [r])
  {
    hide CallAnswered;
    AtExtended(chain, r);
  }

  ghost predicate EachCitedOnce(chain: seq<Record>) {
    forall m, n, d | Has(chain, m) && Has(chain, n) && Cites(At(chain, m), d) && Cites(At(chain, n), d) :: m == n
  }

  /** A record that cites what no record cites leaves every decision cited at most once. */
  lemma CitesOnce(chain: seq<Record>, r: Record, d: int)
    requires EachCitedOnce(chain) && Cites(r, d) && !ApprovalUsed(chain, d)
    ensures EachCitedOnce(chain + [r])
  {
    AtExtended(chain, r);
  }

  lemma CitedAnswered(env: Env, s: VState, chain: seq<Record>, r: Record, d: int)
    requires MirrorsDecisions(s, chain) && r.body.ToolCall? && d in s.decisions && CiteFits(env, r, s.decisions[d])
    ensures CallAnswered(r, At(chain, d), s.decisions[d].req)
  {
    hide Answers, ConfirmHit;
  }

  lemma NextPendingMirror(env: Env, s: VState, chain: seq<Record>, r: Record, s': VState)
    requires MirrorsRequests(s, chain) && MirrorsDecisions(s, chain) && MirrorsPending(s) && r.pos == |chain| + 1
    requires MirrorsTasks(env, s, chain)
    requires ApprovalCode(env, s, r) == Ok
    requires s'.requests == NextRequests(s, r) && s'.decided == NextDecided(s, r)
    requires s'.tasks == NextTasks(env, s, r)
    ensures MirrorsPending(s')
  {
    forall t, aid | t in s'.tasks
      ensures aid in s'.tasks[t].pending
              <==> aid in s'.requests && Names(s'.requests[aid].task, t) && aid !in s'.decided
    {
      if t !in s.tasks {
        assert r.body.TaskStart? && t == r.pos;
        assert aid in s.requests ==> s.requests[aid].task.n in s.tasks;
      } else {
        assert t != r.pos;
        PendingStep(env, s, r, t, aid);
      }
    }
  }

  lemma PendingStep(env: Env, s: VState, r: Record, t: int, aid: string)
    requires t in s.tasks && t != r.pos
    requires ApprovalCode(env, s, r) == Ok
    requires aid in s.tasks[t].pending <==> aid in s.requests && Names(s.requests[aid].task, t) && aid !in s.decided
    requires forall a | a in s.decided :: a in s.requests
    ensures aid in NextTasks(env, s, r)[t].pending
            <==> && aid in NextRequests(s, r) && Names(NextRequests(s, r)[aid].task, t)
                 && aid !in NextDecided(s, r)
  {
    assert NextTasks(env, s, r)[t].pending
           == if Names(r.task, t) && !r.body.TaskStart? then NextPending(s.tasks[t].pending, r)
              else s.tasks[t].pending;
    if r.body.ApprovalRequest? {
      RequestFacts(env, s, r);
    } else if r.body.ApprovalDecision? {
      assert DecisionCode(s, r) == Ok;
    }
  }

  lemma NextRest(env: Env, s: VState, chain: seq<Record>, r: Record)
    requires MirrorsRest(s, chain) && RulepackCode(s, r) == Ok
    ensures MirrorsRest(Next(env, s, r), chain + [r])
  {
    AtExtended(chain, r);
    var chain', s' := chain + [r], Next(env, s, r);
    forall p ensures p in s'.resultParents <==> HasResult(chain', p) {
      if HasResult(chain, p) {
        var n :| Has(chain, n) && At(chain, n).body.ToolResult? && Names(At(chain, n).parent, p);
        assert Has(chain', n) && At(chain', n) == At(chain, n);
      }
      assert Has(chain', |chain| + 1) && At(chain', |chain| + 1) == r;
    }
  }

  lemma NextMirrors(env: Env, s: VState, chain: seq<Record>, r: Record)
    requires Mirrors(env, s, chain) && r.pos == |chain| + 1 && Verify(env, s, r) == Ok
    ensures Mirrors(env, Next(env, s, r), chain + [r])
  {
    VerifyParts(env, s, r);
    var s' := Next(env, s, r);
    NextSeen(env, s, chain, r);
    NextTaskViews(env, s, chain, r, s');
    NextEnded(env, s, chain, r, s');
    NextRequestsMirror(env, s, chain, r, s');
    NextDecisionsMirror(env, s, chain, r, s');
    NextUsed(env, s, chain, r, s');
    NextPendingMirror(env, s, chain, r, s');
    NextRest(env, s, chain, r);
  }

  /** A chain is accepted when its front is and its last record passes. */
  lemma RunStep(env: Env, chain: seq<Record>, r: Record)
    ensures Accepted(env, chain + [r])
            <==> Accepted(env, chain) && r.pos == |chain| + 1 && Verify(env, StateAfter(env, chain), r) == Ok
    ensures Accepted(env, chain + [r])
            ==> StateAfter(env, chain + [r]) == Next(env, StateAfter(env, chain), r)
  {
    assert (chain + [r])[..|chain|] == chain;
  }

  /** The verifier's incremental state is the recount of the chain it has accepted. */
  lemma {:induction false} StateIsRecount(env: Env, chain: seq<Record>)
    requires Accepted(env, chain)
    ensures Mirrors(env, StateAfter(env, chain), chain)
  {
    hide Verify, Next, Mirrors, Run, Accepted, StateAfter, Init;
    if chain == [] {
      EmptyMirrors(env);
    } else {
      var front, r := chain[..|chain| - 1], chain[|chain| - 1];
      RunStep(env, front, r);
      assert front + [r] == chain;
      StateIsRecount(env, front);
      NextMirrors(env, StateAfter(env, front), front, r);
    }
  }

  lemma {:induction false} PrefixAccepted(env: Env, chain: seq<Record>, k: nat)
    requires Accepted(env, chain) && k <= |chain|
    ensures Accepted(env, chain[..k])
  {
    hide Verify, Next;
    if k < |chain| {
      var front := chain[..|chain| - 1];
      RunStep(env, front, chain[|chain| - 1]);
      assert front + [chain[|chain| - 1]] == chain && front[..k] == chain[..k];
      PrefixAccepted(env, front, k);
    } else {
      assert chain[..k] == chain;
    }
  }

  /** Record n passed after the n - 1 records before it, and the state it met was their recount. */
  lemma PassedAt(env: Env, chain: seq<Record>, n: int)
    requires Accepted(env, chain) && Has(chain, n)
    ensures Accepted(env, chain[..n - 1]) && Verify(env, StateAfter(env, chain[..n - 1]), At(chain, n)) == Ok
    ensures Mirrors(env, StateAfter(env, chain[..n - 1]), chain[..n - 1])
    ensures At(chain, n).pos == n
  {
    assert |chain[..n - 1]| == n - 1;
    hide Verify, Next, Mirrors, Run, Accepted, StateAfter;
    PrefixAccepted(env, chain, n);
    assert chain[..n] == chain[..n - 1] + [At(chain, n)];
    RunStep(env, chain[..n - 1], At(chain, n));
    StateIsRecount(env, chain[..n - 1]);
  }

  lemma EmptyMirrors(env: Env)
    ensures StateAfter(env, []) == Init() && Mirrors(env, Init(), [])
  {
  }
}
