/** The life of an approval over every run of the ledger: whatever the interleaving of `decide` calls, timers, task
    ends and restarts, and whatever the clock reads (sijill/approvals.py). */
module ApprovalRuns {
  import opened Records
  import opened Checks
  import opened Store
  import opened Budgets
  import opened Writer
  import opened Runs
  import opened ChainFacts
  import opened Guarantees

  ghost predicate RequestsHeld(w: WState) {
    && (forall n | Has(w.store, n) && At(w.store, n).body.ApprovalRequest? ::
          At(w.store, n).body.aid in w.approvals && w.approvals[At(w.store, n).body.aid].request == At(w.store, n))
    && (forall aid | aid in w.approvals ::
          var p := w.approvals[aid];
          && Has(w.store, p.request.pos) && At(w.store, p.request.pos) == p.request
          && p.request.body.ApprovalRequest? && p.request.body.aid == aid && p.request.task.Dec?
          && p.deadline == p.request.ts + p.request.body.timeoutMs)
  }

  /** The decision record answers the pending request, on its side of the deadline. */
  ghost predicate Answered(r: Record, p: Pending)
    requires r.body.ApprovalDecision? && p.request.body.ApprovalRequest?
  {
    && r.parent == Dec(p.request.pos) && r.task == p.request.task && r.inputHash == p.request.inputHash
    && p.request.pos < r.pos
    && (match r.body.outcome
        case Grant => r.ts < p.deadline && NamedApprover(r, p.request)
        case Refusal => r.ts < p.deadline && NamedApprover(r, p.request)
        case Timeout => r.ts >= p.deadline
        case OtherOutcome => false)
  }

  ghost predicate DecisionsHeld(w: WState)
    requires RequestsHeld(w)
  {
    && (forall d | Has(w.store, d) && At(w.store, d).body.ApprovalDecision? ::
          var aid := At(w.store, d).body.aid;
          && aid in w.approvals && w.approvals[aid].outcome == Some(At(w.store, d).body.outcome)
          && w.approvals[aid].decisionSeq == d && Answered(At(w.store, d), w.approvals[aid]))
    && (forall aid | aid in w.approvals && w.approvals[aid].outcome.Some? ::
          var d := w.approvals[aid].decisionSeq;
          Has(w.store, d) && At(w.store, d).body.ApprovalDecision? && At(w.store, d).body.aid == aid)
  }

  /** A task_end is the last record of its task and leaves no request of it pending. */
  ghost predicate EndsClosed(w: WState) {
    forall n | Has(w.store, n) && At(w.store, n).body.TaskEnd? && At(w.store, n).task.Dec? ::
      && (forall m | Has(w.store, m) && At(w.store, m).task == At(w.store, n).task :: m <= n)
      && (forall aid | aid in w.approvals && w.approvals[aid].request.task == At(w.store, n).task ::
            w.approvals[aid].outcome.Some?)
  }

  ghost predicate Held(w: WState) {
    RequestsHeld(w) && DecisionsHeld(w) && EndsClosed(w)
  }

  lemma EndedIff(chain: seq<Record>, t: int)
    ensures Ended(chain, t) <==> TaskEnded(chain, t)
  {
    if TaskEnded(chain, t) {
      var n :| Has(chain, n) && At(chain, n).body.TaskEnd? && Names(At(chain, n).task, t);
      assert chain[n - 1].body.TaskEnd?;
    }
    if Ended(chain, t) {
      var i :| 0 <= i < |chain| && chain[i].body.TaskEnd? && Names(chain[i].task, t);
      assert Has(chain, i + 1) && At(chain, i + 1) == chain[i];
    }
  }

  // ---- which event seals which record ----

  /** Only `decide` and the timer write into a task without checking that it is open. */
  lemma DraftInOpenTask(env: Env, w: WState, ev: Event)
    requires DraftOf(env, w, ev).Sealing? && DraftOf(env, w, ev).r.task.Dec?
    ensures DraftOf(env, w, ev).r.body.ApprovalDecision? || !Ended(w.store, DraftOf(env, w, ev).r.task.n)
  {
  }

  lemma ActKinds(env: Env, w: WState, ev: Event)
    requires ev.Act? && ActDraft(env, w, ev).Sealing?
    ensures Sealable(ActDraft(env, w, ev).r.body)
  {
  }

  lemma RequestFromAsk(env: Env, w: WState, ev: Event)
    requires DraftOf(env, w, ev).Sealing? && DraftOf(env, w, ev).r.body.ApprovalRequest?
    ensures ev.Ask? && DraftOf(env, w, ev).r.body.aid == ev.aid && DraftOf(env, w, ev).r.task == Dec(ev.task)
    ensures DraftOf(env, w, ev).r.ts == ev.ts && DraftOf(env, w, ev).r.body.timeoutMs == ev.timeoutMs
  {
    if ev.Act? {
      ActKinds(env, w, ev);
    }
  }

  lemma DecisionFromApprovals(env: Env, w: WState, ev: Event)
    requires RequestsHeld(w)
    requires DraftOf(env, w, ev).Sealing? && DraftOf(env, w, ev).r.body.ApprovalDecision?
    ensures var r := DraftOf(env, w, ev).r;
            && r.body.aid in w.approvals && w.approvals[r.body.aid].outcome.None?
            && Answered(r.(pos := |w.store| + 1), w.approvals[r.body.aid])
            && r.task.Dec?
  {
    if ev.Act? {
      ActKinds(env, w, ev);
    } else {
      assert ev.Decide? || ev.Expire?;
      assert Has(w.store, w.approvals[ev.aid].request.pos);
    }
  }

  lemma EndFromEndTask(env: Env, w: WState, ev: Event)
    requires DraftOf(env, w, ev).Sealing? && DraftOf(env, w, ev).r.body.TaskEnd?
    ensures ev.EndTask? && DraftOf(env, w, ev).r.task == Dec(ev.task) && !PendingIn(w, ev.task)
  {
    if ev.Act? {
      ActKinds(env, w, ev);
    }
  }

  // ---- one more record ----

  lemma CommitRequests(w: WState, r: Record)
    requires RequestsHeld(w) && r.pos == |w.store| + 1
    requires r.body.ApprovalRequest? ==> r.body.aid !in w.approvals && r.task.Dec?
    ensures RequestsHeld(Commit(w, r))
  {
    hide NextAgents, RequestsHeld;
    if r.body.ApprovalRequest? {
      CommitRequest(w, r);
    } else {
      CommitOther(w, r);
    }
  }

  lemma CommitRequest(w: WState, r: Record)
    requires RequestsHeld(w) && r.pos == |w.store| + 1
    requires r.body.ApprovalRequest? && r.body.aid !in w.approvals && r.task.Dec?
    ensures RequestsHeld(Commit(w, r))
  {
    hide NextAgents;
    AtExtended(w.store, r);
    assert Commit(w, r).approvals == w.approvals[r.body.aid := Pending(r, r.ts + r.body.timeoutMs, None, 0)];
  }

  /** No other record changes what was asked. */
  lemma CommitOther(w: WState, r: Record)
    requires RequestsHeld(w) && r.pos == |w.store| + 1 && !r.body.ApprovalRequest?
    ensures RequestsHeld(Commit(w, r))
  {
    hide NextAgents, ApplyApproval;
    AtExtended(w.store, r);
    SameAsked(w.approvals, r);
  }

  lemma SameAsked(items: map<string, Pending>, r: Record)
    requires !r.body.ApprovalRequest?
    ensures ApplyApproval(items, r).Keys == items.Keys
    ensures forall aid | aid in items :: ApplyApproval(items, r)[aid].request == items[aid].request
                                         && ApplyApproval(items, r)[aid].deadline == items[aid].deadline
  {
  }

  lemma CommitDecisions(w: WState, r: Record)
    requires RequestsHeld(w) && RequestsHeld(Commit(w, r)) && DecisionsHeld(w) && r.pos == |w.store| + 1
    requires r.body.ApprovalRequest? ==> r.body.aid !in w.approvals
    requires r.body.ApprovalDecision? ==>
               && r.body.aid in w.approvals && w.approvals[r.body.aid].outcome.None?
               && Answered(r, w.approvals[r.body.aid])
    ensures DecisionsHeld(Commit(w, r))
  {
    if r.body.ApprovalDecision? {
      DecisionCommitted(w, r);
    } else {
      AtExtended(w.store, r);
      var items := ApplyApproval(w.approvals, r);
      assert forall aid | aid in w.approvals :: aid in items && items[aid] == w.approvals[aid];
    }
  }

  lemma DecisionCommitted(w: WState, r: Record)
    requires RequestsHeld(w) && RequestsHeld(Commit(w, r)) && DecisionsHeld(w) && r.pos == |w.store| + 1
    requires r.body.ApprovalDecision? && r.body.aid in w.approvals && w.approvals[r.body.aid].outcome.None?
    requires Answered(r, w.approvals[r.body.aid])
    ensures DecisionsHeld(Commit(w, r))
  {
    hide NextAgents, RequestsHeld, NamedApprover;
    AtExtended(w.store, r);
    var p := w.approvals[r.body.aid];
    var p' := p.(outcome := Some(r.body.outcome), decisionSeq := r.pos);
    assert Commit(w, r).approvals == w.approvals[r.body.aid := p'];
    RequestsAsk(w);
    assert Answered(r, p');
    AnsweredSame(w, r);
    hide Answered;
  }

  lemma RequestsAsk(w: WState)
    requires RequestsHeld(w)
    ensures forall aid | aid in w.approvals :: w.approvals[aid].request.body.ApprovalRequest?
  {
  }

  /** Whether a decision answers a request does not depend on what else was decided. */
  lemma AnsweredSame(w: WState, r: Record)
    requires RequestsHeld(w) && r.body.ApprovalDecision?
    ensures forall d: Record, aid | d.body.ApprovalDecision? && aid in w.approvals ::
              && aid in Commit(w, r).approvals && Commit(w, r).approvals[aid].request == w.approvals[aid].request
              && (Answered(d, w.approvals[aid]) <==> Answered(d, Commit(w, r).approvals[aid]))
  {
    hide NamedApprover, NextAgents;
  }

  lemma CommitEnds(w: WState, r: Record)
    requires RequestsHeld(w) && EndsClosed(w) && r.pos == |w.store| + 1
    requires r.body.ApprovalRequest? ==> r.body.aid !in w.approvals
    requires r.task.Dec? ==> !TaskEnded(w.store, r.task.n)
    requires r.body.TaskEnd? ==> !r.task.Dec? || !PendingIn(w, r.task.n)
    ensures EndsClosed(Commit(w, r))
  {
    AtExtended(w.store, r);
    var w' := Commit(w, r);
    forall n | Has(w'.store, n) && At(w'.store, n).body.TaskEnd? && At(w'.store, n).task.Dec?
      ensures forall m | Has(w'.store, m) && At(w'.store, m).task == At(w'.store, n).task :: m <= n
      ensures forall aid | aid in w'.approvals && w'.approvals[aid].request.task == At(w'.store, n).task ::
                w'.approvals[aid].outcome.Some?
    {
      if n <= |w.store| {
        assert At(w.store, n) == At(w'.store, n);
        assert r.task != At(w.store, n).task;
      } else {
        assert forall aid | aid in w.approvals && w.approvals[aid].request.task == r.task ::
            Names(w.approvals[aid].request.task, r.task.n);
      }
    }
  }

  /** A pending request's task is open. */
  lemma PendingTaskOpen(w: WState, aid: string)
    requires RequestsHeld(w) && EndsClosed(w) && aid in w.approvals && w.approvals[aid].outcome.None?
    ensures !TaskEnded(w.store, w.approvals[aid].request.task.n)
  {
  }

  lemma StepHolds(env: Env, w: WState, ev: Event)
    requires MemoryIs(w) && Held(w) && Shaped(w, ev)
    ensures Held(Step(env, w, ev))
  {
    hide DraftOf, Loaded, SealedBy, Step, Stamped, Held, Foldable;
    HeldLoaded(w, ev);
    LoadedMemory(w, ev);
    StepSealsNothing(env, w, ev);
    if SealedBy(env, w, ev).Some? {
      SealedIs(env, w, ev);
      DraftFits(env, w, ev);
      FitsNumbered(w, Loaded(w, ev), DraftOf(env, w, ev).r, SealedBy(env, w, ev).value);
      HeldCommit(Loaded(w, ev), SealedBy(env, w, ev).value);
    }
  }

  /** What a record must meet to be folded into the approvals of a state. */
  ghost predicate Foldable(w: WState, r: Record) {
    && (r.body.ApprovalRequest? ==> r.body.aid !in w.approvals && r.task.Dec?)
    && (r.body.ApprovalDecision? ==>
          && r.body.aid in w.approvals && w.approvals[r.body.aid].outcome.None?
          && w.approvals[r.body.aid].request.body.ApprovalRequest?
          && Answered(r.(pos := |w.store| + 1), w.approvals[r.body.aid]))
    && (r.task.Dec? ==> !TaskEnded(w.store, r.task.n))
    && (r.body.TaskEnd? ==> !r.task.Dec? || !PendingIn(w, r.task.n))
  }

  lemma DraftFits(env: Env, w: WState, ev: Event)
    requires Held(w) && Shaped(w, ev) && DraftOf(env, w, ev).Sealing?
    ensures Foldable(w, DraftOf(env, w, ev).r)
  {
    hide DraftOf, TaskEnded, Ended, Answered;
    var d := DraftOf(env, w, ev).r;
    if d.body.ApprovalRequest? {
      RequestFromAsk(env, w, ev);
    } else if d.body.ApprovalDecision? {
      DecisionFromApprovals(env, w, ev);
    } else if d.body.TaskEnd? {
      EndFromEndTask(env, w, ev);
    }
    if d.task.Dec? {
      DraftInOpenTask(env, w, ev);
      EndedIff(w.store, d.task.n);
      if d.body.ApprovalDecision? {
        AnsweredTask(d.(pos := |w.store| + 1), w.approvals[d.body.aid]);
        PendingTaskOpen(w, d.body.aid);
      }
    }
  }

  lemma AnsweredTask(r: Record, p: Pending)
    requires r.body.ApprovalDecision? && p.request.body.ApprovalRequest? && Answered(r, p)
    ensures r.task == p.request.task
  {
  }

  lemma FitsNumbered(w: WState, w': WState, d: Record, r: Record)
    requires Foldable(w, d) && w'.store == w.store && w'.approvals == w.approvals
    requires r == d.(pos := |w.store| + 1, rulepack := r.rulepack)
    ensures Foldable(w', r)
  {
    hide TaskEnded;
  }

  lemma HeldLoaded(w: WState, ev: Event)
    requires MemoryIs(w) && Held(w)
    ensures Held(Loaded(w, ev))
  {
    hide Loaded;
    LoadedMemory(w, ev);
  }

  lemma StepSealsNothing(env: Env, w: WState, ev: Event)
    ensures SealedBy(env, w, ev).None? ==> Step(env, w, ev) == Loaded(w, ev)
  {
    hide SealedBy, Loaded;
  }

  lemma HeldCommit(w: WState, r: Record)
    requires Held(w) && r.pos == |w.store| + 1 && Foldable(w, r)
    ensures Held(Commit(w, r))
  {
    hide Answered, TaskEnded, PendingIn, Commit, RequestsHeld, DecisionsHeld, EndsClosed;
    assert r.(pos := |w.store| + 1) == r;
    CommitRequests(w, r);
    CommitDecisions(w, r);
    CommitEnds(w, r);
  }

  lemma {:induction false} RunHolds(env: Env, evs: seq<Event>)
    requires ShapedRun(env, evs)
    ensures Held(After(env, evs))
  {
    hide Step;
    if evs != [] {
      ShapedStep(env, evs);
      RunHolds(env, evs[..|evs| - 1]);
      RestartInvisible(env, evs[..|evs| - 1]);
      StepHolds(env, After(env, evs[..|evs| - 1]), evs[|evs| - 1]);
    }
  }

  lemma HeldDecides(w: WState, d: int)
    requires RequestsHeld(w) && DecisionsHeld(w) && Has(w.store, d) && At(w.store, d).body.ApprovalDecision?
    requires Sequenced(w.store)
    ensures At(w.store, d).parent.Dec? && Decides(w.store, d, At(w.store, d).parent.n)
    ensures w.approvals[At(w.store, d).body.aid].decisionSeq == d
    ensures At(w.store, d).parent.n == w.approvals[At(w.store, d).body.aid].request.pos
  {
    assert Answered(At(w.store, d), w.approvals[At(w.store, d).body.aid]);
  }

  lemma HeldDecided(w: WState, q: int) returns (d: int)
    requires RequestsHeld(w) && DecisionsHeld(w) && Has(w.store, q) && At(w.store, q).body.ApprovalRequest?
    requires w.approvals[At(w.store, q).body.aid].outcome.Some? && Sequenced(w.store)
    ensures Decides(w.store, d, q)
  {
    d := w.approvals[At(w.store, q).body.aid].decisionSeq;
    HeldDecides(w, d);
  }

  lemma {:induction false} RunSequenced(env: Env, evs: seq<Event>)
    ensures Sequenced(After(env, evs).store)
  {
    hide Step;
    if evs != [] {
      var w, ev := After(env, evs[..|evs| - 1]), evs[|evs| - 1];
      RunSequenced(env, evs[..|evs| - 1]);
      RestartInvisible(env, evs[..|evs| - 1]);
      StepRemembers(env, w, ev);
      if SealedBy(env, w, ev).Some? {
        SealedIs(env, w, ev);
        AtExtended(w.store, SealedBy(env, w, ev).value);
      }
    }
  }

  /** In every run each decision answers one request in time, and no request has two. */
  lemma {:induction false} OneDecisionEver(env: Env, evs: seq<Event>)
    requires ShapedRun(env, evs)
    ensures var chain := After(env, evs).store;
            && (forall d | Has(chain, d) && At(chain, d).body.ApprovalDecision? ::
                  At(chain, d).parent.Dec? && Decides(chain, d, At(chain, d).parent.n))
            && (forall d, e, q | Decides(chain, d, q) && Decides(chain, e, q) :: d == e)
  {
    RunHolds(env, evs);
    RunSequenced(env, evs);
    var w := After(env, evs);
    hide After;
    forall d | Has(w.store, d) && At(w.store, d).body.ApprovalDecision?
      ensures At(w.store, d).parent.Dec? && Decides(w.store, d, At(w.store, d).parent.n)
    {
      HeldDecides(w, d);
    }
    forall d, e, q | Decides(w.store, d, q) && Decides(w.store, e, q) ensures d == e {
      HeldDecides(w, d);
      HeldDecides(w, e);
    }
  }

  /** In every run a task_end is the last record of its task, and every approval asked for in the task was decided
      before it. */
  lemma {:induction false} EndsAfterDecisions(env: Env, evs: seq<Event>, n: int, m: int)
    requires ShapedRun(env, evs)
    requires var chain := After(env, evs).store;
             && Has(chain, n) && Has(chain, m) && At(chain, n).body.TaskEnd? && At(chain, n).task.Dec?
             && At(chain, m).task == At(chain, n).task
    ensures m <= n
    ensures At(After(env, evs).store, m).body.ApprovalRequest? ==> exists d :: d < n && Decides(After(env, evs).store, d, m)
  {
    RunHolds(env, evs);
    RunSequenced(env, evs);
    var w := After(env, evs);
    hide After;
    HeldEnds(w, n, m);
  }

  lemma HeldEnds(w: WState, n: int, m: int)
    requires Held(w) && Sequenced(w.store)
    requires Has(w.store, n) && Has(w.store, m) && At(w.store, n).body.TaskEnd? && At(w.store, n).task.Dec?
    requires At(w.store, m).task == At(w.store, n).task
    ensures m <= n
    ensures At(w.store, m).body.ApprovalRequest? ==> exists d :: d < n && Decides(w.store, d, m)
  {
    if At(w.store, m).body.ApprovalRequest? {
      assert w.approvals[At(w.store, m).body.aid].request.task == At(w.store, n).task;
      var d := HeldDecided(w, m);
      assert d < n && Decides(w.store, d, m);
    }
  }
}
