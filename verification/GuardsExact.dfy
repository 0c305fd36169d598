/** The ledger's guards are exact: what they read from memory and from the store's queries is the same as asking the
    records, and they refuse no more than the verifier's own conditions say. */
module GuardsExact {
  import opened Records
  import opened Checks
  import opened Store
  import opened ChainFacts
  import opened Guarantees
  import opened Budgets
  import opened Writer
  import opened Runs
  import opened ApprovalRuns
  import opened ToolUseRuns
  import opened Refinement
  import opened Reference

  // ---- approvals.py ----

  /** Record q asks for this approval, and no record decides it. */
  ghost predicate OpenRequest(chain: seq<Record>, aid: string, q: int) {
    && Has(chain, q) && At(chain, q).body.ApprovalRequest? && At(chain, q).body.aid == aid
    && forall d | Has(chain, d) && At(chain, d).body.ApprovalDecision? :: At(chain, d).body.aid != aid
  }

  /** The pending approvals in memory are the open requests of the chain. */
  lemma {:induction false} PendingIff(w: WState, aid: string)
    requires RequestsHeld(w) && DecisionsHeld(w) && Sequenced(w.store)
    ensures aid in w.approvals && w.approvals[aid].outcome.None? <==> exists q :: OpenRequest(w.store, aid, q)
    ensures forall q | OpenRequest(w.store, aid, q) ::
              w.approvals[aid].request == At(w.store, q)
              && w.approvals[aid].deadline == At(w.store, q).ts + At(w.store, q).body.timeoutMs
  {
    hide Answered;
    if aid in w.approvals && w.approvals[aid].outcome.None? {
      var q := w.approvals[aid].request.pos;
      assert OpenRequest(w.store, aid, q);
    }
  }

  /** `decide` seals exactly when the request is open, the deadline not reached, and the approver may answer. */
  lemma {:induction false} DecideIff(w: WState, ev: Event)
    requires RequestsHeld(w) && DecisionsHeld(w) && Sequenced(w.store) && ev.Decide?
    ensures DecideDraft(w, ev).Sealing? <==>
            exists q :: OpenRequest(w.store, ev.aid, q)
                        && var req := At(w.store, q);
                           && ev.ts < req.ts + req.body.timeoutMs && ev.approver.Human?
                           && AtLeast(ev.assurance, req.body.minAssurance)
                           && (req.body.sod ==> ev.approver != req.principal)
    ensures DecideDraft(w, ev).Sealing? ==>
              forall q | OpenRequest(w.store, ev.aid, q) ::
                var (mode, decision, outcome) := if ev.grant then (RecordOnly, Allow, Grant) else (Enforce, Block, Refusal);
                DecideDraft(w, ev).r
                == Answer(At(w.store, q), q, ev.ts, mode, decision, [],
                          ApprovalDecision(ev.aid, outcome, Some(ev.approver), Some(ev.assurance)))
  {
    PendingIff(w, ev.aid);
    hide RequestsHeld, DecisionsHeld;
    assert forall q | OpenRequest(w.store, ev.aid, q) :: At(w.store, q).pos == q;
    hide OpenRequest;
  }

  /** The record that answers request q: on its arguments, in its task, under its identity. */
  function Answer(req: Record, q: int, ts: int, mode: Mode, decision: Decision, hits: seq<Hit>, b: Body): Record
    requires q >= 0
  {
    Record(0, ts, mode, decision, hits, req.inputHash, Dec(q), req.task, "", req.agent, req.principal, "", b)
  }

  /** The timer seals exactly when the request is open and the deadline reached. */
  lemma {:induction false} ExpireIff(w: WState, ev: Event)
    requires RequestsHeld(w) && DecisionsHeld(w) && Sequenced(w.store) && ev.Expire?
    ensures ExpireDraft(w, ev).Sealing? <==>
            exists q :: OpenRequest(w.store, ev.aid, q) && ev.ts >= At(w.store, q).ts + At(w.store, q).body.timeoutMs
    ensures ExpireDraft(w, ev).Sealing? ==>
              forall q | OpenRequest(w.store, ev.aid, q) ::
                ExpireDraft(w, ev).r == Answer(At(w.store, q), q, ev.ts, Enforce, Block, [Rule("approval-timeout")],
                                               ApprovalDecision(ev.aid, Timeout, None, None))
  {
    PendingIff(w, ev.aid);
    hide RequestsHeld, DecisionsHeld;
    assert forall q | OpenRequest(w.store, ev.aid, q) :: At(w.store, q).pos == q;
    hide OpenRequest;
  }

  // ---- agents.py end_task ----

  /** A task ends exactly when it is open and every approval asked for in it is decided. */
  lemma {:induction false} EndTaskIff(w: WState, ev: Event)
    requires RequestsHeld(w) && DecisionsHeld(w) && Sequenced(w.store) && ev.EndTask?
    ensures EndDraft(w, ev).Sealing? <==>
            && Has(w.store, ev.task) && At(w.store, ev.task).body.TaskStart?
            && !TaskEnded(w.store, ev.task) && AllDecided(w.store, Dec(ev.task))
    ensures EndDraft(w, ev).Sealing? ==>
              var (start, rows) := (At(w.store, ev.task), InTask(w.store, ev.task));
              EndDraft(w, ev).r == Record(0, ev.ts, RecordOnly, Allow, [], "", Blank, Dec(ev.task), "", start.agent,
                                          start.principal, "", TaskEnd(Tally(rows), LastSeq(rows, ev.task)))
  {
    EndedIff(w.store, ev.task);
    NonePendingIff(w, ev.task);
    hide RequestsHeld, DecisionsHeld, AllDecided, Ended, TaskEnded, PendingIn, Tally, LastSeq;
  }

  lemma {:induction false} NonePendingIff(w: WState, t: nat)
    requires RequestsHeld(w) && DecisionsHeld(w) && Sequenced(w.store)
    ensures !PendingIn(w, t) <==> AllDecided(w.store, Dec(t))
  {
    forall q | Has(w.store, q) && At(w.store, q).body.ApprovalRequest?
      ensures w.approvals[At(w.store, q).body.aid].outcome.Some? <==> exists d :: AskedBy(w.store, d, q)
    {
      OutcomeIff(w, q);
    }
    hide DecisionsHeld, Answered, AskedBy;
    if PendingIn(w, t) {
      var aid :| aid in w.approvals && w.approvals[aid].outcome.None? && Names(w.approvals[aid].request.task, t);
      var q := w.approvals[aid].request.pos;
      assert Has(w.store, q) && At(w.store, q).task == Dec(t);
    }
    if !PendingIn(w, t) {
      forall q | Has(w.store, q) && At(w.store, q).body.ApprovalRequest? && At(w.store, q).task == Dec(t)
        ensures exists d :: AskedBy(w.store, d, q)
      {
        assert At(w.store, q).body.aid in w.approvals.Keys;
      }
    }
  }

  lemma {:induction false} OutcomeIff(w: WState, q: int)
    requires RequestsHeld(w) && DecisionsHeld(w) && Sequenced(w.store)
    requires Has(w.store, q) && At(w.store, q).body.ApprovalRequest?
    ensures w.approvals[At(w.store, q).body.aid].outcome.Some? <==> exists d :: AskedBy(w.store, d, q)
  {
    var aid := At(w.store, q).body.aid;
    if w.approvals[aid].outcome.Some? {
      var d := w.approvals[aid].decisionSeq;
      assert AskedBy(w.store, d, q);
    }
    if d :| AskedBy(w.store, d, q) {
      var aid' := At(w.store, d).body.aid;
      assert Answered(At(w.store, d), w.approvals[aid']) && w.approvals[aid'].request == At(w.store, q);
    }
  }

  // ---- agents.py check_parent, check_approval ----

  /** A use is left for the call: more uses that ask for it carry no taken id than earlier calls named none. */
  ghost predicate UseLeft(chain: seq<Record>, r: Record)
    requires r.body.ToolCall? && r.parent.Dec? && Has(chain, r.parent.n) && At(chain, r.parent.n).body.Inference?
  {
    var p, uses := r.parent.n, At(chain, r.parent.n).body.uses;
    var free := set i | 0 <= i < |uses| && MayServe(uses[i], r.inputHash, r.body.toolUseId)
                        && (uses[i].id.Some? ==> !IdTaken(chain, p, uses[i].id.value));
    |free| > |AnonymousCalls(chain, p, r.inputHash)|
  }

  lemma UseLeftIff(chain: seq<Record>, r: Record)
    requires r.body.ToolCall? && r.parent.Dec? && Has(chain, r.parent.n) && At(chain, r.parent.n).body.Inference?
    ensures UseLeft(chain, r) <==>
            var fits := Fits(At(chain, r.parent.n).body.uses, r.inputHash, r.body.toolUseId);
            var calls := Calls(chain, r.parent.n);
            |Untaken(fits, TakenIds(calls))| > Unnamed(calls, r.inputHash)
  {
    var p, uses := r.parent.n, At(chain, r.parent.n).body.uses;
    CallsAre(chain, p, r.inputHash);
    var taken := TakenIds(Calls(chain, p));
    FreeUsesAre(uses, r.inputHash, r.body.toolUseId, taken);
    hide TakenIds, IdTaken, MayServe;
    assert FreeUses(uses, r.inputHash, r.body.toolUseId, taken)
           == set i | 0 <= i < |uses| && MayServe(uses[i], r.inputHash, r.body.toolUseId)
                      && (uses[i].id.Some? ==> !IdTaken(chain, p, uses[i].id.value));
  }

  /** `check_parent` refuses exactly what the verifier would refuse of the parent, a parent in another task, and a
      call for which no tool_use is left. */
  lemma {:induction false} ParentRefusalIff(env: Env, chain: seq<Record>, r: Record)
    requires r.parent.Dec? && (r.body.ToolCall? || r.body.ToolResult? || r.body.Egress? || r.body.IntegrityDrift?)
    ensures ParentRefusal(chain, r) == 0 <==>
            && SoundParent(env, chain, r)
            && (!r.body.IntegrityDrift? ==> At(chain, r.parent.n).task == r.task)
            && (r.body.ToolCall? ==> UseLeft(chain, r))
  {
    if Has(chain, r.parent.n) {
      ResultIff(chain, r.parent.n);
      if r.body.ToolCall? && At(chain, r.parent.n).body.Inference? {
        FitsAny(At(chain, r.parent.n).body.uses, r);
        UseLeftIff(chain, r);
      }
    }
    hide UseLeft, HasResult, HasResultFor, Untaken, Unnamed, Calls, TakenIds, Fits;
  }

  lemma {:induction false} FitsAny(uses: seq<ToolUse>, r: Record)
    requires r.body.ToolCall?
    ensures Fits(uses, r.inputHash, r.body.toolUseId) != [] <==>
            exists u :: u in uses && u.argsHash == r.inputHash && (r.body.toolUseId.Some? ==> u.id == r.body.toolUseId)
  {
    var fits := Fits(uses, r.inputHash, r.body.toolUseId);
    if fits != [] {
      FitsIff(uses, r.inputHash, r.body.toolUseId, fits[0]);
    }
    if u :| u in uses && u.argsHash == r.inputHash && (r.body.toolUseId.Some? ==> u.id == r.body.toolUseId) {
      FitsIff(uses, r.inputHash, r.body.toolUseId, u);
    }
  }

  /** `check_approval` lets a call through exactly when the verifier, given the same pack, finds the citation sound. */
  lemma {:induction false} ApprovalRefusalIff(env: Env, w: WState, r: Record)
    requires RequestsHeld(w) && DecisionsHeld(w) && r.body.ToolCall? && PackFor(env, r) == w.pack
    ensures ApprovalRefusal(w.store, w.pack, r) == 0 <==>
            exists d, q :: r.body.approvalSeq == Int(d) && AskedBy(w.store, d, q) && SoundCite(env, w.store, r, d, q)
  {
    var a := r.body.approvalSeq;
    if a.Int? && Has(w.store, a.i) && At(w.store, a.i).body.ApprovalDecision? {
      var d := a.i;
      var p := w.approvals[At(w.store, d).body.aid];
      assert Answered(At(w.store, d), p);
      UsedIff(w.store, d);
      CiteRefusal(env, w, r, d, p.request.pos);
    }
  }

  lemma {:induction false} CiteRefusal(env: Env, w: WState, r: Record, d: int, q: int)
    requires r.body.ToolCall? && r.body.approvalSeq == Int(d) && AskedBy(w.store, d, q) && PackFor(env, r) == w.pack
    requires At(w.store, d).task == At(w.store, q).task
    ensures ApprovalRefusal(w.store, w.pack, r) == 0 <==> SoundCite(env, w.store, r, d, q)
  {
    UsedIff(w.store, d);
    hide ApprovalUsed, Writer.Used, ConfirmHit, NeedsPerson;
    forall h | UnderPack(env, r) ensures NeedsPerson(env.pack.value, h) <==> ConfirmHit(env.pack.value, h) {
      NeedsPersonIff(env.pack.value, h);
    }
  }
}
