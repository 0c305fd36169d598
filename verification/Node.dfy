/** The ledger node as it runs (sijill/proxy.py `Node`, and the loops of sijill/agents.py and sijill/budgets.py): fields
    that `seal` and the endpoints reassign, specified by the state machine of `Writer`. */
module LedgerNode {
  import opened Records
  import opened Checks
  import opened Store
  import opened Budgets
  import opened Writer
  import opened ActRefinement

  class Node {
    const env: Env
    var store: seq<Record>
    var head: nat
    var rulepackHash: string
    var pack: Option<Pack>
    var agents: map<string, Agent>
    var approvals: map<string, Pending>
    var sessions: set<Session>
    var halted: bool

    function View(): WState
      reads this
    {
      WState(store, head, rulepackHash, pack, agents, approvals, sessions, halted)
    }

    constructor (env: Env)
      ensures this.env == env && View() == START
    {
      this.env := env;
      store, head, rulepackHash, pack := [], 0, "", None;
      agents, approvals, sessions, halted := map[], map[], {}, false;
    }

    /** The locked region of `seal`: the record is numbered and stamped with the hash in force, then appended; a
        record record.py refuses leaves the node as it was. */
    method Seal(r: Record) returns (sealed: Option<Record>)
      modifies this`store, this`head, this`rulepackHash
      ensures sealed == Stamped(old(View()), r)
      ensures sealed.None? ==> View() == old(View())
      ensures sealed.Some? ==> store == old(store) + [sealed.value] && head == old(head) + 1
      ensures sealed.Some? ==> rulepackHash == if r.body.RulepackChange? then sealed.value.rulepack else old(rulepackHash)
    {
      var stamped := r.(pos := head + 1);
      if !r.body.RulepackChange? {
        stamped := stamped.(rulepack := rulepackHash);
      }
      if !WellFormed(stamped) {
        return None;
      }
      store := store + [stamped];
      head := stamped.pos;
      if stamped.body.RulepackChange? {
        rulepackHash := stamped.rulepack;
      }
      return Some(stamped);
    }

    /** `Registry.apply` and `Approvals.apply`: a sealed record folded into the node's memory. */
    method Fold(r: Record)
      modifies this`agents, this`approvals
      ensures agents == NextAgents(old(agents), r) && approvals == ApplyApproval(old(approvals), r)
    {
      match r.body
      case AgentRegister(auth, key, _, _) =>
        agents := agents[r.agent := Agent(r.pos, if auth == KeyAuth then key else "", auth, false)];
      case AgentRotate(_, newKey, _) =>
        if r.agent in agents {
          agents := agents[r.agent := agents[r.agent].(key := newKey)];
        }
      case AgentRevoke(_) =>
        if r.agent in agents {
          agents := agents[r.agent := agents[r.agent].(revoked := true)];
        }
      case ApprovalRequest(aid, _, _, timeoutMs, _, _) =>
        approvals := approvals[aid := Pending(r, r.ts + timeoutMs, None, 0)];
      case ApprovalDecision(aid, outcome, _, _) =>
        if aid in approvals {
          approvals := approvals[aid := approvals[aid].(outcome := Some(outcome), decisionSeq := r.pos)];
        }
      case _ =>
    }

    /** What an endpoint decided, sealed and folded. */
    method Finish(d: Draft)
      modifies this`store, this`head, this`rulepackHash, this`agents, this`approvals
      ensures View() == match d
                case Sealing(r) => (var sealed := Stamped(old(View()), r);
                                    if sealed.Some? then Commit(old(View()), sealed.value) else old(View()))
                case _ => old(View())
    {
      if d.Sealing? {
        var sealed := Seal(d.r);
        if sealed.Some? {
          Fold(sealed.value);
        }
      }
    }

    /** `Node.__init__`: the memory is a fold over the stored records. */
    method Rebuild()
      modifies this`head, this`rulepackHash, this`agents, this`approvals
      ensures View() == Rebuilt(old(View()))
    {
      head := |store|;
      rulepackHash := if store == [] then "" else store[|store| - 1].rulepack;
      agents, approvals := map[], map[];
      var i := 0;
      while i < |store|
        invariant 0 <= i <= |store|
        invariant agents == AgentsOf(store[..i]) && approvals == ApprovalsOf(store[..i])
        invariant head == |store| && rulepackHash == RulepackOf(store)
      {
        Fold(store[i]);
        assert store[..i + 1][..i] == store[..i];
        i := i + 1;
      }
      assert store[..i] == store;
    }

    /** One request, reload or wake-up of a timer. */
    method Handle(ev: Event)
      modifies this
      ensures View() == Step(env, old(View()), ev)
    {
      hide Stamped, Commit, DraftOf, Loaded;
      ghost var w := View();
      var d: Draft;
      if ev.OpenSession? || ev.Halt? || ev.AdoptPack? || ev.Restart? {
        d := Control(ev);
      } else {
        d := Request(ev);
        LoadedSame(w, ev);
      }
      Finish(d);
    }

    /** What changes the node before anything is sealed: a session, the operator halt, the pack, a new process. */
    method Control(ev: Event) returns (d: Draft)
      requires ev.OpenSession? || ev.Halt? || ev.AdoptPack? || ev.Restart?
      modifies this
      ensures View() == Loaded(old(View()), ev) && d == DraftOf(env, old(View()), ev)
    {
      hide SessionOpens, Rebuilt, Starts;
      d := Nothing;
      match ev
      case OpenSession(s) =>
        if SessionOpens(View(), s) {
          sessions := sessions + {s};
        }
      case Halt(ts, on) =>
        if on != halted {
          d := Sealing(BaseRecord(ts, PolicyChange).(hits := [Rule(if on then HALTED else "resumed")]));
        }
        halted := on;
      case AdoptPack(ts, newPack) =>
        pack := Some(newPack);
        d := AdoptRulepack(ts, newPack);
      case Restart(ts, loaded) => d := Restarted(ts, loaded);
    }

    /** The endpoints and timers that only seal. */
    method Request(ev: Event) returns (d: Draft)
      requires !ev.OpenSession? && !ev.Halt? && !ev.AdoptPack? && !ev.Restart?
      ensures d == DraftOf(env, View(), ev)
    {
      hide InferDraft, ActDraft, AskDraft, DecideDraft, ExpireDraft, StartDraft, EndDraft, RuleHits;
      match ev
      case ChangePolicy(ts, hits) => d := Sealing(BaseRecord(ts, PolicyChange).(hits := RuleHits(hits)));
      case Register(_, _, _, _) => d := SealAgent(ev);
      case Rotate(_, _, _, _) => d := SealAgent(ev);
      case Revoke(_, _, _) => d := SealAgent(ev);
      case StartTask(_, _, _, _, _, _) => d := StartTask(ev);
      case EndTask(ts, t) => d := EndTask(ts, t);
      case Infer(_, _, _, _, _, _, _, _, _, _, _, _, _) => d := Infer(ev);
      case Act(_, _, _, _, _) => d := Act(ev);
      case Ask(_, _, _, _, _, _, _, _, _, _, _, _) => d := Ask(ev);
      case Decide(_, _, _, _, _) => d := Decide(ev);
      case Expire(_, _) => d := Expire(ev);
    }

    // ---- the endpoints ----

    /** `adopt_rulepack`, after the pack is put in force. */
    method AdoptRulepack(ts: int, newPack: Pack) returns (d: Draft)
      ensures d == AdoptDraft(View(), ts, newPack)
      ensures d.Sealing? <==> newPack.hash != rulepackHash
    {
      var before := rulepackHash;
      if newPack.hash == before {
        return Nothing;
      }
      return Sealing(BaseRecord(ts, RulepackChange(before, newPack.hash)).(rulepack := newPack.hash));
    }

    /** A new process over the same store; it does not start without the pack the chain is under. */
    method Restarted(ts: int, loaded: Option<Pack>) returns (d: Draft)
      modifies this`head, this`rulepackHash, this`agents, this`approvals, this`pack
      ensures View() == if Starts(old(View()), loaded) then Rebuilt(old(View())).(pack := loaded) else old(View())
      ensures d == if loaded.Some? then AdoptDraft(Rebuilt(old(View())), ts, loaded.value) else Nothing
    {
      d := Nothing;
      if loaded.Some? || store == [] || store[|store| - 1].rulepack == "" {
        Rebuild();
        pack := loaded;
        if loaded.Some? {
          d := AdoptRulepack(ts, loaded.value);
        }
      }
    }

    /** `register`, `rotate` and `revoke`: the check `seal_agent` repeats under the lock, then the record. */
    method SealAgent(ev: Event) returns (d: Draft)
      requires ev.Register? || ev.Rotate? || ev.Revoke?
      ensures d == DraftOf(env, View(), ev)
      ensures d.Sealing? <==>
              match ev
              case Register(_, a, auth, _) => a !in agents && auth in {KeyAuth, OidcAuth, RelayAuth}
              case Rotate(_, a, oldKey, _) =>
                a in agents && !agents[a].revoked && agents[a].auth == KeyAuth && agents[a].key == oldKey
              case Revoke(_, a, key) => a in agents && !agents[a].revoked && agents[a].key == key
              case _ => false
    {
      match ev
      case Register(ts, a, auth, key) =>
        if a in agents {
          return Refused(409);
        }
        if auth !in {KeyAuth, OidcAuth, RelayAuth} {
          return Refused(400);
        }
        return Sealing(BaseRecord(ts, AgentRegister(auth, key, true, true)).(agent := a));
      case Rotate(ts, a, oldKey, newKey) =>
        if a !in agents || agents[a].revoked {
          return Refused(401);
        }
        if agents[a].auth != KeyAuth || agents[a].key != oldKey {
          return Refused(409);
        }
        return Sealing(BaseRecord(ts, AgentRotate(oldKey, newKey, true)).(agent := a));
      case Revoke(ts, a, key) =>
        if a !in agents {
          return Refused(404);
        }
        if agents[a].revoked || agents[a].key != key {
          return Refused(409);
        }
        return Sealing(BaseRecord(ts, AgentRevoke(key)).(agent := a, mode := Enforce, decision := Block));
    }

    /** /api/agent/task/start. */
    method StartTask(ev: Event) returns (d: Draft)
      requires ev.StartTask?
      ensures d == StartDraft(View(), ev)
      ensures d.Sealing? ==> d.r.agent in agents && !agents[d.r.agent].revoked && d.r.body.agentAuth == ev.session.auth
    {
      var from := ev.delegatedFrom;
      if ev.session !in sessions {
        return Refused(401);
      }
      if from.Garbled? || (from.Dec? && !(1 <= from.n <= |store| && store[from.n - 1].body.TaskStart?)) {
        return Refused(400);
      }
      if ev.session.agent !in agents || agents[ev.session.agent].revoked {
        return Refused(401);
      }
      var body := TaskStart(ev.session.auth, ev.session.id, from, ev.harness, "", PrincipalBy(ev));
      return Sealing(BaseRecord(ev.ts, body).(agent := ev.session.agent, principal := ev.principal));
    }

    /** `decide`: the answer of a person the request admits, before the deadline. */
    method Decide(ev: Event) returns (d: Draft)
      requires ev.Decide?
      ensures d == DecideDraft(View(), ev)
      ensures d.Sealing? ==> ev.aid in approvals && approvals[ev.aid].outcome.None? && ev.ts < approvals[ev.aid].deadline
                             && d.r.ts == ev.ts && (d.r.decision == Allow <==> ev.grant)
    {
      if ev.aid !in approvals {
        return Refused(404);
      }
      var p := approvals[ev.aid];
      if p.outcome.Some? {
        return Refused(409);
      }
      if !p.request.body.ApprovalRequest? || !ev.approver.Human? {
        return Refused(403);
      }
      if Rank(ev.assurance) < Rank(p.request.body.minAssurance)
         || (p.request.body.sod && ev.approver == p.request.principal) {
        return Refused(403);
      }
      if ev.ts >= p.deadline {
        return Refused(410);
      }
      var outcome := if ev.grant then Grant else Refusal;
      return Sealing(DecisionRecord(p, ev.ts, ApprovalDecision(ev.aid, outcome, Some(ev.approver), Some(ev.assurance))));
    }

    /** One wake-up of `seal_timeout`. */
    method Expire(ev: Event) returns (d: Draft)
      requires ev.Expire?
      ensures d == ExpireDraft(View(), ev)
      ensures d.Sealing? <==>
              ev.aid in approvals && approvals[ev.aid].outcome.None? && ev.ts >= approvals[ev.aid].deadline
    {
      if ev.aid !in approvals || approvals[ev.aid].outcome.Some? || ev.ts < approvals[ev.aid].deadline {
        return Nothing;
      }
      return Sealing(DecisionRecord(approvals[ev.aid], ev.ts, ApprovalDecision(ev.aid, Timeout, None, None)));
    }

    /** `request_approval`: the call's parent rules are checked with the request in the call's place. */
    method Ask(ev: Event) returns (d: Draft)
      requires ev.Ask?
      ensures d == AskDraft(View(), ev)
      ensures d.Sealing? ==> d.r.task == Dec(ev.task) && !Ended(store, ev.task) && d.r.hits == ev.hits
                             && pack.Some? && pack.value.entra && forall h <- ev.hits :: ConfirmHit(pack.value, h)
    {
      hide ParentRefusal;
      if pack.None? || !pack.value.entra {
        return Refused(409);
      }
      if ev.hits == [] || exists h <- ev.hits :: !ConfirmHit(pack.value, h) {
        return Refused(400);
      }
      if !TaskOfSession(store, ev.task, ev.session) {
        return Refused(409);
      }
      var b := ApprovalRequest(ev.aid, ev.qualified, ev.uncorrelated, ev.timeoutMs, ev.minAssurance, ev.sod);
      var r := InTaskOf(View(), BaseRecord(ev.ts, b).(decision := Flag, hits := ev.hits, parent := ev.parent,
                                                  inputHash := ev.inputHash), ev.task);
      if ev.session !in sessions || ev.session.agent !in agents || agents[ev.session.agent].revoked {
        return Refused(401);
      }
      if Ended(store, ev.task) {
        return Refused(409);
      }
      var call := ToolCall(None, ev.uncorrelated, ev.qualified, NoConfirmation, NoInt, false, false, true, NoBudget);
      var status := CheckParent(r.(body := call));
      if status != 0 {
        return Refused(status);
      }
      return Sealing(r);
    }

    /** /api/agent/seal: the halt overrides the caller, then the guards under the lock, then the budget stamp. */
    method Act(ev: Event) returns (d: Draft)
      requires ev.Act?
      ensures d == ActDraft(env, View(), ev)
      ensures d.Sealing? ==> ParentRefusal(store, d.r) == 0 && (d.r.task.Dec? ==> !Ended(store, d.r.task.n))
      ensures d.Sealing? && d.r.body.ToolCall? && !d.r.body.approvalSeq.NoInt? ==> ApprovalRefusal(store, pack, d.r) == 0
    {
      hide ParentRefusal, ApprovalRefusal, BudgetStamp, HaltedDraft, MaySend, TaskRequired;
      if !Sealable(ev.draft.body) || exists h <- ev.draft.hits :: !MaySend(ev.draft, h) {
        return Refused(400);
      }
      var inTask := ev.place.Dec?;
      if ev.place.Garbled? || (inTask && !TaskOfSession(store, ev.place.n, ev.session))
         || (ev.place.Blank? && TaskRequired(ev.draft.body)) {
        return Refused(409);
      }
      var stops := halted && (ev.draft.body.ToolCall? || ev.draft.body.ToolResult? || ev.draft.body.Egress?);
      var r := (if stops then HaltedDraft(ev.draft) else ev.draft).(ts := ev.ts);
      if inTask {
        r := InTaskOf(View(), r, ev.place.n);
      } else {
        r := r.(task := Blank, agent := ev.session.agent, principal := ev.session.principal);
      }
      if ev.named != rulepackHash {
        return Refused(409);
      }
      if ev.session !in sessions || ev.session.agent !in agents || agents[ev.session.agent].revoked {
        return Refused(401);
      }
      if inTask && Ended(store, ev.place.n) {
        return Refused(409);
      }
      var status := CheckParent(r);
      if status != 0 {
        return Refused(status);
      }
      if r.body.ToolCall? {
        if !r.body.approvalSeq.NoInt? {
          status := CheckApproval(r);
          if status != 0 {
            return Refused(status);
          }
        } else if MustCite(pack, r) {
          return Refused(409);
        }
      }
      if inTask && (r.body.ToolCall? || r.body.Egress?) && !stops {
        d := Stamp(ev.place.n, r);
      } else {
        d := Sealing(r);
      }
      SealedDraftGuarded(env, View(), ev);
    }

    /** `check_parent`; for a tool_call, `FreeUses` says whether a tool_use is left. */
    method CheckParent(r: Record) returns (status: nat)
      ensures status == ParentRefusal(store, r)
    {
      hide Fits, Untaken, TakenIds, Unnamed, Calls;
      if r.parent.Blank? {
        return 0;
      }
      if !(r.body.ToolCall? || r.body.ToolResult? || r.body.Egress? || r.body.IntegrityDrift?) {
        return 400;
      }
      if !r.parent.Dec? || !Has(store, r.parent.n) || !RightParent(r.body, At(store, r.parent.n).body) {
        return 400;
      }
      var p := At(store, r.parent.n);
      if !r.body.IntegrityDrift? && p.task != r.task {
        return 400;
      }
      if r.body.ToolCall? {
        var fits, free := FreeUses(p.body.uses, r);
        return if fits == 0 then 400 else if free <= 0 then 409 else 0;
      }
      if r.body.ToolResult? {
        return if HasResultFor(store, r.parent.n) then 409 else 0;
      }
      if r.body.IntegrityDrift? && r.inputHash != p.inputHash {
        return 400;
      }
      return 0;
    }

    /** The tool_uses that ask for the call, and how many of them earlier calls of the parent leave: none whose id was
        taken, less one for each earlier call with these arguments that named no id. */
    method FreeUses(uses: seq<ToolUse>, r: Record) returns (fits: nat, free: int)
      requires r.body.ToolCall? && r.parent.Dec?
      ensures fits == |Fits(uses, r.inputHash, r.body.toolUseId)|
      ensures free == |Untaken(Fits(uses, r.inputHash, r.body.toolUseId), TakenIds(Calls(store, r.parent.n)))|
                      - Unnamed(Calls(store, r.parent.n), r.inputHash)
    {
      hide Fits, Untaken, TakenIds, Unnamed, Calls;
      var taken, unnamed := CountCalls(Calls(store, r.parent.n), r.inputHash);
      var asking := AskingFor(uses, r);
      var left := CountUntaken(asking, taken);
      fits := |asking|;
      free := left as int - unnamed as int;
    }

    method AskingFor(uses: seq<ToolUse>, r: Record) returns (asking: seq<ToolUse>)
      requires r.body.ToolCall?
      ensures asking == Fits(uses, r.inputHash, r.body.toolUseId)
    {
      hide Fits;
      asking := [];
      var i := 0;
      while i < |uses|
        invariant 0 <= i <= |uses|
        invariant asking + Fits(uses[i..], r.inputHash, r.body.toolUseId) == Fits(uses, r.inputHash, r.body.toolUseId)
      {
        var u := uses[i];
        assert uses[i..][0] == u && uses[i..][1..] == uses[i + 1..];
        FitsHead(uses[i..], r.inputHash, r.body.toolUseId);
        if u.argsHash == r.inputHash && (r.body.toolUseId.None? || u.id == r.body.toolUseId) {
          asking := asking + [u];
        }
        i := i + 1;
      }
      FitsNone(uses[i..], r.inputHash, r.body.toolUseId);
      assert asking + [] == asking;
    }

    method CountUntaken(asking: seq<ToolUse>, taken: set<string>) returns (left: nat)
      ensures left == |Untaken(asking, taken)|
    {
      left := 0;
      var i := 0;
      while i < |asking|
        invariant 0 <= i <= |asking|
        invariant left + |Untaken(asking[i..], taken)| == |Untaken(asking, taken)|
      {
        assert asking[i..][1..] == asking[i + 1..];
        if !(asking[i].id.Some? && asking[i].id.value in taken) {
          left := left + 1;
        }
        i := i + 1;
      }
    }

    /** The ids earlier calls took, and the calls with these arguments that took none. */
    method CountCalls(calls: seq<Record>, hash: string) returns (taken: set<string>, unnamed: nat)
      ensures taken == TakenIds(calls) && unnamed == Unnamed(calls, hash)
    {
      taken, unnamed := {}, 0;
      var i := 0;
      while i < |calls|
        invariant 0 <= i <= |calls|
        invariant taken == TakenIds(calls[..i]) && unnamed == Unnamed(calls[..i], hash)
      {
        assert calls[..i + 1][..i] == calls[..i] && calls[..i + 1] == calls[..i] + [calls[i]];
        if NamesUse(calls[i]) {
          taken := taken + {calls[i].body.toolUseId.value};
        } else if calls[i].inputHash == hash {
          unnamed := unnamed + 1;
        }
        i := i + 1;
      }
      assert calls[..i] == calls;
    }

    /** `check_approval`. */
    method CheckApproval(r: Record) returns (status: nat)
      requires r.body.ToolCall?
      ensures status == ApprovalRefusal(store, pack, r)
    {
      hide Asked;
      var a := r.body.approvalSeq;
      if !a.Int? || !Has(store, a.i) || !At(store, a.i).body.ApprovalDecision? || At(store, a.i).task != r.task {
        return 400;
      }
      var d := At(store, a.i);
      if !d.parent.Dec? || !Has(store, d.parent.n) || !At(store, d.parent.n).body.ApprovalRequest? {
        return 500;
      }
      var req := At(store, d.parent.n);
      if req.body.qualified != r.body.qualified || req.inputHash != r.inputHash || req.parent != r.parent {
        return 409;
      }
      var granted := d.body.outcome == Grant;
      var i := 0;
      while i < |r.hits|
        invariant 0 <= i <= |r.hits|
        invariant granted ==> forall j | 0 <= j < i :: !(Asked(pack, r.hits[j]) && r.hits[j] !in req.hits)
      {
        if granted && Asked(pack, r.hits[i]) && r.hits[i] !in req.hits {
          return 409;
        }
        i := i + 1;
      }
      var wanted := if granted then (Flag, RecordOnly) else (Block, Enforce);
      if (r.body.confirmation == Granted) != granted || (r.decision, r.mode) != wanted {
        return 400;
      }
      return if Writer.Used(store, a.i) then 409 else 0;
    }

    /** `stamp`: the caller's budget hits must be the failing ones, and enforced; the object is the ledger's own. */
    method Stamp(t: nat, r: Record) returns (d: Draft)
      requires Has(store, t) && At(store, t).body.TaskStart?
      ensures d == BudgetStamp(env, View(), t, r)
      ensures d.Sealing? ==> forall h :: h in r.hits && h.Over? <==>
                exists l :: l in LinesFor(env, View(), t, r.body) && !l.admitted && h == Over(l.bid, l.metric)
    {
      hide LinesFor, Exceeded, OverHits;
      var lines := EvaluateFor(t, r.body);
      var exceeded := Exceeded(lines);
      var granted := r.body.ToolCall? && r.body.confirmation == Granted;
      if multiset(OverHits(r.hits)) != multiset(exceeded) || (exceeded != [] && r.decision != Block && !granted) {
        return Refused(409);
      }
      forall h
        ensures h in r.hits && h.Over? <==> exists l :: l in lines && !l.admitted && h == Over(l.bid, l.metric)
      {
        SameHits(r.hits, lines, h);
        ExceededIff(lines, h);
      }
      return Sealing(r.(body := WithBudget(r.body, BudgetObject(lines))));
    }

    // ---- loops the endpoints run over the records of a task ----

    /** `task_counts`. */
    method TaskCounts(t: nat) returns (c: Counts, last: nat)
      ensures c == Tally(InTask(store, t)) && last == LastSeq(InTask(store, t), t)
    {
      var rows, i := InTask(store, t), 0;
      c, last := ZERO, t;
      while i < |rows|
        invariant 0 <= i <= |rows|
        invariant c == Tally(rows[..i]) && last == LastSeq(rows[..i], t)
      {
        var r := rows[i];
        assert rows[..i + 1][..i] == rows[..i];
        if !r.body.TaskEnd? {
          c := Tallied(c, r);
          last := r.pos;
        }
        i := i + 1;
      }
      assert rows[..i] == rows;
    }

    /** `end_task`: refused while a request of the task is pending; the counts are those of its records. */
    method EndTask(ts: int, t: nat) returns (d: Draft)
      ensures d == EndDraft(View(), Event.EndTask(ts, t))
    {
      if !Has(store, t) || !At(store, t).body.TaskStart? || Ended(store, t) || PendingIn(View(), t) {
        return Refused(409);
      }
      var c, last := TaskCounts(t);
      return Sealing(InTaskOf(View(), BaseRecord(ts, TaskEnd(c, last)), t));
    }

    /** `used`: the executed calls, the allowed hosts and the spend of a task. */
    method UsedBy(t: nat) returns (u: Used)
      ensures u == UsedIn(env, InTask(store, t))
    {
      var rows, i := InTask(store, t), 0;
      var calls, hosts, spend := [], {}, 0;
      while i < |rows|
        invariant 0 <= i <= |rows|
        invariant calls == CallsOf(rows[..i]) && hosts == HostsShown(env, rows[..i]) && spend == SpendOf(rows[..i])
      {
        var r := rows[i];
        assert rows[..i + 1][..i] == rows[..i];
        if r.body.ToolCall? && r.decision != Block {
          calls := calls + [r.body.qualified];
        } else if r.body.Egress? && r.decision != Block {
          hosts := hosts + {env.lower(TextOf(r.body.host))};
        } else if r.body.Inference? && r.body.cost.Int? {
          spend := spend + r.body.cost.i;
        }
        i := i + 1;
      }
      assert rows[..i] == rows;
      return Used(calls, hosts, spend);
    }

    /** `evaluate`: the limits of every budget in force that matches the task, and whether the next record of the
        task meets them. */
    method EvaluateFor(t: nat, body: Body) returns (lines: seq<Line>)
      requires Has(store, t) && At(store, t).body.TaskStart?
      ensures lines == LinesFor(env, View(), t, body)
    {
      hide LinesOf, Matches, UsedIn, InTask, Evaluate;
      if pack.None? {
        return [];
      }
      var u := UsedBy(t);
      var budgets, i := pack.value.budgets, 0;
      lines := [];
      while i < |budgets|
        invariant 0 <= i <= |budgets|
        invariant lines + Evaluate(env, budgets[i..], At(store, t), u, body)
                  == Evaluate(env, budgets, At(store, t), u, body)
      {
        var b := budgets[i];
        assert budgets[i..][0] == b && budgets[i..][1..] == budgets[i + 1..];
        EvaluateHead(env, budgets[i..], At(store, t), u, body);
        if Matches(b, At(store, t)) {
          var own := LinesOfBudget(b, u, body);
          lines := lines + own;
        }
        i := i + 1;
      }
      EvaluateNone(env, budgets[i..], At(store, t), u, body);
    }

    /** The limits of one budget: a tool_call meets its total and every glob its name matches. */
    method LinesOfBudget(b: BudgetRule, u: Used, body: Body) returns (lines: seq<Line>)
      ensures lines == LinesOf(env, b, u, body)
    {
      lines := [];
      if body.ToolCall? {
        var calls := |u.calls|;
        if b.limits.toolCalls.Some? {
          lines := [Line(b.id, ToolCalls, b.limits.toolCalls.value, calls, calls + 1 <= b.limits.toolCalls.value)];
        }
        ghost var total := lines;
        var globs, i := b.limits.toolCallsBy, 0;
        while i < |globs|
          invariant 0 <= i <= |globs|
          invariant lines + GlobLines(env, b.id, globs[i..], u.calls, body.qualified)
                    == total + GlobLines(env, b.id, globs, u.calls, body.qualified)
        {
          var (g, limit) := globs[i];
          assert globs[i..][0] == globs[i] && globs[i..][1..] == globs[i + 1..];
          if env.glob(body.qualified, g) {
            var n := CountMatching(env, u.calls, g);
            lines := lines + [Line(b.id, ToolCallsBy(g), limit, n, n + 1 <= limit)];
          }
          i := i + 1;
        }
      } else if body.Egress? && b.limits.egressHosts.Some? {
        var known := env.lower(TextOf(body.host)) in u.hosts;
        lines := [Line(b.id, EgressHosts, b.limits.egressHosts.value, |u.hosts|,
                       known || |u.hosts| + 1 <= b.limits.egressHosts.value)];
      } else if body.Inference? && b.limits.spendMicro.Some? {
        lines := [Line(b.id, SpendMicro, b.limits.spendMicro.value, u.spend, u.spend < b.limits.spendMicro.value)];
      }
    }

    /** `settled`: the model door's record, its budgets evaluated again when it is sealed. */
    method Infer(ev: Event) returns (d: Draft)
      requires ev.Infer?
      ensures d == InferDraft(env, View(), ev)
      ensures d.Sealing? ==> d.r.task.Blank? || (d.r.task == ev.place && !Ended(store, ev.place.n))
      ensures ev.place.Dec? && d.Sealing? ==> (d.r.task.Blank? <==> Ended(store, ev.place.n))
      ensures d.Sealing? && (d.r.task.Blank? || HALTED in ev.rules) ==> d.r.decision == ev.decision && d.r.mode == ev.mode
      ensures d.Sealing? && d.r.task.Dec? && HALTED !in ev.rules ==> Settled(env, View(), ev, d.r)
    {
      hide RuleHits, Exceeded, Priced, Rules;
      var who := if ev.caller.Some? then ev.caller.value.agent else "";
      var body := if ev.forwarded then Priced(env, pack, ev.digest, ev.uses, ev.usage)
                  else Inference(ev.uses, None, NoInt, None, NoBudget);
      var r := BaseRecord(ev.ts, body).(mode := ev.mode, decision := ev.decision, hits := Rules(ev.rules) + ev.early,
                                    inputHash := ev.inputHash, digest := ev.digest, agent := who,
                                    principal := ev.principal);
      if ev.place.Blank? {
        return Sealing(r);
      }
      if ev.place.Garbled? || ev.caller.None? || !TaskOfSession(store, ev.place.n, ev.caller.value) {
        return Refused(409);
      }
      var t := ev.place.n;
      if Ended(store, t) {
        return Sealing(r);
      }
      r := InTaskOf(View(), r, t);
      if HALTED in ev.rules {
        return Sealing(r);
      }
      ghost var before := r;
      var lines := EvaluateFor(t, r.body);
      var exceeded := Exceeded(lines);
      r := r.(body := WithBudget(r.body, BudgetObject(lines)), hits := RuleHits(r.hits) + exceeded);
      if exceeded != [] {
        r := r.(decision := Block, mode := Enforce);
      }
      SettledIs(env, View(), ev, before, lines);
      return Sealing(r);
    }
  }

  lemma LoadedSame(w: WState, ev: Event)
    requires !ev.OpenSession? && !ev.Halt? && !ev.AdoptPack? && !ev.Restart?
    ensures Loaded(w, ev) == w
  {
  }

  /** What /api/agent/seal seals has met the guards as it is sealed. */
  lemma SealedDraftGuarded(env: Env, w: WState, ev: Event)
    requires ev.Act?
    ensures ActDraft(env, w, ev).Sealing? ==> SealedGuarded(w, ActDraft(env, w, ev).r)
  {
    hide ActDraft, SealedGuarded;
    if ActDraft(env, w, ev).Sealing? {
      ActSealedGuarded(env, w, ev, ActDraft(env, w, ev).r);
    }
  }

  lemma FitsHead(uses: seq<ToolUse>, hash: string, id: Option<string>)
    requires uses != []
    ensures Fits(uses, hash, id)
            == (if uses[0].argsHash == hash && (id.None? || uses[0].id == id) then [uses[0]] else [])
               + Fits(uses[1..], hash, id)
  {
  }

  lemma FitsNone(uses: seq<ToolUse>, hash: string, id: Option<string>)
    requires uses == []
    ensures Fits(uses, hash, id) == []
  {
  }

  lemma EvaluateHead(env: Env, budgets: seq<BudgetRule>, start: Record, u: Used, body: Body)
    requires start.body.TaskStart? && budgets != []
    ensures Evaluate(env, budgets, start, u, body)
            == (if Matches(budgets[0], start) then LinesOf(env, budgets[0], u, body) else [])
               + Evaluate(env, budgets[1..], start, u, body)
  {
  }

  lemma EvaluateNone(env: Env, budgets: seq<BudgetRule>, start: Record, u: Used, body: Body)
    requires start.body.TaskStart? && budgets == []
    ensures Evaluate(env, budgets, start, u, body) == []
  {
  }

  /** The record as it is settled: its limits are those in force when it is sealed; it is blocked exactly when one of
      them does not admit it, and otherwise as it was decided before the call; its budget hits are the excesses. */
  ghost predicate Settled(env: Env, w: WState, ev: Event, r: Record)
    requires ev.Infer? && ev.place.Dec?
  {
    && Has(w.store, ev.place.n) && At(w.store, ev.place.n).body.TaskStart? && r.body.Inference?
    && var lines := LinesFor(env, w, ev.place.n, r.body);
       && r.body.budget == BudgetObject(lines)
       && (forall h :: h in r.hits && h.Over? <==> exists l :: l in lines && !l.admitted && h == Over(l.bid, l.metric))
       && (if exists l :: l in lines && !l.admitted then r.decision == Block && r.mode == Enforce
           else r.decision == ev.decision && r.mode == ev.mode)
  }

  lemma SettledIs(env: Env, w: WState, ev: Event, r: Record, lines: seq<Line>)
    requires ev.Infer? && ev.place.Dec? && Has(w.store, ev.place.n) && At(w.store, ev.place.n).body.TaskStart?
    requires r.body.Inference? && r.decision == ev.decision && r.mode == ev.mode
    requires lines == LinesFor(env, w, ev.place.n, r.body)
    ensures Settled(env, w, ev, BudgetInference(env, w, ev.place.n, r))
  {
    var sealed := BudgetInference(env, w, ev.place.n, r);
    SameLines(env, w, ev.place.n, r.body, sealed.body);
    forall h
      ensures h in sealed.hits && h.Over? <==> exists l :: l in lines && !l.admitted && h == Over(l.bid, l.metric)
    {
      OverHitsIff(r.hits, h);
      ExceededIff(lines, h);
    }
    hide LinesFor, RuleHits;
    if l :| l in lines && !l.admitted {
      ExceededIff(lines, Over(l.bid, l.metric));
    }
    if Exceeded(lines) != [] {
      ExceededIff(lines, Exceeded(lines)[0]);
    }
  }

  /** Two inferences meet the same limits: nothing is counted of the record itself. */
  lemma SameLines(env: Env, w: WState, t: nat, a: Body, b: Body)
    requires Has(w.store, t) && At(w.store, t).body.TaskStart? && a.Inference? && b.Inference?
    ensures LinesFor(env, w, t, a) == LinesFor(env, w, t, b)
  {
    if w.pack.Some? {
      SameEvaluation(env, w.pack.value.budgets, At(w.store, t), UsedIn(env, InTask(w.store, t)), a, b);
    }
  }

  lemma {:induction false} SameEvaluation(env: Env, budgets: seq<BudgetRule>, start: Record, u: Used, a: Body, b: Body)
    requires start.body.TaskStart? && a.Inference? && b.Inference?
    ensures Evaluate(env, budgets, start, u, a) == Evaluate(env, budgets, start, u, b)
  {
    if budgets != [] {
      SameEvaluation(env, budgets[1..], start, u, a, b);
    }
  }
}
