/** The ledger as a state machine: one `Event` is one sealed record, or the refusal of one (sijill/proxy.py,
    sijill/agents.py, sijill/approvals.py).

    The locked region of `Node.seal` never awaits, and no endpoint awaits between its own seal and folding the record
    into the registry or the approvals, so each event is atomic. Whatever an endpoint read before the seal is a
    parameter of its event and may be stale; what it re-reads under the lock is read from the state. */
module Writer {
  import opened Records
  import opened Checks
  import opened Store
  import opened Budgets

  /** A row of agent_sessions: a side table that outlives a restart. */
  datatype Session = Session(id: string, agent: string, principal: Principal, auth: AgentAuth)

  datatype Pending = Pending(request: Record, deadline: int, outcome: Option<Outcome>, decisionSeq: nat)

  /** `store` is the database; `head`, `rulepackHash`, `agents` and `approvals` are the node's memory of it. */
  datatype WState = WState(store: seq<Record>, head: nat, rulepackHash: string, pack: Option<Pack>,
                           agents: map<string, Agent>, approvals: map<string, Pending>, sessions: set<Session>,
                           halted: bool)

  datatype Event =
    | OpenSession(session: Session)
    | ChangePolicy(ts: int, hits: seq<Hit>)
    | Halt(ts: int, on: bool)
    | AdoptPack(ts: int, newPack: Pack)
    | Restart(ts: int, loaded: Option<Pack>)
    | Register(ts: int, agent: string, auth: AgentAuth, key: string)
    | Rotate(ts: int, agent: string, oldKey: string, newKey: string)
    | Revoke(ts: int, agent: string, key: string)
    | StartTask(ts: int, session: Session, principal: Principal, token: bool, delegatedFrom: Ref, harness: string)
    | EndTask(ts: int, task: nat)
    | Infer(ts: int, caller: Option<Session>, place: Ref, principal: Principal, rules: seq<string>,
            early: seq<Hit>, mode: Mode, decision: Decision, inputHash: string, digest: string,
            uses: seq<ToolUse>, forwarded: bool, usage: Option<Usage>)
    | Act(ts: int, session: Session, place: Ref, named: string, draft: Record)
    | Ask(ts: int, session: Session, task: nat, hits: seq<Hit>, parent: Ref, inputHash: string, aid: string,
          qualified: string, uncorrelated: bool, timeoutMs: int, minAssurance: Level, sod: bool)
    | Decide(ts: int, aid: string, grant: bool, approver: Principal, assurance: Level)
    | Expire(ts: int, aid: string)

  /** What one event does: nothing to seal, a refusal with its HTTP status, or a draft for `Node.seal`. */
  datatype Draft = Nothing | Refused(status: nat) | Sealing(r: Record)

  const HALTED := "halted"
  const RESERVED := {"upstream_error", "halted", "resumed", "principal-missing", "principal-invalid",
                     "principal-expired", "principal-assurance-low", "principal-task-mismatch",
                     "principal-jwks-unavailable", "http-operation-unknown", "http-task-ambiguous",
                     "approval-timeout", "command-too-long", "foundry-item-unknown"}
  const GUARD_HITS := {"http-operation-unknown", "command-too-long"}

  const NOBODY := NonHuman("")

  /** `Node.body`: a record with every column it does not name left blank. `Node.seal` fills pos and rulepack. */
  function BaseRecord(ts: int, body: Body): Record {
    Record(0, ts, RecordOnly, Allow, [], "", Blank, Blank, "", "", NOBODY, "", body)
  }

  // ---- record.py `_validate`, its structural part ----

  predicate TakesParent(b: Body) {
    b.ToolCall? || b.ToolResult? || b.Egress? || b.IntegrityDrift? || b.ApprovalRequest? || b.ApprovalDecision?
  }

  predicate Orphanable(b: Body) {
    (b.ToolCall? && b.uncorrelated) || (b.ApprovalRequest? && b.uncorrelated)
  }

  predicate TaskRequired(b: Body) {
    b.ToolCall? || b.ToolResult? || b.Egress? || b.TaskEnd? || b.ApprovalRequest? || b.ApprovalDecision?
  }

  predicate EarlierRef(ref: Ref, pos: nat) {
    ref.Blank? || (ref.Dec? && ref.n < pos)
  }

  predicate WellFormed(r: Record) {
    && EarlierRef(r.parent, r.pos) && EarlierRef(r.task, r.pos)
    && (!r.parent.Blank? ==> TakesParent(r.body))
    && (r.parent.Blank? && TakesParent(r.body) ==> Orphanable(r.body))
    && (!r.task.Blank? ==> !TaskForbidden(r.body))
    && (r.task.Blank? ==> !TaskRequired(r.body))
  }

  /** `Node.seal`: the record as it is appended, or None when record.py refuses it. */
  function Stamped(w: WState, r: Record): Option<Record> {
    var sealed := r.(pos := w.head + 1, rulepack := if r.body.RulepackChange? then r.rulepack else w.rulepackHash);
    if WellFormed(sealed) then Some(sealed) else None
  }

  // ---- the queries the guards rely on ----

  /** `ended`: `Store.task_ended`, computably. */
  predicate Ended(chain: seq<Record>, t: int) {
    exists i | 0 <= i < |chain| :: chain[i].body.TaskEnd? && Names(chain[i].task, t)
  }

  predicate Used(chain: seq<Record>, d: int) {
    exists i | 0 <= i < |chain| :: Cites(chain[i], d)
  }

  predicate HasResultFor(chain: seq<Record>, p: int) {
    exists i | 0 <= i < |chain| :: chain[i].body.ToolResult? && Names(chain[i].parent, p)
  }

  /** `children`: the tool_calls of a parent. */
  function Calls(chain: seq<Record>, p: int): seq<Record> {
    if chain == [] then []
    else
      var r := chain[|chain| - 1];
      Calls(chain[..|chain| - 1], p) + (if r.body.ToolCall? && Names(r.parent, p) then [r] else [])
  }

  /** A task the caller named when it was open: a task_start of this agent session. */
  predicate TaskOfSession(chain: seq<Record>, t: int, s: Session) {
    Has(chain, t) && At(chain, t).body.TaskStart? && At(chain, t).body.session == s.id
  }

  predicate Active(w: WState, agent: string) {
    agent in w.agents && !w.agents[agent].revoked
  }

  // ---- agents.py check_parent ----

  /** The tool_uses that ask for these arguments, under the call's own id when it names one. */
  function Fits(uses: seq<ToolUse>, hash: string, id: Option<string>): seq<ToolUse> {
    if uses == [] then []
    else (if uses[0].argsHash == hash && (id.None? || uses[0].id == id) then [uses[0]] else [])
         + Fits(uses[1..], hash, id)
  }

  predicate NamesUse(r: Record) {
    r.body.ToolCall? && r.body.toolUseId.Some? && r.body.toolUseId.value != ""
  }

  /** The ids earlier calls of the parent took. */
  function TakenIds(calls: seq<Record>): set<string> {
    set r <- calls | NamesUse(r) :: r.body.toolUseId.value
  }

  /** How many earlier calls with these arguments named no id. */
  function Unnamed(calls: seq<Record>, hash: string): nat {
    if calls == [] then 0
    else Unnamed(calls[..|calls| - 1], hash)
         + (if !NamesUse(calls[|calls| - 1]) && calls[|calls| - 1].inputHash == hash then 1 else 0)
  }

  function Untaken(uses: seq<ToolUse>, taken: set<string>): seq<ToolUse> {
    if uses == [] then []
    else (if uses[0].id.Some? && uses[0].id.value in taken then [] else [uses[0]]) + Untaken(uses[1..], taken)
  }

  /** The status `check_parent` refuses with; 0 when it does not. */
  function ParentRefusal(chain: seq<Record>, r: Record): nat {
    if r.parent.Blank? then 0
    else if !(r.body.ToolCall? || r.body.ToolResult? || r.body.Egress? || r.body.IntegrityDrift?) then 400
    else if !r.parent.Dec? || !Has(chain, r.parent.n) || !RightParent(r.body, At(chain, r.parent.n).body) then 400
    else
      var parent := At(chain, r.parent.n);
      if !r.body.IntegrityDrift? && parent.task != r.task then 400
      else match r.body
        case ToolCall(id, _, _, _, _, _, _, _, _) =>
          var fits := Fits(parent.body.uses, r.inputHash, id);
          var calls := Calls(chain, r.parent.n);
          if fits == [] then 400
          else if |Untaken(fits, TakenIds(calls))| <= Unnamed(calls, r.inputHash) then 409
          else 0
        case ToolResult => if HasResultFor(chain, r.parent.n) then 409 else 0
        case IntegrityDrift => if r.inputHash != parent.inputHash then 400 else 0
        case _ => 0
  }

  // ---- agents.py check_approval ----

  /** The budget hits and, under a pack, the confirm hits: what a grant must have been asked about. */
  predicate Asked(pack: Option<Pack>, h: Hit) {
    h.Over? || (pack.Some? && ConfirmHit(pack.value, h))
  }

  function ApprovalRefusal(chain: seq<Record>, pack: Option<Pack>, r: Record): nat
    requires r.body.ToolCall?
  {
    var a := r.body.approvalSeq;
    if !a.Int? || !Has(chain, a.i) || !At(chain, a.i).body.ApprovalDecision? || At(chain, a.i).task != r.task then 400
    else if !At(chain, a.i).parent.Dec? || !Has(chain, At(chain, a.i).parent.n)
            || !At(chain, At(chain, a.i).parent.n).body.ApprovalRequest? then 500
    else
      var d := At(chain, a.i);
      var req := At(chain, d.parent.n);
      var granted := d.body.outcome == Grant;
      if req.body.qualified != r.body.qualified || req.inputHash != r.inputHash || req.parent != r.parent then 409
      else if granted && exists h <- r.hits :: Asked(pack, h) && h !in req.hits then 409
      else if (r.body.confirmation == Granted) != granted
              || (r.decision, r.mode) != (if granted then (Flag, RecordOnly) else (Block, Enforce)) then 400
      else if Used(chain, a.i) then 409
      else 0
  }

  /** A non-blocked call that must cite an approval under the entra channel and does not. */
  predicate MustCite(pack: Option<Pack>, r: Record)
    requires r.body.ToolCall?
  {
    && r.decision != Block && pack.Some? && pack.value.entra
    && (r.body.confirmation == Granted || exists h <- r.hits :: ConfirmHit(pack.value, h))
  }

  // ---- budgets.py under the lock ----

  function LinesFor(env: Env, w: WState, t: int, body: Body): seq<Line>
    requires Has(w.store, t) && At(w.store, t).body.TaskStart?
  {
    if w.pack.None? then []
    else Evaluate(env, w.pack.value.budgets, At(w.store, t), UsedIn(env, InTask(w.store, t)), body)
  }

  /** `budgets.stamp`: the ledger's own budget object; 409 when the caller's budget hits are not the failing ones or
      nothing enforces them. */
  function BudgetStamp(env: Env, w: WState, t: int, r: Record): Draft
    requires Has(w.store, t) && At(w.store, t).body.TaskStart?
  {
    var lines := LinesFor(env, w, t, r.body);
    var granted := r.body.ToolCall? && r.body.confirmation == Granted;
    if multiset(OverHits(r.hits)) != multiset(Exceeded(lines))
       || (Exceeded(lines) != [] && r.decision != Block && !granted) then Refused(409)
    else Sealing(r.(body := WithBudget(r.body, BudgetObject(lines))))
  }

  /** `budgets.inference`: an inference that no longer passes when it is sealed is sealed blocked. */
  function BudgetInference(env: Env, w: WState, t: int, r: Record): Record
    requires Has(w.store, t) && At(w.store, t).body.TaskStart?
  {
    var lines := LinesFor(env, w, t, r.body);
    var exceeded := Exceeded(lines);
    var r' := r.(body := WithBudget(r.body, BudgetObject(lines)), hits := RuleHits(r.hits) + exceeded);
    if exceeded == [] then r' else r'.(decision := Block, mode := Enforce)
  }

  /** `budgets.cost`: the usage, price and cost keys of a forwarded inference. */
  function Priced(env: Env, pack: Option<Pack>, digest: string, uses: seq<ToolUse>, usage: Option<Usage>)
    : (b: Body)
    ensures b.Inference? && b.uses == uses && b.budget == NoBudget
  {
    var price := if pack.Some? then PriceOf(env, pack.value.pricing, digest) else None;
    if price.None? then Inference(uses, None, NoInt, None, NoBudget)
    else if usage.None? || usage.value.input < 0 || usage.value.output < 0 then
      Inference(uses, None, Int(price.value.missingUsage), Some(price.value.id), NoBudget)
    else
      var micro := usage.value.input * price.value.inputPerMtok + usage.value.output * price.value.outputPerMtok;
      Inference(uses, usage, Int(FloorMicro(micro)), Some(price.value.id), NoBudget)
  }

  // ---- the endpoints ----

  function InTaskOf(w: WState, r: Record, t: nat): Record
    requires Has(w.store, t)
  {
    r.(task := Dec(t), agent := At(w.store, t).agent, principal := At(w.store, t).principal)
  }

  /** `settled` in chat_completions: the body built before the call, as it is sealed after it. */
  function InferDraft(env: Env, w: WState, ev: Event): Draft
    requires ev.Infer?
  {
    var who := if ev.caller.Some? then ev.caller.value.agent else "";
    var body := if ev.forwarded then Priced(env, w.pack, ev.digest, ev.uses, ev.usage)
                else Inference(ev.uses, None, NoInt, None, NoBudget);
    var hits := Rules(ev.rules) + ev.early;
    var r := BaseRecord(ev.ts, body).(mode := ev.mode, decision := ev.decision, hits := hits, inputHash := ev.inputHash,
                                  digest := ev.digest, agent := who, principal := ev.principal);
    match ev.place
    case Blank => Sealing(r)
    case Garbled => Refused(409)
    case Dec(t) =>
      if ev.caller.None? || !TaskOfSession(w.store, t, ev.caller.value) then Refused(409)
      else if Ended(w.store, t) then Sealing(r)
      else if HALTED in ev.rules then Sealing(InTaskOf(w, r, t))
      else Sealing(BudgetInference(env, w, t, InTaskOf(w, r, t)))
  }

  function Rules(ids: seq<string>): seq<Hit> {
    if ids == [] then [] else [Rule(ids[0])] + Rules(ids[1..])
  }

  predicate Sealable(b: Body) {
    b.ToolCall? || b.ToolResult? || b.Egress? || b.IntegrityBaseline? || b.IntegrityDrift?
  }

  /** Reserved hits the caller may send: the guard's own on a block it enforces, and budget hits for `stamp`. */
  predicate MaySend(r: Record, h: Hit) {
    match h
    case Over(_, _) => r.body.ToolCall? || r.body.Egress?
    case Rule(id) => id in RESERVED ==> r.body.ToolCall? && r.decision == Block && r.mode == Enforce && id in GUARD_HITS
  }

  /** The operator halt overrides the caller: blocked, no budget evaluated or sealed, no grant consumed. */
  function HaltedDraft(r: Record): Record {
    var b := match r.body
      case ToolCall(id, uncorrelated, qualified, confirmation, approval, after, relay, shaped, _) =>
        ToolCall(id, uncorrelated, qualified, if approval.NoInt? then confirmation else Denied, NoInt, after, relay,
                 shaped, NoBudget)
      case Egress(host, _) => Egress(host, NoBudget)
      case other => other;
    r.(mode := Enforce, decision := Block, hits := RuleHits(r.hits) + [Rule(HALTED)], body := b)
  }

  function ActDraft(env: Env, w: WState, ev: Event): Draft
    requires ev.Act?
  {
    if !Sealable(ev.draft.body) || (exists h <- ev.draft.hits :: !MaySend(ev.draft, h)) then Refused(400)
    else if ev.place.Garbled? || (ev.place.Dec? && !TaskOfSession(w.store, ev.place.n, ev.session)) then Refused(409)
    else if ev.place.Blank? && TaskRequired(ev.draft.body) then Refused(409)
    else
      var halted := w.halted && (ev.draft.body.ToolCall? || ev.draft.body.ToolResult? || ev.draft.body.Egress?);
      var r0 := (if halted then HaltedDraft(ev.draft) else ev.draft).(ts := ev.ts);
      var r := if ev.place.Dec? then InTaskOf(w, r0, ev.place.n)
               else r0.(task := Blank, agent := ev.session.agent, principal := ev.session.principal);
      if ev.named != w.rulepackHash then Refused(409)
      else if ev.session !in w.sessions || !Active(w, ev.session.agent) then Refused(401)
      else if ev.place.Dec? && Ended(w.store, ev.place.n) then Refused(409)
      else if ParentRefusal(w.store, r) != 0 then Refused(ParentRefusal(w.store, r))
      else if r.body.ToolCall? && !r.body.approvalSeq.NoInt? && ApprovalRefusal(w.store, w.pack, r) != 0
        then Refused(ApprovalRefusal(w.store, w.pack, r))
      else if r.body.ToolCall? && r.body.approvalSeq.NoInt? && MustCite(w.pack, r) then Refused(409)
      else if ev.place.Dec? && (r.body.ToolCall? || r.body.Egress?) && !halted then BudgetStamp(env, w, ev.place.n, r)
      else Sealing(r)
  }

  function AskDraft(w: WState, ev: Event): Draft
    requires ev.Ask?
  {
    if w.pack.None? || !w.pack.value.entra then Refused(409)
    else if ev.hits == [] || exists h <- ev.hits :: !ConfirmHit(w.pack.value, h) then Refused(400)
    else if !TaskOfSession(w.store, ev.task, ev.session) then Refused(409)
    else
      var b := ApprovalRequest(ev.aid, ev.qualified, ev.uncorrelated, ev.timeoutMs, ev.minAssurance, ev.sod);
      var r := InTaskOf(w, BaseRecord(ev.ts, b).(decision := Flag, hits := ev.hits, parent := ev.parent,
                                             inputHash := ev.inputHash), ev.task);
      var asCall := r.(body := ToolCall(None, ev.uncorrelated, ev.qualified, NoConfirmation, NoInt, false, false,
                                        true, NoBudget));
      if ev.session !in w.sessions || !Active(w, ev.session.agent) then Refused(401)
      else if Ended(w.store, ev.task) then Refused(409)
      else if ParentRefusal(w.store, asCall) != 0 then Refused(ParentRefusal(w.store, asCall))
      else Sealing(r)
  }

  /** `body_of`: the decision record of a pending request. */
  function DecisionRecord(p: Pending, ts: int, b: Body): Record
    requires b.ApprovalDecision?
  {
    var req := p.request;
    BaseRecord(ts, b).(mode := if b.outcome == Grant then RecordOnly else Enforce,
                   decision := if b.outcome == Grant then Allow else Block,
                   hits := if b.outcome == Timeout then [Rule("approval-timeout")] else [],
                   inputHash := req.inputHash, parent := Dec(req.pos), task := req.task, agent := req.agent,
                   principal := req.principal)
  }

  function DecideDraft(w: WState, ev: Event): Draft
    requires ev.Decide?
  {
    if ev.aid !in w.approvals then Refused(404)
    else
      var p := w.approvals[ev.aid];
      if p.outcome.Some? then Refused(409)
      else if !p.request.body.ApprovalRequest? || !ev.approver.Human? then Refused(403)
      else if Rank(ev.assurance) < Rank(p.request.body.minAssurance) then Refused(403)
      else if p.request.body.sod && ev.approver == p.request.principal then Refused(403)
      else if ev.ts >= p.deadline then Refused(410)
      else Sealing(DecisionRecord(p, ev.ts, ApprovalDecision(ev.aid, if ev.grant then Grant else Refusal,
                                                             Some(ev.approver), Some(ev.assurance))))
  }

  function ExpireDraft(w: WState, ev: Event): Draft
    requires ev.Expire?
  {
    if ev.aid !in w.approvals then Nothing
    else
      var p := w.approvals[ev.aid];
      if p.outcome.Some? || ev.ts < p.deadline then Nothing
      else Sealing(DecisionRecord(p, ev.ts, ApprovalDecision(ev.aid, Timeout, None, None)))
  }

  /** `pending_in`: a request of the task has no decision yet. */
  predicate PendingIn(w: WState, t: int) {
    exists aid <- w.approvals.Keys :: w.approvals[aid].outcome.None? && Names(w.approvals[aid].request.task, t)
  }

  function EndDraft(w: WState, ev: Event): Draft
    requires ev.EndTask?
  {
    if !Has(w.store, ev.task) || !At(w.store, ev.task).body.TaskStart? then Refused(409)
    else if Ended(w.store, ev.task) then Refused(409)
    else if PendingIn(w, ev.task) then Refused(409)
    else
      var rows := InTask(w.store, ev.task);
      Sealing(InTaskOf(w, BaseRecord(ev.ts, TaskEnd(Tally(rows), LastSeq(rows, ev.task))), ev.task))
  }

  /** A validated token, or how the session's principal was established: a key session claims none. */
  function PrincipalBy(ev: Event): PrincipalAuth
    requires ev.StartTask?
  {
    if ev.token || ev.session.auth == OidcAuth then ByOidc else ByNone
  }

  function StartDraft(w: WState, ev: Event): Draft
    requires ev.StartTask?
  {
    if ev.session !in w.sessions then Refused(401)
    else if ev.delegatedFrom.Garbled?
            || (ev.delegatedFrom.Dec? && !(Has(w.store, ev.delegatedFrom.n)
                                           && At(w.store, ev.delegatedFrom.n).body.TaskStart?)) then Refused(400)
    else if !Active(w, ev.session.agent) then Refused(401)
    else Sealing(BaseRecord(ev.ts, TaskStart(ev.session.auth, ev.session.id, ev.delegatedFrom, ev.harness, "", PrincipalBy(ev)))
                   .(agent := ev.session.agent, principal := ev.principal))
  }

  /** `adopt_rulepack`: a rulepack_change iff the hash differs from the chain's. */
  function AdoptDraft(w: WState, ts: int, pack: Pack): Draft {
    if pack.hash == w.rulepackHash then Nothing
    else Sealing(BaseRecord(ts, RulepackChange(w.rulepackHash, pack.hash)).(rulepack := pack.hash))
  }

  /** `Node.__init__`: the memory rebuilt from the stored records. */
  function Rebuilt(w: WState): WState {
    w.(head := |w.store|, rulepackHash := RulepackOf(w.store), agents := AgentsOf(w.store),
       approvals := ApprovalsOf(w.store))
  }

  /** `Approvals.apply` on one sealed approval record. */
  function ApplyApproval(items: map<string, Pending>, r: Record): map<string, Pending> {
    match r.body
    case ApprovalRequest(aid, _, _, timeoutMs, _, _) => items[aid := Pending(r, r.ts + timeoutMs, None, 0)]
    case ApprovalDecision(aid, outcome, _, _) =>
      if aid in items then items[aid := items[aid].(outcome := Some(outcome), decisionSeq := r.pos)] else items
    case _ => items
  }

  function ApprovalsOf(chain: seq<Record>): map<string, Pending> {
    if chain == [] then map[] else ApplyApproval(ApprovalsOf(chain[..|chain| - 1]), chain[|chain| - 1])
  }

  /** A chain under a rule pack does not start without one. */
  predicate Starts(w: WState, pack: Option<Pack>) { pack.Some? || RulepackOf(w.store) == "" }

  /** The rule pack file an event puts in force, before anything is sealed. */
  function Loaded(w: WState, ev: Event): WState {
    match ev
    case AdoptPack(_, pack) => w.(pack := Some(pack))
    case Restart(_, pack) => if Starts(w, pack) then Rebuilt(w).(pack := pack) else w
    case Halt(_, on) => w.(halted := on)
    case OpenSession(s) => if SessionOpens(w, s) then w.(sessions := w.sessions + {s}) else w
    case _ => w
  }

  /** /api/agent/session: an active agent, authenticated the way it registered. */
  predicate SessionOpens(w: WState, s: Session) {
    Active(w, s.agent) && s.auth == w.agents[s.agent].auth && (s.auth == KeyAuth || s.auth == OidcAuth)
  }

  function DraftOf(env: Env, w: WState, ev: Event): Draft {
    match ev
    case OpenSession(_) => Nothing
    case ChangePolicy(ts, hits) => Sealing(BaseRecord(ts, PolicyChange).(hits := RuleHits(hits)))
    case Halt(ts, on) =>
      if on == w.halted then Nothing
      else Sealing(BaseRecord(ts, PolicyChange).(hits := [Rule(if on then HALTED else "resumed")]))
    case AdoptPack(ts, pack) => AdoptDraft(w, ts, pack)
    case Restart(ts, pack) => if pack.Some? then AdoptDraft(Rebuilt(w), ts, pack.value) else Nothing
    case Register(ts, agent, auth, key) =>
      if agent in w.agents then Refused(409)
      else if auth != KeyAuth && auth != OidcAuth && auth != RelayAuth then Refused(400)
      else Sealing(BaseRecord(ts, AgentRegister(auth, key, true, true)).(agent := agent))
    case Rotate(ts, agent, oldKey, newKey) =>
      if !Active(w, agent) then Refused(401)
      else if w.agents[agent].auth != KeyAuth || w.agents[agent].key != oldKey then Refused(409)
      else Sealing(BaseRecord(ts, AgentRotate(oldKey, newKey, true)).(agent := agent))
    case Revoke(ts, agent, key) =>
      if agent !in w.agents then Refused(404)
      else if w.agents[agent].revoked || w.agents[agent].key != key then Refused(409)
      else Sealing(BaseRecord(ts, AgentRevoke(key)).(agent := agent, mode := Enforce, decision := Block))
    case StartTask(_, _, _, _, _, _) => StartDraft(w, ev)
    case EndTask(_, _) => EndDraft(w, ev)
    case Infer(_, _, _, _, _, _, _, _, _, _, _, _, _) => InferDraft(env, w, ev)
    case Act(_, _, _, _, _) => ActDraft(env, w, ev)
    case Ask(_, _, _, _, _, _, _, _, _, _, _, _) => AskDraft(w, ev)
    case Decide(_, _, _, _, _) => DecideDraft(w, ev)
    case Expire(_, _) => ExpireDraft(w, ev)
  }

  /** The state with one more sealed record, folded into the node's memory. */
  function Commit(w: WState, r: Record): WState {
    w.(store := w.store + [r], head := w.head + 1,
       rulepackHash := if r.body.RulepackChange? then r.rulepack else w.rulepackHash,
       agents := NextAgents(w.agents, r), approvals := ApplyApproval(w.approvals, r))
  }

  /** The record an event seals in this state, if any. */
  function SealedBy(env: Env, w: WState, ev: Event): Option<Record> {
    match DraftOf(env, w, ev)
    case Sealing(r) => Stamped(Loaded(w, ev), r)
    case _ => None
  }

  function Step(env: Env, w: WState, ev: Event): WState {
    var w' := Loaded(w, ev);
    var r := SealedBy(env, w, ev);
    if r.Some? then Commit(w', r.value) else w'
  }

  // ---- what the endpoints, the pack loader and a random id guarantee of an event ----

  predicate UniqueGlobs(globs: seq<(string, nat)>) {
    forall i, j | 0 <= i < j < |globs| :: globs[i].0 != globs[j].0
  }

  /** rulepack.py `load`: a hash of the file's bytes, unique budget ids, one limit per glob. */
  predicate LoadedPack(p: Pack) {
    && p.hash != ""
    && (forall i, j | 0 <= i < j < |p.budgets| :: p.budgets[i].id != p.budgets[j].id)
    && (forall i | 0 <= i < |p.budgets| :: UniqueGlobs(p.budgets[i].limits.toolCallsBy))
  }

  /** chat_completions: a call not forwarded is a block; the halt and a budget excess at entry both block, and a
      halted call evaluated no budget. Approval ids are fresh and route timeouts positive. */
  predicate Shaped(w: WState, ev: Event) {
    match ev
    case Infer(_, _, _, _, rules, early, _, decision, _, _, _, forwarded, _) =>
      && (!forwarded || early != [] || HALTED in rules ==> decision == Block)
      && (early != [] ==> !forwarded && HALTED !in rules)
    case Ask(_, _, _, _, _, _, aid, _, _, timeoutMs, _, _) => aid !in w.approvals && timeoutMs > 0
    case AdoptPack(_, pack) => LoadedPack(pack)
    case Restart(_, pack) => pack.Some? ==> LoadedPack(pack.value)
    case _ => true
  }

  const START := WState([], 0, "", None, map[], map[], {}, false)

  /** The state after a run of events from an empty database. */
  function After(env: Env, evs: seq<Event>): WState {
    if evs == [] then START else Step(env, After(env, evs[..|evs| - 1]), evs[|evs| - 1])
  }
}
