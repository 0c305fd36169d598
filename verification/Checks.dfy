/** What the verifier checks on one record, as functions of the state it keeps (verifier/sijill_verify.py).

    `Verify` is the first check that fails, in the order the verifier runs them; `Next` is the state after a record
    that passed. `Run` folds both over a chain. */
module Checks {
  import opened Records

  /** The `code` of a failed check; `Ok` when none failed. */
  datatype Code =
    | Ok
    | Gap | ContentAltered | ChainBroken | SignatureInvalid
    | UnknownType | ParentMalformed | ParentNotEarlier | ParentMissing | ParentType | OrphanToolCall
    | ArgsNotRequested | DuplicateToolResult | DriftBaselineMismatch
    | SchemaDowngrade | RulepackChangeMismatch | RulepackUnsealed
    | CostMismatch
    | TaskMissing | TaskNotEarlier | TaskType | RecordOutsideTask | TaskEndWithoutTaskStart | TaskSeqNotAllowed
    | TaskAlreadyEnded | ParentInDifferentTask | AgentIdDiffers | PrincipalDiffers
    | ApprovalRequestMalformed | ApprovalDecisionInvalid | ApprovalAfterDeadline | ApproverIsPrincipal
    | ApprovalMismatch | ApprovalReused | ApprovalUndecided
    | HttpToolCallMalformed | AfterTheFactEnforced | BudgetCounterMismatch | BudgetUnenforced
    | BudgetLimitNotInPack | BudgetSpuriousHit
    | UnauthenticatedAgent | AgentNotRegistered | AgentIsRevoked | AgentAuthInconsistent | DelegatedFromMissing
    | AgentAlreadyRegistered | AgentRegisterMalformed | AgentSelfProofInvalid
    | RotationKeyMismatch | AgentRotationProofInvalid | AgentAlreadyRevoked | RevokeKeyMismatch
    | DuplicateTaskEnd | TaskEndCountsMismatch

  datatype Seen = Seen(body: Body, inputHash: string, task: Ref)

  datatype Task = Task(agent: string, principal: Principal, ended: bool, counts: Counts, lastSeq: nat,
                       pending: set<string>, calls: seq<string>, hosts: set<string>, spend: int)

  datatype Request = Request(pos: nat, task: Ref, qualified: string, inputHash: string, parent: Ref,
                             hits: set<Hit>, deadline: int, minAssurance: Level, sod: bool)

  datatype Decided = Decided(req: Request, outcome: Outcome, used: bool)

  datatype Agent = Agent(registeredAt: nat, key: string, auth: AgentAuth, revoked: bool)

  /** `requests`, `decided` and `decisions` are the approvals: what was asked, the seq of the decision that
      answered it, and by decision seq what was answered and whether a tool_call has cited it. */
  datatype VState = VState(seen: map<int, Seen>, resultParents: set<int>, rulepack: string, rulepackSeen: bool,
                           agents: map<string, Agent>, tasks: map<int, Task>, requests: map<string, Request>,
                           decided: map<string, int>, decisions: map<int, Decided>)

  const ZERO := Counts(0, 0, 0, 0, 0, 0, 0)

  function Init(): VState {
    VState(map[], {}, "", false, map[], map[], map[], map[], map[])
  }

  // ---- checks 5-7 and A-E: the causal parent and the rule pack hash ----

  /** The record type a causal parent must have, per record type. */
  predicate RightParent(body: Body, parent: Body) {
    match body
    case ToolCall(_, _, _, _, _, _, _, _, _) => parent.Inference?
    case ToolResult => parent.ToolCall?
    case Egress(_, _) => parent.ToolCall?
    case IntegrityDrift => parent.IntegrityBaseline?
    case _ => true
  }

  /** One of the parent's tool_uses asked for these arguments (under this id, when the call names one). */
  predicate Requested(parent: Body, r: Record)
    requires r.body.ToolCall?
  {
    parent.Inference? &&
    exists u <- parent.uses :: u.argsHash == r.inputHash && (r.body.toolUseId.None? || u.id == r.body.toolUseId)
  }

  function ParentCode(env: Env, s: VState, r: Record): Code {
    if r.body.Unknown? then UnknownType
    else match r.parent
      case Garbled => ParentMalformed
      case Blank =>
        if r.body.IntegrityDrift? then ParentMissing
        else if r.body.ToolCall? && !(r.body.uncorrelated && env.allowOrphans) then OrphanToolCall
        else Ok
      case Dec(n) =>
        if n >= r.pos then ParentNotEarlier
        else if n !in s.seen then ParentMissing
        else if !RightParent(r.body, s.seen[n].body) then ParentType
        else if r.body.ToolCall? && !Requested(s.seen[n].body, r) then ArgsNotRequested
        else if r.body.ToolResult? && n in s.resultParents then DuplicateToolResult
        else if r.body.IntegrityDrift? && r.inputHash != s.seen[n].inputHash then DriftBaselineMismatch
        else Ok
  }

  function RulepackCode(s: VState, r: Record): Code {
    if r.rulepack == "" && s.rulepackSeen then SchemaDowngrade
    else if r.body.RulepackChange? then
      (if r.body.before != s.rulepack || r.body.after != r.rulepack then RulepackChangeMismatch else Ok)
    else if r.rulepack != s.rulepack then RulepackUnsealed
    else Ok
  }

  /** The pack given to the verifier, when it is the one this record was sealed under. */
  function PackFor(env: Env, r: Record): Option<Pack> {
    if env.pack.Some? && env.pack.value.hash == r.rulepack then env.pack else None
  }

  function FloorMicro(n: int): int { n / 1000000 }

  /** The cost the pack gives this inference; None when its usage or price_rule does not give one. */
  function CostOf(price: Price, b: Body): Option<int>
    requires b.Inference?
  {
    if b.priceRule != Some(price.id) then None
    else match b.usage
      case None => Some(price.missingUsage)
      case Some(u) =>
        if u.input < 0 || u.output < 0 then None
        else Some(FloorMicro(u.input * price.inputPerMtok + u.output * price.outputPerMtok))
  }

  predicate CostFits(env: Env, pack: Pack, r: Record)
    requires r.body.Inference?
  {
    var price := PriceOf(env, pack.pricing, r.digest);
    var carried := r.body.priceRule.Some? || !r.body.cost.NoInt?;
    if price.None? then !carried
    else if r.decision == Block && !carried then true
    else
      var want := CostOf(price.value, r.body);
      r.body.priceRule == Some(price.value.id) && want.Some? && r.body.cost == Int(want.value)
  }

  function CostCode(env: Env, r: Record): Code {
    if !r.body.Inference? then Ok
    else if r.body.cost.NotInt? || (r.body.cost.Int? && r.body.cost.i < 0) then CostMismatch
    else if PackFor(env, r).Some? && !CostFits(env, PackFor(env, r).value, r) then CostMismatch
    else Ok
  }

  // ---- H, I: tasks and identity ----

  predicate NeedsTask(b: Body) { b.ToolCall? || b.ToolResult? || b.Egress? }

  predicate TaskForbidden(b: Body) {
    b.TaskStart? || b.PolicyChange? || b.RulepackChange? || b.AgentRegister? || b.AgentRotate? || b.AgentRevoke?
    || b.AgentIdentityUpdate?
  }

  /** The task a record names, when it is one the verifier has opened. */
  function TaskOf(s: VState, r: Record): Option<Task> {
    if r.task.Dec? && r.task.n in s.tasks then Some(s.tasks[r.task.n]) else None
  }

  function TaskCode(s: VState, r: Record): Code {
    if r.task.Garbled? then TaskMissing
    else if r.task.Dec? && r.task.n >= r.pos then TaskNotEarlier
    else if r.task.Dec? && r.task.n !in s.seen then TaskMissing
    else if r.task.Dec? && !s.seen[r.task.n].body.TaskStart? then TaskType
    else if r.task.Blank? && NeedsTask(r.body) then RecordOutsideTask
    else if r.task.Blank? && r.body.TaskEnd? then TaskEndWithoutTaskStart
    else if r.task.Dec? && TaskForbidden(r.body) then TaskSeqNotAllowed
    else
      var task := TaskOf(s, r);
      if task.Some? && task.value.ended && !r.body.TaskEnd? then TaskAlreadyEnded
      else if r.parent.Dec? && r.parent.n in s.seen && !r.body.IntegrityDrift? && s.seen[r.parent.n].task != r.task
        then ParentInDifferentTask
      else if task.Some? && r.agent != task.value.agent then AgentIdDiffers
      else if task.Some? && r.principal != task.value.principal then PrincipalDiffers
      else Ok
  }

  // ---- V-V4: named approval ----

  function RequestOf(r: Record): Request
    requires r.body.ApprovalRequest?
  {
    Request(r.pos, r.task, r.body.qualified, r.inputHash, r.parent, (set h | h in r.hits), r.ts + r.body.timeoutMs,
            r.body.minAssurance, r.body.sod)
  }

  predicate RequestFits(env: Env, s: VState, r: Record)
    requires r.body.ApprovalRequest?
  {
    && TaskOf(s, r).Some?
    && r.body.aid !in s.requests
    && r.mode == RecordOnly && r.decision == Flag
    && r.body.timeoutMs > 0
    && (if r.parent.Dec? && r.parent.n in s.seen then s.seen[r.parent.n].body.Inference?
        else r.body.uncorrelated && env.allowOrphans)
  }

  function DecisionCode(s: VState, r: Record): Code
    requires r.body.ApprovalDecision?
  {
    var b := r.body;
    if b.aid !in s.requests then ApprovalDecisionInvalid
    else
      var req := s.requests[b.aid];
      if b.aid in s.decided || r.parent != Dec(req.pos) || r.task != req.task || r.inputHash != req.inputHash
         || (r.mode, r.decision) != (if b.outcome == Grant then (RecordOnly, Allow) else (Enforce, Block))
        then ApprovalDecisionInvalid
      else if b.outcome == Grant || b.outcome == Refusal then
        if r.ts >= req.deadline then ApprovalAfterDeadline
        else if !(b.approver.Some? && b.approver.value.Human? && b.assurance.Some?
                  && Rank(b.assurance.value) >= Rank(req.minAssurance)) then ApprovalDecisionInvalid
        else if req.sod && b.approver.value == r.principal then ApproverIsPrincipal
        else Ok
      else if b.outcome != Timeout || r.ts < req.deadline || b.approver.Some? then ApprovalDecisionInvalid
      else Ok
  }

  /** The approval decision a tool_call's approval_seq names. */
  function Cited(s: VState, b: Body): Option<Decided> {
    if b.ToolCall? && b.approvalSeq.Int? && b.approvalSeq.i in s.decisions then Some(s.decisions[b.approvalSeq.i])
    else None
  }

  /** A grant covers the budget excesses and the confirm hits its request named, and no others. */
  predicate Covers(env: Env, r: Record, req: Request) {
    var pack := PackFor(env, r);
    forall h <- r.hits :: h.Over? || (pack.Some? && ConfirmHit(pack.value, h)) ==> h in req.hits
  }

  predicate CiteFits(env: Env, r: Record, d: Decided)
    requires r.body.ToolCall?
  {
    var granted := d.outcome == Grant;
    && d.req.task == r.task && d.req.qualified == r.body.qualified && d.req.inputHash == r.inputHash
    && d.req.parent == r.parent
    && (granted ==> Covers(env, r, d.req))
    && (r.body.confirmation == Granted <==> granted)
    && (r.decision, r.mode) == (if granted then (Flag, RecordOnly) else (Block, Enforce))
  }

  predicate RelayedAfterTheFact(s: VState, r: Record)
    requires r.body.ToolCall?
  {
    r.body.afterTheFact && r.body.byRelay && r.agent in s.agents && s.agents[r.agent].auth == RelayAuth
  }

  predicate UncitedConfirm(env: Env, s: VState, r: Record)
    requires r.body.ToolCall?
  {
    var pack := PackFor(env, r);
    && pack.Some? && pack.value.entra
    && r.decision != Block
    && !RelayedAfterTheFact(s, r)
    && (r.body.confirmation == Granted || exists h <- r.hits :: ConfirmHit(pack.value, h))
  }

  function ApprovalCode(env: Env, s: VState, r: Record): Code {
    match r.body
    case ApprovalDecision(_, _, _, _) => DecisionCode(s, r)
    case ApprovalRequest(_, _, _, _, _, _) => if RequestFits(env, s, r) then Ok else ApprovalRequestMalformed
    case ToolCall(_, _, _, _, approvalSeq, _, _, _, _) =>
      if !approvalSeq.NoInt? then
        var d := Cited(s, r.body);
        if d.None? || !CiteFits(env, r, d.value) then ApprovalMismatch
        else if d.value.used then ApprovalReused
        else Ok
      else if UncitedConfirm(env, s, r) then ApprovalMismatch
      else Ok
    case TaskEnd(_, _) =>
      var task := TaskOf(s, r);
      if task.Some? && task.value.pending != {} then ApprovalUndecided else Ok
    case _ => Ok
  }

  // ---- X, X1, W-W2: budgets ----

  function BudgetOf(b: Body): BudgetKey {
    match b
    case Inference(_, _, _, _, budget) => budget
    case ToolCall(_, _, _, _, _, _, _, _, budget) => budget
    case Egress(_, budget) => budget
    case _ => NoBudget
  }

  /** The record type a metric counts. */
  predicate Counted(m: Metric, b: Body) {
    match m
    case ToolCalls => b.ToolCall?
    case ToolCallsBy(_) => b.ToolCall?
    case EgressHosts => b.Egress?
    case SpendMicro => b.Inference?
    case BareCallsBy => b.ToolCall?
    case OtherMetric(_) => false
  }

  function CountMatching(env: Env, calls: seq<string>, glob: string): nat {
    if calls == [] then 0
    else CountMatching(env, calls[..|calls| - 1], glob) + (if env.glob(calls[|calls| - 1], glob) then 1 else 0)
  }

  /** The verifier's own value of a metric over the task's earlier records. */
  function OwnCount(env: Env, k: Task, m: Metric): int {
    match m
    case ToolCalls => |k.calls|
    case ToolCallsBy(g) => CountMatching(env, k.calls, g)
    case EgressHosts => |k.hosts|
    case SpendMicro => k.spend
    case BareCallsBy => k.spend
    case OtherMetric(_) => 0
  }

  predicate Admitted(env: Env, k: Task, b: Body, e: Entry)
    requires e.Entry?
  {
    if e.metric == EgressHosts && b.Egress? && b.host.Str? && env.lower(b.host.s) in k.hosts then true
    else if e.metric == SpendMicro then e.used < e.limit
    else e.used + 1 <= e.limit
  }

  function GlobLimit(globs: seq<(string, nat)>, g: string): Option<int> {
    if globs == [] then None else if globs[0].0 == g then Some(globs[0].1) else GlobLimit(globs[1..], g)
  }

  function LimitIn(l: Limits, m: Metric): Option<int> {
    match m
    case ToolCalls => if l.toolCalls.Some? then Some(l.toolCalls.value) else None
    case ToolCallsBy(g) => GlobLimit(l.toolCallsBy, g)
    case EgressHosts => if l.egressHosts.Some? then Some(l.egressHosts.value) else None
    case SpendMicro => if l.spendMicro.Some? then Some(l.spendMicro.value) else None
    case BareCallsBy => None
    case OtherMetric(_) => None
  }

  /** The limits by budget id: of two budgets with one id the later counts. */
  function PackLimit(budgets: seq<BudgetRule>, bid: string, m: Metric): Option<int> {
    if budgets == [] then None
    else if budgets[|budgets| - 1].id == bid then LimitIn(budgets[|budgets| - 1].limits, m)
    else PackLimit(budgets[..|budgets| - 1], bid, m)
  }

  function EntryCode(env: Env, s: VState, k: Task, r: Record, e: Entry): Code {
    if e.BadEntry? || !Counted(e.metric, r.body) || e.used != OwnCount(env, k, e.metric) then BudgetCounterMismatch
    else
      var d := Cited(s, r.body);
      var granted := d.Some? && d.value.outcome == Grant;
      if !Admitted(env, k, r.body, e) && !(Over(e.bid, e.metric) in r.hits && (r.decision == Block || granted))
        then BudgetUnenforced
      else if PackFor(env, r).Some? && PackLimit(PackFor(env, r).value.budgets, e.bid, e.metric) != Some(e.limit)
        then BudgetLimitNotInPack
      else Ok
  }

  function EntriesCode(env: Env, s: VState, k: Task, r: Record, es: seq<Entry>): Code {
    if es == [] then Ok
    else
      var c := EntryCode(env, s, k, r, es[0]);
      if c != Ok then c else EntriesCode(env, s, k, r, es[1..])
  }

  function Entries(b: Body): seq<Entry> {
    if BudgetOf(b).Budget? then BudgetOf(b).entries else []
  }

  /** The hit is the excess of a budget entry this record seals. */
  predicate Failed(env: Env, k: Task, b: Body, h: Hit) {
    exists e <- Entries(b) :: e.Entry? && h == Over(e.bid, e.metric) && !Admitted(env, k, b, e)
  }

  predicate Spurious(env: Env, k: Task, r: Record) {
    exists h <- r.hits :: h.Over? && !Failed(env, k, r.body, h)
  }

  function BudgetCode(env: Env, s: VState, k: Task, r: Record): Code {
    if r.body.ToolCall? && !r.body.httpShaped then HttpToolCallMalformed
    else if r.body.ToolCall? && r.body.afterTheFact && (r.mode != RecordOnly || r.decision == Block)
      then AfterTheFactEnforced
    else if BudgetOf(r.body).BadBudget? then BudgetCounterMismatch
    else
      var c := EntriesCode(env, s, k, r, Entries(r.body));
      if c != Ok then c
      else if !r.body.ApprovalRequest? && !r.body.ApprovalDecision? && Spurious(env, k, r) then BudgetSpuriousHit
      else Ok
  }

  // ---- J-N, K-K3, L: tasks and agents ----

  predicate AuthConsistent(registered: AgentAuth, auth: AgentAuth) {
    match registered
    case KeyAuth => auth == KeyAuth || auth == MtlsAuth
    case OidcAuth => auth == OidcAuth
    case RelayAuth => auth == RelayAuth
    case _ => false
  }

  function ActiveCode(s: VState, agent: string): Code {
    if agent !in s.agents then AgentNotRegistered else if s.agents[agent].revoked then AgentIsRevoked else Ok
  }

  function StartCode(env: Env, s: VState, r: Record): Code
    requires r.body.TaskStart?
  {
    var b := r.body;
    if b.agentAuth == OtherAuth || b.principalAuth == ByOther || (b.agentAuth == NoAuth && !env.allowUnauthenticated) then UnauthenticatedAgent
    else if b.agentAuth != NoAuth && ActiveCode(s, r.agent) != Ok then ActiveCode(s, r.agent)
    else if b.agentAuth != NoAuth && !AuthConsistent(s.agents[r.agent].auth, b.agentAuth) then AgentAuthInconsistent
    else if b.delegatedFrom.Blank? then Ok
    else if b.delegatedFrom.Dec? && b.delegatedFrom.n < r.pos && b.delegatedFrom.n in s.seen
            && s.seen[b.delegatedFrom.n].body.TaskStart? then Ok
    else DelegatedFromMissing
  }

  function RegisterCode(s: VState, r: Record): Code
    requires r.body.AgentRegister?
  {
    if r.agent in s.agents then AgentAlreadyRegistered
    else if !r.body.wellFormed || !(r.body.auth in {KeyAuth, OidcAuth, RelayAuth}) then AgentRegisterMalformed
    else if r.body.auth == KeyAuth && !r.body.proven then AgentSelfProofInvalid
    else Ok
  }

  function RotateCode(s: VState, r: Record): Code
    requires r.body.AgentRotate?
  {
    if ActiveCode(s, r.agent) != Ok then ActiveCode(s, r.agent)
    else if s.agents[r.agent].auth != KeyAuth || r.body.oldKey != s.agents[r.agent].key then RotationKeyMismatch
    else if !r.body.proven then AgentRotationProofInvalid
    else Ok
  }

  function RevokeCode(s: VState, r: Record): Code
    requires r.body.AgentRevoke?
  {
    if r.agent !in s.agents then AgentNotRegistered
    else if s.agents[r.agent].revoked then AgentAlreadyRevoked
    else if r.body.key != s.agents[r.agent].key then RevokeKeyMismatch
    else Ok
  }

  function EndCode(s: VState, r: Record): Code
    requires r.body.TaskEnd?
  {
    var task := TaskOf(s, r);
    if task.None? then Ok
    else if task.value.ended then DuplicateTaskEnd
    else if r.body.counts != task.value.counts || r.body.lastSeq != task.value.lastSeq then TaskEndCountsMismatch
    else Ok
  }

  function KindCode(env: Env, s: VState, r: Record): Code {
    match r.body
    case TaskStart(_, _, _, _, _, _) => StartCode(env, s, r)
    case AgentRegister(_, _, _, _) => RegisterCode(s, r)
    case AgentRotate(_, _, _) => RotateCode(s, r)
    case AgentRevoke(_) => RevokeCode(s, r)
    case TaskEnd(_, _) => EndCode(s, r)
    case _ => Ok
  }

  /** The first failing check on a record that passed the four chain checks, in the verifier's order. */
  function Verify(env: Env, s: VState, r: Record): Code {
    var a := ParentCode(env, s, r);
    if a != Ok then a else
    var b := RulepackCode(s, r);
    if b != Ok then b else
    var c := CostCode(env, r);
    if c != Ok then c else
    var d := TaskCode(s, r);
    if d != Ok then d else
    var e := ApprovalCode(env, s, r);
    if e != Ok then e else
    var task := TaskOf(s, r);
    var f := if task.Some? then BudgetCode(env, s, task.value, r) else Ok;
    if f != Ok then f else
    KindCode(env, s, r)
  }

  // ---- the state after a record that passed ----

  function SeenOf(r: Record): Seen { Seen(r.body, r.inputHash, r.task) }

  function One(b: bool): nat { if b then 1 else 0 }

  function Tallied(c: Counts, r: Record): Counts {
    var confirmation := if r.body.ToolCall? then r.body.confirmation else NoConfirmation;
    Counts(c.inference + One(r.body.Inference?), c.toolCalls + One(r.body.ToolCall?),
           c.blocked + One(r.decision == Block), c.confirmed + One(confirmation == Granted),
           c.denied + One(confirmation == Denied || confirmation == Unavailable),
           c.flagged + One(r.decision == Flag), c.egress + One(r.body.Egress?))
  }

  function NextCalls(calls: seq<string>, r: Record): seq<string> {
    if r.body.ToolCall? && r.decision != Block then calls + [r.body.qualified] else calls
  }

  function NextHosts(env: Env, hosts: set<string>, r: Record): set<string> {
    if r.body.Egress? && r.decision != Block && r.body.host.Str? then hosts + {env.lower(r.body.host.s)} else hosts
  }

  function NextSpend(spend: int, r: Record): int {
    if r.body.Inference? && r.body.cost.Int? then spend + r.body.cost.i else spend
  }

  function NextPending(pending: set<string>, r: Record): set<string> {
    match r.body
    case ApprovalRequest(aid, _, _, _, _, _) => pending + {aid}
    case ApprovalDecision(aid, _, _, _) => pending - {aid}
    case _ => pending
  }

  function Advance(env: Env, k: Task, r: Record): Task {
    if r.body.TaskEnd? then k.(ended := true)
    else Task(k.agent, k.principal, k.ended, Tallied(k.counts, r), r.pos, NextPending(k.pending, r),
              NextCalls(k.calls, r), NextHosts(env, k.hosts, r), NextSpend(k.spend, r))
  }

  function Opened(r: Record): Task {
    Task(r.agent, r.principal, false, ZERO, r.pos, {}, [], {}, 0)
  }

  function NextTasks(env: Env, s: VState, r: Record): map<int, Task> {
    if r.body.TaskStart? then s.tasks[r.pos := Opened(r)]
    else if r.task.Dec? && r.task.n in s.tasks then s.tasks[r.task.n := Advance(env, s.tasks[r.task.n], r)]
    else s.tasks
  }

  function NextAgents(agents: map<string, Agent>, r: Record): map<string, Agent> {
    match r.body
    case AgentRegister(auth, key, _, _) =>
      agents[r.agent := Agent(r.pos, if auth == KeyAuth then key else "", auth, false)]
    case AgentRotate(_, newKey, _) =>
      if r.agent in agents then agents[r.agent := agents[r.agent].(key := newKey)] else agents
    case AgentRevoke(_) =>
      if r.agent in agents then agents[r.agent := agents[r.agent].(revoked := true)] else agents
    case _ => agents
  }

  function NextRequests(s: VState, r: Record): map<string, Request> {
    if r.body.ApprovalRequest? then s.requests[r.body.aid := RequestOf(r)] else s.requests
  }

  function NextDecided(s: VState, r: Record): map<string, int> {
    if r.body.ApprovalDecision? then s.decided[r.body.aid := r.pos] else s.decided
  }

  function NextDecisions(s: VState, r: Record): map<int, Decided> {
    if r.body.ApprovalDecision? && r.body.aid in s.requests then
      s.decisions[r.pos := Decided(s.requests[r.body.aid], r.body.outcome, false)]
    else if Cited(s, r.body).Some? then
      s.decisions[r.body.approvalSeq.i := Cited(s, r.body).value.(used := true)]
    else s.decisions
  }

  function Next(env: Env, s: VState, r: Record): VState {
    VState(s.seen[r.pos := SeenOf(r)],
           if r.body.ToolResult? && r.parent.Dec? then s.resultParents + {r.parent.n} else s.resultParents,
           r.rulepack, s.rulepackSeen || r.rulepack != "", NextAgents(s.agents, r), NextTasks(env, s, r),
           NextRequests(s, r), NextDecided(s, r), NextDecisions(s, r))
  }

  /** The walk over a chain: the code of the first failing record and the state before it, or Ok and the state
      after the last record. */
  function Run(env: Env, chain: seq<Record>): (Code, VState) {
    if chain == [] then (Ok, Init())
    else
      var (c, s) := Run(env, chain[..|chain| - 1]);
      var r := chain[|chain| - 1];
      if c != Ok then (c, s)
      else if r.pos != |chain| then (Gap, s)
      else if Verify(env, s, r) != Ok then (Verify(env, s, r), s)
      else (Ok, Next(env, s, r))
  }

  predicate Accepted(env: Env, chain: seq<Record>) { Run(env, chain).0 == Ok }

  function StateAfter(env: Env, chain: seq<Record>): VState { Run(env, chain).1 }
}
