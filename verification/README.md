# Sijil, modelled in Dafny

Sijil keeps an append-only, hash-chained ledger of what AI agents do. A ledger node seals one record at a time; a
separate verifier walks a finished chain once, with running state, and says PASS or names the first check that fails; a
guard beside the agent's tools decides what is relayed. This project models the node and the verifier as two programs
that must agree, proves what an accepted chain guarantees no matter who wrote it, and proves the exact claims of five
guard algorithms and of the trace tool.

How the modules fit together:

- `Records`: the record, the rule pack, and `Env`, which holds library behaviour (`fnmatchcase`, `str.lower`) as
  arbitrary functions and the verifier's options.
- `Checks`: what the verifier decides on one record as functions of its state (`Verify`, `Next`, `Run`). `Verifier` is
  the verifier as it runs: a class `State` mutated check by check, and the loop of `verify_full`, proved against
  `Checks`.
- `Store`, `Budgets`, `Writer`: the store's queries, the budget evaluation, and the ledger as a state machine whose
  events are its endpoints, its timers, reloads and restarts. `LedgerNode` is the node as it runs: a class `Node`,
  proved against `Writer`.
- `Reference`, `Recounts`: the verifier again, without running state. A record is sound after the records before it,
  said of those records alone and without the verifier's own definitions, and the walk accepts a chain exactly when
  every record is sound. `Reasons`: which check a record fails, said in the same way.
- `ChainFacts`, `Guarantees`, `ConfirmRules`: what holds of every accepted chain.
- `Runs`, `ApprovalRuns`, `ToolUseRuns`, `BudgetRuns`: what holds of every run of the ledger.
- `BudgetStamps`, `Refinement`, `ActRefinement`, `ScopeLimits`: the chain a run writes is accepted, and exactly when.
  `GuardsExact`: the ledger's guards refuse exactly what they should. `EndpointsExact`, `SettledExact`: when each
  endpoint seals and what, column by column, said of the chain's records. `BrokenRuns`: runs, event by event, that fail.
  `BareMetric`: a budget entry the verifier accepts and the ledger never seals.
- `Canonical`, `HashChain`: the canonical form of a record, and what the hash chain pins down.
- `ToolCheck`, `Framing`, `ResultBudget`, `UrlScan`, `InvisibleUnicode`: the guard. `Trace`: the trace tool.

## Where the code does less than its purpose

Each of these has the exact condition under which the code meets its purpose, and an input on which it does not.

- The ledger does not check everything the verifier does. `ScopeLimits.RunAcceptedIff` says exactly when a run's chain
  passes, as a condition (`Refinement.InScope`) on each call and the state it meets: an orphan needs the verifier's
  option; a tool_call has the shape of its door; one that claims to be after the fact is flagged or allowed, in record
  mode, and no halt is on; one let through over budget cites an approval; and an egress meets every host limit in force
  with equal counts, by a host that is a string, new, or within the limit.
- `stamp` takes `confirmation: granted` at its word (sijill/budgets.py:78-79), so under the `self` channel a granted
  call over budget that cites nothing fails the chain (`ScopeLimits.UncitedOverBudget`, and event by event
  `BrokenRuns.UncitedRunFails`).
- A call that claims `after_the_fact` while the operator halt is on is sealed blocked and still claims it, which check
  X1 refuses (`ScopeLimits.HaltedAfterTheFact`, `BrokenRuns.HaltedRunFails`).
- An egress whose `host` is not a string counts as a host for the ledger and not for the verifier. The counts differ
  exactly when no string egress of the task reached the same lower-cased text (`ScopeLimits.NonTextHostCounts`), and the
  next egress passes exactly when the host limits still fit (`ScopeLimits.EgressAcceptedIff`).
  `BrokenRuns.HostRunFails` is a run whose chain passes after the first such egress and fails after the next one.
- The verifier accepts a budget entry under the bare name `tool_calls_by`, measured by model spend
  (`Reference.BareEntryIff` says exactly when). `BareMetric.BareAccepted` is a chain of four records with such an entry
  that passes; no run of the ledger seals one (`BareMetric.NeverBare`).
- One stripping pass leaves nothing flagged exactly when every joiner it keeps still joins its nearest kept neighbours
  (`InvisibleUnicode.CleanIff`, for every text). For every text of a database at once, exactly when no code point is
  dropped that a kept joiner may rely on (`InvisibleUnicode.OnePassIff`); unassigned code points inside the pictographic
  blocks are such code points (`InvisibleUnicode.TwoPasses`), and the blocks do contain some.

## Model

| member | source | states |
|---|---|---|
| Verifier.State.constructor | verifier/sijill_verify.py:165-185 | the walk starts from the empty state |
| Verifier.State.CheckRecord | verifier/sijill_verify.py:188-242 | returns the first failing check of the record in the verifier's order, judged by the state the record found although earlier checks have already written to it; when none fails the whole new state is `Next` and every request and task_start seen still has its task |
| Verifier.State.CheckLinks | verifier/sijill_verify.py:191-231 | checks 5-7, A-E: parent before rule pack; a passing tool_result takes its parent and the record's pack hash is adopted |
| Verifier.State.AskedFor | verifier/sijill_verify.py:210-214 | the search finds a tool_use that asks for the call exactly when there is one |
| Verifier.State.CheckIdentity | verifier/sijill_verify.py:283-371 | checks H-N, V, W in order; the registry, tasks and approvals it leaves are those of the whole step |
| Verifier.State.CheckApproval | verifier/sijill_verify.py:573-653 | V-V4: a request is opened, a decision recorded, a cited decision marked used, and the task's open ids follow |
| Verifier.State.JudgeDecision | verifier/sijill_verify.py:629-648 | V1's branches in order |
| Verifier.State.JudgeCall | verifier/sijill_verify.py:595-612 | V2 and V3's branches: cited, the decision is on this very call and unused; uncited, nothing was owed |
| Verifier.State.CoveredBy | verifier/sijill_verify.py:599-604 | the loop over the hits finds whether the request asked about every budget and confirm hit |
| Verifier.State.CheckBudget | verifier/sijill_verify.py:656-700 | X, X1, W-W2 judged by the counters before the record; then only its own contribution is added |
| Verifier.State.CheckEntries | verifier/sijill_verify.py:669-689 | the loop over `budget` finds the first failing entry, and its `failed` set is exactly the hits of the entries over their limit |
| Verifier.State.CheckEntry | verifier/sijill_verify.py:671-689 | W, W1 and W2 of one entry, in order |
| Verifier.State.CheckKind | verifier/sijill_verify.py:330-360 | J-N, K, L: starting, ending, registering, rotating and revoking change the one task or agent the record names |
| Verifier.State.JudgeAgent | verifier/sijill_verify.py:332-351 | K-K3's branches in order (verifier/sijill_verify.py:760-783) |
| Verifier.VerifyFull | verifier/sijill_verify.py:833-859 | reports PASS if and only if every row passes the chain checks and the records are accepted; otherwise stops at the first failing row, whose prefix passes, with that row's code |
| Verifier.BudgetCodeReads | verifier/sijill_verify.py:656-700 | marking the cited decision used, and closing or opening approvals, cannot change the outcome of the budget checks that follow |
| Verifier.KindCodeReads | verifier/sijill_verify.py:330-360 | the last checks do not depend on what the approval and budget checks wrote |
| ChainFacts.StateIsRecount | verifier/sijill_verify.py:361-371 | after every accepted prefix the incremental state is the recount: per task the counts, last_seq, executed calls, lower-cased hosts and spend recomputed over its records (sijill/agents.py:264-279, sijill/budgets.py:28-39), the open approvals, the used decisions, the registry and the pack hash |
| ChainFacts.PrefixAccepted | verifier/sijill_verify.py:833-859 | every prefix of an accepted chain is accepted |
| ChainFacts.PassedAt | verifier/sijill_verify.py:188-242 | each record of an accepted chain passed against the recount of the records before it |
| Reference.ParentIff | verifier/sijill_verify.py:191-220 | checks 5-7, A-C pass exactly when the parent is a present earlier record of the right type, a tool_use asked for a call's arguments, and a tool_result is its call's first |
| Reference.RulepackIff | verifier/sijill_verify.py:221-230 | D and E pass exactly when the hash moves only by a rulepack_change that names both sides, and never back to none |
| Reference.CostIff | verifier/sijill_verify.py:549-570 | W2's cost passes exactly when the sealed price is that of the first entry whose glob matches and the cost its price of the usage in micros rounded down, or the record is unpriced because no entry matches or because it is a block (verifier/sijill_verify.py:721-733) |
| Reference.PriceIsFirst | sijill/rulepack.py:88-90 | the price is that of the first entry whose glob matches the digest, and there is none exactly when none matches (verifier/sijill_verify.py:561) |
| Reference.TaskIff | verifier/sijill_verify.py:283-320 | H, H2, H3 and I pass exactly when the record is outside any task and may be, or in an open task with its identity and its parent's task |
| Reference.DecisionIff | verifier/sijill_verify.py:629-653 | V1 passes exactly when the decision answers one request of the chain in time, by a person who may, and no earlier record decides that id |
| Reference.CallIff | verifier/sijill_verify.py:595-612 | V2 and V3 pass exactly when the cited decision's request is this very call, a grant covers its budget and confirm hits, and no earlier call cites it; uncited, exactly when no confirmation is owed |
| Reference.NeedsPersonIff | sijill/rulepack.py:78-81 | a person answers exactly the confirm rules of the pack and the excesses of its confirm budgets |
| Reference.ApprovalIff | verifier/sijill_verify.py:573-614 | V-V4 pass exactly when the record is sound for its phase; a task_end when every request of the task is decided |
| Reference.BudgetIff | verifier/sijill_verify.py:656-692 | X, X1, W-W2 pass exactly when every entry seals the task's own measure and the pack's limit, every excess is a hit that a block or a grant enforces, and every budget hit is such an excess |
| Reference.BareEntryIff | verifier/sijill_verify.py:673-679 | an entry under the bare name `tool_calls_by` passes exactly when it seals the model spend, admitted or enforced, and no pack is compared (verifier/sijill_verify.py:703-710) |
| BareMetric.BareAccepted | verifier/sijill_verify.py:673-679 | given no rule pack, a chain whose tool_call seals the model spend as its `tool_calls_by` passes the verifier |
| BareMetric.NeverBare | sijill/budgets.py:52-69 | after every run no sealed record carries an entry under the bare name |
| Reference.LastWith | verifier/sijill_verify.py:713-718 | of two budgets with one id the later gives the limit (verifier/sijill_verify.py:752-753) |
| Reference.LimitIff | verifier/sijill_verify.py:713-718 | which limits of a budget give which metric: a glob its first entry, and no other metric a limit |
| Reference.KindIff | verifier/sijill_verify.py:330-360 | J-N, K-K3 and L pass exactly when the registry folded from the chain and the recount of the task allow the record |
| Reference.VerifyIff | verifier/sijill_verify.py:188-242 | the verifier passes a record exactly when it is sound after the records before it |
| Reference.AcceptedIff | verifier/sijill_verify.py:833-859 | the one-pass walk and the stateless reference accept the same chains |
| Reasons.ReasonIs | verifier/sijill_verify.py:188-242 | the code reported for a record is the first reason that applies, in order: parent, rule pack, cost, task, approval, budget, kind, each said of the records before it |
| Reasons.FailureIs | verifier/sijill_verify.py:833-859 | after any accepted chain, the code the walk reports for the next record is the first reason the chain gives |
| Reasons.BudgetReasonIs | verifier/sijill_verify.py:656-692 | the budget checks report the first failing entry's reason, and a stray budget hit only when every entry passes |
| Recounts.TallyCounts | sijill/agents.py:264-279 | each task_end count is the number of records of that kind |
| Recounts.LastSeqIsNewest | sijill/agents.py:264-279 | last_seq is the newest record that is no task_end, else the task_start |
| Recounts.CallsCount | sijill/budgets.py:33-34 | each qualified name occurs as often as non-blocked tool_calls carry it |
| Reference.MatchesCount | verifier/sijill_verify.py:708-709 | a glob counts the calls it matches |
| Recounts.HostsAre | verifier/sijill_verify.py:697-698 | the hosts are the lower-cased text hosts of non-blocked egress records |
| Recounts.SpendAdds | sijill/budgets.py:37-38 | spend is additive over the task's records |
| Recounts.InTaskIs | sijill/store.py:123-127 | the records of a task are exactly those that name it, in seq order |
| Recounts.RegistryOf | sijill/agents.py:72-92 | in an accepted chain an agent is known by its agent_register and authenticated as it says, revoked by an agent_revoke, and keyed by the newest register or rotate |
| GuardsExact.PendingIff | sijill/approvals.py:68-80 | an approval is pending in memory exactly when the chain has its request and no decision |
| GuardsExact.DecideIff | sijill/approvals.py:222-268 | `decide` seals exactly when the request is open, the deadline not reached, and the approver a person assured enough and, under separation of duties, not the principal; the record is on the request's arguments, task and identity, and its outcome and decision are those of the answer |
| GuardsExact.ExpireIff | sijill/approvals.py:97-116 | the timer seals exactly when the request is open and the deadline reached: a block with the timeout hit |
| GuardsExact.EndTaskIff | sijill/agents.py:282-291 | a task ends exactly when it is open and every request in it has a sealed decision, with the recount of its records |
| GuardsExact.ParentRefusalIff | sijill/agents.py:209-238 | `check_parent` refuses exactly an unsound parent, a parent in another task, and a call for which no tool_use is left |
| GuardsExact.UseLeftIff | sijill/agents.py:221-232 | a use is left exactly when the tool_uses that may serve the call and whose id no call took outnumber the calls with its arguments that named none |
| GuardsExact.ApprovalRefusalIff | sijill/agents.py:241-261 | `check_approval` lets a call through exactly when the verifier, given the same pack, finds the citation sound |
| EndpointsExact.RunRegistry | sijill/agents.py:72-92 | after every run the registry in memory is what the chain's agent records say |
| EndpointsExact.SessionOpensIff | sijill/agents.py:354-367 | a session opens exactly for an agent registered and not revoked, by its key or token as it registered (sijill/agents.py:596-640) |
| EndpointsExact.ActSealsIff | sijill/agents.py:431-493 | /api/agent/seal seals exactly the calls of the five types whose reserved hits may stand, placed in an open task of the session or in none, under the hash in force, by an agent the chain registers and does not revoke, with a parent and a citation the guards let through, and with the ledger's own excesses as budget hits |
| EndpointsExact.ActRecord | sijill/agents.py:446-484 | what is sealed is the draft, in the task and under the identity of its place, but for the budget object |
| EndpointsExact.HaltedRecord | sijill/agents.py:452-458 | under the halt a call, result or egress is sealed blocked, with the halt hit and no budget hit or object, and a citation dropped for a denied confirmation |
| EndpointsExact.AskSealsIff | sijill/approvals.py:162-203 | a request is sealed exactly when every hit is one a person answers, the task is the session's own and open, the agent enrolled, and the call could be sealed under its parent; with the columns it has |
| EndpointsExact.StartSealsIff | sijill/agents.py:536-567 | a task starts exactly for an open session of an enrolled agent, delegated from a task or from none, and carries the session's authentication |
| EndpointsExact.AgentSealsIff | sijill/agents.py:642-650 | a registration is sealed exactly for an agent the chain does not register, a rotation for an enrolled key agent under the key it holds, a revocation for an enrolled agent under the key it holds (sijill/agents.py:369-430) |
| EndpointsExact.ControlSeals | sijill/proxy.py:687-699 | the halt is recorded exactly when it changes, and a pack exactly when its hash is not the chain's, with both hashes (sijill/proxy.py:215-227) |
| EndpointsExact.NothingForUnenrolled | sijill/agents.py:469-472 | after any run no call, request or task is sealed for an agent the chain revokes or never registered (sijill/agents.py:559-560, sijill/approvals.py:193-195) |
| EndpointsExact.UnenrolledOnAccepted | sijill/agents.py:469-472 | the same of any accepted chain the memory was built from |
| SettledExact.ActBudgetSealed | sijill/budgets.py:74-82 | a call or egress sealed in a task carries exactly the limits it met, and as budget hits exactly the excesses; one past a limit is blocked or claims a grant |
| SettledExact.InferSealsIff | sijill/proxy.py:378-397 | a model call is sealed exactly when it was placed in no task or in one of the caller's own session, ended or not |
| SettledExact.InferRecord | sijill/proxy.py:378-397 | it carries its own columns and every rule hit, in its task while that is open and outside it afterwards |
| SettledExact.InferCosted | sijill/budgets.py:95-105 | a forwarded call carries the first matching entry's price on the usage it reported, and any other neither price nor cost |
| SettledExact.InferBudgetSealed | sijill/budgets.py:85-92 | in an open task it carries exactly the limits it met and exactly the excesses, blocked exactly when there is one; otherwise it keeps its own decision and hits and carries no budget |
| Guarantees.OneDecision | verifier/sijill_verify.py:629-653 | in any accepted chain a decision answers one earlier request of the same task, input and id; grants and refusals come from a sufficiently assured approver strictly before the deadline, timeouts at or after it; no request has two decisions and no id two requests |
| Guarantees.CitedOnce | verifier/sijill_verify.py:595-608 | a tool_call that cites an approval cites a decision on this very call (task, qualified name, input hash, parent), is let through exactly when it was a grant, and no other call cites it |
| ConfirmRules.ConfirmCited | verifier/sijill_verify.py:599-626 | in any accepted chain under the verifier's entra pack, a non-blocked call that met a confirm rule or a confirm budget's excess, or claims a confirmation, cites a grant whose request names that hit, but for a relay's own after-the-fact record |
| ConfirmRules.SealedCovered | sijill/agents.py:475-483 | the endpoint seals no other call under an entra pack in force (sijill/agents.py:241-261) |
| Guarantees.NothingAfterTaskEnd | verifier/sijill_verify.py:313-314 | a task_end is the last record of its task |
| Guarantees.DecidedBeforeTaskEnd | verifier/sijill_verify.py:613-614 | every request of an ended task was decided before its task_end |
| Guarantees.BudgetBound | verifier/sijill_verify.py:669-696 | if every non-blocked call a `tool_calls` or `tool_calls_by` limit counts seals that limit, their number is at most the limit plus the approvals granted in the task |
| Guarantees.HostBound | verifier/sijill_verify.py:669-698 | if every non-blocked egress seals a host limit, the distinct lower-cased hosts number at most the limit |
| Guarantees.SpendBelowLimit | verifier/sijill_verify.py:678-687 | a non-blocked inference that seals a spend limit ran while the task had spent less |
| LedgerNode.Node.constructor | sijill/proxy.py:100-144 | a node on an empty database |
| LedgerNode.Node.Seal | sijill/proxy.py:195-213 | appends the record numbered after the head under the hash in force, or leaves the node untouched when record.py refuses it (sijill/record.py:248-287) |
| LedgerNode.Node.Fold | sijill/agents.py:79-92 | the registry and the approvals after one sealed record (sijill/approvals.py:68-77) |
| LedgerNode.Node.Finish | sijill/agents.py:642-650 | seal and fold are one step: a refused draft changes nothing |
| LedgerNode.Node.Rebuild | sijill/proxy.py:126-144 | a restart folds the stored records into head, pack hash, registry and approvals |
| LedgerNode.Node.Handle | sijill/agents.py:431-493 | one event takes the node to `Writer.Step` of the state it met |
| LedgerNode.Node.Control | sijill/proxy.py:215-227 | a session, the halt, a pack or a restart changes the node before anything is sealed, and gives the record to seal |
| LedgerNode.Node.Act | sijill/agents.py:431-493 | /api/agent/seal: the halt override, the guards in order, the stamp; what it drafts, as it is sealed, has a parent `check_parent` lets through, an approval `check_approval` lets through when it cites one, and a task that has not ended |
| LedgerNode.Node.CheckParent | sijill/agents.py:209-238 | the status `check_parent` refuses with |
| LedgerNode.Node.FreeUses | sijill/agents.py:221-232 | the uses that ask for a call, and how many earlier calls of the parent leave |
| LedgerNode.Node.CheckApproval | sijill/agents.py:241-261 | the status `check_approval` refuses with |
| LedgerNode.Node.Stamp | sijill/budgets.py:74-82 | a stamp that is not refused carries exactly the failing limits as budget hits |
| LedgerNode.Node.Ask | sijill/approvals.py:162-201 | a request is drafted only under an entra pack, for confirm hits alone and in a task that has not ended |
| LedgerNode.Node.Decide | sijill/approvals.py:222-271 | a decision is sealed only for an undecided request before its deadline, and allows exactly when it grants |
| LedgerNode.Node.Expire | sijill/approvals.py:97-116 | one wake-up of the timer seals exactly when the request is undecided and the deadline reached |
| LedgerNode.Node.StartTask | sijill/agents.py:536-567 | a task starts only for an active agent, stamped with the session's authentication |
| LedgerNode.Node.SealAgent | sijill/agents.py:370-430 | a registration is sealed exactly for a new agent, a rotation or revocation exactly under the current key |
| LedgerNode.Node.TaskCounts | sijill/agents.py:264-279 | the loop computes the tally and last seq of the task's records |
| LedgerNode.Node.EndTask | sijill/agents.py:282-291 | refused for an ended task or one with a pending approval; otherwise seals the recount |
| LedgerNode.Node.UsedBy | sijill/budgets.py:28-39 | the loop computes the executed calls, allowed hosts and spend of the task |
| LedgerNode.Node.EvaluateFor | sijill/budgets.py:42-71 | the loop computes the limits of every matching budget, each with the count before the record |
| LedgerNode.Node.LinesOfBudget | sijill/budgets.py:53-69 | the limits of one budget that the next record meets |
| LedgerNode.Node.Infer | sijill/proxy.py:378-397 | the model door's record is sealed outside the task exactly when the task ended meanwhile; inside it, it is blocked exactly when a limit in force at the seal does not admit it, its budget hits are those limits, and otherwise it keeps the decision taken before the call |
| Budgets.EvaluatedIff | sijill/budgets.py:42-71 | a limit is evaluated exactly when a budget that names the task's own harness, agent id, logical agent id and issuer gives it for the record, with the count before it and whether it is admitted |
| Budgets.MatchesIff | sijill/budgets.py:21-27 | a budget matches exactly when each fact it names lists the task_start's own column (sijill/budgets.py:51-52) |
| Budgets.LinesIff | sijill/budgets.py:53-69 | the limits of one budget that the record meets, by metric |
| Budgets.ExceededIff | sijill/budgets.py:63-67 | the hits are exactly those of the limits that do not admit the record |
| Runs.RestartInvisible | sijill/proxy.py:126-144 | after every run, rebuilding the memory from the stored records changes nothing: head, pack hash, registry, approvals (sijill/agents.py:72-92, sijill/approvals.py:63-77) |
| ApprovalRuns.OneDecisionEver | sijill/approvals.py:97-116 | over every interleaving of decide calls and timers and any clock readings, each decision answers one request on its side of the deadline and no request has two (sijill/approvals.py:260-268) |
| ApprovalRuns.EndsAfterDecisions | sijill/agents.py:282-291 | no task_end is sealed while a request of the task is pending, and nothing is sealed into the task after it |
| ToolUseRuns.TakenCost | sijill/agents.py:226-232 | distinct ids taken plus the uses left untaken never exceed the uses |
| ToolUseRuns.ToolUsesConserved | sijill/agents.py:221-234 | over every run, per inference and args hash, the tool_calls of the chain with that parent and hash number at most its tool_uses with that hash, with or without ids, repeated or not |
| ToolUseRuns.RunIdsOnce | sijill/agents.py:226-232 | over every run no two calls of an inference name the same tool_use |
| BudgetRuns.HostsWithinLimit | sijill/budgets.py:74-82 | over every run under one pack, a task never reaches more distinct hosts than a matching budget's `egress_hosts` |
| BudgetRuns.SpendBelowLimitRun | sijill/budgets.py:85-92 | over every run under one pack, a non-blocked inference of a governed task was sealed while prior sealed spend was below the limit, however many calls were in flight (sijill/proxy.py:378-397) |
| BudgetStamps.LineRecounts | verifier/sijill_verify.py:703-718 | a limit the ledger evaluates has the verifier's own count, admission verdict and pack limit |
| BudgetStamps.StampPasses | sijill/budgets.py:74-82 | a record stamped by the ledger passes X, X1 and W-W2 once the hits it carries are the failing ones and a block or a grant enforces them |
| BudgetStamps.PricedPasses | sijill/budgets.py:95-105 | the cost the ledger seals is the one check W2 recomputes |
| Refinement.HostsFitIff | sijill/budgets.py:60-65 | ledger and verifier count and admit the same for every host limit of a task exactly when the hosts fit (verifier/sijill_verify.py:673-680) |
| Refinement.ParentPasses | sijill/agents.py:209-238 | what `check_parent` lets through passes checks 5-7, A-C and H3 |
| Refinement.CitePasses | sijill/agents.py:241-261 | what `check_approval` lets through fits the decision it cites, which is unused |
| Refinement.EndPasses | sijill/agents.py:264-291 | a sealed task_end passes L, L2 and V4 |
| Refinement.AskPasses | sijill/approvals.py:162-207 | a sealed approval request passes V |
| Refinement.DecisionPasses | sijill/approvals.py:260-268 | a sealed decision or timeout passes V1 |
| Refinement.InferPasses | sijill/proxy.py:378-397 | whatever the model door seals passes, in its task or outside it |
| Refinement.StartPasses | sijill/agents.py:536-567 | a sealed task_start passes J, M and N |
| Refinement.AgentPasses | sijill/agents.py:642-650 | sealed registrations, rotations and revocations pass K-K3 |
| Refinement.AdoptPasses | sijill/proxy.py:215-227 | a sealed rulepack_change passes D and E |
| ActRefinement.ActPasses | sijill/agents.py:431-493 | what /api/agent/seal seals passes every check, in scope |
| ActRefinement.ActScope | sijill/agents.py:452-484 | the condition on a call's draft and the halt is the condition on the record it seals |
| ActRefinement.WriterRefinesVerifier | sijill/agents.py:431-493 | every chain any interleaving of the ledger's events writes is accepted, with or without the pack given to the verifier, when callers stay in scope |
| ScopeLimits.SealAcceptedIff | sijill/agents.py:431-493 | in every reachable state, the chain with the record an event seals is accepted if and only if the call was in scope in that state, a condition on the call before it is made (verifier/sijill_verify.py:573-700) |
| ScopeLimits.RunAcceptedIff | sijill/proxy.py:195-213 | over whole runs, whatever the hosts, the verifier accepts the chain if and only if every call that sealed a record was in scope in the state it met |
| ScopeLimits.HaltedAfterTheFact | sijill/agents.py:452-458 | in every reachable state, what an after-the-fact call seals during a halt makes the chain fail |
| ScopeLimits.UncitedOverBudget | sijill/budgets.py:78-79 | in every reachable state, a call let through with a budget hit and no cited approval makes the chain fail (verifier/sijill_verify.py:684-688) |
| ScopeLimits.HostCountsDifferIff | sijill/budgets.py:35-36 | over any records the ledger's and the verifier's host counts differ exactly when some non-blocked egress went to a host that is not a string and no string host lower-cases to the same text (verifier/sijill_verify.py:697-698) |
| ScopeLimits.NonTextHostCounts | sijill/budgets.py:35-36 | after every run, the two programs have counted a task's hosts apart exactly when one of its non-blocked egress records went to a host that is not a string and that none reached as a string |
| ScopeLimits.EgressAcceptedIff | sijill/budgets.py:60-61 | in every reachable state, the next egress of a task passes if and only if for every host limit in force the two counts are equal and the host is a string, new, or within the limit (verifier/sijill_verify.py:673-691) |
| ScopeLimits.NextEgressRefused | sijill/budgets.py:60-61 | in every reachable state where the two counts differ, the next egress a host limit evaluates makes the chain fail |
| BrokenRuns.HaltedRunFails | sijill/agents.py:452-458 | a run of seven events, the last an after-the-fact call during a halt, whose chain the verifier refuses |
| BrokenRuns.UncitedRunFails | sijill/budgets.py:78-79 | a run of six events, the last a granted call over budget that cites nothing, whose chain the verifier refuses |
| BrokenRuns.HostRunFails | sijill/budgets.py:35-36 | a run whose chain passes up to an egress to a host that is not a string, and fails with the next egress |
| Canonical.UnquoteEscape | sijill/record.py:118-123 | an escaped string reads back as itself, whatever follows its closing quote |
| Canonical.EscapeExact | sijill/record.py:118-123 | a character is escaped exactly when it is a quote, a backslash or a control character, in the short form where there is one |
| Canonical.ParsePrint | sijill/record.py:118-123 | parsing the canonical print of any flat object gives its members back, in order |
| Canonical.CanonicalRoundTrip | sijill/record.py:143-148 | parsing the canonical text and restoring the empty v2 columns gives the full-width record back |
| Canonical.CanonicalInjective | verifier/sijill_verify.py:108-119 | the canonical text determines every sealed column |
| Canonical.CanonicalBytesInjective | verifier/sijill_verify.py:103-119 | the canonical bytes, the text in UTF-8, determine every sealed column |
| Canonical.WideningKeepsHash | verifier/sijill_verify.py:108-119 | a v1 record and its v2 widening have the same canonical text and bytes |
| Canonical.LeftOutIff | sijill/record.py:143-148 | of the seven v2 columns exactly the empty ones are left out, every v1 column is printed, and each as it stands (sijill/record.py:26) |
| Canonical.V1Members | verifier/sijill_verify.py:108-116 | a row with no v2 column is printed with the sixteen v1 columns and no other |
| Canonical.KeysSorted | sijill/record.py:118-123 | every canonical object has its keys in strictly increasing order |
| HashChain.SameHashSameRecord | verifier/sijill_verify.py:838-850 | without a collision, two records with the same hash in passing chains are the same record at the same seq and link to the same hash |
| HashChain.HashFixesHistory | verifier/sijill_verify.py:838-850 | one record's hash fixes its seq and the whole history up to it |
| HashChain.HeadFixesChain | verifier/sijill_verify.py:838-850 | two passing chains that end in the same hash are the same chain, or exhibit a collision |
| HashChain.CollisionIsOfBytes | verifier/sijill_verify.py:108-119 | for full-width rows a collision of record hashes is exactly a collision of the hash on two different canonical byte strings |
| HashChain.SealLinks | sijill/record.py:290-299 | sealing at the head keeps the chain passing, whatever is sealed |
| HashChain.LinkedIff | verifier/sijill_verify.py:838-850 | a chain passes the chain checks exactly when every row is numbered from 1, hashed as it stands, linked to the row before or to 64 zeros, and signed (verifier/sijill_verify.py:47) |
| ToolCheck.Guard.BeginCheck | guard/serve.py:198-199 | a check takes the next number |
| ToolCheck.Guard.Finish | guard/serve.py:208-219 | a finished check is applied only when no newer one was |
| ToolCheck.Guard.NoteListChanged | guard/serve.py:260-266 | a list_changed takes a number that checks under way cannot clear |
| ToolCheck.Unchecked | guard/serve.py:208-219 | after every legal run the guard is unchecked exactly when no applied check began after the last list_changed or the newest applied check failed |
| ToolCheck.CheckedIff | guard/serve.py:193-220 | `unchecked` is false if and only if the newest finished check succeeded and began after the last list_changed |
| ToolCheck.SeenIsFresh | guard/serve.py:215-217 | while it is false, the stored report is that check's |
| ToolCheck.AppliedGrows | guard/serve.py:214-217 | `applied` never decreases and the report changes only to a newer check's |
| Framing.EncodePrefixFree | guard/serve.py:545 | a code point can be read off the front of any UTF-8 bytes, surrogates included |
| Framing.EncodeReads | guard/serve.py:545 | the shortest UTF-8 form, whose lead byte tells its length and whose bits read back to the code point |
| Framing.BigEndianInjective | guard/serve.py:550 | equal fixed-width bytes are equal numbers |
| Framing.U64Reads | guard/serve.py:550 | eight bytes, the most significant first |
| Framing.FramesInjective | guard/serve.py:551-552 | the frames of the binary parts determine the parts |
| Framing.HashedInjective | guard/serve.py:533-553 | equal hash inputs have the same text and the same parts, index, type and payload; a framed result is never some text |
| Framing.Raw | guard/serve.py:545-553 | the bytes hashed, and a reported size that is the text length plus the payload lengths |
| Framing.FrameLayout | guard/serve.py:551-552 | index, type and payload stand in the frame in that order, each text under its length |
| Framing.HashedLayout | guard/serve.py:545-553 | the text alone without binary parts; with them 0xFF, the text under its length, then the frames |
| Framing.CollectedInOrder | guard/serve.py:545-546 | text and parts are collected item by item in order, and the structured content comes last |
| Framing.OneItem | guard/serve.py:545-546 | of one item the strings in order, and each payload with the item's index and type |
| ResultBudget.FittedIsLongest | guard/serve.py:68-76 | with room for the quotes, the prefix kept fits and every longer prefix does not |
| ResultBudget.WireIs | guard/serve.py:63-65 | the cost of a string is the length of its quoted and escaped text in UTF-8, surrogates included |
| ResultBudget.Fit | guard/serve.py:68-76 | the binary search returns that prefix |
| ResultBudget.Rewrite | guard/serve.py:569-592 | the loop over the items computes `Rewritten` |
| ResultBudget.CutAll | guard/serve.py:586-588 | the inner loop gives each string what the ones before it left |
| ResultBudget.CutFits | guard/serve.py:586-588 | the strings of a cut item fit the room together, each is a prefix, and none that was cut could have one more character |
| ResultBudget.BudgetConserved | guard/serve.py:569-592 | what is kept and what is left add up to the budget and never overrun it; every item is kept with prefixes of its strings, one that carries a payload whole, up to one note that counts the rest |
| ResultBudget.ItemPlaced | guard/serve.py:569-592 | each item is kept whole when it fits what the items before it left, replaced by the closing note when its keys do not fit or it carries a payload, and cut otherwise; its strings are the cleaned ones |
| ResultBudget.ArrayFits | guard/serve.py:579-591 | the JSON array of the items kept takes what the budget gave, brackets and separators included |
| ResultBudget.UncutIff | guard/serve.py:580-591 | nothing is cut if and only if everything fits, and then every item is kept whole |
| UrlScan.MatchEndIsLongest | guard/cmdparse.py:51 | the greedy match at an offset is the longest word of the expression there, and there is one exactly when some word starts there |
| UrlScan.SchemeStart | guard/cmdparse.py:58-62 | walking back then forward finds the first offset before the separator at which a match can start |
| UrlScan.Urls | guard/cmdparse.py:51-78 | for every text the scanner returns the list of the leftmost non-overlapping greedy search |
| UrlScan.FindAllIs | guard/cmdparse.py:51-57 | the search gives, in order and without overlap, the longest words of the expression at its starts, and no word starts between them |
| UrlScan.SchemeCharIff | guard/cmdparse.py:52 | the scanner's scheme characters are the class of the expression |
| UrlScan.BodyCharIff | guard/cmdparse.py:53 | its stop characters and white space are what the body of the expression excludes |
| InvisibleUnicode.Neighbour | guard/unicode.py:38-44 | the walk finds the nearest code point that is no variation selector or skin tone |
| InvisibleUnicode.KeptAt | guard/unicode.py:72-74 | an unflagged code point is found in the stripped text, in order |
| InvisibleUnicode.FlagIff | guard/unicode.py:47-63 | a code point is flagged exactly when it is in the table of suspects, or unassigned and not allowed, and is no byte order mark at the start and no joiner between nearest neighbours it joins, said of positions in the text |
| InvisibleUnicode.StripIs | guard/unicode.py:72-74 | one pass leaves exactly the unflagged code points, in their order |
| InvisibleUnicode.SuspiciousIff | guard/unicode.py:28-35 | the suspicious code points, as one ordered table |
| InvisibleUnicode.PictographicIff | guard/unicode.py:17-20 | the pictographic blocks, as a table |
| InvisibleUnicode.JoiningScriptIff | guard/unicode.py:13-16 | the scripts that join, as a table |
| InvisibleUnicode.FlaggedAfter | guard/unicode.py:47-57 | a kept code point is flagged in the stripped text exactly when it is a joiner that does not join its nearest kept neighbours |
| InvisibleUnicode.CleanIff | guard/unicode.py:60-74 | for every text, one pass leaves nothing flagged if and only if every joiner it keeps joins its nearest kept neighbours |
| InvisibleUnicode.SameNeighbours | guard/unicode.py:47-57 | a kept joiner has the same neighbours after the pass |
| InvisibleUnicode.OnePass | guard/unicode.py:60-74 | in a text without a breaking code point, one pass leaves nothing flagged |
| InvisibleUnicode.TwoPasses | guard/unicode.py:47-74 | a joiner between two breaking code points is kept, then flagged |
| InvisibleUnicode.OnePassIff | guard/unicode.py:60-74 | one pass suffices for every text if and only if no code point breaks |
| InvisibleUnicode.BreaksIsUnassigned | guard/unicode.py:28-35 | where unassigned code points and U+180E are no letters or marks, the breaking code points are the unassigned ones in a pictographic block |
| Trace.CausalChain | verifier/sijill_trace.py:81-88 | terminates on cyclic data and returns exactly the present records a walk of causes leads to |
| Trace.Index | verifier/sijill_trace.py:89-91 | the index holds exactly the children of each record, in order |
| Trace.ChildrenInOrder | verifier/sijill_trace.py:89-91 | the children of a record stand in the order they were read |
| Trace.Descendants | verifier/sijill_trace.py:92-100 | terminates on cyclic data and returns every descendant once, nearest first, with depth its distance less one, each level under its parents in their order and the children of one parent in the order they were read |

## Left out

- Verifier.VerifyFull: the counters printed beside the verdict (attestation, agent_auth, principals, budget hits, orphans) are not modelled, nor is the state a failing run stops in; an unreadable database, key or pack is not either.
- LedgerNode.Node.Seal: of record.py's refusals only the structural ones on parents and tasks are modelled, not the ext key tables.
- Verifier.State.CheckLinks: the source-label and attestation checks between A and E are not modelled.
- Verifier.State.CheckIdentity: declared runtime identities and the principal checks U-U3 are not modelled.
- Verifier.State.CheckRecord: source labels, digests and attestation (F, G), identifier syntax and declared runtime identities (I2), and the principal claims and token checks (U-U3) are not modelled.
- Verifier.State.CheckApproval: the syntax of approval ids, routes and approver sets is not modelled; timestamps are the millisecond integers they parse to.
- Verifier.State.JudgeAgent: Ed25519 proofs and the binding fields of a registration are booleans.
- Verifier.State.CheckKind: Ed25519 proofs are one boolean per record, and the binding fields of a registration another.
- HashChain.HeadFixesChain: the record hash is an arbitrary function of the row and SHA-256 an arbitrary function of the canonical bytes; signatures are one boolean per row.
- Canonical.CanonicalRoundTrip: nested JSON in ext is one string column here, as it is in the store.
- LedgerNode.Node.Ask: the route the pack chooses and the syntax of the request's fields are parameters of the event.
- LedgerNode.Node.Decide: the approver's token, role and object id are not modelled.
- LedgerNode.Node.StartTask: the syntax of the request's fields is not modelled, and whether a principal token was validated is a parameter of the event.
- LedgerNode.Node.SealAgent: proofs and challenge nonces are not modelled, nor who registers, rotates or revokes, nor the digest of the request.
- LedgerNode.Node.Handle: requests are typed, so the 400 answers for malformed JSON are not modelled; session expiry and its cleanup are the ordinary task_end event; a signer or database failure while sealing is not modelled.
- LedgerNode.Node.Infer: the upstream call and streaming are not modelled; the body they leave is a parameter of the event.
- ActRefinement.WriterRefinesVerifier: the Foundry relay (sijill/foundry.py), which also registers an agent, starts tasks and seals inferences, tool_calls and tool_results, is no event of a run; checks F, G, I2 and U-U3 are not part of acceptance here; approval ids are taken to be fresh and route timeouts positive; the pack given to the verifier is the file the ledger loaded whenever the hashes are equal.
- ToolUseRuns.ToolUsesConserved: tool_calls the Foundry relay seals are not part of a run.
- ApprovalRuns.OneDecisionEver: the approver's token, role and object id are checked by the identity provider's claims and are not modelled; the retry loop of the timer is any number of its wake-ups.
- Runs.RestartInvisible: region and policy hash are not modelled; nor are the declared runtime identities, which no modelled endpoint ever seals, so that a run from an empty database leaves them empty before and after.
- ToolCheck.CheckedIff: the time after which a check is redone and the set of drifts already sealed are not modelled.
- Framing.Raw: a length or index of 2^64 or more, which the source refuses, is not modelled.
- ResultBudget.Rewrite: items are values instead of dictionaries edited in place, and the bytes of an item's keys are one number.
- UrlScan.Urls: the rest of the command grammar depends on shlex and is not modelled.
- Trace.CausalChain: a context_seqs that is not a list, or a parent_seq such as `²` that `isdigit` accepts and `int` refuses, on both of which the source raises, is not modelled; the delegation chain, agent lifecycle and rendering would only add easy members.
- HTTP routing, SQLite, YAML loading, rule matching, the report, the dashboard and the MCP transports: input and output.
- Budget hits are pairs of budget id and metric; the text form `budget:<id>:<metric>` is not modelled, so ids are taken to hold no colon.
