/** The sealed record and the values its columns and `ext` object carry.

    A record's `type` column and its `ext` object are one value here, `Body`: one constructor per record type, with
    the ext keys the ledger and the verifier read on that type. An ext key that may be absent, or present with the
    wrong JSON type, says so in its own type (`IntKey`, `TextVal`, `BudgetKey`). */
module Records {
  datatype Option<+T> = None | Some(value: T)

  /** A `parent_seq` or `task_seq` column: "", the decimal form of a seq, or any other text. */
  datatype Ref = Blank | Dec(n: nat) | Garbled

  datatype Mode = RecordOnly | Enforce
  datatype Decision = Allow | Flag | Block

  /** A budget metric. `BareCallsBy` is the text `tool_calls_by` without a colon and a glob. */
  datatype Metric =
    | ToolCalls
    | ToolCallsBy(glob: string)
    | EgressHosts
    | SpendMicro
    | BareCallsBy
    | OtherMetric(name: string)

  /** One entry of `rule_hits`: a rule id, or the text `budget:<bid>:<metric>`. */
  datatype Hit = Rule(id: string) | Over(bid: string, metric: Metric)

  /** A JSON value that should be a string; `shown` is its text when it is not one. */
  datatype TextVal = Str(s: string) | NotStr(shown: string)

  /** An ext key that should hold an integer. */
  datatype IntKey = NoInt | Int(i: int) | NotInt

  datatype Entry = Entry(bid: string, metric: Metric, limit: int, used: int) | BadEntry
  datatype BudgetKey = NoBudget | Budget(entries: seq<Entry>) | BadBudget

  datatype Confirmation = NoConfirmation | Granted | Denied | Unavailable | OtherConfirmation
  datatype Outcome = Grant | Refusal | Timeout | OtherOutcome
  datatype Level = Low | Substantial | High

  function Rank(l: Level): nat {
    match l case Low => 0 case Substantial => 1 case High => 2
  }

  datatype Principal = Human(issuer: string, subject: string) | NonHuman(text: string)
  datatype AgentAuth = KeyAuth | MtlsAuth | OidcAuth | RelayAuth | NoAuth | OtherAuth

  datatype PrincipalAuth = ByOidc | ByKey | ByNone | ByOther

  datatype ToolUse = ToolUse(id: Option<string>, argsHash: string)
  datatype Usage = Usage(input: int, output: int)

  datatype Counts = Counts(inference: nat, toolCalls: nat, blocked: nat, confirmed: nat, denied: nat,
                           flagged: nat, egress: nat)

  datatype Body =
    | Inference(uses: seq<ToolUse>, usage: Option<Usage>, cost: IntKey, priceRule: Option<string>,
                budget: BudgetKey)
    | ToolCall(toolUseId: Option<string>, uncorrelated: bool, qualified: string, confirmation: Confirmation,
               approvalSeq: IntKey, afterTheFact: bool, byRelay: bool, httpShaped: bool, budget: BudgetKey)
    | ToolResult
    | Egress(host: TextVal, budget: BudgetKey)
    | IntegrityBaseline
    | IntegrityDrift
    | PolicyChange
    | RulepackChange(before: string, after: string)
    | AgentRegister(auth: AgentAuth, key: string, wellFormed: bool, proven: bool)
    | AgentRotate(oldKey: string, newKey: string, proven: bool)
    | AgentRevoke(key: string)
    | AgentIdentityUpdate
    | TaskStart(agentAuth: AgentAuth, session: string, delegatedFrom: Ref, harness: string, logicalId: string,
                principalAuth: PrincipalAuth)
    | TaskEnd(counts: Counts, lastSeq: nat)
    | ApprovalRequest(aid: string, qualified: string, uncorrelated: bool, timeoutMs: int, minAssurance: Level,
                      sod: bool)
    | ApprovalDecision(aid: string, outcome: Outcome, approver: Option<Principal>, assurance: Option<Level>)
    | ScittReceipt
    | Unknown

  datatype Record = Record(pos: nat, ts: int, mode: Mode, decision: Decision, hits: seq<Hit>, inputHash: string,
                           parent: Ref, task: Ref, rulepack: string, agent: string, principal: Principal,
                           digest: string, body: Body)

  /** The seqs (`pos`) of a chain are 1, 2, 3, ...: `At(chain, n)` is the record with seq n. */
  predicate Has(chain: seq<Record>, n: int) { 1 <= n <= |chain| }

  function At(chain: seq<Record>, n: int): Record
    requires Has(chain, n)
  {
    chain[n - 1]
  }

  // ---- the rule pack ----

  datatype Fact = Harness | AgentId | LogicalAgentId | PrincipalIssuer
  datatype Limits = Limits(toolCalls: Option<nat>, toolCallsBy: seq<(string, nat)>, egressHosts: Option<nat>,
                           spendMicro: Option<nat>)
  datatype BudgetRule = BudgetRule(id: string, match_: map<Fact, seq<string>>, limits: Limits, confirms: bool)
  datatype Price = Price(id: string, model: string, inputPerMtok: nat, outputPerMtok: nat, missingUsage: nat)
  datatype Pack = Pack(hash: string, entra: bool, confirm: set<string>, budgets: seq<BudgetRule>,
                       pricing: seq<Price>)

  /** Library behaviour the model does not define (`fnmatchcase`, `str.lower`) and the verifier's options. */
  datatype Env = Env(glob: (string, string) -> bool, lower: string -> string, allowOrphans: bool,
                     allowUnauthenticated: bool, pack: Option<Pack>)

  /** A hit a named approver answers: a confirm rule, or an excess of a confirm budget. */
  predicate ConfirmHit(pack: Pack, h: Hit) {
    match h
    case Rule(id) => id in pack.confirm
    case Over(bid, _) => exists b <- pack.budgets :: b.id == bid && b.confirms
  }

  /** The first pricing entry whose model glob matches the digest. */
  function PriceOf(env: Env, pricing: seq<Price>, digest: string): (p: Option<Price>)
    ensures p.Some? ==> p.value in pricing
  {
    if pricing == [] then None
    else if env.glob(digest, pricing[0].model) then Some(pricing[0])
    else PriceOf(env, pricing[1..], digest)
  }
}
