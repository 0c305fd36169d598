/** The ledger's autonomy budgets: what a task has used, which limits the next record meets, and the `budget` object
    and hits that are sealed on it (sijill/budgets.py). */
module Budgets {
  import opened Records
  import opened Checks
  import opened Store

  /** What `used` counts over the records of a task. */
  datatype Used = Used(calls: seq<string>, hosts: set<string>, spend: int)

  function TextOf(v: TextVal): string {
    match v case Str(s) => s case NotStr(shown) => shown
  }

  /** `str(x.get("host")).lower()`: unlike the verifier, the ledger counts a host that is not a string. */
  function HostsShown(env: Env, rows: seq<Record>): set<string> {
    if rows == [] then {}
    else
      var rest := HostsShown(env, rows[..|rows| - 1]);
      var r := rows[|rows| - 1];
      if r.body.Egress? && r.decision != Block then rest + {env.lower(TextOf(r.body.host))} else rest
  }

  function UsedIn(env: Env, rows: seq<Record>): Used {
    Used(CallsOf(rows), HostsShown(env, rows), SpendOf(rows))
  }

  function FactOf(start: Record, f: Fact): string
    requires start.body.TaskStart?
  {
    match f
    case Harness => start.body.harness
    case AgentId => start.agent
    case LogicalAgentId => start.body.logicalId
    case PrincipalIssuer => if start.principal.Human? then start.principal.issuer else ""
  }

  predicate Matches(b: BudgetRule, start: Record)
    requires start.body.TaskStart?
  {
    forall f <- b.match_.Keys :: FactOf(start, f) in b.match_[f]
  }

  /** The task's own columns are among those the budget names: harness and logical agent id from its ext, agent id from
      its column, and the issuer of a human principal, "" for any other. */
  predicate Concerns(b: BudgetRule, start: Record)
    requires start.body.TaskStart?
  {
    && (Harness in b.match_ ==> start.body.harness in b.match_[Harness])
    && (AgentId in b.match_ ==> start.agent in b.match_[AgentId])
    && (LogicalAgentId in b.match_ ==> start.body.logicalId in b.match_[LogicalAgentId])
    && (PrincipalIssuer in b.match_ ==>
          if start.principal.Human? then start.principal.issuer in b.match_[PrincipalIssuer]
          else "" in b.match_[PrincipalIssuer])
  }

  lemma MatchesIff(b: BudgetRule, start: Record)
    requires start.body.TaskStart?
    ensures Matches(b, start) <==> Concerns(b, start)
  {
  }

  /** A limit the next record meets: the count before it, and whether the record is admitted. */
  datatype Line = Line(bid: string, metric: Metric, limit: nat, used: int, admitted: bool)

  function GlobLines(env: Env, bid: string, globs: seq<(string, nat)>, calls: seq<string>, qualified: string)
    : seq<Line>
  {
    if globs == [] then []
    else
      var (g, limit) := globs[0];
      var n := CountMatching(env, calls, g);
      (if env.glob(qualified, g) then [Line(bid, ToolCallsBy(g), limit, n, n + 1 <= limit)] else [])
      + GlobLines(env, bid, globs[1..], calls, qualified)
  }

  function LinesOf(env: Env, b: BudgetRule, u: Used, body: Body): seq<Line> {
    match body
    case ToolCall(_, _, qualified, _, _, _, _, _, _) =>
      (if b.limits.toolCalls.Some? then
         var limit := b.limits.toolCalls.value;
         [Line(b.id, ToolCalls, limit, |u.calls|, |u.calls| + 1 <= limit)]
       else [])
      + GlobLines(env, b.id, b.limits.toolCallsBy, u.calls, qualified)
    case Egress(host, _) =>
      if b.limits.egressHosts.Some? then
        var limit := b.limits.egressHosts.value;
        [Line(b.id, EgressHosts, limit, |u.hosts|, env.lower(TextOf(host)) in u.hosts || |u.hosts| + 1 <= limit)]
      else []
    case Inference(_, _, _, _, _) =>
      if b.limits.spendMicro.Some? then
        var limit := b.limits.spendMicro.value;
        [Line(b.id, SpendMicro, limit, u.spend, u.spend < limit)]
      else []
    case _ => []
  }

  /** `evaluate`: the limits of every budget of the pack that matches the task. */
  function Evaluate(env: Env, budgets: seq<BudgetRule>, start: Record, u: Used, body: Body): seq<Line>
    requires start.body.TaskStart?
  {
    if budgets == [] then []
    else
      (if Matches(budgets[0], start) then LinesOf(env, budgets[0], u, body) else [])
      + Evaluate(env, budgets[1..], start, u, body)
  }

  function Sealed(lines: seq<Line>): seq<Entry> {
    if lines == [] then []
    else [Entry(lines[0].bid, lines[0].metric, lines[0].limit, lines[0].used)] + Sealed(lines[1..])
  }

  /** The `budget` object; no key when no budget evaluated the record. */
  function BudgetObject(lines: seq<Line>): BudgetKey {
    if lines == [] then NoBudget else Budget(Sealed(lines))
  }

  /** The hits that fail admission, in order. */
  function Exceeded(lines: seq<Line>): seq<Hit> {
    if lines == [] then []
    else (if lines[0].admitted then [] else [Over(lines[0].bid, lines[0].metric)]) + Exceeded(lines[1..])
  }

  function OverHits(hits: seq<Hit>): seq<Hit> {
    if hits == [] then [] else (if hits[0].Over? then [hits[0]] else []) + OverHits(hits[1..])
  }

  function RuleHits(hits: seq<Hit>): seq<Hit> {
    if hits == [] then [] else (if hits[0].Over? then [] else [hits[0]]) + RuleHits(hits[1..])
  }

  function WithBudget(b: Body, budget: BudgetKey): Body {
    match b
    case Inference(uses, usage, cost, rule, _) => Inference(uses, usage, cost, rule, budget)
    case ToolCall(id, uncorrelated, qualified, confirmation, approval, after, relay, shaped, _) =>
      ToolCall(id, uncorrelated, qualified, confirmation, approval, after, relay, shaped, budget)
    case Egress(host, _) => Egress(host, budget)
    case _ => b
  }

  // ---- facts about lists of lines and hits ----

  lemma {:induction false} SealedLines(lines: seq<Line>)
    ensures |Sealed(lines)| == |lines|
    ensures forall i | 0 <= i < |lines| ::
              Sealed(lines)[i] == Entry(lines[i].bid, lines[i].metric, lines[i].limit, lines[i].used)
  {
    if lines != [] {
      SealedLines(lines[1..]);
    }
  }

  lemma {:induction false} ExceededIff(lines: seq<Line>, h: Hit)
    ensures h in Exceeded(lines) <==> exists l :: l in lines && !l.admitted && h == Over(l.bid, l.metric)
  {
    if lines != [] {
      ExceededIff(lines[1..], h);
      assert forall l :: l in lines <==> l == lines[0] || l in lines[1..];
    }
  }

  lemma {:induction false} OverHitsIff(hits: seq<Hit>, h: Hit)
    ensures h in OverHits(hits) <==> h in hits && h.Over?
    ensures h in RuleHits(hits) <==> h in hits && !h.Over?
  {
    if hits != [] {
      OverHitsIff(hits[1..], h);
    }
  }

  lemma {:induction false} EvaluateIff(env: Env, budgets: seq<BudgetRule>, start: Record, u: Used, body: Body, l: Line)
    requires start.body.TaskStart?
    ensures l in Evaluate(env, budgets, start, u, body)
            <==> exists b :: b in budgets && Matches(b, start) && l in LinesOf(env, b, u, body)
  {
    if budgets != [] {
      EvaluateIff(env, budgets[1..], start, u, body, l);
      assert forall b :: b in budgets <==> b == budgets[0] || b in budgets[1..];
    }
  }

  lemma {:induction false} GlobLinesIff(env: Env, bid: string, globs: seq<(string, nat)>, calls: seq<string>,
                                        qualified: string, l: Line)
    ensures l in GlobLines(env, bid, globs, calls, qualified)
            <==> exists g :: g in globs && env.glob(qualified, g.0)
                             && var n := CountMatching(env, calls, g.0);
                                l == Line(bid, ToolCallsBy(g.0), g.1, n, n + 1 <= g.1)
  {
    if globs != [] {
      GlobLinesIff(env, bid, globs[1..], calls, qualified, l);
      assert forall g :: g in globs <==> g == globs[0] || g in globs[1..];
    }
  }

  /** The budget gives the limit, the next record counts toward it, and the line says whether there is room: for one
      more call, for one more host, or for any spend at all. */
  ghost predicate MeetsLimit(env: Env, b: BudgetRule, u: Used, body: Body, l: Line) {
    && l.bid == b.id
    && match l.metric
       case ToolCalls =>
         body.ToolCall? && b.limits.toolCalls == Some(l.limit) && l.used == |u.calls| && (l.admitted <==> l.used < l.limit)
       case ToolCallsBy(g) =>
         && body.ToolCall? && (g, l.limit) in b.limits.toolCallsBy && env.glob(body.qualified, g)
         && l.used == CountMatching(env, u.calls, g) && (l.admitted <==> l.used < l.limit)
       case EgressHosts =>
         && body.Egress? && b.limits.egressHosts == Some(l.limit) && l.used == |u.hosts|
         && (l.admitted <==> l.used < l.limit
                             || env.lower(match body.host case Str(s) => s case NotStr(shown) => shown) in u.hosts)
       case SpendMicro =>
         body.Inference? && b.limits.spendMicro == Some(l.limit) && l.used == u.spend && (l.admitted <==> l.used < l.limit)
       case _ => false
  }

  lemma {:induction false} LinesIff(env: Env, b: BudgetRule, u: Used, body: Body, l: Line)
    ensures l in LinesOf(env, b, u, body) <==> MeetsLimit(env, b, u, body, l)
  {
    hide GlobLines, CountMatching;
    if body.ToolCall? {
      GlobLinesIff(env, b.id, b.limits.toolCallsBy, u.calls, body.qualified, l);
      if l.metric.ToolCallsBy? && (l.metric.glob, l.limit) in b.limits.toolCallsBy {
        var g := (l.metric.glob, l.limit);
        assert g in b.limits.toolCallsBy;
      }
    }
  }

  /** `evaluate` finds exactly the limits that the budgets concerned with the task give for the record. */
  lemma {:induction false} EvaluatedIff(env: Env, budgets: seq<BudgetRule>, start: Record, u: Used, body: Body, l: Line)
    requires start.body.TaskStart?
    ensures l in Evaluate(env, budgets, start, u, body)
            <==> exists b :: b in budgets && Concerns(b, start) && MeetsLimit(env, b, u, body, l)
  {
    hide Evaluate, LinesOf, MeetsLimit, Matches, Concerns;
    EvaluateIff(env, budgets, start, u, body, l);
    forall b ensures Matches(b, start) && l in LinesOf(env, b, u, body) <==> Concerns(b, start) && MeetsLimit(env, b, u, body, l) {
      MatchesIff(b, start);
      LinesIff(env, b, u, body, l);
    }
  }

  /** Stamping replaces the budget object and nothing else. */
  lemma StampOnlyBudget(b: Body, budget: BudgetKey)
    ensures var s := WithBudget(b, budget);
            && (b.ToolCall? ==>
                  s == ToolCall(b.toolUseId, b.uncorrelated, b.qualified, b.confirmation, b.approvalSeq, b.afterTheFact,
                                b.byRelay, b.httpShaped, budget))
            && (b.Egress? ==> s == Egress(b.host, budget))
            && (b.Inference? ==> s == Inference(b.uses, b.usage, b.cost, b.priceRule, budget))
            && (!b.ToolCall? && !b.Egress? && !b.Inference? ==> s == b)
  {
  }

  /** The same budget hits, in any order, as the ones that fail admission. */
  lemma SameHits(hits: seq<Hit>, lines: seq<Line>, h: Hit)
    requires multiset(OverHits(hits)) == multiset(Exceeded(lines))
    ensures h in hits && h.Over? <==> h in Exceeded(lines)
  {
    OverHitsIff(hits, h);
    assert h in OverHits(hits) <==> h in multiset(OverHits(hits));
    assert h in Exceeded(lines) <==> h in multiset(Exceeded(lines));
  }
}
