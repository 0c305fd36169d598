/** The budget object the ledger stamps on a record is the one the verifier recounts (checks W-W2). */
module BudgetStamps {
  import opened Records
  import opened Checks
  import opened Store
  import opened Budgets
  import opened Writer

  /** The verifier's calls and spend of the task are the ledger's; its hosts need not be. */
  ghost predicate SameCounters(k: Task, u: Budgets.Used) {
    k.calls == u.calls && k.spend == u.spend
  }

  /** As many hosts, and the same answer to whether the limit admits this one. */
  ghost predicate SameHosts(env: Env, b: BudgetRule, k: Task, u: Budgets.Used, body: Body) {
    body.Egress? && b.limits.egressHosts.Some? ==>
      var limit := b.limits.egressHosts.value;
      && |k.hosts| == |u.hosts|
      && ((body.host.Str? && env.lower(body.host.s) in k.hosts) || |k.hosts| + 1 <= limit
          <==> env.lower(TextOf(body.host)) in u.hosts || |u.hosts| + 1 <= limit)
  }

  ghost predicate AllSameHosts(env: Env, budgets: seq<BudgetRule>, start: Record, k: Task, u: Budgets.Used, body: Body)
    requires start.body.TaskStart?
  {
    forall b | b in budgets && Matches(b, start) :: SameHosts(env, b, k, u, body)
  }

  lemma {:induction false} GlobLimitOf(globs: seq<(string, nat)>, i: nat)
    requires i < |globs| && UniqueGlobs(globs)
    ensures GlobLimit(globs, globs[i].0) == Some(globs[i].1)
  {
    if i > 0 {
      assert globs[0].0 != globs[i].0;
      assert UniqueGlobs(globs[1..]);
      GlobLimitOf(globs[1..], i - 1);
    }
  }

  lemma {:induction false} PackLimitOf(budgets: seq<BudgetRule>, i: nat, m: Metric)
    requires i < |budgets| && forall k | i < k < |budgets| :: budgets[i].id != budgets[k].id
    ensures PackLimit(budgets, budgets[i].id, m) == LimitIn(budgets[i].limits, m)
  {
    var last := |budgets| - 1;
    if i < last {
      assert budgets[i].id != budgets[last].id;
      PackLimitOf(budgets[..last], i, m);
    }
  }

  /** A line of a budget: the verifier counts the same use, admits the same records, and finds the same limit. */
  lemma LineRecounts(env: Env, b: BudgetRule, k: Task, u: Budgets.Used, body: Body, l: Line)
    requires SameCounters(k, u) && SameHosts(env, b, k, u, body) && UniqueGlobs(b.limits.toolCallsBy)
    requires l in LinesOf(env, b, u, body)
    ensures l.bid == b.id && Counted(l.metric, body) && l.used == OwnCount(env, k, l.metric)
    ensures Admitted(env, k, body, Entry(l.bid, l.metric, l.limit, l.used)) == l.admitted
    ensures LimitIn(b.limits, l.metric) == Some(l.limit)
  {
    hide GlobLines, GlobLimit, CountMatching, UniqueGlobs;
    if body.ToolCall? && l in GlobLines(env, b.id, b.limits.toolCallsBy, u.calls, body.qualified) {
      GlobLineRecounts(env, b, k, u, body, l);
    }
  }

  lemma GlobLineRecounts(env: Env, b: BudgetRule, k: Task, u: Budgets.Used, body: Body, l: Line)
    requires SameCounters(k, u) && body.ToolCall? && UniqueGlobs(b.limits.toolCallsBy)
    requires l in GlobLines(env, b.id, b.limits.toolCallsBy, u.calls, body.qualified)
    ensures l.bid == b.id && l.metric.ToolCallsBy? && l.used == OwnCount(env, k, l.metric)
    ensures l.admitted <==> l.used + 1 <= l.limit
    ensures LimitIn(b.limits, l.metric) == Some(l.limit)
  {
    hide GlobLines, GlobLimit, CountMatching;
    var globs := b.limits.toolCallsBy;
    GlobLinesIff(env, b.id, globs, u.calls, body.qualified, l);
    var g :| g in globs && env.glob(body.qualified, g.0)
             && var n := CountMatching(env, u.calls, g.0);
                l == Line(b.id, ToolCallsBy(g.0), g.1, n, n + 1 <= g.1);
    var i :| 0 <= i < |globs| && globs[i] == g;
    GlobLimitOf(globs, i);
  }

  lemma EvaluatedLine(env: Env, budgets: seq<BudgetRule>, start: Record, k: Task, u: Budgets.Used, body: Body, l: Line)
    requires start.body.TaskStart? && SameCounters(k, u) && AllSameHosts(env, budgets, start, k, u, body)
    requires forall i, j | 0 <= i < j < |budgets| :: budgets[i].id != budgets[j].id
    requires forall i | 0 <= i < |budgets| :: UniqueGlobs(budgets[i].limits.toolCallsBy)
    requires l in Evaluate(env, budgets, start, u, body)
    ensures Counted(l.metric, body) && l.used == OwnCount(env, k, l.metric)
    ensures Admitted(env, k, body, Entry(l.bid, l.metric, l.limit, l.used)) == l.admitted
    ensures PackLimit(budgets, l.bid, l.metric) == Some(l.limit)
  {
    EvaluateIff(env, budgets, start, u, body, l);
    var b :| b in budgets && Matches(b, start) && l in LinesOf(env, b, u, body);
    var i :| 0 <= i < |budgets| && budgets[i] == b;
    LineRecounts(env, b, k, u, body, l);
    PackLimitOf(budgets, i, l.metric);
  }

  lemma {:induction false} EntriesOk(env: Env, s: VState, k: Task, r: Record, es: seq<Entry>)
    requires forall e | e in es :: EntryCode(env, s, k, r, e) == Ok
    ensures EntriesCode(env, s, k, r, es) == Ok
  {
    if es != [] {
      EntriesOk(env, s, k, r, es[1..]);
    }
  }

  /** What the stamp leaves on the record: each failing line's hit is among the hits and enforced, and no other
      budget hit is there. */
  ghost predicate Enforced(s: VState, r: Record, lines: seq<Line>) {
    && (forall l | l in lines && !l.admitted ::
          && Over(l.bid, l.metric) in r.hits
          && (r.decision == Block || (Cited(s, r.body).Some? && Cited(s, r.body).value.outcome == Grant)))
    && (forall h | h in r.hits && h.Over? :: h in Exceeded(lines))
  }

  /** The stamped record passes every budget check. */
  lemma {:induction false} StampPasses(env: Env, s: VState, k: Task, r: Record, budgets: seq<BudgetRule>, start: Record,
                    u: Budgets.Used, body: Body, lines: seq<Line>)
    requires start.body.TaskStart? && SameCounters(k, u) && AllSameHosts(env, budgets, start, k, u, body)
    requires forall i, j | 0 <= i < j < |budgets| :: budgets[i].id != budgets[j].id
    requires forall i | 0 <= i < |budgets| :: UniqueGlobs(budgets[i].limits.toolCallsBy)
    requires lines == Evaluate(env, budgets, start, u, body)
    requires body.ToolCall? || body.Egress? || body.Inference?
    requires r.body == WithBudget(body, BudgetObject(lines)) && Enforced(s, r, lines)
    requires PackFor(env, r).Some? ==> PackFor(env, r).value.budgets == budgets
    requires r.body.ToolCall? ==> r.body.httpShaped && (r.body.afterTheFact ==> r.mode == RecordOnly && r.decision != Block)
    ensures BudgetCode(env, s, k, r) == Ok
  {
    hide Evaluate, UniqueGlobs, AllSameHosts, EntryCode, EntriesCode, Failed, SameCounters, BudgetCode, Entries, Sealed, WithBudget;
    SealedLines(lines);
    StampedEntries(r.body, body, lines);
    forall e | e in Entries(r.body) ensures EntryCode(env, s, k, r, e) == Ok {
      var i :| 0 <= i < |lines| && Sealed(lines)[i] == e;
      StampedEntry(env, s, k, r, budgets, start, u, body, lines, lines[i]);
    }
    EntriesOk(env, s, k, r, Entries(r.body));
    forall h | h in r.hits && h.Over? ensures Failed(env, k, r.body, h) {
      HitFailed(env, s, k, r, budgets, start, u, body, lines, h);
    }
    BudgetFromParts(env, s, k, r);
  }

  lemma StampedEntries(stamped: Body, body: Body, lines: seq<Line>)
    requires body.ToolCall? || body.Egress? || body.Inference?
    requires stamped == WithBudget(body, BudgetObject(lines))
    ensures Entries(stamped) == Sealed(lines) && !BudgetOf(stamped).BadBudget?
    ensures stamped == WithBudget(body, BudgetOf(stamped))
  {
  }

  lemma BudgetFromParts(env: Env, s: VState, k: Task, r: Record)
    requires !BudgetOf(r.body).BadBudget? && EntriesCode(env, s, k, r, Entries(r.body)) == Ok
    requires forall h | h in r.hits && h.Over? :: Failed(env, k, r.body, h)
    requires r.body.ToolCall? ==> r.body.httpShaped && (r.body.afterTheFact ==> r.mode == RecordOnly && r.decision != Block)
    ensures BudgetCode(env, s, k, r) == Ok
  {
    hide EntriesCode, Failed;
  }

  lemma StampedEntry(env: Env, s: VState, k: Task, r: Record, budgets: seq<BudgetRule>, start: Record,
                     u: Budgets.Used, body: Body, lines: seq<Line>, l: Line)
    requires start.body.TaskStart? && SameCounters(k, u) && AllSameHosts(env, budgets, start, k, u, body)
    requires forall i, j | 0 <= i < j < |budgets| :: budgets[i].id != budgets[j].id
    requires forall i | 0 <= i < |budgets| :: UniqueGlobs(budgets[i].limits.toolCallsBy)
    requires lines == Evaluate(env, budgets, start, u, body) && l in lines
    requires r.body == WithBudget(body, BudgetObject(lines)) && Enforced(s, r, lines)
    requires PackFor(env, r).Some? ==> PackFor(env, r).value.budgets == budgets
    ensures EntryCode(env, s, k, r, Entry(l.bid, l.metric, l.limit, l.used)) == Ok
  {
    EvaluatedLine(env, budgets, start, k, u, body, l);
    StampKeeps(env, k, body, BudgetObject(lines), Entry(l.bid, l.metric, l.limit, l.used));
  }

  /** Stamping a budget changes neither what a metric counts nor what is admitted. */
  lemma StampKeeps(env: Env, k: Task, body: Body, budget: BudgetKey, e: Entry)
    requires e.Entry?
    ensures Counted(e.metric, WithBudget(body, budget)) == Counted(e.metric, body)
    ensures Admitted(env, k, WithBudget(body, budget), e) == Admitted(env, k, body, e)
  {
  }

  lemma HitFailed(env: Env, s: VState, k: Task, r: Record, budgets: seq<BudgetRule>, start: Record,
                  u: Budgets.Used, body: Body, lines: seq<Line>, h: Hit)
    requires start.body.TaskStart? && SameCounters(k, u) && AllSameHosts(env, budgets, start, k, u, body)
    requires forall i, j | 0 <= i < j < |budgets| :: budgets[i].id != budgets[j].id
    requires forall i | 0 <= i < |budgets| :: UniqueGlobs(budgets[i].limits.toolCallsBy)
    requires lines == Evaluate(env, budgets, start, u, body)
    requires r.body == WithBudget(body, BudgetObject(lines)) && Entries(r.body) == Sealed(lines)
    requires h in Exceeded(lines)
    ensures Failed(env, k, r.body, h)
  {
    ExceededIff(lines, h);
    var l :| l in lines && !l.admitted && h == Over(l.bid, l.metric);
    var i :| 0 <= i < |lines| && lines[i] == l;
    SealedLines(lines);
    var e := Entry(l.bid, l.metric, l.limit, l.used);
    assert Sealed(lines)[i] == e;
    EvaluatedLine(env, budgets, start, k, u, body, l);
    StampKeeps(env, k, body, BudgetObject(lines), e);
    assert e in Entries(r.body);
  }

  /** A record in a task that carries no budget object and no budget hit passes. */
  lemma NoBudgetPasses(env: Env, s: VState, k: Task, r: Record)
    requires BudgetOf(r.body).NoBudget?
    requires r.body.ApprovalRequest? || r.body.ApprovalDecision? || forall h | h in r.hits :: !h.Over?
    requires r.body.ToolCall? ==> r.body.httpShaped && (r.body.afterTheFact ==> r.mode == RecordOnly && r.decision != Block)
    ensures BudgetCode(env, s, k, r) == Ok
  {
  }

  // ---- the cost of an inference ----

  lemma MicroNonNegative(u: Usage, p: Price)
    requires u.input >= 0 && u.output >= 0
    ensures FloorMicro(u.input * p.inputPerMtok + u.output * p.outputPerMtok) >= 0
  {
    assert u.input * p.inputPerMtok >= 0 && u.output * p.outputPerMtok >= 0;
  }

  /** The price the ledger stamps on a forwarded inference is the one the verifier computes from its usage. */
  lemma PricedPasses(env: Env, pack: Option<Pack>, r: Record, uses: seq<ToolUse>, usage: Option<Usage>,
                     budget: BudgetKey)
    requires r.body == WithBudget(Priced(env, pack, r.digest, uses, usage), budget)
    requires PackFor(env, r).Some? ==> pack == PackFor(env, r)
    ensures CostCode(env, r) == Ok
  {
    var price := if pack.Some? then PriceOf(env, pack.value.pricing, r.digest) else None;
    if price.Some? && usage.Some? && usage.value.input >= 0 && usage.value.output >= 0 {
      MicroNonNegative(usage.value, price.value);
    }
  }
}
