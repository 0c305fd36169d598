/** What the recounts count: the tally, calls, hosts and spend of a task's records, and the registry of a chain, said
    without folding. */
module Recounts {
  import opened Records
  import opened Checks
  import opened Store
  import opened ChainFacts
  import opened Reference

  function Where(rows: seq<Record>, p: Record -> bool): set<int> {
    set i | 0 <= i < |rows| && p(rows[i])
  }

  lemma WhereAppended(rows: seq<Record>, p: Record -> bool)
    requires rows != []
    ensures |Where(rows, p)| == |Where(rows[..|rows| - 1], p)| + (if p(rows[|rows| - 1]) then 1 else 0)
  {
    var n := |rows| - 1;
    var front := rows[..n];
    assert forall i | 0 <= i < n :: front[i] == rows[i];
    assert Where(rows, p) == Where(front, p) + (if p(rows[n]) then {n} else {});
  }

  predicate IsInference(r: Record) { r.body.Inference? }
  predicate IsCall(r: Record) { r.body.ToolCall? }
  predicate IsEgress(r: Record) { r.body.Egress? }
  predicate IsBlocked(r: Record) { !r.body.TaskEnd? && r.decision == Block }
  predicate IsFlagged(r: Record) { !r.body.TaskEnd? && r.decision == Flag }
  predicate IsConfirmed(r: Record) { r.body.ToolCall? && r.body.confirmation == Granted }
  predicate IsDenied(r: Record) {
    r.body.ToolCall? && (r.body.confirmation == Denied || r.body.confirmation == Unavailable)
  }

  /** The counts of a task_end are the numbers of records of each kind, the task_end itself apart. */
  lemma {:induction false} TallyCounts(rows: seq<Record>)
    ensures Tally(rows) == Counts(|Where(rows, IsInference)|, |Where(rows, IsCall)|, |Where(rows, IsBlocked)|,
                                  |Where(rows, IsConfirmed)|, |Where(rows, IsDenied)|, |Where(rows, IsFlagged)|,
                                  |Where(rows, IsEgress)|)
  {
    if rows == [] {
      assert forall p: Record -> bool :: Where(rows, p) == {};
    } else {
      hide Where;
      TallyCounts(rows[..|rows| - 1]);
      WhereAppended(rows, IsInference);
      WhereAppended(rows, IsCall);
      WhereAppended(rows, IsBlocked);
      WhereAppended(rows, IsConfirmed);
      WhereAppended(rows, IsDenied);
      WhereAppended(rows, IsFlagged);
      WhereAppended(rows, IsEgress);
    }
  }

  /** last_seq is the seq of the newest record that is no task_end, or the task_start. */
  lemma {:induction false} LastSeqIsNewest(rows: seq<Record>, start: nat)
    ensures (forall i | 0 <= i < |rows| :: rows[i].body.TaskEnd?) ==> LastSeq(rows, start) == start
    ensures forall i | 0 <= i < |rows| && !rows[i].body.TaskEnd? && (forall j | i < j < |rows| :: rows[j].body.TaskEnd?) ::
              LastSeq(rows, start) == rows[i].pos
  {
    if rows != [] {
      var front := rows[..|rows| - 1];
      LastSeqIsNewest(front, start);
      assert forall i | 0 <= i < |front| :: front[i] == rows[i];
    }
  }

  predicate Executed(r: Record, q: string) { r.body.ToolCall? && r.decision != Block && r.body.qualified == q }

  /** Each name occurs as often as non-blocked tool_calls carry it. */
  lemma {:induction false} CallsCount(rows: seq<Record>, q: string)
    ensures multiset(CallsOf(rows))[q] == |Where(rows, (r: Record) => Executed(r, q))|
  {
    var p := (r: Record) => Executed(r, q);
    if rows == [] {
      assert Where(rows, p) == {};
    } else {
      CallsCount(rows[..|rows| - 1], q);
      WhereAppended(rows, p);
    }
  }

  /** The hosts are the lower-cased text hosts of the non-blocked egress records. */
  lemma {:induction false} HostsAre(env: Env, rows: seq<Record>, h: string)
    ensures h in HostsOf(env, rows) <==>
            exists i :: 0 <= i < |rows| && rows[i].body.Egress? && rows[i].decision != Block && rows[i].body.host.Str?
                        && env.lower(rows[i].body.host.s) == h
  {
    if rows != [] {
      var n := |rows| - 1;
      HostsAre(env, rows[..n], h);
      assert forall i | 0 <= i < n :: rows[..n][i] == rows[i];
    }
  }

  /** Spend adds up: over any split of the records, and one record at a time. */
  lemma {:induction false} SpendAdds(a: seq<Record>, b: seq<Record>)
    ensures SpendOf(a + b) == SpendOf(a) + SpendOf(b)
    ensures forall r: Record :: SpendOf([r]) == if r.body.Inference? && r.body.cost.Int? then r.body.cost.i else 0
  {
    forall r: Record
      ensures SpendOf([r]) == if r.body.Inference? && r.body.cost.Int? then r.body.cost.i else 0
    {
      assert [r][..0] == [];
    }
    if b == [] {
      assert a + b == a;
    } else {
      SpendAdds(a, b[..|b| - 1]);
      assert (a + b)[..|a + b| - 1] == a + b[..|b| - 1];
    }
  }

  /** The records of a task are those that name it, in seq order. */
  lemma {:induction false} InTaskIs(chain: seq<Record>, t: int)
    requires Sequenced(chain)
    ensures forall r :: r in InTask(chain, t) <==> exists n :: Has(chain, n) && At(chain, n) == r && Names(r.task, t)
    ensures forall i, j | 0 <= i < j < |InTask(chain, t)| :: InTask(chain, t)[i].pos < InTask(chain, t)[j].pos
  {
    if chain != [] {
      var front, last := chain[..|chain| - 1], chain[|chain| - 1];
      assert front + [last] == chain;
      AtExtended(front, last);
      InTaskIs(front, t);
      assert At(chain, |chain|).pos == |chain|;
      forall r | r in InTask(front, t) ensures r.pos <= |front| {
        var n :| Has(front, n) && At(front, n) == r;
      }
    }
  }

  // ---- the registry of an accepted chain ----

  ghost predicate RegisteredAt(chain: seq<Record>, a: string, n: int) {
    Has(chain, n) && At(chain, n).body.AgentRegister? && At(chain, n).agent == a
  }

  ghost predicate Registered(chain: seq<Record>, a: string) {
    exists n :: RegisteredAt(chain, a, n)
  }

  ghost predicate Revoked(chain: seq<Record>, a: string) {
    exists n :: Has(chain, n) && At(chain, n).body.AgentRevoke? && At(chain, n).agent == a
  }

  /** The newest record that gives the agent a key. */
  ghost predicate KeyedAt(chain: seq<Record>, a: string, n: int) {
    && Has(chain, n) && At(chain, n).agent == a && (At(chain, n).body.AgentRegister? || At(chain, n).body.AgentRotate?)
    && (forall m | n < m && Has(chain, m) && At(chain, m).agent == a ::
          !At(chain, m).body.AgentRegister? && !At(chain, m).body.AgentRotate?)
  }

  function KeyGiven(b: Body): string {
    match b
    case AgentRegister(auth, key, _, _) => if auth == KeyAuth then key else ""
    case AgentRotate(_, newKey, _) => newKey
    case _ => ""
  }

  ghost predicate RegistryIs(chain: seq<Record>, a: string) {
    var agents := AgentsOf(chain);
    && (a in agents <==> Registered(chain, a))
    && (a in agents ==> (agents[a].revoked <==> Revoked(chain, a)))
    && (a in agents ==> exists n :: KeyedAt(chain, a, n) && agents[a].key == KeyGiven(At(chain, n).body))
    && (forall n | RegisteredAt(chain, a, n) :: a in agents && agents[a].auth == At(chain, n).body.auth)
    && (Revoked(chain, a) ==> a in agents)
  }

  /** In an accepted chain an agent is registered by its one agent_register, revoked by an agent_revoke, and keyed by
      the newest record that gives it a key. */
  lemma {:induction false} RegistryOf(env: Env, chain: seq<Record>, a: string)
    requires Accepted(env, chain)
    ensures RegistryIs(chain, a)
  {
    hide Verify, Next, Run;
    if chain != [] {
      var front, r := chain[..|chain| - 1], chain[|chain| - 1];
      assert front + [r] == chain;
      RunStep(env, front, r);
      RegistryOf(env, front, a);
      StateIsRecount(env, front);
      KindPassed(env, StateAfter(env, front), front, r);
      RegistryStep(front, r, a);
    } else {
      EmptyRun(env);
    }
  }

  lemma EmptyRun(env: Env)
    ensures forall a :: RegistryIs([], a)
  {
  }

  lemma KindPassed(env: Env, s: VState, chain: seq<Record>, r: Record)
    requires Mirrors(env, s, chain) && r.pos == |chain| + 1 && Verify(env, s, r) == Ok
    ensures AgentFits(chain, r)
  {
    hide Verify, Mirrors;
    VerifyIff(env, s, chain, r);
    hide SoundParent, SoundRulepack, SoundCost, SoundTask, SoundApproval, SoundBudget;
  }

  /** A register is of a new agent; a rotate and a revoke of a known one. */
  predicate AgentFits(chain: seq<Record>, r: Record) {
    && (r.body.AgentRegister? ==> r.agent !in AgentsOf(chain))
    && (r.body.AgentRotate? || r.body.AgentRevoke? ==> r.agent in AgentsOf(chain))
  }

  lemma RegistryStep(chain: seq<Record>, r: Record, a: string)
    requires RegistryIs(chain, a) && AgentFits(chain, r)
    ensures RegistryIs(chain + [r], a)
  {
    AtExtended(chain, r);
    var longer, n := chain + [r], |chain| + 1;
    assert longer[..|chain|] == chain;
    assert AgentsOf(longer) == NextAgents(AgentsOf(chain), r);
    RegisteredLonger(chain, r, a);
    if r.agent == a && (r.body.AgentRegister? || r.body.AgentRotate?) {
      assert KeyedAt(longer, a, n);
    } else if a in AgentsOf(chain) {
      var m :| KeyedAt(chain, a, m) && AgentsOf(chain)[a].key == KeyGiven(At(chain, m).body);
      assert KeyedAt(longer, a, m);
    }
    forall m | RegisteredAt(longer, a, m) ensures AgentsOf(longer)[a].auth == At(longer, m).body.auth {
      assert m <= |chain| ==> RegisteredAt(chain, a, m);
    }
  }

  lemma RegisteredLonger(chain: seq<Record>, r: Record, a: string)
    ensures Registered(chain + [r], a) <==> Registered(chain, a) || (r.body.AgentRegister? && r.agent == a)
    ensures Revoked(chain + [r], a) <==> Revoked(chain, a) || (r.body.AgentRevoke? && r.agent == a)
  {
    AtExtended(chain, r);
    if n :| RegisteredAt(chain, a, n) {
      assert RegisteredAt(chain + [r], a, n);
    }
    if n :| Has(chain, n) && At(chain, n).body.AgentRevoke? && At(chain, n).agent == a {
      assert At(chain + [r], n) == At(chain, n);
    }
    assert At(chain + [r], |chain| + 1) == r;
    if r.body.AgentRegister? && r.agent == a {
      assert RegisteredAt(chain + [r], a, |chain| + 1);
    }
    if n :| RegisteredAt(chain + [r], a, n) {
      assert n <= |chain| ==> RegisteredAt(chain, a, n);
    }
  }
}
