/** When the ledger's chain passes, exactly: a condition on each call and the state it meets, necessary and sufficient
    for one seal and for whole runs, and what it says of the calls that fail it. */
module ScopeLimits {
  import opened Records
  import opened Checks
  import opened Store
  import opened ChainFacts
  import opened Guarantees
  import opened Budgets
  import opened Writer
  import opened BudgetStamps
  import opened Runs
  import opened ApprovalRuns
  import opened Refinement
  import opened ActRefinement
  import opened Recounts

  // ---- whatever passes is in scope ----

  /** A budget hit on a call let through is a failing entry of its own budget object, and a grant answers it. */
  lemma LetThroughIsCited(env: Env, s: VState, k: Task, r: Record, h: Hit)
    requires BudgetCode(env, s, k, r) == Ok && r.body.ToolCall? && r.decision != Block && h in r.hits && h.Over?
    ensures Cited(s, r.body).Some?
  {
    assert Failed(env, k, r.body, h);
    var e :| e in Entries(r.body) && e.Entry? && h == Over(e.bid, e.metric) && !Admitted(env, k, r.body, e);
    EntryPassed(env, s, k, r, Entries(r.body), e);
  }

  lemma PassingIsInScope(env: Env, s: VState, chain: seq<Record>, r: Record)
    requires MirrorsSeen(s, chain) && MirrorsTasks(env, s, chain)
    requires Verify(env, s, r) == Ok
    ensures RecordInScope(env, r)
  {
    VerifyParts(env, s, r);
    if r.body.ToolCall? {
      assert r.task.Dec? && s.seen[r.task.n] == SeenOf(At(chain, r.task.n));
      assert TaskOf(s, r).Some?;
      if h :| h in r.hits && h.Over? {
        if r.decision != Block {
          LetThroughIsCited(env, s, TaskOf(s, r).value, r, h);
        }
      }
    }
  }

  /** The line of a host limit that governs the task. */
  function HostLine(env: Env, w: WState, b: BudgetRule, t: nat, host: TextVal): Line
    requires b.limits.egressHosts.Some?
  {
    var shown := HostsShown(env, InTask(w.store, t));
    var limit := b.limits.egressHosts.value;
    Line(b.id, EgressHosts, limit, |shown|, env.lower(TextOf(host)) in shown || |shown| + 1 <= limit)
  }

  ghost predicate LimitsHosts(w: WState, b: BudgetRule, t: nat) {
    && w.pack.Some? && b in w.pack.value.budgets && b.limits.egressHosts.Some?
    && Has(w.store, t) && At(w.store, t).body.TaskStart? && Concerns(b, At(w.store, t))
  }

  /** The limit is evaluated, and it alone speaks of its budget's hosts. */
  lemma HostLineIs(env: Env, w: WState, b: BudgetRule, t: nat, body: Body)
    requires LimitsHosts(w, b, t) && body.Egress? && LoadedPack(w.pack.value)
    ensures HostLine(env, w, b, t, body.host).bid == b.id && HostLine(env, w, b, t, body.host).metric == EgressHosts
    ensures HostLine(env, w, b, t, body.host) in LinesFor(env, w, t, body)
    ensures forall l | l in LinesFor(env, w, t, body) && l.bid == b.id :: l == HostLine(env, w, b, t, body.host)
  {
    MatchesIff(b, At(w.store, t));
    hide HostsShown, InTask, CallsOf, SpendOf, Matches, Concerns, Evaluate;
    var u := UsedIn(env, InTask(w.store, t));
    EvaluateIff(env, w.pack.value.budgets, At(w.store, t), u, body, HostLine(env, w, b, t, body.host));
    assert HostLine(env, w, b, t, body.host) in LinesOf(env, b, u, body);
    forall l | l in LinesFor(env, w, t, body) && l.bid == b.id ensures l == HostLine(env, w, b, t, body.host) {
      EvaluateIff(env, w.pack.value.budgets, At(w.store, t), u, body, l);
      var c :| c in w.pack.value.budgets && Matches(c, At(w.store, t)) && l in LinesOf(env, c, u, body);
      SameBudget(w.pack.value, b, c);
    }
  }

  lemma SameBudget(pack: Pack, b: BudgetRule, c: BudgetRule)
    requires LoadedPack(pack) && b in pack.budgets && c in pack.budgets && b.id == c.id
    ensures b == c
  {
    var i :| 0 <= i < |pack.budgets| && pack.budgets[i] == b;
    var j :| 0 <= j < |pack.budgets| && pack.budgets[j] == c;
  }

  /** The stamped entry of a limit is the ledger's count of it. */
  lemma LineSealed(lines: seq<Line>, l: Line)
    requires l in lines
    ensures Entry(l.bid, l.metric, l.limit, l.used) in Sealed(lines)
  {
    SealedLines(lines);
    var i :| 0 <= i < |lines| && lines[i] == l;
    assert Sealed(lines)[i] == Entry(l.bid, l.metric, l.limit, l.used);
  }

  /** A stamped egress that passes the budget checks meets each host limit the way the verifier counts it. */
  lemma PassingFits(env: Env, w: WState, s: VState, t: nat, p: Record, r: Record, b: BudgetRule)
    requires LimitsHosts(w, b, t) && LoadedPack(w.pack.value) && t in s.tasks
    requires s.tasks[t].hosts == HostsOf(env, InTask(w.store, t))
    requires p.body.Egress? && BudgetStamp(env, w, t, p).Sealing?
    requires r == BudgetStamp(env, w, t, p).r.(pos := r.pos, rulepack := r.rulepack)
    requires BudgetCode(env, s, s.tasks[t], r) == Ok
    ensures var shown := HostsShown(env, InTask(w.store, t));
            && |shown| == |HostsOf(env, InTask(w.store, t))|
            && (p.body.host.Str? || env.lower(TextOf(p.body.host)) !in shown
                || |shown| + 1 <= b.limits.egressHosts.value)
  {
    hide BudgetCode, LinesFor, HostsShown, HostsOf, InTask, Evaluate, BudgetStamp, LoadedPack, HostLine, Exceeded,
         Entries, Sealed, EntryCode, WithBudget;
    StampFacts(env, w, t, p);
    HostLineIs(env, w, b, t, p.body);
    var lines := LinesFor(env, w, t, p.body);
    var l := HostLine(env, w, b, t, p.body.host);
    LineSealed(lines, l);
    StampedEntries(r.body, p.body, lines);
    EntriesPassed(env, s, s.tasks[t], r);
    EntryPassed(env, s, s.tasks[t], r, Entries(r.body), Entry(l.bid, l.metric, l.limit, l.used));
    ExceededIff(lines, Over(b.id, EgressHosts));
    EntryFits(env, w, s, t, r, b, p.body);
  }

  /** An entry for a host limit that passes: the count is the verifier's, and no excess goes without its hit. */
  lemma EntryFits(env: Env, w: WState, s: VState, t: nat, r: Record, b: BudgetRule, body: Body)
    requires LimitsHosts(w, b, t) && t in s.tasks && s.tasks[t].hosts == HostsOf(env, InTask(w.store, t))
    requires body.Egress? && r.body == WithBudget(body, BudgetOf(r.body))
    requires var l := HostLine(env, w, b, t, body.host);
             && EntryCode(env, s, s.tasks[t], r, Entry(l.bid, l.metric, l.limit, l.used)) == Ok
             && (Over(b.id, EgressHosts) in r.hits ==> !l.admitted)
    ensures var shown := HostsShown(env, InTask(w.store, t));
            && |shown| == |HostsOf(env, InTask(w.store, t))|
            && (body.host.Str? || env.lower(TextOf(body.host)) !in shown || |shown| + 1 <= b.limits.egressHosts.value)
  {
    hide HostsShown, HostsOf, InTask, Matches;
  }

  lemma EntriesPassed(env: Env, s: VState, k: Task, r: Record)
    requires BudgetCode(env, s, k, r) == Ok
    ensures EntriesCode(env, s, k, r, Entries(r.body)) == Ok
  {
  }

  /** A call whose record passes was in scope. */
  lemma PassingCall(env: Env, w: WState, s: VState, ev: Event, r: Record)
    requires PackHeld(env, w) && MirrorsSeen(s, w.store) && MirrorsTasks(env, s, w.store) && ev.Act?
    requires ActDraft(env, w, ev).Sealing? && r == ActDraft(env, w, ev).r.(pos := r.pos, rulepack := r.rulepack)
    requires Verify(env, s, r) == Ok
    ensures InScope(env, w, ev)
  {
    PassingIsInScope(env, s, w.store, r);
    ActScope(env, w, ev, r);
    VerifyParts(env, s, r);
    if ev.place.Dec? && !w.halted && ev.draft.body.Egress? && w.pack.Some? {
      ActGuarded(env, w, ev);
      var p, t := Prepared(w, ev), ev.place.n;
      assert p.body == ev.draft.body;
      StampFacts(env, w, t, p);
      assert r.task == Dec(t) && TaskOf(s, r) == Some(s.tasks[t]) && MirrorsTask(env, s.tasks[t], w.store, t);
      hide BudgetCode, ActDraft, Verify, BudgetStamp, LinesFor, HostsShown, HostsOf, CallInScope, RecordInScope,
           MirrorsTasks;
      forall b | b in w.pack.value.budgets && Concerns(b, At(w.store, t)) && b.limits.egressHosts.Some?
        ensures var shown := HostsShown(env, InTask(w.store, t));
                && |shown| == |HostsOf(env, InTask(w.store, t))|
                && (p.body.host.Str? || env.lower(TextOf(p.body.host)) !in shown
                    || |shown| + 1 <= b.limits.egressHosts.value)
      {
        PassingFits(env, w, s, t, p, r, b);
      }
    }
  }

  lemma PassingScope(env: Env, w: WState, s: VState, ev: Event, r: Record)
    requires PackHeld(env, w) && MirrorsSeen(s, w.store) && MirrorsTasks(env, s, w.store)
    requires Drafted(env, w, ev, r) && Verify(env, s, r) == Ok
    ensures InScope(env, w, ev)
  {
    hide Verify, ActDraft, AskDraft, InferDraft, EndDraft, StartDraft, DecideDraft, ExpireDraft, AdoptDraft, PackHeld;
    if ev.Act? {
      PassingCall(env, w, s, ev, r);
    } else if ev.Ask? {
      PassingAsk(env, w, s, ev, r);
    }
  }

  lemma PassingAsk(env: Env, w: WState, s: VState, ev: Event, r: Record)
    requires MirrorsSeen(s, w.store) && MirrorsTasks(env, s, w.store) && ev.Ask?
    requires AskDraft(w, ev).Sealing? && r == AskDraft(w, ev).r.(pos := r.pos, rulepack := r.rulepack)
    requires Verify(env, s, r) == Ok
    ensures InScope(env, w, ev)
  {
    PassingIsInScope(env, s, w.store, r);
    hide Verify, MirrorsSeen, MirrorsTasks, ParentRefusal, Ended;
  }

  // ---- exactly when ----

  /** In every reachable state: the verifier accepts the chain with the record an event seals if and only if the call
      was in scope in that state. */
  lemma {:induction false} SealAcceptedIff(env: Env, w: WState, ev: Event)
    requires Ready(env, w) && EnvOk(env) && Shaped(w, ev) && PackScope(env, ev)
    requires SealedBy(env, w, ev).Some?
    ensures Accepted(env, w.store + [SealedBy(env, w, ev).value]) <==> InScope(env, w, ev)
  {
    hide Shaped, SealedBy, Verify, InScope, PackHeld, SessionsHeld, Held, Accepted, Drafted;
    var r, s := SealedBy(env, w, ev).value, StateAfter(env, w.store);
    StateIsRecount(env, w.store);
    SealedNumber(env, w, ev);
    RunStep(env, w.store, r);
    SealedDrafted(env, w, ev);
    if InScope(env, w, ev) {
      SealedPasses(env, w, s, ev);
    }
    if Verify(env, s, r) == Ok {
      PassingScope(env, w, s, ev, r);
    }
  }

  /** Over whole runs: the verifier accepts the chain if and only if every call that sealed a record was in scope in
      the state it met. */
  lemma {:induction false} RunAcceptedIff(env: Env, evs: seq<Event>)
    requires EnvOk(env) && ShapedRun(env, evs) && PackRun(env, evs)
    ensures Accepted(env, After(env, evs).store) <==> InScopeRun(env, evs)
  {
    hide InScopeRun, After, ShapedRun, PackRun;
    if InScopeRun(env, evs) {
      WriterRefinesVerifier(env, evs);
    }
    if Accepted(env, After(env, evs).store) {
      AcceptedIsInScope(env, evs);
    }
  }

  lemma {:induction false} AcceptedIsInScope(env: Env, evs: seq<Event>)
    requires EnvOk(env) && ShapedRun(env, evs) && PackRun(env, evs)
    requires Accepted(env, After(env, evs).store)
    ensures InScopeRun(env, evs)
  {
    hide Step, Shaped, InScope, PackScope, Ready, Accepted, SealedBy, InScopeRun;
    if evs != [] {
      var front, ev := evs[..|evs| - 1], evs[|evs| - 1];
      var w := After(env, front);
      ShapedStep(env, evs);
      RestartInvisible(env, front);
      StepRemembers(env, w, ev);
      FrontAccepted(env, w, ev);
      assert PackRun(env, front) && PackScope(env, ev);
      AcceptedIsInScope(env, front);
      RunReady(env, front);
      if SealedBy(env, w, ev).Some? {
        SealAcceptedIff(env, w, ev);
      }
      ScopedStep(env, evs);
    } else {
      NothingScoped(env);
    }
  }

  lemma NothingScoped(env: Env)
    ensures InScopeRun(env, [])
  {
  }

  lemma FrontAccepted(env: Env, w: WState, ev: Event)
    requires MemoryIs(w) && Accepted(env, Step(env, w, ev).store)
    ensures Accepted(env, w.store)
  {
    hide DraftOf, Loaded, Accepted, Step, SealedBy;
    StepRemembers(env, w, ev);
    var longer := Step(env, w, ev).store;
    assert longer[..|w.store|] == w.store;
    PrefixAccepted(env, longer, |w.store|);
  }

  // ---- the calls that fail it ----

  /** Under the operator halt a call keeps its after-the-fact claim and is sealed blocked: in every reachable state the
      chain fails. */
  lemma {:induction false} HaltedAfterTheFact(env: Env, w: WState, ev: Event)
    requires Ready(env, w) && EnvOk(env) && PackScope(env, ev) && SealedBy(env, w, ev).Some?
    requires w.halted && ev.Act? && ev.draft.body.ToolCall? && ev.draft.body.afterTheFact
    ensures !Accepted(env, w.store + [SealedBy(env, w, ev).value])
  {
    hide SealedBy, Accepted, Ready;
    SealAcceptedIff(env, w, ev);
  }

  /** A call let through over budget that cites no approval fails the chain; `stamp` takes `confirmation: granted` at
      its word. */
  lemma {:induction false} UncitedOverBudget(env: Env, w: WState, ev: Event, h: Hit)
    requires Ready(env, w) && EnvOk(env) && PackScope(env, ev) && SealedBy(env, w, ev).Some?
    requires !w.halted && ev.Act? && ev.draft.body.ToolCall? && ev.draft.decision != Block
    requires ev.draft.body.approvalSeq.NoInt? && h in ev.draft.hits && h.Over?
    ensures !Accepted(env, w.store + [SealedBy(env, w, ev).value])
  {
    hide SealedBy, Accepted, Ready;
    SealAcceptedIff(env, w, ev);
  }

  /** The next egress of a task passes exactly when, for every host limit that governs the task, the two programs have
      counted as many hosts and this host is a string, new, or within the limit. */
  lemma {:induction false} EgressAcceptedIff(env: Env, w: WState, ev: Event)
    requires Ready(env, w) && EnvOk(env) && PackScope(env, ev) && SealedBy(env, w, ev).Some?
    requires !w.halted && ev.Act? && ev.draft.body.Egress? && ev.place.Dec?
    requires Has(w.store, ev.place.n) && At(w.store, ev.place.n).body.TaskStart?
    ensures Accepted(env, w.store + [SealedBy(env, w, ev).value]) <==> HostsFit(env, w, ev.place.n, ev.draft.body)
  {
    hide SealedBy, Accepted, Ready, HostsFit;
    SealAcceptedIff(env, w, ev);
  }

  /** Once the counts differ, the next egress that a host limit evaluates makes the chain fail. */
  lemma {:induction false} NextEgressRefused(env: Env, w: WState, ev: Event, b: BudgetRule, t: nat)
    requires Ready(env, w) && EnvOk(env) && PackScope(env, ev) && SealedBy(env, w, ev).Some?
    requires ev.Act? && ev.draft.body.Egress? && ev.place == Dec(t) && !w.halted && LimitsHosts(w, b, t)
    requires |HostsShown(env, InTask(w.store, t))| != |HostsOf(env, InTask(w.store, t))|
    ensures !Accepted(env, w.store + [SealedBy(env, w, ev).value])
  {
    hide SealedBy, Accepted, Ready;
    EgressAcceptedIff(env, w, ev);
  }

  /** A non-blocked egress to this host among the records. */
  predicate EgressTo(env: Env, r: Record, h: string) {
    r.body.Egress? && r.decision != Block && env.lower(TextOf(r.body.host)) == h
  }

  /** A non-blocked egress to a host that is not a string, and that none of the records reached as one. */
  ghost predicate OnlyNotTextAt(env: Env, rows: seq<Record>, i: int) {
    && 0 <= i < |rows| && rows[i].body.Egress? && rows[i].decision != Block && rows[i].body.host.NotStr?
    && forall j | 0 <= j < |rows| && EgressTo(env, rows[j], env.lower(rows[i].body.host.shown)) ::
         rows[j].body.host.NotStr?
  }

  /** Of any records, the two counts differ exactly when some non-blocked egress went to a host that is not a string
      and that none reached as a string. */
  lemma {:induction false} HostCountsDifferIff(env: Env, rows: seq<Record>)
    ensures |HostsShown(env, rows)| != |HostsOf(env, rows)| <==> exists i :: OnlyNotTextAt(env, rows, i)
  {
    HostsCovered(env, rows);
    SameSize(HostsOf(env, rows), HostsShown(env, rows));
    hide HostsShown, HostsOf, OnlyNotTextAt;
    if HostsShown(env, rows) != HostsOf(env, rows) {
      var h :| h in HostsShown(env, rows) && h !in HostsOf(env, rows);
      var i := UncountedAt(env, rows, h);
    }
    if i :| OnlyNotTextAt(env, rows, i) {
      CountedApart(env, rows, i);
    }
  }

  lemma {:induction false} UncountedAt(env: Env, rows: seq<Record>, h: string) returns (i: int)
    requires h in HostsShown(env, rows) && h !in HostsOf(env, rows)
    ensures OnlyNotTextAt(env, rows, i)
  {
    ShownAre(env, rows, h);
    CountedAre(env, rows, h);
    hide HostsShown, HostsOf;
    i :| 0 <= i < |rows| && EgressTo(env, rows[i], h);
  }

  lemma {:induction false} CountedApart(env: Env, rows: seq<Record>, i: int)
    requires OnlyNotTextAt(env, rows, i)
    ensures HostsShown(env, rows) != HostsOf(env, rows)
  {
    var h := env.lower(rows[i].body.host.shown);
    ShownAre(env, rows, h);
    CountedAre(env, rows, h);
    hide HostsShown, HostsOf;
    assert EgressTo(env, rows[i], h);
    assert h in HostsShown(env, rows) && h !in HostsOf(env, rows);
  }

  /** Record n is a non-blocked egress of the task to a host that is not a string and that none reached as one. */
  ghost predicate OnlyNotText(env: Env, chain: seq<Record>, t: int, n: int) {
    && Has(chain, n) && Names(At(chain, n).task, t) && At(chain, n).body.Egress? && At(chain, n).decision != Block
    && At(chain, n).body.host.NotStr?
    && forall m | Has(chain, m) && Names(At(chain, m).task, t)
                  && EgressTo(env, At(chain, m), env.lower(At(chain, n).body.host.shown)) ::
         At(chain, m).body.host.NotStr?
  }

  /** After every run, the two programs have counted a task's hosts apart exactly when one of its egress records went
      to a host that is not a string and that no other reached as a string. */
  lemma {:induction false} NonTextHostCounts(env: Env, evs: seq<Event>, t: int)
    ensures var chain := After(env, evs).store;
            |HostsShown(env, InTask(chain, t))| != |HostsOf(env, InTask(chain, t))| <==>
            exists n :: OnlyNotText(env, chain, t, n)
  {
    RunSequenced(env, evs);
    var chain := After(env, evs).store;
    hide After, HostsShown, HostsOf;
    InTaskIs(chain, t);
    var rows := InTask(chain, t);
    HostCountsDifferIff(env, rows);
    hide InTask;
    if n :| OnlyNotText(env, chain, t, n) {
      var i :| 0 <= i < |rows| && rows[i] == At(chain, n);
      forall j | 0 <= j < |rows| && EgressTo(env, rows[j], env.lower(rows[i].body.host.shown))
        ensures rows[j].body.host.NotStr?
      {
        assert rows[j] in rows;
      }
      assert OnlyNotTextAt(env, rows, i);
    }
    if i :| OnlyNotTextAt(env, rows, i) {
      assert rows[i] in rows;
      var n :| Has(chain, n) && At(chain, n) == rows[i];
      forall m | Has(chain, m) && Names(At(chain, m).task, t)
                 && EgressTo(env, At(chain, m), env.lower(At(chain, n).body.host.shown))
        ensures At(chain, m).body.host.NotStr?
      {
        assert At(chain, m) in rows;
      }
      assert OnlyNotText(env, chain, t, n);
    }
  }

  lemma {:induction false} ShownAre(env: Env, rows: seq<Record>, h: string)
    ensures h in HostsShown(env, rows) <==> exists i :: 0 <= i < |rows| && EgressTo(env, rows[i], h)
  {
    if rows != [] {
      var n := |rows| - 1;
      ShownAre(env, rows[..n], h);
      assert forall i | 0 <= i < n :: rows[..n][i] == rows[i];
    }
  }

  lemma {:induction false} CountedAre(env: Env, rows: seq<Record>, h: string)
    ensures h in HostsOf(env, rows) <==>
            exists i :: 0 <= i < |rows| && EgressTo(env, rows[i], h) && rows[i].body.host.Str?
  {
    if rows != [] {
      var n := |rows| - 1;
      CountedAre(env, rows[..n], h);
      assert forall i | 0 <= i < n :: rows[..n][i] == rows[i];
    }
  }
}
