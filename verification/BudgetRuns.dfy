/** The ceilings the ledger's own guards keep over every run, however many calls were in flight: distinct egress
    hosts, and model spend (sijill/budgets.py). The pack in question is the one `env` carries. */
module BudgetRuns {
  import opened Records
  import opened Checks
  import opened Store
  import opened ChainFacts
  import opened Budgets
  import opened Writer
  import opened Runs
  import opened ApprovalRuns
  import opened Refinement
  import opened ActRefinement

  lemma {:induction false} RunPack(env: Env, evs: seq<Event>)
    requires ShapedRun(env, evs) && PackRun(env, evs)
    ensures PackHeld(env, After(env, evs))
  {
    hide Step, Shaped, PackScope, PackHeld;
    if evs != [] {
      ShapedStep(env, evs);
      RunPack(env, evs[..|evs| - 1]);
      RestartInvisible(env, evs[..|evs| - 1]);
      StepPack(env, After(env, evs[..|evs| - 1]), evs[|evs| - 1]);
    } else {
      StartPack(env);
    }
  }

  lemma StartPack(env: Env)
    ensures PackHeld(env, START)
  {
  }

  /** No record names a task before the task starts. */
  ghost predicate RefsEarlier(chain: seq<Record>) {
    forall n | Has(chain, n) && At(chain, n).task.Dec? :: At(chain, n).task.n < n
  }

  lemma {:induction false} RunRefs(env: Env, evs: seq<Event>)
    ensures RefsEarlier(After(env, evs).store)
  {
    hide Step;
    if evs != [] {
      var w, ev := After(env, evs[..|evs| - 1]), evs[|evs| - 1];
      RunRefs(env, evs[..|evs| - 1]);
      RestartInvisible(env, evs[..|evs| - 1]);
      StepRemembers(env, w, ev);
      if SealedBy(env, w, ev).Some? {
        SealedIs(env, w, ev);
        AtExtended(w.store, SealedBy(env, w, ev).value);
      }
    }
  }

  lemma {:induction false} NoRowsYet(chain: seq<Record>, t: int)
    requires RefsEarlier(chain) && t >= |chain|
    ensures InTask(chain, t) == []
  {
    if chain != [] {
      var front, r := chain[..|chain| - 1], chain[|chain| - 1];
      assert r == At(chain, |chain|);
      forall n | Has(front, n) && At(front, n).task.Dec? ensures At(front, n).task.n < n {
        assert At(front, n) == At(chain, n);
      }
      NoRowsYet(front, t);
    }
  }

  /** The budget of `env`'s pack governs the task. */
  ghost predicate Governs(env: Env, chain: seq<Record>, b: BudgetRule, t: int) {
    && env.pack.Some? && env.pack.value.hash != "" && b in env.pack.value.budgets
    && Has(chain, t) && At(chain, t).body.TaskStart? && Concerns(b, At(chain, t))
  }

  /** The task's records were sealed while that pack was in force. */
  ghost predicate SealedUnder(env: Env, chain: seq<Record>, t: int)
    requires env.pack.Some?
  {
    forall n | Has(chain, n) && Names(At(chain, n).task, t) :: At(chain, n).rulepack == env.pack.value.hash
  }

  lemma HostsAppended(env: Env, rows: seq<Record>, r: Record)
    ensures HostsShown(env, rows + [r])
            == if r.body.Egress? && r.decision != Block then HostsShown(env, rows) + {env.lower(TextOf(r.body.host))}
               else HostsShown(env, rows)
  {
    assert (rows + [r])[..|rows|] == rows;
  }

  /** A non-blocked egress was evaluated: nothing else seals one in a task. */
  lemma EgressEvaluated(env: Env, w: WState, ev: Event)
    requires DraftOf(env, w, ev).Sealing?
    requires DraftOf(env, w, ev).r.body.Egress? && DraftOf(env, w, ev).r.decision != Block
    requires DraftOf(env, w, ev).r.task.Dec?
    ensures ev.Act? && ev.place.Dec? && Has(w.store, ev.place.n) && At(w.store, ev.place.n).body.TaskStart?
    ensures DraftOf(env, w, ev).r.task == ev.place
    ensures BudgetStamp(env, w, ev.place.n, Prepared(w, ev)) == DraftOf(env, w, ev)
  {
    assert ev.Act?;
    ActGuarded(env, w, ev);
    hide BudgetStamp, ParentRefusal, ApprovalRefusal, MustCite;
    HaltedShape(ev.draft);
  }

  /** An egress the stamp lets through finds room under every host limit that governs the task. */
  lemma StampAdmitsHost(env: Env, w: WState, b: BudgetRule, t: nat, p: Record)
    requires Governs(env, w.store, b, t) && b.limits.egressHosts.Some? && w.pack == env.pack
    requires BudgetStamp(env, w, t, p).Sealing? && p.body.Egress? && p.decision != Block
    ensures var hosts := HostsShown(env, InTask(w.store, t));
            env.lower(TextOf(p.body.host)) in hosts || |hosts| + 1 <= b.limits.egressHosts.value
  {
    hide Evaluate, Concerns, HostsShown, InTask, CallsOf, SpendOf, Exceeded, BudgetStamp;
    var u := UsedIn(env, InTask(w.store, t));
    var limit := b.limits.egressHosts.value;
    var l := Line(b.id, EgressHosts, limit, |u.hosts|,
                  env.lower(TextOf(p.body.host)) in u.hosts || |u.hosts| + 1 <= limit);
    assert MeetsLimit(env, b, u, p.body, l);
    EvaluatedIff(env, w.pack.value.budgets, At(w.store, t), u, p.body, l);
    StampFacts(env, w, t, p);
    ExceededIff(LinesFor(env, w, t, p.body), Over(l.bid, l.metric));
  }

  lemma HostStep(env: Env, w: WState, ev: Event, b: BudgetRule, t: nat, r: Record)
    requires MemoryIs(w) && PackHeld(env, w) && Governs(env, w.store, b, t) && b.limits.egressHosts.Some?
    requires DraftOf(env, w, ev).Sealing? && r == DraftOf(env, w, ev).r.(pos := r.pos, rulepack := w.rulepackHash)
    requires Names(r.task, t) ==> r.rulepack == env.pack.value.hash
    requires |HostsShown(env, InTask(w.store, t))| <= b.limits.egressHosts.value
    ensures |HostsShown(env, InTask(w.store + [r], t))| <= b.limits.egressHosts.value
  {
    hide DraftOf, BudgetStamp;
    InTaskExtended(w.store, r, t);
    HostsAppended(env, InTask(w.store, t), r);
    if Names(r.task, t) && r.body.Egress? && r.decision != Block {
      EgressEvaluated(env, w, ev);
      var p := Prepared(w, ev);
      StampKeepsHost(env, w, t, p);
      StampAdmitsHost(env, w, b, t, p);
      var h := env.lower(TextOf(r.body.host));
      if h in HostsShown(env, InTask(w.store, t)) {
        assert HostsShown(env, InTask(w.store, t)) + {h} == HostsShown(env, InTask(w.store, t));
      }
    }
  }

  lemma StampKeepsHost(env: Env, w: WState, t: nat, p: Record)
    requires Has(w.store, t) && At(w.store, t).body.TaskStart?
    ensures BudgetStamp(env, w, t, p).Sealing? ==>
              var r := BudgetStamp(env, w, t, p).r;
              && r.decision == p.decision && (r.body.Egress? <==> p.body.Egress?)
              && (r.body.Egress? ==> r.body.host == p.body.host)
  {
  }

  /** While one pack is in force, a task never reaches more distinct hosts than the pack's limit, however many of its
      calls were in flight. */
  lemma {:induction false} HostsWithinLimit(env: Env, evs: seq<Event>, b: BudgetRule, t: nat)
    requires ShapedRun(env, evs) && PackRun(env, evs)
    requires Governs(env, After(env, evs).store, b, t) && b.limits.egressHosts.Some?
    requires SealedUnder(env, After(env, evs).store, t)
    ensures |HostsShown(env, InTask(After(env, evs).store, t))| <= b.limits.egressHosts.value
    decreases |evs|, 1
  {
    hide Step, Shaped, PackScope, PackHeld;
    if evs != [] {
      var front, ev := evs[..|evs| - 1], evs[|evs| - 1];
      var w := After(env, front);
      ShapedStep(env, evs);
      RestartInvisible(env, front);
      RunPack(env, front);
      RunRefs(env, front);
      StepRemembers(env, w, ev);
      if SealedBy(env, w, ev).Some? {
        HostRunStep(env, front, w, ev, b, t);
      } else {
        HostsWithinLimit(env, front, b, t);
      }
    }
  }

  lemma HostRunStep(env: Env, front: seq<Event>, w: WState, ev: Event, b: BudgetRule, t: nat)
    requires ShapedRun(env, front) && PackRun(env, front) && w == After(env, front)
    requires MemoryIs(w) && PackHeld(env, w) && RefsEarlier(w.store) && SealedBy(env, w, ev).Some?
    requires Governs(env, w.store + [SealedBy(env, w, ev).value], b, t) && b.limits.egressHosts.Some?
    requires SealedUnder(env, w.store + [SealedBy(env, w, ev).value], t)
    ensures |HostsShown(env, InTask(w.store + [SealedBy(env, w, ev).value], t))| <= b.limits.egressHosts.value
    decreases |front|, 2
  {
    hide After, ShapedRun, PackRun, PackHeld;
    SealedIs(env, w, ev);
    var r := SealedBy(env, w, ev).value;
    hide DraftOf, SealedBy, Step;
    AtExtended(w.store, r);
    InTaskExtended(w.store, r, t);
    if t <= |w.store| {
      assert SealedUnder(env, w.store, t);
      HostsWithinLimit(env, front, b, t);
      if Names(r.task, t) || r.body.Egress? {
        HostStep(env, w, ev, b, t, r);
      }
    } else {
      NoRowsYet(w.store, t);
    }
  }

  // ---- model spend ----

  /** The inference was sealed while the task had spent less than the limit. */
  ghost predicate SpendGated(env: Env, chain: seq<Record>, b: BudgetRule, n: int)
    requires Has(chain, n) && b.limits.spendMicro.Some?
  {
    var r := At(chain, n);
    r.body.Inference? && r.decision != Block && r.task.Dec? && Governs(env, chain[..n - 1], b, r.task.n)
    && r.rulepack == env.pack.value.hash
    ==> SpendOf(InTask(chain[..n - 1], r.task.n)) < b.limits.spendMicro.value
  }

  /** A non-blocked inference in a task was evaluated under the lock. */
  lemma InferenceEvaluated(env: Env, w: WState, ev: Event)
    requires Shaped(w, ev) && DraftOf(env, w, ev).Sealing?
    requires DraftOf(env, w, ev).r.body.Inference? && DraftOf(env, w, ev).r.decision != Block
    requires DraftOf(env, w, ev).r.task.Dec?
    ensures ev.Infer? && ev.place == DraftOf(env, w, ev).r.task
    ensures Has(w.store, ev.place.n) && At(w.store, ev.place.n).body.TaskStart?
    ensures exists r0: Record :: r0.body.Inference? && DraftOf(env, w, ev).r == BudgetInference(env, w, ev.place.n, r0)
  {
    if ev.Act? {
      ActKinds(env, w, ev);
    }
    assert ev.Infer? && HALTED !in ev.rules;
    var t := ev.place.n;
    InferBodyPlain(env, w, ev);
    var who := if ev.caller.Some? then ev.caller.value.agent else "";
    var r0 := InTaskOf(w, BaseRecord(ev.ts, InferBody(env, w, ev)).(mode := ev.mode, decision := ev.decision,
                          hits := Rules(ev.rules) + ev.early, inputHash := ev.inputHash, digest := ev.digest,
                          agent := who, principal := ev.principal), t);
    hide BudgetInference, Rules, Priced;
    assert DraftOf(env, w, ev).r == BudgetInference(env, w, t, r0);
  }

  lemma SpendAdmitted(env: Env, w: WState, b: BudgetRule, t: nat, r0: Record)
    requires Governs(env, w.store, b, t) && b.limits.spendMicro.Some? && w.pack == env.pack
    requires r0.body.Inference? && BudgetInference(env, w, t, r0).decision != Block
    ensures SpendOf(InTask(w.store, t)) < b.limits.spendMicro.value
  {
    hide Evaluate, Concerns, HostsShown, InTask, CallsOf, SpendOf, Exceeded;
    var u := UsedIn(env, InTask(w.store, t));
    var l := Line(b.id, SpendMicro, b.limits.spendMicro.value, u.spend, u.spend < b.limits.spendMicro.value);
    assert MeetsLimit(env, b, u, r0.body, l);
    EvaluatedIff(env, w.pack.value.budgets, At(w.store, t), u, r0.body, l);
    ExceededIff(LinesFor(env, w, t, r0.body), Over(l.bid, l.metric));
  }

  lemma SpendStepRun(env: Env, w: WState, ev: Event, b: BudgetRule, r: Record)
    requires PackHeld(env, w) && Shaped(w, ev) && b.limits.spendMicro.Some?
    requires DraftOf(env, w, ev).Sealing?
    requires r == DraftOf(env, w, ev).r.(pos := r.pos, rulepack := r.rulepack)
    requires !r.body.RulepackChange? ==> r.rulepack == w.rulepackHash
    ensures SpendGated(env, w.store + [r], b, |w.store| + 1)
  {
    assert (w.store + [r])[..|w.store|] == w.store;
    hide DraftOf, BudgetInference;
    if r.body.Inference? && r.decision != Block && r.task.Dec? && Governs(env, w.store, b, r.task.n)
       && r.rulepack == env.pack.value.hash {
      InferenceEvaluated(env, w, ev);
      var r0: Record :| r0.body.Inference? && DraftOf(env, w, ev).r == BudgetInference(env, w, ev.place.n, r0);
      SpendAdmitted(env, w, b, r.task.n, r0);
    }
  }

  /** While one pack is in force, every non-blocked inference of a task its spend limit governs was sealed while the
      task had spent less than the limit, however many were in flight. */
  lemma {:induction false} SpendBelowLimitRun(env: Env, evs: seq<Event>, b: BudgetRule, n: int)
    requires ShapedRun(env, evs) && PackRun(env, evs) && b.limits.spendMicro.Some?
    requires Has(After(env, evs).store, n)
    ensures SpendGated(env, After(env, evs).store, b, n)
  {
    hide Step, Shaped, PackScope, PackHeld, SpendGated;
    if evs != [] {
      var front, ev := evs[..|evs| - 1], evs[|evs| - 1];
      var w := After(env, front);
      ShapedStep(env, evs);
      RestartInvisible(env, front);
      RunPack(env, front);
      StepRemembers(env, w, ev);
      if Has(w.store, n) {
        SpendBelowLimitRun(env, front, b, n);
      }
      if SealedBy(env, w, ev).Some? {
        SealedIs(env, w, ev);
        var r := SealedBy(env, w, ev).value;
        hide DraftOf, SealedBy;
        if n == |w.store| + 1 {
          SpendStepRun(env, w, ev, b, r);
        } else {
          SpendGatedKept(env, w.store, r, b, n);
        }
      }
    }
  }

  lemma SpendGatedKept(env: Env, chain: seq<Record>, r: Record, b: BudgetRule, n: int)
    requires Has(chain, n) && b.limits.spendMicro.Some? && SpendGated(env, chain, b, n)
    ensures SpendGated(env, chain + [r], b, n)
  {
    assert (chain + [r])[..n - 1] == chain[..n - 1];
  }
}
