/** What a budget leaves on the record it is evaluated for, and what `settled` seals of a model call: exactly
    (sijill/budgets.py, sijill/proxy.py). */
module SettledExact {
  import opened Records
  import opened Checks
  import opened Store
  import opened ChainFacts
  import opened Budgets
  import opened Writer
  import opened Runs
  import opened ApprovalRuns
  import opened Refinement
  import opened ActRefinement
  import opened Reference
  import opened EndpointsExact

  // ---- budgets.py ----

  /** A budget of the pack in force that concerns the task gives this limit for the record. */
  ghost predicate Met(env: Env, w: WState, t: nat, b: Body, l: Line)
    requires Has(w.store, t) && At(w.store, t).body.TaskStart?
  {
    && w.pack.Some?
    && exists rule :: && rule in w.pack.value.budgets && Concerns(rule, At(w.store, t))
                      && MeetsLimit(env, rule, UsedIn(env, InTask(w.store, t)), b, l)
  }

  /** The record carries every limit it met with the count before it, and as hits those that do not admit it. */
  ghost predicate BudgetSealed(env: Env, w: WState, t: nat, r: Record)
    requires Has(w.store, t) && At(w.store, t).body.TaskStart?
  {
    && !BadEntries(r.body)
    && (forall e :: e in SealedEntries(r.body) <==>
                    exists l :: Met(env, w, t, r.body, l) && e == Entry(l.bid, l.metric, l.limit, l.used))
    && (forall h :: h in r.hits && h.Over? <==>
                    exists l :: Met(env, w, t, r.body, l) && !l.admitted && h == Over(l.bid, l.metric))
  }

  lemma MetIff(env: Env, w: WState, t: nat, b: Body, l: Line)
    requires Has(w.store, t) && At(w.store, t).body.TaskStart?
    ensures l in LinesFor(env, w, t, b) <==> Met(env, w, t, b, l)
  {
    hide Concerns, MeetsLimit, UsedIn, InTask;
    if w.pack.Some? {
      EvaluatedIff(env, w.pack.value.budgets, At(w.store, t), UsedIn(env, InTask(w.store, t)), b, l);
    }
  }

  lemma MetIgnoresBudget(env: Env, w: WState, t: nat, b: Body, budget: BudgetKey, l: Line)
    requires Has(w.store, t) && At(w.store, t).body.TaskStart?
    ensures Met(env, w, t, WithBudget(b, budget), l) <==> Met(env, w, t, b, l)
  {
    hide Concerns, UsedIn, InTask, CountMatching;
  }

  lemma SealedIff(lines: seq<Line>, e: Entry)
    ensures e in Sealed(lines) <==> exists l :: l in lines && e == Entry(l.bid, l.metric, l.limit, l.used)
  {
    SealedLines(lines);
    if l :| l in lines && e == Entry(l.bid, l.metric, l.limit, l.used) {
      var i :| 0 <= i < |lines| && lines[i] == l;
      assert Sealed(lines)[i] == e;
    }
  }

  lemma SealsLines(env: Env, w: WState, t: nat, b: Body, r: Record)
    requires Has(w.store, t) && At(w.store, t).body.TaskStart? && (b.ToolCall? || b.Egress? || b.Inference?)
    requires r.body == WithBudget(b, BudgetObject(LinesFor(env, w, t, b)))
    requires forall h :: h in r.hits && h.Over? <==> h in Exceeded(LinesFor(env, w, t, b))
    ensures BudgetSealed(env, w, t, r)
  {
    var lines := LinesFor(env, w, t, b);
    assert SealedEntries(r.body) == Sealed(lines) && !BadEntries(r.body);
    forall l ensures l in lines <==> Met(env, w, t, r.body, l) {
      MetIff(env, w, t, b, l);
      MetIgnoresBudget(env, w, t, b, BudgetObject(lines), l);
    }
    hide Met, LinesFor, SealedEntries, BadEntries, WithBudget;
    forall e ensures e in Sealed(lines) <==>
                     exists l :: Met(env, w, t, r.body, l) && e == Entry(l.bid, l.metric, l.limit, l.used)
    {
      SealedIff(lines, e);
    }
    forall h ensures h in Exceeded(lines) <==>
                     exists l :: Met(env, w, t, r.body, l) && !l.admitted && h == Over(l.bid, l.metric)
    {
      ExceededIff(lines, h);
    }
    hide Sealed, Exceeded;
  }

  /** A call or egress sealed in a task carries exactly the limits it met and exactly the excesses, and one past a limit
      is blocked or claims a grant. */
  lemma {:induction false} ActBudgetSealed(env: Env, w: WState, ev: Event)
    requires MemoryIs(w) && ev.Act? && SealedBy(env, w, ev).Some? && !Stopped(w, ev)
    requires ev.place.Dec? && (ev.draft.body.ToolCall? || ev.draft.body.Egress?)
    ensures var (t, r) := (ev.place.n, SealedBy(env, w, ev).value);
            && Has(w.store, t) && At(w.store, t).body.TaskStart? && BudgetSealed(env, w, t, r)
            && ((exists h :: h in r.hits && h.Over?) ==>
                  r.decision == Block || (r.body.ToolCall? && r.body.confirmation == Granted))
  {
    hide ActDraft, DraftOf, LinesFor, BudgetStamp, BudgetSealed;
    SealedIs(env, w, ev);
    ActIs(env, w, ev);
    ActGuarded(env, w, ev);
    var p, r := Prepared(w, ev), SealedBy(env, w, ev).value;
    assert r.body == BudgetStamp(env, w, ev.place.n, p).r.body && r.hits == BudgetStamp(env, w, ev.place.n, p).r.hits;
    StampFacts(env, w, ev.place.n, p);
    SealsLines(env, w, ev.place.n, p.body, r);
    StampOnlyBudget(p.body, BudgetObject(LinesFor(env, w, ev.place.n, p.body)));
  }

  // ---- POST /v1/chat/completions ----

  /** The task an inference lands in: the caller's own while it is open, and none once it ended. */
  ghost predicate InferPlaced(w: WState, ev: Event)
    requires ev.Infer?
  {
    ev.place.Dec? && Has(w.store, ev.place.n) && !TaskEnded(w.store, ev.place.n)
  }

  /** `settled` seals whatever was placed in no task or in a task of the caller's own session, ended or not. */
  lemma {:induction false} InferSealsIff(env: Env, w: WState, ev: Event)
    requires MemoryIs(w) && ev.Infer?
    ensures SealedBy(env, w, ev).Some? <==>
            ev.place.Blank? || (ev.place.Dec? && ev.caller.Some? && OwnTask(w.store, ev.place.n, ev.caller.value))
  {
    if ev.place.Dec? && ev.caller.Some? {
      TaskOfSessionIff(w.store, ev.place.n, ev.caller.value);
    }
    hide AgentsOf, ApprovalsOf, Ended, OwnTask, Priced, LinesFor, Exceeded, RuleHits, Rules;
    NotLoaded(w, ev);
    if InferDraft(env, w, ev).Sealing? {
      InferFormed(env, w, ev);
    }
    hide TaskOfSession, BudgetInference, Stamped;
  }

  /** record.py refuses no inference. */
  lemma InferFormed(env: Env, w: WState, ev: Event)
    requires MemoryIs(w) && ev.Infer? && InferDraft(env, w, ev).Sealing?
    ensures Stamped(w, InferDraft(env, w, ev).r).Some?
  {
    hide AgentsOf, ApprovalsOf, Ended, Priced, LinesFor, Exceeded, RuleHits, Rules, BudgetObject;
  }

  lemma {:induction false} RulesAt(ids: seq<string>)
    ensures |Rules(ids)| == |ids| && forall i | 0 <= i < |ids| :: Rules(ids)[i] == Rule(ids[i])
  {
    if ids != [] {
      RulesAt(ids[1..]);
    }
  }

  /** What is sealed whatever became of the task: the call's own columns, every rule hit, and the identity of its place. */
  lemma {:induction false} InferRecord(env: Env, w: WState, ev: Event)
    requires MemoryIs(w) && ev.Infer? && SealedBy(env, w, ev).Some?
    ensures var r := SealedBy(env, w, ev).value;
            && r.ts == ev.ts && r.inputHash == ev.inputHash && r.digest == ev.digest && r.parent == Blank
            && r.body.Inference? && r.body.uses == ev.uses
            && (if InferPlaced(w, ev) then
                  r.task == ev.place && r.agent == At(w.store, ev.place.n).agent && r.principal == At(w.store, ev.place.n).principal
                else
                  && r.task == Blank && r.principal == ev.principal
                  && (ev.caller.Some? ==> r.agent == ev.caller.value.agent) && (ev.caller.None? ==> r.agent == ""))
            && (forall i | 0 <= i < |ev.rules| :: Rule(ev.rules[i]) in r.hits)
            && (forall h | h in r.hits && h.Rule? :: h.id in ev.rules || h in ev.early)
  {
    InferSealsIff(env, w, ev);
    if ev.place.Dec? {
      EndedIff(w.store, ev.place.n);
    }
    hide AgentsOf, ApprovalsOf, Ended, TaskEnded, OwnTask, LinesFor, Exceeded, RuleHits, Rules, PriceOf;
    InferHits(env, w, ev);
  }

  lemma InferHits(env: Env, w: WState, ev: Event)
    requires MemoryIs(w) && ev.Infer? && SealedBy(env, w, ev).Some?
    ensures var hits := SealedBy(env, w, ev).value.hits;
            && (forall i | 0 <= i < |ev.rules| :: Rule(ev.rules[i]) in hits)
            && (forall h | h in hits && h.Rule? :: h.id in ev.rules || h in ev.early)
  {
    RulesAt(ev.rules);
    SealedHits(env, w, ev);
    hide SealedBy, Rules, MemoryIs;
    var sent := Rules(ev.rules) + ev.early;
    forall h ensures h in RuleHits(sent) <==> h in sent && !h.Over? {
      OverHitsIff(sent, h);
    }
    assert forall i | 0 <= i < |ev.rules| :: Rule(ev.rules[i]) == sent[i];
  }

  /** The hits sent, or of those the rule hits and then excesses. */
  lemma SealedHits(env: Env, w: WState, ev: Event)
    requires MemoryIs(w) && ev.Infer? && SealedBy(env, w, ev).Some?
    ensures var (hits, sent) := (SealedBy(env, w, ev).value.hits, Rules(ev.rules) + ev.early);
            hits == sent || exists lines :: hits == RuleHits(sent) + Exceeded(lines) && forall h | h in Exceeded(lines) :: h.Over?
  {
    hide AgentsOf, ApprovalsOf, Ended, OwnTask, LinesFor, Exceeded, RuleHits, Rules, Priced;
    if ev.place.Dec? && Has(w.store, ev.place.n) && At(w.store, ev.place.n).body.TaskStart? {
      var lines := LinesFor(env, w, ev.place.n, InferBody(env, w, ev));
      forall h | h in Exceeded(lines) ensures h.Over? {
        ExceededIff(lines, h);
      }
      var (hits, sent) := (SealedBy(env, w, ev).value.hits, Rules(ev.rules) + ev.early);
      assert hits == sent || hits == RuleHits(sent) + Exceeded(lines);
    }
  }

  /** The price of a forwarded call is that of the first entry that matches, on the usage it reported; a call with no
      entry, or not forwarded, has neither price nor cost. */
  lemma {:induction false} InferCosted(env: Env, w: WState, ev: Event)
    requires MemoryIs(w) && ev.Infer? && SealedBy(env, w, ev).Some?
    ensures var b := SealedBy(env, w, ev).value.body;
            && b.Inference?
            && (ev.forwarded && w.pack.Some? ==>
                  forall i | PricedBy(env, w.pack.value.pricing, ev.digest, i) ::
                    && PricedAs(b, w.pack.value.pricing[i])
                    && b.usage == if ev.usage.Some? && ev.usage.value.input >= 0 && ev.usage.value.output >= 0 then ev.usage
                                  else None)
            && (!ev.forwarded || w.pack.None?
                || (forall i | 0 <= i < |w.pack.value.pricing| :: !env.glob(ev.digest, w.pack.value.pricing[i].model)) ==>
                  Unpriced(b) && b.usage.None?)
  {
    if w.pack.Some? {
      PriceIsFirst(env, w.pack.value.pricing, ev.digest);
    }
    hide PriceOf, PricedBy;
    SealedPrice(env, w, ev);
    hide SealedBy, Priced;
    if ev.forwarded {
      PricedIs(env, w.pack, ev.digest, ev.uses, ev.usage);
    }
  }

  lemma SealedPrice(env: Env, w: WState, ev: Event)
    requires MemoryIs(w) && ev.Infer? && SealedBy(env, w, ev).Some?
    ensures var (b, b') := (SealedBy(env, w, ev).value.body, InferBody(env, w, ev));
            b.Inference? && b'.Inference? && b.usage == b'.usage && b.cost == b'.cost && b.priceRule == b'.priceRule
  {
    hide AgentsOf, ApprovalsOf, Ended, TaskOfSession, Priced, LinesFor, Exceeded, RuleHits, Rules;
  }

  lemma PricedIs(env: Env, pack: Option<Pack>, digest: string, uses: seq<ToolUse>, usage: Option<Usage>)
    ensures var b := Priced(env, pack, digest, uses, usage);
            var price := if pack.Some? then PriceOf(env, pack.value.pricing, digest) else None;
            if price.None? then Unpriced(b) && b.usage.None?
            else && PricedAs(b, price.value)
                 && b.usage == if usage.Some? && usage.value.input >= 0 && usage.value.output >= 0 then usage else None
  {
    hide PriceOf;
  }

  /** In an open task an inference the halt did not stop carries exactly the limits it met and exactly the excesses,
      and is sealed blocked when there is one; any other keeps its own decision and carries no budget. */
  lemma {:induction false} InferBudgetSealed(env: Env, w: WState, ev: Event)
    requires MemoryIs(w) && ev.Infer? && SealedBy(env, w, ev).Some?
    ensures var r := SealedBy(env, w, ev).value;
            if InferPlaced(w, ev) && "halted" !in ev.rules then
              && At(w.store, ev.place.n).body.TaskStart? && BudgetSealed(env, w, ev.place.n, r)
              && (r.decision, r.mode)
                 == if exists h <- r.hits :: h.Over? then (Block, Enforce) else (ev.decision, ev.mode)
            else
              && BudgetOf(r.body).NoBudget? && (r.decision, r.mode) == (ev.decision, ev.mode)
              && (forall h :: h in r.hits <==> (h.Rule? && h.id in ev.rules) || h in ev.early)
  {
    InferSealsIff(env, w, ev);
    if ev.place.Dec? {
      EndedIff(w.store, ev.place.n);
    }
    if InferPlaced(w, ev) && "halted" !in ev.rules {
      InferStamped(env, w, ev);
    } else {
      RulesAt(ev.rules);
      hide AgentsOf, ApprovalsOf, Ended, TaskEnded, OwnTask, LinesFor, Exceeded, RuleHits, Rules, Priced, BudgetSealed;
      InferBodyPlain(env, w, ev);
    }
  }

  lemma InferStamped(env: Env, w: WState, ev: Event)
    requires MemoryIs(w) && ev.Infer? && SealedBy(env, w, ev).Some? && InferPlaced(w, ev) && "halted" !in ev.rules
    requires !Ended(w.store, ev.place.n) && At(w.store, ev.place.n).body.TaskStart?
    ensures var r := SealedBy(env, w, ev).value;
            && BudgetSealed(env, w, ev.place.n, r)
            && (r.decision, r.mode) == if exists h <- r.hits :: h.Over? then (Block, Enforce) else (ev.decision, ev.mode)
  {
    var t, b := ev.place.n, InferBody(env, w, ev);
    var r, lines := SealedBy(env, w, ev).value, LinesFor(env, w, t, b);
    hide AgentsOf, ApprovalsOf, Ended, TaskEnded, LinesFor, Exceeded, RuleHits, Rules, BudgetSealed, Priced;
    InferBodyPlain(env, w, ev);
    assert r.body == WithBudget(b, BudgetObject(lines)) && r.hits == RuleHits(Rules(ev.rules) + ev.early) + Exceeded(lines);
    assert (r.decision, r.mode) == if Exceeded(lines) == [] then (ev.decision, ev.mode) else (Block, Enforce);
    hide SealedBy, InferBody;
    forall h ensures h in r.hits && h.Over? <==> h in Exceeded(lines) {
      OverHitsIff(Rules(ev.rules) + ev.early, h);
      ExceededIff(lines, h);
    }
    SealsLines(env, w, t, b, r);
    if Exceeded(lines) != [] {
      assert Exceeded(lines)[0] in Exceeded(lines);
    }
  }
}
