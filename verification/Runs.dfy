/** What every run of the ledger keeps, whatever the interleaving of its endpoints and the readings of its clock:
    the memory is the one a restart would rebuild, and every approval request gets at most one decision. */
module Runs {
  import opened Records
  import opened Checks
  import opened Store
  import opened Budgets
  import opened Writer

  /** Every event of the run is one its endpoint can issue in the state it meets. */
  ghost predicate ShapedRun(env: Env, evs: seq<Event>) {
    forall i | 0 <= i < |evs| :: Shaped(After(env, evs[..i]), evs[i])
  }

  lemma ShapedStep(env: Env, evs: seq<Event>)
    requires ShapedRun(env, evs) && evs != []
    ensures ShapedRun(env, evs[..|evs| - 1])
    ensures Shaped(After(env, evs[..|evs| - 1]), evs[|evs| - 1])
    ensures After(env, evs) == Step(env, After(env, evs[..|evs| - 1]), evs[|evs| - 1])
  {
    hide Step, Shaped;
    var front := evs[..|evs| - 1];
    forall i | 0 <= i < |front| ensures Shaped(After(env, front[..i]), front[i]) {
      assert front[..i] == evs[..i];
    }
  }

  // ---- a restart is invisible ----

  ghost predicate MemoryIs(w: WState) {
    && w.head == |w.store|
    && w.rulepackHash == RulepackOf(w.store)
    && w.agents == AgentsOf(w.store)
    && w.approvals == ApprovalsOf(w.store)
  }

  lemma LoadedMemory(w: WState, ev: Event)
    requires MemoryIs(w)
    ensures var w' := Loaded(w, ev);
            && w'.store == w.store && w'.head == w.head && w'.rulepackHash == w.rulepackHash
            && w'.agents == w.agents && w'.approvals == w.approvals
  {
  }

  /** The sealed record is the draft, numbered after the chain and under the hash in force. */
  lemma SealedIs(env: Env, w: WState, ev: Event)
    requires MemoryIs(w) && SealedBy(env, w, ev).Some?
    ensures DraftOf(env, w, ev).Sealing?
    ensures var (d, r) := (DraftOf(env, w, ev).r, SealedBy(env, w, ev).value);
            && r == d.(pos := |w.store| + 1, rulepack := r.rulepack)
            && r.rulepack == (if d.body.RulepackChange? then d.rulepack else w.rulepackHash)
            && WellFormed(r)
    ensures Step(env, w, ev) == Commit(Loaded(w, ev), SealedBy(env, w, ev).value)
  {
    hide DraftOf;
    LoadedMemory(w, ev);
  }

  lemma CommitRemembers(w: WState, r: Record)
    requires MemoryIs(w) && (!r.body.RulepackChange? ==> r.rulepack == w.rulepackHash)
    ensures MemoryIs(Commit(w, r))
  {
    assert (w.store + [r])[..|w.store|] == w.store;
  }

  lemma StepRemembers(env: Env, w: WState, ev: Event)
    requires MemoryIs(w)
    ensures MemoryIs(Step(env, w, ev))
    ensures Step(env, w, ev).store
            == if SealedBy(env, w, ev).Some? then w.store + [SealedBy(env, w, ev).value] else w.store
  {
    hide DraftOf;
    LoadedMemory(w, ev);
    if SealedBy(env, w, ev).Some? {
      SealedIs(env, w, ev);
      CommitRemembers(Loaded(w, ev), SealedBy(env, w, ev).value);
    }
  }

  /** After every run, restarting the node would change nothing it remembers. */
  lemma {:induction false} RestartInvisible(env: Env, evs: seq<Event>)
    ensures MemoryIs(After(env, evs))
    ensures Rebuilt(After(env, evs)) == After(env, evs)
  {
    hide Step;
    if evs != [] {
      RestartInvisible(env, evs[..|evs| - 1]);
      StepRemembers(env, After(env, evs[..|evs| - 1]), evs[|evs| - 1]);
    }
  }
}
