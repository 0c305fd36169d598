/** One requested tool_use authorizes one tool_call: over every run, the calls sealed under an inference never
    outnumber the tool_uses that asked for their arguments (sijill/agents.py:221-234). */
module ToolUseRuns {
  import opened Records
  import opened Checks
  import opened Store
  import opened Budgets
  import opened Writer
  import opened Runs
  import opened ChainFacts
  import opened ApprovalRuns

  /** How many of the calls carry these arguments. */
  function CallsFor(calls: seq<Record>, hash: string): nat {
    if calls == [] then 0
    else CallsFor(calls[..|calls| - 1], hash) + (if calls[|calls| - 1].inputHash == hash then 1 else 0)
  }

  /** The ids that calls with these arguments took. */
  function NamedFor(calls: seq<Record>, hash: string): set<string> {
    set r <- calls | NamesUse(r) && r.inputHash == hash :: r.body.toolUseId.value
  }

  /** The tool_uses that ask for these arguments. */
  function Asking(uses: seq<ToolUse>, hash: string): seq<ToolUse> { Fits(uses, hash, None) }

  /** Every id taken for these arguments is an id some tool_use with these arguments carries. */
  ghost predicate NamedAsked(calls: seq<Record>, uses: seq<ToolUse>, hash: string) {
    forall a | a in NamedFor(calls, hash) :: exists u :: u in Asking(uses, hash) && u.id == Some(a)
  }

  ghost predicate Conserved(calls: seq<Record>, uses: seq<ToolUse>, hash: string) {
    && CallsFor(calls, hash) == |NamedFor(calls, hash)| + Unnamed(calls, hash)
    && CallsFor(calls, hash) <= |Asking(uses, hash)|
    && NamedAsked(calls, uses, hash)
  }

  /** Each id of `taken` that some use carries costs at least one use that is not left untaken. */
  lemma {:induction false} TakenCost(us: seq<ToolUse>, ids: set<string>, taken: set<string>)
    requires ids <= taken
    requires forall a | a in ids :: exists u :: u in us && u.id == Some(a)
    ensures |ids| + |Untaken(us, taken)| <= |us|
  {
    if us == [] {
      assert ids == {};
    } else {
      var u, rest := us[0], us[1..];
      var fewer := if u.id.Some? then ids - {u.id.value} else ids;
      forall a | a in fewer ensures exists v :: v in rest && v.id == Some(a) {
        var v :| v in us && v.id == Some(a);
        assert v in rest;
      }
      TakenCost(rest, fewer, taken);
      if u.id.Some? && u.id.value in ids {
        assert ids == fewer + {u.id.value};
      }
    }
  }

  /** Narrowing to one id leaves no more untaken uses. */
  lemma {:induction false} NarrowUntaken(uses: seq<ToolUse>, hash: string, id: Option<string>, taken: set<string>)
    ensures |Untaken(Fits(uses, hash, id), taken)| <= |Untaken(Fits(uses, hash, None), taken)|
  {
    if uses != [] {
      var u, rest := uses[0], uses[1..];
      NarrowUntaken(rest, hash, id, taken);
      if u.argsHash == hash {
        assert Fits(uses, hash, None) == [u] + Fits(rest, hash, None);
        assert ([u] + Fits(rest, hash, None))[1..] == Fits(rest, hash, None);
        if id.None? || u.id == id {
          assert Fits(uses, hash, id) == [u] + Fits(rest, hash, id);
          assert ([u] + Fits(rest, hash, id))[1..] == Fits(rest, hash, id);
        } else {
          assert Fits(uses, hash, id) == Fits(rest, hash, id);
        }
      } else {
        assert Fits(uses, hash, id) == Fits(rest, hash, id) && Fits(uses, hash, None) == Fits(rest, hash, None);
      }
    }
  }

  /** When every fitting use carries a taken id, none is left. */
  lemma {:induction false} AllTaken(us: seq<ToolUse>, a: string, taken: set<string>)
    requires a in taken && forall u | u in us :: u.id == Some(a)
    ensures Untaken(us, taken) == []
  {
    if us != [] {
      AllTaken(us[1..], a, taken);
    }
  }

  lemma {:induction false} FitsCarry(uses: seq<ToolUse>, hash: string, id: Option<string>)
    ensures forall u | u in Fits(uses, hash, id) :: u in Asking(uses, hash) && (id.Some? ==> u.id == id)
  {
    if uses != [] {
      FitsCarry(uses[1..], hash, id);
    }
  }

  lemma NamedWithin(calls: seq<Record>, hash: string)
    ensures NamedFor(calls, hash) <= TakenIds(calls)
  {
  }

  lemma AppendCall(calls: seq<Record>, r: Record, hash: string)
    requires r.body.ToolCall?
    ensures CallsFor(calls + [r], hash) == CallsFor(calls, hash) + One(r.inputHash == hash)
    ensures Unnamed(calls + [r], hash) == Unnamed(calls, hash) + One(!NamesUse(r) && r.inputHash == hash)
    ensures NamedFor(calls + [r], hash)
            == NamedFor(calls, hash) + (if NamesUse(r) && r.inputHash == hash then {r.body.toolUseId.value} else {})
  {
    assert (calls + [r])[..|calls|] == calls;
    assert forall x :: x in calls + [r] <==> x in calls || x == r;
  }

  /** A call the guard lets through still has a use of its own. */
  lemma CallConserves(calls: seq<Record>, uses: seq<ToolUse>, r: Record, hash: string)
    requires r.body.ToolCall? && Conserved(calls, uses, hash)
    requires Fits(uses, r.inputHash, r.body.toolUseId) != []
    requires |Untaken(Fits(uses, r.inputHash, r.body.toolUseId), TakenIds(calls))| > Unnamed(calls, r.inputHash)
    ensures Conserved(calls + [r], uses, hash)
  {
    AppendCall(calls, r, hash);
    if r.inputHash == hash {
      var id, taken := r.body.toolUseId, TakenIds(calls);
      NamedWithin(calls, hash);
      TakenCost(Asking(uses, hash), NamedFor(calls, hash), taken);
      NarrowUntaken(uses, hash, id, taken);
      FitsCarry(uses, hash, id);
      if NamesUse(r) {
        var a, fits := id.value, Fits(uses, hash, id);
        if a in taken {
          AllTaken(fits, a, taken);
        }
        assert fits[0] in Asking(uses, hash) && fits[0].id == Some(a);
      }
    }
  }

  // ---- the chain ----

  /** Every sealed call with a parent names an earlier inference. */
  ghost predicate CallsParented(chain: seq<Record>) {
    forall n | Has(chain, n) && At(chain, n).body.ToolCall? && At(chain, n).parent.Dec? ::
      && At(chain, n).parent.n < n && Has(chain, At(chain, n).parent.n)
      && At(chain, At(chain, n).parent.n).body.Inference?
  }

  ghost predicate AllConserved(chain: seq<Record>) {
    forall p, hash | Has(chain, p) && At(chain, p).body.Inference? ::
      Conserved(Calls(chain, p), At(chain, p).body.uses, hash)
  }

  lemma CallsExtended(chain: seq<Record>, r: Record, p: int)
    ensures Calls(chain + [r], p) == if r.body.ToolCall? && Names(r.parent, p) then Calls(chain, p) + [r]
                                     else Calls(chain, p)
  {
    assert (chain + [r])[..|chain|] == chain;
  }

  lemma {:induction false} NoCallsYet(chain: seq<Record>, p: int)
    requires CallsParented(chain) && p > |chain|
    ensures Calls(chain, p) == []
  {
    if chain != [] {
      var front, r := chain[..|chain| - 1], chain[|chain| - 1];
      assert front + [r] == chain && r == At(chain, |chain|);
      forall n | Has(front, n) && At(front, n).body.ToolCall? && At(front, n).parent.Dec?
        ensures && At(front, n).parent.n < n && Has(front, At(front, n).parent.n)
                && At(front, At(front, n).parent.n).body.Inference?
      {
        assert At(front, n) == At(chain, n);
      }
      NoCallsYet(front, p);
      CallsExtended(front, r, p);
    }
  }

  lemma NewInference(uses: seq<ToolUse>, hash: string)
    ensures Conserved([], uses, hash)
  {
  }

  lemma CommitConserves(chain: seq<Record>, r: Record)
    requires CallsParented(chain) && AllConserved(chain)
    requires r.body.ToolCall? ==> ParentRefusal(chain, r) == 0
    ensures CallsParented(chain + [r]) && AllConserved(chain + [r])
  {
    AtExtended(chain, r);
    var chain' := chain + [r];
    forall p, hash | Has(chain', p) && At(chain', p).body.Inference?
      ensures Conserved(Calls(chain', p), At(chain', p).body.uses, hash)
    {
      CallsExtended(chain, r, p);
      if p > |chain| {
        NoCallsYet(chain, p);
        NewInference(At(chain', p).body.uses, hash);
      } else {
        assert Conserved(Calls(chain, p), At(chain, p).body.uses, hash);
        if r.body.ToolCall? && Names(r.parent, p) {
          CallConserves(Calls(chain, p), At(chain, p).body.uses, r, hash);
        }
      }
    }
  }

  /** Of the events modelled, only `/api/agent/seal` seals a tool_call, and only past `check_parent`. */
  lemma CallFromAct(env: Env, w: WState, ev: Event)
    requires DraftOf(env, w, ev).Sealing? && DraftOf(env, w, ev).r.body.ToolCall?
    ensures ParentRefusal(w.store, DraftOf(env, w, ev).r) == 0
  {
    hide ParentRefusal, DraftOf, ActDraft;
    CallIsAct(env, w, ev);
    ActParented(env, w, ev);
  }

  lemma CallIsAct(env: Env, w: WState, ev: Event)
    requires DraftOf(env, w, ev).Sealing? && DraftOf(env, w, ev).r.body.ToolCall?
    ensures ev.Act? && DraftOf(env, w, ev) == ActDraft(env, w, ev)
  {
    hide ActDraft;
  }

  lemma ActParented(env: Env, w: WState, ev: Event)
    requires ev.Act? && ActDraft(env, w, ev).Sealing? && ActDraft(env, w, ev).r.body.ToolCall?
    ensures ParentRefusal(w.store, ActDraft(env, w, ev).r) == 0
  {
  }

  lemma {:induction false} RunConserves(env: Env, evs: seq<Event>)
    ensures CallsParented(After(env, evs).store) && AllConserved(After(env, evs).store)
  {
    hide Step, DraftOf, ParentRefusal;
    if evs != [] {
      var w, ev := After(env, evs[..|evs| - 1]), evs[|evs| - 1];
      RunConserves(env, evs[..|evs| - 1]);
      RestartInvisible(env, evs[..|evs| - 1]);
      StepRemembers(env, w, ev);
      if SealedBy(env, w, ev).Some? {
        SealedIs(env, w, ev);
        var d, r := DraftOf(env, w, ev).r, SealedBy(env, w, ev).value;
        if r.body.ToolCall? {
          CallFromAct(env, w, ev);
          ParentUnnumbered(w.store, d, r.pos, r.rulepack);
        }
        CommitConserves(w.store, r);
      }
    }
  }

  lemma ParentUnnumbered(chain: seq<Record>, d: Record, pos: nat, hash: string)
    ensures ParentRefusal(chain, d.(pos := pos, rulepack := hash)) == ParentRefusal(chain, d)
  {
  }

  // ---- what is counted, by index ----

  /** A sealed tool_call of the parent with these arguments. */
  predicate CallWith(r: Record, p: int, hash: string) { r.body.ToolCall? && r.parent.Dec? && r.parent.n == p && r.inputHash == hash }

  /** It names no tool_use. */
  predicate Anonymous(r: Record)
    requires r.body.ToolCall?
  {
    r.body.toolUseId == None || r.body.toolUseId == Some("")
  }

  function CallsWith(chain: seq<Record>, p: int, hash: string): set<int> {
    set i | 0 <= i < |chain| && CallWith(chain[i], p, hash)
  }

  function AnonymousCalls(chain: seq<Record>, p: int, hash: string): set<int> {
    set i | 0 <= i < |chain| && CallWith(chain[i], p, hash) && Anonymous(chain[i])
  }

  function UsesWith(uses: seq<ToolUse>, hash: string): set<int> {
    set i | 0 <= i < |uses| && uses[i].argsHash == hash
  }

  /** An earlier call of the parent took the id, with whatever arguments. */
  ghost predicate IdTaken(chain: seq<Record>, p: int, id: string) {
    exists i :: 0 <= i < |chain| && chain[i].body.ToolCall? && Names(chain[i].parent, p)
                && chain[i].body.toolUseId == Some(id) && id != ""
  }

  predicate MayServe(u: ToolUse, hash: string, id: Option<string>) { u.argsHash == hash && (id.Some? ==> u.id == id) }

  /** The tool_uses that ask for the call, under its id when it names one, and whose own id no call took. */
  function FreeUses(uses: seq<ToolUse>, hash: string, id: Option<string>, taken: set<string>): set<int> {
    set i | 0 <= i < |uses| && MayServe(uses[i], hash, id) && (uses[i].id.Some? ==> uses[i].id.value !in taken)
  }

  lemma {:induction false} CallsAre(chain: seq<Record>, p: int, hash: string)
    requires p >= 0
    ensures CallsFor(Calls(chain, p), hash) == |CallsWith(chain, p, hash)|
    ensures Unnamed(Calls(chain, p), hash) == |AnonymousCalls(chain, p, hash)|
    ensures forall id :: id in TakenIds(Calls(chain, p)) <==> IdTaken(chain, p, id)
  {
    if chain == [] {
      assert CallsWith(chain, p, hash) == {} && AnonymousCalls(chain, p, hash) == {};
    } else {
      var front, n := chain[..|chain| - 1], |chain| - 1;
      var r := chain[n];
      assert front + [r] == chain;
      CallsAre(front, p, hash);
      CallsExtended(front, r, p);
      if r.body.ToolCall? && Names(r.parent, p) {
        AppendCall(Calls(front, p), r, hash);
      }
      WithLast(front, r, p, hash);
      forall id ensures id in TakenIds(Calls(chain, p)) <==> IdTaken(chain, p, id) {
        TakenLast(front, r, p, id);
      }
    }
  }

  lemma WithLast(front: seq<Record>, r: Record, p: int, hash: string)
    ensures |CallsWith(front + [r], p, hash)| == |CallsWith(front, p, hash)| + (if CallWith(r, p, hash) then 1 else 0)
    ensures |AnonymousCalls(front + [r], p, hash)|
            == |AnonymousCalls(front, p, hash)| + (if CallWith(r, p, hash) && Anonymous(r) then 1 else 0)
  {
    hide CallWith, Anonymous;
    AnonymousLast(front, r, p, hash);
    hide AnonymousCalls;
    var n := |front|;
    assert CallsWith(front + [r], p, hash) == CallsWith(front, p, hash) + (if CallWith(r, p, hash) then {n} else {});
  }

  lemma AnonymousLast(front: seq<Record>, r: Record, p: int, hash: string)
    ensures |AnonymousCalls(front + [r], p, hash)|
            == |AnonymousCalls(front, p, hash)| + (if CallWith(r, p, hash) && Anonymous(r) then 1 else 0)
  {
    var n := |front|;
    var mine := CallWith(r, p, hash) && Anonymous(r);
    forall i ensures i in AnonymousCalls(front + [r], p, hash) <==> i in AnonymousCalls(front, p, hash) || (i == n && mine) {
    }
    assert AnonymousCalls(front + [r], p, hash) == AnonymousCalls(front, p, hash) + (if mine then {n} else {});
  }

  lemma TakenLast(front: seq<Record>, r: Record, p: int, id: string)
    requires p >= 0
    ensures IdTaken(front + [r], p, id) <==>
            || IdTaken(front, p, id)
            || (r.body.ToolCall? && Names(r.parent, p) && r.body.toolUseId == Some(id) && id != "")
    ensures id in TakenIds(Calls(front + [r], p)) <==>
            || id in TakenIds(Calls(front, p))
            || (r.body.ToolCall? && Names(r.parent, p) && r.body.toolUseId == Some(id) && id != "")
  {
    var chain := front + [r];
    CallsExtended(front, r, p);
    assert chain[|front|] == r;
    if IdTaken(front, p, id) {
      var i :| 0 <= i < |front| && front[i].body.ToolCall? && Names(front[i].parent, p)
               && front[i].body.toolUseId == Some(id) && id != "";
      assert chain[i] == front[i];
    }
    assert forall x :: x in Calls(front, p) + [r] <==> x in Calls(front, p) || x == r;
  }

  lemma {:induction false} UsesAre(uses: seq<ToolUse>, hash: string)
    ensures |Asking(uses, hash)| == |UsesWith(uses, hash)|
  {
    if uses == [] {
      assert UsesWith(uses, hash) == {};
    } else {
      var front, n := uses[..|uses| - 1], |uses| - 1;
      assert front + [uses[n]] == uses;
      UsesAre(front, hash);
      hide UsesWith, Fits;
      FitsAppend(front, uses[n], hash, None);
      UsesLast(front, uses[n], hash);
    }
  }

  lemma UsesLast(front: seq<ToolUse>, u: ToolUse, hash: string)
    ensures |UsesWith(front + [u], hash)| == |UsesWith(front, hash)| + (if u.argsHash == hash then 1 else 0)
  {
    var n := |front|;
    assert UsesWith(front + [u], hash) == UsesWith(front, hash) + (if u.argsHash == hash then {n} else {});
  }

  lemma {:induction false} FreeUsesAre(uses: seq<ToolUse>, hash: string, id: Option<string>, taken: set<string>)
    ensures |Untaken(Fits(uses, hash, id), taken)| == |FreeUses(uses, hash, id, taken)|
  {
    if uses == [] {
      assert FreeUses(uses, hash, id, taken) == {};
    } else {
      var front, n := uses[..|uses| - 1], |uses| - 1;
      var u := uses[n];
      assert front + [u] == uses;
      hide FreeUses;
      FreeUsesAre(front, hash, id, taken);
      FitsAppend(front, u, hash, id);
      hide Fits, Untaken, MayServe;
      if MayServe(u, hash, id) {
        UntakenAppend(Fits(front, hash, id), u, taken);
      } else {
        assert Fits(front, hash, id) + [] == Fits(front, hash, id);
      }
      FreeLast(front, u, hash, id, taken);
    }
  }

  lemma FreeLast(front: seq<ToolUse>, u: ToolUse, hash: string, id: Option<string>, taken: set<string>)
    ensures |FreeUses(front + [u], hash, id, taken)|
            == |FreeUses(front, hash, id, taken)|
               + (if MayServe(u, hash, id) && (u.id.Some? ==> u.id.value !in taken) then 1 else 0)
  {
    var n := |front|;
    var free := MayServe(u, hash, id) && (u.id.Some? ==> u.id.value !in taken);
    assert FreeUses(front + [u], hash, id, taken) == FreeUses(front, hash, id, taken) + (if free then {n} else {});
  }

  lemma {:induction false} FitsAppend(uses: seq<ToolUse>, u: ToolUse, hash: string, id: Option<string>)
    ensures Fits(uses + [u], hash, id) == Fits(uses, hash, id) + (if MayServe(u, hash, id) then [u] else [])
  {
    if uses != [] {
      assert (uses + [u])[1..] == uses[1..] + [u];
      FitsAppend(uses[1..], u, hash, id);
    }
  }

  lemma {:induction false} UntakenAppend(us: seq<ToolUse>, u: ToolUse, taken: set<string>)
    ensures Untaken(us + [u], taken) == Untaken(us, taken) + (if u.id.Some? && u.id.value in taken then [] else [u])
  {
    if us != [] {
      assert (us + [u])[1..] == us[1..] + [u];
      UntakenAppend(us[1..], u, taken);
    }
  }

  /** Over every run: for each inference and each args hash, the tool_calls sealed with that parent and hash never
      outnumber the inference's tool_uses with that hash, however ids repeat or are left out. */
  lemma {:induction false} ToolUsesConserved(env: Env, evs: seq<Event>, p: int, hash: string)
    requires Has(After(env, evs).store, p) && At(After(env, evs).store, p).body.Inference?
    ensures var chain := After(env, evs).store;
            |CallsWith(chain, p, hash)| <= |UsesWith(At(chain, p).body.uses, hash)|
  {
    RunConserves(env, evs);
    hide After;
    var chain := After(env, evs).store;
    assert Conserved(Calls(chain, p), At(chain, p).body.uses, hash);
    CallsAre(chain, p, hash);
    UsesAre(At(chain, p).body.uses, hash);
  }

  /** No two calls of an inference name the same tool_use. */
  ghost predicate IdsOnce(chain: seq<Record>) {
    forall i, j | 0 <= i < j < |chain| && NamesUse(chain[i]) && NamesUse(chain[j])
                  && chain[i].parent.Dec? && chain[i].parent == chain[j].parent ::
      chain[i].body.toolUseId != chain[j].body.toolUseId
  }

  /** The guard refuses a call under an id that was taken, whatever its arguments. */
  lemma FreshId(chain: seq<Record>, r: Record)
    requires r.parent.Dec? && NamesUse(r) && ParentRefusal(chain, r) == 0
    ensures !IdTaken(chain, r.parent.n, r.body.toolUseId.value)
  {
    var p, id := r.parent.n, r.body.toolUseId.value;
    CallsAre(chain, p, r.inputHash);
    if IdTaken(chain, p, id) {
      var fits := Fits(At(chain, p).body.uses, r.inputHash, r.body.toolUseId);
      FitsCarry(At(chain, p).body.uses, r.inputHash, r.body.toolUseId);
      AllTaken(fits, id, TakenIds(Calls(chain, p)));
    }
  }

  lemma IdsStep(chain: seq<Record>, r: Record)
    requires IdsOnce(chain) && (r.body.ToolCall? ==> ParentRefusal(chain, r) == 0)
    ensures IdsOnce(chain + [r])
  {
    hide ParentRefusal;
    if r.parent.Dec? && NamesUse(r) {
      FreshId(chain, r);
      assert forall i | 0 <= i < |chain| && NamesUse(chain[i]) && chain[i].parent == r.parent ::
          chain[i].body.toolUseId != r.body.toolUseId;
    }
  }

  /** Over every run a tool_use id serves at most one call: no two calls of an inference name it. */
  lemma {:induction false} RunIdsOnce(env: Env, evs: seq<Event>)
    ensures IdsOnce(After(env, evs).store)
  {
    hide Step, DraftOf, ParentRefusal, IdsOnce;
    if evs != [] {
      var w, ev := After(env, evs[..|evs| - 1]), evs[|evs| - 1];
      RunIdsOnce(env, evs[..|evs| - 1]);
      RestartInvisible(env, evs[..|evs| - 1]);
      StepRemembers(env, w, ev);
      if SealedBy(env, w, ev).Some? {
        SealedIs(env, w, ev);
        var d, r := DraftOf(env, w, ev).r, SealedBy(env, w, ev).value;
        if r.body.ToolCall? {
          CallFromAct(env, w, ev);
          ParentUnnumbered(w.store, d, r.pos, r.rulepack);
        }
        IdsStep(w.store, r);
      }
    } else {
      NoIds();
    }
  }

  lemma NoIds()
    ensures IdsOnce([])
  {
  }
}
