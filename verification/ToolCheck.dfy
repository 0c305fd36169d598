/** The ordering of the guard's tool checks (guard/serve.py `check_tools`, `upstream_note`): checks run concurrently, may
    finish in any order or fail, and the wrapped server may announce a new list while any number are under way. */
module ToolCheck {
  import opened Records

  /** A check is named by the number it took when it began; `found` is what it measured. */
  datatype Event<T> = Begin | Succeed(g: nat, found: T) | Fail(g: nat) | ListChanged

  /** `seen` stands for the fields an applied check overwrites together (seen, removed, changed, snap). */
  datatype Order<T> = Order(gen: nat, applied: nat, floor: nat, unchecked: bool, seen: Option<T>)

  function Start<T>(): Order<T> { Order(0, 0, 0, true, None) }

  function Step<T>(s: Order<T>, e: Event<T>): Order<T> {
    match e
    case Begin => s.(gen := s.gen + 1)
    case ListChanged => s.(gen := s.gen + 1, floor := s.gen + 1, unchecked := true)
    case Fail(g) => if g > s.applied then s.(applied := g, unchecked := true) else s
    case Succeed(g, found) =>
      if g > s.applied then s.(applied := g, unchecked := s.unchecked && g <= s.floor, seen := Some(found)) else s
  }

  function After<T>(tr: seq<Event<T>>): Order<T> {
    if tr == [] then Start() else Step(After(tr[..|tr| - 1]), tr[|tr| - 1])
  }

  class Guard<T> {
    var gen: nat
    var applied: nat
    var floor: nat
    var unchecked: bool
    var seen: Option<T>

    function View(): Order<T>
      reads this
    {
      Order(gen, applied, floor, unchecked, seen)
    }

    constructor ()
      ensures View() == Start()
    {
      gen, applied, floor, unchecked, seen := 0, 0, 0, true, None;
    }

    /** The head of `check_tools`, before it awaits the server. */
    method BeginCheck() returns (g: nat)
      modifies this`gen
      ensures View() == Step(old(View()), Begin) && g == gen
    {
      gen := gen + 1;
      g := gen;
    }

    /** The locked end of `check_tools`. */
    method Finish(g: nat, found: Option<T>)
      modifies this
      ensures View() == Step(old(View()), if found.Some? then Succeed(g, found.value) else Event<T>.Fail(g))
    {
      if g > applied {
        applied := g;
        if found.None? {
          unchecked := true;
        } else {
          unchecked := unchecked && g <= floor;
          seen := found;
        }
      }
    }

    /** The locked head of `upstream_note` on notifications/tools/list_changed. */
    method NoteListChanged()
      modifies this`gen, this`floor, this`unchecked
      ensures View() == Step(old(View()), ListChanged)
    {
      gen := gen + 1;
      floor, unchecked := gen, true;
    }
  }

  // ---- which runs can happen ----

  predicate Finishes<T>(e: Event<T>) { e.Succeed? || e.Fail? }

  /** The event that takes the number g: a check's begin, or a list_changed. */
  ghost predicate Takes<T>(tr: seq<Event<T>>, i: int, g: int) {
    0 <= i < |tr| && (tr[i].Begin? || tr[i].ListChanged?) && After(tr[..i]).gen + 1 == g
  }

  /** A check finishes once, after it began. */
  ghost predicate Legal<T>(tr: seq<Event<T>>) {
    && (forall e | 0 <= e < |tr| && Finishes(tr[e]) ::
          exists b :: 0 <= b < e && tr[b].Begin? && Takes(tr, b, tr[e].g))
    && (forall d, e | 0 <= d < e < |tr| && Finishes(tr[d]) && Finishes(tr[e]) :: tr[d].g != tr[e].g)
  }

  lemma LegalFront<T>(tr: seq<Event<T>>)
    requires Legal(tr) && tr != []
    ensures Legal(tr[..|tr| - 1])
  {
    var front := tr[..|tr| - 1];
    forall e | 0 <= e < |front| && Finishes(front[e])
      ensures exists b :: 0 <= b < e && front[b].Begin? && Takes(front, b, front[e].g)
    {
      var b :| 0 <= b < e && tr[b].Begin? && Takes(tr, b, tr[e].g);
      assert front[..b] == tr[..b];
      assert Takes(front, b, front[e].g);
    }
  }

  // ---- the invariant ----

  /** A later event takes a larger number. */
  lemma {:induction false} NumbersGrow<T>(tr: seq<Event<T>>, i: int, j: int)
    requires 0 <= i <= j <= |tr|
    ensures After(tr[..i]).gen <= After(tr[..j]).gen
    ensures i < j && (tr[i].Begin? || tr[i].ListChanged?) ==> After(tr[..i]).gen < After(tr[..j]).gen
    decreases j
  {
    if i < j {
      assert tr[..j][..j - 1] == tr[..j - 1];
      NumbersGrow(tr, i, j - 1);
    }
  }

  ghost predicate AppliedIsNewest<T>(tr: seq<Event<T>>) {
    var s := After(tr);
    && (forall e | 0 <= e < |tr| && Finishes(tr[e]) :: tr[e].g <= s.applied)
    && (s.applied > 0 ==> exists e :: 0 <= e < |tr| && Finishes(tr[e]) && tr[e].g == s.applied
                                      && (tr[e].Succeed? ==> s.seen == Some(tr[e].found)))
  }

  ghost predicate FloorIsLast<T>(tr: seq<Event<T>>) {
    var s := After(tr);
    && s.floor <= s.gen
    && (forall i, g | Takes(tr, i, g) && tr[i].ListChanged? :: g <= s.floor)
    && (s.floor > 0 ==> exists i :: 0 <= i < |tr| && tr[i].ListChanged? && Takes(tr, i, s.floor))
  }

  ghost predicate Failed<T>(tr: seq<Event<T>>, g: nat) {
    exists e :: 0 <= e < |tr| && tr[e] == Fail(g)
  }

  /** Unchecked means: nothing applied since the last list_changed was a check begun after it, or the newest check
      applied failed. */
  ghost predicate UncheckedIff<T>(tr: seq<Event<T>>) {
    var s := After(tr);
    s.applied <= s.gen && (s.unchecked <==> s.applied <= s.floor || Failed(tr, s.applied))
  }

  lemma {:induction false} Newest<T>(tr: seq<Event<T>>)
    requires Legal(tr)
    ensures AppliedIsNewest(tr) && FloorIsLast(tr)
  {
    if tr != [] {
      var front, last := tr[..|tr| - 1], tr[|tr| - 1];
      LegalFront(tr);
      Newest(front);
      AppliedStep(tr);
      FloorStep(tr);
    }
  }

  lemma AppliedStep<T>(tr: seq<Event<T>>)
    requires tr != [] && AppliedIsNewest(tr[..|tr| - 1])
    ensures AppliedIsNewest(tr)
  {
    var front, last := tr[..|tr| - 1], tr[|tr| - 1];
    var (s, s') := (After(front), After(tr));
    assert s' == Step(s, last);
    if Finishes(last) && last.g > s.applied {
      assert tr[|tr| - 1].g == s'.applied;
    } else if s.applied > 0 {
      var e :| 0 <= e < |front| && Finishes(front[e]) && front[e].g == s.applied
               && (front[e].Succeed? ==> s.seen == Some(front[e].found));
      assert tr[e] == front[e] && tr[e].g == s'.applied;
    }
  }

  lemma FloorStep<T>(tr: seq<Event<T>>)
    requires tr != [] && FloorIsLast(tr[..|tr| - 1])
    ensures FloorIsLast(tr)
  {
    var n := |tr| - 1;
    var front, last := tr[..n], tr[n];
    var (s, s') := (After(front), After(tr));
    assert s' == Step(s, last);
    forall i, g | Takes(tr, i, g) && tr[i].ListChanged? ensures g <= s'.floor {
      if i < n {
        assert front[..i] == tr[..i];
        assert Takes(front, i, g);
      }
    }
    if last.ListChanged? {
      assert Takes(tr, n, s'.floor);
    } else if s.floor > 0 {
      var i :| 0 <= i < |front| && front[i].ListChanged? && Takes(front, i, s.floor);
      assert front[..i] == tr[..i];
      assert Takes(tr, i, s'.floor);
    }
  }

  lemma {:induction false} Unchecked<T>(tr: seq<Event<T>>)
    requires Legal(tr)
    ensures UncheckedIff(tr)
  {
    if tr == [] {
      return;
    }
    var n := |tr| - 1;
    var front, last := tr[..n], tr[n];
    AfterLast(tr);
    hide After;
    LegalFront(tr);
    Unchecked(front);
    Newest(front);
    var (s, s') := (After(front), After(tr));
    FailedLonger(tr, s.applied);
    FailedLonger(tr, s'.applied);
    if Finishes(last) {
      var b :| 0 <= b < n && tr[b].Begin? && Takes(tr, b, last.g);
      NumbersGrow(tr, b, n);
      if last.g > s.applied {
        assert !Failed(front, last.g);
      }
    }
  }

  lemma AfterLast<T>(tr: seq<Event<T>>)
    requires tr != []
    ensures After(tr) == Step(After(tr[..|tr| - 1]), tr[|tr| - 1])
  {
  }

  lemma FailedLonger<T>(tr: seq<Event<T>>, g: nat)
    requires tr != []
    ensures Failed(tr, g) <==> Failed(tr[..|tr| - 1], g) || tr[|tr| - 1] == Fail(g)
  {
    var front := tr[..|tr| - 1];
    if Failed(front, g) {
      var e :| 0 <= e < |front| && front[e] == Fail(g);
      assert tr[e] == Fail(g);
    }
    if tr[|tr| - 1] == Fail(g) {
      assert Failed(tr, g);
    }
  }

  // ---- what the guard may rely on ----

  /** Check `e` is the newest that has finished, it succeeded, and it began (at `b`) after the last list_changed. */
  ghost predicate FreshCheck<T>(tr: seq<Event<T>>, b: int, e: int) {
    && 0 <= b < e < |tr| && tr[b].Begin? && tr[e].Succeed? && Takes(tr, b, tr[e].g)
    && (forall i | b < i < |tr| :: !tr[i].ListChanged?)
    && (forall d | 0 <= d < |tr| && Finishes(tr[d]) :: tr[d].g <= tr[e].g)
  }

  lemma CheckedIsFresh<T>(tr: seq<Event<T>>)
    requires Legal(tr) && !After(tr).unchecked
    ensures exists b, e :: FreshCheck(tr, b, e)
  {
    hide After;
    Newest(tr);
    Unchecked(tr);
    var s := After(tr);
    var e :| 0 <= e < |tr| && Finishes(tr[e]) && tr[e].g == s.applied;
    assert tr[e].Succeed? by { assert tr[e] == Fail(s.applied) ==> Failed(tr, s.applied); }
    var b :| 0 <= b < e && tr[b].Begin? && Takes(tr, b, tr[e].g);
    forall i | b < i < |tr| ensures !tr[i].ListChanged? {
      NumbersGrow(tr, b, i);
      assert tr[i].ListChanged? ==> Takes(tr, i, After(tr[..i]).gen + 1);
    }
    assert FreshCheck(tr, b, e);
  }

  lemma FreshIsApplied<T>(tr: seq<Event<T>>, b: int, e: int)
    requires Legal(tr) && FreshCheck(tr, b, e)
    ensures After(tr).applied == tr[e].g && After(tr).seen == Some(tr[e].found) && !Failed(tr, tr[e].g)
  {
    hide After;
    Newest(tr);
    var s := After(tr);
    assert Finishes(tr[e]) && tr[e].g <= s.applied && s.applied > 0;
    var d :| 0 <= d < |tr| && Finishes(tr[d]) && tr[d].g == s.applied
             && (tr[d].Succeed? ==> s.seen == Some(tr[d].found));
    assert d == e;
    forall f | 0 <= f < |tr| ensures tr[f] != Fail(tr[e].g) {
      assert f != e && tr[f].Fail? ==> tr[f].g != tr[e].g;
    }
  }

  lemma FreshIsChecked<T>(tr: seq<Event<T>>, b: int, e: int)
    requires Legal(tr) && FreshCheck(tr, b, e)
    ensures !After(tr).unchecked
  {
    hide After;
    Newest(tr);
    Unchecked(tr);
    FreshIsApplied(tr, b, e);
    var s := After(tr);
    if s.floor > 0 {
      var i :| 0 <= i < |tr| && tr[i].ListChanged? && Takes(tr, i, s.floor);
      NumbersGrow(tr, i, b);
    }
  }

  /** `unchecked` is false exactly when the newest finished check succeeded and began after the last list_changed. */
  lemma {:induction false} CheckedIff<T>(tr: seq<Event<T>>)
    requires Legal(tr)
    ensures !After(tr).unchecked <==> exists b, e :: FreshCheck(tr, b, e)
  {
    hide After, FreshCheck, Legal;
    if !After(tr).unchecked {
      CheckedIsFresh(tr);
    }
    if b, e :| FreshCheck(tr, b, e) {
      FreshIsChecked(tr, b, e);
    }
  }

  /** While calls are let through, what the guard enforces is the report of that check. */
  lemma {:induction false} SeenIsFresh<T>(tr: seq<Event<T>>)
    requires Legal(tr) && !After(tr).unchecked
    ensures exists b, e :: FreshCheck(tr, b, e) && After(tr).seen == Some(tr[e].found)
  {
    hide After, Legal;
    CheckedIsFresh(tr);
    var b, e :| FreshCheck(tr, b, e);
    FreshIsApplied(tr, b, e);
  }

  /** Over any run the check in force only gets newer, and the stored report changes only to a newer check's. */
  lemma {:induction false} AppliedGrows<T>(tr: seq<Event<T>>, i: nat, j: nat)
    requires i <= j <= |tr|
    ensures After(tr[..i]).applied <= After(tr[..j]).applied
    ensures After(tr[..i]).seen != After(tr[..j]).seen ==> After(tr[..i]).applied < After(tr[..j]).applied
    decreases j
  {
    if i < j {
      assert tr[..j][..j - 1] == tr[..j - 1];
      AppliedGrows(tr, i, j - 1);
    }
  }
}
