/** The trace tool's two walks over the records of a store, which a tampered store may make cyclic
    (verifier/sijill_trace.py `trace`): what led to a record, and what followed from it. */
module Trace {
  import opened Records

  /** What the walks read of a record: `ref` of its parent_seq column, and the integers in its context_seqs. */
  datatype Rec = Rec(parent: Option<nat>, contexts: seq<int>)

  /** The records by seq; `ids` is the order they were read in. */
  datatype Loaded = Loaded(ids: seq<int>, recs: map<int, Rec>)

  ghost predicate Valid(db: Loaded) {
    && (forall s :: s in db.ids <==> s in db.recs)
    && (forall i, j | 0 <= i < j < |db.ids| :: db.ids[i] != db.ids[j])
  }

  // ---- upward ----

  /** What a record points back to; a parent_seq of 0 is no parent. */
  function Causes(r: Rec): seq<int> {
    (if r.parent.Some? && r.parent.value != 0 then [r.parent.value] else []) + r.contexts
  }

  /** c is the record's parent, or among the results it saw. */
  predicate PointsAt(r: Rec, c: int) { (r.parent == Some(c) && c != 0) || c in r.contexts }

  lemma CausesIff(r: Rec, c: int)
    ensures c in Causes(r) <==> PointsAt(r, c)
  {
  }

  /** A walk over records that are present, each pointed at by the one before it. */
  ghost predicate Walk(db: Loaded, w: seq<int>) {
    && w != []
    && (forall i | 0 <= i < |w| :: w[i] in db.recs)
    && (forall i | 0 <= i < |w| - 1 :: PointsAt(db.recs[w[i]], w[i + 1]))
  }

  ghost predicate LedTo(db: Loaded, s: int, n: int) {
    exists w :: Walk(db, w) && w[0] == n && w[|w| - 1] == s
  }

  lemma LedToFurther(db: Loaded, n: int, s: int, c: int)
    requires LedTo(db, s, n) && c in db.recs && c in Causes(db.recs[s])
    ensures LedTo(db, c, n)
  {
    CausesIff(db.recs[s], c);
    var w :| Walk(db, w) && w[0] == n && w[|w| - 1] == s;
    var longer := w + [c];
    assert Walk(db, longer) && longer[|longer| - 1] == c;
  }

  /** A set that holds n and every present cause of its members holds every walk from n. */
  lemma {:induction false} ClosedHolds(db: Loaded, n: int, path: set<int>, w: seq<int>)
    requires n in path && forall s, c | s in path && s in db.recs && c in Causes(db.recs[s]) && c in db.recs :: c in path
    requires Walk(db, w) && w[0] == n
    ensures w[|w| - 1] in path
  {
    if |w| > 1 {
      var less := w[..|w| - 1];
      assert Walk(db, less);
      ClosedHolds(db, n, path, less);
      CausesIff(db.recs[less[|less| - 1]], w[|w| - 1]);
    }
  }

  /** What the walk still has to do: every present cause of a visited record is visited or waits. */
  ghost predicate Pending(db: Loaded, path: set<int>, todo: seq<int>) {
    forall s, c | s in path && s in db.recs && c in Causes(db.recs[s]) && c in db.recs :: c in path || c in todo
  }

  ghost predicate AllLedTo(db: Loaded, n: int, todo: seq<int>) {
    forall s | s in todo && s in db.recs :: LedTo(db, s, n)
  }

  lemma Visit(db: Loaded, n: int, path: set<int>, todo: seq<int>, s: int)
    requires Pending(db, path, todo + [s]) && AllLedTo(db, n, todo + [s])
    ensures s in path || s !in db.recs ==> Pending(db, path, todo)
    ensures s in db.recs ==> Pending(db, path + {s}, todo + Causes(db.recs[s]))
    ensures s in db.recs ==> LedTo(db, s, n) && AllLedTo(db, n, todo + Causes(db.recs[s]))
    ensures AllLedTo(db, n, todo)
  {
    hide LedTo, Causes;
    assert s in todo + [s];
    assert forall c :: c in todo + [s] <==> c in todo || c == s;
    if s in db.recs {
      forall c | c in Causes(db.recs[s]) && c in db.recs ensures LedTo(db, c, n) {
        LedToFurther(db, n, s, c);
      }
    }
  }

  method CausalChain(db: Loaded, n: int) returns (path: set<int>)
    requires n in db.recs
    ensures forall s :: s in path <==> LedTo(db, s, n)
  {
    hide LedTo, Causes;
    path := {};
    var todo := [n];
    assert AllLedTo(db, n, todo) by { Itself(db, n); }
    while todo != []
      invariant path <= db.recs.Keys && (n in path || n in todo)
      invariant (forall s | s in path :: LedTo(db, s, n)) && AllLedTo(db, n, todo)
      invariant Pending(db, path, todo)
      decreases db.recs.Keys - path, |todo|
    {
      var s := todo[|todo| - 1];
      assert todo == todo[..|todo| - 1] + [s];
      todo := todo[..|todo| - 1];
      Visit(db, n, path, todo, s);
      if s in path || s !in db.recs {
        continue;
      }
      path := path + {s};
      todo := todo + Causes(db.recs[s]);
    }
    forall s | LedTo(db, s, n) ensures s in path {
      HoldsAll(db, n, path, s);
    }
  }

  lemma Itself(db: Loaded, n: int)
    requires n in db.recs
    ensures LedTo(db, n, n)
  {
    assert Walk(db, [n]);
  }

  lemma HoldsAll(db: Loaded, n: int, path: set<int>, s: int)
    requires n in path && Pending(db, path, []) && LedTo(db, s, n)
    ensures s in path
  {
    var w :| Walk(db, w) && w[0] == n && w[|w| - 1] == s;
    ClosedHolds(db, n, path, w);
  }

  // ---- downward ----

  /** The k-th parent of s, when there is one. */
  function Ancestor(db: Loaded, s: int, k: nat): Option<int>
    decreases k
  {
    if k == 0 then Some(s)
    else if s in db.recs && db.recs[s].parent.Some? then Ancestor(db, db.recs[s].parent.value, k - 1)
    else None
  }

  /** n is the k-th parent of s, and no nearer one. */
  ghost predicate Descends(db: Loaded, n: int, s: int, k: nat) {
    Ancestor(db, s, k) == Some(n) && forall j: nat | j < k :: Ancestor(db, s, j) != Some(n)
  }

  function ChildrenOf(recs: map<int, Rec>, ids: seq<int>, p: int): (kids: seq<int>)
    ensures forall s :: s in kids <==> s in ids && s in recs && recs[s].parent == Some(p)
  {
    if ids == [] then []
    else
      var (rest, s) := (ChildrenOf(recs, ids[..|ids| - 1], p), ids[|ids| - 1]);
      if s in recs && recs[s].parent == Some(p) then rest + [s] else rest
  }

  ghost predicate Before(ids: seq<int>, a: int, b: int) {
    exists i, j :: 0 <= i < j < |ids| && ids[i] == a && ids[j] == b
  }

  ghost predicate InOrder(ids: seq<int>, kids: seq<int>) {
    forall a, b | 0 <= a < b < |kids| :: Before(ids, kids[a], kids[b])
  }

  lemma {:induction false} ChildrenInOrder(recs: map<int, Rec>, ids: seq<int>, p: int)
    ensures InOrder(ids, ChildrenOf(recs, ids, p))
  {
    if ids != [] {
      var front, s := ids[..|ids| - 1], ids[|ids| - 1];
      var fewer := ChildrenOf(recs, front, p);
      ChildrenInOrder(recs, front, p);
      assert front + [s] == ids;
      OrderGrows(front, s, fewer);
    }
  }

  lemma OrderGrows(ids: seq<int>, s: int, kids: seq<int>)
    requires InOrder(ids, kids) && forall a | 0 <= a < |kids| :: kids[a] in ids
    ensures InOrder(ids + [s], kids) && InOrder(ids + [s], kids + [s])
  {
    var longer := ids + [s];
    forall a, b | 0 <= a < b < |kids| ensures Before(longer, kids[a], kids[b]) {
      assert Before(ids, kids[a], kids[b]);
      var i, j :| 0 <= i < j < |ids| && ids[i] == kids[a] && ids[j] == kids[b];
      assert longer[i] == kids[a] && longer[j] == kids[b];
    }
    forall a | 0 <= a < |kids| ensures Before(longer, kids[a], s) {
      var i :| 0 <= i < |ids| && ids[i] == kids[a];
      assert longer[i] == kids[a] && longer[|ids|] == s;
    }
  }

  /** The `kids` index; records without a parent share the key None, which nothing looks up. */
  method Index(db: Loaded) returns (kids: map<Option<int>, seq<int>>)
    requires Valid(db)
    ensures forall p :: (if Some(p) in kids then kids[Some(p)] else []) == ChildrenOf(db.recs, db.ids, p)
  {
    hide ChildrenOf;
    kids := map[];
    var i := 0;
    assert Indexed(kids, db.recs, []) by { NoChildren(db.recs); }
    while i < |db.ids|
      invariant 0 <= i <= |db.ids| && Indexed(kids, db.recs, db.ids[..i])
    {
      var s := db.ids[i];
      assert db.ids[..i + 1] == db.ids[..i] + [s];
      var key: Option<int> := if db.recs[s].parent.Some? then Some(db.recs[s].parent.value) else None;
      IndexedOne(kids, db.recs, db.ids[..i], s, key);
      kids := kids[key := (if key in kids then kids[key] else []) + [s]];
      i := i + 1;
    }
    assert db.ids[..i] == db.ids;
  }

  ghost predicate Indexed(kids: map<Option<int>, seq<int>>, recs: map<int, Rec>, ids: seq<int>) {
    forall p :: (if Some(p) in kids then kids[Some(p)] else []) == ChildrenOf(recs, ids, p)
  }

  lemma NoChildren(recs: map<int, Rec>)
    ensures Indexed(map[], recs, [])
  {
  }

  lemma IndexedOne(kids: map<Option<int>, seq<int>>, recs: map<int, Rec>, ids: seq<int>, s: int, key: Option<int>)
    requires Indexed(kids, recs, ids) && s in recs
    requires key == if recs[s].parent.Some? then Some(recs[s].parent.value) else None
    ensures Indexed(kids[key := (if key in kids then kids[key] else []) + [s]], recs, ids + [s])
  {
    forall p ensures ChildrenOf(recs, ids + [s], p)
                     == if recs[s].parent == Some(p) then ChildrenOf(recs, ids, p) + [s] else ChildrenOf(recs, ids, p)
    {
      assert (ids + [s])[..|ids|] == ids;
    }
    hide ChildrenOf;
  }

  /** A record's parent one step nearer. */
  lemma ChildDescends(db: Loaded, n: int, p: int, s: int, k: nat)
    requires s in db.recs && db.recs[s].parent == Some(p) && s != n
    ensures Descends(db, n, s, k + 1) <==> Descends(db, n, p, k)
  {
    forall j: nat ensures Ancestor(db, s, j + 1) == Ancestor(db, p, j) {
    }
    if Descends(db, n, s, k + 1) {
      forall j: nat | j < k ensures Ancestor(db, p, j) != Some(n) {
        assert Ancestor(db, s, j + 1) != Some(n);
      }
    }
    if Descends(db, n, p, k) {
      forall j: nat | j < k + 1 ensures Ancestor(db, s, j) != Some(n) {
        assert j > 0 ==> Ancestor(db, p, j - 1) != Some(n);
      }
    }
  }

  /** A set that holds n and every child of its members holds every descendant. */
  lemma {:induction false} ClosedDescends(db: Loaded, n: int, seen: set<int>, s: int, k: nat)
    requires n in seen && forall c | c in db.recs && db.recs[c].parent.Some? && db.recs[c].parent.value in seen :: c in seen
    requires Descends(db, n, s, k)
    ensures s in seen
    decreases k
  {
    if k > 0 {
      assert Ancestor(db, s, 0) != Some(n);
      ChildDescends(db, n, db.recs[s].parent.value, s, k - 1);
      ClosedDescends(db, n, seen, db.recs[s].parent.value, k - 1);
    }
  }

  lemma DescendsOnce(db: Loaded, n: int, s: int, j: nat, k: nat)
    requires Descends(db, n, s, j) && Descends(db, n, s, k)
    ensures j == k
  {
  }

  /** The children found so far, each once, each at its own depth; `seen` is what they and n make up. */
  ghost predicate Found(db: Loaded, n: int, seen: set<int>, children: seq<(int, nat)>) {
    && (forall s :: s in seen <==> s == n || exists i :: 0 <= i < |children| && children[i].0 == s)
    && (forall i | 0 <= i < |children| :: Descends(db, n, children[i].0, children[i].1 + 1))
    && (forall i, j | 0 <= i < j < |children| :: children[i].0 != children[j].0 && children[i].1 <= children[j].1)
    && seen <= db.recs.Keys
  }

  /** The queue: records seen, at their distances, nearest first and no more than one step apart. */
  ghost predicate Queue(db: Loaded, n: int, seen: set<int>, q: seq<(int, nat)>, near: nat) {
    && (forall i | 0 <= i < |q| :: q[i].0 in seen && Descends(db, n, q[i].0, q[i].1) && near <= q[i].1 <= near + 1)
    && (forall i, j | 0 <= i < j < |q| :: q[i].1 <= q[j].1)
  }

  /** Every child of a record seen is seen, except of those that wait in the queue and of the one being expanded. */
  ghost predicate Expanded(db: Loaded, seen: set<int>, q: seq<(int, nat)>, busy: set<int>) {
    forall c | c in db.recs && db.recs[c].parent.Some? && db.recs[c].parent.value in seen ::
      || c in seen
      || db.recs[c].parent.value in busy
      || exists i :: 0 <= i < |q| && q[i].0 == db.recs[c].parent.value
  }

  lemma Discover(db: Loaded, n: int, seen: set<int>, children: seq<(int, nat)>, q: seq<(int, nat)>, p: int, s: int,
                 depth: nat)
    requires Found(db, n, seen, children) && Queue(db, n, seen, q, depth) && Expanded(db, seen, q, {p})
    requires Descends(db, n, p, depth) && s in db.recs && db.recs[s].parent == Some(p) && s !in seen
    requires forall i | 0 <= i < |children| :: children[i].1 <= depth
    ensures Found(db, n, seen + {s}, children + [(s, depth)])
    ensures Queue(db, n, seen + {s}, q + [(s, depth + 1)], depth) && Expanded(db, seen + {s}, q + [(s, depth + 1)], {p})
  {
    hide Descends;
    ChildDescends(db, n, p, s, depth);
    var (seen', children', q') := (seen + {s}, children + [(s, depth)], q + [(s, depth + 1)]);
    forall x ensures x in seen' <==> x == n || exists i :: 0 <= i < |children'| && children'[i].0 == x {
      if x in seen && x != n {
        var i :| 0 <= i < |children| && children[i].0 == x;
        assert children'[i].0 == x;
      }
      assert children'[|children|].0 == s;
    }
    ExpandedLonger(db, seen, q, p, s, depth);
  }

  lemma ExpandedLonger(db: Loaded, seen: set<int>, q: seq<(int, nat)>, p: int, s: int, depth: nat)
    requires Expanded(db, seen, q, {p})
    ensures Expanded(db, seen + {s}, q + [(s, depth + 1)], {p})
  {
    var q' := q + [(s, depth + 1)];
    forall c | c in db.recs && db.recs[c].parent.Some? && db.recs[c].parent.value in seen + {s}
      ensures c in seen + {s} || db.recs[c].parent.value in {p}
              || exists i :: 0 <= i < |q'| && q'[i].0 == db.recs[c].parent.value
    {
      assert q'[|q|].0 == s;
      if db.recs[c].parent.value in seen && exists i :: 0 <= i < |q| && q[i].0 == db.recs[c].parent.value {
        var i :| 0 <= i < |q| && q[i].0 == db.recs[c].parent.value;
        assert q'[i].0 == db.recs[c].parent.value;
      }
    }
  }

  lemma Dequeue(db: Loaded, n: int, seen: set<int>, q: seq<(int, nat)>, near: nat)
    requires q != [] && Queue(db, n, seen, q, near) && Expanded(db, seen, q, {})
    ensures Queue(db, n, seen, q[1..], q[0].1) && Expanded(db, seen, q[1..], {q[0].0})
    ensures Descends(db, n, q[0].0, q[0].1) && q[0].0 in seen && near <= q[0].1
  {
    hide Descends;
    var q' := q[1..];
    forall c | c in db.recs && db.recs[c].parent.Some? && db.recs[c].parent.value in seen && c !in seen
      ensures db.recs[c].parent.value in {q[0].0} || exists i :: 0 <= i < |q'| && q'[i].0 == db.recs[c].parent.value
    {
      var i :| 0 <= i < |q| && q[i].0 == db.recs[c].parent.value;
      assert i > 0 ==> q'[i - 1] == q[i];
    }
  }

  lemma Done(db: Loaded, seen: set<int>, q: seq<(int, nat)>, p: int)
    requires Expanded(db, seen, q, {p}) && forall c | c in db.recs && db.recs[c].parent == Some(p) :: c in seen
    ensures Expanded(db, seen, q, {})
  {
  }

  /** The k-th record of the search: n, then the descendants found. */
  function Nth(n: int, children: seq<(int, nat)>, k: nat): int
    requires k <= |children|
  {
    if k == 0 then n else children[k - 1].0
  }

  /** Breadth first: each child under its parent, the children of a record found sooner first, and those of one parent in
      the order they were read. */
  ghost predicate Ordered(db: Loaded, n: int, children: seq<(int, nat)>, from: seq<nat>) {
    && |from| == |children|
    && (forall i | 0 <= i < |from| :: from[i] <= i && children[i].0 in db.recs
                                    && db.recs[children[i].0].parent == Some(Nth(n, children, from[i])))
    && (forall i, j | 0 <= i < j < |from| ::
          from[i] < from[j] || (from[i] == from[j] && Before(db.ids, children[i].0, children[j].0)))
  }

  /** The queue is the part of the search from k on. */
  ghost predicate Waits(n: int, children: seq<(int, nat)>, q: seq<(int, nat)>, k: nat) {
    k + |q| == |children| + 1 && forall i | 0 <= i < |q| :: q[i].0 == Nth(n, children, k + i)
  }

  /** The children of the record being expanded that were found so far are among the first i of its index. */
  ghost predicate Expanding(children: seq<(int, nat)>, from: seq<nat>, k: nat, mine: seq<int>, i: nat)
    requires |from| == |children|
  {
    && (forall c | 0 <= c < |from| :: from[c] <= k)
    && (forall c | 0 <= c < |from| && from[c] == k :: exists m :: 0 <= m < i && m < |mine| && mine[m] == children[c].0)
  }

  /** Between two expansions, k records expanded. */
  ghost predicate Searched(db: Loaded, n: int, children: seq<(int, nat)>, from: seq<nat>, q: seq<(int, nat)>, k: nat) {
    Ordered(db, n, children, from) && Waits(n, children, q, k) && forall c | 0 <= c < |from| :: from[c] < k
  }

  /** Within one: p is the k-th record, and the first i of its children are done. */
  ghost predicate Searching(db: Loaded, n: int, children: seq<(int, nat)>, from: seq<nat>, q: seq<(int, nat)>, k: nat,
                            p: int, mine: seq<int>, i: nat) {
    && Ordered(db, n, children, from) && Waits(n, children, q, k + 1) && k <= |children| && Nth(n, children, k) == p
    && Expanding(children, from, k, mine, i)
  }

  lemma OneMore(db: Loaded, n: int, children: seq<(int, nat)>, from: seq<nat>, q: seq<(int, nat)>, k: nat, p: int,
                mine: seq<int>, i: nat, d: nat)
    requires Searching(db, n, children, from, q, k, p, mine, i) && InOrder(db.ids, mine)
    requires i < |mine| && mine[i] in db.recs && db.recs[mine[i]].parent == Some(p)
    ensures var s := mine[i];
            Searching(db, n, children + [(s, d)], from + [k], q + [(s, d + 1)], k, p, mine, i + 1)
  {
    assert |from| == |children|;
    hide Before, Ordered, Waits, Expanding;
    OrderedOne(db, n, children, from, k, mine, i, d);
    ExpandingOne(children, from, k, mine, i, d);
    WaitsOne(n, children, q, k, mine[i], d);
  }

  lemma WaitsOne(n: int, children: seq<(int, nat)>, q: seq<(int, nat)>, k: nat, s: int, d: nat)
    requires Waits(n, children, q, k + 1) && k <= |children|
    ensures Waits(n, children + [(s, d)], q + [(s, d + 1)], k + 1)
    ensures Nth(n, children + [(s, d)], k) == Nth(n, children, k)
  {
  }

  lemma OrderedOne(db: Loaded, n: int, children: seq<(int, nat)>, from: seq<nat>, k: nat, mine: seq<int>, i: nat, d: nat)
    requires Ordered(db, n, children, from) && Expanding(children, from, k, mine, i) && InOrder(db.ids, mine)
    requires i < |mine| && mine[i] in db.recs && k <= |children|
    requires db.recs[mine[i]].parent == Some(Nth(n, children, k))
    ensures Ordered(db, n, children + [(mine[i], d)], from + [k])
  {
    hide Before;
    var (children', from') := (children + [(mine[i], d)], from + [k]);
    assert forall j | 0 <= j <= |children| :: Nth(n, children', j) == Nth(n, children, j);
    assert children'[|children|].0 == mine[i];
  }

  lemma ExpandingOne(children: seq<(int, nat)>, from: seq<nat>, k: nat, mine: seq<int>, i: nat, d: nat)
    requires |from| == |children| && Expanding(children, from, k, mine, i) && i < |mine|
    ensures Expanding(children + [(mine[i], d)], from + [k], k, mine, i + 1)
  {
    var (children', from') := (children + [(mine[i], d)], from + [k]);
    forall c | 0 <= c < |from'| && from'[c] == k ensures exists m :: 0 <= m < i + 1 && m < |mine| && mine[m] == children'[c].0 {
      if c < |from| {
        var m :| 0 <= m < i && m < |mine| && mine[m] == children[c].0;
        assert mine[m] == children'[c].0;
      } else {
        assert mine[i] == children'[c].0;
      }
    }
  }

  lemma NextParent(db: Loaded, n: int, children: seq<(int, nat)>, from: seq<nat>, q: seq<(int, nat)>, k: nat,
                   mine: seq<int>)
    requires q != [] && Searched(db, n, children, from, q, k)
    ensures Searching(db, n, children, from, q[1..], k, q[0].0, mine, 0)
  {
    hide Before;
  }

  lemma Passed(db: Loaded, n: int, children: seq<(int, nat)>, from: seq<nat>, q: seq<(int, nat)>, k: nat, p: int,
               mine: seq<int>, i: nat)
    requires Searching(db, n, children, from, q, k, p, mine, i)
    ensures Searching(db, n, children, from, q, k, p, mine, i + 1) && Searched(db, n, children, from, q, k + 1)
  {
    hide Before;
  }

  /** Between two expansions: what was found, what waits, and the order of both. */
  ghost predicate Level(db: Loaded, n: int, seen: set<int>, children: seq<(int, nat)>, from: seq<nat>, q: seq<(int, nat)>,
                        k: nat, near: nat) {
    && Found(db, n, seen, children) && Queue(db, n, seen, q, near) && Expanded(db, seen, q, {})
    && (forall i | 0 <= i < |children| :: children[i].1 <= near) && Searched(db, n, children, from, q, k)
  }

  /** Within one: the first i children of p, at this depth, are seen. */
  ghost predicate Midway(db: Loaded, n: int, seen: set<int>, children: seq<(int, nat)>, from: seq<nat>, q: seq<(int, nat)>,
                         k: nat, p: int, depth: nat, mine: seq<int>, i: nat) {
    && Found(db, n, seen, children) && Queue(db, n, seen, q, depth) && Expanded(db, seen, q, {p})
    && (forall c | 0 <= c < |children| :: children[c].1 <= depth) && Descends(db, n, p, depth)
    && Searching(db, n, children, from, q, k, p, mine, i) && mine == ChildrenOf(db.recs, db.ids, p)
    && forall m | 0 <= m < i && m < |mine| :: mine[m] in seen
  }

  lemma Begin(db: Loaded, n: int, seen: set<int>, children: seq<(int, nat)>, from: seq<nat>, q: seq<(int, nat)>, k: nat,
              near: nat)
    requires q != [] && Level(db, n, seen, children, from, q, k, near)
    ensures var (p, depth) := q[0];
            Midway(db, n, seen, children, from, q[1..], k, p, depth, ChildrenOf(db.recs, db.ids, p), 0)
  {
    hide Found, Queue, Expanded, Descends, ChildrenOf, Searched, Searching;
    Dequeue(db, n, seen, q, near);
    NextParent(db, n, children, from, q, k, ChildrenOf(db.recs, db.ids, q[0].0));
  }

  lemma MineOf(db: Loaded, n: int, seen: set<int>, children: seq<(int, nat)>, from: seq<nat>, q: seq<(int, nat)>, k: nat,
               p: int, depth: nat, mine: seq<int>, i: nat)
    requires Midway(db, n, seen, children, from, q, k, p, depth, mine, i) && i < |mine|
    ensures mine[i] in db.recs && db.recs[mine[i]].parent == Some(p)
  {
    assert mine[i] in mine;
    hide Found, Queue, Expanded, Descends, Searching;
  }

  lemma SkipOne(db: Loaded, n: int, seen: set<int>, children: seq<(int, nat)>, from: seq<nat>, q: seq<(int, nat)>, k: nat,
                p: int, depth: nat, mine: seq<int>, i: nat)
    requires Midway(db, n, seen, children, from, q, k, p, depth, mine, i) && i < |mine| && mine[i] in seen
    ensures Midway(db, n, seen, children, from, q, k, p, depth, mine, i + 1)
  {
    hide Found, Queue, Expanded, Descends, ChildrenOf, Searched, Searching;
    Passed(db, n, children, from, q, k, p, mine, i);
  }

  lemma FindOne(db: Loaded, n: int, seen: set<int>, children: seq<(int, nat)>, from: seq<nat>, q: seq<(int, nat)>, k: nat,
                p: int, depth: nat, mine: seq<int>, i: nat)
    requires Midway(db, n, seen, children, from, q, k, p, depth, mine, i) && i < |mine| && mine[i] !in seen
    ensures var s := mine[i];
            Midway(db, n, seen + {s}, children + [(s, depth)], from + [k], q + [(s, depth + 1)], k, p, depth, mine, i + 1)
  {
    hide Found, Queue, Expanded, Descends, ChildrenOf, Searched, Searching, InOrder;
    var s := mine[i];
    MineOf(db, n, seen, children, from, q, k, p, depth, mine, i);
    ChildrenInOrder(db.recs, db.ids, p);
    Discover(db, n, seen, children, q, p, s, depth);
    OneMore(db, n, children, from, q, k, p, mine, i, depth);
  }

  lemma Finish(db: Loaded, n: int, seen: set<int>, children: seq<(int, nat)>, from: seq<nat>, q: seq<(int, nat)>, k: nat,
               p: int, depth: nat, mine: seq<int>)
    requires Valid(db) && Midway(db, n, seen, children, from, q, k, p, depth, mine, |mine|)
    ensures Level(db, n, seen, children, from, q, k + 1, depth)
  {
    forall c | c in db.recs && db.recs[c].parent == Some(p) ensures c in seen {
      assert c in mine;
    }
    hide Found, Queue, Expanded, Descends, ChildrenOf, Searched, Searching;
    Done(db, seen, q, p);
    Passed(db, n, children, from, q, k, p, mine, |mine|);
  }

  method Descendants(db: Loaded, n: int) returns (children: seq<(int, nat)>)
    requires Valid(db) && n in db.recs
    ensures forall s, d: nat :: (s, d) in children <==> Descends(db, n, s, d + 1)
    ensures forall i, j | 0 <= i < j < |children| :: children[i].0 != children[j].0 && children[i].1 <= children[j].1
    ensures exists from :: Ordered(db, n, children, from)
  {
    hide Level, Midway, Descends, ChildrenOf, Ordered;
    var kids := Index(db);
    children := [];
    var frontier: seq<(int, nat)> := [(n, 0)];
    var seen := {n};
    ghost var near := 0;
    ghost var from: seq<nat> := [];
    ghost var k: nat := 0;
    FirstStep(db, n);
    while frontier != []
      invariant Level(db, n, seen, children, from, frontier, k, near) && seen <= db.recs.Keys
      decreases db.recs.Keys - seen, |frontier|
    {
      Begin(db, n, seen, children, from, frontier, k, near);
      var (parent, depth) := frontier[0];
      frontier := frontier[1..];
      near := depth;
      var mine := if Some(parent) in kids then kids[Some(parent)] else [];
      ghost var (before, waiting) := (seen, |frontier|);
      var i := 0;
      while i < |mine|
        invariant 0 <= i <= |mine| && Midway(db, n, seen, children, from, frontier, k, parent, depth, mine, i)
        invariant before <= seen <= db.recs.Keys && (seen == before ==> |frontier| == waiting)
      {
        var s := mine[i];
        MineOf(db, n, seen, children, from, frontier, k, parent, depth, mine, i);
        if s in seen {
          SkipOne(db, n, seen, children, from, frontier, k, parent, depth, mine, i);
        } else {
          FindOne(db, n, seen, children, from, frontier, k, parent, depth, mine, i);
          from := from + [k];
          seen := seen + {s};
          children := children + [(s, depth)];
          frontier := frontier + [(s, depth + 1)];
        }
        i := i + 1;
      }
      Finish(db, n, seen, children, from, frontier, k, parent, depth, mine);
      k := k + 1;
    }
    LastStep(db, n, seen, children, from, k, near);
  }

  lemma LastStep(db: Loaded, n: int, seen: set<int>, children: seq<(int, nat)>, from: seq<nat>, k: nat, near: nat)
    requires Level(db, n, seen, children, from, [], k, near)
    ensures forall s, d: nat :: (s, d) in children <==> Descends(db, n, s, d + 1)
    ensures forall i, j | 0 <= i < j < |children| :: children[i].0 != children[j].0 && children[i].1 <= children[j].1
    ensures Ordered(db, n, children, from)
  {
    hide Found, Expanded, Queue, Descends, Searched;
    AllFound(db, n, seen, children);
    InSearch(db, n, children, from, k);
  }

  lemma InSearch(db: Loaded, n: int, children: seq<(int, nat)>, from: seq<nat>, k: nat)
    requires Searched(db, n, children, from, [], k)
    ensures Ordered(db, n, children, from)
  {
  }

  lemma FirstStep(db: Loaded, n: int)
    requires n in db.recs
    ensures Level(db, n, {n}, [], [], [(n, 0)], 0, 0)
  {
    assert [(n, 0)][0].0 == n;
  }

  lemma AllFound(db: Loaded, n: int, seen: set<int>, children: seq<(int, nat)>)
    requires Found(db, n, seen, children) && Expanded(db, seen, [], {})
    ensures forall s, d: nat :: (s, d) in children <==> Descends(db, n, s, d + 1)
    ensures forall i, j | 0 <= i < j < |children| :: children[i].0 != children[j].0 && children[i].1 <= children[j].1
  {
    hide Descends;
    forall s, d: nat | Descends(db, n, s, d + 1) ensures (s, d) in children {
      ClosedDescends(db, n, seen, s, d + 1);
      NotItself(db, n, s, d);
      var i :| 0 <= i < |children| && children[i].0 == s;
      DescendsOnce(db, n, s, d + 1, children[i].1 + 1);
      assert children[i] == (s, d);
    }
  }

  lemma NotItself(db: Loaded, n: int, s: int, d: nat)
    requires Descends(db, n, s, d + 1)
    ensures s != n
  {
    assert Ancestor(db, s, 0) != Some(n);
  }
}
