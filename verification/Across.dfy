/**
 A closure under `GRAPH ?g` (crates/holos-engine/src/bindjoin.rs, `probe_closure`; view.rs, `internal_quads_for_pattern`).
 With `?g` unbound the walk is given no graph, and its scans range over every named graph: a path may leave one graph for
 another, a node is reached once however many graphs it is reached in, and `?g` is never bound.
 */
module Across {
  import opened Options
  import opened Bags
  import opened Rdf
  import opened Solutions
  import opened Expressions
  import opened Algebra
  import opened Items
  import opened Scans
  import opened Closures
  import opened Lifting
  import opened Planning
  import opened Emission
  import opened Answering
  import opened Limits

  // --- What a scan of every named graph sees ---------------------------------------------------------------------

  function Unnamed(): Quad -> seq<Quad> {
    (q: Quad) => if q.graph.Some? then [Quad(q.s, q.p, q.o, None)] else []
  }

  // The named graphs as one graph.
  function Merged(view: View): View {
    View(FlatMap(view.quads, Unnamed()), view.dict)
  }

  lemma MergedQuad(view: View, q: Quad)
    ensures q in Merged(view).quads <==> q.graph.None? && exists n :: Quad(q.s, q.p, q.o, Some(n)) in view.quads
  {
    FlatMapMember(view.quads, Unnamed(), q);
    if q in Merged(view).quads {
      var r :| r in view.quads && q in Unnamed()(r);
      assert r == Quad(q.s, q.p, q.o, Some(r.graph.value));
    }
    if q.graph.None? {
      if n :| Quad(q.s, q.p, q.o, Some(n)) in view.quads {
        assert q in Unnamed()(Quad(q.s, q.p, q.o, Some(n)));
      }
    }
  }

  // An edge of the merged graph is what a scan with no graph given finds.
  lemma MergedEdge(view: View, p: Term, x: Term, y: Term)
    ensures Merged(view).Edge(None, p, x, y) <==> exists q :: q in view.quads && Fits(ScanKey(Some(x), Some(p), Some(y), AnyNamed), q)
  {
    MergedQuad(view, Quad(x, p, y, None));
    if Merged(view).Edge(None, p, x, y) {
      var n :| Quad(x, p, y, Some(n)) in view.quads;
      assert Fits(ScanKey(Some(x), Some(p), Some(y), AnyNamed), Quad(x, p, y, Some(n)));
    }
    if q :| q in view.quads && Fits(ScanKey(Some(x), Some(p), Some(y), AnyNamed), q) {
      assert q == Quad(x, p, y, Some(q.graph.value));
    }
  }

  // Whatever is linked within one named graph is linked across them.
  lemma {:induction false} LinkedAcross(view: View, n: Term, e: PathExpr, x: Term, y: Term)
    requires Linked(view, Some(n), e, x, y)
    ensures Linked(Merged(view), None, e, x, y)
    decreases e
  {
    match e
    case Link(p) => MergedQuad(view, Quad(x, p, y, None));
    case Reverse(i) => LinkedAcross(view, n, i, y, x);
    case Alternative(a, b) =>
      if Linked(view, Some(n), a, x, y) {
        LinkedAcross(view, n, a, x, y);
      } else {
        LinkedAcross(view, n, b, x, y);
      }
    case ZeroOrOne(i) =>
      if x != y {
        LinkedAcross(view, n, i, x, y);
      }
    case ZeroOrMore(i) =>
      var w: seq<Term> :| |w| >= 1 && w[0] == x && w[|w| - 1] == y
                       && forall k :: 0 <= k < |w| - 1 ==> Linked(view, Some(n), i, w[k], w[k + 1]);
      forall k | 0 <= k < |w| - 1
        ensures Linked(Merged(view), None, i, w[k], w[k + 1])
      {
        LinkedAcross(view, n, i, w[k], w[k + 1]);
      }
    case OneOrMore(i) =>
      var w: seq<Term> :| |w| >= 2 && w[0] == x && w[|w| - 1] == y
                       && forall k :: 0 <= k < |w| - 1 ==> Linked(view, Some(n), i, w[k], w[k + 1]);
      forall k | 0 <= k < |w| - 1
        ensures Linked(Merged(view), None, i, w[k], w[k + 1])
      {
        LinkedAcross(view, n, i, w[k], w[k + 1]);
      }
  }

  // --- From a constant ---------------------------------------------------------------------------------------------

  // The closure of one predicate from a constant to a variable.
  ghost predicate FromConstant(a: Term, e: PathExpr, b: Var) {
    ClosureItemOf(T(a), e, V(b), InDefault).Some?
  }

  lemma ItemIs(a: Term, e: PathExpr, b: Var, scope: Scope)
    requires FromConstant(a, e, b)
    ensures ClosureItemOf(T(a), e, V(b), scope).Some?
    ensures var cl := ClosureItemOf(T(a), e, V(b), scope).value;
            cl.source == T(a) && cl.target == V(b) && cl.scope == scope && PathOf(cl) == e
  {
  }

  lemma EndsAre(a: Term, b: Var, x: Term, y: Term)
    ensures EndsFrom(map[], T(a), V(b), x, y) == if x == a then Some(map[b := y]) else None
  {
    var none: Solution := map[];
    assert none[b := y] == map[b := y];
  }

  lemma InRange(view: View, graph: Option<Term>, a: Term, e: PathExpr, b: Var, y: Term)
    requires FromConstant(a, e, b) && Linked(view, graph, e, a, y)
    ensures a in PathRange(view, graph, T(a), V(b)) && y in PathRange(view, graph, T(a), V(b))
  {
    var scope := if graph.Some? then InNamed(graph.value) else InDefault;
    ItemIs(a, e, b, scope);
    EndsAre(a, b, a, y);
    LinkedInRange(view, ClosureItemOf(T(a), e, V(b), scope).value, map[], a, y);
  }

  lemma ReachedRows(view: View, graph: Option<Term>, a: Term, e: PathExpr, b: Var, t: Solution)
    requires FromConstant(a, e, b)
    ensures t in ClosureSet(view, graph, T(a), e, V(b)) <==> exists y :: Linked(view, graph, e, a, y) && t == map[b := y]
  {
    if t in ClosureSet(view, graph, T(a), e, V(b)) {
      var x, y :| Linked(view, graph, e, x, y) && EndsFrom(map[], T(a), V(b), x, y) == Some(t);
      EndsAre(a, b, x, y);
    }
    if y :| Linked(view, graph, e, a, y) && t == map[b := y] {
      EndsAre(a, b, a, y);
      InRange(view, graph, a, e, b, y);
    }
  }

  // Reached within one named graph, or across them all.
  ghost predicate Within(view: View, n: Term, a: Term, e: PathExpr, y: Term) {
    n in view.GraphNames() && Linked(view, Some(n), e, a, y)
  }

  ghost function RowsIn(view: View, a: Term, e: PathExpr, b: Var): Term -> seq<Solution> {
    n => Listing(ClosureSet(view, Some(n), T(a), e, V(b)))
  }

  ghost function RowsAcross(view: View, a: Term, e: PathExpr, b: Var): seq<Solution> {
    Listing(ClosureSet(Merged(view), None, T(a), e, V(b)))
  }

  // --- The query and its plan --------------------------------------------------------------------------------------

  // `SELECT ?b { GRAPH ?g { <a> e ?b } }`.
  function InSomeGraph(g: Var, a: Term, e: PathExpr, b: Var): Pattern {
    Graph(V(g), Path(T(a), e, V(b)))
  }

  // What the plan yields for its one item when `?g` is unbound: the walk in the merged graph.
  ghost predicate AcrossRightly(c: Context, g: Var, a: Term, e: PathExpr, b: Var) {
    Same(RowsAcross(c.view, a, e, b), Eval(c, None, Project(InSomeGraph(g, a, e, b), [b])))
  }

  lemma AcrossAccepted(g: Var, a: Term, e: PathExpr, b: Var)
    requires FromConstant(a, e, b)
    ensures PlanOf(Project(InSomeGraph(g, a, e, b), [b]), false, 0, None)
         == Some(Plan([ClosureStep(ClosureItemOf(T(a), e, V(b), InEach(g)).value)], [], [b], false, 0, None))
  {
    ItemIs(a, e, b, InEach(g));
    var cl := ClosureItemOf(T(a), e, V(b), InEach(g)).value;
    assert Collect(Path(T(a), e, V(b)), InEach(g), 0) == Some(Collected([ClosureStep(cl)], []));
    assert Collect(InSomeGraph(g, a, e, b), InDefault, 0) == Some(Collected([ClosureStep(cl)], []));
    AloneDesigned(cl);
    assert BoundOf(Path(T(a), e, V(b)), InEach(g)).possible == {b};
  }

  lemma AloneDesigned(cl: ClosureItem)
    requires cl.source.T?
    ensures WellDesigned([ClosureStep(cl)], []) && ClosuresAnchored([ClosureStep(cl)])
  {
    assert [ClosureStep(cl)][1..] == [];
    assert Gather([ClosureStep(cl)]) == [];
  }

  lemma {:induction false} EachProjected(c: Context, names: seq<Term>, g: Var, a: Term, e: PathExpr, b: Var)
    requires FromConstant(a, e, b) && g != b
    ensures FlatMap(EvalEach(c, names, g, Path(T(a), e, V(b))), Projected([b])) == FlatMap(names, RowsIn(c.view, a, e, b))
  {
    if names != [] {
      var rows := RowsIn(c.view, a, e, b)(names[0]);
      PathRows(c, names[0], a, e, b);
      forall t | t in rows
        ensures t.Keys == {b}
      {
        ReachedRows(c.view, Some(names[0]), a, e, b, t);
      }
      NamedProjected(g, b, names[0], rows);
      EachProjected(c, names[1..], g, a, e, b);
      FlatMapAppend(JoinOne(map[g := names[0]], rows), EvalEach(c, names[1..], g, Path(T(a), e, V(b))), Projected([b]));
    }
  }

  lemma PathRows(c: Context, n: Term, a: Term, e: PathExpr, b: Var)
    requires FromConstant(a, e, b)
    ensures Eval(c, Some(n), Path(T(a), e, V(b))) == RowsIn(c.view, a, e, b)(n)
  {
  }

  lemma NamedRow(g: Var, b: Var, n: Term, t: Solution)
    requires g != b && t.Keys == {b}
    ensures JoinOne(map[g := n], [t]) == [map[g := n] + t] && FlatMap([map[g := n] + t], Projected([b])) == [t]
  {
    var one: Solution := map[g := n];
    assert Compatible(one, t);
    FlatMapOne(t, Against(one));
    FlatMapOne(one + t, Projected([b]));
    assert Restrict(one + t, set v | v in [b]) == t;
  }

  lemma {:induction false} NamedProjected(g: Var, b: Var, n: Term, rows: seq<Solution>)
    requires g != b && forall t :: t in rows ==> t.Keys == {b}
    ensures FlatMap(JoinOne(map[g := n], rows), Projected([b])) == rows
  {
    if rows != [] {
      var one: Solution, t := map[g := n], rows[0];
      NamedProjected(g, b, n, rows[1..]);
      NamedRow(g, b, n, t);
      assert rows == [t] + rows[1..];
      JoinOneAppend(one, [t], rows[1..]);
      FlatMapAppend([one + t], JoinOne(one, rows[1..]), Projected([b]));
    }
  }

  // --- Counting the graphs a node is reached in --------------------------------------------------------------------

  ghost predicate Share<A(!new), B>(xs: seq<A>, f: A -> seq<B>) {
    exists x, y, b :: x in xs && y in xs && x != y && b in f(x) && b in f(y)
  }

  lemma {:induction false} FlatMapApart<A(!new), B(!new)>(xs: seq<A>, f: A -> seq<B>)
    requires NoRepeats(xs) && forall x :: x in xs ==> NoRepeats(f(x))
    ensures NoRepeats(FlatMap(xs, f)) <==> !Share(xs, f)
  {
    if xs != [] {
      var first, rest := xs[0], FlatMap(xs[1..], f);
      assert forall i :: 0 <= i < |xs[1..]| ==> xs[1..][i] == xs[i + 1];
      FlatMapApart(xs[1..], f);
      BothApart(f(first), rest);
      forall b
        ensures b in rest <==> exists y :: y in xs[1..] && b in f(y)
      {
        FlatMapMember(xs[1..], f, b);
      }
      assert forall y :: y in xs <==> y == first || y in xs[1..];
      assert first !in xs[1..];
    }
  }

  lemma BothApart<B(!new)>(xs: seq<B>, ys: seq<B>)
    ensures NoRepeats(xs + ys) <==> NoRepeats(xs) && NoRepeats(ys) && forall b :: b in xs ==> b !in ys
  {
    var zs := xs + ys;
    if NoRepeats(zs) {
      forall i, j | 0 <= i < j < |xs|
        ensures xs[i] != xs[j]
      {
        assert zs[i] == xs[i] && zs[j] == xs[j];
      }
      forall i, j | 0 <= i < j < |ys|
        ensures ys[i] != ys[j]
      {
        assert zs[|xs| + i] == ys[i] && zs[|xs| + j] == ys[j];
      }
      forall b | b in xs
        ensures b !in ys
      {
        ApartIn(xs, ys, b);
      }
    }
    if NoRepeats(xs) && NoRepeats(ys) && forall b :: b in xs ==> b !in ys {
      forall i, j | 0 <= i < j < |zs|
        ensures zs[i] != zs[j]
      {
        if i < |xs| <= j {
          assert zs[i] in xs && zs[j] == ys[j - |xs|] && zs[j] in ys;
        }
      }
    }
  }

  lemma ApartIn<B(!new)>(xs: seq<B>, ys: seq<B>, b: B)
    requires NoRepeats(xs + ys) && b in xs
    ensures b !in ys
  {
    var zs := xs + ys;
    var i :| 0 <= i < |xs| && xs[i] == b;
    forall j | 0 <= j < |ys|
      ensures ys[j] != b
    {
      assert zs[i] == b && zs[|xs| + j] == ys[j];
    }
  }

  lemma SameNoRepeats<B(!new)>(xs: seq<B>, ys: seq<B>)
    requires Same(xs, ys) && NoRepeats(xs)
    ensures NoRepeats(ys)
  {
    NoRepeatsIsSet(xs);
    NoRepeatsIsSet(ys);
    forall b
      ensures b in xs <==> b in ys
    {
      SameMembers(xs, ys, b);
    }
    assert (set b | b in xs) == (set b | b in ys);
  }

  // Exactly one named graph reaches what is reached across them.
  ghost predicate OneGraphEach(view: View, a: Term, e: PathExpr) {
    forall y :: Linked(Merged(view), None, e, a, y) ==>
      exists n :: Within(view, n, a, e, y) && forall m :: Within(view, m, a, e, y) ==> m == n
  }

  lemma RowWithin(view: View, n: Term, a: Term, e: PathExpr, b: Var, y: Term)
    requires FromConstant(a, e, b)
    ensures map[b := y] in RowsIn(view, a, e, b)(n) <==> Linked(view, Some(n), e, a, y)
  {
    var t: Solution := map[b := y];
    ReachedRows(view, Some(n), a, e, b, t);
    if z :| Linked(view, Some(n), e, a, z) && t == map[b := z] {
      assert t[b] == z;
    }
  }

  lemma RowAcross(view: View, a: Term, e: PathExpr, b: Var, y: Term)
    requires FromConstant(a, e, b)
    ensures map[b := y] in RowsAcross(view, a, e, b) <==> Linked(Merged(view), None, e, a, y)
  {
    var t: Solution := map[b := y];
    ReachedRows(Merged(view), None, a, e, b, t);
    if z :| Linked(Merged(view), None, e, a, z) && t == map[b := z] {
      assert t[b] == z;
    }
  }

  ghost predicate ReachedTwice(view: View, a: Term, e: PathExpr) {
    exists m, n, y :: m != n && Within(view, m, a, e, y) && Within(view, n, a, e, y)
  }

  lemma ShownTwice(view: View, m: Term, n: Term, a: Term, e: PathExpr, b: Var, t: Solution)
    requires FromConstant(a, e, b) && m != n && m in view.GraphNames() && n in view.GraphNames()
    requires t in RowsIn(view, a, e, b)(m) && t in RowsIn(view, a, e, b)(n)
    ensures ReachedTwice(view, a, e)
  {
    ReachedRows(view, Some(m), a, e, b, t);
    var y :| Linked(view, Some(m), e, a, y) && t == map[b := y];
    RowWithin(view, n, a, e, b, y);
    assert Within(view, m, a, e, y) && Within(view, n, a, e, y);
  }

  lemma SharedWithin(view: View, names: seq<Term>, a: Term, e: PathExpr, b: Var)
    requires FromConstant(a, e, b) && forall n :: n in names <==> n in view.GraphNames()
    ensures Share(names, RowsIn(view, a, e, b)) <==> ReachedTwice(view, a, e)
  {
    var f := RowsIn(view, a, e, b);
    if Share(names, f) {
      var m, n, t :| m in names && n in names && m != n && t in f(m) && t in f(n);
      ShownTwice(view, m, n, a, e, b, t);
    }
    if ReachedTwice(view, a, e) {
      var m, n, y :| m != n && Within(view, m, a, e, y) && Within(view, n, a, e, y);
      RowWithin(view, m, a, e, b, y);
      RowWithin(view, n, a, e, b, y);
    }
  }

  lemma SomeWithin(view: View, names: seq<Term>, a: Term, e: PathExpr, b: Var, t: Solution)
    requires FromConstant(a, e, b) && forall n :: n in names <==> n in view.GraphNames()
    ensures t in FlatMap(names, RowsIn(view, a, e, b)) <==> exists n, y :: Within(view, n, a, e, y) && t == map[b := y]
  {
    var f := RowsIn(view, a, e, b);
    FlatMapMember(names, f, t);
    if t in FlatMap(names, f) {
      var n :| n in names && t in f(n);
      ReachedRows(view, Some(n), a, e, b, t);
      var y :| Linked(view, Some(n), e, a, y) && t == map[b := y];
      assert Within(view, n, a, e, y);
    }
    if n, y :| Within(view, n, a, e, y) && t == map[b := y] {
      RowWithin(view, n, a, e, b, y);
    }
  }

  lemma CountedRight(view: View, names: seq<Term>, a: Term, e: PathExpr, b: Var)
    requires FromConstant(a, e, b) && NoRepeats(names) && forall n :: n in names <==> n in view.GraphNames()
    requires OneGraphEach(view, a, e)
    ensures Same(RowsAcross(view, a, e, b), FlatMap(names, RowsIn(view, a, e, b)))
  {
    var f, rows := RowsIn(view, a, e, b), RowsAcross(view, a, e, b);
    SharedWithin(view, names, a, e, b);
    if ReachedTwice(view, a, e) {
      var m, n, y :| m != n && Within(view, m, a, e, y) && Within(view, n, a, e, y);
      LinkedAcross(view, m, e, a, y);
      assert false;
    }
    EachNoRepeats(view, names, a, e, b);
    FlatMapApart(names, f);
    ListingNoRepeats(ClosureSet(Merged(view), None, T(a), e, V(b)));
    forall t
      ensures t in rows <==> t in FlatMap(names, f)
    {
      SomeWithin(view, names, a, e, b, t);
      AcrossWithin(view, a, e, b, t);
    }
    NoRepeatsSame(rows, FlatMap(names, f));
  }

  lemma EachNoRepeats(view: View, names: seq<Term>, a: Term, e: PathExpr, b: Var)
    ensures forall n :: n in names ==> NoRepeats(RowsIn(view, a, e, b)(n))
  {
    forall n | n in names
      ensures NoRepeats(RowsIn(view, a, e, b)(n))
    {
      ListingNoRepeats(ClosureSet(view, Some(n), T(a), e, V(b)));
    }
  }

  lemma AcrossWithin(view: View, a: Term, e: PathExpr, b: Var, t: Solution)
    requires FromConstant(a, e, b) && OneGraphEach(view, a, e)
    ensures t in RowsAcross(view, a, e, b) <==> exists n, y :: Within(view, n, a, e, y) && t == map[b := y]
  {
    ReachedRows(Merged(view), None, a, e, b, t);
    if t in RowsAcross(view, a, e, b) {
      var y :| Linked(Merged(view), None, e, a, y) && t == map[b := y];
      var n :| Within(view, n, a, e, y);
    }
    if n, y :| Within(view, n, a, e, y) && t == map[b := y] {
      LinkedAcross(view, n, e, a, y);
    }
  }

  lemma CountedOnly(view: View, names: seq<Term>, a: Term, e: PathExpr, b: Var)
    requires FromConstant(a, e, b) && NoRepeats(names) && forall n :: n in names <==> n in view.GraphNames()
    requires Same(RowsAcross(view, a, e, b), FlatMap(names, RowsIn(view, a, e, b)))
    ensures OneGraphEach(view, a, e)
  {
    var f, rows := RowsIn(view, a, e, b), RowsAcross(view, a, e, b);
    ListingNoRepeats(ClosureSet(Merged(view), None, T(a), e, V(b)));
    SameNoRepeats(rows, FlatMap(names, f));
    EachNoRepeats(view, names, a, e, b);
    FlatMapApart(names, f);
    SharedWithin(view, names, a, e, b);
    forall y | Linked(Merged(view), None, e, a, y)
      ensures exists n :: Within(view, n, a, e, y) && forall m :: Within(view, m, a, e, y) ==> m == n
    {
      var t: Solution := map[b := y];
      RowAcross(view, a, e, b, y);
      SameMembers(rows, FlatMap(names, f), t);
      SomeWithin(view, names, a, e, b, t);
      var n, z :| Within(view, n, a, e, z) && t == map[b := z];
      assert t[b] == z;
    }
  }

  // Accepted, and planned rightly exactly when every node the walk reaches across the named graphs is reached within one
  // of them and in no other.
  lemma AcrossExactly(c: Context, g: Var, a: Term, e: PathExpr, b: Var)
    requires FromConstant(a, e, b) && g != b
    ensures PlanOf(Project(InSomeGraph(g, a, e, b), [b]), false, 0, None).Some?
    ensures AcrossRightly(c, g, a, e, b) <==> OneGraphEach(c.view, a, e)
  {
    var names := Listing(c.view.GraphNames());
    AcrossAccepted(g, a, e, b);
    ProjectedGraph(c, Path(T(a), e, V(b)), g, [b]);
    EachProjected(c, names, g, a, e, b);
    ListingNoRepeats(c.view.GraphNames());
    if OneGraphEach(c.view, a, e) {
      CountedRight(c.view, names, a, e, b);
    }
    if Same(RowsAcross(c.view, a, e, b), FlatMap(names, RowsIn(c.view, a, e, b))) {
      CountedOnly(c.view, names, a, e, b);
    }
  }
}
