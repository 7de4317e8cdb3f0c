/**
 GRAPH blocks flattened: a pattern tagged with its graph means what the block around it means. For
 GRAPH ?v this is the diagonal of a double loop over the named graphs, since two different names
 for ?v never merge.
 */
module Scopes {
  import opened Options
  import opened Bags
  import opened Rdf
  import opened Solutions
  import opened Expressions
  import opened Algebra
  import opened Items
  import Lifting

  // What a pattern denotes inside the GRAPH block it was written in, if any.
  ghost function EvalIn(c: Context, scope: Scope, p: Pattern): seq<Solution> {
    match scope
    case InDefault => Eval(c, None, p)
    case InNamed(g) => if g in c.view.GraphNames() then Eval(c, Some(g), p) else []
    case InEach(v) => EvalEach(c, Listing(c.view.GraphNames()), v, p)
  }

  // --- Loops over the named graphs -----------------------------------------------------------------

  ghost function Named(v: Var, f: Term -> seq<Solution>): Term -> seq<Solution> {
    g => JoinOne(map[v := g], f(g))
  }

  ghost function Each(names: seq<Term>, v: Var, f: Term -> seq<Solution>): seq<Solution> {
    FlatMap(names, Named(v, f))
  }

  ghost function EvalAt(c: Context, p: Pattern): Term -> seq<Solution> {
    g => Eval(c, Some(g), p)
  }

  lemma {:induction false} EvalEachIsEach(c: Context, names: seq<Term>, v: Var, p: Pattern)
    ensures EvalEach(c, names, v, p) == Each(names, v, EvalAt(c, p))
    decreases |names|
  {
    if names != [] {
      EvalEachIsEach(c, names[1..], v, p);
    }
  }

  // A row of one turn names that turn's graph.
  lemma NamedBy(v: Var, f: Term -> seq<Solution>, g: Term, s: Solution)
    requires s in Named(v, f)(g)
    ensures v in s && s[v] == g
  {
    JoinOneMember(map[v := g], f(g), s);
    var b :| b in f(g) && Compatible(map[v := g], b) && s == map[v := g] + b;
    if v in b {
      assert map[v := g][v] == b[v];
    }
  }

  lemma OtherGraph(s: Solution, v: Var, f: Term -> seq<Solution>, g: Term)
    requires v in s && s[v] != g
    ensures JoinOne(s, Named(v, f)(g)) == []
  {
    var ts := Named(v, f)(g);
    forall t | t in ts
      ensures Against(s)(t) == []
    {
      NamedBy(v, f, g, t);
    }
    FlatMapNothing(ts, Against(s));
  }

  // Against rows that name one graph, only that graph's turn can join.
  lemma {:induction false} OneGraph(s: Solution, names: seq<Term>, v: Var, f: Term -> seq<Solution>)
    requires NoRepeats(names) && v in s
    ensures JoinOne(s, Each(names, v, f)) == if s[v] in names then JoinOne(s, Named(v, f)(s[v])) else []
  {
    if names != [] {
      var head, rest := Named(v, f)(names[0]), Each(names[1..], v, f);
      OneGraph(s, names[1..], v, f);
      JoinOneAppend(s, head, rest);
      if s[v] == names[0] {
        assert s[v] !in names[1..];
      } else {
        OtherGraph(s, v, f, names[0]);
        assert s[v] in names <==> s[v] in names[1..];
      }
    }
  }

  ghost function JoinedAt(f: Term -> seq<Solution>, h: Term -> seq<Solution>): Term -> seq<Solution> {
    g => JoinBags(f(g), h(g))
  }

  lemma NamedTwice(s: Solution, h: seq<Solution>, v: Var, g: Term)
    requires v in s && s[v] == g
    ensures JoinOne(s, JoinOne(map[v := g], h)) == JoinOne(s, h)
  {
    MergeThenJoin(s, map[v := g], h);
    assert s + map[v := g] == s;
    JoinSingle(s, h);
  }

  lemma JoinNamed(v: Var, f: Term -> seq<Solution>, h: Term -> seq<Solution>, g: Term)
    ensures JoinBags(Named(v, f)(g), Named(v, h)(g)) == Named(v, JoinedAt(f, h))(g)
  {
    forall s | s in Named(v, f)(g)
      ensures JoinedWith(Named(v, h)(g))(s) == JoinedWith(h(g))(s)
    {
      NamedBy(v, f, g, s);
      NamedTwice(s, h(g), v, g);
    }
    FlatMapEqual(Named(v, f)(g), JoinedWith(Named(v, h)(g)), JoinedWith(h(g)));
    JoinOneAssociative(map[v := g], f(g), h(g));
  }

  // The diagonal: joining two loops over the graphs is one loop joining graph by graph.
  lemma {:induction false} JoinEach(names: seq<Term>, all: seq<Term>, v: Var, f: Term -> seq<Solution>, h: Term -> seq<Solution>)
    requires NoRepeats(all) && forall g :: g in names ==> g in all
    ensures JoinBags(Each(names, v, f), Each(all, v, h)) == Each(names, v, JoinedAt(f, h))
  {
    if names != [] {
      var head := Named(v, f)(names[0]);
      JoinEach(names[1..], all, v, f, h);
      JoinAppend(head, Each(names[1..], v, f), Each(all, v, h));
      forall s | s in head
        ensures JoinedWith(Each(all, v, h))(s) == JoinedWith(Named(v, h)(names[0]))(s)
      {
        NamedBy(v, f, names[0], s);
        OneGraph(s, all, v, h);
      }
      FlatMapEqual(head, JoinedWith(Each(all, v, h)), JoinedWith(Named(v, h)(names[0])));
      JoinNamed(v, f, h, names[0]);
    }
  }

  lemma SameEach(names: seq<Term>, v: Var, f: Term -> seq<Solution>, h: Term -> seq<Solution>)
    requires forall g :: g in names ==> Same(f(g), h(g))
    ensures Same(Each(names, v, f), Each(names, v, h))
  {
    forall g | g in names
      ensures Same(Named(v, f)(g), Named(v, h)(g))
    {
      JoinOneSame(map[v := g], f(g), h(g));
    }
    FlatMapSame(names, names, Named(v, f), Named(v, h));
  }

  lemma EqualEach(names: seq<Term>, v: Var, f: Term -> seq<Solution>, h: Term -> seq<Solution>)
    requires forall g :: g in names ==> f(g) == h(g)
    ensures Each(names, v, f) == Each(names, v, h)
  {
    forall g | g in names
      ensures Named(v, f)(g) == Named(v, h)(g)
    {
    }
    FlatMapEqual(names, Named(v, f), Named(v, h));
  }

  // --- The operators under a scope -----------------------------------------------------------------

  lemma JoinAt(c: Context, g: Term, l: Pattern, r: Pattern)
    ensures EvalAt(c, Join(l, r))(g) == JoinedAt(EvalAt(c, l), EvalAt(c, r))(g)
  {
  }

  lemma EachJoin(c: Context, names: seq<Term>, v: Var, l: Pattern, r: Pattern)
    requires NoRepeats(names)
    ensures EvalEach(c, names, v, Join(l, r)) == JoinBags(EvalEach(c, names, v, l), EvalEach(c, names, v, r))
  {
    var f, h, both := EvalAt(c, l), EvalAt(c, r), EvalAt(c, Join(l, r));
    forall g | g in names
      ensures both(g) == JoinedAt(f, h)(g)
    {
      JoinAt(c, g, l, r);
    }
    EqualEach(names, v, both, JoinedAt(f, h));
    JoinEach(names, names, v, f, h);
    EachThree(c, names, v, l, r, Join(l, r));
  }

  lemma EvalInJoin(c: Context, scope: Scope, l: Pattern, r: Pattern)
    ensures EvalIn(c, scope, Join(l, r)) == JoinBags(EvalIn(c, scope, l), EvalIn(c, scope, r))
  {
    if scope.InEach? {
      ListingNoRepeats(c.view.GraphNames());
      EachJoin(c, Listing(c.view.GraphNames()), scope.v, l, r);
    }
  }

  lemma Interleave(a: seq<Solution>, b: seq<Solution>, xs: seq<Solution>, ys: seq<Solution>, zs: seq<Solution>)
    requires Same(zs, xs + ys)
    ensures Same((a + b) + zs, (a + xs) + (b + ys))
  {
    assert multiset((a + b) + zs) == multiset(a) + multiset(b) + multiset(zs);
    assert multiset((a + xs) + (b + ys)) == multiset(a) + multiset(xs) + multiset(b) + multiset(ys);
    assert multiset(xs + ys) == multiset(xs) + multiset(ys);
  }

  ghost function Summed(f: Term -> seq<Solution>, h: Term -> seq<Solution>): Term -> seq<Solution> {
    g => f(g) + h(g)
  }

  lemma {:induction false} EachSum(names: seq<Term>, v: Var, f: Term -> seq<Solution>, h: Term -> seq<Solution>)
    ensures Same(Each(names, v, Summed(f, h)), Each(names, v, f) + Each(names, v, h))
  {
    if names != [] {
      var g, rest := names[0], names[1..];
      EachSum(rest, v, f, h);
      JoinOneAppend(map[v := g], f(g), h(g));
      Interleave(Named(v, f)(g), Named(v, h)(g), Each(rest, v, f), Each(rest, v, h), Each(rest, v, Summed(f, h)));
    }
  }

  lemma EachUnion(c: Context, names: seq<Term>, v: Var, l: Pattern, r: Pattern)
    ensures Same(EvalEach(c, names, v, Union(l, r)), EvalEach(c, names, v, l) + EvalEach(c, names, v, r))
  {
    var f, h, both := EvalAt(c, l), EvalAt(c, r), EvalAt(c, Union(l, r));
    forall g | g in names
      ensures both(g) == Summed(f, h)(g)
    {
      UnionAt(c, g, l, r);
    }
    EqualEach(names, v, both, Summed(f, h));
    EachSum(names, v, f, h);
    EachThree(c, names, v, l, r, Union(l, r));
  }

  lemma UnionAt(c: Context, g: Term, l: Pattern, r: Pattern)
    ensures EvalAt(c, Union(l, r))(g) == Summed(EvalAt(c, l), EvalAt(c, r))(g)
  {
  }

  lemma EachThree(c: Context, names: seq<Term>, v: Var, l: Pattern, r: Pattern, p: Pattern)
    ensures EvalEach(c, names, v, l) == Each(names, v, EvalAt(c, l))
    ensures EvalEach(c, names, v, r) == Each(names, v, EvalAt(c, r))
    ensures EvalEach(c, names, v, p) == Each(names, v, EvalAt(c, p))
  {
    EvalEachIsEach(c, names, v, l);
    EvalEachIsEach(c, names, v, r);
    EvalEachIsEach(c, names, v, p);
  }

  lemma EvalInUnion(c: Context, scope: Scope, l: Pattern, r: Pattern)
    ensures Same(EvalIn(c, scope, Union(l, r)), EvalIn(c, scope, l) + EvalIn(c, scope, r))
  {
    if scope.InEach? {
      EachUnion(c, Listing(c.view.GraphNames()), scope.v, l, r);
    }
  }

  // A filter that does not look at ?v says the same before and after ?v is bound to the graph.
  lemma {:induction false} NamedFilter(r: Rules, e: Expr, v: Var, g: Term, xs: seq<Solution>)
    requires Inspectable(e) && v !in Needs(e)
    ensures JoinOne(map[v := g], Select(xs, Keeps(r, e))) == Select(JoinOne(map[v := g], xs), Keeps(r, e))
  {
    if xs != [] {
      var m, x := map[v := g], xs[0];
      NamedFilter(r, e, v, g, xs[1..]);
      var head := if Keeps(r, e)(x) then [x] else [];
      JoinOneAppend(m, head, Select(xs[1..], Keeps(r, e)));
      SelectAppend(Merge(m, x), JoinOne(m, xs[1..]), Keeps(r, e));
      EvaluateLocal(r, e, x, m + x);
      FlatMapOne(x, Against(m));
    }
  }

  // One turn of the loop, filtered inside and outside.
  lemma TurnFilter(c: Context, g: Term, v: Var, e: Expr, p: Pattern)
    requires Inspectable(e) && v !in Needs(e)
    ensures JoinOne(map[v := g], Eval(c, Some(g), Filter(e, p))) == Select(JoinOne(map[v := g], Eval(c, Some(g), p)), Keeps(c.rules, e))
  {
    NamedFilter(c.rules, e, v, g, Eval(c, Some(g), p));
  }

  lemma {:induction false} EachFilter(c: Context, names: seq<Term>, v: Var, e: Expr, p: Pattern)
    requires Inspectable(e) && v !in Needs(e)
    ensures EvalEach(c, names, v, Filter(e, p)) == Select(EvalEach(c, names, v, p), Keeps(c.rules, e))
    decreases |names|
  {
    if names != [] {
      EachFilter(c, names[1..], v, e, p);
      TurnFilter(c, names[0], v, e, p);
      SelectAppend(JoinOne(map[v := names[0]], Eval(c, Some(names[0]), p)), EvalEach(c, names[1..], v, p), Keeps(c.rules, e));
    }
  }

  lemma EvalInFilter(c: Context, scope: Scope, e: Expr, p: Pattern)
    requires scope.InEach? ==> Inspectable(e) && scope.v !in Needs(e)
    ensures EvalIn(c, scope, Filter(e, p)) == Select(EvalIn(c, scope, p), Keeps(c.rules, e))
  {
    if scope.InEach? {
      EachFilter(c, Listing(c.view.GraphNames()), scope.v, e, p);
    }
  }

  // --- Triple patterns under a scope -----------------------------------------------------------------

  // One quad, looked at once for each graph name there is: it answers to its own graph's name only.
  ghost function QuadIn(view: View, v: Var, t: TriplePattern): (Term, Quad) -> seq<Solution> {
    (g, q) => JoinOne(map[v := g], Matching(map[], t, InNamed(g))(q))
  }

  lemma MatchNamed(v: Var, t: TriplePattern, g: Term, q: Quad)
    ensures JoinOne(map[v := g], Matching(map[], t, InNamed(g))(q))
         == if q.graph == Some(g) then Matching(map[], t, InEach(v))(q) else []
  {
    if q.graph == Some(g) {
      Lift3(map[v := g], map[], t, q);
      assert BindScope(map[], InEach(v), q.graph) == Some(map[v := g]);
    }
  }

  // Binding the three positions from `m` is merging `m` with what they bind from nothing.
  lemma Lift3(m: Solution, none: Solution, t: TriplePattern, q: Quad)
    requires none == map[]
    ensures AsBag(BindTo(BindTo(BindTo(Some(m), t.s, q.s), t.p, q.p), t.o, q.o))
         == JoinOne(m, AsBag(BindTo(BindTo(BindTo(Some(none), t.s, q.s), t.p, q.p), t.o, q.o)))
  {
    Lifting.LiftStart(m);
    Lifting.LiftBind(m, Some(m), Some(none), t.s, q.s);
    var a, b := BindTo(Some(m), t.s, q.s), BindTo(Some(none), t.s, q.s);
    Lifting.LiftBind(m, a, b, t.p, q.p);
    Lifting.LiftBind(m, BindTo(a, t.p, q.p), BindTo(b, t.p, q.p), t.o, q.o);
    Lifting.LiftedBag(m, BindTo(BindTo(a, t.p, q.p), t.o, q.o), BindTo(BindTo(b, t.p, q.p), t.o, q.o));
  }


  lemma {:induction false} OneName(names: seq<Term>, view: View, v: Var, t: TriplePattern, q: Quad)
    requires NoRepeats(names)
    ensures FlatMap(names, Column(QuadIn(view, v, t), q))
         == if q.graph.Some? && q.graph.value in names then Matching(map[], t, InEach(v))(q) else []
  {
    if names != [] {
      OneName(names[1..], view, v, t, q);
      MatchNamed(v, t, names[0], q);
      if q.graph == Some(names[0]) {
        assert names[0] !in names[1..];
      }
    }
  }

  ghost function TripleAt(view: View, t: TriplePattern): Term -> seq<Solution> {
    g => TripleBag(view, t, InNamed(g))
  }

  // GRAPH ?v around one triple pattern is that pattern, matched in every named graph, binding ?v.
  lemma EachTriple(view: View, v: Var, t: TriplePattern)
    ensures Same(Each(Listing(view.GraphNames()), v, TripleAt(view, t)), TripleBag(view, t, InEach(v)))
  {
    var names, r := Listing(view.GraphNames()), QuadIn(view, v, t);
    ListingNoRepeats(view.GraphNames());
    forall g | g in names
      ensures Named(v, TripleAt(view, t))(g) == Rows(r, view.quads)(g)
    {
      Lifting.JoinOneFlatMap(map[v := g], view.quads, Matching(map[], t, InNamed(g)), Row(r, g));
    }
    FlatMapEqual(names, Named(v, TripleAt(view, t)), Rows(r, view.quads));
    Exchange(names, view.quads, r);
    forall q | q in view.quads
      ensures Columns(r, names)(q) == Matching(map[], t, InEach(v))(q)
    {
      OneName(names, view, v, t, q);
    }
    FlatMapEqual(view.quads, Columns(r, names), Matching(map[], t, InEach(v)));
  }

  function TaggedWith(ts: seq<TriplePattern>, scope: Scope): (r: seq<PatternItem>)
    ensures |r| == |ts|
  {
    if ts == [] then [] else [PatternItem(ts[0], scope)] + TaggedWith(ts[1..], scope)
  }

  lemma {:induction false} BgpIsBranch(view: View, active: Option<Term>, ts: seq<TriplePattern>)
    ensures BgpBag(view, active, ts) == BranchConj(view, TaggedWith(ts, ActiveScope(active)))
  {
    if ts != [] {
      BgpIsBranch(view, active, ts[1..]);
      assert TaggedWith(ts, ActiveScope(active))[1..] == TaggedWith(ts[1..], ActiveScope(active));
    }
  }

  lemma NoSuchGraph(view: View, g: Term, t: TriplePattern)
    requires g !in view.GraphNames()
    ensures TripleBag(view, t, InNamed(g)) == []
  {
    FlatMapNothing(view.quads, Matching(map[], t, InNamed(g)));
  }

  lemma {:induction false} BgpIn(c: Context, scope: Scope, ts: seq<TriplePattern>)
    requires ts != [] || scope.InDefault? || (scope.InNamed? && scope.g in c.view.GraphNames())
    ensures Same(EvalIn(c, scope, Bgp(ts)), BranchConj(c.view, TaggedWith(ts, scope)))
  {
    match scope
    case InDefault => BgpIsBranch(c.view, None, ts);
    case InNamed(g) =>
      if g in c.view.GraphNames() {
        BgpIsBranch(c.view, Some(g), ts);
      } else {
        NoSuchGraph(c.view, g, ts[0]);
      }
    case InEach(v) => BgpInEach(c, v, ts);
  }

  lemma BgpOne(view: View, active: Option<Term>, t: TriplePattern)
    ensures BgpBag(view, active, [t]) == TripleBag(view, t, ActiveScope(active))
  {
    var ts := [t];
    assert ts[1..] == [];
    assert BgpBag(view, active, ts[1..]) == [map[]];
    JoinIdentity(TripleBag(view, t, ActiveScope(active)));
  }

  lemma BgpParts(c: Context, active: Option<Term>, ts: seq<TriplePattern>)
    requires ts != []
    ensures Eval(c, active, Bgp(ts)) == Eval(c, active, Join(Bgp([ts[0]]), Bgp(ts[1..])))
  {
    BgpOne(c.view, active, ts[0]);
  }

  lemma OneInEach(c: Context, v: Var, t: TriplePattern)
    ensures Same(EvalIn(c, InEach(v), Bgp([t])), TripleBag(c.view, t, InEach(v)))
  {
    var names := Listing(c.view.GraphNames());
    var f, h := EvalAt(c, Bgp([t])), TripleAt(c.view, t);
    EvalEachIsEach(c, names, v, Bgp([t]));
    forall g | g in names
      ensures f(g) == h(g)
    {
      TripleOnly(c, g, t);
    }
    EqualEach(names, v, f, h);
    EachTriple(c.view, v, t);
  }

  lemma TripleOnly(c: Context, g: Term, t: TriplePattern)
    ensures EvalAt(c, Bgp([t]))(g) == TripleAt(c.view, t)(g)
  {
    BgpOne(c.view, Some(g), t);
  }

  lemma BgpSplit(c: Context, v: Var, ts: seq<TriplePattern>)
    requires ts != []
    ensures EvalIn(c, InEach(v), Bgp(ts)) == EvalIn(c, InEach(v), Join(Bgp([ts[0]]), Bgp(ts[1..])))
  {
    var names, split := Listing(c.view.GraphNames()), Join(Bgp([ts[0]]), Bgp(ts[1..]));
    EvalEachIsEach(c, names, v, Bgp(ts));
    EvalEachIsEach(c, names, v, split);
    forall g | g in names
      ensures EvalAt(c, Bgp(ts))(g) == EvalAt(c, split)(g)
    {
      BgpParts(c, Some(g), ts);
    }
    EqualEach(names, v, EvalAt(c, Bgp(ts)), EvalAt(c, split));
  }

  lemma {:induction false} BgpInEach(c: Context, v: Var, ts: seq<TriplePattern>)
    requires ts != []
    ensures Same(EvalIn(c, InEach(v), Bgp(ts)), BranchConj(c.view, TaggedWith(ts, InEach(v))))
  {
    var k, tagged := TripleBag(c.view, ts[0], InEach(v)), TaggedWith(ts, InEach(v));
    OneInEach(c, v, ts[0]);
    assert tagged[1..] == TaggedWith(ts[1..], InEach(v));
    if |ts| == 1 {
      assert ts == [ts[0]];
      JoinIdentity(k);
    } else {
      BgpInEach(c, v, ts[1..]);
      BgpSplit(c, v, ts);
      EvalInJoin(c, InEach(v), Bgp([ts[0]]), Bgp(ts[1..]));
      JoinSame(EvalIn(c, InEach(v), Bgp([ts[0]])), k, EvalIn(c, InEach(v), Bgp(ts[1..])), BranchConj(c.view, tagged[1..]));
    }
  }

  // --- Left joins under GRAPH ?v -----------------------------------------------------------------------

  // A row that binds ?v, joined with rows that do not, is the row without ?v joined, and ?v bound after.
  lemma NamedFirst(v: Var, g: Term, x: Solution, ys: seq<Solution>)
    requires Compatible(map[v := g], x)
    ensures JoinOne(map[v := g] + x, ys) == JoinOne(map[v := g], JoinOne(x, ys))
  {
    MergeThenJoin(map[v := g], x, ys);
    JoinSingle(map[v := g] + x, ys);
  }

  predicate AlikeAt(v: Var, x: Solution, t: Solution) {
    (v in x <==> v in t) && (v in x ==> t[v] == x[v])
  }

  lemma OneVariable(v: Var, g: Term, t: Solution)
    ensures Compatible(map[v := g], t) <==> v in t ==> t[v] == g
  {
    var m: Solution := map[v := g];
    if Compatible(m, t) && v in t {
      assert m[v] == t[v];
    }
  }

  lemma {:induction false} NamedAll(v: Var, g: Term, x: Solution, ts: seq<Solution>)
    requires forall t :: t in ts ==> AlikeAt(v, x, t)
    ensures JoinOne(map[v := g], ts) == [] <==> ts == [] || !Compatible(map[v := g], x)
  {
    if ts != [] {
      NamedAll(v, g, x, ts[1..]);
      assert AlikeAt(v, x, ts[0]);
      OneVariable(v, g, ts[0]);
      OneVariable(v, g, x);
    }
  }

  lemma MatchesKeep(v: Var, x: Solution, ys: seq<Solution>, p: Solution -> bool)
    requires forall y :: y in ys ==> v !in y
    ensures forall t :: t in Select(JoinOne(x, ys), p) ==> AlikeAt(v, x, t)
  {
    forall t | t in Select(JoinOne(x, ys), p)
      ensures AlikeAt(v, x, t)
    {
      SelectMember(JoinOne(x, ys), p, t);
      JoinOneMember(x, ys, t);
    }
  }

  lemma NamedCondition(r: Rules, condition: Option<Expr>, v: Var, g: Term, xs: seq<Solution>)
    requires condition.Some? ==> Inspectable(condition.value) && v !in Needs(condition.value)
    ensures JoinOne(map[v := g], Select(xs, KeepsIf(r, condition))) == Select(JoinOne(map[v := g], xs), KeepsIf(r, condition))
  {
    var joined := JoinOne(map[v := g], xs);
    if condition.Some? {
      NamedFilter(r, condition.value, v, g, xs);
      SelectEqual(xs, KeepsIf(r, condition), Keeps(r, condition.value));
      SelectEqual(joined, KeepsIf(r, condition), Keeps(r, condition.value));
    } else {
      SelectEvery(xs, KeepsIf(r, condition));
      SelectEvery(joined, KeepsIf(r, condition));
    }
  }

  // One row of one turn, extended inside the block or outside it.
  lemma LeftRow(r: Rules, condition: Option<Expr>, names: seq<Term>, v: Var, f: Term -> seq<Solution>, g: Term, x: Solution)
    requires NoRepeats(names) && g in names && forall y :: y in f(g) ==> v !in y
    requires condition.Some? ==> Inspectable(condition.value) && v !in Needs(condition.value)
    ensures FlatMap(Merge(map[v := g], x), OrAlone(r, Each(names, v, f), condition)) == JoinOne(map[v := g], OrAlone(r, f(g), condition)(x))
  {
    var m: Solution := map[v := g];
    var matches := Select(JoinOne(x, f(g)), KeepsIf(r, condition));
    MatchesKeep(v, x, f(g), KeepsIf(r, condition));
    NamedAll(v, g, x, matches);
    NamedAll(v, g, x, [x]);
    if Compatible(m, x) {
      NamedRow(names, v, f, g, x);
      NamedCondition(r, condition, v, g, JoinOne(x, f(g)));
      FlatMapOne(m + x, OrAlone(r, Each(names, v, f), condition));
      FlatMapOne(x, Against(m));
    }
  }

  lemma NamedRow(names: seq<Term>, v: Var, f: Term -> seq<Solution>, g: Term, x: Solution)
    requires NoRepeats(names) && g in names && Compatible(map[v := g], x)
    ensures JoinOne(map[v := g] + x, Each(names, v, f)) == JoinOne(map[v := g], JoinOne(x, f(g)))
  {
    var s := map[v := g] + x;
    assert s[v] == g;
    OneGraph(s, names, v, f);
    NamedTwice(s, f(g), v, g);
    NamedFirst(v, g, x, f(g));
  }

  lemma {:induction false} LeftTurn(r: Rules, condition: Option<Expr>, names: seq<Term>, v: Var, f: Term -> seq<Solution>, g: Term, xs: seq<Solution>)
    requires NoRepeats(names) && g in names && forall y :: y in f(g) ==> v !in y
    requires condition.Some? ==> Inspectable(condition.value) && v !in Needs(condition.value)
    ensures FlatMap(JoinOne(map[v := g], xs), OrAlone(r, Each(names, v, f), condition))
         == JoinOne(map[v := g], FlatMap(xs, OrAlone(r, f(g), condition)))
  {
    if xs != [] {
      var m, outside, inside := map[v := g], OrAlone(r, Each(names, v, f), condition), OrAlone(r, f(g), condition);
      LeftTurn(r, condition, names, v, f, g, xs[1..]);
      LeftRow(r, condition, names, v, f, g, xs[0]);
      FlatMapAppend(Merge(m, xs[0]), JoinOne(m, xs[1..]), outside);
      JoinOneAppend(m, inside(xs[0]), FlatMap(xs[1..], inside));
    }
  }

  ghost function LeftJoinedAt(r: Rules, f: Term -> seq<Solution>, h: Term -> seq<Solution>, condition: Option<Expr>): Term -> seq<Solution> {
    g => FlatMap(f(g), OrAlone(r, h(g), condition))
  }

  lemma {:induction false} EachLeftJoin(r: Rules, condition: Option<Expr>, names: seq<Term>, all: seq<Term>, v: Var,
                                        f: Term -> seq<Solution>, h: Term -> seq<Solution>)
    requires NoRepeats(all) && forall g :: g in names ==> g in all && forall y :: y in h(g) ==> v !in y
    requires condition.Some? ==> Inspectable(condition.value) && v !in Needs(condition.value)
    ensures FlatMap(Each(names, v, f), OrAlone(r, Each(all, v, h), condition)) == Each(names, v, LeftJoinedAt(r, f, h, condition))
  {
    if names != [] {
      EachLeftJoin(r, condition, names[1..], all, v, f, h);
      LeftTurn(r, condition, all, v, h, names[0], f(names[0]));
      FlatMapAppend(Named(v, f)(names[0]), Each(names[1..], v, f), OrAlone(r, Each(all, v, h), condition));
    }
  }

  // A left join inside GRAPH ?v is the left join of what the two sides are inside it, when the right side does not
  // bind ?v and the condition does not ask about it.
  lemma EvalInLeftJoin(c: Context, scope: Scope, l: Pattern, r: Pattern, condition: Option<Expr>)
    requires scope.InEach? ==> condition.Some? ==> Inspectable(condition.value) && scope.v !in Needs(condition.value)
    requires scope.InEach? ==> forall g, y :: y in EvalAt(c, r)(g) ==> scope.v !in y
    ensures EvalIn(c, scope, LeftJoin(l, r, condition))
         == FlatMap(EvalIn(c, scope, l), OrAlone(c.rules, EvalIn(c, scope, r), condition))
  {
    if scope.InEach? {
      var names, f, h, both := Listing(c.view.GraphNames()), EvalAt(c, l), EvalAt(c, r), EvalAt(c, LeftJoin(l, r, condition));
      ListingNoRepeats(c.view.GraphNames());
      EachLeftJoin(c.rules, condition, names, names, scope.v, f, h);
      forall g | g in names
        ensures both(g) == LeftJoinedAt(c.rules, f, h, condition)(g)
      {
        LeftJoinAt(c, g, l, r, condition);
      }
      EqualEach(names, scope.v, both, LeftJoinedAt(c.rules, f, h, condition));
      EachThree(c, names, scope.v, l, r, LeftJoin(l, r, condition));
    }
  }

  lemma LeftJoinAt(c: Context, g: Term, l: Pattern, r: Pattern, condition: Option<Expr>)
    ensures EvalAt(c, LeftJoin(l, r, condition))(g) == LeftJoinedAt(c.rules, EvalAt(c, l), EvalAt(c, r), condition)(g)
  {
  }
}
