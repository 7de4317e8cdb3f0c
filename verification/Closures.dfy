/**
 What the walk finds is what section 18.4 of SPARQL 1.1 Query says a closure connects, whichever end
 it starts from; and binding a pattern position by position is merging with the pattern's own
 solution.
 */
module Lifting {
  import opened Options
  import opened Bags
  import opened Rdf
  import opened Solutions
  import opened Algebra

  // `fromS` is what binding reached from `s`, `alone` what the same binding reached from nothing.
  ghost predicate Lifted(s: Solution, fromS: Option<Solution>, alone: Option<Solution>) {
    fromS == if alone.Some? && Compatible(s, alone.value) then Some(s + alone.value) else None
  }

  lemma LiftStart(s: Solution)
    ensures Lifted(s, Some(s), Some(map[]))
  {
    MergeEmpty(s);
  }

  lemma LiftBind(s: Solution, fromS: Option<Solution>, alone: Option<Solution>, at: Position, t: Term)
    requires Lifted(s, fromS, alone)
    ensures Lifted(s, BindTo(fromS, at, t), BindTo(alone, at, t))
  {
    if alone.Some? && at.V? && at.v !in alone.value {
      var n := alone.value[at.v := t];
      assert BindTo(alone, at, t) == Some(n);
      if Compatible(s, alone.value) {
        if at.v in s {
          assert Compatible(s, n) <==> s[at.v] == t;
          if s[at.v] == t {
            assert s + n == s + alone.value;
          }
        } else {
          assert Compatible(s, n);
          assert s + n == (s + alone.value)[at.v := t];
        }
      } else {
        assert !Compatible(s, n) by {
          var v :| v in s && v in alone.value && s[v] != alone.value[v];
          assert v in n && n[v] == alone.value[v];
        }
      }
    } else if alone.Some? && at.V? && Compatible(s, alone.value) {
      assert (s + alone.value)[at.v] == alone.value[at.v];
    }
  }

  lemma LiftedBag(s: Solution, fromS: Option<Solution>, alone: Option<Solution>)
    requires Lifted(s, fromS, alone)
    ensures AsBag(fromS) == JoinOne(s, AsBag(alone))
  {
    if alone.Some? {
      FlatMapOne(alone.value, Against(s));
    }
  }

  lemma LiftScope(s: Solution, scope: Scope, graph: Option<Term>)
    ensures Lifted(s, BindScope(s, scope, graph), BindScope(map[], scope, graph))
  {
    LiftStart(s);
    if scope.InEach? && graph.Some? {
      LiftBind(s, Some(s), Some(map[]), V(scope.v), graph.value);
    }
  }

  lemma LiftMatch(s: Solution, t: TriplePattern, scope: Scope, q: Quad)
    ensures Lifted(s, MatchFrom(s, t, scope, q), MatchFrom(map[], t, scope, q))
  {
    var a, a' := BindScope(s, scope, q.graph), BindScope(map[], scope, q.graph);
    LiftScope(s, scope, q.graph);
    LiftBind(s, a, a', t.s, q.s);
    var b, b' := BindTo(a, t.s, q.s), BindTo(a', t.s, q.s);
    LiftBind(s, b, b', t.p, q.p);
    LiftBind(s, BindTo(b, t.p, q.p), BindTo(b', t.p, q.p), t.o, q.o);
  }

  lemma LiftEnds(s: Solution, source: Position, target: Position, x: Term, y: Term)
    ensures Lifted(s, EndsFrom(s, source, target, x, y), EndsFrom(map[], source, target, x, y))
  {
    LiftStart(s);
    LiftBind(s, Some(s), Some(map[]), source, x);
    LiftBind(s, BindTo(Some(s), source, x), BindTo(Some(map[]), source, x), target, y);
  }

  lemma {:induction false} LiftRow(s: Solution, fromS: Option<Solution>, alone: Option<Solution>, vars: seq<Var>, row: seq<Option<Term>>)
    requires Lifted(s, fromS, alone)
    ensures Lifted(s, RowFrom(fromS, vars, row), RowFrom(alone, vars, row))
    decreases |vars|
  {
    if vars != [] && row != [] {
      if row[0].Some? {
        LiftBind(s, fromS, alone, V(vars[0]), row[0].value);
      }
      var f := if row[0].None? then fromS else BindTo(fromS, V(vars[0]), row[0].value);
      var a := if row[0].None? then alone else BindTo(alone, V(vars[0]), row[0].value);
      RowNone(vars[1..], row[1..]);
      LiftRow(s, f, a, vars[1..], row[1..]);
    }
  }

  lemma RowNone(vars: seq<Var>, row: seq<Option<Term>>)
    ensures RowFrom(None, vars, row) == None
  {
  }

  // The loop over a scan, started from the bound solution, is the join with the pattern's bag.
  lemma TripleJoin(view: View, s: Solution, t: TriplePattern, scope: Scope)
    ensures FlatMap(view.quads, Matching(s, t, scope)) == JoinOne(s, TripleBag(view, t, scope))
  {
    JoinOneFlatMap(s, view.quads, Matching(map[], t, scope), Matching(s, t, scope)) by {
      forall q
        ensures Matching(s, t, scope)(q) == JoinOne(s, Matching(map[], t, scope)(q))
      {
        LiftMatch(s, t, scope, q);
        LiftedBag(s, MatchFrom(s, t, scope, q), MatchFrom(map[], t, scope, q));
      }
    }
  }

  lemma ValuesJoin(s: Solution, vars: seq<Var>, rows: seq<seq<Option<Term>>>)
    ensures FlatMap(rows, RowBag(s, vars)) == JoinOne(s, ValuesBag(vars, rows))
  {
    JoinOneFlatMap(s, rows, RowBag(map[], vars), RowBag(s, vars)) by {
      forall row
        ensures RowBag(s, vars)(row) == JoinOne(s, RowBag(map[], vars)(row))
      {
        LiftStart(s);
        LiftRow(s, Some(s), Some(map[]), vars, row);
        LiftedBag(s, RowFrom(Some(s), vars, row), RowFrom(Some(map[]), vars, row));
      }
    }
  }

  lemma {:induction false} JoinOneFlatMap<A(!new)>(s: Solution, xs: seq<A>, f: A -> seq<Solution>, g: A -> seq<Solution>)
    requires forall x :: g(x) == JoinOne(s, f(x))
    ensures FlatMap(xs, g) == JoinOne(s, FlatMap(xs, f))
  {
    if xs != [] {
      JoinOneFlatMap(s, xs[1..], f, g);
      JoinOneAppend(s, f(xs[0]), FlatMap(xs[1..], f));
    }
  }
}

module Closures {
  import opened Options
  import opened Bags
  import opened Rdf
  import opened Solutions
  import opened Algebra
  import opened Items
  import opened Scans
  import opened Reach
  import opened Lifting

  function GraphKeyOf(scope: Scope): GraphKey {
    match scope
    case InDefault => DefaultGraph
    case InNamed(g) => NamedGraph(g)
    case InEach(_) => AnyNamed
  }

  function WalkFor(view: View, cl: ClosureItem, fromSource: bool): Graphwalk {
    Graphwalk(view, GraphOf(cl.scope), cl.link, DirectionOf(fromSource, cl.inverse))
  }

  function InnerOf(cl: ClosureItem): PathExpr {
    if cl.inverse then Reverse(Link(cl.link)) else Link(cl.link)
  }

  lemma HopIsInner(view: View, cl: ClosureItem, fromSource: bool, x: Term, y: Term)
    ensures WalkFor(view, cl, fromSource).Hop(x, y)
        <==> if fromSource then Linked(view, GraphOf(cl.scope), InnerOf(cl), x, y)
             else Linked(view, GraphOf(cl.scope), InnerOf(cl), y, x)
  {
    if cl.inverse {
      assert Linked(view, GraphOf(cl.scope), InnerOf(cl), x, y) == Linked(view, GraphOf(cl.scope), Link(cl.link), y, x);
      assert Linked(view, GraphOf(cl.scope), InnerOf(cl), y, x) == Linked(view, GraphOf(cl.scope), Link(cl.link), x, y);
    }
  }

  function Turned(w: seq<Term>): seq<Term> {
    seq(|w|, i requires 0 <= i < |w| => w[|w| - 1 - i])
  }

  // A walk is a chain of the path expression, read in the direction the walk was made.
  ghost predicate Chain(view: View, cl: ClosureItem, w: seq<Term>) {
    |w| >= 1 && forall k :: 0 <= k < |w| - 1 ==> Crossed(view, cl, w[k], w[k + 1])
  }

  lemma WalkIsChain(view: View, cl: ClosureItem, fromSource: bool, w: seq<Term>)
    ensures WalkFor(view, cl, fromSource).Walk(w) <==> Chain(view, cl, if fromSource then w else Turned(w))
  {
    forall k | 0 <= k < |w| - 1
      ensures WalkFor(view, cl, fromSource).Hop(w[k], w[k + 1])
          <==> if fromSource then Crossed(view, cl, w[k], w[k + 1]) else Crossed(view, cl, w[k + 1], w[k])
    {
      HopIsInner(view, cl, fromSource, w[k], w[k + 1]);
    }
    if !fromSource && |w| >= 1 {
      WalkTurned(view, cl, w);
    }
  }

  ghost predicate Crossed(view: View, cl: ClosureItem, x: Term, y: Term) {
    Linked(view, GraphOf(cl.scope), InnerOf(cl), x, y)
  }

  lemma WalkTurned(view: View, cl: ClosureItem, w: seq<Term>)
    requires |w| >= 1
    requires forall k :: 0 <= k < |w| - 1 ==> (WalkFor(view, cl, false).Hop(w[k], w[k + 1]) <==> Crossed(view, cl, w[k + 1], w[k]))
    ensures WalkFor(view, cl, false).Walk(w) <==> Chain(view, cl, Turned(w))
  {
    var g, v := WalkFor(view, cl, false), Turned(w);
    if g.Walk(w) {
      forall k | 0 <= k < |v| - 1
        ensures Crossed(view, cl, v[k], v[k + 1])
      {
        var j := |w| - 2 - k;
        assert g.Hop(w[j], w[j + 1]);
      }
    }
    if Chain(view, cl, v) {
      forall k | 0 <= k < |w| - 1
        ensures g.Hop(w[k], w[k + 1])
      {
        var j := |w| - 2 - k;
        assert Crossed(view, cl, v[j], v[j + 1]);
      }
    }
  }

  ghost predicate ChainJoins(view: View, cl: ClosureItem, w: seq<Term>, x: Term, y: Term) {
    Chain(view, cl, w) && w[0] == x && w[|w| - 1] == y && Allowed(cl.hops, |w| - 1)
  }

  lemma LinkedHasChain(view: View, cl: ClosureItem, x: Term, y: Term) returns (w: seq<Term>)
    requires Linked(view, GraphOf(cl.scope), PathOf(cl), x, y)
    ensures ChainJoins(view, cl, w, x, y)
  {
    var g, e := GraphOf(cl.scope), InnerOf(cl);
    match cl.hops
    case AnyNumber =>
      assert Linked(view, g, ZeroOrMore(e), x, y);
      w :| |w| >= 1 && w[0] == x && w[|w| - 1] == y
        && forall k :: 0 <= k < |w| - 1 ==> Linked(view, g, e, w[k], w[k + 1]);
    case AtLeastOne =>
      assert Linked(view, g, OneOrMore(e), x, y);
      w :| |w| >= 2 && w[0] == x && w[|w| - 1] == y
        && forall k :: 0 <= k < |w| - 1 ==> Linked(view, g, e, w[k], w[k + 1]);
    case AtMostOne =>
      w := if x == y then [x] else [x, y];
  }

  lemma ChainIsLinked(view: View, cl: ClosureItem, w: seq<Term>, x: Term, y: Term)
    requires ChainJoins(view, cl, w, x, y)
    ensures Linked(view, GraphOf(cl.scope), PathOf(cl), x, y)
  {
    var g, e := GraphOf(cl.scope), InnerOf(cl);
    match cl.hops
    case AnyNumber =>
      assert Linked(view, g, ZeroOrMore(e), x, y);
    case AtLeastOne =>
      assert Linked(view, g, OneOrMore(e), x, y);
    case AtMostOne =>
      assert |w| == 2 ==> Linked(view, g, e, w[0], w[1]);
  }

  lemma AnswerIsLinked(view: View, cl: ClosureItem, fromSource: bool, seed: Term, y: Term)
    requires WalkFor(view, cl, fromSource).Answers(cl.hops, [seed], y)
    ensures Linked(view, GraphOf(cl.scope), PathOf(cl), if fromSource then seed else y, if fromSource then y else seed)
  {
    var g := WalkFor(view, cl, fromSource);
    var w :| g.Walk(w) && w[0] in [seed] && w[|w| - 1] == y && Allowed(cl.hops, |w| - 1);
    WalkIsChain(view, cl, fromSource, w);
    ChainIsLinked(view, cl, if fromSource then w else Turned(w),
                  if fromSource then seed else y, if fromSource then y else seed);
  }

  lemma LinkedIsAnswer(view: View, cl: ClosureItem, fromSource: bool, seed: Term, y: Term)
    requires Linked(view, GraphOf(cl.scope), PathOf(cl), if fromSource then seed else y, if fromSource then y else seed)
    ensures WalkFor(view, cl, fromSource).Answers(cl.hops, [seed], y)
  {
    var g := WalkFor(view, cl, fromSource);
    var v := LinkedHasChain(view, cl, if fromSource then seed else y, if fromSource then y else seed);
    var w := if fromSource then v else Turned(v);
    assert Turned(Turned(v)) == v;
    WalkIsChain(view, cl, fromSource, w);
    assert g.Walk(w) && w[0] in [seed] && w[|w| - 1] == y && Allowed(cl.hops, |w| - 1);
  }

  // Starting from either end answers the same question.
  lemma WalkAnswers(view: View, cl: ClosureItem, fromSource: bool, seed: Term, y: Term)
    ensures WalkFor(view, cl, fromSource).Answers(cl.hops, [seed], y)
       <==> if fromSource then Linked(view, GraphOf(cl.scope), PathOf(cl), seed, y)
            else Linked(view, GraphOf(cl.scope), PathOf(cl), y, seed)
  {
    if WalkFor(view, cl, fromSource).Answers(cl.hops, [seed], y) {
      AnswerIsLinked(view, cl, fromSource, seed, y);
    }
    if Linked(view, GraphOf(cl.scope), PathOf(cl), if fromSource then seed else y, if fromSource then y else seed) {
      LinkedIsAnswer(view, cl, fromSource, seed, y);
    }
  }

  // --- The rows a walk yields ------------------------------------------------------------------------

  // The term an end stands for once `s` is bound.
  function EndOf(s: Solution, at: Position): Option<Term> {
    match at
    case T(t) => Some(t)
    case V(v) => if v in s then Some(s[v]) else None
  }

  // One row per node reached, binding the far end to it.
  function FarRows(s: Solution, far: Position): Term -> seq<Solution> {
    y => AsBag(BindTo(Some(s), far, y))
  }

  // An end of a crossed edge is a node; a chain that crosses nothing stays where it is.
  lemma ChainEnds(view: View, cl: ClosureItem, w: seq<Term>)
    requires Chain(view, cl, w)
    ensures |w| == 1 || (w[0] in view.Nodes(GraphOf(cl.scope)) && w[|w| - 1] in view.Nodes(GraphOf(cl.scope)))
  {
    if |w| >= 2 {
      LinkNodes(view, cl, w[0], w[1]);
      LinkNodes(view, cl, w[|w| - 2], w[|w| - 1]);
    }
  }

  lemma LinkNodes(view: View, cl: ClosureItem, x: Term, y: Term)
    requires Linked(view, GraphOf(cl.scope), InnerOf(cl), x, y)
    ensures x in view.Nodes(GraphOf(cl.scope)) && y in view.Nodes(GraphOf(cl.scope))
  {
    var g := GraphOf(cl.scope);
    if cl.inverse {
      assert Linked(view, g, Link(cl.link), y, x);
      var q := Quad(y, cl.link, x, g);
      assert q in view.quads;
    } else {
      var q := Quad(x, cl.link, y, g);
      assert q in view.quads;
    }
  }

  predicate IsZeroLength(h: Hops) {
    h.AnyNumber? || h.AtMostOne?
  }

  // Whether a walk may start at a bound term: with variables at both ends a path of no edges holds
  // only at nodes of the graph, with a constant at either end it holds regardless.
  ghost predicate Admissible(view: View, cl: ClosureItem, seed: Term) {
    IsZeroLength(cl.hops) && cl.source.V? && cl.target.V? ==> seed in view.Nodes(GraphOf(cl.scope))
  }

  // A pair the closure connects lies in the range the algebra gives it exactly when its known end is
  // admissible.
  lemma LinkedInRange(view: View, cl: ClosureItem, s: Solution, x: Term, y: Term)
    requires Linked(view, GraphOf(cl.scope), PathOf(cl), x, y)
    requires EndsFrom(s, cl.source, cl.target, x, y).Some?
    ensures x in PathRange(view, GraphOf(cl.scope), cl.source, cl.target)
         && y in PathRange(view, GraphOf(cl.scope), cl.source, cl.target)
       <==> Admissible(view, cl, x)
    ensures Admissible(view, cl, x) <==> Admissible(view, cl, y)
  {
    var w := LinkedHasChain(view, cl, x, y);
    ChainEnds(view, cl, w);
  }

  lemma ClosureMember(view: View, cl: ClosureItem, s: Solution, t: Solution)
    ensures t in JoinOne(s, ItemBag(view, ClosureStep(cl))) <==>
            exists x, y :: Linked(view, GraphOf(cl.scope), PathOf(cl), x, y) && Admissible(view, cl, x)
                        && EndsFrom(s, cl.source, cl.target, x, y) == Some(t)
  {
    var g, e := GraphOf(cl.scope), PathOf(cl);
    var k := ClosureSet(view, g, cl.source, e, cl.target);
    JoinOneMember(s, ItemBag(view, ClosureStep(cl)), t);
    if t in JoinOne(s, ItemBag(view, ClosureStep(cl))) {
      var b :| b in k && Compatible(s, b) && t == s + b;
      var x, y :| x in PathRange(view, g, cl.source, cl.target) && y in PathRange(view, g, cl.source, cl.target)
               && Linked(view, g, e, x, y) && EndsFrom(map[], cl.source, cl.target, x, y) == Some(b);
      LiftEnds(s, cl.source, cl.target, x, y);
      LinkedInRange(view, cl, s, x, y);
    }
    if exists x, y :: Linked(view, g, e, x, y) && Admissible(view, cl, x)
                   && EndsFrom(s, cl.source, cl.target, x, y) == Some(t) {
      var x, y :| Linked(view, g, e, x, y) && Admissible(view, cl, x)
               && EndsFrom(s, cl.source, cl.target, x, y) == Some(t);
      LiftEnds(s, cl.source, cl.target, x, y);
      LinkedInRange(view, cl, s, x, y);
      var b := EndsFrom(map[], cl.source, cl.target, x, y).value;
      assert b in k && Compatible(s, b) && t == s + b;
    }
  }

  // The join's rows of a closure never repeat: a row determines the pair it came from.
  lemma ClosureNoRepeats(view: View, cl: ClosureItem, s: Solution)
    ensures NoRepeats(JoinOne(s, ItemBag(view, ClosureStep(cl))))
  {
    var k := ItemBag(view, ClosureStep(cl));
    var pairs := ClosureSet(view, GraphOf(cl.scope), cl.source, PathOf(cl), cl.target);
    assert (set x | x in k) == pairs;
    NoRepeatsIsSet(k);
    forall b, b', t | b in k && b' in k && t in Against(s)(b) && t in Against(s)(b')
      ensures b == b'
    {
      ItemBinds(view, ClosureStep(cl), b);
      ItemBinds(view, ClosureStep(cl), b');
      assert b.Keys == b'.Keys;
      assert s + b == s + b';
      forall v | v in b
        ensures b[v] == b'[v]
      {
        assert (s + b)[v] == (s + b')[v];
      }
    }
    FlatMapNoRepeats(k, Against(s));
  }

  lemma BindFarEnd(cl: ClosureItem, fromSource: bool, s: Solution, seed: Term, y: Term)
    requires EndOf(s, if fromSource then cl.source else cl.target) == Some(seed)
    ensures var x, z := if fromSource then seed else y, if fromSource then y else seed;
            EndsFrom(s, cl.source, cl.target, x, z) == BindTo(Some(s), if fromSource then cl.target else cl.source, y)
  {
    var x, z := if fromSource then seed else y, if fromSource then y else seed;
    if fromSource {
      assert BindTo(Some(s), cl.source, x) == Some(s);
    } else {
      var b := BindTo(Some(s), cl.source, x);
      if b.Some? && cl.target.V? {
        assert b.value[cl.target.v] == seed;
      }
    }
  }

  // A row is the closure's exactly when it comes from a node the walk answers.
  lemma WalkRow(view: View, cl: ClosureItem, fromSource: bool, s: Solution, seed: Term, t: Solution)
    requires EndOf(s, if fromSource then cl.source else cl.target) == Some(seed)
    requires Admissible(view, cl, seed)
    ensures t in JoinOne(s, ItemBag(view, ClosureStep(cl))) <==>
            exists y :: WalkFor(view, cl, fromSource).Answers(cl.hops, [seed], y)
                     && BindTo(Some(s), if fromSource then cl.target else cl.source, y) == Some(t)
  {
    var far := if fromSource then cl.target else cl.source;
    var g := WalkFor(view, cl, fromSource);
    ClosureMember(view, cl, s, t);
    if exists y :: g.Answers(cl.hops, [seed], y) && BindTo(Some(s), far, y) == Some(t) {
      var y :| g.Answers(cl.hops, [seed], y) && BindTo(Some(s), far, y) == Some(t);
      var x, z := if fromSource then seed else y, if fromSource then y else seed;
      WalkAnswers(view, cl, fromSource, seed, y);
      BindFarEnd(cl, fromSource, s, seed, y);
      LinkedInRange(view, cl, s, x, z);
      assert EndsFrom(s, cl.source, cl.target, x, z) == Some(t);
    }
    if t in JoinOne(s, ItemBag(view, ClosureStep(cl))) {
      var x, z :| Linked(view, GraphOf(cl.scope), PathOf(cl), x, z) && Admissible(view, cl, x)
               && EndsFrom(s, cl.source, cl.target, x, z) == Some(t);
      var y := if fromSource then z else x;
      KnownEnd(cl, fromSource, s, seed, x, z);
      WalkAnswers(view, cl, fromSource, seed, y);
      BindFarEnd(cl, fromSource, s, seed, y);
      assert g.Answers(cl.hops, [seed], y) && BindTo(Some(s), far, y) == Some(t);
    }
  }

  // Nodes that account for every row of the closure, each once. `reached` need not list every answer:
  // with the far end known, the one that meets it is enough.
  lemma WalkRows(view: View, cl: ClosureItem, fromSource: bool, s: Solution, seed: Term, reached: seq<Term>)
    requires EndOf(s, if fromSource then cl.source else cl.target) == Some(seed)
    requires Admissible(view, cl, seed)
    requires NoRepeats(reached)
    requires var far := if fromSource then cl.target else cl.source;
             forall y :: (EndOf(s, far).None? || EndOf(s, far) == Some(y)) ==>
               (y in reached <==> WalkFor(view, cl, fromSource).Answers(cl.hops, [seed], y))
    ensures Same(FlatMap(reached, FarRows(s, if fromSource then cl.target else cl.source)),
                 JoinOne(s, ItemBag(view, ClosureStep(cl))))
  {
    var far := if fromSource then cl.target else cl.source;
    var rows, k := FlatMap(reached, FarRows(s, far)), JoinOne(s, ItemBag(view, ClosureStep(cl)));
    ClosureNoRepeats(view, cl, s);
    forall x, y, b | x in reached && y in reached && b in FarRows(s, far)(x) && b in FarRows(s, far)(y)
      ensures x == y
    {
      if far.V? && far.v !in s {
        assert b[far.v] == x && b[far.v] == y;
      }
    }
    FlatMapNoRepeats(reached, FarRows(s, far));
    forall t
      ensures t in rows <==> t in k
    {
      ReachedRow(view, cl, fromSource, s, seed, reached, t);
    }
    NoRepeatsSame(rows, k);
  }

  lemma FarMember(s: Solution, far: Position, reached: seq<Term>, t: Solution)
    ensures t in FlatMap(reached, FarRows(s, far)) <==> exists y :: y in reached && BindTo(Some(s), far, y) == Some(t)
  {
    FlatMapMember(reached, FarRows(s, far), t);
    if t in FlatMap(reached, FarRows(s, far)) {
      var y :| y in reached && t in FarRows(s, far)(y);
      assert BindTo(Some(s), far, y) == Some(t);
    }
    if y :| y in reached && BindTo(Some(s), far, y) == Some(t) {
      assert t in FarRows(s, far)(y);
    }
  }

  lemma BoundEnd(s: Solution, far: Position, y: Term, t: Solution)
    requires BindTo(Some(s), far, y) == Some(t)
    ensures EndOf(s, far).None? || EndOf(s, far) == Some(y)
  {
  }

  lemma ReachedRow(view: View, cl: ClosureItem, fromSource: bool, s: Solution, seed: Term, reached: seq<Term>, t: Solution)
    requires EndOf(s, if fromSource then cl.source else cl.target) == Some(seed)
    requires Admissible(view, cl, seed)
    requires var far := if fromSource then cl.target else cl.source;
             forall y :: (EndOf(s, far).None? || EndOf(s, far) == Some(y)) ==>
               (y in reached <==> WalkFor(view, cl, fromSource).Answers(cl.hops, [seed], y))
    ensures t in FlatMap(reached, FarRows(s, if fromSource then cl.target else cl.source))
       <==> t in JoinOne(s, ItemBag(view, ClosureStep(cl)))
  {
    var far := if fromSource then cl.target else cl.source;
    var g := WalkFor(view, cl, fromSource);
    WalkRow(view, cl, fromSource, s, seed, t);
    FarMember(s, far, reached, t);
    forall y | BindTo(Some(s), far, y) == Some(t)
      ensures y in reached <==> g.Answers(cl.hops, [seed], y)
    {
      BoundEnd(s, far, y, t);
    }
  }

  lemma KnownEnd(cl: ClosureItem, fromSource: bool, s: Solution, seed: Term, x: Term, z: Term)
    requires EndOf(s, if fromSource then cl.source else cl.target) == Some(seed)
    requires EndsFrom(s, cl.source, cl.target, x, z).Some?
    ensures seed == if fromSource then x else z
  {
  }

  lemma NoHop(view: View, cl: ClosureItem, fromSource: bool, x: Term, y: Term)
    requires view.Valid() && cl.link !in view.dict
    ensures !WalkFor(view, cl, fromSource).Hop(x, y)
  {
    var g := GraphOf(cl.scope);
    var q, r := Quad(x, cl.link, y, g), Quad(y, cl.link, x, g);
    assert q !in view.quads && r !in view.quads;
  }

  // A predicate the dictionary has never seen crosses no edge.
  lemma NoEdges(view: View, cl: ClosureItem, fromSource: bool, seed: Term, y: Term)
    requires view.Valid() && cl.link !in view.dict
    ensures WalkFor(view, cl, fromSource).Answers(cl.hops, [seed], y) <==> IsZeroLength(cl.hops) && y == seed
  {
    var g := WalkFor(view, cl, fromSource);
    if g.Answers(cl.hops, [seed], y) {
      var w :| g.Walk(w) && w[0] in [seed] && w[|w| - 1] == y && Allowed(cl.hops, |w| - 1);
      if |w| >= 2 {
        NoHop(view, cl, fromSource, w[0], w[1]);
      }
    }
    if IsZeroLength(cl.hops) && y == seed {
      assert g.Walk([seed]) && [seed][0] in [seed];
    }
  }

  lemma NoEdgesNothing(view: View, cl: ClosureItem, s: Solution)
    requires view.Valid() && cl.link !in view.dict && !IsZeroLength(cl.hops)
    ensures JoinOne(s, ItemBag(view, ClosureStep(cl))) == []
  {
    var k := JoinOne(s, ItemBag(view, ClosureStep(cl)));
    if k != [] {
      ClosureMember(view, cl, s, k[0]);
      var x, y :| Linked(view, GraphOf(cl.scope), PathOf(cl), x, y)
               && EndsFrom(s, cl.source, cl.target, x, y) == Some(k[0]);
      NoEdges(view, cl, true, x, y);
      WalkAnswers(view, cl, true, x, y);
      assert false;
    }
  }

  // A term that is no node of the graph starts no walk at all.
  lemma InadmissibleNothing(view: View, cl: ClosureItem, fromSource: bool, s: Solution, seed: Term)
    requires EndOf(s, if fromSource then cl.source else cl.target) == Some(seed)
    requires !Admissible(view, cl, seed)
    ensures JoinOne(s, ItemBag(view, ClosureStep(cl))) == []
  {
    var k := JoinOne(s, ItemBag(view, ClosureStep(cl)));
    if k != [] {
      var t := k[0];
      ClosureMember(view, cl, s, t);
      var x, z :| Linked(view, GraphOf(cl.scope), PathOf(cl), x, z) && Admissible(view, cl, x)
               && EndsFrom(s, cl.source, cl.target, x, z) == Some(t);
      KnownEnd(cl, fromSource, s, seed, x, z);
      LinkedInRange(view, cl, s, x, z);
      assert false;
    }
  }
}
