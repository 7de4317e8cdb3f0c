/**
 The patterns the bind join takes (crates/holos-engine/src/bindjoin.rs, `collect`), said of the pattern alone: no items, no
 filters and no numbering.
 */
module Fragment {
  import opened Options
  import opened Rdf
  import opened Solutions
  import opened Expressions
  import opened Algebra
  import opened Items
  import opened Scopes
  import opened Planning
  import opened Designs
  import opened Answering

  // Anything but a quoted triple.
  predicate Unquoted(at: Position) {
    at.T? ==> !at.t.Quoted?
  }

  // `p*`, `p+`, `p?`, or one of them backwards.
  ghost predicate OnePredicateClosure(e: PathExpr) {
    exists p, i :: (i == Link(p) || i == Reverse(Link(p))) && (e == ZeroOrMore(i) || e == OneOrMore(i) || e == ZeroOrOne(i))
  }

  predicate PredicatesOnly(e: PathExpr) {
    match e
    case Link(_) => true
    case Alternative(a, b) => PredicatesOnly(a) && PredicatesOnly(b)
    case _ => false
  }

  // An expression and everything within it.
  ghost function Parts(e: Expr): set<Expr>
    decreases e
  {
    {e} + match e
          case And(a, b) => Parts(a) + Parts(b)
          case Equal(a, b) => Parts(a) + Parts(b)
          case SameTerm(a, b) => Parts(a) + Parts(b)
          case In(a, list) => Parts(a) + PartsEach(list)
          case Str(a) => Parts(a)
          case Lang(a) => Parts(a)
          case Fn(args, _) => PartsEach(args)
          case _ => {}
  }

  ghost function PartsEach(es: seq<Expr>): set<Expr>
    decreases es
  {
    if es == [] then {} else Parts(es[0]) + PartsEach(es[1..])
  }

  // An expression can be looked into when nothing in it is evaluated elsewhere, and needs the variables written in it.
  lemma {:induction false} InspectedExactly(e: Expr)
    ensures Inspectable(e) <==> forall x :: x in Parts(e) ==> !x.External?
    ensures forall v :: v in Needs(e) <==> Variable(v) in Parts(e)
    decreases e
  {
    match e
    case And(a, b) => InspectedExactly(a); InspectedExactly(b);
    case Equal(a, b) => InspectedExactly(a); InspectedExactly(b);
    case SameTerm(a, b) => InspectedExactly(a); InspectedExactly(b);
    case In(a, list) => InspectedExactly(a); InspectedEach(list);
    case Str(a) => InspectedExactly(a);
    case Lang(a) => InspectedExactly(a);
    case Fn(args, _) => InspectedEach(args);
    case _ => assert e in Parts(e);
  }

  lemma {:induction false} InspectedEach(es: seq<Expr>)
    ensures InspectableEach(es) <==> forall x :: x in PartsEach(es) ==> !x.External?
    ensures forall v :: v in NeedsEach(es) <==> Variable(v) in PartsEach(es)
    decreases es
  {
    if es != [] {
      InspectedExactly(es[0]);
      InspectedEach(es[1..]);
    }
  }

  // The expression can be decided over variables that are sure to be bound.
  ghost predicate DecidedOver(e: Expr, bound: set<Var>) {
    (forall x :: x in Parts(e) ==> !x.External?) && forall v :: Variable(v) in Parts(e) ==> v in bound
  }

  // A union's branch: triples, in one GRAPH block at most, or a union of such.
  ghost predicate BranchLike(p: Pattern, scope: Scope) {
    match p
    case Union(l, r) => BranchLike(l, scope) && BranchLike(r, scope)
    case Graph(name, i) => scope.InDefault? && BranchLike(i, ScopeOf(name))
    case Bgp(ts) => ts != [] && forall t :: t in ts ==> Unquoted(t.s) && Unquoted(t.o)
    case _ => false
  }

  ghost predicate InFragment(p: Pattern, scope: Scope) {
    match p
    case Bgp(ts) => forall t :: t in ts ==> Unquoted(t.s) && Unquoted(t.o)
    case Path(s, e, o) =>
      && Unquoted(o)
      && ((OnePredicateClosure(e) && Unquoted(s)) || (PredicatesOnly(e) && (s.T? ==> s.t.Iri?)))
    case Values(_, _) => true
    case Join(l, r) => InFragment(l, scope) && InFragment(r, scope)
    case LeftJoin(l, r, condition) =>
      && InFragment(l, scope) && InFragment(r, scope)
      && (condition.Some? ==> DecidedOver(condition.value, BoundOf(l, scope).certain + BoundOf(r, scope).certain))
    case Union(_, _) => BranchLike(p, scope)
    case Filter(e, i) => InFragment(i, scope) && DecidedOver(e, BoundOf(i, scope).certain)
    case Graph(name, i) => scope.InDefault? && InFragment(i, ScopeOf(name))
    case Project(i, keep) => InFragment(i, scope) && forall v :: v in BoundOf(i, scope).possible ==> v in keep
    case _ => false
  }

  lemma AllUsable(ts: seq<TriplePattern>)
    ensures (exists i :: 0 <= i < |ts| && !UsableTriple(ts[i])) <==> !(forall t :: t in ts ==> Unquoted(t.s) && Unquoted(t.o))
  {
  }

  lemma {:induction false} ConjunctsDecided(e: Expr, bound: set<Var>)
    ensures Hoistable(Conjuncts(e), bound) <==> DecidedOver(e, bound)
  {
    InspectedExactly(e);
    match e
    case And(a, b) =>
      ConjunctsDecided(a, bound);
      ConjunctsDecided(b, bound);
      InspectedExactly(a);
      InspectedExactly(b);
      HoistableBoth(Conjuncts(a), Conjuncts(b), bound);
    case _ => assert Conjuncts(e)[0] == e;
  }

  lemma HoistableBoth(xs: seq<Expr>, ys: seq<Expr>, bound: set<Var>)
    ensures Hoistable(xs + ys, bound) <==> Hoistable(xs, bound) && Hoistable(ys, bound)
  {
    var zs := xs + ys;
    assert forall i :: 0 <= i < |xs| ==> zs[i] == xs[i];
    assert forall j :: 0 <= j < |ys| ==> zs[|xs| + j] == ys[j];
  }

  lemma {:induction false} BranchesExactly(p: Pattern, scope: Scope)
    ensures UnionBranches(p, scope).Some? <==> BranchLike(p, scope)
  {
    match p
    case Union(l, r) => BranchesExactly(l, scope); BranchesExactly(r, scope);
    case Graph(name, i) => BranchesExactly(i, ScopeOf(name));
    case Bgp(ts) => AllUsable(ts);
    case _ =>
  }

  lemma {:induction false} AlternativesExactly(e: PathExpr, s: Position, o: Position, scope: Scope)
    ensures PathAlternatives(e, s, o, scope).Some? <==> PredicatesOnly(e) && (s.T? ==> s.t.Iri?) && Unquoted(o)
  {
    match e
    case Alternative(a, b) =>
      AlternativesExactly(a, s, o, scope);
      AlternativesExactly(b, s, o, scope);
    case _ =>
  }

  lemma ClosureExactly(s: Position, e: PathExpr, o: Position, scope: Scope)
    ensures ClosureItemOf(s, e, o, scope).Some? <==> OnePredicateClosure(e) && Unquoted(s) && Unquoted(o)
  {
    if e.ZeroOrMore? || e.OneOrMore? || e.ZeroOrOne? {
      var i := e.inner;
      if i.Link? {
        assert i == Link(i.p);
      }
      if i.Reverse? && i.inner.Link? {
        assert i == Reverse(Link(i.inner.p));
      }
    }
  }

  lemma {:induction false} PathExactly(s: Position, e: PathExpr, o: Position, scope: Scope, first: nat)
    ensures Collect(Path(s, e, o), scope, first).Some? <==> InFragment(Path(s, e, o), scope)
  {
    ClosureExactly(s, e, o, scope);
    AlternativesExactly(e, s, o, scope);
  }

  lemma {:induction false} OptionalExactly(l: Pattern, r: Pattern, condition: Option<Expr>, scope: Scope, first: nat)
    requires Collect(l, scope, first).Some? <==> InFragment(l, scope)
    requires Collect(r, scope, 0).Some? <==> InFragment(r, scope)
    ensures Collect(LeftJoin(l, r, condition), scope, first).Some? <==> InFragment(LeftJoin(l, r, condition), scope)
  {
    if condition.Some? {
      ConjunctsDecided(condition.value, BoundOf(r, scope).certain + BoundOf(l, scope).certain);
      assert BoundOf(r, scope).certain + BoundOf(l, scope).certain == BoundOf(l, scope).certain + BoundOf(r, scope).certain;
    }
  }

  // A pattern is taken exactly when it is in the fragment, wherever its filters would be numbered from.
  lemma {:induction false} CollectExactly(p: Pattern, scope: Scope, first: nat)
    ensures Collect(p, scope, first).Some? <==> InFragment(p, scope)
  {
    match p
    case Bgp(ts) => AllUsable(ts);
    case Path(s, e, o) => PathExactly(s, e, o, scope, first);
    case Join(l, r) =>
      CollectExactly(l, scope, first);
      var a := Collect(l, scope, first);
      if a.Some? {
        CollectExactly(r, scope, first + |a.value.filters|);
      }
    case LeftJoin(l, r, condition) =>
      CollectExactly(l, scope, first);
      CollectExactly(r, scope, 0);
      OptionalExactly(l, r, condition, scope, first);
    case Union(_, _) => BranchesExactly(p, scope);
    case Filter(e, i) =>
      CollectExactly(i, scope, first);
      ConjunctsDecided(e, BoundOf(i, scope).certain);
    case Graph(name, i) => CollectExactly(i, ScopeOf(name), first);
    case Project(i, _) => CollectExactly(i, scope, 0);
    case _ =>
  }

  // --- What is sure to be bound, and what may be -----------------------------------------------------------------

  // What is matched: triples, a path or a table, in some scope.
  datatype Leaf = Leaf(p: Pattern, scope: Scope)
  {
    // Whenever it matches.
    ghost predicate Fills(v: Var) {
      match p
      case Bgp(ts) => ts != [] && (scope == InEach(v) || exists t :: t in ts && (t.s == V(v) || t.p == V(v) || t.o == V(v)))
      case Path(s, _, o) => s == V(v) || o == V(v)
      case Values(vars, rows) => exists i :: 0 <= i < |vars| && vars[i] == v && ColumnFull(rows, i)
      case _ => false
    }

    ghost predicate Names(v: Var) {
      if p.Values? then v in p.vars else Fills(v)
    }
  }

  ghost function Leaves(p: Pattern, scope: Scope): set<Leaf> {
    match p
    case Bgp(_) => {Leaf(p, scope)}
    case Path(_, _, _) => {Leaf(p, scope)}
    case Values(_, _) => {Leaf(p, scope)}
    case Join(l, r) => Leaves(l, scope) + Leaves(r, scope)
    case LeftJoin(l, r, _) => Leaves(l, scope) + Leaves(r, scope)
    case Union(l, r) => Leaves(l, scope) + Leaves(r, scope)
    case Filter(_, i) => Leaves(i, scope)
    case Graph(name, i) => Leaves(i, ScopeOf(name))
    case Project(i, _) => Leaves(i, scope)
    case _ => {}
  }

  // The ways a solution can come about: one branch of each union and no optional side.
  ghost function Routes(p: Pattern, scope: Scope): set<set<Leaf>> {
    match p
    case Bgp(_) => {{Leaf(p, scope)}}
    case Path(_, _, _) => {{Leaf(p, scope)}}
    case Values(_, _) => {{Leaf(p, scope)}}
    case Join(l, r) => set x, y | x in Routes(l, scope) && y in Routes(r, scope) :: x + y
    case LeftJoin(l, _, _) => Routes(l, scope)
    case Union(l, r) => Routes(l, scope) + Routes(r, scope)
    case Filter(_, i) => Routes(i, scope)
    case Graph(name, i) => Routes(i, ScopeOf(name))
    case Project(i, _) => Routes(i, scope)
    case _ => {{}}
  }

  ghost predicate Filled(route: set<Leaf>, v: Var) {
    exists leaf :: leaf in route && leaf.Fills(v)
  }

  ghost predicate FilledAlways(routes: set<set<Leaf>>, v: Var) {
    forall route :: route in routes ==> Filled(route, v)
  }

  ghost predicate NamedSomewhere(leaves: set<Leaf>, v: Var) {
    exists leaf :: leaf in leaves && leaf.Names(v)
  }

  lemma {:induction false} TaggedVars(ts: seq<TriplePattern>, scope: Scope, v: Var)
    ensures v in BranchVars(TaggedWith(ts, scope)) <==> Leaf(Bgp(ts), scope).Fills(v)
  {
    if ts != [] {
      TaggedVars(ts[1..], scope, v);
      assert TaggedWith(ts, scope)[1..] == TaggedWith(ts[1..], scope);
      assert forall t :: t in ts <==> t == ts[0] || t in ts[1..];
    }
  }

  lemma FilledJoin(l: Pattern, r: Pattern, scope: Scope, v: Var)
    ensures FilledAlways(Routes(Join(l, r), scope), v) <==> FilledAlways(Routes(l, scope), v) || FilledAlways(Routes(r, scope), v)
  {
    var p := Join(l, r);
    if !FilledAlways(Routes(l, scope), v) && !FilledAlways(Routes(r, scope), v) {
      var x :| x in Routes(l, scope) && !Filled(x, v);
      var y :| y in Routes(r, scope) && !Filled(y, v);
      assert x + y in Routes(p, scope) && !Filled(x + y, v);
    }
    if FilledAlways(Routes(l, scope), v) || FilledAlways(Routes(r, scope), v) {
      forall route | route in Routes(p, scope)
        ensures Filled(route, v)
      {
        var x, y :| x in Routes(l, scope) && y in Routes(r, scope) && route == x + y;
        assert Filled(x, v) || Filled(y, v);
      }
    }
  }

  lemma LeafBound(p: Pattern, scope: Scope, v: Var)
    requires p.Bgp? || p.Path? || p.Values?
    ensures v in BoundOf(p, scope).certain <==> Leaf(p, scope).Fills(v)
    ensures v in BoundOf(p, scope).possible <==> Leaf(p, scope).Names(v)
  {
    if p.Bgp? {
      TaggedVars(p.triples, scope, v);
    }
  }

  // A variable is counted certain exactly when each way a solution can come about has something matched that binds it, and
  // possible exactly when anything matched names it.
  lemma {:induction false} BoundExactly(p: Pattern, scope: Scope, v: Var)
    ensures v in BoundOf(p, scope).certain <==> FilledAlways(Routes(p, scope), v)
    ensures v in BoundOf(p, scope).possible <==> NamedSomewhere(Leaves(p, scope), v)
  {
    match p
    case Join(l, r) => BoundExactly(l, scope, v); BoundExactly(r, scope, v); FilledJoin(l, r, scope, v);
    case LeftJoin(l, r, _) => BoundExactly(l, scope, v); BoundExactly(r, scope, v);
    case Union(l, r) => BoundExactly(l, scope, v); BoundExactly(r, scope, v);
    case Filter(_, i) => BoundExactly(i, scope, v);
    case Graph(name, i) => BoundExactly(i, ScopeOf(name), v);
    case Project(i, _) => BoundExactly(i, scope, v);
    case Bgp(_) => LeafBound(p, scope, v); OnlyLeaf(Leaf(p, scope), v);
    case Path(_, _, _) => LeafBound(p, scope, v); OnlyLeaf(Leaf(p, scope), v);
    case Values(_, _) => LeafBound(p, scope, v); OnlyLeaf(Leaf(p, scope), v);
    case _ => assert {} in Routes(p, scope) && !Filled({}, v);
  }

  lemma OnlyLeaf(leaf: Leaf, v: Var)
    ensures FilledAlways({{leaf}}, v) <==> leaf.Fills(v)
    ensures NamedSomewhere({leaf}, v) <==> leaf.Names(v)
  {
    assert {leaf} in {{leaf}} && leaf in {leaf};
  }

  // --- When there is a plan ---------------------------------------------------------------------------------------

  // Each path closure has an end that is a term, or a variable some other item mentions.
  ghost predicate HeldByOthers(items: seq<Item>) {
    forall at :: 0 <= at < |items| && items[at].ClosureStep? ==>
      HeldEnd(items, at, items[at].closure.source) || HeldEnd(items, at, items[at].closure.target)
  }

  ghost predicate HeldEnd(items: seq<Item>, at: nat, end: Position) {
    end.T? || exists j :: 0 <= j < |items| && j != at && end.v in VarsOf(items[j])
  }

  lemma {:induction false} VarsMember(items: seq<Item>, v: Var)
    ensures v in ItemsVars(items) <==> exists j :: 0 <= j < |items| && v in VarsOf(items[j])
  {
    if items != [] {
      VarsMember(items[1..], v);
      if v in ItemsVars(items[1..]) {
        var j :| 0 <= j < |items[1..]| && v in VarsOf(items[1..][j]);
        assert v in VarsOf(items[j + 1]);
      }
      if j :| 0 <= j < |items| && v in VarsOf(items[j]) {
        assert j > 0 ==> items[1..][j - 1] == items[j];
      }
    }
  }

  lemma ElsewhereExactly(items: seq<Item>, at: nat, end: Position)
    requires at < |items|
    ensures Anchorable(end, Elsewhere(items, at)) <==> HeldEnd(items, at, end)
  {
    if end.V? {
      VarsMember(items[..at], end.v);
      VarsMember(items[at + 1..], end.v);
      if j :| 0 <= j < |items| && j != at && end.v in VarsOf(items[j]) {
        assert if j < at then items[..at][j] == items[j] else items[at + 1..][j - at - 1] == items[j];
      }
    }
  }

  lemma AnchoredExactly(items: seq<Item>)
    ensures ClosuresAnchored(items) <==> HeldByOthers(items)
  {
    forall at | 0 <= at < |items| && items[at].ClosureStep?
      ensures Anchorable(items[at].closure.source, Elsewhere(items, at)) <==> HeldEnd(items, at, items[at].closure.source)
      ensures Anchorable(items[at].closure.target, Elsewhere(items, at)) <==> HeldEnd(items, at, items[at].closure.target)
    {
      ElsewhereExactly(items, at, items[at].closure.source);
      ElsewhereExactly(items, at, items[at].closure.target);
    }
  }

  // So there is a plan for a query exactly when its wrappers are in order, its pattern is in the fragment and has
  // something to scan, its columns may be bound, each optional stands apart, and each path closure is held by something.
  lemma PlannedExactly(q: Pattern)
    ensures PlanOf(q, false, 0, None).Some? <==>
              && Wrapped(q) && InFragment(Core(q), InDefault)
              && (forall v :: v in Head(q) ==> v in BoundOf(Core(q), InDefault).possible)
              && var d := Collect(Core(q), InDefault, 0);
                 d.Some? && d.value.items != [] && Standing(d.value.items, d.value.filters) && HeldByOthers(d.value.items)
  {
    PlanParts(q, false, 0, None);
    CollectExactly(Core(q), InDefault, 0);
    var d := Collect(Core(q), InDefault, 0);
    if d.Some? {
      CollectMentions(Core(q), InDefault, 0);
      DesignedExactly(d.value.items, d.value.filters);
      AnchoredExactly(d.value.items);
    }
  }
}
