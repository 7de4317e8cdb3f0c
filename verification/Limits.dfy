/**
 Where the plan and the algebra part (crates/holos-engine/src/bindjoin.rs, `collect`). `CollectMeans` asks
 more of a pattern than `collect` checks; each lemma here takes a family of patterns that `collect` accepts
 without one of those things, and says exactly which members are still planned rightly.
 */
module Limits {
  import opened Options
  import opened Bags
  import opened Rdf
  import opened Solutions
  import opened Expressions
  import opened Algebra
  import opened Items
  import opened Scopes
  import opened Commuting
  import opened Planning
  import opened PlanMeaning
  import opened Designs
  import opened Answering

  // The plan made for a pattern yields the bag the algebra gives it.
  ghost predicate PlannedRightly(c: Context, p: Pattern) {
    var d := Collect(p, InDefault, 0);
    d.Some? && Same(Meaning(c, d.value.filters, d.value.items, Which(d.value, 0), [map[]]), Eval(c, None, p))
  }

  lemma PlannedAs(c: Context, p: Pattern, d: Collected, xs: seq<Solution>)
    requires Collect(p, InDefault, 0) == Some(d) && Same(Meaning(c, d.filters, d.items, Which(d, 0), [map[]]), xs)
    ensures PlannedRightly(c, p) <==> Same(xs, Eval(c, None, p))
  {
  }

  // A plan without optionals or closures is accepted whatever its filters.
  lemma AcceptedPlain(p: Pattern, d: Collected, keep: seq<Var>)
    requires Collect(p, InDefault, 0) == Some(d) && d.items != []
    requires forall i :: 0 <= i < |d.items| ==> !d.items[i].OptionalStep? && !d.items[i].ClosureStep?
    requires forall v :: v in keep ==> v in BoundOf(p, InDefault).possible
    ensures PlanOf(Project(p, keep), false, 0, None).Some?
  {
    GatherPlain(d.items);
    assert Finish(p, d, keep, false, 0, None).Some?;
  }

  // And what it owes is its required items, filtered.
  lemma PlainMeaning(c: Context, d: Collected)
    requires forall i :: 0 <= i < |d.items| ==> !d.items[i].OptionalStep?
    requires Decided(d.filters, Which(d, 0), CertainAll(d.items))
    ensures Same(Meaning(c, d.filters, d.items, Which(d, 0), [map[]]), Select(Conj(c.view, d.items), Passing(c.rules, d.filters, Which(d, 0))))
  {
    OnlyRequired(d.items);
    MeaningSettles(c, d.filters, d.items, Which(d, 0));
  }

  // --- An optional sharing a variable its left side may leave unbound ---------------------------------------------

  function OneCell(x: Var, cell: Option<Term>): Pattern {
    Values([x], [[cell]])
  }

  function Cell(x: Var, cell: Option<Term>): Solution {
    if cell.None? then map[] else map[x := cell.value]
  }

  lemma OneCellBag(x: Var, cell: Option<Term>)
    ensures ValuesBag([x], [[cell]]) == [Cell(x, cell)]
  {
    FlatMapOne([cell], RowBag(map[], [x]));
    var none: Solution := map[];
    assert [x][1..] == [] && [cell][1..] == [];
    if cell.Some? {
      assert none[x := cell.value] == map[x := cell.value];
      assert BindTo(Some(none), V(x), cell.value) == Some(none[x := cell.value]);
      assert RowFrom(Some(none[x := cell.value]), [], []) == Some(none[x := cell.value]);
    } else {
      assert RowFrom(Some(none), [], []) == Some(none);
    }
  }

  lemma JoinOnes(a: Solution, b: Solution)
    ensures JoinBags([a], [b]) == Merge(a, b)
  {
    JoinSingle(a, [b]);
    FlatMapOne(b, Against(a));
  }

  function OptionalBetween(x: Var, a: Option<Term>, t: Term, u: Term): Pattern {
    Join(LeftJoin(OneCell(x, a), OneCell(x, Some(t)), None), OneCell(x, Some(u)))
  }

  // The optional's match for one solution, as both the plan and the algebra decide it.
  ghost function OrItself(a: Solution, b: Solution): seq<Solution> {
    if Compatible(a, b) then [a + b] else [a]
  }

  lemma LeftJoinOnes(r: Rules, left: Solution, right: Solution)
    ensures FlatMap([left], OrAlone(r, [right], None)) == OrItself(left, right)
  {
    FlatMapOne(left, OrAlone(r, [right], None));
    FlatMapOne(right, Against(left));
    SelectEvery(Merge(left, right), KeepsIf(r, None));
  }

  lemma BetweenLeft(c: Context, x: Var, a: Option<Term>, t: Term)
    ensures Eval(c, None, LeftJoin(OneCell(x, a), OneCell(x, Some(t)), None)) == OrItself(Cell(x, a), Cell(x, Some(t)))
  {
    OneCellBag(x, a);
    OneCellBag(x, Some(t));
    LeftJoinOnes(c.rules, Cell(x, a), Cell(x, Some(t)));
  }

  lemma BetweenAlgebra(c: Context, x: Var, a: Option<Term>, t: Term, u: Term)
    ensures Eval(c, None, OptionalBetween(x, a, t, u)) == Merge(OrItself(Cell(x, a), Cell(x, Some(t)))[0], Cell(x, Some(u)))
  {
    BetweenLeft(c, x, a, t);
    OneCellBag(x, Some(u));
    var kept := OrItself(Cell(x, a), Cell(x, Some(t)));
    assert kept == [kept[0]];
    JoinOnes(kept[0], Cell(x, Some(u)));
  }

  function BetweenOptional(x: Var, t: Term): OptionalItem {
    OptionalItem([ValuesStep([x], [[Some(t)]])], [], {})
  }

  function BetweenItems(x: Var, a: Option<Term>, t: Term, u: Term): seq<Item> {
    [ValuesStep([x], [[a]])] + [OptionalStep(BetweenOptional(x, t))] + [ValuesStep([x], [[Some(u)]])]
  }

  lemma BetweenFirst(x: Var, a: Option<Term>, t: Term)
    ensures Collect(LeftJoin(OneCell(x, a), OneCell(x, Some(t)), None), InDefault, 0)
         == Some(Collected([ValuesStep([x], [[a]])] + [OptionalStep(BetweenOptional(x, t))], []))
  {
    var l, r := OneCell(x, a), OneCell(x, Some(t));
    var b := Collected([ValuesStep([x], [[Some(t)]])], []);
    assert OptionalOf(l, r, None, InDefault, b, 0) == BetweenOptional(x, t) by {
      assert b.filters + Entries([]) == [];
      assert BoundOf(r, InDefault).possible == BoundOf(l, InDefault).possible;
    }
  }

  lemma BetweenCollected(x: Var, a: Option<Term>, t: Term, u: Term)
    ensures Collect(OptionalBetween(x, a, t, u), InDefault, 0) == Some(Collected(BetweenItems(x, a, t, u), []))
  {
    BetweenFirst(x, a, t);
  }

  lemma BetweenParts(x: Var, a: Option<Term>, t: Term, u: Term)
    ensures Required(BetweenItems(x, a, t, u)) == [ValuesStep([x], [[a]]), ValuesStep([x], [[Some(u)]])]
    ensures Optionals(BetweenItems(x, a, t, u)) == [BetweenOptional(x, t)]
  {
    var first, middle, last := [ValuesStep([x], [[a]])], [OptionalStep(BetweenOptional(x, t))], [ValuesStep([x], [[Some(u)]])];
    RequiredAppend(first + middle, last);
    RequiredAppend(first, middle);
    assert first[1..] == [] && middle[1..] == [] && last[1..] == [];
  }

  lemma CellConj(view: View, x: Var, cell: Option<Term>)
    ensures Conj(view, [ValuesStep([x], [[cell]])]) == [Cell(x, cell)]
  {
    OneCellBag(x, cell);
    assert [ValuesStep([x], [[cell]])][1..] == [];
    JoinIdentity([Cell(x, cell)]);
  }

  lemma BetweenConj(view: View, x: Var, a: Option<Term>, u: Term)
    ensures Conj(view, [ValuesStep([x], [[a]]), ValuesStep([x], [[Some(u)]])]) == Merge(Cell(x, a), Cell(x, Some(u)))
  {
    var first, last := [ValuesStep([x], [[a]])], [ValuesStep([x], [[Some(u)]])];
    assert first + last == [ValuesStep([x], [[a]]), ValuesStep([x], [[Some(u)]])];
    ConjAppend(view, first, last);
    CellConj(view, x, a);
    CellConj(view, x, Some(u));
    JoinOnes(Cell(x, a), Cell(x, Some(u)));
  }

  lemma BetweenOne(c: Context, x: Var, t: Term, m: Solution)
    ensures OptionalFor(c, [], BetweenOptional(x, t))(m) == OrItself(m, Cell(x, Some(t)))
  {
    var items := [ValuesStep([x], [[Some(t)]])];
    CellConj(c.view, x, Some(t));
    CellAlone(items);
    assert Inner(c, [], items) == [Cell(x, Some(t))];
    FlatMapOne(Cell(x, Some(t)), Against(m));
    SelectEvery(Merge(m, Cell(x, Some(t))), Passing(c.rules, [], []));
  }

  ghost function Afterwards(m: seq<Solution>, right: Solution): seq<Solution> {
    if m == [] then [] else OrItself(m[0], right)
  }

  lemma BetweenLast(c: Context, x: Var, t: Term, m: seq<Solution>)
    requires |m| <= 1
    ensures LeftJoins(c, [], m, [BetweenOptional(x, t)]) == Afterwards(m, Cell(x, Some(t)))
  {
    var o := BetweenOptional(x, t);
    var f := OptionalFor(c, [], o);
    assert [o][1..] == [];
    assert LeftJoins(c, [], m, [o]) == FlatMap(m, f);
    if m != [] {
      assert m == [m[0]];
      FlatMapOne(m[0], f);
      BetweenOne(c, x, t, m[0]);
    }
  }

  lemma BetweenFenced(x: Var, a: Option<Term>, t: Term, u: Term)
    ensures FencedAll([], Optionals(BetweenItems(x, a, t, u)), CertainAll(Required(BetweenItems(x, a, t, u))))
  {
    BetweenParts(x, a, t, u);
    var required, within := [ValuesStep([x], [[a]]), ValuesStep([x], [[Some(u)]])], [ValuesStep([x], [[Some(t)]])];
    assert required[1..][0] == ValuesStep([x], [[Some(u)]]);
    assert CertainAll(required) >= CertainAll(required[1..]) >= CertainOf(required[1]);
    CellCertain(x, u);
    CellAlone(within);
    assert within[1..] == [];
    assert ItemsVars(within) == VarsOf(within[0]) + ItemsVars([]);
    assert forall v :: v in ItemsVars(within) ==> v == x;
    assert x in CertainAll(required);
    assert Optionals(BetweenItems(x, a, t, u))[0].items == within;
  }

  lemma CellCertain(x: Var, u: Term)
    ensures x in ValuesCertain([x], [[Some(u)]])
  {
    assert ColumnFull([[Some(u)]], 0) && [x][0] == x;
  }

  lemma BetweenMeaning(c: Context, x: Var, a: Option<Term>, t: Term, u: Term)
    ensures Same(Meaning(c, [], BetweenItems(x, a, t, u), [], [map[]]),
                 Afterwards(Merge(Cell(x, a), Cell(x, Some(u))), Cell(x, Some(t))))
  {
    var m := Merge(Cell(x, a), Cell(x, Some(u)));
    BetweenParts(x, a, t, u);
    BetweenConj(c.view, x, a, u);
    SelectEvery(m, Passing(c.rules, [], []));
    BetweenFenced(x, a, t, u);
    MeaningSettles(c, [], BetweenItems(x, a, t, u), []);
    BetweenLast(c, x, t, m);
  }

  lemma BetweenDiffer(x: Var, a: Option<Term>, t: Term, u: Term)
    ensures var left, right, other := Cell(x, a), Cell(x, Some(t)), Cell(x, Some(u));
            Same(Afterwards(Merge(left, other), right), Merge(OrItself(left, right)[0], other)) <==> a.Some? || t == u
  {
    var left, right, other := Cell(x, a), Cell(x, Some(t)), Cell(x, Some(u));
    MergeEmpty(right);
    MergeEmpty(other);
    if a.None? {
      assert right[x] == t && other[x] == u;
      assert Compatible(right, other) <==> t == u;
    } else {
      assert Compatible(left, right) ==> left + right == left;
      assert Compatible(left, other) ==> left + other == left;
    }
  }

  lemma BetweenGathered(x: Var, a: Option<Term>, t: Term, u: Term)
    ensures Gather(BetweenItems(x, a, t, u)) == [BetweenOptional(x, t)]
  {
    var first, middle, last := [ValuesStep([x], [[a]])], [OptionalStep(BetweenOptional(x, t))], [ValuesStep([x], [[Some(u)]])];
    GatherAppend(first + middle, last);
    GatherOptional(first, BetweenOptional(x, t));
    GatherPlain(first);
    GatherPlain(last);
    GatherPlain(BetweenOptional(x, t).items);
  }

  lemma BetweenDesigned(x: Var, a: Option<Term>, t: Term, u: Term)
    ensures WellDesigned(BetweenItems(x, a, t, u), []) && ClosuresAnchored(BetweenItems(x, a, t, u))
  {
    var items := BetweenItems(x, a, t, u);
    BetweenGathered(x, a, t, u);
    assert Gather(items)[0].own == {};
    assert Secluded(items, 0);
    assert items[1] == OptionalStep(BetweenOptional(x, t));
    assert forall i :: 0 <= i < |items| && i != 1 ==> items[i].ValuesStep?;
  }

  lemma BetweenPossible(x: Var, a: Option<Term>, t: Term, u: Term)
    ensures x in BoundOf(OptionalBetween(x, a, t, u), InDefault).possible
  {
    assert x in BoundOf(OneCell(x, Some(u)), InDefault).possible;
  }

  lemma BetweenAccepted(x: Var, a: Option<Term>, t: Term, u: Term)
    ensures PlanOf(Project(OptionalBetween(x, a, t, u), [x]), false, 0, None).Some?
  {
    var i := OptionalBetween(x, a, t, u);
    BetweenCollected(x, a, t, u);
    BetweenDesigned(x, a, t, u);
    BetweenPossible(x, a, t, u);
    assert BetweenItems(x, a, t, u)[0] == ValuesStep([x], [[a]]);
    assert Finish(i, Collected(BetweenItems(x, a, t, u), []), [x], false, 0, None).Some?;
  }

  /**
   `{ VALUES ?x { a } OPTIONAL { VALUES ?x { t } } VALUES ?x { u } }`, where `a` may be UNDEF. The test for
   variables of the optional's own subtracts what the left side may bind, not what it does bind, so the query is
   accepted; run last, the optional meets ?x already fixed by the other table.
   */
  lemma OptionalLastExactly(c: Context, x: Var, a: Option<Term>, t: Term, u: Term)
    ensures PlanOf(Project(OptionalBetween(x, a, t, u), [x]), false, 0, None).Some?
    ensures PlannedRightly(c, OptionalBetween(x, a, t, u)) <==> a.Some? || t == u
  {
    BetweenAccepted(x, a, t, u);
    BetweenCollected(x, a, t, u);
    BetweenMeaning(c, x, a, t, u);
    BetweenAlgebra(c, x, a, t, u);
    BetweenDiffer(x, a, t, u);
    var d := Collected(BetweenItems(x, a, t, u), []);
    assert Which(d, 0) == [];
    PlannedAs(c, OptionalBetween(x, a, t, u), d, Afterwards(Merge(Cell(x, a), Cell(x, Some(u))), Cell(x, Some(t))));
  }

  // --- A filter inside GRAPH ?g that reads ?g ---------------------------------------------------------------------

  function NameIs(g: Var, n: Term): Expr {
    SameTerm(Variable(g), Constant(n))
  }

  function FilteredGraph(t: TriplePattern, g: Var, n: Term): Pattern {
    Graph(V(g), Filter(NameIs(g, n), Bgp([t])))
  }

  // Inside the block the variable is not bound, so the filter is an error for every row.
  lemma FilteredHere(c: Context, name: Term, t: TriplePattern, g: Var, n: Term)
    requires g !in TripleVars(t)
    ensures Eval(c, Some(name), Filter(NameIs(g, n), Bgp([t]))) == []
  {
    BgpOne(c.view, Some(name), t);
    var rows := TripleBag(c.view, t, InNamed(name));
    forall s | s in rows
      ensures !Keeps(c.rules, NameIs(g, n))(s)
    {
      TripleBagBinds(c.view, t, InNamed(name), s);
      assert Evaluate(c.rules, Variable(g), s) == Error;
    }
    SelectNone(rows, Keeps(c.rules, NameIs(g, n)));
  }

  lemma {:induction false} FilteredNowhere(c: Context, names: seq<Term>, t: TriplePattern, g: Var, n: Term)
    requires g !in TripleVars(t)
    ensures EvalEach(c, names, g, Filter(NameIs(g, n), Bgp([t]))) == []
    decreases |names|
  {
    if names != [] {
      FilteredNowhere(c, names[1..], t, g, n);
      FilteredHere(c, names[0], t, g, n);
    }
  }

  lemma NamePasses(r: Rules, g: Var, n: Term, s: Solution)
    requires g in s
    ensures Passes(r, FilterEntry(NameIs(g, n), {g}), s) <==> s[g] == n
  {
    var only := Restrict(s, {g});
    assert Evaluate(r, Variable(g), only) == Of(s[g]) && Evaluate(r, Constant(n), only) == Of(n);
    assert Evaluate(r, NameIs(g, n), only) == Truth(s[g] == n);
  }

  lemma FilteredCollected(t: TriplePattern, g: Var, n: Term)
    requires UsableTriple(t)
    ensures Collect(FilteredGraph(t, g, n), InDefault, 0)
         == Some(Collected([PatternStep(PatternItem(t, InEach(g)))], [FilterEntry(NameIs(g, n), {g})]))
  {
    var e := NameIs(g, n);
    assert Conjuncts(e) == [e] && Needs(e) == {g};
    var ts, scope := [t], InEach(g);
    assert ts[1..] == [];
    assert TaggedWith(ts, scope) == [PatternItem(t, scope)];
    assert [PatternItem(t, scope)][1..] == [];
    assert AsItems([PatternItem(t, scope)]) == [PatternStep(PatternItem(t, scope))];
    assert Collect(Bgp(ts), scope, 0) == Some(Collected([PatternStep(PatternItem(t, scope))], []));
    assert Hoistable([e], BoundOf(Bgp(ts), scope).certain);
    assert [e][1..] == [] && Entries([e]) == [FilterEntry(e, {g})];
    assert Collect(Filter(e, Bgp(ts)), scope, 0)
        == Some(Collected([PatternStep(PatternItem(t, scope))], [] + [FilterEntry(e, {g})]));
    assert ScopeOf(V(g)) == scope && [] + [FilterEntry(e, {g})] == [FilterEntry(e, {g})];
    assert Collect(FilteredGraph(t, g, n), InDefault, 0) == Collect(Filter(e, Bgp(ts)), scope, 0);
  }

  // The plan binds the variable while it scans, so there the filter keeps the rows of the graph it names.
  lemma FilteredMeaning(c: Context, t: TriplePattern, g: Var, n: Term)
    ensures var fs, items := [FilterEntry(NameIs(g, n), {g})], [PatternStep(PatternItem(t, InEach(g)))];
            Same(Meaning(c, fs, items, [0], [map[]]), Select(TripleBag(c.view, t, InEach(g)), Passing(c.rules, fs, [0])))
  {
    var fs, items := [FilterEntry(NameIs(g, n), {g})], [PatternStep(PatternItem(t, InEach(g)))];
    assert items[1..] == [];
    JoinIdentity(TripleBag(c.view, t, InEach(g)));
    assert Conj(c.view, items) == TripleBag(c.view, t, InEach(g));
    assert CertainAll(items) == CertainOf(items[0]) + CertainAll([]);
    OneUnowned(t, g, fs[0]);
    PlainMeaning(c, Collected(items, fs));
  }

  lemma RowsNaming(view: View, t: TriplePattern, g: Var, n: Term)
    requires g !in TripleVars(t)
    ensures (exists s :: s in TripleBag(view, t, InEach(g)) && g in s && s[g] == n) <==> TripleBag(view, t, InNamed(n)) != []
  {
    var each, named := TripleBag(view, t, InEach(g)), TripleBag(view, t, InNamed(n));
    if s :| s in each && g in s && s[g] == n {
      var b := RowNamed(view, t, g, n, s);
    }
    if named != [] {
      var s := NamedRow(view, t, g, n, named[0]);
      assert s in each && g in s && s[g] == n;
    }
  }

  lemma RowNamed(view: View, t: TriplePattern, g: Var, n: Term, s: Solution) returns (b: Solution)
    requires s in TripleBag(view, t, InEach(g)) && g in s && s[g] == n
    ensures b in TripleBag(view, t, InNamed(n))
  {
    FlatMapMember(view.quads, Matching(map[], t, InEach(g)), s);
    var q :| q in view.quads && s in Matching(map[], t, InEach(g))(q);
    var name := q.graph.value;
    MatchNamed(g, t, name, q);
    JoinOneMember(map[g := name], Matching(map[], t, InNamed(name))(q), s);
    b :| b in Matching(map[], t, InNamed(name))(q) && Compatible(map[g := name], b) && s == map[g := name] + b;
    assert s[g] == name by {
      if g in b {
        assert map[g := name][g] == b[g];
      }
    }
    FlatMapMember(view.quads, Matching(map[], t, InNamed(n)), b);
  }

  lemma NamedRow(view: View, t: TriplePattern, g: Var, n: Term, b: Solution) returns (s: Solution)
    requires g !in TripleVars(t) && b in TripleBag(view, t, InNamed(n))
    ensures s in TripleBag(view, t, InEach(g)) && g in s && s[g] == n
  {
    TripleBagBinds(view, t, InNamed(n), b);
    FlatMapMember(view.quads, Matching(map[], t, InNamed(n)), b);
    var q :| q in view.quads && b in Matching(map[], t, InNamed(n))(q);
    MatchNamed(g, t, n, q);
    s := map[g := n] + b;
    JoinOneMember(map[g := n], Matching(map[], t, InNamed(n))(q), s);
    assert Compatible(map[g := n], b);
    FlatMapMember(view.quads, Matching(map[], t, InEach(g)), s);
  }

  lemma FilteredRows(c: Context, t: TriplePattern, g: Var, n: Term)
    requires g !in TripleVars(t)
    ensures var fs := [FilterEntry(NameIs(g, n), {g})];
            Select(TripleBag(c.view, t, InEach(g)), Passing(c.rules, fs, [0])) == [] <==> TripleBag(c.view, t, InNamed(n)) == []
  {
    var fs := [FilterEntry(NameIs(g, n), {g})];
    var each, p := TripleBag(c.view, t, InEach(g)), Passing(c.rules, fs, [0]);
    forall s | s in each
      ensures g in s && (p(s) <==> s[g] == n)
    {
      TripleBagBinds(c.view, t, InEach(g), s);
      NamePasses(c.rules, g, n, s);
      assert PassesEach(c.rules, fs, [0], s) <==> Passes(c.rules, fs[0], s);
    }
    RowsNaming(c.view, t, g, n);
    if s :| s in each && g in s && s[g] == n {
      SelectMember(each, p, s);
    } else {
      SelectNone(each, p);
    }
  }

  /**
   `GRAPH ?g { t FILTER(sameTerm(?g, n)) }`. The algebra binds ?g outside the block, so the filter rejects
   every row; the scan binds it inside, so the plan keeps the rows of the graph `n`. They agree exactly when that
   graph has none.
   */
  lemma GraphFilterExactly(c: Context, t: TriplePattern, g: Var, n: Term)
    requires UsableTriple(t) && g !in TripleVars(t)
    ensures PlanOf(Project(FilteredGraph(t, g, n), [g]), false, 0, None).Some?
    ensures PlannedRightly(c, FilteredGraph(t, g, n)) <==> TripleBag(c.view, t, InNamed(n)) == []
  {
    FilteredAccepted(t, g, n);
    FilteredRight(c, t, g, n);
  }

  lemma FilteredRight(c: Context, t: TriplePattern, g: Var, n: Term)
    requires UsableTriple(t) && g !in TripleVars(t)
    ensures PlannedRightly(c, FilteredGraph(t, g, n)) <==> TripleBag(c.view, t, InNamed(n)) == []
  {
    var e := FilterEntry(NameIs(g, n), {g});
    var rows := Select(TripleBag(c.view, t, InEach(g)), Passing(c.rules, [e], [0]));
    FilteredPlan(c, t, g, n);
    FilteredNowhere(c, Listing(c.view.GraphNames()), t, g, n);
    FilteredRows(c, t, g, n);
    if Same(rows, []) {
      SameLength(rows, []);
    }
  }

  lemma FilteredPlan(c: Context, t: TriplePattern, g: Var, n: Term)
    requires UsableTriple(t)
    ensures var rows := Select(TripleBag(c.view, t, InEach(g)), Passing(c.rules, [FilterEntry(NameIs(g, n), {g})], [0]));
            PlannedRightly(c, FilteredGraph(t, g, n)) <==> Same(rows, Eval(c, None, FilteredGraph(t, g, n)))
  {
    FilteredCollected(t, g, n);
    FilteredMeaning(c, t, g, n);
    OneUnowned(t, g, FilterEntry(NameIs(g, n), {g}));
    var e := FilterEntry(NameIs(g, n), {g});
    PlannedAs(c, FilteredGraph(t, g, n), Collected([PatternStep(PatternItem(t, InEach(g)))], [e]),
              Select(TripleBag(c.view, t, InEach(g)), Passing(c.rules, [e], [0])));
  }

  lemma FilteredAccepted(t: TriplePattern, g: Var, n: Term)
    requires UsableTriple(t)
    ensures PlanOf(Project(FilteredGraph(t, g, n), [g]), false, 0, None).Some?
  {
    FilteredCollected(t, g, n);
    assert TaggedWith([t], InEach(g))[0] == PatternItem(t, InEach(g));
    assert g in BoundOf(Bgp([t]), InEach(g)).possible;
    assert BoundOf(FilteredGraph(t, g, n), InDefault) == BoundOf(Filter(NameIs(g, n), Bgp([t])), InEach(g)) == BoundOf(Bgp([t]), InEach(g));
    AcceptedPlain(FilteredGraph(t, g, n), Collected([PatternStep(PatternItem(t, InEach(g)))], [FilterEntry(NameIs(g, n), {g})]), [g]);
  }

  lemma OneUnowned(t: TriplePattern, g: Var, e: FilterEntry)
    ensures Which(Collected([PatternStep(PatternItem(t, InEach(g)))], [e]), 0) == [0]
  {
    var items := [PatternStep(PatternItem(t, InEach(g)))];
    assert items[1..] == [];
    assert Owned(items) == {};
    assert Unowned(1, 0, {}) == [];
    assert Unowned(0, 1, {}) == [0] + Unowned(1, 0, {});
  }

  // --- VALUES inside GRAPH ----------------------------------------------------------------------------------------

  lemma CellCollected(x: Var, t: Term, name: Position)
    ensures Collect(Graph(name, OneCell(x, Some(t))), InDefault, 0) == Some(Collected([ValuesStep([x], [[Some(t)]])], []))
  {
    assert Collect(OneCell(x, Some(t)), ScopeOf(name), 0) == Some(Collected([ValuesStep([x], [[Some(t)]])], []));
  }

  // The plan forgets the block a table stands in.
  lemma CellMeaning(c: Context, x: Var, t: Term)
    ensures Same(Meaning(c, [], [ValuesStep([x], [[Some(t)]])], [], [map[]]), [Cell(x, Some(t))])
  {
    var items := [ValuesStep([x], [[Some(t)]])];
    CellAlone(items);
    CellConj(c.view, x, Some(t));
    SelectEvery([Cell(x, Some(t))], Passing(c.rules, [], []));
    PlainMeaning(c, Collected(items, []));
  }

  lemma CellAccepted(x: Var, t: Term, name: Position)
    ensures PlanOf(Project(Graph(name, OneCell(x, Some(t))), [x]), false, 0, None).Some?
  {
    CellCollected(x, t, name);
    assert x in BoundOf(OneCell(x, Some(t)), ScopeOf(name)).possible;
    AcceptedPlain(Graph(name, OneCell(x, Some(t))), Collected([ValuesStep([x], [[Some(t)]])], []), [x]);
  }

  lemma CellAlone(items: seq<Item>)
    requires |items| == 1 && items[0].ValuesStep?
    ensures Required(items) == items && Optionals(items) == [] && Which(Collected(items, []), 0) == []
  {
    assert items[1..] == [] && items == [items[0]];
  }

  lemma NamedTable(c: Context, x: Var, t: Term, n: Term)
    ensures Eval(c, None, Graph(T(n), OneCell(x, Some(t)))) == if n in c.view.GraphNames() then [Cell(x, Some(t))] else []
  {
    OneCellBag(x, Some(t));
  }

  lemma OneAmong<A>(one: A, rows: seq<A>)
    requires forall i :: 0 <= i < |rows| ==> rows[i] == one
    ensures Same([one], rows) <==> |rows| == 1
  {
    if Same([one], rows) {
      SameLength([one], rows);
    }
    if |rows| == 1 {
      assert rows == [one];
    }
  }

  // `GRAPH <n> { VALUES ?x { t } }`: right exactly when the store has the graph.
  lemma NamedTableExactly(c: Context, x: Var, t: Term, n: Term)
    ensures PlanOf(Project(Graph(T(n), OneCell(x, Some(t))), [x]), false, 0, None).Some?
    ensures PlannedRightly(c, Graph(T(n), OneCell(x, Some(t)))) <==> n in c.view.GraphNames()
  {
    var one := Cell(x, Some(t));
    CellAccepted(x, t, T(n));
    CellCollected(x, t, T(n));
    CellMeaning(c, x, t);
    CellAlone([ValuesStep([x], [[Some(t)]])]);
    PlannedAs(c, Graph(T(n), OneCell(x, Some(t))), Collected([ValuesStep([x], [[Some(t)]])], []), [one]);
    NamedTable(c, x, t, n);
    OneAmong(one, if n in c.view.GraphNames() then [one] else []);
  }

  lemma {:induction false} EachTable(c: Context, names: seq<Term>, x: Var, t: Term, g: Var)
    requires g != x
    ensures var rows := FlatMap(EvalEach(c, names, g, OneCell(x, Some(t))), Projected([x]));
            |rows| == |names| && forall i :: 0 <= i < |rows| ==> rows[i] == Cell(x, Some(t))
    decreases |names|
  {
    if names != [] {
      EachTable(c, names[1..], x, t, g);
      OneCellBag(x, Some(t));
      var here, rest := JoinOne(map[g := names[0]], [Cell(x, Some(t))]), EvalEach(c, names[1..], g, OneCell(x, Some(t)));
      FlatMapAppend(here, rest, Projected([x]));
      TableHere(x, t, g, names[0]);
    }
  }

  lemma TableHere(x: Var, t: Term, g: Var, name: Term)
    requires g != x
    ensures FlatMap(JoinOne(map[g := name], [Cell(x, Some(t))]), Projected([x])) == [Cell(x, Some(t))]
  {
    var m: Solution := map[g := name];
    FlatMapOne(Cell(x, Some(t)), Against(m));
    FlatMapOne(m + Cell(x, Some(t)), Projected([x]));
    assert Restrict(m + Cell(x, Some(t)), set v | v in [x]) == Cell(x, Some(t));
  }

  // `SELECT ?x { GRAPH ?g { VALUES ?x { t } } }`: one row for each named graph, and the plan has one row; right exactly
  // when the store has one named graph.
  lemma EachTableExactly(c: Context, x: Var, t: Term, g: Var)
    requires g != x
    ensures PlanOf(Project(Graph(V(g), OneCell(x, Some(t))), [x]), false, 0, None).Some?
    ensures var p := Graph(V(g), OneCell(x, Some(t)));
            && Collect(p, InDefault, 0) == Some(Collected([ValuesStep([x], [[Some(t)]])], []))
            && (Same(FlatMap(Meaning(c, [], [ValuesStep([x], [[Some(t)]])], [], [map[]]), Projected([x])), Eval(c, None, Project(p, [x])))
                <==> |c.view.GraphNames()| == 1)
  {
    var one := Cell(x, Some(t));
    CellAccepted(x, t, V(g));
    CellCollected(x, t, V(g));
    CellMeaning(c, x, t);
    FlatMapOne(one, Projected([x]));
    FlatMapSame(Meaning(c, [], [ValuesStep([x], [[Some(t)]])], [], [map[]]), [one], Projected([x]), Projected([x]));
    assert Projected([x])(one) == [one] by {
      assert Restrict(one, set v | v in [x]) == one;
    }
    var rows := EachTableRows(c, x, t, g);
    OneAmong(one, rows);
  }

  lemma EachTableRows(c: Context, x: Var, t: Term, g: Var) returns (rows: seq<Solution>)
    requires g != x
    ensures rows == Eval(c, None, Project(Graph(V(g), OneCell(x, Some(t))), [x]))
    ensures |rows| == |c.view.GraphNames()| && forall i :: 0 <= i < |rows| ==> rows[i] == Cell(x, Some(t))
  {
    var names := Listing(c.view.GraphNames());
    EachTable(c, names, x, t, g);
    rows := FlatMap(EvalEach(c, names, g, OneCell(x, Some(t))), Projected([x]));
    ProjectedGraph(c, OneCell(x, Some(t)), g, [x]);
    ListingSize(c.view.GraphNames());
  }

  lemma GraphIs(c: Context, p: Pattern, g: Var)
    ensures Eval(c, None, Graph(V(g), p)) == EvalEach(c, Listing(c.view.GraphNames()), g, p)
  {
    GraphIn(c, V(g), p);
    var q := Graph(V(g), p);
    assert EvalIn(c, InDefault, q) == Eval(c, None, q);
  }

  lemma ProjectedGraph(c: Context, p: Pattern, g: Var, keep: seq<Var>)
    ensures Eval(c, None, Project(Graph(V(g), p), keep))
         == FlatMap(EvalEach(c, Listing(c.view.GraphNames()), g, p), Projected(keep))
  {
    ProjectIs(c, Graph(V(g), p), keep);
    GraphIs(c, p, g);
  }

  lemma ListingSize<A(!new)>(s: set<A>)
    ensures |Listing(s)| == |s|
  {
    assert |Listing(s)| == |multiset(Listing(s))|;
  }

  // --- A graph variable that a subquery hides -------------------------------------------------------------------------

  // `VALUES ?g { n } { SELECT .. { GRAPH ?g { ?a e ?b } } }`, `e` an alternative of predicates, ?g not selected.
  function HiddenGraph(g: Var, n: Term, a: Var, e: PathExpr, b: Var, keep: seq<Var>): Pattern {
    Join(OneCell(g, Some(n)), Project(Graph(V(g), Path(V(a), e, V(b))), keep))
  }

  ghost predicate HiddenFamily(g: Var, a: Var, e: PathExpr, b: Var, keep: seq<Var>) {
    && PathAlternatives(e, V(a), V(b), InEach(g)).Some?
    && g != a && g != b && a in keep && b in keep && g !in keep
  }

  function HiddenItems(g: Var, n: Term, a: Var, e: PathExpr, b: Var): seq<Item>
    requires PathAlternatives(e, V(a), V(b), InEach(g)).Some?
  {
    [ValuesStep([g], [[Some(n)]])] + [UnionStep(PathAlternatives(e, V(a), V(b), InEach(g)).value)]
  }

  lemma AlternativesOnly(e: PathExpr, s: Position, o: Position, scope: Scope)
    requires PathAlternatives(e, s, o, scope).Some?
    ensures ClosureItemOf(s, e, o, scope).None?
  {
  }

  lemma HiddenBounds(g: Var, n: Term, a: Var, e: PathExpr, b: Var, keep: seq<Var>)
    ensures BoundOf(Graph(V(g), Path(V(a), e, V(b))), InDefault).possible == {a, b}
    ensures BoundOf(HiddenGraph(g, n, a, e, b, keep), InDefault).possible == {g, a, b}
  {
    var path := Path(V(a), e, V(b));
    assert BoundOf(path, InEach(g)).possible == {a, b};
    assert BoundOf(Graph(V(g), path), InDefault) == BoundOf(path, InEach(g));
    assert BoundOf(Project(Graph(V(g), path), keep), InDefault) == BoundOf(Graph(V(g), path), InDefault);
    assert BoundOf(OneCell(g, Some(n)), InDefault).possible == {g} by {
      assert forall v :: v in [g] <==> v == g;
    }
  }

  // The subquery is spliced: the variables counted for a path leave out the graph's.
  lemma HiddenCollected(g: Var, n: Term, a: Var, e: PathExpr, b: Var, keep: seq<Var>)
    requires HiddenFamily(g, a, e, b, keep)
    ensures Collect(HiddenGraph(g, n, a, e, b, keep), InDefault, 0) == Some(Collected(HiddenItems(g, n, a, e, b), []))
  {
    var path := Path(V(a), e, V(b));
    var branches := [UnionStep(PathAlternatives(e, V(a), V(b), InEach(g)).value)];
    AlternativesOnly(e, V(a), V(b), InEach(g));
    assert Collect(path, InEach(g), 0) == Some(Collected(branches, []));
    assert Collect(Graph(V(g), path), InDefault, 0) == Some(Collected(branches, []));
    HiddenBounds(g, n, a, e, b, keep);
    var none: seq<FilterEntry> := [];
    assert none + none == none;
    assert Collect(Project(Graph(V(g), path), keep), InDefault, 0) == Some(Collected(branches, []));
    assert Collect(OneCell(g, Some(n)), InDefault, 0) == Some(Collected([ValuesStep([g], [[Some(n)]])], []));
  }

  lemma HiddenAccepted(g: Var, n: Term, a: Var, e: PathExpr, b: Var, keep: seq<Var>)
    requires HiddenFamily(g, a, e, b, keep)
    ensures PlanOf(Project(HiddenGraph(g, n, a, e, b, keep), [g, a, b]), false, 0, None).Some?
  {
    HiddenCollected(g, n, a, e, b, keep);
    HiddenBounds(g, n, a, e, b, keep);
    AcceptedPlain(HiddenGraph(g, n, a, e, b, keep), Collected(HiddenItems(g, n, a, e, b), []), [g, a, b]);
  }

  ghost function InGraphs(c: Context, g: Var, a: Var, e: PathExpr, b: Var): seq<Solution> {
    EvalIn(c, InEach(g), Path(V(a), e, V(b)))
  }

  lemma HiddenConj(view: View, g: Var, n: Term, a: Var, e: PathExpr, b: Var)
    requires PathAlternatives(e, V(a), V(b), InEach(g)).Some?
    ensures Conj(view, HiddenItems(g, n, a, e, b))
         == JoinOne(map[g := n], FlatMap(PathAlternatives(e, V(a), V(b), InEach(g)).value, BranchBag(view)))
  {
    var first, second := ValuesStep([g], [[Some(n)]]), UnionStep(PathAlternatives(e, V(a), V(b), InEach(g)).value);
    CellConj(view, g, Some(n));
    assert Cell(g, Some(n)) == map[g := n];
    ConjAppend(view, [first], [second]);
    JoinIdentity(ItemBag(view, second));
    assert [second][1..] == [];
    assert Conj(view, [second]) == ItemBag(view, second);
    JoinSingle(map[g := n], ItemBag(view, second));
  }

  lemma HiddenOwed(c: Context, g: Var, n: Term, a: Var, e: PathExpr, b: Var)
    requires PathAlternatives(e, V(a), V(b), InEach(g)).Some?
    ensures Same(Conj(c.view, HiddenItems(g, n, a, e, b)), JoinOne(map[g := n], InGraphs(c, g, a, e, b)))
  {
    var rows := FlatMap(PathAlternatives(e, V(a), V(b), InEach(g)).value, BranchBag(c.view));
    PathMeans(c, e, V(a), V(b), InEach(g));
    HiddenConj(c.view, g, n, a, e, b);
    JoinOneSame(map[g := n], InGraphs(c, g, a, e, b), rows);
  }

  lemma HiddenMeaning(c: Context, g: Var, n: Term, a: Var, e: PathExpr, b: Var, keep: seq<Var>)
    requires HiddenFamily(g, a, e, b, keep)
    ensures Same(Meaning(c, [], HiddenItems(g, n, a, e, b), [], [map[]]), JoinOne(map[g := n], InGraphs(c, g, a, e, b)))
  {
    var items := HiddenItems(g, n, a, e, b);
    HiddenOwed(c, g, n, a, e, b);
    SelectEvery(Conj(c.view, items), Passing(c.rules, [], []));
    assert Which(Collected(items, []), 0) == [];
    PlainMeaning(c, Collected(items, []));
  }

  lemma CellJoin(c: Context, g: Var, n: Term, r: Pattern)
    ensures Eval(c, None, Join(OneCell(g, Some(n)), r)) == JoinOne(map[g := n], Eval(c, None, r))
  {
    OneCellBag(g, Some(n));
    assert Cell(g, Some(n)) == map[g := n];
    JoinSingle(map[g := n], Eval(c, None, r));
  }

  lemma HiddenEval(c: Context, g: Var, n: Term, a: Var, e: PathExpr, b: Var, keep: seq<Var>)
    ensures Eval(c, None, HiddenGraph(g, n, a, e, b, keep))
         == JoinOne(map[g := n], FlatMap(InGraphs(c, g, a, e, b), Projected(keep)))
  {
    CellJoin(c, g, n, Project(Graph(V(g), Path(V(a), e, V(b))), keep));
    ProjectedGraph(c, Path(V(a), e, V(b)), g, keep);
  }

  // A row of the block names its graph, and binds the two ends beside it.
  lemma HiddenRow(c: Context, g: Var, a: Var, e: PathExpr, b: Var, t: Solution)
    requires PathAlternatives(e, V(a), V(b), InEach(g)).Some? && t in InGraphs(c, g, a, e, b)
    ensures t.Keys == {g, a, b}
  {
    var branches := PathAlternatives(e, V(a), V(b), InEach(g)).value;
    PathMeans(c, e, V(a), V(b), InEach(g));
    PathBounds(e, V(a), V(b), InEach(g));
    SameMembers(InGraphs(c, g, a, e, b), FlatMap(branches, BranchBag(c.view)), t);
    FlatMapMember(branches, BranchBag(c.view), t);
    var branch :| branch in branches && t in BranchBag(c.view)(branch);
    BranchBinds(c.view, branch, t);
    BranchesBound(branches, branch);
  }

  // One such row beside `?g` given as `n`: the plan wants the graphs to agree, the algebra never hears of the row's.
  lemma HiddenPair(g: Var, n: Term, keep: seq<Var>, t: Solution)
    requires g in t && g !in keep && forall v :: v in t && v != g ==> v in keep
    ensures FlatMap(Projected(keep)(t), Against(map[g := n])) == [t[g := n]]
    ensures Merge(map[g := n], t) == if t[g] == n then [t[g := n]] else []
  {
    var one: Solution, cut := map[g := n], Restrict(t, set v | v in keep);
    FlatMapOne(cut, Against(one));
    assert one + cut == t[g := n];
    if t[g] == n {
      assert one + t == t[g := n];
    } else {
      assert one[g] != t[g];
    }
  }

  lemma {:induction false} HiddenSizes(g: Var, n: Term, keep: seq<Var>, rows: seq<Solution>)
    requires g !in keep && forall t :: t in rows ==> g in t && forall v :: v in t && v != g ==> v in keep
    ensures |JoinOne(map[g := n], FlatMap(rows, Projected(keep)))| == |rows| && |JoinOne(map[g := n], rows)| <= |rows|
    ensures (forall t :: t in rows ==> t[g] == n) ==> JoinOne(map[g := n], rows) == JoinOne(map[g := n], FlatMap(rows, Projected(keep)))
    ensures (exists t :: t in rows && t[g] != n) ==> |JoinOne(map[g := n], rows)| < |rows|
  {
    if rows != [] {
      var t, rest, one := rows[0], rows[1..], map[g := n];
      HiddenSizes(g, n, keep, rest);
      HiddenPair(g, n, keep, t);
      JoinOneAppend(one, Projected(keep)(t), FlatMap(rest, Projected(keep)));
      assert rows == [t] + rest;
    }
  }

  lemma RowGraph(c: Context, g: Var, a: Var, e: PathExpr, b: Var, t: Solution)
    requires t in InGraphs(c, g, a, e, b)
    ensures g in t && t[g] in c.view.GraphNames() && Eval(c, Some(t[g]), Path(V(a), e, V(b))) != []
  {
    var names, path := Listing(c.view.GraphNames()), Path(V(a), e, V(b));
    EvalEachIsEach(c, names, g, path);
    FlatMapMember(names, Scopes.Named(g, EvalAt(c, path)), t);
    var k :| k in names && t in Scopes.Named(g, EvalAt(c, path))(k);
    NamedBy(g, EvalAt(c, path), k, t);
    JoinOneMember(map[g := k], EvalAt(c, path)(k), t);
  }

  lemma GraphRow(c: Context, g: Var, a: Var, e: PathExpr, b: Var, h: Term) returns (t: Solution)
    requires PathAlternatives(e, V(a), V(b), InEach(g)).Some? && g != a && g != b
    requires h in c.view.GraphNames() && Eval(c, Some(h), Path(V(a), e, V(b))) != []
    ensures t in InGraphs(c, g, a, e, b) && g in t && t[g] == h
  {
    var path := Path(V(a), e, V(b));
    var rows := Eval(c, Some(h), path);
    PathWithin(c.view, h, V(a), e, V(b), InEach(g), rows[0]);
    t := map[g := h] + rows[0];
    assert Compatible(map[g := h], rows[0]);
    TurnMember(c, g, path, h, rows[0]);
  }

  lemma TurnMember(c: Context, g: Var, path: Pattern, h: Term, y: Solution)
    requires h in c.view.GraphNames() && y in Eval(c, Some(h), path) && Compatible(map[g := h], y)
    ensures map[g := h] + y in EvalIn(c, InEach(g), path)
  {
    var names, f := Listing(c.view.GraphNames()), EvalAt(c, path);
    JoinOneMember(map[g := h], f(h), map[g := h] + y);
    EvalEachIsEach(c, names, g, path);
    FlatMapMember(names, Scopes.Named(g, f), map[g := h] + y);
  }

  ghost predicate OnlyMatches(c: Context, n: Term, path: Pattern) {
    forall h :: h in c.view.GraphNames() && h != n ==> Eval(c, Some(h), path) == []
  }

  lemma OnlyThere(c: Context, g: Var, n: Term, a: Var, e: PathExpr, b: Var)
    requires PathAlternatives(e, V(a), V(b), InEach(g)).Some? && g != a && g != b
    ensures (forall t :: t in InGraphs(c, g, a, e, b) ==> g in t && t[g] == n) <==> OnlyMatches(c, n, Path(V(a), e, V(b)))
  {
    var rows, path := InGraphs(c, g, a, e, b), Path(V(a), e, V(b));
    if forall t :: t in rows ==> g in t && t[g] == n {
      forall h | h in c.view.GraphNames() && h != n
        ensures Eval(c, Some(h), path) == []
      {
        if Eval(c, Some(h), path) != [] {
          var t := GraphRow(c, g, a, e, b, h);
        }
      }
    }
    if OnlyMatches(c, n, path) {
      forall t | t in rows
        ensures g in t && t[g] == n
      {
        RowGraph(c, g, a, e, b, t);
      }
    }
  }

  // Accepted, and planned rightly exactly when no other graph has a match for the path: spliced, the block's graph joins
  // the ?g outside, which the subquery hid it from.
  lemma HiddenGraphExactly(c: Context, g: Var, n: Term, a: Var, e: PathExpr, b: Var, keep: seq<Var>)
    requires HiddenFamily(g, a, e, b, keep)
    ensures PlanOf(Project(HiddenGraph(g, n, a, e, b, keep), [g, a, b]), false, 0, None).Some?
    ensures PlannedRightly(c, HiddenGraph(g, n, a, e, b, keep))
       <==> OnlyMatches(c, n, Path(V(a), e, V(b)))
  {
    HiddenAccepted(g, n, a, e, b, keep);
    HiddenRight(c, g, n, a, e, b, keep);
    OnlyThere(c, g, n, a, e, b);
  }

  lemma HiddenRight(c: Context, g: Var, n: Term, a: Var, e: PathExpr, b: Var, keep: seq<Var>)
    requires HiddenFamily(g, a, e, b, keep)
    ensures PlannedRightly(c, HiddenGraph(g, n, a, e, b, keep)) <==> forall t :: t in InGraphs(c, g, a, e, b) ==> g in t && t[g] == n
  {
    var rows, one := InGraphs(c, g, a, e, b), map[g := n];
    HiddenCollected(g, n, a, e, b, keep);
    HiddenMeaning(c, g, n, a, e, b, keep);
    assert Which(Collected(HiddenItems(g, n, a, e, b), []), 0) == [];
    PlannedAs(c, HiddenGraph(g, n, a, e, b, keep), Collected(HiddenItems(g, n, a, e, b), []), JoinOne(one, rows));
    HiddenEval(c, g, n, a, e, b, keep);
    forall t | t in rows
      ensures t.Keys == {g, a, b}
    {
      HiddenRow(c, g, a, e, b, t);
    }
    HiddenSizes(g, n, keep, rows);
    if Same(JoinOne(one, rows), JoinOne(one, FlatMap(rows, Projected(keep)))) {
      SameLength(JoinOne(one, rows), JoinOne(one, FlatMap(rows, Projected(keep))));
    }
  }
}
