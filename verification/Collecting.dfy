/**
 `collect` as it runs (crates/holos-engine/src/bindjoin.rs): one pair of vectors, pushed onto while the
 pattern is walked. What it leaves there is what `Planning.Collect` says, numbered from where it began.
 */
module Collecting {
  import opened Options
  import opened Bags
  import opened Rdf
  import opened Solutions
  import opened Expressions
  import opened Algebra
  import opened Items
  import opened Scopes
  import opened Planning

  // What a call leaves of the vectors it was given: on success its part of the plan, appended.
  ghost predicate Pushed(p: Pattern, scope: Scope, bound: Option<Bound>,
                         items: seq<Item>, filters: seq<FilterEntry>, items': seq<Item>, filters': seq<FilterEntry>)
  {
    var d := Collect(p, scope, |filters|);
    && (bound.Some? <==> d.Some?)
    && (bound.Some? ==> bound.value == BoundOf(p, scope) && items' == items + d.value.items && filters' == filters + d.value.filters)
  }

  lemma PushedJoin(l: Pattern, r: Pattern, scope: Scope, a: Option<Bound>, b: Option<Bound>,
                   i0: seq<Item>, f0: seq<FilterEntry>, i1: seq<Item>, f1: seq<FilterEntry>, i2: seq<Item>, f2: seq<FilterEntry>)
    requires Pushed(l, scope, a, i0, f0, i1, f1) && a.Some? && Pushed(r, scope, b, i1, f1, i2, f2)
    ensures Pushed(Join(l, r), scope, if b.None? then None else Some(a.value.Joined(b.value)), i0, f0, i2, f2)
  {
    var d := Collect(l, scope, |f0|).value;
    assert |f1| == |f0| + |d.filters|;
    if b.Some? {
      var e := Collect(r, scope, |f1|).value;
      assert (i0 + d.items) + e.items == i0 + (d.items + e.items);
      assert (f0 + d.filters) + e.filters == f0 + (d.filters + e.filters);
    }
  }

  lemma CollectedFilter(e: Expr, i: Pattern, scope: Scope, first: nat, d: Collected)
    requires Collect(i, scope, first) == Some(d)
    ensures Collect(Filter(e, i), scope, first)
         == if Hoistable(Conjuncts(e), BoundOf(i, scope).certain) then Some(Collected(d.items, d.filters + Entries(Conjuncts(e)))) else None
  {
  }

  lemma PushedFilter(e: Expr, i: Pattern, scope: Scope, a: Option<Bound>, ok: bool,
                     i0: seq<Item>, f0: seq<FilterEntry>, i1: seq<Item>, f1: seq<FilterEntry>, f2: seq<FilterEntry>)
    requires Pushed(i, scope, a, i0, f0, i1, f1) && a.Some?
    requires ok == Hoistable(Conjuncts(e), a.value.certain) && (ok ==> f2 == f1 + Entries(Conjuncts(e)))
    ensures Pushed(Filter(e, i), scope, if ok then a else None, i0, f0, i1, f2)
  {
    var d := PushedIs(i, scope, a.value, i0, f0, i1, f1);
    CollectedFilter(e, i, scope, |f0|, d);
    if ok {
      Regroup(f0, d.filters, Entries(Conjuncts(e)));
    }
  }

  lemma CollectedOptional(l: Pattern, r: Pattern, condition: Option<Expr>, scope: Scope, first: nat, at: nat, d: Collected, e: Collected,
                           o: OptionalItem, theirs: seq<FilterEntry>)
    requires at == first + |d.filters| && theirs == e.filters + Entries(Conditions(condition))
    requires o == OptionalItem(e.items, Range(at, |theirs|), BoundOf(r, scope).possible - BoundOf(l, scope).possible)
    requires Collect(l, scope, first) == Some(d) && Collect(r, scope, 0) == Some(e)
    ensures Collect(LeftJoin(l, r, condition), scope, first)
              == if Hoistable(Conditions(condition), BoundOf(r, scope).certain + BoundOf(l, scope).certain)
                 then Some(Collected(d.items + [OptionalStep(o)], d.filters + theirs)) else None
  {
  }

  lemma PushedOptional(l: Pattern, r: Pattern, condition: Option<Expr>, scope: Scope, a: Bound, b: Bound,
                       i0: seq<Item>, f0: seq<FilterEntry>, i1: seq<Item>, f1: seq<FilterEntry>,
                       ri: seq<Item>, rf: seq<FilterEntry>, o: OptionalItem, theirs: seq<FilterEntry>)
    requires Pushed(l, scope, Some(a), i0, f0, i1, f1) && Pushed(r, scope, Some(b), [], [], ri, rf)
    requires Hoistable(Conditions(condition), b.certain + a.certain) && theirs == rf + Entries(Conditions(condition))
    requires o == OptionalItem(ri, Range(|f1|, |theirs|), b.possible - a.possible)
    ensures Pushed(LeftJoin(l, r, condition), scope, Some(Bound(a.certain, a.possible + b.possible)),
                   i0, f0, i1 + [OptionalStep(o)], f1 + theirs)
  {
    var d := PushedIs(l, scope, a, i0, f0, i1, f1);
    var e := PushedIs(r, scope, b, [], [], ri, rf);
    assert ri == e.items && rf == e.filters;
    CollectedOptional(l, r, condition, scope, |f0|, |f1|, d, e, o, theirs);
    Regroup(i0, d.items, [OptionalStep(o)]);
    Regroup(f0, d.filters, theirs);
    PushedMade(LeftJoin(l, r, condition), scope, Bound(a.certain, a.possible + b.possible),
               Collected(d.items + [OptionalStep(o)], d.filters + theirs), i0, f0, i1 + [OptionalStep(o)], f1 + theirs);
  }

  lemma RefusedOptional(l: Pattern, r: Pattern, condition: Option<Expr>, scope: Scope, first: nat)
    requires !Hoistable(Conditions(condition), BoundOf(r, scope).certain + BoundOf(l, scope).certain)
    ensures Collect(LeftJoin(l, r, condition), scope, first).None?
  {
  }

  lemma PushedMade(p: Pattern, scope: Scope, b: Bound, d: Collected, i0: seq<Item>, f0: seq<FilterEntry>, i1: seq<Item>, f1: seq<FilterEntry>)
    requires Collect(p, scope, |f0|) == Some(d) && b == BoundOf(p, scope) && i1 == i0 + d.items && f1 == f0 + d.filters
    ensures Pushed(p, scope, Some(b), i0, f0, i1, f1)
  {
  }

  lemma PushedIs(p: Pattern, scope: Scope, b: Bound, i0: seq<Item>, f0: seq<FilterEntry>, i1: seq<Item>, f1: seq<FilterEntry>)
    returns (d: Collected)
    requires Pushed(p, scope, Some(b), i0, f0, i1, f1)
    ensures Collect(p, scope, |f0|) == Some(d) && b == BoundOf(p, scope) && i1 == i0 + d.items && f1 == f0 + d.filters
  {
    d := Collect(p, scope, |f0|).value;
  }

  class Collector {
    var items: seq<Item>
    var filters: seq<FilterEntry>

    constructor ()
      ensures items == [] && filters == []
    {
      items, filters := [], [];
    }

    method Collect(p: Pattern, scope: Scope) returns (bound: Option<Bound>)
      modifies this
      ensures Pushed(p, scope, bound, old(items), old(filters), items, filters)
      decreases p, 1
    {
      match p {
        case Bgp(ts) => bound := CollectTriples(ts, scope);
        case Path(s, e, o) => bound := CollectPath(s, e, o, scope);
        case Values(vars, rows) =>
          items := items + [ValuesStep(vars, rows)];
          bound := Some(BoundOf(p, scope));
        case Join(l, r) =>
          var a := Collect(l, scope);
          if a.None? {
            return None;
          }
          ghost var i1, f1 := items, filters;
          var b := Collect(r, scope);
          PushedJoin(l, r, scope, a, b, old(items), old(filters), i1, f1, items, filters);
          if b.None? {
            return None;
          }
          bound := Some(a.value.Joined(b.value));
        case LeftJoin(l, r, condition) => bound := CollectOptional(l, r, condition, scope);
        case Union(l, r) =>
          var branches := UnionBranches(p, scope);
          if branches.None? {
            return None;
          }
          items := items + [UnionStep(branches.value)];
          bound := Some(BoundOf(p, scope));
        case Filter(e, i) => bound := CollectFilter(e, i, scope);
        case Graph(name, i) =>
          if !scope.InDefault? {
            return None;
          }
          bound := Collect(i, ScopeOf(name));
        case Project(i, keep) =>
          var inner := new Collector();
          var b := inner.Collect(i, scope);
          if b.None? || exists v :: v in b.value.possible && v !in keep {
            return None;
          }
          items, filters := items + inner.items, filters + inner.filters;
          bound := b;
        case _ => bound := None;
      }
    }

    // Triple patterns are pushed one at a time until one cannot be used.
    method CollectTriples(ts: seq<TriplePattern>, scope: Scope) returns (bound: Option<Bound>)
      modifies this
      ensures Pushed(Bgp(ts), scope, bound, old(items), old(filters), items, filters)
      decreases Bgp(ts), 0
    {
      var certain: set<Var> := {};
      for k := 0 to |ts|
        invariant filters == old(filters)
        invariant forall i :: 0 <= i < k ==> UsableTriple(ts[i])
        invariant items == old(items) + AsItems(TaggedWith(ts[..k], scope))
        invariant certain == BranchVars(TaggedWith(ts[..k], scope))
      {
        if !UsableTriple(ts[k]) {
          return None;
        }
        TaggedSnoc(ts, k, scope);
        items := items + [PatternStep(PatternItem(ts[k], scope))];
        certain := certain + TripleVars(ts[k]) + ScopeVars(scope);
      }
      assert ts[..|ts|] == ts;
      bound := Some(Bound(certain, certain));
    }

    method CollectPath(s: Position, e: PathExpr, o: Position, scope: Scope) returns (bound: Option<Bound>)
      modifies this
      ensures Pushed(Path(s, e, o), scope, bound, old(items), old(filters), items, filters)
      decreases Path(s, e, o), 0
    {
      var closure := ClosureItemOf(s, e, o, scope);
      if closure.Some? {
        items := items + [ClosureStep(closure.value)];
        return Some(BoundOf(Path(s, e, o), scope));
      }
      var branches := PathAlternatives(e, s, o, scope);
      if branches.None? {
        return None;
      }
      items := items + [UnionStep(branches.value)];
      bound := Some(BoundOf(Path(s, e, o), scope));
    }

    // Pushes each conjunct that can be decided over `decided`, and stops at the first that cannot.
    method PushConjuncts(es: seq<Expr>, decided: set<Var>) returns (ok: bool)
      modifies this`filters
      ensures ok == Hoistable(es, decided)
      ensures ok ==> filters == old(filters) + Entries(es)
    {
      for k := 0 to |es|
        invariant Hoistable(es[..k], decided)
        invariant filters == old(filters) + Entries(es[..k])
      {
        if !Inspectable(es[k]) || !(Needs(es[k]) <= decided) {
          return false;
        }
        EntriesSnoc(es, k);
        filters := filters + [FilterEntry(es[k], Needs(es[k]))];
        assert forall i :: 0 <= i < k ==> es[..k + 1][i] == es[..k][i];
      }
      assert es[..|es|] == es;
      ok := true;
    }

    method CollectFilter(e: Expr, i: Pattern, scope: Scope) returns (bound: Option<Bound>)
      modifies this
      ensures Pushed(Filter(e, i), scope, bound, old(items), old(filters), items, filters)
      decreases Filter(e, i), 0
    {
      bound := Collect(i, scope);
      if bound.None? {
        return None;
      }
      ghost var f1 := filters;
      var ok := PushConjuncts(Conjuncts(e), bound.value.certain);
      PushedFilter(e, i, scope, bound, ok, old(items), old(filters), items, f1, filters);
      if !ok {
        return None;
      }
    }

    // The right side is collected apart, its filters and the join's condition together, and numbered as
    // they are appended.
    method CollectOptional(l: Pattern, r: Pattern, condition: Option<Expr>, scope: Scope) returns (bound: Option<Bound>)
      modifies this
      ensures Pushed(LeftJoin(l, r, condition), scope, bound, old(items), old(filters), items, filters)
      decreases LeftJoin(l, r, condition), 0
    {
      var outer := Collect(l, scope);
      if outer.None? {
        return None;
      }
      var right := new Collector();
      var inner := right.Collect(r, scope);
      if inner.None? {
        return None;
      }
      ghost var rf := right.filters;
      var ok := right.PushConjuncts(Conditions(condition), inner.value.certain + outer.value.certain);
      if !ok {
        RefusedOptional(l, r, condition, scope, |old(filters)|);
        return None;
      }
      var own := inner.value.possible - outer.value.possible;
      var o := OptionalItem(right.items, Range(|filters|, |right.filters|), own);
      PushedOptional(l, r, condition, scope, outer.value, inner.value, old(items), old(filters), items, filters,
                     right.items, rf, o, right.filters);
      filters := filters + right.filters;
      items := items + [OptionalStep(o)];
      bound := Some(Bound(outer.value.certain, outer.value.possible + inner.value.possible));
    }
  }

  lemma TaggedSnoc(ts: seq<TriplePattern>, k: nat, scope: Scope)
    requires k < |ts|
    ensures AsItems(TaggedWith(ts[..k + 1], scope)) == AsItems(TaggedWith(ts[..k], scope)) + [PatternStep(PatternItem(ts[k], scope))]
    ensures BranchVars(TaggedWith(ts[..k + 1], scope)) == BranchVars(TaggedWith(ts[..k], scope)) + TripleVars(ts[k]) + ScopeVars(scope)
  {
    assert ts[..k + 1] == ts[..k] + [ts[k]];
    TaggedAppend(ts[..k], ts[k], scope);
  }

  lemma {:induction false} TaggedAppend(ts: seq<TriplePattern>, t: TriplePattern, scope: Scope)
    ensures AsItems(TaggedWith(ts + [t], scope)) == AsItems(TaggedWith(ts, scope)) + [PatternStep(PatternItem(t, scope))]
    ensures BranchVars(TaggedWith(ts + [t], scope)) == BranchVars(TaggedWith(ts, scope)) + TripleVars(t) + ScopeVars(scope)
  {
    if ts == [] {
      assert ts + [t] == [t] && [t][1..] == [];
      assert TaggedWith([t], scope) == [PatternItem(t, scope)];
      assert [PatternItem(t, scope)][1..] == [];
    } else {
      var more := ts + [t];
      assert more[0] == ts[0] && more[1..] == ts[1..] + [t];
      TaggedAppend(ts[1..], t, scope);
      assert TaggedWith(more, scope)[1..] == TaggedWith(more[1..], scope);
      assert TaggedWith(ts, scope)[1..] == TaggedWith(ts[1..], scope);
    }
  }

  lemma EntriesSnoc(es: seq<Expr>, k: nat)
    requires k < |es|
    ensures Entries(es[..k + 1]) == Entries(es[..k]) + [FilterEntry(es[k], Needs(es[k]))]
  {
  }
}
