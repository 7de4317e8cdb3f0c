/** The plan collected from a pattern denotes the pattern's bag, case by case. */
module PlanMeaning {
  import opened Locks
  import opened Options
  import opened Bags
  import opened Rdf
  import opened Solutions
  import opened Expressions
  import opened Algebra
  import opened Items
  import opened Scopes
  import opened Commuting
  import opened Planning

  // --- One item --------------------------------------------------------------------------------------

  lemma OneItem(c: Context, fs: seq<FilterEntry>, item: Item)
    requires !item.OptionalStep?
    ensures Required([item]) == [item] && Optionals([item]) == []
    ensures CertainAll([item]) == CertainOf(item) && ItemsVars([item]) == VarsOf(item) && Owned([item]) == {}
    ensures Denoted(c, fs, [item], []) == ItemBag(c.view, item)
  {
    assert [item][1..] == [];
    JoinIdentity(ItemBag(c.view, item));
    assert Conj(c.view, [item]) == ItemBag(c.view, item);
    SelectEvery(ItemBag(c.view, item), Passing(c.rules, fs, []));
  }

  lemma BranchItems(c: Context, fs: seq<FilterEntry>, branch: seq<PatternItem>)
    ensures Required(AsItems(branch)) == AsItems(branch) && Optionals(AsItems(branch)) == []
    ensures CertainAll(AsItems(branch)) == BranchVars(branch) && ItemsVars(AsItems(branch)) == BranchVars(branch)
    ensures Owned(AsItems(branch)) == {}
    ensures Denoted(c, fs, AsItems(branch), []) == BranchConj(c.view, branch)
  {
    ConjOfBranch(c.view, branch);
    BranchItemVars(branch);
    SelectEvery(BranchConj(c.view, branch), Passing(c.rules, fs, []));
  }

  lemma {:induction false} BranchItemVars(branch: seq<PatternItem>)
    ensures CertainAll(AsItems(branch)) == BranchVars(branch) && ItemsVars(AsItems(branch)) == BranchVars(branch)
    ensures Owned(AsItems(branch)) == {}
  {
    if branch != [] {
      BranchItemVars(branch[1..]);
      assert AsItems(branch)[1..] == AsItems(branch[1..]);
    }
  }

  // --- Unions ------------------------------------------------------------------------------------------

  lemma {:induction false} CertainOfBoth(a: seq<seq<PatternItem>>, b: seq<seq<PatternItem>>)
    requires a != [] && b != []
    ensures BranchesCertain(a + b) == BranchesCertain(a) * BranchesCertain(b)
    ensures BranchesVars(a + b) == BranchesVars(a) + BranchesVars(b)
  {
    var ab := a + b;
    assert ab[0] == a[0] && ab[1..] == a[1..] + b;
    if |a| == 1 {
      assert ab[1..] == b;
    } else {
      CertainOfBoth(a[1..], b);
    }
  }

  lemma UnionIsFlat(c: Context, xs: seq<Solution>, ys: seq<Solution>, a: seq<seq<PatternItem>>, b: seq<seq<PatternItem>>)
    requires Same(xs, FlatMap(a, BranchBag(c.view))) && Same(ys, FlatMap(b, BranchBag(c.view)))
    ensures Same(xs + ys, FlatMap(a + b, BranchBag(c.view)))
  {
    FlatMapAppend(a, b, BranchBag(c.view));
    assert multiset(xs + ys) == multiset(xs) + multiset(ys);
  }

  lemma GraphIn(c: Context, name: Position, i: Pattern)
    ensures EvalIn(c, InDefault, Graph(name, i)) == EvalIn(c, ScopeOf(name), i)
  {
  }

  // The branches of a flattened union bind what the union does.
  lemma {:induction false} UnionBounds(p: Pattern, scope: Scope)
    requires UnionBranches(p, scope).Some?
    ensures var bs := UnionBranches(p, scope).value;
            bs != [] && BoundOf(p, scope) == Bound(BranchesCertain(bs), BranchesVars(bs))
  {
    match p
    case Union(l, r) =>
      UnionBounds(l, scope);
      UnionBounds(r, scope);
      CertainOfBoth(UnionBranches(l, scope).value, UnionBranches(r, scope).value);
    case Graph(name, i) => UnionBounds(i, ScopeOf(name));
    case Bgp(ts) =>
      assert BranchesVars([TaggedWith(ts, scope)]) == BranchVars(TaggedWith(ts, scope)) by {
        assert [TaggedWith(ts, scope)][1..] == [];
      }
  }

  lemma {:induction false} UnionScope(p: Pattern, scope: Scope)
    requires UnionBranches(p, scope).Some?
    ensures ScopeVars(scope) <= BoundOf(p, scope).certain
  {
    match p
    case Union(l, r) =>
      UnionScope(l, scope);
      UnionScope(r, scope);
    case Graph(name, i) =>
    case Bgp(ts) =>
      assert TaggedWith(ts, scope)[0] == PatternItem(ts[0], scope);
      assert PatternVars(TaggedWith(ts, scope)[0]) <= BranchVars(TaggedWith(ts, scope));
  }

  lemma {:induction false} UnionMeans(c: Context, p: Pattern, scope: Scope)
    requires UnionBranches(p, scope).Some?
    ensures Same(EvalIn(c, scope, p), FlatMap(UnionBranches(p, scope).value, BranchBag(c.view)))
  {
    match p
    case Union(l, r) =>
      UnionMeans(c, l, scope);
      UnionMeans(c, r, scope);
      EvalInUnion(c, scope, l, r);
      UnionIsFlat(c, EvalIn(c, scope, l), EvalIn(c, scope, r), UnionBranches(l, scope).value, UnionBranches(r, scope).value);
    case Graph(name, i) =>
      GraphIn(c, name, i);
      UnionMeans(c, i, ScopeOf(name));
    case Bgp(ts) =>
      BgpIn(c, scope, ts);
      FlatMapOne(TaggedWith(ts, scope), BranchBag(c.view));
  }

  // --- Paths -------------------------------------------------------------------------------------------

  lemma OnlyPattern(p: PatternItem)
    ensures BranchesVars([[p]]) == PatternVars(p) && BranchesCertain([[p]]) == PatternVars(p)
  {
    assert [p][1..] == [] && [[p]][1..] == [];
    assert BranchVars([p]) == PatternVars(p);
  }

  lemma {:induction false} PathBounds(e: PathExpr, s: Position, o: Position, scope: Scope)
    requires PathAlternatives(e, s, o, scope).Some?
    ensures var bs := PathAlternatives(e, s, o, scope).value;
            bs != [] && BranchesCertain(bs) == BranchesVars(bs) == PositionVars(s) + PositionVars(o) + ScopeVars(scope)
  {
    match e
    case Link(p) => OnlyPattern(PatternItem(TriplePattern(s, T(p), o), scope));
    case Alternative(a, b) =>
      PathBounds(a, s, o, scope);
      PathBounds(b, s, o, scope);
      CertainOfBoth(PathAlternatives(a, s, o, scope).value, PathAlternatives(b, s, o, scope).value);
  }

  // `s a|b o` is `{ s a o } UNION { s b o }`, and a path of one link is a triple pattern.
  lemma {:induction false} PathMeans(c: Context, e: PathExpr, s: Position, o: Position, scope: Scope)
    requires PathAlternatives(e, s, o, scope).Some?
    ensures Same(EvalIn(c, scope, Path(s, e, o)), FlatMap(PathAlternatives(e, s, o, scope).value, BranchBag(c.view)))
  {
    match e
    case Link(p) =>
      var t := TriplePattern(s, T(p), o);
      LinkIsTriple(c, scope, t);
      BgpIn(c, scope, [t]);
      assert [t][1..] == [] && TaggedWith([t], scope) == [PatternItem(t, scope)];
      FlatMapOne([PatternItem(t, scope)], BranchBag(c.view));
    case Alternative(a, b) =>
      PathMeans(c, a, s, o, scope);
      PathMeans(c, b, s, o, scope);
      AlternativeIsUnion(c, scope, s, a, b, o);
      EvalInUnion(c, scope, Path(s, a, o), Path(s, b, o));
      UnionIsFlat(c, EvalIn(c, scope, Path(s, a, o)), EvalIn(c, scope, Path(s, b, o)),
                  PathAlternatives(a, s, o, scope).value, PathAlternatives(b, s, o, scope).value);
  }

  lemma LinkIsTriple(c: Context, scope: Scope, t: TriplePattern)
    requires t.p.T?
    ensures EvalIn(c, scope, Path(t.s, Link(t.p.t), t.o)) == EvalIn(c, scope, Bgp([t]))
  {
    forall active
      ensures Eval(c, active, Path(t.s, Link(t.p.t), t.o)) == Eval(c, active, Bgp([t]))
    {
      BgpOne(c.view, active, t);
    }
    EvalInEqual(c, scope, Path(t.s, Link(t.p.t), t.o), Bgp([t]));
  }

  lemma AlternativeIsUnion(c: Context, scope: Scope, s: Position, a: PathExpr, b: PathExpr, o: Position)
    ensures EvalIn(c, scope, Path(s, Alternative(a, b), o)) == EvalIn(c, scope, Union(Path(s, a, o), Path(s, b, o)))
  {
    EvalInEqual(c, scope, Path(s, Alternative(a, b), o), Union(Path(s, a, o), Path(s, b, o)));
  }

  lemma EvalInEqual(c: Context, scope: Scope, p: Pattern, q: Pattern)
    requires forall active :: Eval(c, active, p) == Eval(c, active, q)
    ensures EvalIn(c, scope, p) == EvalIn(c, scope, q)
  {
    if scope.InEach? {
      var names := Listing(c.view.GraphNames());
      EvalEachIsEach(c, names, scope.v, p);
      EvalEachIsEach(c, names, scope.v, q);
      EqualEach(names, scope.v, EvalAt(c, p), EvalAt(c, q));
    }
  }

  lemma EvalInSolid(c: Context, scope: Scope, p: Pattern)
    requires Solid(c.view, scope)
    ensures EvalIn(c, scope, p) == Eval(c, GraphOf(scope), p)
  {
  }

  // --- Conjunctions of filters -----------------------------------------------------------------------------

  lemma {:induction false} ConjunctsBound(e: Expr, bound: set<Var>)
    requires Hoistable(Conjuncts(e), bound)
    ensures Inspectable(e) && Needs(e) <= bound
  {
    match e
    case And(a, b) =>
      var es := Conjuncts(e);
      assert es == Conjuncts(a) + Conjuncts(b);
      assert forall i :: 0 <= i < |Conjuncts(a)| ==> es[i] == Conjuncts(a)[i];
      assert forall i :: 0 <= i < |Conjuncts(b)| ==> es[|Conjuncts(a)| + i] == Conjuncts(b)[i];
      ConjunctsBound(a, bound);
      ConjunctsBound(b, bound);
    case _ =>
      assert Conjuncts(e)[0] == e;
  }

  lemma EntryPasses(r: Rules, e: Expr, s: Solution)
    requires Inspectable(e) && Needs(e) <= s.Keys
    ensures Passes(r, FilterEntry(e, Needs(e)), s) == Holds(r, e, s)
  {
    EvaluateLocal(r, e, s, Restrict(s, Needs(e)));
  }

  ghost predicate EachPasses(r: Rules, filters: seq<FilterEntry>, s: Solution) {
    forall k :: 0 <= k < |filters| ==> Passes(r, filters[k], s)
  }

  lemma {:induction false} EachEntryPasses(r: Rules, es: seq<Expr>, s: Solution)
    requires Hoistable(es, s.Keys)
    ensures EachPasses(r, Entries(es), s) <==> forall x :: x in es ==> Holds(r, x, s)
  {
    forall k | 0 <= k < |es|
      ensures Passes(r, Entries(es)[k], s) == Holds(r, es[k], s)
    {
      EntryPasses(r, es[k], s);
    }
    assert EachPasses(r, Entries(es), s) <==> forall k :: 0 <= k < |es| ==> Holds(r, es[k], s);
  }

  // The expression holds exactly when each entry made from it passes.
  lemma EntriesPass(r: Rules, e: Expr, s: Solution)
    requires Hoistable(Conjuncts(e), s.Keys)
    ensures Holds(r, e, s) <==> EachPasses(r, Entries(Conjuncts(e)), s)
  {
    ConjunctsHold(r, e, s);
    EachEntryPasses(r, Conjuncts(e), s);
  }

  // A row's entries, read at their place in the plan.
  lemma PlacedPass(r: Rules, fs: seq<FilterEntry>, first: nat, filters: seq<FilterEntry>, s: Solution)
    requires Placed(fs, first, filters)
    ensures PassesEach(r, fs, Range(first, |filters|), s) <==> EachPasses(r, filters, s)
  {
    assert forall k :: 0 <= k < |filters| ==> fs[first + k] == filters[k];
    if PassesEach(r, fs, Range(first, |filters|), s) {
      forall k | 0 <= k < |filters|
        ensures Passes(r, filters[k], s)
      {
        assert first + k in Range(first, |filters|);
      }
    }
    if EachPasses(r, filters, s) {
      forall i | i in Range(first, |filters|)
        ensures i < |fs| && Passes(r, fs[i], s)
      {
        assert fs[i] == filters[i - first];
      }
    }
  }

  lemma PlacedParts(fs: seq<FilterEntry>, first: nat, a: seq<FilterEntry>, b: seq<FilterEntry>)
    requires Placed(fs, first, a + b)
    ensures Placed(fs, first, a) && Placed(fs, first + |a|, b)
  {
    var part := fs[first..first + |a + b|];
    assert part[..|a|] == a && part[|a|..] == b;
    assert fs[first..first + |a|] == part[..|a|];
    assert fs[first + |a|..first + |a| + |b|] == part[|a|..];
  }

  // --- Join ------------------------------------------------------------------------------------------------

  ghost predicate Means(c: Context, fs: seq<FilterEntry>, p: Pattern, scope: Scope, d: Collected, first: nat) {
    Sound(fs, p, scope, d, first) && Same(EvalIn(c, scope, p), Denoted(c, fs, d.items, Which(d, first)))
  }

  lemma JoinParts(xs: seq<Item>, ys: seq<Item>)
    ensures Required(xs + ys) == Required(xs) + Required(ys) && Optionals(xs + ys) == Optionals(xs) + Optionals(ys)
    ensures CertainAll(Required(xs + ys)) == CertainAll(Required(xs)) + CertainAll(Required(ys))
    ensures ItemsVars(xs + ys) == ItemsVars(xs) + ItemsVars(ys) && Owned(xs + ys) == Owned(xs) + Owned(ys)
  {
    RequiredAppend(xs, ys);
    CertainAppend(Required(xs), Required(ys));
    VarsAppend(xs, ys);
  }

  lemma JoinSoundFilters(fs: seq<FilterEntry>, a: Collected, b: Collected, first: nat, mid: nat, ca: set<Var>, cb: set<Var>)
    requires mid == first + |a.filters|
    requires SoundFilters(fs, a, first, ca) && SoundFilters(fs, b, mid, cb)
    ensures SoundFilters(fs, Collected(a.items + b.items, a.filters + b.filters), first, ca + cb)
  {
    var d := Collected(a.items + b.items, a.filters + b.filters);
    WhichSplits(a, b, first, mid);
    JoinParts(a.items, b.items);
  }

  lemma JoinSoundOptionals(fs: seq<FilterEntry>, xs: seq<Item>, ys: seq<Item>)
    requires SoundOptionals(fs, xs) && SoundOptionals(fs, ys)
    ensures SoundOptionals(fs, xs + ys)
  {
    JoinParts(xs, ys);
    var certain := CertainAll(Required(xs + ys));
    FencedMore(fs, Optionals(xs), CertainAll(Required(xs)), certain);
    FencedMore(fs, Optionals(ys), CertainAll(Required(ys)), certain);
    var os := Optionals(xs + ys);
    forall i | 0 <= i < |os|
      ensures Fenced(fs, os[i], certain) && os[i].own <= ItemsVars(os[i].items)
    {
      assert os[i] == if i < |Optionals(xs)| then Optionals(xs)[i] else Optionals(ys)[i - |Optionals(xs)|];
    }
  }

  lemma JoinSound(fs: seq<FilterEntry>, l: Pattern, r: Pattern, scope: Scope, a: Collected, b: Collected, first: nat, mid: nat)
    requires mid == first + |a.filters|
    requires Sound(fs, l, scope, a, first) && Sound(fs, r, scope, b, mid)
    ensures Sound(fs, Join(l, r), scope, Collected(a.items + b.items, a.filters + b.filters), first)
  {
    Opened(fs, l, scope, a, first);
    Opened(fs, r, scope, b, mid);
    JoinParts(a.items, b.items);
    JoinSoundFilters(fs, a, b, first, mid, CertainAll(Required(a.items)), CertainAll(Required(b.items)));
    JoinSoundOptionals(fs, a.items, b.items);
  }

  lemma NeedsSettled(r: Rules, fs: seq<FilterEntry>, which: seq<nat>, x: Solution, m: Solution)
    requires Extends(x, m)
    requires forall i :: i in which ==> i < |fs| && fs[i].needs <= x.Keys
    ensures PassesEach(r, fs, which, m) == PassesEach(r, fs, which, x)
  {
    forall i | i in which
      ensures Passes(r, fs[i], m) == Passes(r, fs[i], x)
    {
      PassesLocal(r, fs[i], m, x);
    }
  }

  lemma SidesSettled(c: Context, fs: seq<FilterEntry>, a: Collected, b: Collected, first: nat, mid: nat, x: Solution, y: Solution)
    requires mid == first + |a.filters|
    requires SoundFilters(fs, a, first, CertainAll(Required(a.items)))
    requires SoundFilters(fs, b, mid, CertainAll(Required(b.items)))
    requires x in Conj(c.view, Required(a.items)) && y in Conj(c.view, Required(b.items)) && Compatible(x, y)
    ensures PassesEach(c.rules, fs, Which(a, first), x + y) == PassesEach(c.rules, fs, Which(a, first), x)
    ensures PassesEach(c.rules, fs, Which(b, mid), x + y) == PassesEach(c.rules, fs, Which(b, mid), y)
  {
    RequiredBinds(c.view, a.items, x);
    RequiredBinds(c.view, b.items, y);
    NeedsSettled(c.rules, fs, Which(a, first), x, x + y);
    NeedsSettled(c.rules, fs, Which(b, mid), y, x + y);
  }

  lemma RequiredBoth(c: Context, fs: seq<FilterEntry>, a: Collected, b: Collected, first: nat, mid: nat)
    requires mid == first + |a.filters|
    requires SoundFilters(fs, a, first, CertainAll(Required(a.items)))
    requires SoundFilters(fs, b, mid, CertainAll(Required(b.items)))
    ensures JoinBags(Passed(c, fs, a.items, Which(a, first)), Passed(c, fs, b.items, Which(b, mid)))
         == Select(JoinBags(Conj(c.view, Required(a.items)), Conj(c.view, Required(b.items))),
                   Commuting.Both(Passing(c.rules, fs, Which(a, first)), Passing(c.rules, fs, Which(b, mid))))
  {
    var xs, ys := Conj(c.view, Required(a.items)), Conj(c.view, Required(b.items));
    var p, q := Passing(c.rules, fs, Which(a, first)), Passing(c.rules, fs, Which(b, mid));
    forall x, y | x in xs && y in ys && Compatible(x, y)
      ensures p(x + y) == p(x) && q(x + y) == q(y)
    {
      SidesSettled(c, fs, a, b, first, mid, x, y);
    }
    SelectJoin(xs, ys, p, q);
  }

  lemma BothPass(r: Rules, fs: seq<FilterEntry>, a: seq<nat>, b: seq<nat>, both: seq<nat>, xs: seq<Solution>)
    requires forall i :: i in both <==> i in a || i in b
    ensures Select(xs, Commuting.Both(Passing(r, fs, a), Passing(r, fs, b))) == Select(xs, Passing(r, fs, both))
  {
    SelectEqual(xs, Commuting.Both(Passing(r, fs, a), Passing(r, fs, b)), Passing(r, fs, both));
  }

  // The required parts of both sides join to the required part of the whole.
  lemma JoinRequired(c: Context, fs: seq<FilterEntry>, l: Pattern, r: Pattern, scope: Scope, a: Collected, b: Collected, first: nat, mid: nat)
    requires mid == first + |a.filters|
    requires Sound(fs, l, scope, a, first) && Sound(fs, r, scope, b, mid)
    ensures var d := Collected(a.items + b.items, a.filters + b.filters);
            JoinBags(Passed(c, fs, a.items, Which(a, first)), Passed(c, fs, b.items, Which(b, mid)))
              == Passed(c, fs, d.items, Which(d, first))
  {
    Opened(fs, l, scope, a, first);
    Opened(fs, r, scope, b, mid);
    var d := Collected(a.items + b.items, a.filters + b.filters);
    RequiredBoth(c, fs, a, b, first, mid);
    JoinParts(a.items, b.items);
    ConjAppend(c.view, Required(a.items), Required(b.items));
    WhichSplits(a, b, first, mid);
    BothPass(c.rules, fs, Which(a, first), Which(b, mid), Which(d, first), Conj(c.view, Required(d.items)));
  }

  lemma WhichSplits(a: Collected, b: Collected, first: nat, mid: nat)
    requires mid == first + |a.filters|
    requires OwnedWithin(a.items, first, |a.filters|) && OwnedWithin(b.items, mid, |b.filters|)
    ensures var d := Collected(a.items + b.items, a.filters + b.filters);
            forall i :: i in Which(d, first) <==> i in Which(a, first) || i in Which(b, mid)
  {
    JoinParts(a.items, b.items);
  }

  lemma OptionalsLast(c: Context, fs: seq<FilterEntry>, xs: seq<Solution>, ys: seq<Solution>, oa: seq<OptionalItem>, ob: seq<OptionalItem>,
                      ca: set<Var>, cb: set<Var>, left: set<Var>, right: set<Var>)
    requires FencedAll(fs, oa, ca) && FencedAll(fs, ob, cb) && AllBind(xs, ca) && AllBind(ys, cb)
    requires forall m :: m in LeftJoins(c, fs, xs, oa) ==> m.Keys <= left
    requires forall y :: y in ys ==> y.Keys <= right
    requires forall i :: 0 <= i < |oa| ==> oa[i].own !! right
    requires forall i :: 0 <= i < |ob| ==> ob[i].own !! left
    ensures Same(JoinBags(LeftJoins(c, fs, xs, oa), LeftJoins(c, fs, ys, ob)),
                 LeftJoins(c, fs, JoinBags(xs, ys), oa + ob))
  {
    var lefts := LeftJoins(c, fs, xs, oa);
    LeftJoinsCommuteRight(c, fs, ob, cb, lefts, ys);
    LeftJoinsCommute(c, fs, oa, ca, xs, ys);
    LeftJoinsSame(c, fs, JoinBags(lefts, ys), LeftJoins(c, fs, JoinBags(xs, ys), oa), ob);
    LeftJoinsConcat(c, fs, JoinBags(xs, ys), oa, ob);
  }

  // A part's rows, before and after its optionals, and the fence around those.
  ghost predicate Sided(c: Context, fs: seq<FilterEntry>, d: Collected, first: nat) {
    forall k {:trigger Unlock(k)} :: Unlock(k) ==> SidedNow(c, fs, d, first)
  }

  ghost predicate SidedNow(c: Context, fs: seq<FilterEntry>, d: Collected, first: nat) {
    var xs := Passed(c, fs, d.items, Which(d, first));
    && FencedAll(fs, Optionals(d.items), CertainAll(Required(d.items)))
    && AllBind(xs, CertainAll(Required(d.items)))
    && (forall x :: x in xs ==> x.Keys <= ItemsVars(d.items))
    && (forall m :: m in LeftJoins(c, fs, xs, Optionals(d.items)) ==> m.Keys <= ItemsVars(d.items))
  }

  lemma SidedJoin(c: Context, fs: seq<FilterEntry>, a: Collected, b: Collected, first: nat, mid: nat)
    requires Sided(c, fs, a, first) && Sided(c, fs, b, mid) && AllApart(a.items + b.items)
    ensures Same(JoinBags(Denoted(c, fs, a.items, Which(a, first)), Denoted(c, fs, b.items, Which(b, mid))),
                 LeftJoins(c, fs, JoinBags(Passed(c, fs, a.items, Which(a, first)), Passed(c, fs, b.items, Which(b, mid))),
                           Optionals(a.items) + Optionals(b.items)))
  {
    assert Unlock(Key);
    ApartSides(a.items, b.items);
    OptionalsLast(c, fs, Passed(c, fs, a.items, Which(a, first)), Passed(c, fs, b.items, Which(b, mid)),
                  Optionals(a.items), Optionals(b.items), CertainAll(Required(a.items)), CertainAll(Required(b.items)),
                  ItemsVars(a.items), ItemsVars(b.items));
  }

  lemma JoinDenoted(c: Context, fs: seq<FilterEntry>, l: Pattern, r: Pattern, scope: Scope, a: Collected, b: Collected, first: nat, mid: nat)
    requires mid == first + |a.filters|
    requires Sound(fs, l, scope, a, first) && Sound(fs, r, scope, b, mid)
    requires AllApart(a.items + b.items)
    ensures var d := Collected(a.items + b.items, a.filters + b.filters);
            Same(JoinBags(Denoted(c, fs, a.items, Which(a, first)), Denoted(c, fs, b.items, Which(b, mid))),
                 Denoted(c, fs, d.items, Which(d, first)))
  {
    SidesBind(c, fs, l, scope, a, first);
    SidesBind(c, fs, r, scope, b, mid);
    SidedJoin(c, fs, a, b, first, mid);
    JoinRequired(c, fs, l, r, scope, a, b, first, mid);
    JoinParts(a.items, b.items);
  }

  lemma SidesBind(c: Context, fs: seq<FilterEntry>, p: Pattern, scope: Scope, d: Collected, first: nat)
    requires Sound(fs, p, scope, d, first)
    ensures Sided(c, fs, d, first)
  {
    Opened(fs, p, scope, d, first);
    var xs := Passed(c, fs, d.items, Which(d, first));
    OwnCovered(d.items);
    forall x | x in xs
      ensures CertainAll(Required(d.items)) <= x.Keys <= ItemsVars(d.items)
    {
      RequiredBind(c, fs, d.items, Which(d, first), x);
    }
    forall m | m in LeftJoins(c, fs, xs, Optionals(d.items))
      ensures m.Keys <= ItemsVars(d.items)
    {
      var a := LeftJoinsBind(c, fs, Optionals(d.items), CertainAll(Required(d.items)), xs, m);
    }
  }

  // --- Filter ------------------------------------------------------------------------------------------------

  // An entry of the plan, found in the part it was placed with.
  lemma PlacedAt(fs: seq<FilterEntry>, first: nat, filters: seq<FilterEntry>, i: nat)
    requires Placed(fs, first, filters) && first <= i < first + |filters|
    ensures fs[i] == filters[i - first]
  {
    assert fs[i] == fs[first..first + |filters|][i - first];
  }

  lemma EntriesInspected(es: seq<Expr>, bound: set<Var>)
    requires Hoistable(es, bound)
    ensures Inspected(Entries(es)) && forall k :: 0 <= k < |es| ==> Entries(es)[k].needs <= bound
  {
  }

  lemma FilterSoundFilters(fs: seq<FilterEntry>, a: Collected, es: seq<FilterEntry>, first: nat, certain: set<Var>)
    requires SoundFilters(fs, a, first, certain) && Inspected(es) && Placed(fs, first, a.filters + es)
    requires forall k :: 0 <= k < |es| ==> es[k].needs <= certain
    ensures SoundFilters(fs, Collected(a.items, a.filters + es), first, certain)
  {
    var d := Collected(a.items, a.filters + es);
    forall k | k in Which(d, first)
      ensures k < |fs| && fs[k].needs <= certain
    {
      PlacedAt(fs, first, a.filters + es, k);
      if k < first + |a.filters| {
        assert k in Which(a, first);
      }
    }
  }

  lemma FilterSound(fs: seq<FilterEntry>, e: Expr, i: Pattern, scope: Scope, a: Collected, first: nat)
    requires Sound(fs, i, scope, a, first) && Hoistable(Conjuncts(e), BoundOf(i, scope).certain)
    requires Placed(fs, first, a.filters + Entries(Conjuncts(e)))
    ensures Sound(fs, Filter(e, i), scope, Collected(a.items, a.filters + Entries(Conjuncts(e))), first)
  {
    Opened(fs, i, scope, a, first);
    EntriesInspected(Conjuncts(e), BoundOf(i, scope).certain);
    FilterSoundFilters(fs, a, Entries(Conjuncts(e)), first, CertainAll(Required(a.items)));
  }

  lemma FilterDenoted(c: Context, fs: seq<FilterEntry>, e: Expr, i: Pattern, scope: Scope, a: Collected, first: nat)
    requires Sound(fs, i, scope, a, first) && Hoistable(Conjuncts(e), BoundOf(i, scope).certain)
    requires Placed(fs, first, a.filters + Entries(Conjuncts(e)))
    ensures var d := Collected(a.items, a.filters + Entries(Conjuncts(e)));
            Select(Denoted(c, fs, a.items, Which(a, first)), Keeps(c.rules, e)) == Denoted(c, fs, d.items, Which(d, first))
  {
    Opened(fs, i, scope, a, first);
    var es, keep := Entries(Conjuncts(e)), Keeps(c.rules, e);
    var d := Collected(a.items, a.filters + es);
    var certain := CertainAll(Required(a.items));
    ConjunctsBound(e, certain);
    SidesBind(c, fs, i, scope, a, first);
    assert Unlock(Key);
    forall x: Solution, m: Solution | certain <= x.Keys && Extends(x, m)
      ensures keep(m) == keep(x)
    {
      EvaluateLocal(c.rules, e, x, m);
    }
    LeftJoinsFiltered(c, fs, Optionals(a.items), certain, Passed(c, fs, a.items, Which(a, first)), keep);
    var k := Conj(c.view, Required(a.items));
    SelectTwice(k, Passing(c.rules, fs, Which(a, first)), keep);
    forall s | s in k
      ensures Commuting.Both(Passing(c.rules, fs, Which(a, first)), keep)(s) == Passing(c.rules, fs, Which(d, first))(s)
    {
      RequiredBinds(c.view, a.items, s);
      FilterEntries(c.rules, fs, e, a, first, s);
    }
    SelectEqual(k, Commuting.Both(Passing(c.rules, fs, Which(a, first)), keep), Passing(c.rules, fs, Which(d, first)));
  }

  lemma FilterEntries(r: Rules, fs: seq<FilterEntry>, e: Expr, a: Collected, first: nat, s: Solution)
    requires Hoistable(Conjuncts(e), s.Keys) && Placed(fs, first, a.filters + Entries(Conjuncts(e)))
    requires OwnedWithin(a.items, first, |a.filters|)
    ensures var d := Collected(a.items, a.filters + Entries(Conjuncts(e)));
            PassesEach(r, fs, Which(d, first), s) <==> PassesEach(r, fs, Which(a, first), s) && Holds(r, e, s)
  {
    var es, mid := Entries(Conjuncts(e)), first + |a.filters|;
    var d := Collected(a.items, a.filters + es);
    PlacedParts(fs, first, a.filters, es);
    EntriesPass(r, e, s);
    PlacedPass(r, fs, mid, es, s);
    assert forall i :: i in Which(d, first) <==> i in Which(a, first) || i in Range(mid, |es|);
  }

  // --- Optional ----------------------------------------------------------------------------------------------

  // Optionals without filters do not depend on where the numbering starts.
  lemma {:induction false} CollectNoIndex(p: Pattern, scope: Scope, m: nat, n: nat)
    requires BareOptionals(p)
    ensures Collect(p, scope, m) == Collect(p, scope, n)
  {
    match p
    case Join(l, r) =>
      CollectNoIndex(l, scope, m, n);
      var a := Collect(l, scope, m);
      if a.Some? {
        CollectNoIndex(r, scope, m + |a.value.filters|, n + |a.value.filters|);
      }
    case LeftJoin(l, r, condition) =>
      CollectNoIndex(l, scope, m, n);
      HoistedCount(r, scope, 0);
    case Filter(_, i) => CollectNoIndex(i, scope, m, n);
    case Graph(name, i) => CollectNoIndex(i, ScopeOf(name), m, n);
    case _ =>
  }

  lemma {:induction false} HoistedCount(p: Pattern, scope: Scope, first: nat)
    ensures Collect(p, scope, first).Some? ==> |Collect(p, scope, first).value.filters| == Hoisted(p)
  {
    match p
    case Join(l, r) =>
      HoistedCount(l, scope, first);
      HoistedCount(r, scope, first + Hoisted(l));
      HoistedJoin(l, r, scope, first);
    case LeftJoin(l, r, condition) =>
      HoistedCount(l, scope, first);
      HoistedCount(r, scope, 0);
      HoistedOptional(l, r, condition, scope, first);
    case Filter(e, i) =>
      HoistedCount(i, scope, first);
      HoistedFilter(e, i, scope, first);
    case Graph(name, i) => HoistedCount(i, ScopeOf(name), first);
    case Project(i, _) => HoistedCount(i, scope, 0);
    case _ =>
  }

  lemma HoistedJoin(l: Pattern, r: Pattern, scope: Scope, first: nat)
    requires Collect(l, scope, first).Some? ==> |Collect(l, scope, first).value.filters| == Hoisted(l)
    requires Collect(r, scope, first + Hoisted(l)).Some? ==> |Collect(r, scope, first + Hoisted(l)).value.filters| == Hoisted(r)
    ensures Collect(Join(l, r), scope, first).Some? ==> |Collect(Join(l, r), scope, first).value.filters| == Hoisted(Join(l, r))
  {
  }

  lemma HoistedFilter(e: Expr, i: Pattern, scope: Scope, first: nat)
    requires Collect(i, scope, first).Some? ==> |Collect(i, scope, first).value.filters| == Hoisted(i)
    ensures Collect(Filter(e, i), scope, first).Some? ==> |Collect(Filter(e, i), scope, first).value.filters| == Hoisted(Filter(e, i))
  {
  }

  lemma HoistedOptional(l: Pattern, r: Pattern, condition: Option<Expr>, scope: Scope, first: nat)
    requires var p := LeftJoin(l, r, condition); Collect(p, scope, first).Some? ==>
               |Collect(l, scope, first).value.filters| == Hoisted(l) && |Collect(r, scope, 0).value.filters| == Hoisted(r)
    ensures var p := LeftJoin(l, r, condition); Collect(p, scope, first).Some? ==> |Collect(p, scope, first).value.filters| == Hoisted(p)
  {
  }

  ghost predicate Unfiltered(os: seq<OptionalItem>) {
    forall i :: 0 <= i < |os| ==> os[i].filters == []
  }

  lemma {:induction false} CollectBare(p: Pattern, scope: Scope, first: nat)
    requires BareOptionals(p) && Collect(p, scope, first).Some?
    ensures Unfiltered(Optionals(Collect(p, scope, first).value.items))
  {
    match p
    case Join(l, r) =>
      var a := Collect(l, scope, first).value;
      CollectBare(l, scope, first);
      CollectBare(r, scope, first + |a.filters|);
      RequiredAppend(a.items, Collect(r, scope, first + |a.filters|).value.items);
    case LeftJoin(l, r, condition) =>
      var a := Collect(l, scope, first).value;
      CollectBare(l, scope, first);
      HoistedCount(r, scope, 0);
      AppendOptional(a.items, OptionalOf(l, r, condition, scope, Collect(r, scope, 0).value, first + |a.filters|));
    case Filter(_, i) => CollectBare(i, scope, first);
    case Graph(name, i) => CollectBare(i, ScopeOf(name), first);
    case Project(i, _) => CollectBare(i, scope, 0);
    case Bgp(ts) =>
      var items := Collect(p, scope, first).value.items;
      assert forall i :: 0 <= i < |items| ==> items[i] in items;
      OnlyRequired(items);
    case Path(_, _, _) => OnlyRequired(Collect(p, scope, first).value.items);
    case Values(_, _) => OnlyRequired(Collect(p, scope, first).value.items);
    case Union(_, _) => OnlyRequired(Collect(p, scope, first).value.items);
    case _ =>
  }

  // What an optional's own optionals come to, once the plan is well designed.
  lemma BareSide(fs: seq<FilterEntry>, items: seq<Item>)
    requires SoundOptionals(fs, items) && Unfiltered(Optionals(items)) && NothingNew(items)
    ensures BareWithin(items) && Owned(items) == {}
  {
    forall i | 0 <= i < |Optionals(items)|
      ensures (SmallerOptional(items, i); Bare(Optionals(items)[i], CertainAll(Required(items))))
    {
      SmallerOptional(items, i);
      assert Fenced(fs, Optionals(items)[i], CertainAll(Required(items)));
      OptionalGathered(items, i);
    }
    BareOwned(items);
  }

  lemma {:induction false} OptionalGathered(items: seq<Item>, i: nat)
    requires i < |Optionals(items)|
    ensures Optionals(items)[i] in Gather(items)
  {
    if items[0].OptionalStep? {
      if i == 0 {
        assert GatherIn(items[0])[0] == items[0].optional;
      } else {
        OptionalGathered(items[1..], i - 1);
      }
    } else {
      OptionalGathered(items[1..], i);
    }
  }

  // An optional with no filters reads none, whichever list it is given.
  lemma {:induction false} InnerFree(c: Context, fs: seq<FilterEntry>, gs: seq<FilterEntry>, items: seq<Item>)
    requires BareWithin(items)
    ensures Inner(c, fs, items) == Inner(c, gs, items)
    decreases TotalSize(items), 1
  {
    StepsSize(items);
    LeftJoinsFree(c, fs, gs, Conj(c.view, Required(items)), Optionals(items), CertainAll(Required(items)));
  }

  lemma OptionalFree(c: Context, fs: seq<FilterEntry>, gs: seq<FilterEntry>, o: OptionalItem, a: Solution)
    requires o.filters == [] && Inner(c, fs, o.items) == Inner(c, gs, o.items)
    ensures OptionalFor(c, fs, o)(a) == OptionalFor(c, gs, o)(a)
  {
    var rows := JoinOne(a, Inner(c, fs, o.items));
    SelectEqual(rows, Passing(c.rules, fs, o.filters), Passing(c.rules, gs, o.filters));
    assert OptionalMatches(c, fs, o, a) == OptionalMatches(c, gs, o, a);
  }

  lemma {:induction false} LeftJoinsFree(c: Context, fs: seq<FilterEntry>, gs: seq<FilterEntry>, xs: seq<Solution>, os: seq<OptionalItem>,
                                         shared: set<Var>)
    requires forall i :: 0 <= i < |os| ==> Bare(os[i], shared)
    ensures LeftJoins(c, fs, xs, os) == LeftJoins(c, gs, xs, os)
    decreases TotalSize(Steps(os)), 0
  {
    if os != [] {
      StepsHead(os);
      var f, g := OptionalFor(c, fs, os[0]), OptionalFor(c, gs, os[0]);
      InnerFree(c, fs, gs, os[0].items);
      forall a | a in xs
        ensures f(a) == g(a)
      {
        OptionalFree(c, fs, gs, os[0], a);
      }
      FlatMapEqual(xs, f, g);
      LeftJoinsFree(c, fs, gs, FlatMap(xs, f), os[1..], shared);
    }
  }

  lemma AppendOptional(items: seq<Item>, o: OptionalItem)
    ensures Required(items + [OptionalStep(o)]) == Required(items)
    ensures Optionals(items + [OptionalStep(o)]) == Optionals(items) + [o]
    ensures ItemsVars(items + [OptionalStep(o)]) == ItemsVars(items) + ItemsVars(o.items)
    ensures Owned(items + [OptionalStep(o)]) == Owned(items) + Owned(o.items) + set i | i in o.filters
  {
    var one := [OptionalStep(o)];
    RequiredAppend(items, one);
    VarsAppend(items, one);
    assert one[1..] == [];
    assert Required(one) == [] && Optionals(one) == [o];
    assert Owned(one) == OwnedIn(OptionalStep(o)) + Owned([]);
    assert Required(items) + [] == Required(items);
  }

  // An OPTIONAL as `collect` adds it: its own item, and the filters it hoists.
  ghost predicate Added(l: Pattern, r: Pattern, condition: Option<Expr>, scope: Scope, b: Collected, at: nat,
                        o: OptionalItem, theirs: seq<FilterEntry>) {
    && BareOptionals(r) && SharesCertain(l, r, scope) && Leaked(l) + Leaked(r) == {}
    && Hoistable(Conditions(condition), BoundOf(r, scope).certain + BoundOf(l, scope).certain)
    && o == OptionalOf(l, r, condition, scope, b, at)
    && theirs == b.filters + Entries(Conditions(condition))
  }

  lemma OptionalFenced(fs: seq<FilterEntry>, l: Pattern, r: Pattern, condition: Option<Expr>, scope: Scope, items: seq<Item>, b: Collected,
                       at: nat, o: OptionalItem, theirs: seq<FilterEntry>)
    requires SoundVars(l, scope, items) && SoundVars(r, scope, b.items) && SoundFilters(b.filters, b, 0, CertainAll(Required(b.items)))
    requires BareWithin(b.items) && Owned(b.items) == {} && Added(l, r, condition, scope, b, at, o, theirs) && Placed(fs, at, theirs)
    ensures Fenced(fs, o, CertainAll(Required(items))) && o.own <= ItemsVars(o.items)
  {
    var shared := CertainAll(Required(items));
    forall v | v in ItemsVars(o.items)
      ensures v in o.own + shared
    {
      if v in BoundOf(r, scope).possible && v in BoundOf(l, scope).possible {
        assert v in BoundOf(r, scope).possible * BoundOf(l, scope).possible;
      }
    }
    forall i | i in o.filters
      ensures i < |fs| && fs[i].needs <= shared + CertainAll(Required(o.items))
    {
      PlacedAt(fs, at, theirs, i);
      if i - at < |b.filters| {
        assert i - at in Which(b, 0);
      }
    }
  }

  lemma OptionalSoundVars(l: Pattern, r: Pattern, condition: Option<Expr>, scope: Scope, xs: seq<Item>, b: Collected, o: OptionalItem)
    requires SoundVars(l, scope, xs) && SoundVars(r, scope, b.items) && o.items == b.items
    ensures SoundVars(LeftJoin(l, r, condition), scope, xs + [OptionalStep(o)])
  {
    AppendOptional(xs, o);
  }

  lemma InspectedBoth(xs: seq<FilterEntry>, ys: seq<FilterEntry>)
    requires Inspected(xs) && Inspected(ys)
    ensures Inspected(xs + ys)
  {
  }

  lemma TheirsInspected(l: Pattern, r: Pattern, condition: Option<Expr>, scope: Scope, b: Collected, at: nat,
                        o: OptionalItem, theirs: seq<FilterEntry>)
    requires Added(l, r, condition, scope, b, at, o, theirs) && Inspected(b.filters)
    ensures Inspected(theirs) && o.filters == Range(at, |theirs|) && o.items == b.items
  {
    EntriesInspected(Conditions(condition), BoundOf(r, scope).certain + BoundOf(l, scope).certain);
    InspectedBoth(b.filters, Entries(Conditions(condition)));
  }

  lemma OptionalSound(fs: seq<FilterEntry>, l: Pattern, r: Pattern, condition: Option<Expr>, scope: Scope, a: Collected, b: Collected,
                      first: nat, at: nat, o: OptionalItem, theirs: seq<FilterEntry>)
    requires at == first + |a.filters| && Added(l, r, condition, scope, b, at, o, theirs) && Placed(fs, at, theirs)
    requires Sound(fs, l, scope, a, first) && Sound(b.filters, r, scope, b, 0) && BareWithin(b.items)
    ensures Sound(fs, LeftJoin(l, r, condition), scope, Collected(a.items + [OptionalStep(o)], a.filters + theirs), first)
  {
    Opened(fs, l, scope, a, first);
    Opened(b.filters, r, scope, b, 0);
    BareOwned(b.items);
    OptionalFenced(fs, l, r, condition, scope, a.items, b, at, o, theirs);
    TheirsInspected(l, r, condition, scope, b, at, o, theirs);
    OptionalSoundVars(l, r, condition, scope, a.items, b, o);
    OptionalSoundFilters(fs, a, theirs, o, first, at);
    OptionalSoundOptionals(fs, a.items, o);
    AppendOptional(a.items, o);
  }

  lemma OptionalSoundFilters(fs: seq<FilterEntry>, a: Collected, theirs: seq<FilterEntry>, o: OptionalItem, first: nat, at: nat)
    requires SoundFilters(fs, a, first, CertainAll(Required(a.items))) && Inspected(theirs)
    requires at == first + |a.filters| && o.filters == Range(at, |theirs|) && Owned(o.items) == {}
    ensures SoundFilters(fs, Collected(a.items + [OptionalStep(o)], a.filters + theirs), first, CertainAll(Required(a.items)))
  {
    var d := Collected(a.items + [OptionalStep(o)], a.filters + theirs);
    AppendOptional(a.items, o);
    assert forall i :: i in Which(d, first) <==> i in Which(a, first);
  }

  lemma OptionalSoundOptionals(fs: seq<FilterEntry>, items: seq<Item>, o: OptionalItem)
    requires SoundOptionals(fs, items) && Fenced(fs, o, CertainAll(Required(items))) && o.own <= ItemsVars(o.items)
    ensures SoundOptionals(fs, items + [OptionalStep(o)])
  {
    AppendOptional(items, o);
  }

  // The optional's filters, read as the algebra reads them: its own, and then the join condition.
  lemma OptionalFilters(r: Rules, fs: seq<FilterEntry>, condition: Option<Expr>, b: Collected, at: nat, s: Solution)
    requires Placed(fs, at, b.filters + Entries(Conditions(condition)))
    requires Owned(b.items) == {} && Hoistable(Conditions(condition), s.Keys)
    ensures PassesEach(r, fs, Range(at, |b.filters + Entries(Conditions(condition))|), s)
       <==> PassesEach(r, b.filters, Which(b, 0), s) && KeepsIf(r, condition)(s)
  {
    var es := Entries(Conditions(condition));
    PlacedPass(r, fs, at, b.filters + es, s);
    assert EachPasses(r, b.filters + es, s) <==> EachPasses(r, b.filters, s) && EachPasses(r, es, s) by {
      EachPassesBoth(r, b.filters, es, s);
    }
    assert forall i :: i in Which(b, 0) <==> 0 <= i < |b.filters|;
    assert PassesEach(r, b.filters, Which(b, 0), s) <==> EachPasses(r, b.filters, s);
    if condition.Some? {
      EntriesPass(r, condition.value, s);
    }
  }

  lemma EachPassesBoth(r: Rules, xs: seq<FilterEntry>, ys: seq<FilterEntry>, s: Solution)
    ensures EachPasses(r, xs + ys, s) <==> EachPasses(r, xs, s) && EachPasses(r, ys, s)
  {
    var zs := xs + ys;
    assert forall k :: 0 <= k < |xs| ==> zs[k] == xs[k];
    assert forall k :: 0 <= k < |ys| ==> zs[|xs| + k] == ys[k];
  }

  // One row of the left side: its matches among the right side's rows are the optional's matches.
  lemma OptionalMatchesSame(c: Context, fs: seq<FilterEntry>, condition: Option<Expr>, b: Collected, o: OptionalItem, at: nat,
                            x: Solution, rows: seq<Solution>)
    requires BareWithin(b.items) && Owned(b.items) == {} && SoundFilters(b.filters, b, 0, CertainAll(Required(b.items)))
    requires Placed(fs, at, b.filters + Entries(Conditions(condition)))
    requires o.items == b.items && o.filters == Range(at, |b.filters + Entries(Conditions(condition))|)
    requires Hoistable(Conditions(condition), x.Keys + CertainAll(Required(b.items)))
    requires Same(rows, Select(Inner(c, fs, b.items), Passing(c.rules, b.filters, Which(b, 0))))
    ensures Same(Select(JoinOne(x, rows), KeepsIf(c.rules, condition)), OptionalMatches(c, fs, o, x))
  {
    var k, p, q := Inner(c, fs, b.items), Passing(c.rules, b.filters, Which(b, 0)), KeepsIf(c.rules, condition);
    JoinOneSame(x, rows, Select(k, p));
    SelectSame(JoinOne(x, rows), JoinOne(x, Select(k, p)), q);
    forall y | y in k && Compatible(x, y)
      ensures p(x + y) == p(y)
    {
      InnerBinds(c, fs, b.items, y);
      NeedsSettled(c.rules, b.filters, Which(b, 0), y, x + y);
    }
    SelectJoinRight(x, k, p);
    SelectTwice(JoinOne(x, k), p, q);
    forall t | t in JoinOne(x, k)
      ensures Commuting.Both(p, q)(t) == Passing(c.rules, fs, o.filters)(t)
    {
      JoinOneMember(x, k, t);
      var y :| y in k && Compatible(x, y) && t == x + y;
      InnerBinds(c, fs, b.items, y);
      OptionalFilters(c.rules, fs, condition, b, at, t);
    }
    SelectEqual(JoinOne(x, k), Commuting.Both(p, q), Passing(c.rules, fs, o.filters));
  }

  lemma OptionalRow(c: Context, fs: seq<FilterEntry>, condition: Option<Expr>, o: OptionalItem, x: Solution, rows: seq<Solution>)
    requires Same(Select(JoinOne(x, rows), KeepsIf(c.rules, condition)), OptionalMatches(c, fs, o, x))
    ensures Same(OrAlone(c.rules, rows, condition)(x), OptionalFor(c, fs, o)(x))
  {
    SameLength(Select(JoinOne(x, rows), KeepsIf(c.rules, condition)), OptionalMatches(c, fs, o, x));
  }

  // The optional appended to the plan is one more left join over what was there.
  lemma AppendedDenotes(c: Context, fs: seq<FilterEntry>, a: Collected, theirs: seq<FilterEntry>, o: OptionalItem, first: nat, at: nat)
    requires at == first + |a.filters| && o.filters == Range(at, |theirs|) && OwnedWithin(a.items, first, |a.filters|)
    requires Owned(o.items) == {}
    ensures var d := Collected(a.items + [OptionalStep(o)], a.filters + theirs);
            Denoted(c, fs, d.items, Which(d, first)) == FlatMap(Denoted(c, fs, a.items, Which(a, first)), OptionalFor(c, fs, o))
  {
    var d := Collected(a.items + [OptionalStep(o)], a.filters + theirs);
    AppendOptional(a.items, o);
    assert forall i :: i in Which(d, first) <==> i in Which(a, first);
    var k := Conj(c.view, Required(a.items));
    SelectEqual(k, Passing(c.rules, fs, Which(d, first)), Passing(c.rules, fs, Which(a, first)));
    LeftJoinsConcat(c, fs, Passed(c, fs, a.items, Which(a, first)), Optionals(a.items), [o]);
    assert [o][1..] == [];
  }

  lemma HoistableMore(es: seq<Expr>, bound: set<Var>, more: set<Var>)
    requires Hoistable(es, bound) && bound <= more
    ensures Hoistable(es, more)
  {
  }

  // The right side as a bag: what its items denote, filtered by what it hoisted.
  lemma OptionalSide(c: Context, fs: seq<FilterEntry>, r: Pattern, scope: Scope, b: Collected)
    requires Means(c, b.filters, r, scope, b, 0) && BareWithin(b.items)
    ensures SoundFilters(b.filters, b, 0, CertainAll(Required(b.items))) && Owned(b.items) == {}
    ensures BoundOf(r, scope).certain <= CertainAll(Required(b.items))
    ensures Same(EvalIn(c, scope, r), Select(Inner(c, fs, b.items), Passing(c.rules, b.filters, Which(b, 0))))
  {
    Opened(b.filters, r, scope, b, 0);
    BareOwned(b.items);
    ConjAllBind(c.view, b.items);
    FiltersSettled(c.rules, b.filters, Which(b, 0), CertainAll(Required(b.items)));
    LeftJoinsFiltered(c, b.filters, Optionals(b.items), CertainAll(Required(b.items)), Conj(c.view, Required(b.items)),
                      Passing(c.rules, b.filters, Which(b, 0)));
    InnerFree(c, fs, b.filters, b.items);
  }

  lemma OptionalRows(c: Context, fs: seq<FilterEntry>, condition: Option<Expr>, b: Collected, o: OptionalItem, at: nat,
                     lefts: seq<Solution>, left: seq<Solution>, rows: seq<Solution>)
    requires Same(lefts, left)
    requires BareWithin(b.items) && Owned(b.items) == {} && SoundFilters(b.filters, b, 0, CertainAll(Required(b.items)))
    requires Placed(fs, at, b.filters + Entries(Conditions(condition)))
    requires o.items == b.items && o.filters == Range(at, |b.filters + Entries(Conditions(condition))|)
    requires forall x :: x in lefts ==> Hoistable(Conditions(condition), x.Keys + CertainAll(Required(b.items)))
    requires Same(rows, Select(Inner(c, fs, b.items), Passing(c.rules, b.filters, Which(b, 0))))
    ensures Same(FlatMap(lefts, OrAlone(c.rules, rows, condition)), FlatMap(left, OptionalFor(c, fs, o)))
  {
    forall x | x in lefts
      ensures Same(OrAlone(c.rules, rows, condition)(x), OptionalFor(c, fs, o)(x))
    {
      OptionalMatchesSame(c, fs, condition, b, o, at, x, rows);
      OptionalRow(c, fs, condition, o, x, rows);
    }
    FlatMapSame(lefts, left, OrAlone(c.rules, rows, condition), OptionalFor(c, fs, o));
  }

  lemma ConditionDecided(c: Context, fs: seq<FilterEntry>, l: Pattern, scope: Scope, a: Collected, first: nat,
                         es: seq<Expr>, inner: set<Var>, certain: set<Var>)
    requires Means(c, fs, l, scope, a, first) && inner <= certain
    requires Hoistable(es, inner + BoundOf(l, scope).certain)
    ensures forall x :: x in EvalIn(c, scope, l) ==> Hoistable(es, x.Keys + certain)
  {
    var lefts, left := EvalIn(c, scope, l), Denoted(c, fs, a.items, Which(a, first));
    forall x | x in lefts
      ensures Hoistable(es, x.Keys + certain)
    {
      SameMembers(lefts, left, x);
      DenotedBind(c, fs, l, scope, a, first, x);
      HoistableMore(es, inner + BoundOf(l, scope).certain, x.Keys + certain);
    }
  }

  lemma OptionalDenoted(c: Context, fs: seq<FilterEntry>, l: Pattern, r: Pattern, condition: Option<Expr>, scope: Scope,
                        a: Collected, b: Collected, first: nat, at: nat, o: OptionalItem, theirs: seq<FilterEntry>)
    requires at == first + |a.filters| && Added(l, r, condition, scope, b, at, o, theirs) && Placed(fs, at, theirs)
    requires Means(c, fs, l, scope, a, first) && Means(c, b.filters, r, scope, b, 0) && BareWithin(b.items)
    ensures Same(FlatMap(EvalIn(c, scope, l), OrAlone(c.rules, EvalIn(c, scope, r), condition)),
                 FlatMap(Denoted(c, fs, a.items, Which(a, first)), OptionalFor(c, fs, o)))
  {
    OptionalSide(c, fs, r, scope, b);
    ConditionDecided(c, fs, l, scope, a, first, Conditions(condition), BoundOf(r, scope).certain, CertainAll(Required(b.items)));
    OptionalRows(c, fs, condition, b, o, at, EvalIn(c, scope, l), Denoted(c, fs, a.items, Which(a, first)), EvalIn(c, scope, r));
  }

  // --- The whole tree ----------------------------------------------------------------------------------------

  // A part with neither filters nor optionals.
  lemma BareSound(fs: seq<FilterEntry>, items: seq<Item>, first: nat, certain: set<Var>)
    requires Optionals(items) == [] && Owned(items) == {}
    ensures SoundFilters(fs, Collected(items, []), first, certain) && SoundOptionals(fs, items)
    ensures Which(Collected(items, []), first) == []
  {
  }

  lemma BareMeans(c: Context, fs: seq<FilterEntry>, p: Pattern, scope: Scope, items: seq<Item>, first: nat)
    requires Optionals(items) == [] && Owned(items) == {} && SoundVars(p, scope, items)
    requires Same(EvalIn(c, scope, p), Denoted(c, fs, items, []))
    ensures Means(c, fs, p, scope, Collected(items, []), first)
  {
    BareSound(fs, items, first, CertainAll(Required(items)));
  }

  lemma LeafMeans(c: Context, fs: seq<FilterEntry>, p: Pattern, scope: Scope, item: Item, first: nat)
    requires !item.OptionalStep?
    requires BoundOf(p, scope).certain + ScopeVars(scope) <= CertainOf(item)
    requires BoundOf(p, scope).possible <= VarsOf(item) <= BoundOf(p, scope).possible + ScopeVars(scope)
    requires Same(EvalIn(c, scope, p), ItemBag(c.view, item))
    ensures Means(c, fs, p, scope, Collected([item], []), first)
  {
    OneItem(c, fs, item);
    BareMeans(c, fs, p, scope, [item], first);
  }

  lemma BgpMeans(c: Context, fs: seq<FilterEntry>, ts: seq<TriplePattern>, scope: Scope, first: nat)
    requires ts != [] || Solid(c.view, scope)
    ensures Means(c, fs, Bgp(ts), scope, Collected(AsItems(TaggedWith(ts, scope)), []), first)
  {
    BgpIn(c, scope, ts);
    BranchItems(c, fs, TaggedWith(ts, scope));
    if ts != [] {
      assert TaggedWith(ts, scope)[0] == PatternItem(ts[0], scope);
    }
    BareMeans(c, fs, Bgp(ts), scope, AsItems(TaggedWith(ts, scope)), first);
  }

  lemma ClosureMeans(c: Context, fs: seq<FilterEntry>, s: Position, e: PathExpr, o: Position, scope: Scope, first: nat)
    requires Solid(c.view, scope) && ClosureItemOf(s, e, o, scope).Some?
    ensures Means(c, fs, Path(s, e, o), scope, Collected([ClosureStep(ClosureItemOf(s, e, o, scope).value)], []), first)
  {
    var cl := ClosureItemOf(s, e, o, scope).value;
    assert PathOf(cl) == e;
    EvalInSolid(c, scope, Path(s, e, o));
    LeafMeans(c, fs, Path(s, e, o), scope, ClosureStep(cl), first);
  }

  lemma BranchesMean(c: Context, fs: seq<FilterEntry>, s: Position, e: PathExpr, o: Position, scope: Scope, first: nat)
    requires PathAlternatives(e, s, o, scope).Some?
    ensures Means(c, fs, Path(s, e, o), scope, Collected([UnionStep(PathAlternatives(e, s, o, scope).value)], []), first)
  {
    PathBounds(e, s, o, scope);
    PathMeans(c, e, s, o, scope);
    LeafMeans(c, fs, Path(s, e, o), scope, UnionStep(PathAlternatives(e, s, o, scope).value), first);
  }

  lemma ValuesMean(c: Context, fs: seq<FilterEntry>, vars: seq<Var>, rows: seq<seq<Option<Term>>>, scope: Scope, first: nat)
    requires Solid(c.view, scope)
    ensures Means(c, fs, Values(vars, rows), scope, Collected([ValuesStep(vars, rows)], []), first)
  {
    EvalInSolid(c, scope, Values(vars, rows));
    LeafMeans(c, fs, Values(vars, rows), scope, ValuesStep(vars, rows), first);
  }

  lemma ProjectNothing(xs: seq<Solution>, keep: seq<Var>)
    requires forall x :: x in xs ==> x.Keys <= set v | v in keep
    ensures FlatMap(xs, Projected(keep)) == xs
  {
    forall x | x in xs
      ensures Projected(keep)(x) == Keep(Everything())(x)
    {
      assert Restrict(x, set v | v in keep) == x;
    }
    FlatMapEqual(xs, Projected(keep), Keep(Everything()));
    SelectIsFlatMap(xs, Everything());
    SelectEvery(xs, Everything());
  }

  lemma MeansBinds(c: Context, fs: seq<FilterEntry>, p: Pattern, scope: Scope, d: Collected, first: nat)
    requires Means(c, fs, p, scope, d, first)
    ensures forall x :: x in EvalIn(c, scope, p) ==> BoundOf(p, scope).certain <= x.Keys <= BoundOf(p, scope).possible + ScopeVars(scope) + Leaked(p)
  {
    forall x | x in EvalIn(c, scope, p)
      ensures BoundOf(p, scope).certain <= x.Keys <= BoundOf(p, scope).possible + ScopeVars(scope) + Leaked(p)
    {
      SameMembers(EvalIn(c, scope, p), Denoted(c, fs, d.items, Which(d, first)), x);
      DenotedBind(c, fs, p, scope, d, first, x);
    }
  }

  // A projection that keeps every variable its pattern may bind changes no row.
  lemma ProjectMeans(c: Context, fs: seq<FilterEntry>, i: Pattern, keep: seq<Var>, scope: Scope, d: Collected, first: nat)
    requires Means(c, fs, i, scope, d, first) && Solid(c.view, scope) && Leaked(i) == {}
    requires forall v :: v in BoundOf(i, scope).possible ==> v in keep
    ensures Means(c, fs, Project(i, keep), scope, d, first)
  {
    MeansBinds(c, fs, i, scope, d, first);
    ProjectIn(c, scope, i, keep);
    ProjectSound(fs, i, keep, scope, d, first);
  }

  lemma ProjectSound(fs: seq<FilterEntry>, i: Pattern, keep: seq<Var>, scope: Scope, d: Collected, first: nat)
    requires Sound(fs, i, scope, d, first)
    ensures Sound(fs, Project(i, keep), scope, d, first)
  {
    Opened(fs, i, scope, d, first);
  }

  lemma ProjectIn(c: Context, scope: Scope, i: Pattern, keep: seq<Var>)
    requires Solid(c.view, scope) && forall x :: x in EvalIn(c, scope, i) ==> x.Keys <= set v | v in keep
    ensures EvalIn(c, scope, Project(i, keep)) == EvalIn(c, scope, i)
  {
    ProjectNothing(EvalIn(c, scope, i), keep);
  }

  lemma PlacedAll(filters: seq<FilterEntry>)
    ensures Placed(filters, 0, filters)
  {
  }

  lemma JoinedSame(c: Context, fs: seq<FilterEntry>, l: Pattern, r: Pattern, scope: Scope, a: Collected, b: Collected, first: nat, mid: nat)
    requires mid == first + |a.filters|
    requires Same(EvalIn(c, scope, l), Denoted(c, fs, a.items, Which(a, first)))
    requires Same(EvalIn(c, scope, r), Denoted(c, fs, b.items, Which(b, mid)))
    ensures Same(EvalIn(c, scope, Join(l, r)),
                 JoinBags(Denoted(c, fs, a.items, Which(a, first)), Denoted(c, fs, b.items, Which(b, mid))))
  {
    EvalInJoin(c, scope, l, r);
    JoinSame(EvalIn(c, scope, l), Denoted(c, fs, a.items, Which(a, first)),
             EvalIn(c, scope, r), Denoted(c, fs, b.items, Which(b, mid)));
  }

  lemma JoinMeans(c: Context, fs: seq<FilterEntry>, l: Pattern, r: Pattern, scope: Scope, a: Collected, b: Collected, first: nat, mid: nat)
    requires mid == first + |a.filters|
    requires Means(c, fs, l, scope, a, first) && Means(c, fs, r, scope, b, mid)
    requires AllApart(a.items + b.items)
    ensures Means(c, fs, Join(l, r), scope, Collected(a.items + b.items, a.filters + b.filters), first)
  {
    JoinSound(fs, l, r, scope, a, b, first, mid);
    JoinDenoted(c, fs, l, r, scope, a, b, first, mid);
    JoinedSame(c, fs, l, r, scope, a, b, first, mid);
  }

  lemma FilterMeans(c: Context, fs: seq<FilterEntry>, e: Expr, i: Pattern, scope: Scope, a: Collected, first: nat)
    requires Means(c, fs, i, scope, a, first) && Hoistable(Conjuncts(e), BoundOf(i, scope).certain)
    requires Placed(fs, first, a.filters + Entries(Conjuncts(e)))
    requires scope.InEach? ==> scope.v !in Needs(e)
    ensures Means(c, fs, Filter(e, i), scope, Collected(a.items, a.filters + Entries(Conjuncts(e))), first)
  {
    FilterSound(fs, e, i, scope, a, first);
    FilterDenoted(c, fs, e, i, scope, a, first);
    ConjunctsBound(e, BoundOf(i, scope).certain);
    EvalInFilter(c, scope, e, i);
    SelectSame(EvalIn(c, scope, i), Denoted(c, fs, a.items, Which(a, first)), Keeps(c.rules, e));
  }

  lemma OptionalMeans(c: Context, fs: seq<FilterEntry>, l: Pattern, r: Pattern, condition: Option<Expr>, scope: Scope,
                      a: Collected, b: Collected, first: nat, at: nat, o: OptionalItem, theirs: seq<FilterEntry>)
    requires at == first + |a.filters| && Added(l, r, condition, scope, b, at, o, theirs) && Placed(fs, at, theirs)
    requires Means(c, fs, l, scope, a, first) && Means(c, b.filters, r, scope, b, 0)
    requires BareWithin(b.items) && LeavesAlone(scope, r, condition)
    requires Collect(r, scope, 0).Some? && Supported(c.view, r, scope, 0)
    ensures Means(c, fs, LeftJoin(l, r, condition), scope, Collected(a.items + [OptionalStep(o)], a.filters + theirs), first)
  {
    OptionalSound(fs, l, r, condition, scope, a, b, first, at, o, theirs);
    OptionalDenoted(c, fs, l, r, condition, scope, a, b, first, at, o, theirs);
    assert OwnedWithin(a.items, first, |a.filters|) by { Opened(fs, l, scope, a, first); }
    BareOwned(b.items);
    AppendedDenotes(c, fs, a, theirs, o, first, at);
    LeftJoinIn(c, scope, l, r, condition, BoundOf(r, scope).certain + BoundOf(l, scope).certain);
  }

  ghost predicate BindWithin(xs: seq<Solution>, vs: set<Var>) {
    forall x :: x in xs ==> x.Keys <= vs
  }

  // Rows of a turn of GRAPH ?v before ?v is bound: they bind what the pattern would bind with no GRAPH around it.
  lemma {:induction false} RowsWithin(c: Context, g: Term, v: Var, p: Pattern, first: nat)
    requires Collect(p, InEach(v), first).Some? && Supported(c.view, p, InEach(v), first)
    ensures BindWithin(Eval(c, Some(g), p), BoundOf(p, InDefault).possible)
  {
    match p
    case Join(l, r) =>
      HoistedCount(l, InEach(v), first);
      RowsWithin(c, g, v, l, first);
      RowsWithin(c, g, v, r, first + Hoisted(l));
      JoinedWithin(Eval(c, Some(g), l), Eval(c, Some(g), r), BoundOf(l, InDefault).possible, BoundOf(r, InDefault).possible);
    case LeftJoin(l, r, condition) =>
      RowsWithin(c, g, v, l, first);
      RowsWithin(c, g, v, r, 0);
      LeftJoinedWithin(c.rules, condition, Eval(c, Some(g), l), Eval(c, Some(g), r),
                       BoundOf(l, InDefault).possible, BoundOf(r, InDefault).possible);
    case Filter(e, i) =>
      RowsWithin(c, g, v, i, first);
      SelectSub(Eval(c, Some(g), i), Keeps(c.rules, e));
    case _ => LeafWithin(c, g, v, p, first);
  }

  lemma LeafWithin(c: Context, g: Term, v: Var, p: Pattern, first: nat)
    requires !p.Join? && !p.LeftJoin? && !p.Filter?
    requires Collect(p, InEach(v), first).Some? && Supported(c.view, p, InEach(v), first)
    ensures BindWithin(Eval(c, Some(g), p), BoundOf(p, InDefault).possible)
  {
    forall s | s in Eval(c, Some(g), p)
      ensures s.Keys <= BoundOf(p, InDefault).possible
    {
      match p
      case Bgp(ts) => TriplesWithin(c.view, g, ts, s);
      case Path(a, e, b) => PathWithin(c.view, g, a, e, b, InEach(v), s);
      case Union(_, _) => UnionWithin(c, g, p, InEach(v), s);
      case _ =>
    }
  }

  lemma JoinedWithin(xs: seq<Solution>, ys: seq<Solution>, a: set<Var>, b: set<Var>)
    requires BindWithin(xs, a) && BindWithin(ys, b)
    ensures BindWithin(JoinBags(xs, ys), a + b)
  {
    forall s | s in JoinBags(xs, ys)
      ensures s.Keys <= a + b
    {
      JoinMember(xs, ys, s);
    }
  }

  lemma LeftJoinedWithin(r: Rules, condition: Option<Expr>, xs: seq<Solution>, ys: seq<Solution>, a: set<Var>, b: set<Var>)
    requires BindWithin(xs, a) && BindWithin(ys, b)
    ensures BindWithin(FlatMap(xs, OrAlone(r, ys, condition)), a + b)
  {
    forall s | s in FlatMap(xs, OrAlone(r, ys, condition))
      ensures s.Keys <= a + b
    {
      FlatMapMember(xs, OrAlone(r, ys, condition), s);
      var x :| x in xs && s in OrAlone(r, ys, condition)(x);
      if s != x {
        SelectMember(JoinOne(x, ys), KeepsIf(r, condition), s);
        JoinOneMember(x, ys, s);
      }
    }
  }

  lemma TriplesWithin(view: View, g: Term, ts: seq<TriplePattern>, s: Solution)
    requires s in BgpBag(view, Some(g), ts)
    ensures s.Keys <= BoundOf(Bgp(ts), InDefault).possible
  {
    BgpIsBranch(view, Some(g), ts);
    BranchBinds(view, TaggedWith(ts, InNamed(g)), s);
    TaggedVars(ts, g);
  }

  lemma {:induction false} TaggedVars(ts: seq<TriplePattern>, g: Term)
    ensures BranchVars(TaggedWith(ts, InNamed(g))) == BranchVars(TaggedWith(ts, InDefault))
  {
    if ts != [] {
      TaggedVars(ts[1..], g);
      assert TaggedWith(ts, InNamed(g))[1..] == TaggedWith(ts[1..], InNamed(g));
      assert TaggedWith(ts, InDefault)[1..] == TaggedWith(ts[1..], InDefault);
    }
  }

  lemma {:induction false} PathWithin(view: View, g: Term, a: Position, e: PathExpr, b: Position, scope: Scope, s: Solution)
    requires PathAlternatives(e, a, b, scope).Some? && s in PathBag(view, Some(g), a, e, b)
    ensures s.Keys <= PositionVars(a) + PositionVars(b)
  {
    match e
    case Link(p) => TripleBagBinds(view, TriplePattern(a, T(p), b), InNamed(g), s);
    case Alternative(x, y) =>
      if s in PathBag(view, Some(g), a, x, b) {
        PathWithin(view, g, a, x, b, scope, s);
      } else {
        PathWithin(view, g, a, y, b, scope, s);
      }
  }

  lemma {:induction false} UnionWithin(c: Context, g: Term, p: Pattern, scope: Scope, s: Solution)
    requires scope.InEach? && UnionBranches(p, scope).Some? && s in Eval(c, Some(g), p)
    ensures s.Keys <= BoundOf(p, InDefault).possible
  {
    match p
    case Union(l, r) =>
      if s in Eval(c, Some(g), l) {
        UnionWithin(c, g, l, scope, s);
      } else {
        UnionWithin(c, g, r, scope, s);
      }
    case Bgp(ts) => TriplesWithin(c.view, g, ts, s);
  }

  lemma LeftJoinIn(c: Context, scope: Scope, l: Pattern, r: Pattern, condition: Option<Expr>, certain: set<Var>)
    requires Collect(r, scope, 0).Some? && Supported(c.view, r, scope, 0)
    requires LeavesAlone(scope, r, condition) && Hoistable(Conditions(condition), certain)
    ensures EvalIn(c, scope, LeftJoin(l, r, condition))
         == FlatMap(EvalIn(c, scope, l), OrAlone(c.rules, EvalIn(c, scope, r), condition))
  {
    if scope.InEach? {
      forall g, y | y in EvalAt(c, r)(g)
        ensures scope.v !in y
      {
        RowsWithin(c, g, scope.v, r, 0);
      }
      if condition.Some? {
        ConjunctsBound(condition.value, certain);
      }
    }
    EvalInLeftJoin(c, scope, l, r, condition);
  }


  ghost predicate Collects(c: Context, p: Pattern, scope: Scope, first: nat, fs: seq<FilterEntry>) {
    && Collect(p, scope, first).Some? && Supported(c.view, p, scope, first)
    && Placed(fs, first, Collect(p, scope, first).value.filters)
    && AllApart(Collect(p, scope, first).value.items)
  }

  // What `collect` makes of a pattern denotes the pattern's bag, wherever in the plan its filters land.
  lemma {:induction false} CollectMeans(c: Context, p: Pattern, scope: Scope, first: nat, fs: seq<FilterEntry>)
    requires Collects(c, p, scope, first, fs)
    ensures Means(c, fs, p, scope, Collect(p, scope, first).value, first)
    decreases p, 1
  {
    match p
    case Join(l, r) => CollectMeansJoin(c, l, r, scope, first, fs);
    case LeftJoin(l, r, condition) => CollectMeansOptional(c, l, r, condition, scope, first, fs);
    case Filter(e, i) => CollectMeansFilter(c, e, i, scope, first, fs);
    case Graph(name, i) =>
      CollectMeans(c, i, ScopeOf(name), first, fs);
      GraphIn(c, name, i);
      GraphSound(fs, name, i, Collect(i, ScopeOf(name), first).value, first);
    case Project(i, keep) =>
      if first != 0 {
        CollectNoIndex(i, scope, 0, first);
      }
      CollectMeans(c, i, scope, first, fs);
      ProjectMeans(c, fs, i, keep, scope, Collect(i, scope, first).value, first);
    case _ => CollectMeansLeaf(c, p, scope, first, fs);
  }

  lemma GraphSound(fs: seq<FilterEntry>, name: Position, i: Pattern, d: Collected, first: nat)
    requires Sound(fs, i, ScopeOf(name), d, first)
    ensures Sound(fs, Graph(name, i), InDefault, d, first)
  {
    Opened(fs, i, ScopeOf(name), d, first);
  }

  lemma CollectMeansLeaf(c: Context, p: Pattern, scope: Scope, first: nat, fs: seq<FilterEntry>)
    requires p.Bgp? || p.Path? || p.Values? || p.Union?
    requires Collect(p, scope, first).Some? && Supported(c.view, p, scope, first)
    ensures Means(c, fs, p, scope, Collect(p, scope, first).value, first)
  {
    match p
    case Bgp(ts) => BgpMeans(c, fs, ts, scope, first);
    case Path(s, e, o) =>
      if ClosureItemOf(s, e, o, scope).Some? {
        ClosureMeans(c, fs, s, e, o, scope, first);
      } else {
        BranchesMean(c, fs, s, e, o, scope, first);
      }
    case Values(vars, rows) => ValuesMean(c, fs, vars, rows, scope, first);
    case Union(_, _) =>
      UnionMeans(c, p, scope);
      UnionBounds(p, scope);
      UnionScope(p, scope);
      LeafMeans(c, fs, p, scope, UnionStep(UnionBranches(p, scope).value), first);
  }

  lemma JoinHalves(fs: seq<FilterEntry>, a: Collected, b: Collected, first: nat)
    requires Placed(fs, first, a.filters + b.filters) && AllApart(a.items + b.items)
    ensures Placed(fs, first, a.filters) && Placed(fs, first + |a.filters|, b.filters)
    ensures AllApart(a.items) && AllApart(b.items)
  {
    PlacedParts(fs, first, a.filters, b.filters);
    ApartSides(a.items, b.items);
  }

  lemma CollectSides(c: Context, l: Pattern, r: Pattern, scope: Scope, first: nat) returns (a: Collected, b: Collected, mid: nat)
    requires Collect(Join(l, r), scope, first).Some? && Supported(c.view, Join(l, r), scope, first)
    ensures mid == first + |a.filters|
    ensures Collect(l, scope, first) == Some(a) && Supported(c.view, l, scope, first)
    ensures Collect(r, scope, mid) == Some(b) && Supported(c.view, r, scope, mid)
    ensures Collect(Join(l, r), scope, first) == Some(Collected(a.items + b.items, a.filters + b.filters))
  {
    HoistedCount(l, scope, first);
    a := Collect(l, scope, first).value;
    mid := first + |a.filters|;
    b := Collect(r, scope, mid).value;
  }

  lemma CollectJoin(c: Context, l: Pattern, r: Pattern, scope: Scope, first: nat, fs: seq<FilterEntry>)
    returns (a: Collected, b: Collected, mid: nat)
    requires Collects(c, Join(l, r), scope, first, fs)
    ensures mid == first + |a.filters|
    ensures Collects(c, l, scope, first, fs) && Collect(l, scope, first) == Some(a)
    ensures Collects(c, r, scope, mid, fs) && Collect(r, scope, mid) == Some(b)
    ensures Collect(Join(l, r), scope, first) == Some(Collected(a.items + b.items, a.filters + b.filters))
    ensures AllApart(a.items + b.items)
  {
    a, b, mid := CollectSides(c, l, r, scope, first);
    JoinHalves(fs, a, b, first);
  }

  lemma {:induction false} CollectMeansJoin(c: Context, l: Pattern, r: Pattern, scope: Scope, first: nat, fs: seq<FilterEntry>)
    requires Collects(c, Join(l, r), scope, first, fs)
    ensures Means(c, fs, Join(l, r), scope, Collect(Join(l, r), scope, first).value, first)
    decreases Join(l, r), 0
  {
    var a, b, mid := CollectJoin(c, l, r, scope, first, fs);
    CollectMeans(c, l, scope, first, fs);
    CollectMeans(c, r, scope, mid, fs);
    JoinMeans(c, fs, l, r, scope, a, b, first, mid);
  }

  lemma {:induction false} CollectMeansFilter(c: Context, e: Expr, i: Pattern, scope: Scope, first: nat, fs: seq<FilterEntry>)
    requires Collects(c, Filter(e, i), scope, first, fs)
    ensures Means(c, fs, Filter(e, i), scope, Collect(Filter(e, i), scope, first).value, first)
    decreases Filter(e, i), 0
  {
    var a := Collect(i, scope, first).value;
    PlacedParts(fs, first, a.filters, Entries(Conjuncts(e)));
    CollectMeans(c, i, scope, first, fs);
    FilterMeans(c, fs, e, i, scope, a, first);
  }

  lemma AllNothingNew(items: seq<Item>)
    requires NothingNew(items)
    ensures AllApart(items)
  {
    forall i | 0 <= i < |items| && items[i].OptionalStep?
      ensures Apart(items, i) && NothingNew(items[i].optional.items)
    {
      GatheredAt(items, i);
    }
  }

  lemma {:induction false} GatheredAt(items: seq<Item>, i: nat)
    requires i < |items| && items[i].OptionalStep?
    ensures items[i].optional in Gather(items)
    ensures forall o :: o in Gather(items[i].optional.items) ==> o in Gather(items)
  {
    if i > 0 {
      GatheredAt(items[1..], i - 1);
    } else {
      assert GatherIn(items[0]) == [items[0].optional] + Gather(items[0].optional.items);
    }
  }

  // The two halves of a collected OPTIONAL meet what the theorem asks of each.
  lemma OptionalHalves(a: Collected, b: Collected, o: OptionalItem, theirs: seq<FilterEntry>, first: nat, fs: seq<FilterEntry>)
    requires Placed(fs, first, a.filters + theirs) && AllApart(a.items + [OptionalStep(o)]) && o.items == b.items
    ensures Placed(fs, first, a.filters) && Placed(fs, first + |a.filters|, theirs) && AllApart(a.items)
    ensures Placed(b.filters, 0, b.filters) && AllApart(b.items) && NothingNew(b.items)
  {
    PlacedParts(fs, first, a.filters, theirs);
    ApartSides(a.items, [OptionalStep(o)]);
    assert [OptionalStep(o)][0].optional == o;
    AllNothingNew(b.items);
    PlacedAll(b.filters);
  }

  lemma CollectAdds(l: Pattern, r: Pattern, condition: Option<Expr>, scope: Scope, first: nat)
    returns (a: Collected, b: Collected, at: nat, o: OptionalItem, theirs: seq<FilterEntry>)
    requires Collect(LeftJoin(l, r, condition), scope, first).Some? && BareOptionals(r) && SharesCertain(l, r, scope) && Leaked(l) + Leaked(r) == {}
    ensures at == first + |a.filters| && Added(l, r, condition, scope, b, at, o, theirs)
    ensures Collect(l, scope, first) == Some(a) && Collect(r, scope, 0) == Some(b)
    ensures Collect(LeftJoin(l, r, condition), scope, first) == Some(Collected(a.items + [OptionalStep(o)], a.filters + theirs))
  {
    a, b := Collect(l, scope, first).value, Collect(r, scope, 0).value;
    at := first + |a.filters|;
    o, theirs := OptionalOf(l, r, condition, scope, b, at), b.filters + Entries(Conditions(condition));
  }

  lemma CollectOptional(c: Context, l: Pattern, r: Pattern, condition: Option<Expr>, scope: Scope, first: nat, fs: seq<FilterEntry>)
    returns (a: Collected, b: Collected, at: nat, o: OptionalItem, theirs: seq<FilterEntry>)
    requires Collects(c, LeftJoin(l, r, condition), scope, first, fs)
    ensures at == first + |a.filters| && Added(l, r, condition, scope, b, at, o, theirs) && Placed(fs, at, theirs)
    ensures Collects(c, l, scope, first, fs) && Collect(l, scope, first) == Some(a)
    ensures Collects(c, r, scope, 0, b.filters) && Collect(r, scope, 0) == Some(b) && LeavesAlone(scope, r, condition)
    ensures NothingNew(b.items) && Unfiltered(Optionals(b.items))
    ensures Collect(LeftJoin(l, r, condition), scope, first) == Some(Collected(a.items + [OptionalStep(o)], a.filters + theirs))
  {
    a, b, at, o, theirs := CollectAdds(l, r, condition, scope, first);
    OptionalHalves(a, b, o, theirs, first, fs);
    CollectBare(r, scope, 0);
  }

  lemma {:induction false} CollectMeansOptional(c: Context, l: Pattern, r: Pattern, condition: Option<Expr>, scope: Scope,
                                                first: nat, fs: seq<FilterEntry>)
    requires Collects(c, LeftJoin(l, r, condition), scope, first, fs)
    ensures Means(c, fs, LeftJoin(l, r, condition), scope, Collect(LeftJoin(l, r, condition), scope, first).value, first)
    decreases LeftJoin(l, r, condition), 0
  {
    var a, b, at, o, theirs := CollectOptional(c, l, r, condition, scope, first, fs);
    CollectMeans(c, l, scope, first, fs);
    CollectMeans(c, r, scope, 0, b.filters);
    assert SoundOptionals(b.filters, b.items) by { Opened(b.filters, r, scope, b, 0); }
    BareSide(b.filters, b.items);
    OptionalMeans(c, fs, l, r, condition, scope, a, b, first, at, o, theirs);
  }
}
