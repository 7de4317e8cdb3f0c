/**
 Filters numbered within a list that is then put after another (crates/holos-engine/src/bindjoin.rs, `collect`).
 An OPTIONAL collects its right side into fresh vectors, and so does a subquery; what an optional inside them holds are
 places in the fresh list. Nothing renumbers them when the list is appended. Each family below is accepted by `plan`,
 and the two theorems say exactly which of its members are still answered rightly.
 */
module Misnumbered {
  import opened Options
  import opened Bags
  import opened Rdf
  import opened Solutions
  import opened Expressions
  import opened Algebra
  import opened Items
  import opened Scopes
  import opened Commuting
  import opened Planning
  import opened PlanMeaning
  import opened Designs
  import opened Answering
  import opened Limits

  // --- Basic graph patterns ----------------------------------------------------------------------------------

  function Vars(ts: seq<TriplePattern>): set<Var> {
    BranchVars(TaggedWith(ts, InDefault))
  }

  function Patterns(ts: seq<TriplePattern>): seq<Item> {
    AsItems(TaggedWith(ts, InDefault))
  }

  predicate Usable(ts: seq<TriplePattern>) {
    forall i :: 0 <= i < |ts| ==> UsableTriple(ts[i])
  }

  lemma PatternItems(view: View, ts: seq<TriplePattern>)
    ensures Required(Patterns(ts)) == Patterns(ts) && Optionals(Patterns(ts)) == []
    ensures CertainAll(Patterns(ts)) == Vars(ts) == ItemsVars(Patterns(ts))
    ensures Owned(Patterns(ts)) == {} && Gather(Patterns(ts)) == []
    ensures Conj(view, Patterns(ts)) == BgpBag(view, None, ts)
  {
    var items := Patterns(ts);
    assert forall i :: 0 <= i < |items| ==> items[i] in items;
    BgpIsBranch(view, None, ts);
    ConjOfBranch(view, TaggedWith(ts, InDefault));
    BranchItemVars(TaggedWith(ts, InDefault));
    GatherPlain(items);
  }

  lemma RowsBind(view: View, ts: seq<TriplePattern>, s: Solution)
    requires s in BgpBag(view, None, ts)
    ensures s.Keys == Vars(ts)
  {
    BgpIsBranch(view, None, ts);
    BranchBinds(view, TaggedWith(ts, InDefault), s);
  }

  lemma JoinedRowsBind(view: View, xs: seq<TriplePattern>, ys: seq<TriplePattern>, s: Solution)
    requires s in JoinBags(BgpBag(view, None, xs), BgpBag(view, None, ys))
    ensures s.Keys == Vars(xs) + Vars(ys)
  {
    JoinMember(BgpBag(view, None, xs), BgpBag(view, None, ys), s);
    var x, y :| x in BgpBag(view, None, xs) && y in BgpBag(view, None, ys) && Compatible(x, y) && s == x + y;
    RowsBind(view, xs, x);
    RowsBind(view, ys, y);
  }

  lemma {:induction false} OutsideLast(xs: seq<Item>, o: OptionalItem)
    requires forall i :: 0 <= i < |xs| ==> !xs[i].OptionalStep?
    ensures Outside(xs + [OptionalStep(o)], 0) == ItemsVars(xs)
  {
    var zs := xs + [OptionalStep(o)];
    if xs == [] {
      assert zs == [OptionalStep(o)] && zs[1..] == [];
    } else {
      assert zs[0] == xs[0] && zs[1..] == xs[1..] + [OptionalStep(o)];
      OutsideLast(xs[1..], o);
    }
  }

  lemma NoClosures(xs: seq<Item>, o: OptionalItem)
    requires forall i :: 0 <= i < |xs| ==> xs[i].PatternStep?
    ensures ClosuresAnchored(xs + [OptionalStep(o)])
  {
    var zs := xs + [OptionalStep(o)];
    assert forall i :: 0 <= i < |zs| ==> !zs[i].ClosureStep?;
  }

  // --- An optional of a spliced subquery ---------------------------------------------------------------------

  // `{ as FILTER f } { SELECT * { bs OPTIONAL { cs FILTER g } } }`
  function Spliced(xs: seq<TriplePattern>, f: Expr, ys: seq<TriplePattern>, zs: seq<TriplePattern>, g: Expr, keep: seq<Var>): Pattern {
    Join(Filter(f, Bgp(xs)), Project(LeftJoin(Bgp(ys), Filter(g, Bgp(zs)), None), keep))
  }

  // The members `plan` accepts: one conjunct each; the optional meets the rest only where the subquery is certain; and
  // its filter reads nothing the optional alone binds.
  ghost predicate SplicedFamily(xs: seq<TriplePattern>, f: Expr, ys: seq<TriplePattern>, zs: seq<TriplePattern>, g: Expr, keep: seq<Var>) {
    && Usable(xs) && Usable(ys) && Usable(zs)
    && !f.And? && Inspectable(f) && Needs(f) <= Vars(xs)
    && !g.And? && Inspectable(g) && Needs(g) <= Vars(zs) * Vars(ys)
    && Vars(zs) * Vars(xs) <= Vars(ys)
    && forall v :: v in Vars(ys) + Vars(zs) ==> v in keep
  }

  function Numbered(ys: seq<TriplePattern>, zs: seq<TriplePattern>, k: nat): OptionalItem {
    OptionalItem(Patterns(zs), [k], Vars(zs) - Vars(ys))
  }

  function EntryOf(e: Expr): FilterEntry {
    FilterEntry(e, Needs(e))
  }

  lemma OneEntry(e: Expr)
    requires !e.And?
    ensures Conjuncts(e) == [e] && Entries(Conjuncts(e)) == [EntryOf(e)]
  {
    assert [e][1..] == [];
  }

  lemma RangeOne(at: nat)
    ensures Range(at, 1) == [at]
  {
    assert Range(at + 1, 0) == [];
  }

  lemma FilteredCollected(ts: seq<TriplePattern>, e: Expr, first: nat)
    requires Usable(ts) && !e.And? && Inspectable(e) && Needs(e) <= Vars(ts)
    ensures Collect(Filter(e, Bgp(ts)), InDefault, first) == Some(Collected(Patterns(ts), [EntryOf(e)]))
  {
    OneEntry(e);
    assert Collect(Bgp(ts), InDefault, first) == Some(Collected(Patterns(ts), []));
    assert Hoistable([e], BoundOf(Bgp(ts), InDefault).certain);
    assert [] + [EntryOf(e)] == [EntryOf(e)];
  }

  lemma OptionalCollected(ys: seq<TriplePattern>, zs: seq<TriplePattern>, g: Expr, first: nat)
    requires Usable(ys) && Usable(zs) && !g.And? && Inspectable(g) && Needs(g) <= Vars(zs)
    ensures Collect(LeftJoin(Bgp(ys), Filter(g, Bgp(zs)), None), InDefault, first)
         == Some(Collected(Patterns(ys) + [OptionalStep(Numbered(ys, zs, first))], [EntryOf(g)]))
  {
    FilteredCollected(zs, g, 0);
    RangeOne(first);
    var b := Collected(Patterns(zs), [EntryOf(g)]);
    assert Collect(Bgp(ys), InDefault, first) == Some(Collected(Patterns(ys), []));
    assert b.filters + Entries([]) == [EntryOf(g)] && [] + [EntryOf(g)] == [EntryOf(g)];
    assert OptionalOf(Bgp(ys), Filter(g, Bgp(zs)), None, InDefault, b, first) == Numbered(ys, zs, first);
    CollectedTogether(Bgp(ys), Filter(g, Bgp(zs)), first, Collected(Patterns(ys), []), b, Numbered(ys, zs, first));
  }

  lemma {:induction false} CollectedTogether(l: Pattern, r: Pattern, first: nat, a: Collected, b: Collected, o: OptionalItem)
    requires Collect(l, InDefault, first) == Some(a) && Collect(r, InDefault, 0) == Some(b)
    requires o == OptionalOf(l, r, None, InDefault, b, first + |a.filters|)
    ensures Collect(LeftJoin(l, r, None), InDefault, first)
         == Some(Collected(a.items + [OptionalStep(o)], a.filters + (b.filters + Entries([]))))
  {
  }

  // `collect` walks the subquery into fresh vectors, so its optional's filter has the number 0; in the plan that is `f`.
  lemma SplicedCollected(xs: seq<TriplePattern>, f: Expr, ys: seq<TriplePattern>, zs: seq<TriplePattern>, g: Expr, keep: seq<Var>)
    requires SplicedFamily(xs, f, ys, zs, g, keep)
    ensures Collect(Spliced(xs, f, ys, zs, g, keep), InDefault, 0)
         == Some(Collected(Patterns(xs) + (Patterns(ys) + [OptionalStep(Numbered(ys, zs, 0))]), [EntryOf(f), EntryOf(g)]))
  {
    FilteredCollected(xs, f, 0);
    OptionalCollected(ys, zs, g, 0);
    var i := LeftJoin(Bgp(ys), Filter(g, Bgp(zs)), None);
    assert BoundOf(i, InDefault).possible == Vars(ys) + Vars(zs);
    ProjectCollected(i, keep, Collected(Patterns(ys) + [OptionalStep(Numbered(ys, zs, 0))], [EntryOf(g)]));
    assert [EntryOf(f)] + [EntryOf(g)] == [EntryOf(f), EntryOf(g)];
    JoinCollected(Filter(f, Bgp(xs)), Project(i, keep), Collected(Patterns(xs), [EntryOf(f)]),
                  Collected(Patterns(ys) + [OptionalStep(Numbered(ys, zs, 0))], [EntryOf(g)]));
  }

  lemma ProjectCollected(i: Pattern, keep: seq<Var>, d: Collected)
    requires Collect(i, InDefault, 0) == Some(d) && forall v :: v in BoundOf(i, InDefault).possible ==> v in keep
    ensures forall first: nat :: Collect(Project(i, keep), InDefault, first) == Some(d)
  {
  }

  lemma JoinCollected(l: Pattern, r: Pattern, a: Collected, b: Collected)
    requires Collect(l, InDefault, 0) == Some(a) && Collect(r, InDefault, |a.filters|) == Some(b)
    ensures Collect(Join(l, r), InDefault, 0) == Some(Collected(a.items + b.items, a.filters + b.filters))
  {
  }

  // The plan's items, with the optional's filter at `k`.
  function SplicedItems(xs: seq<TriplePattern>, ys: seq<TriplePattern>, zs: seq<TriplePattern>, k: nat): seq<Item> {
    Patterns(xs) + (Patterns(ys) + [OptionalStep(Numbered(ys, zs, k))])
  }

  lemma SplicedLists(xs: seq<TriplePattern>, ys: seq<TriplePattern>, zs: seq<TriplePattern>, k: nat)
    ensures var items := SplicedItems(xs, ys, zs, k);
            Required(items) == Patterns(xs) + Patterns(ys) && Optionals(items) == [Numbered(ys, zs, k)] && Owned(items) == {k}
  {
    var a, b, o := Patterns(xs), Patterns(ys), Numbered(ys, zs, k);
    var view := View([], {});
    PatternItems(view, xs);
    PatternItems(view, ys);
    PatternItems(view, zs);
    AppendOptional(b, o);
    RequiredAppend(a, b + [OptionalStep(o)]);
    VarsAppend(a, b + [OptionalStep(o)]);
  }

  lemma SplicedParts(view: View, xs: seq<TriplePattern>, ys: seq<TriplePattern>, zs: seq<TriplePattern>, k: nat)
    ensures var items := SplicedItems(xs, ys, zs, k);
            && Required(items) == Patterns(xs) + Patterns(ys) && Optionals(items) == [Numbered(ys, zs, k)] && Owned(items) == {k}
            && CertainAll(Required(items)) == Vars(xs) + Vars(ys)
            && Conj(view, Required(items)) == JoinBags(BgpBag(view, None, xs), BgpBag(view, None, ys))
  {
    SplicedLists(xs, ys, zs, k);
    PatternItems(view, xs);
    PatternItems(view, ys);
    CertainAppend(Patterns(xs), Patterns(ys));
    ConjAppend(view, Patterns(xs), Patterns(ys));
  }

  lemma SplicedAccepted(xs: seq<TriplePattern>, f: Expr, ys: seq<TriplePattern>, zs: seq<TriplePattern>, g: Expr, keep: seq<Var>, variables: seq<Var>)
    requires SplicedFamily(xs, f, ys, zs, g, keep)
    requires forall v :: v in variables ==> v in Vars(xs) + Vars(ys) + Vars(zs)
    ensures PlanOf(Project(Spliced(xs, f, ys, zs, g, keep), variables), false, 0, None).Some?
  {
    var p := Spliced(xs, f, ys, zs, g, keep);
    var d := Collected(SplicedItems(xs, ys, zs, 0), [EntryOf(f), EntryOf(g)]);
    SplicedCollected(xs, f, ys, zs, g, keep);
    SplicedDesigned(xs, ys, zs, 0, d.filters);
    SplicedBound(xs, f, ys, zs, g, keep);
    assert Finish(p, d, variables, false, 0, None).Some?;
  }

  lemma SplicedBound(xs: seq<TriplePattern>, f: Expr, ys: seq<TriplePattern>, zs: seq<TriplePattern>, g: Expr, keep: seq<Var>)
    ensures BoundOf(Spliced(xs, f, ys, zs, g, keep), InDefault).possible == Vars(xs) + Vars(ys) + Vars(zs)
  {
    var i := LeftJoin(Bgp(ys), Filter(g, Bgp(zs)), None);
    assert BoundOf(Filter(g, Bgp(zs)), InDefault).possible == Vars(zs);
    assert BoundOf(i, InDefault).possible == Vars(ys) + Vars(zs);
    assert BoundOf(Project(i, keep), InDefault).possible == Vars(ys) + Vars(zs);
    assert BoundOf(Filter(f, Bgp(xs)), InDefault).possible == Vars(xs);
  }

  // Patterns and one optional after them, with nothing optional inside it.
  lemma OneDesigned(items: seq<Item>, o: OptionalItem, filters: seq<FilterEntry>)
    requires (forall i :: 0 <= i < |items| ==> items[i].PatternStep?) && Gather(items) == [] && Gather(o.items) == []
    requires o.own !! ItemsVars(items)
    requires forall i :: 0 <= i < |filters| && i !in o.filters ==> o.own !! filters[i].needs
    ensures WellDesigned(items + [OptionalStep(o)], filters) && ClosuresAnchored(items + [OptionalStep(o)])
  {
    OutsideLast(items, o);
    NoClosures(items, o);
    GatherOptional(items, o);
    assert Gather(items + [OptionalStep(o)]) == [o];
    assert Secluded(items + [OptionalStep(o)], 0);
  }

  lemma SplicedDesigned(xs: seq<TriplePattern>, ys: seq<TriplePattern>, zs: seq<TriplePattern>, k: nat, filters: seq<FilterEntry>)
    requires Vars(zs) * Vars(xs) <= Vars(ys)
    requires forall i :: 0 <= i < |filters| && i != k ==> (Vars(zs) - Vars(ys)) !! filters[i].needs
    ensures WellDesigned(SplicedItems(xs, ys, zs, k), filters) && ClosuresAnchored(SplicedItems(xs, ys, zs, k))
    ensures SplicedItems(xs, ys, zs, k) != []
  {
    var a, b, o := Patterns(xs), Patterns(ys), Numbered(ys, zs, k);
    TwoPatterns(xs, ys);
    PatternItems(View([], {}), zs);
    assert SplicedItems(xs, ys, zs, k) == (a + b) + [OptionalStep(o)];
    OneDesigned(a + b, o, filters);
  }

  lemma TwoPatterns(xs: seq<TriplePattern>, ys: seq<TriplePattern>)
    ensures var items := Patterns(xs) + Patterns(ys);
            (forall i :: 0 <= i < |items| ==> items[i].PatternStep?) && Gather(items) == [] && ItemsVars(items) == Vars(xs) + Vars(ys)
  {
    var a, b := Patterns(xs), Patterns(ys);
    PatternItems(View([], {}), xs);
    PatternItems(View([], {}), ys);
    VarsAppend(a, b);
    GatherAppend(a, b);
    assert forall i :: 0 <= i < |a + b| ==> (a + b)[i] in a + b;
  }

  // --- The two readings ----------------------------------------------------------------------------------------

  // Rows filtered by `i`, and then an optional filtered by `k`.
  ghost function Half(c: Context, fs: seq<FilterEntry>, js: seq<Solution>, ys: seq<TriplePattern>, zs: seq<TriplePattern>, i: nat, k: nat)
    : seq<Solution>
  {
    FlatMap(Select(js, Passing(c.rules, fs, [i])), OptionalFor(c, fs, Numbered(ys, zs, k)))
  }

  ghost predicate Settled(fs: seq<FilterEntry>, js: seq<Solution>) {
    forall s :: s in js ==> Decided(fs, [0, 1], s.Keys)
  }

  lemma OptionalKeepsVerdict(c: Context, fs: seq<FilterEntry>, o: OptionalItem, which: seq<nat>, x: Solution, m: Solution)
    requires Decided(fs, which, x.Keys) && m in OptionalFor(c, fs, o)(x)
    ensures PassesEach(c.rules, fs, which, m) == PassesEach(c.rules, fs, which, x)
  {
    if m != x {
      SelectMember(JoinOne(x, Inner(c, fs, o.items)), Passing(c.rules, fs, o.filters), m);
      JoinOneMember(x, Inner(c, fs, o.items), m);
      FiltersSettled(c.rules, fs, which, x.Keys);
      assert Extends(x, m);
      assert Passing(c.rules, fs, which)(m) == Passing(c.rules, fs, which)(x);
    }
  }

  // A row that passes one filter and not the other: the reading that filters by the first keeps it, alone, and the
  // other has it nowhere.
  lemma OnlyInOne(c: Context, fs: seq<FilterEntry>, js: seq<Solution>, ys: seq<TriplePattern>, zs: seq<TriplePattern>, i: nat, k: nat, s: Solution)
    requires |fs| == 2 && i < 2 && k < 2 && Settled(fs, js) && s in js
    requires PassesEach(c.rules, fs, [i], s) && !PassesEach(c.rules, fs, [k], s)
    ensures s in Half(c, fs, js, ys, zs, i, k) && s !in Half(c, fs, js, ys, zs, k, i)
  {
    var o := Numbered(ys, zs, k);
    var p, q := Passing(c.rules, fs, [i]), Passing(c.rules, fs, [k]);
    assert Decided(fs, [k], s.Keys);
    SelectMember(js, p, s);
    forall t | t in JoinOne(s, Inner(c, fs, o.items))
      ensures !q(t)
    {
      JoinOneMember(s, Inner(c, fs, o.items), t);
      FiltersSettled(c.rules, fs, [k], s.Keys);
      assert Extends(s, t);
    }
    SelectNone(JoinOne(s, Inner(c, fs, o.items)), q);
    assert OptionalFor(c, fs, o)(s) == [s];
    FlatMapMember(Select(js, p), OptionalFor(c, fs, o), s);
    NotInOther(c, fs, js, ys, zs, k, i, s);
  }

  lemma NotInOther(c: Context, fs: seq<FilterEntry>, js: seq<Solution>, ys: seq<TriplePattern>, zs: seq<TriplePattern>, i: nat, k: nat, s: Solution)
    requires |fs| == 2 && i < 2 && k < 2 && Settled(fs, js) && !PassesEach(c.rules, fs, [i], s)
    ensures s !in Half(c, fs, js, ys, zs, i, k)
  {
    var p, f := Passing(c.rules, fs, [i]), OptionalFor(c, fs, Numbered(ys, zs, k));
    if s in Half(c, fs, js, ys, zs, i, k) {
      FlatMapMember(Select(js, p), f, s);
      var x :| x in Select(js, p) && s in f(x);
      SelectMember(js, p, x);
      assert Decided(fs, [i], x.Keys);
      OptionalKeepsVerdict(c, fs, Numbered(ys, zs, k), [i], x, s);
    }
  }

  ghost predicate Agree(r: Rules, fs: seq<FilterEntry>, js: seq<Solution>) {
    forall s :: s in js ==> PassesEach(r, fs, [0], s) == PassesEach(r, fs, [1], s)
  }

  lemma HalvesAgree(c: Context, fs: seq<FilterEntry>, js: seq<Solution>, ys: seq<TriplePattern>, zs: seq<TriplePattern>)
    requires |fs| == 2 && Settled(fs, js) && Agree(c.rules, fs, js)
    ensures Half(c, fs, js, ys, zs, 0, 1) == Half(c, fs, js, ys, zs, 1, 0)
  {
    var p, q := Passing(c.rules, fs, [0]), Passing(c.rules, fs, [1]);
    var f, g := OptionalFor(c, fs, Numbered(ys, zs, 1)), OptionalFor(c, fs, Numbered(ys, zs, 0));
    forall s | s in js
      ensures p(s) == q(s)
    {
      assert PassesEach(c.rules, fs, [0], s) == PassesEach(c.rules, fs, [1], s);
    }
    SelectEqual(js, p, q);
    forall x | x in Select(js, p)
      ensures f(x) == g(x)
    {
      SelectMember(js, p, x);
      MatchesAll(c, fs, ys, zs, 1, x);
      MatchesAll(c, fs, ys, zs, 0, x);
    }
    FlatMapEqual(Select(js, p), f, g);
  }

  lemma MatchesAll(c: Context, fs: seq<FilterEntry>, ys: seq<TriplePattern>, zs: seq<TriplePattern>, k: nat, x: Solution)
    requires Decided(fs, [k], x.Keys) && PassesEach(c.rules, fs, [k], x)
    ensures OptionalMatches(c, fs, Numbered(ys, zs, k), x) == JoinOne(x, Inner(c, fs, Patterns(zs)))
  {
    var rows, p := JoinOne(x, Inner(c, fs, Patterns(zs))), Passing(c.rules, fs, [k]);
    forall t | t in rows
      ensures p(t)
    {
      JoinOneMember(x, Inner(c, fs, Patterns(zs)), t);
      FiltersSettled(c.rules, fs, [k], x.Keys);
      assert Extends(x, t);
      assert p(t) == p(x);
    }
    SelectEvery(rows, p);
  }

  lemma HalvesExactly(c: Context, fs: seq<FilterEntry>, js: seq<Solution>, ys: seq<TriplePattern>, zs: seq<TriplePattern>)
    requires |fs| == 2 && Settled(fs, js)
    ensures Same(Half(c, fs, js, ys, zs, 1, 0), Half(c, fs, js, ys, zs, 0, 1)) <==> Agree(c.rules, fs, js)
  {
    if Agree(c.rules, fs, js) {
      HalvesAgree(c, fs, js, ys, zs);
    } else {
      var s :| s in js && PassesEach(c.rules, fs, [0], s) != PassesEach(c.rules, fs, [1], s);
      if PassesEach(c.rules, fs, [0], s) {
        OnlyInOne(c, fs, js, ys, zs, 0, 1, s);
      } else {
        OnlyInOne(c, fs, js, ys, zs, 1, 0, s);
      }
      if Same(Half(c, fs, js, ys, zs, 1, 0), Half(c, fs, js, ys, zs, 0, 1)) {
        SameMembers(Half(c, fs, js, ys, zs, 1, 0), Half(c, fs, js, ys, zs, 0, 1), s);
      }
    }
  }

  // --- What the plan owes, and what the algebra says -------------------------------------------------------------

  ghost function Joined(view: View, xs: seq<TriplePattern>, ys: seq<TriplePattern>): seq<Solution> {
    JoinBags(BgpBag(view, None, xs), BgpBag(view, None, ys))
  }

  lemma WhichOther(items: seq<Item>, filters: seq<FilterEntry>, k: nat)
    requires |filters| == 2 && k < 2 && Owned(items) == {k}
    ensures Which(Collected(items, filters), 0) == [1 - k]
  {
    assert Unowned(2, 0, {k}) == [];
    assert Unowned(1, 1, {k}) == (if k == 1 then [] else [1]) + Unowned(2, 0, {k});
    assert Unowned(0, 2, {k}) == (if k == 0 then [] else [0]) + Unowned(1, 1, {k});
  }

  lemma SplicedFenced(ys: seq<TriplePattern>, zs: seq<TriplePattern>, k: nat, filters: seq<FilterEntry>, shared: set<Var>)
    requires k < |filters| && filters[k].needs <= shared && Vars(ys) <= shared
    ensures FencedAll(filters, [Numbered(ys, zs, k)], shared)
  {
    PatternItems(View([], {}), zs);
    assert Fenced(filters, Numbered(ys, zs, k), shared);
  }

  lemma JoinedSettled(view: View, xs: seq<TriplePattern>, ys: seq<TriplePattern>, filters: seq<FilterEntry>)
    requires |filters| == 2 && filters[0].needs <= Vars(xs) + Vars(ys) && filters[1].needs <= Vars(xs) + Vars(ys)
    ensures Settled(filters, Joined(view, xs, ys))
  {
    forall s | s in Joined(view, xs, ys)
      ensures Decided(filters, [0, 1], s.Keys)
    {
      JoinedRowsBind(view, xs, ys, s);
    }
  }

  lemma HalfIs(c: Context, fs: seq<FilterEntry>, js: seq<Solution>, ys: seq<TriplePattern>, zs: seq<TriplePattern>, i: nat, k: nat)
    ensures LeftJoins(c, fs, Select(js, Passing(c.rules, fs, [i])), [Numbered(ys, zs, k)]) == Half(c, fs, js, ys, zs, i, k)
  {
    assert [Numbered(ys, zs, k)][1..] == [];
  }

  // Items whose optional holds the number `k` denote the reading that filters by the other number.
  lemma SplicedDenotes(c: Context, xs: seq<TriplePattern>, ys: seq<TriplePattern>, zs: seq<TriplePattern>, k: nat, filters: seq<FilterEntry>)
    requires |filters| == 2 && k < 2
    ensures var d := Collected(SplicedItems(xs, ys, zs, k), filters);
            Denoted(c, filters, d.items, Which(d, 0)) == Half(c, filters, Joined(c.view, xs, ys), ys, zs, 1 - k, k)
  {
    var items := SplicedItems(xs, ys, zs, k);
    SplicedParts(c.view, xs, ys, zs, k);
    WhichOther(items, filters, k);
    HalfIs(c, filters, Joined(c.view, xs, ys), ys, zs, 1 - k, k);
    DenotedAs(c, filters, items, Which(Collected(items, filters), 0), 1 - k, Joined(c.view, xs, ys), Numbered(ys, zs, k));
  }

  lemma DenotedAs(c: Context, fs: seq<FilterEntry>, items: seq<Item>, which: seq<nat>, i: nat, js: seq<Solution>, o: OptionalItem)
    requires which == [i] && Conj(c.view, Required(items)) == js && Optionals(items) == [o]
    ensures Denoted(c, fs, items, which) == LeftJoins(c, fs, Select(js, Passing(c.rules, fs, [i])), [o])
  {
  }

  lemma SplicedMeaning(c: Context, xs: seq<TriplePattern>, ys: seq<TriplePattern>, zs: seq<TriplePattern>, filters: seq<FilterEntry>)
    requires |filters| == 2 && filters[0].needs <= Vars(xs) + Vars(ys) && filters[1].needs <= Vars(xs) + Vars(ys)
    ensures var d := Collected(SplicedItems(xs, ys, zs, 0), filters);
            Same(Meaning(c, filters, d.items, Which(d, 0), [map[]]), Half(c, filters, Joined(c.view, xs, ys), ys, zs, 1, 0))
  {
    var items, shared := SplicedItems(xs, ys, zs, 0), Vars(xs) + Vars(ys);
    SplicedParts(c.view, xs, ys, zs, 0);
    SplicedFenced(ys, zs, 0, filters, shared);
    WhichOther(items, filters, 0);
    HalfIs(c, filters, Joined(c.view, xs, ys), ys, zs, 1, 0);
    MeaningAs(c, filters, items, Which(Collected(items, filters), 0), 1, Joined(c.view, xs, ys), Numbered(ys, zs, 0), shared);
  }

  lemma MeaningAs(c: Context, fs: seq<FilterEntry>, items: seq<Item>, which: seq<nat>, i: nat, js: seq<Solution>, o: OptionalItem, shared: set<Var>)
    requires which == [i] && i < |fs| && fs[i].needs <= shared && FencedAll(fs, [o], shared)
    requires Conj(c.view, Required(items)) == js && Optionals(items) == [o] && CertainAll(Required(items)) == shared
    ensures Same(Meaning(c, fs, items, which, [map[]]), LeftJoins(c, fs, Select(js, Passing(c.rules, fs, [i])), [o]))
  {
    MeaningSettles(c, fs, items, which);
  }

  // The same pattern without the subquery's braces, which `CollectMeans` covers: its optional holds the number 1.
  function Unspliced(xs: seq<TriplePattern>, f: Expr, ys: seq<TriplePattern>, zs: seq<TriplePattern>, g: Expr): Pattern {
    Join(Filter(f, Bgp(xs)), LeftJoin(Bgp(ys), Filter(g, Bgp(zs)), None))
  }

  lemma UnsplicedCollected(xs: seq<TriplePattern>, f: Expr, ys: seq<TriplePattern>, zs: seq<TriplePattern>, g: Expr, keep: seq<Var>)
    requires SplicedFamily(xs, f, ys, zs, g, keep)
    ensures Collect(Unspliced(xs, f, ys, zs, g), InDefault, 0)
         == Some(Collected(SplicedItems(xs, ys, zs, 1), [EntryOf(f), EntryOf(g)]))
  {
    FilteredCollected(xs, f, 0);
    OptionalCollected(ys, zs, g, 1);
    assert [EntryOf(f)] + [EntryOf(g)] == [EntryOf(f), EntryOf(g)];
    JoinCollected(Filter(f, Bgp(xs)), LeftJoin(Bgp(ys), Filter(g, Bgp(zs)), None), Collected(Patterns(xs), [EntryOf(f)]),
                  Collected(Patterns(ys) + [OptionalStep(Numbered(ys, zs, 1))], [EntryOf(g)]));
  }

  lemma UnsplicedSupported(view: View, xs: seq<TriplePattern>, f: Expr, ys: seq<TriplePattern>, zs: seq<TriplePattern>, g: Expr)
    ensures Supported(view, Unspliced(xs, f, ys, zs, g), InDefault, 0)
  {
    var l, r := Bgp(ys), Filter(g, Bgp(zs));
    var first := Hoisted(Filter(f, Bgp(xs)));
    assert Supported(view, Filter(f, Bgp(xs)), InDefault, 0);
    assert Supported(view, l, InDefault, first) && Supported(view, r, InDefault, 0);
    assert BareOptionals(r) && BoundOf(l, InDefault).possible == BoundOf(l, InDefault).certain;
    assert Supported(view, LeftJoin(l, r, None), InDefault, first);
  }

  lemma UnsplicedDenotes(c: Context, xs: seq<TriplePattern>, f: Expr, ys: seq<TriplePattern>, zs: seq<TriplePattern>, g: Expr, keep: seq<Var>)
    requires SplicedFamily(xs, f, ys, zs, g, keep)
    ensures Same(Eval(c, None, Unspliced(xs, f, ys, zs, g)), Half(c, [EntryOf(f), EntryOf(g)], Joined(c.view, xs, ys), ys, zs, 0, 1))
  {
    var p, filters := Unspliced(xs, f, ys, zs, g), [EntryOf(f), EntryOf(g)];
    UnsplicedCollected(xs, f, ys, zs, g, keep);
    UnsplicedSupported(c.view, xs, f, ys, zs, g);
    SplicedDesigned(xs, ys, zs, 1, filters);
    CollectedApart(p, InDefault, 0);
    PlacedAll(filters);
    CollectMeans(c, p, InDefault, 0, filters);
    SplicedDenotes(c, xs, ys, zs, 1, filters);
    assert EvalIn(c, InDefault, p) == Eval(c, None, p);
  }

  // Braces around something that hides nothing change nothing.
  lemma BracesSame(c: Context, l: Pattern, i: Pattern, keep: seq<Var>, vs: set<Var>)
    requires BindWithin(Eval(c, None, i), vs) && forall v :: v in vs ==> v in keep
    ensures Eval(c, None, Join(l, Project(i, keep))) == Eval(c, None, Join(l, i))
  {
    ProjectNothing(Eval(c, None, i), keep);
  }

  lemma SplicedSame(c: Context, xs: seq<TriplePattern>, f: Expr, ys: seq<TriplePattern>, zs: seq<TriplePattern>, g: Expr, keep: seq<Var>)
    requires forall v :: v in Vars(ys) + Vars(zs) ==> v in keep
    ensures Eval(c, None, Spliced(xs, f, ys, zs, g, keep)) == Eval(c, None, Unspliced(xs, f, ys, zs, g))
  {
    OptionalEval(c, ys, zs, g);
    OptionalWithin(c, ys, zs, g);
    BracesSame(c, Filter(f, Bgp(xs)), LeftJoin(Bgp(ys), Filter(g, Bgp(zs)), None), keep, Vars(ys) + Vars(zs));
  }

  lemma BagWithin(view: View, ts: seq<TriplePattern>)
    ensures BindWithin(BgpBag(view, None, ts), Vars(ts))
  {
    forall s | s in BgpBag(view, None, ts)
      ensures s.Keys <= Vars(ts)
    {
      RowsBind(view, ts, s);
    }
  }

  lemma SelectWithin(xs: seq<Solution>, p: Solution -> bool, vs: set<Var>)
    requires BindWithin(xs, vs)
    ensures BindWithin(Select(xs, p), vs)
  {
    SelectSub(xs, p);
  }

  ghost function OptionalBag(c: Context, ys: seq<TriplePattern>, zs: seq<TriplePattern>, g: Expr): seq<Solution> {
    FlatMap(BgpBag(c.view, None, ys), OrAlone(c.rules, Select(BgpBag(c.view, None, zs), Keeps(c.rules, g)), None))
  }

  lemma OptionalEval(c: Context, ys: seq<TriplePattern>, zs: seq<TriplePattern>, g: Expr)
    ensures Eval(c, None, LeftJoin(Bgp(ys), Filter(g, Bgp(zs)), None)) == OptionalBag(c, ys, zs, g)
  {
    FilterEval(c, zs, g);
    OuterEval(c, ys, Filter(g, Bgp(zs)));
  }

  lemma OptionalWithin(c: Context, ys: seq<TriplePattern>, zs: seq<TriplePattern>, g: Expr)
    ensures BindWithin(OptionalBag(c, ys, zs, g), Vars(ys) + Vars(zs))
  {
    var b, d := BgpBag(c.view, None, ys), BgpBag(c.view, None, zs);
    BagWithin(c.view, ys);
    BagWithin(c.view, zs);
    SelectWithin(d, Keeps(c.rules, g), Vars(zs));
    LeftJoinedWithin(c.rules, None, b, Select(d, Keeps(c.rules, g)), Vars(ys), Vars(zs));
  }

  lemma VerdictHolds(r: Rules, fs: seq<FilterEntry>, i: nat, e: Expr, s: Solution)
    requires i < |fs| && fs[i] == EntryOf(e) && Inspectable(e) && Needs(e) <= s.Keys
    ensures PassesEach(r, fs, [i], s) == Holds(r, e, s)
  {
    EntryPasses(r, e, s);
    assert PassesEach(r, fs, [i], s) <==> Passes(r, fs[i], s);
  }

  lemma VerdictsHold(c: Context, xs: seq<TriplePattern>, ys: seq<TriplePattern>, f: Expr, g: Expr)
    requires Inspectable(f) && Inspectable(g) && Needs(f) <= Vars(xs) + Vars(ys) && Needs(g) <= Vars(xs) + Vars(ys)
    ensures Agree(c.rules, [EntryOf(f), EntryOf(g)], Joined(c.view, xs, ys))
       <==> forall s :: s in Joined(c.view, xs, ys) ==> Holds(c.rules, f, s) == Holds(c.rules, g, s)
  {
    var fs := [EntryOf(f), EntryOf(g)];
    forall s | s in Joined(c.view, xs, ys)
      ensures PassesEach(c.rules, fs, [0], s) == Holds(c.rules, f, s)
      ensures PassesEach(c.rules, fs, [1], s) == Holds(c.rules, g, s)
    {
      JoinedRowsBind(c.view, xs, ys, s);
      VerdictHolds(c.rules, fs, 0, f, s);
      VerdictHolds(c.rules, fs, 1, g, s);
    }
  }

  lemma SameSides(a: seq<Solution>, b: seq<Solution>, d: seq<Solution>)
    requires Same(b, d)
    ensures Same(a, b) <==> Same(a, d)
  {
  }

  // The plan reads it one way and the algebra the other.
  lemma SplicedReadings(c: Context, xs: seq<TriplePattern>, f: Expr, ys: seq<TriplePattern>, zs: seq<TriplePattern>, g: Expr, keep: seq<Var>)
    requires SplicedFamily(xs, f, ys, zs, g, keep)
    ensures var p, fs, js := Spliced(xs, f, ys, zs, g, keep), [EntryOf(f), EntryOf(g)], Joined(c.view, xs, ys);
            && (PlannedRightly(c, p) <==> Same(Half(c, fs, js, ys, zs, 1, 0), Eval(c, None, p)))
            && Same(Eval(c, None, p), Half(c, fs, js, ys, zs, 0, 1))
  {
    var p, fs, js := Spliced(xs, f, ys, zs, g, keep), [EntryOf(f), EntryOf(g)], Joined(c.view, xs, ys);
    SplicedCollected(xs, f, ys, zs, g, keep);
    SplicedMeaning(c, xs, ys, zs, fs);
    PlannedAs(c, p, Collected(SplicedItems(xs, ys, zs, 0), fs), Half(c, fs, js, ys, zs, 1, 0));
    SplicedSame(c, xs, f, ys, zs, g, keep);
    UnsplicedDenotes(c, xs, f, ys, zs, g, keep);
  }

  /**
   `{ xs FILTER f } { SELECT * { ys OPTIONAL { zs FILTER g } } }`, accepted whatever it projects. The plan gives `f` to
   the optional and filters every row by `g`; the algebra filters every row by `f` and gives `g` to the optional. They
   agree exactly when no solution of the two required parts passes one filter and fails the other.
   */
  lemma SplicedOptionalExactly(c: Context, xs: seq<TriplePattern>, f: Expr, ys: seq<TriplePattern>, zs: seq<TriplePattern>, g: Expr,
                               keep: seq<Var>, variables: seq<Var>)
    requires SplicedFamily(xs, f, ys, zs, g, keep)
    requires forall v :: v in variables ==> v in Vars(xs) + Vars(ys) + Vars(zs)
    ensures PlanOf(Project(Spliced(xs, f, ys, zs, g, keep), variables), false, 0, None).Some?
    ensures PlannedRightly(c, Spliced(xs, f, ys, zs, g, keep))
       <==> forall s :: s in Eval(c, None, Join(Bgp(xs), Bgp(ys))) ==> Holds(c.rules, f, s) == Holds(c.rules, g, s)
  {
    var filters, js := [EntryOf(f), EntryOf(g)], Joined(c.view, xs, ys);
    SplicedAccepted(xs, f, ys, zs, g, keep, variables);
    SplicedReadings(c, xs, f, ys, zs, g, keep);
    JoinedSettled(c.view, xs, ys, filters);
    HalvesExactly(c, filters, js, ys, zs);
    VerdictsHold(c, xs, ys, f, g);
    SameSides(Half(c, filters, js, ys, zs, 1, 0), Eval(c, None, Spliced(xs, f, ys, zs, g, keep)), Half(c, filters, js, ys, zs, 0, 1));
  }

  // --- A filter of an optional within an optional --------------------------------------------------------------

  // `ls OPTIONAL { rs OPTIONAL { ns FILTER e } }`
  function Nested(ls: seq<TriplePattern>, rs: seq<TriplePattern>, ns: seq<TriplePattern>, e: Expr): Pattern {
    LeftJoin(Bgp(ls), LeftJoin(Bgp(rs), Filter(e, Bgp(ns)), None), None)
  }

  // The members `plan` accepts, where the outer optional binds something at all: the test for well-designed patterns lets
  // the inner one bind nothing that is not bound around it, on both sides.
  ghost predicate NestedFamily(ls: seq<TriplePattern>, rs: seq<TriplePattern>, ns: seq<TriplePattern>, e: Expr) {
    && Usable(ls) && Usable(rs) && Usable(ns)
    && Hoistable(Conjuncts(e), Vars(ns))
    && Vars(ns) <= Vars(ls) * Vars(rs) && !(Vars(rs) <= Vars(ls))
  }

  function Within(ns: seq<TriplePattern>, k: nat): OptionalItem {
    OptionalItem(Patterns(ns), Range(0, k), {})
  }

  function Around(ls: seq<TriplePattern>, rs: seq<TriplePattern>, ns: seq<TriplePattern>, k: nat): OptionalItem {
    OptionalItem(Patterns(rs) + [OptionalStep(Within(ns, k))], Range(0, k), Vars(rs) - Vars(ls))
  }

  function NestedItems(ls: seq<TriplePattern>, rs: seq<TriplePattern>, ns: seq<TriplePattern>, k: nat): seq<Item> {
    Patterns(ls) + [OptionalStep(Around(ls, rs, ns, k))]
  }

  lemma HoistedCollected(ns: seq<TriplePattern>, e: Expr)
    requires Usable(ns) && Hoistable(Conjuncts(e), Vars(ns))
    ensures Collect(Filter(e, Bgp(ns)), InDefault, 0) == Some(Collected(Patterns(ns), Entries(Conjuncts(e))))
  {
    var es := Entries(Conjuncts(e));
    assert Collect(Bgp(ns), InDefault, 0) == Some(Collected(Patterns(ns), []));
    assert [] + es == es;
  }

  // An OPTIONAL after patterns, its right side already collected.
  lemma AfterPatterns(ts: seq<TriplePattern>, r: Pattern, b: Collected)
    requires Usable(ts) && Collect(r, InDefault, 0) == Some(b)
    ensures var o := OptionalItem(b.items, Range(0, |b.filters|), BoundOf(r, InDefault).possible - Vars(ts));
            Collect(LeftJoin(Bgp(ts), r, None), InDefault, 0) == Some(Collected(Patterns(ts) + [OptionalStep(o)], b.filters))
  {
    var a := Collected(Patterns(ts), []);
    var o := OptionalItem(b.items, Range(0, |b.filters|), BoundOf(r, InDefault).possible - Vars(ts));
    assert Collect(Bgp(ts), InDefault, 0) == Some(a) && BoundOf(Bgp(ts), InDefault).possible == Vars(ts);
    assert b.filters + Entries([]) == b.filters && [] + b.filters == b.filters;
    assert OptionalOf(Bgp(ts), r, None, InDefault, b, 0) == o;
    CollectedTogether(Bgp(ts), r, 0, a, b, o);
  }

  lemma InnerCollected(rs: seq<TriplePattern>, ns: seq<TriplePattern>, e: Expr)
    requires Usable(rs) && Usable(ns) && Hoistable(Conjuncts(e), Vars(ns)) && Vars(ns) <= Vars(rs)
    ensures var es := Entries(Conjuncts(e));
            Collect(LeftJoin(Bgp(rs), Filter(e, Bgp(ns)), None), InDefault, 0)
              == Some(Collected(Patterns(rs) + [OptionalStep(Within(ns, |es|))], es))
  {
    HoistedCollected(ns, e);
    AfterPatterns(rs, Filter(e, Bgp(ns)), Collected(Patterns(ns), Entries(Conjuncts(e))));
    assert BoundOf(Filter(e, Bgp(ns)), InDefault).possible == Vars(ns);
    assert Vars(ns) - Vars(rs) == {};
  }

  lemma NestedCollected(ls: seq<TriplePattern>, rs: seq<TriplePattern>, ns: seq<TriplePattern>, e: Expr)
    requires NestedFamily(ls, rs, ns, e)
    ensures var es := Entries(Conjuncts(e));
            Collect(Nested(ls, rs, ns, e), InDefault, 0) == Some(Collected(NestedItems(ls, rs, ns, |es|), es))
  {
    var es, r := Entries(Conjuncts(e)), LeftJoin(Bgp(rs), Filter(e, Bgp(ns)), None);
    InnerCollected(rs, ns, e);
    AfterPatterns(ls, r, Collected(Patterns(rs) + [OptionalStep(Within(ns, |es|))], es));
    assert BoundOf(Filter(e, Bgp(ns)), InDefault).possible == Vars(ns);
    assert BoundOf(r, InDefault).possible == Vars(rs) + Vars(ns) == Vars(rs);
  }

  lemma NestedGathered(ls: seq<TriplePattern>, rs: seq<TriplePattern>, ns: seq<TriplePattern>, k: nat)
    ensures Gather(NestedItems(ls, rs, ns, k)) == [Around(ls, rs, ns, k), Within(ns, k)]
    ensures Outside(NestedItems(ls, rs, ns, k), 0) == Vars(ls)
  {
    var view := View([], {});
    PatternItems(view, ls);
    PatternItems(view, rs);
    PatternItems(view, ns);
    GatherOptional(Patterns(rs), Within(ns, k));
    GatherOptional(Patterns(ls), Around(ls, rs, ns, k));
    var items := Patterns(ls);
    assert forall i :: 0 <= i < |items| ==> items[i] in items;
    OutsideLast(items, Around(ls, rs, ns, k));
  }

  lemma NestedSecluded(ls: seq<TriplePattern>, rs: seq<TriplePattern>, ns: seq<TriplePattern>, k: nat)
    requires Vars(ns) <= Vars(ls)
    ensures |Gather(NestedItems(ls, rs, ns, k))| == 2
    ensures Secluded(NestedItems(ls, rs, ns, k), 0) && Secluded(NestedItems(ls, rs, ns, k), 1)
  {
    NestedGathered(ls, rs, ns, k);
    PatternItems(View([], {}), ns);
    var all := Gather(NestedItems(ls, rs, ns, k));
    assert all[0] == Around(ls, rs, ns, k) && all[1] == Within(ns, k);
  }

  lemma NestedDesigned(ls: seq<TriplePattern>, rs: seq<TriplePattern>, ns: seq<TriplePattern>, filters: seq<FilterEntry>)
    requires Vars(ns) <= Vars(ls)
    ensures WellDesigned(NestedItems(ls, rs, ns, |filters|), filters)
  {
    NestedSecluded(ls, rs, ns, |filters|);
    NestedGathered(ls, rs, ns, |filters|);
    assert forall i :: 0 <= i < |filters| ==> i in Range(0, |filters|);
  }

  lemma NestedAnchored(ls: seq<TriplePattern>, o: OptionalItem)
    ensures ClosuresAnchored(Patterns(ls) + [OptionalStep(o)])
  {
    var plain := Patterns(ls);
    assert forall i :: 0 <= i < |plain| ==> plain[i] in plain;
    NoClosures(plain, o);
  }

  lemma NestedAccepted(ls: seq<TriplePattern>, rs: seq<TriplePattern>, ns: seq<TriplePattern>, e: Expr, variables: seq<Var>)
    requires NestedFamily(ls, rs, ns, e) && forall v :: v in variables ==> v in Vars(ls) + Vars(rs)
    ensures PlanOf(Project(Nested(ls, rs, ns, e), variables), false, 0, None).Some?
  {
    var p, es := Nested(ls, rs, ns, e), Entries(Conjuncts(e));
    var d := Collected(NestedItems(ls, rs, ns, |es|), es);
    NestedCollected(ls, rs, ns, e);
    NestedDesigned(ls, rs, ns, es);
    NestedAnchored(ls, Around(ls, rs, ns, |es|));
    NestedBound(ls, rs, ns, e);
    assert Finish(p, d, variables, false, 0, None).Some?;
  }

  lemma NestedBound(ls: seq<TriplePattern>, rs: seq<TriplePattern>, ns: seq<TriplePattern>, e: Expr)
    ensures BoundOf(Nested(ls, rs, ns, e), InDefault).possible >= Vars(ls) + Vars(rs)
  {
    assert BoundOf(LeftJoin(Bgp(rs), Filter(e, Bgp(ns)), None), InDefault).possible >= Vars(rs);
  }

  // An OPTIONAL that could bind something its own left side does not is refused anywhere on the right of another,
  // whatever is between them or around them and whatever graph they are in.
  lemma {:induction false} NestedRefused(q: Pattern, distinct: bool, offset: nat, limit: Option<nat>)
    requires NestsNew(Core(q), InDefault)
    ensures PlanOf(q, distinct, offset, limit).None?
  {
    match q
    case Distinct(i) => NestedRefused(i, true, offset, limit);
    case Slice(i, start, length) => NestedRefused(i, distinct, start, length);
    case Project(i, _) =>
      if Collect(i, InDefault, 0).Some? {
        NestsNewFails(i, InDefault, 0);
      }
    case _ =>
  }

  // --- What the loop makes of it -------------------------------------------------------------------------------

  ghost function OrNot(ns: seq<Solution>): Solution -> seq<Solution> {
    y => if JoinOne(y, ns) == [] then [y] else JoinOne(y, ns)
  }

  ghost function Plus(none: bool, l: Solution, rows: seq<Solution>): seq<Solution> {
    if none then [l] else rows
  }

  // One left row in the plan: the filter decides whether the outer optional matched.
  ghost function Tested(r: Rules, e: Expr, rs: seq<Solution>, ns: seq<Solution>, l: Solution): seq<Solution> {
    FlatMap(Select(JoinOne(l, rs), Keeps(r, e)), OrNot(ns))
  }

  ghost function PlanRow(r: Rules, e: Expr, rs: seq<Solution>, ns: seq<Solution>): Solution -> seq<Solution> {
    l => Plus(Tested(r, e, rs, ns, l) == [], l, Tested(r, e, rs, ns, l))
  }

  lemma AllPass(r: Rules, e: Expr, y: Solution)
    requires Hoistable(Conjuncts(e), y.Keys)
    ensures var es := Entries(Conjuncts(e));
            Decided(es, Range(0, |es|), y.Keys) && (PassesEach(r, es, Range(0, |es|), y) <==> Holds(r, e, y))
  {
    var es := Entries(Conjuncts(e));
    EntriesPass(r, e, y);
    PlacedAll(es);
    PlacedPass(r, es, 0, es, y);
  }

  lemma WithinItems(view: View, rs: seq<TriplePattern>, ns: seq<TriplePattern>, k: nat)
    ensures var items := Patterns(rs) + [OptionalStep(Within(ns, k))];
            && Required(items) == Patterns(rs) && Optionals(items) == [Within(ns, k)]
            && Conj(view, Required(items)) == BgpBag(view, None, rs)
  {
    PatternItems(view, rs);
    AppendOptional(Patterns(rs), Within(ns, k));
  }

  // The inner optional, from a row its filters have let through: every match it has is let through too.
  lemma WithinRow(c: Context, e: Expr, ns: seq<TriplePattern>, y: Solution)
    requires Hoistable(Conjuncts(e), y.Keys) && Holds(c.rules, e, y)
    ensures var es := Entries(Conjuncts(e));
            Onward(c, es, [Within(ns, |es|)], [], y) == OrNot(BgpBag(c.view, None, ns))(y)
  {
    var es, k := Entries(Conjuncts(e)), BgpBag(c.view, None, ns);
    var all, rows, o := Range(0, |es|), JoinOne(y, k), Within(ns, |es|);
    PatternItems(c.view, ns);
    JoinSingle(y, k);
    forall z | z in rows
      ensures Carried(c, es, [], all)(z) == Keep(Everything())(z)
    {
      JoinOneMember(y, k, z);
      AllPass(c.rules, e, y);
      NeedsSettled(c.rules, es, all, y, z);
      OnwardDecided(c, es, [], all, z);
    }
    FlatMapEqual(rows, Carried(c, es, [], all), Keep(Everything()));
    SelectIsFlatMap(rows, Everything());
    SelectEvery(rows, Everything());
    assert Patterns(ns) + Steps([]) == Patterns(ns) && [] + all == all && [o][1..] == [];
    assert Meaning(c, es, Patterns(ns), all, [y]) == rows;
  }

  lemma AroundMatch(c: Context, e: Expr, ns: seq<TriplePattern>, y: Solution)
    requires Hoistable(Conjuncts(e), y.Keys)
    ensures var es := Entries(Conjuncts(e));
            Onward(c, es, [Within(ns, |es|)], Range(0, |es|), y) == If(Keeps(c.rules, e), OrNot(BgpBag(c.view, None, ns)))(y)
  {
    var es := Entries(Conjuncts(e));
    AllPass(c.rules, e, y);
    OnwardDecided(c, es, [Within(ns, |es|)], Range(0, |es|), y);
    if Holds(c.rules, e, y) {
      WithinRow(c, e, ns, y);
    }
  }

  lemma AroundMatches(c: Context, e: Expr, rs: seq<TriplePattern>, ns: seq<TriplePattern>, l: Solution)
    requires Hoistable(Conjuncts(e), l.Keys)
    ensures var es := Entries(Conjuncts(e));
            FlatMap(JoinOne(l, BgpBag(c.view, None, rs)), Carried(c, es, [Within(ns, |es|)], Range(0, |es|)))
              == Tested(c.rules, e, BgpBag(c.view, None, rs), BgpBag(c.view, None, ns), l)
  {
    var es, rows := Entries(Conjuncts(e)), JoinOne(l, BgpBag(c.view, None, rs));
    var f, g := Carried(c, es, [Within(ns, |es|)], Range(0, |es|)), OrNot(BgpBag(c.view, None, ns));
    forall y | y in rows
      ensures f(y) == If(Keeps(c.rules, e), g)(y)
    {
      JoinOneMember(l, BgpBag(c.view, None, rs), y);
      AroundMatch(c, e, ns, y);
    }
    FlatMapEqual(rows, f, If(Keeps(c.rules, e), g));
    KeptRows(rows, Keeps(c.rules, e), g);
  }

  lemma AroundRow(c: Context, e: Expr, ls: seq<TriplePattern>, rs: seq<TriplePattern>, ns: seq<TriplePattern>, l: Solution)
    requires Hoistable(Conjuncts(e), l.Keys)
    ensures var es := Entries(Conjuncts(e));
            Onward(c, es, [Around(ls, rs, ns, |es|)], [], l) == PlanRow(c.rules, e, BgpBag(c.view, None, rs), BgpBag(c.view, None, ns))(l)
  {
    var es := Entries(Conjuncts(e));
    var all, o := Range(0, |es|), Around(ls, rs, ns, |es|);
    WithinItems(c.view, rs, ns, |es|);
    JoinSingle(l, BgpBag(c.view, None, rs));
    AroundMatches(c, e, rs, ns, l);
    assert o.items + Steps([]) == o.items && [] + all == all && [o][1..] == [];
  }

  lemma KeptRows(rows: seq<Solution>, p: Solution -> bool, g: Solution -> seq<Solution>)
    ensures FlatMap(rows, If(p, g)) == FlatMap(Select(rows, p), g)
  {
    FlatMapSelect(rows, p, If(p, g));
    forall y | y in Select(rows, p)
      ensures If(p, g)(y) == g(y)
    {
      SelectMember(rows, p, y);
    }
    FlatMapEqual(Select(rows, p), If(p, g), g);
  }

  lemma NestedRow(c: Context, ls: seq<TriplePattern>, rs: seq<TriplePattern>, ns: seq<TriplePattern>, e: Expr, l: Solution)
    requires NestedFamily(ls, rs, ns, e) && l in BgpBag(c.view, None, ls)
    ensures var es := Entries(Conjuncts(e));
            Carried(c, es, [Around(ls, rs, ns, |es|)], [])(l)
              == PlanRow(c.rules, e, BgpBag(c.view, None, rs), BgpBag(c.view, None, ns))(l)
  {
    RowsBind(c.view, ls, l);
    HoistableMore(Conjuncts(e), Vars(ns), l.Keys);
    AroundRow(c, e, ls, rs, ns, l);
  }

  // Patterns and one optional after them, with no filter of the plan's own.
  lemma OneOptional(c: Context, fs: seq<FilterEntry>, ls: seq<TriplePattern>, o: OptionalItem)
    ensures Meaning(c, fs, Patterns(ls) + [OptionalStep(o)], [], [map[]]) == FlatMap(BgpBag(c.view, None, ls), Carried(c, fs, [o], []))
  {
    PatternItems(c.view, ls);
    AppendOptional(Patterns(ls), o);
    JoinIdentity(BgpBag(c.view, None, ls));
    assert [] + [o] == [o];
    assert Optionals(Patterns(ls) + [OptionalStep(o)]) == [o];
  }

  lemma NestedMeaning(c: Context, ls: seq<TriplePattern>, rs: seq<TriplePattern>, ns: seq<TriplePattern>, e: Expr)
    requires NestedFamily(ls, rs, ns, e)
    ensures var es := Entries(Conjuncts(e));
            Meaning(c, es, NestedItems(ls, rs, ns, |es|), [], [map[]])
              == FlatMap(BgpBag(c.view, None, ls), PlanRow(c.rules, e, BgpBag(c.view, None, rs), BgpBag(c.view, None, ns)))
  {
    var es := Entries(Conjuncts(e));
    var f, g := Carried(c, es, [Around(ls, rs, ns, |es|)], []), PlanRow(c.rules, e, BgpBag(c.view, None, rs), BgpBag(c.view, None, ns));
    OneOptional(c, es, ls, Around(ls, rs, ns, |es|));
    forall l | l in BgpBag(c.view, None, ls)
      ensures f(l) == g(l)
    {
      NestedRow(c, ls, rs, ns, e, l);
    }
    FlatMapEqual(BgpBag(c.view, None, ls), f, g);
  }

  // --- What the algebra makes of it ------------------------------------------------------------------------------

  // The outer optional's rows: the filter decides whether the inner optional matched.
  ghost function Inside(r: Rules, e: Expr, rs: seq<Solution>, ns: seq<Solution>): seq<Solution> {
    FlatMap(rs, OrNot(Select(ns, Keeps(r, e))))
  }

  ghost function AlgebraRow(r: Rules, e: Expr, rs: seq<Solution>, ns: seq<Solution>): Solution -> seq<Solution> {
    OrNot(Inside(r, e, rs, ns))
  }

  lemma OrNotIsOrAlone(r: Rules, xs: seq<Solution>, ns: seq<Solution>)
    ensures FlatMap(xs, OrAlone(r, ns, None)) == FlatMap(xs, OrNot(ns))
  {
    forall x | x in xs
      ensures OrAlone(r, ns, None)(x) == OrNot(ns)(x)
    {
      SelectEvery(JoinOne(x, ns), KeepsIf(r, None));
    }
    FlatMapEqual(xs, OrAlone(r, ns, None), OrNot(ns));
  }

  lemma NestedEval(c: Context, ls: seq<TriplePattern>, rs: seq<TriplePattern>, ns: seq<TriplePattern>, e: Expr)
    ensures Eval(c, None, Nested(ls, rs, ns, e))
         == FlatMap(BgpBag(c.view, None, ls), AlgebraRow(c.rules, e, BgpBag(c.view, None, rs), BgpBag(c.view, None, ns)))
  {
    var l, r, n := BgpBag(c.view, None, ls), BgpBag(c.view, None, rs), BgpBag(c.view, None, ns);
    OrNotIsOrAlone(c.rules, r, Select(n, Keeps(c.rules, e)));
    InnerEval(c, rs, ns, e);
    OrNotIsOrAlone(c.rules, l, Inside(c.rules, e, r, n));
    OuterEval(c, ls, LeftJoin(Bgp(rs), Filter(e, Bgp(ns)), None));
  }

  lemma InnerEval(c: Context, rs: seq<TriplePattern>, ns: seq<TriplePattern>, e: Expr)
    ensures Eval(c, None, LeftJoin(Bgp(rs), Filter(e, Bgp(ns)), None))
         == FlatMap(BgpBag(c.view, None, rs), OrAlone(c.rules, Select(BgpBag(c.view, None, ns), Keeps(c.rules, e)), None))
  {
    FilterEval(c, ns, e);
    OuterEval(c, rs, Filter(e, Bgp(ns)));
  }

  lemma FilterEval(c: Context, ns: seq<TriplePattern>, e: Expr)
    ensures Eval(c, None, Filter(e, Bgp(ns))) == Select(BgpBag(c.view, None, ns), Keeps(c.rules, e))
  {
  }

  lemma OuterEval(c: Context, ls: seq<TriplePattern>, r: Pattern)
    ensures Eval(c, None, LeftJoin(Bgp(ls), r, None)) == FlatMap(BgpBag(c.view, None, ls), OrAlone(c.rules, Eval(c, None, r), None))
  {
  }

  // --- Row by row --------------------------------------------------------------------------------------------------

  // The bags of the three parts: every row binds its part's variables, and the filter reads the innermost's.
  ghost predicate Parts(e: Expr, ls: seq<Solution>, rs: seq<Solution>, ns: seq<Solution>, lv: set<Var>, rv: set<Var>, nv: set<Var>) {
    && (forall l :: l in ls ==> l.Keys == lv)
    && (forall r :: r in rs ==> r.Keys == rv)
    && (forall n :: n in ns ==> n.Keys == nv)
    && nv <= lv * rv && !(rv <= lv)
    && Inspectable(e) && Needs(e) <= nv
  }

  lemma SameVerdict(r: Rules, e: Expr, a: Solution, b: Solution)
    requires Inspectable(e) && Needs(e) <= a.Keys && Extends(a, b)
    ensures Holds(r, e, a) == Holds(r, e, b)
  {
    EvaluateLocal(r, e, a, b);
  }

  // Within one row of the middle part, the inner optional's matches all have the row's own verdict.
  lemma InnerVerdict(rules: Rules, e: Expr, r: Solution, ns: seq<Solution>)
    requires Inspectable(e) && Needs(e) <= r.Keys && forall n :: n in ns ==> n.Keys <= r.Keys && Needs(e) <= n.Keys
    ensures JoinOne(r, Select(ns, Keeps(rules, e))) == if Holds(rules, e, r) then JoinOne(r, ns) else []
  {
    var rows := JoinOne(r, ns);
    forall n | n in ns && Compatible(r, n)
      ensures Keeps(rules, e)(r + n) == Keeps(rules, e)(n)
    {
      assert Extends(n, r + n);
      SameVerdict(rules, e, n, r + n);
    }
    SelectJoinRight(r, ns, Keeps(rules, e));
    forall t | t in rows
      ensures Keeps(rules, e)(t) == Holds(rules, e, r)
    {
      JoinOneMember(r, ns, t);
      SameVerdict(rules, e, r, t);
    }
    if Holds(rules, e, r) {
      SelectEvery(rows, Keeps(rules, e));
    } else {
      SelectNone(rows, Keeps(rules, e));
    }
  }

  ghost predicate EachHolds(rules: Rules, e: Expr, ys: seq<Solution>) {
    forall y :: y in ys ==> Holds(rules, e, y)
  }

  // A row joined with rows inside its own variables is itself, as often as they are compatible.
  lemma OrNotKeeps(r: Solution, ns: seq<Solution>, t: Solution)
    requires (forall n :: n in ns ==> n.Keys <= r.Keys) && t in OrNot(ns)(r)
    ensures t == r
  {
    if JoinOne(r, ns) != [] {
      JoinOneMember(r, ns, t);
      var n :| n in ns && Compatible(r, n) && t == r + n;
      assert r + n == r;
    }
  }

  lemma SelectedKeys(ns: seq<Solution>, p: Solution -> bool, vs: set<Var>)
    requires forall n :: n in ns ==> n.Keys <= vs
    ensures forall n :: n in Select(ns, p) ==> n.Keys <= vs
  {
    SelectSub(ns, p);
  }

  lemma JoinApart(l: Solution, r: Solution, ts: seq<Solution>)
    requires !Compatible(l, r) && forall t :: t in ts ==> t == r
    ensures JoinOne(l, ts) == []
  {
    FlatMapNothing(ts, Against(l));
  }

  lemma JoinOrNot(l: Solution, r: Solution, ns: seq<Solution>)
    requires Compatible(l, r) && forall n :: n in ns ==> n.Keys <= r.Keys
    ensures JoinOne(l, OrNot(ns)(r)) == OrNot(ns)(l + r)
  {
    var rows := JoinOne(r, ns);
    MergeThenJoin(l, r, ns);
    JoinSingle(l + r, ns);
    FlatMapOne(r, Against(l));
    if rows != [] {
      OrNotKeeps(r, ns, rows[0]);
      assert rows == [r] + rows[1..];
      JoinOneAppend(l, [r], rows[1..]);
    }
  }

  // One row on each side, where the filter holds of what they make together.
  lemma PairSame(rules: Rules, e: Expr, l: Solution, r: Solution, ns: seq<Solution>)
    requires Inspectable(e) && Needs(e) <= r.Keys && forall n :: n in ns ==> n.Keys <= r.Keys && Needs(e) <= n.Keys
    requires Compatible(l, r) ==> Holds(rules, e, l + r)
    ensures JoinOne(l, OrNot(Select(ns, Keeps(rules, e)))(r)) == FlatMap(Merge(l, r), OrNot(ns))
  {
    var kept := OrNot(Select(ns, Keeps(rules, e)))(r);
    if Compatible(l, r) {
      assert Extends(r, l + r);
      SameVerdict(rules, e, r, l + r);
      InnerVerdict(rules, e, r, ns);
      JoinOrNot(l, r, ns);
      FlatMapOne(l + r, OrNot(ns));
    } else {
      SelectedKeys(ns, Keeps(rules, e), r.Keys);
      forall t | t in kept
        ensures t == r
      {
        OrNotKeeps(r, Select(ns, Keeps(rules, e)), t);
      }
      JoinApart(l, r, kept);
    }
  }

  lemma {:induction false} InsideSame(rules: Rules, e: Expr, l: Solution, rs: seq<Solution>, ns: seq<Solution>)
    requires Inspectable(e)
    requires forall r :: r in rs ==> Needs(e) <= r.Keys && (Compatible(l, r) ==> Holds(rules, e, l + r))
    requires forall r, n :: r in rs && n in ns ==> n.Keys <= r.Keys && Needs(e) <= n.Keys
    ensures JoinOne(l, Inside(rules, e, rs, ns)) == FlatMap(JoinOne(l, rs), OrNot(ns))
  {
    if rs != [] {
      var r, inner := rs[0], OrNot(Select(ns, Keeps(rules, e)));
      PairSame(rules, e, l, r, ns);
      InsideSame(rules, e, l, rs[1..], ns);
      JoinOneAppend(l, inner(r), FlatMap(rs[1..], inner));
      FlatMapAppend(Merge(l, r), JoinOne(l, rs[1..]), OrNot(ns));
    }
  }

  lemma RowAgrees(rules: Rules, e: Expr, ls: seq<Solution>, rs: seq<Solution>, ns: seq<Solution>, lv: set<Var>, rv: set<Var>, nv: set<Var>, l: Solution)
    requires Parts(e, ls, rs, ns, lv, rv, nv) && l in ls && EachHolds(rules, e, JoinOne(l, rs))
    ensures PlanRow(rules, e, rs, ns)(l) == AlgebraRow(rules, e, rs, ns)(l)
  {
    forall r | r in rs && Compatible(l, r)
      ensures Holds(rules, e, l + r)
    {
      JoinOneMember(l, rs, l + r);
    }
    InsideSame(rules, e, l, rs, ns);
    SelectEvery(JoinOne(l, rs), Keeps(rules, e));
  }

  // A pair the filter rejects: the algebra keeps it, without the inner optional; the plan has nothing like it.
  lemma PairKept(rules: Rules, e: Expr, l: Solution, r: Solution, rs: seq<Solution>, ns: seq<Solution>)
    requires Inspectable(e) && Needs(e) <= r.Keys && forall n :: n in ns ==> n.Keys <= r.Keys && Needs(e) <= n.Keys
    requires r in rs && Compatible(l, r) && !Holds(rules, e, l + r)
    ensures l + r in AlgebraRow(rules, e, rs, ns)(l)
  {
    var inner := OrNot(Select(ns, Keeps(rules, e)));
    assert Extends(r, l + r);
    SameVerdict(rules, e, r, l + r);
    InnerVerdict(rules, e, r, ns);
    assert r in inner(r);
    FlatMapMember(rs, inner, r);
    JoinOneMember(l, Inside(rules, e, rs, ns), l + r);
  }

  lemma NeverPlanned(rules: Rules, e: Expr, ls: seq<Solution>, rs: seq<Solution>, ns: seq<Solution>, lv: set<Var>, rv: set<Var>, nv: set<Var>,
                     l: Solution, s: Solution)
    requires Parts(e, ls, rs, ns, lv, rv, nv) && l in ls && s.Keys == lv + rv && !Holds(rules, e, s)
    ensures s !in PlanRow(rules, e, rs, ns)(l)
  {
    var rows := JoinOne(l, rs);
    if s in Tested(rules, e, rs, ns, l) {
      FlatMapMember(Select(rows, Keeps(rules, e)), OrNot(ns), s);
      var y :| y in Select(rows, Keeps(rules, e)) && s in OrNot(ns)(y);
      SelectMember(rows, Keeps(rules, e), y);
      JoinOneMember(l, rs, y);
      OrNotKeeps(y, ns, s);
    }
  }

  lemma NestedParts(view: View, ls: seq<TriplePattern>, rs: seq<TriplePattern>, ns: seq<TriplePattern>, e: Expr)
    requires NestedFamily(ls, rs, ns, e)
    ensures Parts(e, BgpBag(view, None, ls), BgpBag(view, None, rs), BgpBag(view, None, ns), Vars(ls), Vars(rs), Vars(ns))
  {
    BagBinds(view, ls);
    BagBinds(view, rs);
    BagBinds(view, ns);
    ConjunctsBound(e, Vars(ns));
  }

  lemma BagBinds(view: View, ts: seq<TriplePattern>)
    ensures forall s :: s in BgpBag(view, None, ts) ==> s.Keys == Vars(ts)
  {
    forall s | s in BgpBag(view, None, ts)
      ensures s.Keys == Vars(ts)
    {
      RowsBind(view, ts, s);
    }
  }

  lemma RowsExactly(rules: Rules, e: Expr, ls: seq<Solution>, rs: seq<Solution>, ns: seq<Solution>, lv: set<Var>, rv: set<Var>, nv: set<Var>)
    requires Parts(e, ls, rs, ns, lv, rv, nv)
    ensures Same(FlatMap(ls, PlanRow(rules, e, rs, ns)), FlatMap(ls, AlgebraRow(rules, e, rs, ns))) <==> EachHolds(rules, e, JoinBags(ls, rs))
  {
    if EachHolds(rules, e, JoinBags(ls, rs)) {
      RowsAgree(rules, e, ls, rs, ns, lv, rv, nv);
    } else {
      var s :| s in JoinBags(ls, rs) && !Holds(rules, e, s);
      RowsDiffer(rules, e, ls, rs, ns, lv, rv, nv, s);
    }
  }

  lemma RowsAgree(rules: Rules, e: Expr, ls: seq<Solution>, rs: seq<Solution>, ns: seq<Solution>, lv: set<Var>, rv: set<Var>, nv: set<Var>)
    requires Parts(e, ls, rs, ns, lv, rv, nv) && EachHolds(rules, e, JoinBags(ls, rs))
    ensures FlatMap(ls, PlanRow(rules, e, rs, ns)) == FlatMap(ls, AlgebraRow(rules, e, rs, ns))
  {
    forall l | l in ls
      ensures PlanRow(rules, e, rs, ns)(l) == AlgebraRow(rules, e, rs, ns)(l)
    {
      forall y | y in JoinOne(l, rs)
        ensures Holds(rules, e, y)
      {
        FlatMapMember(ls, JoinedWith(rs), y);
      }
      RowAgrees(rules, e, ls, rs, ns, lv, rv, nv, l);
    }
    FlatMapEqual(ls, PlanRow(rules, e, rs, ns), AlgebraRow(rules, e, rs, ns));
  }

  lemma RowsDiffer(rules: Rules, e: Expr, ls: seq<Solution>, rs: seq<Solution>, ns: seq<Solution>, lv: set<Var>, rv: set<Var>, nv: set<Var>,
                   s: Solution)
    requires Parts(e, ls, rs, ns, lv, rv, nv) && s in JoinBags(ls, rs) && !Holds(rules, e, s)
    ensures !Same(FlatMap(ls, PlanRow(rules, e, rs, ns)), FlatMap(ls, AlgebraRow(rules, e, rs, ns)))
  {
    var f, g := PlanRow(rules, e, rs, ns), AlgebraRow(rules, e, rs, ns);
    JoinMember(ls, rs, s);
    var l, r :| l in ls && r in rs && Compatible(l, r) && s == l + r;
    PairKept(rules, e, l, r, rs, ns);
    FlatMapMember(ls, g, s);
    if s in FlatMap(ls, f) {
      FlatMapMember(ls, f, s);
      var m :| m in ls && s in f(m);
      NeverPlanned(rules, e, ls, rs, ns, lv, rv, nv, m, s);
    }
    if Same(FlatMap(ls, f), FlatMap(ls, g)) {
      SameMembers(FlatMap(ls, f), FlatMap(ls, g), s);
    }
  }

  lemma {:induction false} NoneUnowned(lo: nat, n: nat, owned: set<nat>)
    requires forall i :: lo <= i < lo + n ==> i in owned
    ensures Unowned(lo, n, owned) == []
    decreases n
  {
    if n > 0 {
      NoneUnowned(lo + 1, n - 1, owned);
    }
  }

  lemma NestedUnowned(ls: seq<TriplePattern>, rs: seq<TriplePattern>, ns: seq<TriplePattern>, filters: seq<FilterEntry>)
    ensures Which(Collected(NestedItems(ls, rs, ns, |filters|), filters), 0) == []
  {
    var items, o := NestedItems(ls, rs, ns, |filters|), Around(ls, rs, ns, |filters|);
    AppendOptional(Patterns(ls), o);
    assert forall i :: 0 <= i < |filters| ==> i in o.filters;
    NoneUnowned(0, |filters|, Owned(items));
  }

  // The plan reads it one way and the algebra the other.
  lemma NestedReadings(c: Context, ls: seq<TriplePattern>, rs: seq<TriplePattern>, ns: seq<TriplePattern>, e: Expr)
    requires NestedFamily(ls, rs, ns, e)
    ensures var p, r, n := Nested(ls, rs, ns, e), BgpBag(c.view, None, rs), BgpBag(c.view, None, ns);
            && (PlannedRightly(c, p) <==> Same(FlatMap(BgpBag(c.view, None, ls), PlanRow(c.rules, e, r, n)), Eval(c, None, p)))
            && Eval(c, None, p) == FlatMap(BgpBag(c.view, None, ls), AlgebraRow(c.rules, e, r, n))
  {
    var p, es := Nested(ls, rs, ns, e), Entries(Conjuncts(e));
    var r, n := BgpBag(c.view, None, rs), BgpBag(c.view, None, ns);
    NestedCollected(ls, rs, ns, e);
    NestedUnowned(ls, rs, ns, es);
    NestedMeaning(c, ls, rs, ns, e);
    PlannedAs(c, p, Collected(NestedItems(ls, rs, ns, |es|), es), FlatMap(BgpBag(c.view, None, ls), PlanRow(c.rules, e, r, n)));
    NestedEval(c, ls, rs, ns, e);
  }

  lemma NestedRight(c: Context, ls: seq<TriplePattern>, rs: seq<TriplePattern>, ns: seq<TriplePattern>, e: Expr)
    requires NestedFamily(ls, rs, ns, e)
    ensures PlannedRightly(c, Nested(ls, rs, ns, e)) <==> EachHolds(c.rules, e, Joined(c.view, ls, rs))
  {
    var l, r, n := BgpBag(c.view, None, ls), BgpBag(c.view, None, rs), BgpBag(c.view, None, ns);
    NestedReadings(c, ls, rs, ns, e);
    NestedParts(c.view, ls, rs, ns, e);
    RowsExactly(c.rules, e, l, r, n, Vars(ls), Vars(rs), Vars(ns));
  }

  lemma JoinEval(c: Context, xs: seq<TriplePattern>, ys: seq<TriplePattern>)
    ensures Eval(c, None, Join(Bgp(xs), Bgp(ys))) == Joined(c.view, xs, ys)
  {
  }

  /**
   `ls OPTIONAL { rs OPTIONAL { ns FILTER e } }`, accepted whatever it projects. The outer optional takes every filter
   collected with its right side for its own, the inner one's among them; so a filter that should only decide whether the
   inner optional matched decides whether the outer one did. The two agree exactly when every pair of a row of `ls` and
   a row of `rs` passes the filter.
   */
  lemma NestedFilterExactly(c: Context, ls: seq<TriplePattern>, rs: seq<TriplePattern>, ns: seq<TriplePattern>, e: Expr, variables: seq<Var>)
    requires NestedFamily(ls, rs, ns, e) && forall v :: v in variables ==> v in Vars(ls) + Vars(rs)
    ensures PlanOf(Project(Nested(ls, rs, ns, e), variables), false, 0, None).Some?
    ensures PlannedRightly(c, Nested(ls, rs, ns, e))
       <==> EachHolds(c.rules, e, Eval(c, None, Join(Bgp(ls), Bgp(rs))))
  {
    NestedAccepted(ls, rs, ns, e, variables);
    NestedRight(c, ls, rs, ns, e);
    JoinEval(c, ls, rs);
  }
}
