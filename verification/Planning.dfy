/**
 From a pattern tree to a flat plan (crates/holos-engine/src/bindjoin.rs, `collect` and `finish`), and
 the proof that the plan denotes what the tree does.
 */
module Planning {
  import opened Locks
  import opened Options
  import opened Bags
  import opened Rdf
  import opened Solutions
  import opened Expressions
  import opened Algebra
  import opened Items
  import opened Scopes
  import opened Commuting

  // The variables a subtree binds: on every path through it, and on at least one.
  datatype Bound = Bound(certain: set<Var>, possible: set<Var>)
  {
    function Joined(other: Bound): Bound {
      Bound(certain + other.certain, possible + other.possible)
    }

    function Alternated(other: Bound): Bound {
      Bound(certain * other.certain, possible + other.possible)
    }
  }

  datatype Collected = Collected(items: seq<Item>, filters: seq<FilterEntry>)

  predicate UsableTriple(t: TriplePattern) {
    !(t.s.T? && t.s.t.Quoted?) && !(t.o.T? && t.o.t.Quoted?)
  }

  function ClosureItemOf(s: Position, e: PathExpr, o: Position, scope: Scope): Option<ClosureItem> {
    var inner := match e
      case ZeroOrMore(i) => Some((i, AnyNumber))
      case OneOrMore(i) => Some((i, AtLeastOne))
      case ZeroOrOne(i) => Some((i, AtMostOne))
      case _ => None;
    if inner.None? || (s.T? && s.t.Quoted?) || (o.T? && o.t.Quoted?) then None
    else match inner.value.0
      case Link(p) => Some(ClosureItem(s, o, p, false, inner.value.1, scope))
      case Reverse(Link(p)) => Some(ClosureItem(s, o, p, true, inner.value.1, scope))
      case _ => None
  }

  // `a|b` and a bare predicate, as union branches.
  function PathAlternatives(e: PathExpr, s: Position, o: Position, scope: Scope): Option<seq<seq<PatternItem>>> {
    match e
    case Link(p) =>
      if (s.T? && !s.t.Iri?) || (o.T? && o.t.Quoted?) then None
      else Some([[PatternItem(TriplePattern(s, T(p), o), scope)]])
    case Alternative(a, b) =>
      var x, y := PathAlternatives(a, s, o, scope), PathAlternatives(b, s, o, scope);
      if x.None? || y.None? then None else Some(x.value + y.value)
    case _ => None
  }

  // Nested unions of basic graph patterns, flattened. A GRAPH block may re-scope a branch.
  function UnionBranches(p: Pattern, scope: Scope): Option<seq<seq<PatternItem>>> {
    match p
    case Union(l, r) =>
      var a, b := UnionBranches(l, scope), UnionBranches(r, scope);
      if a.None? || b.None? then None else Some(a.value + b.value)
    case Graph(name, i) => if scope.InDefault? then UnionBranches(i, ScopeOf(name)) else None
    case Bgp(ts) =>
      if ts == [] || exists i :: 0 <= i < |ts| && !UsableTriple(ts[i]) then None
      else Some([TaggedWith(ts, scope)])
    case _ => None
  }

  function ScopeOf(name: Position): Scope {
    match name
    case V(v) => InEach(v)
    case T(g) => InNamed(g)
  }

  function BoundOf(p: Pattern, scope: Scope): Bound {
    match p
    case Bgp(ts) => var vs := BranchVars(TaggedWith(ts, scope)); Bound(vs, vs)
    case Path(s, _, o) => var vs := PositionVars(s) + PositionVars(o); Bound(vs, vs)
    case Values(vars, rows) => Bound(ValuesCertain(vars, rows), set v | v in vars)
    case Join(l, r) => BoundOf(l, scope).Joined(BoundOf(r, scope))
    case LeftJoin(l, r, _) =>
      var outer := BoundOf(l, scope);
      Bound(outer.certain, outer.possible + BoundOf(r, scope).possible)
    case Union(l, r) => BoundOf(l, scope).Alternated(BoundOf(r, scope))
    case Filter(_, i) => BoundOf(i, scope)
    case Graph(name, i) => BoundOf(i, ScopeOf(name))
    case Project(i, _) => BoundOf(i, scope)
    case _ => Bound({}, {})
  }

  function Entries(es: seq<Expr>): (r: seq<FilterEntry>)
    ensures |r| == |es|
    ensures forall i :: 0 <= i < |es| ==> r[i] == FilterEntry(es[i], Needs(es[i]))
  {
    if es == [] then [] else [FilterEntry(es[0], Needs(es[0]))] + Entries(es[1..])
  }

  // Every conjunct can be evaluated here, over variables known to be bound.
  predicate Hoistable(es: seq<Expr>, bound: set<Var>) {
    forall i :: 0 <= i < |es| ==> Inspectable(es[i]) && Needs(es[i]) <= bound
  }

  function Range(lo: nat, n: nat): (r: seq<nat>)
    ensures forall i :: i in r <==> lo <= i < lo + n
    decreases n
  {
    if n == 0 then [] else [lo] + Range(lo + 1, n - 1)
  }

  function Conditions(condition: Option<Expr>): seq<Expr> {
    if condition.None? then [] else Conjuncts(condition.value)
  }

  function OptionalOf(l: Pattern, r: Pattern, condition: Option<Expr>, scope: Scope, b: Collected, at: nat): OptionalItem {
    OptionalItem(b.items, Range(at, |b.filters + Entries(Conditions(condition))|),
                 BoundOf(r, scope).possible - BoundOf(l, scope).possible)
  }

  // What a pattern adds to the plan, its filters numbered from `first` on.
  function Collect(p: Pattern, scope: Scope, first: nat): Option<Collected> {
    match p
    case Bgp(ts) =>
      if exists i :: 0 <= i < |ts| && !UsableTriple(ts[i]) then None
      else Some(Collected(AsItems(TaggedWith(ts, scope)), []))
    case Path(s, e, o) =>
      var closure := ClosureItemOf(s, e, o, scope);
      if closure.Some? then Some(Collected([ClosureStep(closure.value)], []))
      else
        var branches := PathAlternatives(e, s, o, scope);
        if branches.None? then None else Some(Collected([UnionStep(branches.value)], []))
    case Values(vars, rows) => Some(Collected([ValuesStep(vars, rows)], []))
    case Join(l, r) =>
      var a := Collect(l, scope, first);
      if a.None? then None
      else
        var b := Collect(r, scope, first + |a.value.filters|);
        if b.None? then None
        else Some(Collected(a.value.items + b.value.items, a.value.filters + b.value.filters))
    case LeftJoin(l, r, condition) =>
      var a := Collect(l, scope, first);
      var b := Collect(r, scope, 0);
      if a.None? || b.None? || !Hoistable(Conditions(condition), BoundOf(r, scope).certain + BoundOf(l, scope).certain) then None
      else
        var o := OptionalOf(l, r, condition, scope, b.value, first + |a.value.filters|);
        Some(Collected(a.value.items + [OptionalStep(o)], a.value.filters + (b.value.filters + Entries(Conditions(condition)))))
    case Union(l, r) =>
      var branches := UnionBranches(p, scope);
      if branches.None? then None else Some(Collected([UnionStep(branches.value)], []))
    case Filter(e, i) =>
      var a := Collect(i, scope, first);
      if a.None? || !Hoistable(Conjuncts(e), BoundOf(i, scope).certain) then None
      else Some(Collected(a.value.items, a.value.filters + Entries(Conjuncts(e))))
    case Graph(name, i) => if scope.InDefault? then Collect(i, ScopeOf(name), first) else None
    case Project(i, keep) =>
      var a := Collect(i, scope, 0);
      if a.None? || exists v :: v in BoundOf(i, scope).possible && v !in keep then None else a
    case _ => None
  }

  // --- What the theorem asks of the pattern -----------------------------------------------------------

  // A scope in which something other than a triple pattern may stand: the default graph, or a named
  // graph the store has.
  ghost predicate Solid(view: View, scope: Scope) {
    scope.InDefault? || (scope.InNamed? && scope.g in view.GraphNames())
  }

  // How many filters `collect` hoists out of a pattern.
  function Hoisted(p: Pattern): nat {
    match p
    case Join(l, r) => Hoisted(l) + Hoisted(r)
    case LeftJoin(l, r, condition) => Hoisted(l) + Hoisted(r) + |Conditions(condition)|
    case Filter(e, i) => Hoisted(i) + |Conjuncts(e)|
    case Graph(_, i) => Hoisted(i)
    case Project(i, _) => Hoisted(i)
    case _ => 0
  }

  // No optional of the pattern has a filter or a condition.
  predicate BareOptionals(p: Pattern) {
    match p
    case Join(l, r) => BareOptionals(l) && BareOptionals(r)
    case LeftJoin(l, r, condition) => BareOptionals(l) && Hoisted(r) == 0 && condition.None?
    case Filter(_, i) => BareOptionals(i)
    case Graph(_, i) => BareOptionals(i)
    case Project(i, _) => BareOptionals(i)
    case _ => true
  }

  // An optional shares only variables its left side certainly binds.
  predicate SharesCertain(l: Pattern, r: Pattern, scope: Scope) {
    BoundOf(r, scope).possible * BoundOf(l, scope).possible <= BoundOf(l, scope).certain
  }

  // A graph variable that nothing inside its block is counted to bind: an alternative path does not count the graph it
  // matches in, though its items bind it.
  function Leaked(p: Pattern): set<Var> {
    match p
    case Join(l, r) => Leaked(l) + Leaked(r)
    case LeftJoin(l, r, _) => Leaked(l) + Leaked(r)
    case Filter(_, i) => Leaked(i)
    case Graph(name, i) => Leaked(i) + (ScopeVars(ScopeOf(name)) - BoundOf(i, ScopeOf(name)).possible)
    case Project(i, _) => Leaked(i)
    case _ => {}
  }

  // GRAPH ?v around an optional binds ?v after it: the optional must not bind it or ask about it.
  predicate LeavesAlone(scope: Scope, r: Pattern, condition: Option<Expr>) {
    scope.InEach? ==> scope.v !in BoundOf(r, InDefault).possible && (condition.Some? ==> scope.v !in Needs(condition.value))
  }

  // The patterns planned rightly whatever the rest of the query is, when `first` filters were hoisted before.
  ghost predicate Supported(view: View, p: Pattern, scope: Scope, first: nat) {
    match p
    case Bgp(ts) => ts != [] || Solid(view, scope)
    case Path(s, e, o) => Solid(view, scope) || ClosureItemOf(s, e, o, scope).None?
    case Values(_, _) => Solid(view, scope)
    case Join(l, r) => Supported(view, l, scope, first) && Supported(view, r, scope, first + Hoisted(l))
    case LeftJoin(l, r, condition) =>
      && BareOptionals(r) && SharesCertain(l, r, scope) && LeavesAlone(scope, r, condition) && Leaked(l) + Leaked(r) == {}
      && Supported(view, l, scope, first) && Supported(view, r, scope, 0)
    case Union(l, r) => Supported(view, l, scope, first) && Supported(view, r, scope, first)
    case Filter(e, i) => Supported(view, i, scope, first) && (scope.InEach? ==> scope.v !in Needs(e))
    case Graph(name, i) => Supported(view, i, ScopeOf(name), first)
    case Project(i, _) => Solid(view, scope) && Leaked(i) == {} && (first == 0 || BareOptionals(i)) && Supported(view, i, scope, first)
    case _ => true
  }

  // --- `well_designed` -----------------------------------------------------------------------------------

  // The optionals of a list of items, each before the ones within it.
  function Gather(items: seq<Item>): seq<OptionalItem>
    decreases items
  {
    if items == [] then [] else GatherIn(items[0]) + Gather(items[1..])
  }

  function GatherIn(item: Item): seq<OptionalItem>
    decreases item
  {
    match item
    case OptionalStep(o) => [o] + Gather(o.items)
    case _ => []
  }

  // What is mentioned outside one optional, given by its place among those gathered.
  function Outside(items: seq<Item>, skip: int): set<Var>
    decreases items
  {
    if items == [] then {} else OutsideIn(items[0], skip) + Outside(items[1..], skip - |GatherIn(items[0])|)
  }

  function OutsideIn(item: Item, skip: int): set<Var>
    decreases item
  {
    match item
    case OptionalStep(o) => if skip == 0 then {} else Outside(o.items, skip - 1)
    case _ => VarsOf(item)
  }

  // Nothing else in the plan mentions a variable the optional gathered at `k` counts as its own. What is within that
  // optional is something else too, and so is an optional around it.
  predicate Secluded(items: seq<Item>, k: nat)
    requires k < |Gather(items)|
  {
    var all := Gather(items);
    && all[k].own !! Outside(items, k)
    && forall j :: 0 <= j < |all| && j != k ==> all[k].own !! ItemsVars(all[j].items)
  }

  // No variable that only one optional binds is read anywhere else.
  predicate WellDesigned(items: seq<Item>, filters: seq<FilterEntry>) {
    var all := Gather(items);
    forall k :: 0 <= k < |all| ==>
      && Secluded(items, k)
      && forall i :: 0 <= i < |filters| && i !in all[k].filters ==> all[k].own !! filters[i].needs
  }

  predicate Apart(items: seq<Item>, i: nat)
    requires i < |items| && items[i].OptionalStep?
  {
    forall j :: 0 <= j < |items| && j != i ==> items[i].optional.own !! VarsOf(items[j])
  }

  // The optionals of a list, and those within them, have no variables of their own.
  ghost predicate NothingNew(items: seq<Item>) {
    forall o :: o in Gather(items) ==> o.own == {}
  }

  // What well-designed comes to: each optional apart from the items beside it, and nothing new bound within it.
  ghost predicate AllApart(items: seq<Item>) {
    forall i :: 0 <= i < |items| && items[i].OptionalStep? ==> Apart(items, i) && NothingNew(items[i].optional.items)
  }

  // --- The bag a list of items and filters denotes ------------------------------------------------------

  function Owned(items: seq<Item>): set<nat>
    decreases items
  {
    if items == [] then {} else OwnedIn(items[0]) + Owned(items[1..])
  }

  function OwnedIn(item: Item): set<nat>
    decreases item
  {
    match item
    case OptionalStep(o) => (set i | i in o.filters) + Owned(o.items)
    case _ => {}
  }

  function Unowned(lo: nat, n: nat, owned: set<nat>): (r: seq<nat>)
    ensures forall i :: i in r <==> lo <= i < lo + n && i !in owned
    decreases n
  {
    if n == 0 then [] else (if lo in owned then [] else [lo]) + Unowned(lo + 1, n - 1, owned)
  }

  ghost function Passed(c: Context, fs: seq<FilterEntry>, items: seq<Item>, which: seq<nat>): seq<Solution> {
    Select(Conj(c.view, Required(items)), Passing(c.rules, fs, which))
  }

  ghost function Denoted(c: Context, fs: seq<FilterEntry>, items: seq<Item>, which: seq<nat>): seq<Solution> {
    LeftJoins(c, fs, Passed(c, fs, items, which), Optionals(items))
  }

  // Where the parts are sound, what the loop owes is what the parts denote.
  lemma DenotedIsMeaning(c: Context, fs: seq<FilterEntry>, d: Collected, first: nat)
    requires SoundFilters(fs, d, first, CertainAll(Required(d.items))) && SoundOptionals(fs, d.items)
    ensures Same(Meaning(c, fs, d.items, Which(d, first), [map[]]), Denoted(c, fs, d.items, Which(d, first)))
  {
    MeaningSettles(c, fs, d.items, Which(d, first));
  }

  // The filters of a part of the plan, at their place in the whole.
  ghost predicate Placed(fs: seq<FilterEntry>, first: nat, filters: seq<FilterEntry>) {
    first + |filters| <= |fs| && fs[first..first + |filters|] == filters
  }

  function Which(d: Collected, first: nat): seq<nat> {
    Unowned(first, |d.filters|, Owned(d.items))
  }

  ghost predicate OwnMentioned(os: seq<OptionalItem>) {
    forall i :: 0 <= i < |os| ==> os[i].own <= ItemsVars(os[i].items)
  }

  // What the tree counts as bound against what the items bind.
  ghost predicate SoundVars(p: Pattern, scope: Scope, items: seq<Item>) {
    && BoundOf(p, scope).certain + ScopeVars(scope) <= CertainAll(Required(items))
    && BoundOf(p, scope).possible <= ItemsVars(items) <= BoundOf(p, scope).possible + ScopeVars(scope) + Leaked(p)
  }

  ghost predicate Inspected(filters: seq<FilterEntry>) {
    forall k :: 0 <= k < |filters| ==> Inspectable(filters[k].expr) && filters[k].needs == Needs(filters[k].expr)
  }

  ghost predicate OwnedWithin(items: seq<Item>, lo: nat, n: nat) {
    forall i :: i in Owned(items) ==> lo <= i < lo + n
  }

  ghost predicate SoundFilters(fs: seq<FilterEntry>, d: Collected, first: nat, certain: set<Var>) {
    && Inspected(d.filters)
    && OwnedWithin(d.items, first, |d.filters|)
    && (forall i :: i in Which(d, first) ==> i < |fs| && fs[i].needs <= certain)
  }

  ghost predicate SoundOptionals(fs: seq<FilterEntry>, items: seq<Item>) {
    FencedAll(fs, Optionals(items), CertainAll(Required(items))) && OwnMentioned(Optionals(items))
  }

  // What every collected part keeps, whatever surrounds it.
  ghost predicate Sound(fs: seq<FilterEntry>, p: Pattern, scope: Scope, d: Collected, first: nat) {
    forall k {:trigger Unlock(k)} :: Unlock(k) ==>
      && SoundVars(p, scope, d.items)
      && SoundFilters(fs, d, first, CertainAll(Required(d.items)))
      && SoundOptionals(fs, d.items)
  }

  lemma Opened(fs: seq<FilterEntry>, p: Pattern, scope: Scope, d: Collected, first: nat)
    requires Sound(fs, p, scope, d, first)
    ensures SoundVars(p, scope, d.items)
    ensures SoundFilters(fs, d, first, CertainAll(Required(d.items)))
    ensures SoundOptionals(fs, d.items)
  {
    assert Unlock(Key);
  }

  // --- Lists of items ----------------------------------------------------------------------------------

  lemma {:induction false} VarsAppend(xs: seq<Item>, ys: seq<Item>)
    ensures ItemsVars(xs + ys) == ItemsVars(xs) + ItemsVars(ys)
    ensures Owned(xs + ys) == Owned(xs) + Owned(ys)
  {
    if xs == [] {
      assert xs + ys == ys;
    } else {
      var zs := xs + ys;
      assert zs[1..] == xs[1..] + ys && zs[0] == xs[0];
      VarsAppend(xs[1..], ys);
    }
  }

  lemma {:induction false} OwnCovered(items: seq<Item>)
    requires OwnMentioned(Optionals(items))
    ensures OwnVars(Optionals(items)) <= ItemsVars(items)
  {
    if items != [] {
      if items[0].OptionalStep? {
        var os := Optionals(items);
        assert os[0] == items[0].optional && os[1..] == Optionals(items[1..]);
        forall i | 0 <= i < |os[1..]|
          ensures os[1..][i].own <= ItemsVars(os[1..][i].items)
        {
          assert os[1..][i] == os[i + 1];
        }
        OwnCovered(items[1..]);
      } else {
        OwnCovered(items[1..]);
      }
    }
  }

  // Optionals without filters own none.
  lemma {:induction false} BareOwned(items: seq<Item>)
    requires BareWithin(items)
    ensures Owned(items) == {}
    decreases TotalSize(items)
  {
    BareOwnedIn(items, items, 0);
  }

  lemma {:induction false} BareOwnedIn(items: seq<Item>, part: seq<Item>, k: nat)
    requires BareWithin(items) && k <= |items| && part == items[k..]
    ensures Owned(part) == {}
    decreases TotalSize(items), |part|
  {
    if part != [] {
      assert part[1..] == items[k + 1..] && part[0] == items[k];
      BareOwnedIn(items, part[1..], k + 1);
      if part[0].OptionalStep? {
        var i := OptionalIndex(items, k);
        SmallerOptional(items, i);
        BareOwned(part[0].optional.items);
      }
    }
  }

  // Where an optional item stands among the optionals.
  lemma {:induction false} OptionalIndex(items: seq<Item>, k: nat) returns (i: nat)
    requires k < |items| && items[k].OptionalStep?
    ensures i < |Optionals(items)| && Optionals(items)[i] == items[k].optional
  {
    if k == 0 {
      i := 0;
    } else {
      i := OptionalIndex(items[1..], k - 1);
      if items[0].OptionalStep? {
        i := i + 1;
      }
    }
  }

  lemma {:induction false} ApartFrom(items: seq<Item>, i: nat, others: seq<Item>)
    requires i < |items| && items[i].OptionalStep?
    requires forall j :: 0 <= j < |others| ==> items[i].optional.own !! VarsOf(others[j])
    ensures items[i].optional.own !! ItemsVars(others)
  {
    if others != [] {
      ApartFrom(items, i, others[1..]);
    }
  }

  // Which optional of the list an optional item is.
  lemma {:induction false} OptionalAt(items: seq<Item>, k: nat) returns (i: nat)
    requires k < |Optionals(items)|
    ensures i < |items| && items[i].OptionalStep? && items[i].optional == Optionals(items)[k]
  {
    if items[0].OptionalStep? {
      if k == 0 {
        i := 0;
      } else {
        i := OptionalAt(items[1..], k - 1);
        i := i + 1;
      }
    } else {
      i := OptionalAt(items[1..], k);
      i := i + 1;
    }
  }

  lemma ApartSides(xs: seq<Item>, ys: seq<Item>)
    requires AllApart(xs + ys)
    ensures AllApart(xs) && AllApart(ys)
    ensures forall k :: 0 <= k < |Optionals(xs)| ==> Optionals(xs)[k].own !! ItemsVars(ys)
    ensures forall k :: 0 <= k < |Optionals(ys)| ==> Optionals(ys)[k].own !! ItemsVars(xs)
  {
    var zs := xs + ys;
    forall i | 0 <= i < |xs| && xs[i].OptionalStep?
      ensures Apart(xs, i) && NothingNew(xs[i].optional.items) && xs[i].optional.own !! ItemsVars(ys)
    {
      assert zs[i] == xs[i] && Apart(zs, i);
      forall j | 0 <= j < |xs| && j != i
        ensures xs[i].optional.own !! VarsOf(xs[j])
      {
        assert zs[j] == xs[j];
      }
      forall j | 0 <= j < |ys|
        ensures xs[i].optional.own !! VarsOf(ys[j])
      {
        assert zs[|xs| + j] == ys[j];
      }
      ApartFrom(xs, i, ys);
    }
    forall i | 0 <= i < |ys| && ys[i].OptionalStep?
      ensures Apart(ys, i) && NothingNew(ys[i].optional.items) && ys[i].optional.own !! ItemsVars(xs)
    {
      assert zs[|xs| + i] == ys[i] && Apart(zs, |xs| + i);
      forall j | 0 <= j < |ys| && j != i
        ensures ys[i].optional.own !! VarsOf(ys[j])
      {
        assert zs[|xs| + j] == ys[j];
      }
      forall j | 0 <= j < |xs|
        ensures ys[i].optional.own !! VarsOf(xs[j])
      {
        assert zs[j] == xs[j];
      }
      ApartFrom(ys, i, xs);
    }
    forall k | 0 <= k < |Optionals(xs)|
      ensures Optionals(xs)[k].own !! ItemsVars(ys)
    {
      var i := OptionalAt(xs, k);
    }
    forall k | 0 <= k < |Optionals(ys)|
      ensures Optionals(ys)[k].own !! ItemsVars(xs)
    {
      var i := OptionalAt(ys, k);
    }
  }

  lemma FencedMore(fs: seq<FilterEntry>, os: seq<OptionalItem>, shared: set<Var>, shared': set<Var>)
    requires FencedAll(fs, os, shared) && shared <= shared'
    ensures FencedAll(fs, os, shared')
  {
    forall i | 0 <= i < |os|
      ensures Fenced(fs, os[i], shared')
    {
      assert Fenced(fs, os[i], shared);
    }
  }

  // --- Rows of a collected part ------------------------------------------------------------------------

  lemma RequiredBind(c: Context, fs: seq<FilterEntry>, items: seq<Item>, which: seq<nat>, s: Solution)
    requires s in Passed(c, fs, items, which)
    ensures CertainAll(Required(items)) <= s.Keys <= ItemsVars(items)
  {
    SelectMember(Conj(c.view, Required(items)), Passing(c.rules, fs, which), s);
    RequiredBinds(c.view, items, s);
    RequiredVars(items);
  }

  lemma DenotedBind(c: Context, fs: seq<FilterEntry>, p: Pattern, scope: Scope, d: Collected, first: nat, s: Solution)
    requires Sound(fs, p, scope, d, first) && s in Denoted(c, fs, d.items, Which(d, first))
    ensures BoundOf(p, scope).certain <= s.Keys <= BoundOf(p, scope).possible + ScopeVars(scope) + Leaked(p)
  {
    var xs := Passed(c, fs, d.items, Which(d, first));
    Opened(fs, p, scope, d, first);
    forall x | x in xs
      ensures CertainAll(Required(d.items)) <= x.Keys
    {
      RequiredBind(c, fs, d.items, Which(d, first), x);
    }
    var a := LeftJoinsBind(c, fs, Optionals(d.items), CertainAll(Required(d.items)), xs, s);
    RequiredBind(c, fs, d.items, Which(d, first), a);
    OwnCovered(d.items);
  }
}
