/**
 What the well-designedness test comes to (crates/holos-engine/src/bindjoin.rs, `well_designed`): every optional
 stands apart from what is beside it, and an optional within another binds nothing new.
 */
module Designs {
  import opened Options
  import opened Bags
  import opened Rdf
  import opened Solutions
  import opened Expressions
  import opened Algebra
  import opened Items
  import opened Scopes
  import opened Commuting
  import opened Planning
  import opened PlanMeaning

  // --- Every optional mentions what it owns ----------------------------------------------------------------

  ghost predicate Mentioned(items: seq<Item>) {
    forall o :: o in Gather(items) ==> o.own <= ItemsVars(o.items)
  }

  lemma {:induction false} GatherAppend(xs: seq<Item>, ys: seq<Item>)
    ensures Gather(xs + ys) == Gather(xs) + Gather(ys)
  {
    if xs == [] {
      assert xs + ys == ys;
    } else {
      var zs := xs + ys;
      assert zs[1..] == xs[1..] + ys && zs[0] == xs[0];
      GatherAppend(xs[1..], ys);
      assert Gather(zs) == GatherIn(xs[0]) + (Gather(xs[1..]) + Gather(ys));
    }
  }

  lemma {:induction false} GatherPlain(items: seq<Item>)
    requires forall i :: 0 <= i < |items| ==> !items[i].OptionalStep?
    ensures Gather(items) == []
  {
    if items != [] {
      GatherPlain(items[1..]);
    }
  }

  ghost predicate Mentions(items: seq<Item>, vs: set<Var>) {
    vs <= ItemsVars(items) && Mentioned(items)
  }

  ghost predicate MentionsBound(p: Pattern, scope: Scope, d: Option<Collected>) {
    d.Some? ==> Mentions(d.value.items, BoundOf(p, scope).possible)
  }

  // Whatever is collected mentions every variable it is counted to bind, and so does each optional within it.
  lemma {:induction false} CollectMentions(p: Pattern, scope: Scope, first: nat)
    ensures MentionsBound(p, scope, Collect(p, scope, first))
  {
    match p
    case Join(l, r) =>
      CollectMentions(l, scope, first);
      var a := Collect(l, scope, first);
      if a.Some? {
        var b := Collect(r, scope, first + |a.value.filters|);
        CollectMentions(r, scope, first + |a.value.filters|);
        if b.Some? {
          JoinMentions(a.value.items, b.value.items, BoundOf(l, scope).possible, BoundOf(r, scope).possible);
        }
      }
    case LeftJoin(l, r, condition) =>
      CollectMentions(l, scope, first);
      CollectMentions(r, scope, 0);
      OptionalMentions(l, r, condition, scope, first);
    case Filter(_, i) => CollectMentions(i, scope, first);
    case Graph(name, i) => CollectMentions(i, ScopeOf(name), first);
    case Project(i, _) => CollectMentions(i, scope, 0);
    case _ => LeafMentions(p, scope, first);
  }

  lemma JoinMentions(xs: seq<Item>, ys: seq<Item>, vs: set<Var>, ws: set<Var>)
    requires Mentions(xs, vs) && Mentions(ys, ws)
    ensures Mentions(xs + ys, vs + ws)
  {
    GatherAppend(xs, ys);
    VarsAppend(xs, ys);
  }

  lemma AddedMentions(items: seq<Item>, vs: set<Var>, o: OptionalItem, ws: set<Var>)
    requires Mentions(items, vs) && Mentions(o.items, ws) && o.own <= ws
    ensures Mentions(items + [OptionalStep(o)], vs + ws)
  {
    AppendOptional(items, o);
    GatherOptional(items, o);
  }

  lemma {:induction false} OptionalMentions(l: Pattern, r: Pattern, condition: Option<Expr>, scope: Scope, first: nat)
    requires MentionsBound(l, scope, Collect(l, scope, first)) && MentionsBound(r, scope, Collect(r, scope, 0))
    ensures MentionsBound(LeftJoin(l, r, condition), scope, Collect(LeftJoin(l, r, condition), scope, first))
  {
    if Collect(LeftJoin(l, r, condition), scope, first).Some? {
      var a, b := Collect(l, scope, first).value, Collect(r, scope, 0).value;
      var o := OptionalOf(l, r, condition, scope, b, first + |a.filters|);
      assert o.items == b.items && o.own == BoundOf(r, scope).possible - BoundOf(l, scope).possible;
      AddedMentions(a.items, BoundOf(l, scope).possible, o, BoundOf(r, scope).possible);
      assert Collect(LeftJoin(l, r, condition), scope, first).value.items == a.items + [OptionalStep(o)];
    }
  }

  lemma GatherOptional(items: seq<Item>, o: OptionalItem)
    ensures Gather(items + [OptionalStep(o)]) == Gather(items) + ([o] + Gather(o.items))
  {
    GatherAppend(items, [OptionalStep(o)]);
    assert [OptionalStep(o)][1..] == [];
    assert Gather([OptionalStep(o)]) == GatherIn(OptionalStep(o)) + [];
  }

  lemma LeafMentions(p: Pattern, scope: Scope, first: nat)
    requires !p.Join? && !p.LeftJoin? && !p.Filter? && !p.Graph? && !p.Project?
    ensures MentionsBound(p, scope, Collect(p, scope, first))
  {
    var d := Collect(p, scope, first);
    if d.Some? {
      match p
      case Bgp(ts) =>
        BranchItemVars(TaggedWith(ts, scope));
        PlainMentions(d.value.items, BoundOf(p, scope).possible);
      case Path(s, e, o) =>
        if ClosureItemOf(s, e, o, scope).None? {
          PathBounds(e, s, o, scope);
        }
        ItemMentions(d.value.items[0], BoundOf(p, scope).possible);
      case Values(_, _) => ItemMentions(d.value.items[0], BoundOf(p, scope).possible);
      case Union(_, _) =>
        UnionBounds(p, scope);
        ItemMentions(d.value.items[0], BoundOf(p, scope).possible);
      case _ =>
    }
  }

  lemma PlainMentions(items: seq<Item>, vs: set<Var>)
    requires vs <= ItemsVars(items) && forall x :: x in items ==> !x.OptionalStep?
    ensures Mentions(items, vs)
  {
    assert forall i :: 0 <= i < |items| ==> items[i] in items;
    GatherPlain(items);
  }

  lemma ItemMentions(item: Item, vs: set<Var>)
    requires vs <= VarsOf(item) && !item.OptionalStep?
    ensures Mentions([item], vs)
  {
    assert [item][1..] == [];
    PlainMentions([item], vs);
  }

  // --- Where an optional is gathered -------------------------------------------------------------------------

  // The place of the i-th item's own optional among those gathered.
  function At(items: seq<Item>, i: nat): nat
    requires i < |items|
  {
    |Gather(items[..i])|
  }

  lemma GatherAround(xs: seq<Item>, o: OptionalItem, ys: seq<Item>)
    ensures Gather(xs + [OptionalStep(o)] + ys) == Gather(xs) + ([o] + Gather(o.items)) + Gather(ys)
  {
    GatherOptional(xs, o);
    GatherAppend(xs + [OptionalStep(o)], ys);
  }

  lemma GatherParts(items: seq<Item>, i: nat)
    requires i < |items| && items[i].OptionalStep?
    ensures Gather(items) == Gather(items[..i]) + ([items[i].optional] + Gather(items[i].optional.items)) + Gather(items[i + 1..])
  {
    var o := items[i].optional;
    assert items == items[..i] + [OptionalStep(o)] + items[i + 1..];
    GatherAround(items[..i], o, items[i + 1..]);
  }

  lemma GatheredHere(items: seq<Item>, i: nat)
    requires i < |items| && items[i].OptionalStep?
    ensures At(items, i) < |Gather(items)| && Gather(items)[At(items, i)] == items[i].optional
    ensures forall m :: 0 <= m < |Gather(items[i].optional.items)| ==>
              At(items, i) + 1 + m < |Gather(items)| && Gather(items)[At(items, i) + 1 + m] == Gather(items[i].optional.items)[m]
  {
    GatherParts(items, i);
  }

  lemma PlacesDiffer(items: seq<Item>, i: nat, j: nat)
    requires i < j < |items| && items[i].OptionalStep?
    ensures At(items, i) < At(items, j)
  {
    assert items[..j][..i] == items[..i] && items[..j][i] == items[i];
    GatheredHere(items[..j], i);
  }

  lemma {:induction false} OutsideCovers(items: seq<Item>, skip: int, j: nat)
    requires j < |items| && !items[j].OptionalStep?
    ensures VarsOf(items[j]) <= Outside(items, skip)
  {
    if j > 0 {
      OutsideCovers(items[1..], skip - |GatherIn(items[0])|, j - 1);
    }
  }

  lemma {:induction false} GatheredVars(items: seq<Item>, o: OptionalItem)
    requires o in Gather(items)
    ensures ItemsVars(o.items) <= ItemsVars(items)
    decreases items
  {
    if o in GatherIn(items[0]) {
      GatheredVarsIn(items[0], o);
    } else {
      GatheredVars(items[1..], o);
    }
  }

  lemma {:induction false} GatheredVarsIn(item: Item, o: OptionalItem)
    requires o in GatherIn(item)
    ensures ItemsVars(o.items) <= VarsOf(item)
    decreases item
  {
    if o != item.optional {
      GatheredVars(item.optional.items, o);
    }
  }

  // --- What the test comes to ----------------------------------------------------------------------------------

  lemma DesignedBeside(items: seq<Item>, filters: seq<FilterEntry>, i: nat)
    requires WellDesigned(items, filters) && i < |items| && items[i].OptionalStep?
    ensures Apart(items, i)
  {
    var o := items[i].optional;
    GatheredHere(items, i);
    assert Secluded(items, At(items, i));
    forall j | 0 <= j < |items| && j != i
      ensures o.own !! VarsOf(items[j])
    {
      if items[j].OptionalStep? {
        GatheredHere(items, j);
        if i < j {
          PlacesDiffer(items, i, j);
        } else {
          PlacesDiffer(items, j, i);
        }
      } else {
        OutsideCovers(items, At(items, i), j);
      }
    }
  }

  lemma GatheredLater(items: seq<Item>, i: nat, n: OptionalItem) returns (k: nat)
    requires i < |items| && items[i].OptionalStep? && n in Gather(items[i].optional.items)
    ensures At(items, i) < k < |Gather(items)| && Gather(items)[k] == n && Gather(items)[At(items, i)] == items[i].optional
  {
    var within := Gather(items[i].optional.items);
    GatheredHere(items, i);
    var m :| 0 <= m < |within| && within[m] == n;
    k := At(items, i) + 1 + m;
  }

  // An optional within another is also read where the outer one is, so nothing is left for it to own.
  lemma DesignedWithin(items: seq<Item>, filters: seq<FilterEntry>, i: nat)
    requires WellDesigned(items, filters) && Mentioned(items) && i < |items| && items[i].OptionalStep?
    ensures NothingNew(items[i].optional.items)
  {
    var o := items[i].optional;
    forall n | n in Gather(o.items)
      ensures n.own == {}
    {
      var k := GatheredLater(items, i, n);
      assert Secluded(items, k);
      GatheredVars(o.items, n);
      assert n in Gather(items);
    }
  }

  lemma DesignedApart(items: seq<Item>, filters: seq<FilterEntry>)
    requires WellDesigned(items, filters) && Mentioned(items)
    ensures AllApart(items)
  {
    forall i | 0 <= i < |items| && items[i].OptionalStep?
      ensures Apart(items, i) && NothingNew(items[i].optional.items)
    {
      DesignedBeside(items, filters, i);
      DesignedWithin(items, filters, i);
    }
  }

  // A plan that passes the test has every optional apart from its neighbours, and an OPTIONAL within an OPTIONAL that
  // could bind a variable nothing around it binds never passes.
  lemma CollectedApart(p: Pattern, scope: Scope, first: nat)
    requires Collect(p, scope, first).Some?
    requires var d := Collect(p, scope, first).value; WellDesigned(d.items, d.filters)
    ensures AllApart(Collect(p, scope, first).value.items)
  {
    CollectMentions(p, scope, first);
    var d := Collect(p, scope, first).value;
    DesignedApart(d.items, d.filters);
  }

  // --- What the test asks, exactly -----------------------------------------------------------------------------

  // Optionals within this one read none of its own variables.
  ghost predicate UnreadWithin(o: OptionalItem) {
    forall n :: n in Gather(o.items) ==> o.own !! ItemsVars(n.items)
  }

  ghost predicate UnreadByFilters(o: OptionalItem, filters: seq<FilterEntry>) {
    forall i :: 0 <= i < |filters| && i !in o.filters ==> o.own !! filters[i].needs
  }

  // Of each optional at the top, its own variables are in nothing beside it, in no optional within it and in no filter
  // but its own, and what is within it owns nothing.
  ghost predicate Standing(items: seq<Item>, filters: seq<FilterEntry>) {
    AllApart(items)
    && forall i :: 0 <= i < |items| && items[i].OptionalStep? ==>
         UnreadWithin(items[i].optional) && UnreadByFilters(items[i].optional, filters)
  }

  // Whatever is gathered is an optional at the top, in its place, or is within one.
  lemma {:induction false} GatheredFrom(items: seq<Item>, k: nat) returns (i: nat)
    requires k < |Gather(items)|
    ensures i < |items| && items[i].OptionalStep?
    ensures (k == At(items, i) && Gather(items)[k] == items[i].optional) || Gather(items)[k] in Gather(items[i].optional.items)
  {
    var first := |GatherIn(items[0])|;
    if k < first {
      i := 0;
      assert items[..0] == [];
    } else {
      var rest := items[1..];
      i := GatheredFrom(rest, k - first);
      assert items[..i + 1] == [items[0]] + rest[..i] && [items[0]][1..] == [];
      GatherAppend([items[0]], rest[..i]);
      i := i + 1;
    }
  }

  lemma {:induction false} OutsideWithin(items: seq<Item>, skip: int)
    ensures Outside(items, skip) <= ItemsVars(items)
    decreases items
  {
    if items != [] {
      OutsideWithin(items[1..], skip - |GatherIn(items[0])|);
      OutsideInWithin(items[0], skip);
    }
  }

  lemma {:induction false} OutsideInWithin(item: Item, skip: int)
    ensures OutsideIn(item, skip) <= VarsOf(item)
    decreases item
  {
    if item.OptionalStep? {
      OutsideWithin(item.optional.items, skip - 1);
    }
  }

  // What is read outside an optional at the top is in the items beside it.
  lemma {:induction false} OutsideBeside(items: seq<Item>, i: nat, v: Var) returns (j: nat)
    requires i < |items| && items[i].OptionalStep? && v in Outside(items, At(items, i))
    ensures j < |items| && j != i && v in VarsOf(items[j])
  {
    var rest := items[1..];
    if i == 0 {
      assert items[..0] == [];
      OutsideWithin(rest, 0 - |GatherIn(items[0])|);
      j := VarsFrom(rest, v);
      j := j + 1;
    } else {
      assert items[..i] == [items[0]] + rest[..i - 1] && [items[0]][1..] == [];
      GatherAppend([items[0]], rest[..i - 1]);
      if v in Outside(rest, At(rest, i - 1)) {
        j := OutsideBeside(rest, i - 1, v);
        j := j + 1;
      } else {
        OutsideInWithin(items[0], At(items, i));
        j := 0;
      }
    }
  }

  lemma {:induction false} VarsFrom(items: seq<Item>, v: Var) returns (j: nat)
    requires v in ItemsVars(items)
    ensures j < |items| && v in VarsOf(items[j])
  {
    if v in VarsOf(items[0]) {
      j := 0;
    } else {
      j := VarsFrom(items[1..], v);
      j := j + 1;
    }
  }

  lemma StandingSecluded(items: seq<Item>, filters: seq<FilterEntry>, k: nat)
    requires Standing(items, filters) && k < |Gather(items)|
    ensures Secluded(items, k) && UnreadByFilters(Gather(items)[k], filters)
  {
    var all := Gather(items);
    var i := GatheredFrom(items, k);
    if all[k] in Gather(items[i].optional.items) {
      assert all[k].own == {};
    } else {
      forall v | v in Outside(items, k)
        ensures v !in all[k].own
      {
        var j := OutsideBeside(items, i, v);
      }
      forall j | 0 <= j < |all| && j != k
        ensures all[k].own !! ItemsVars(all[j].items)
      {
        var m := GatheredFrom(items, j);
        if all[j] in Gather(items[m].optional.items) {
          GatheredVars(items[m].optional.items, all[j]);
        }
      }
    }
  }

  lemma DesignedUnread(items: seq<Item>, filters: seq<FilterEntry>, i: nat)
    requires WellDesigned(items, filters) && i < |items| && items[i].OptionalStep?
    ensures UnreadWithin(items[i].optional) && UnreadByFilters(items[i].optional, filters)
  {
    var o := items[i].optional;
    GatheredHere(items, i);
    assert Secluded(items, At(items, i));
    forall n | n in Gather(o.items)
      ensures o.own !! ItemsVars(n.items)
    {
      var k := GatheredLater(items, i, n);
    }
  }

  // The test is passed exactly then.
  lemma DesignedExactly(items: seq<Item>, filters: seq<FilterEntry>)
    requires Mentioned(items)
    ensures WellDesigned(items, filters) <==> Standing(items, filters)
  {
    if WellDesigned(items, filters) {
      DesignedApart(items, filters);
      forall i | 0 <= i < |items| && items[i].OptionalStep?
        ensures UnreadWithin(items[i].optional) && UnreadByFilters(items[i].optional, filters)
      {
        DesignedUnread(items, filters, i);
      }
    }
    if Standing(items, filters) {
      forall k | 0 <= k < |Gather(items)|
        ensures Secluded(items, k) && UnreadByFilters(Gather(items)[k], filters)
      {
        StandingSecluded(items, filters, k);
      }
    }
  }

  // --- An OPTIONAL that binds something new, within another --------------------------------------------------

  // The right side of some OPTIONAL may bind what its left side does not.
  ghost predicate BindsNew(p: Pattern, scope: Scope) {
    match p
    case Join(l, r) => BindsNew(l, scope) || BindsNew(r, scope)
    case LeftJoin(l, r, _) => (exists v :: v in BoundOf(r, scope).possible && v !in BoundOf(l, scope).possible) || BindsNew(l, scope) || BindsNew(r, scope)
    case Filter(_, i) => BindsNew(i, scope)
    case Graph(name, i) => BindsNew(i, ScopeOf(name))
    case Project(i, _) => BindsNew(i, scope)
    case _ => false
  }

  // There is such an OPTIONAL on the right of another, however deep and whatever is between and around them.
  ghost predicate NestsNew(p: Pattern, scope: Scope) {
    match p
    case Join(l, r) => NestsNew(l, scope) || NestsNew(r, scope)
    case LeftJoin(l, r, _) => NestsNew(l, scope) || BindsNew(r, scope)
    case Filter(_, i) => NestsNew(i, scope)
    case Graph(name, i) => NestsNew(i, ScopeOf(name))
    case Project(i, _) => NestsNew(i, scope)
    case _ => false
  }

  ghost predicate OwnsGathered(items: seq<Item>) {
    exists o :: o in Gather(items) && o.own != {}
  }

  ghost predicate OwnsWithin(items: seq<Item>) {
    exists o, n :: o in Gather(items) && n in Gather(o.items) && n.own != {}
  }

  lemma OwnsAppend(xs: seq<Item>, ys: seq<Item>)
    ensures OwnsGathered(xs) || OwnsGathered(ys) ==> OwnsGathered(xs + ys)
    ensures OwnsWithin(xs) || OwnsWithin(ys) ==> OwnsWithin(xs + ys)
  {
    GatherAppend(xs, ys);
    if OwnsGathered(xs) || OwnsGathered(ys) {
      var o :| (o in Gather(xs) || o in Gather(ys)) && o.own != {};
      assert o in Gather(xs + ys);
    }
    if OwnsWithin(xs) || OwnsWithin(ys) {
      var o, n :| (o in Gather(xs) || o in Gather(ys)) && n in Gather(o.items) && n.own != {};
      assert o in Gather(xs + ys);
    }
  }

  lemma OwnsOptional(o: OptionalItem)
    ensures o.own != {} || OwnsGathered(o.items) ==> OwnsGathered([OptionalStep(o)])
    ensures OwnsGathered(o.items) ==> OwnsWithin([OptionalStep(o)])
  {
    GatherOptional([], o);
    var all := Gather([OptionalStep(o)]);
    assert [] + [OptionalStep(o)] == [OptionalStep(o)] && Gather([]) == [];
    assert all == [o] + Gather(o.items) && o in all;
    if OwnsGathered(o.items) {
      var n :| n in Gather(o.items) && n.own != {};
      assert n in all;
    }
  }

  lemma OwnsAdded(items: seq<Item>, o: OptionalItem)
    ensures OwnsGathered(items) || o.own != {} || OwnsGathered(o.items) ==> OwnsGathered(items + [OptionalStep(o)])
    ensures OwnsWithin(items) || OwnsGathered(o.items) ==> OwnsWithin(items + [OptionalStep(o)])
  {
    OwnsOptional(o);
    OwnsAppend(items, [OptionalStep(o)]);
  }

  ghost predicate GatheredNew(p: Pattern, scope: Scope, d: Option<Collected>) {
    d.Some? && BindsNew(p, scope) ==> OwnsGathered(d.value.items)
  }

  ghost predicate WithinNew(p: Pattern, scope: Scope, d: Option<Collected>) {
    d.Some? && NestsNew(p, scope) ==> OwnsWithin(d.value.items)
  }

  // The optional a LeftJoin gives comes after the items of its left side.
  lemma {:induction false} OptionalOwns(l: Pattern, r: Pattern, condition: Option<Expr>, scope: Scope, first: nat)
    requires Collect(LeftJoin(l, r, condition), scope, first).Some?
    ensures Collect(l, scope, first).Some? && Collect(r, scope, 0).Some?
    ensures var d := Collect(LeftJoin(l, r, condition), scope, first).value.items;
            var a, b := Collect(l, scope, first).value.items, Collect(r, scope, 0).value.items;
            && (OwnsGathered(a) || OwnsGathered(b) || !(BoundOf(r, scope).possible <= BoundOf(l, scope).possible) ==> OwnsGathered(d))
            && (OwnsWithin(a) || OwnsGathered(b) ==> OwnsWithin(d))
  {
    var a, b := Collect(l, scope, first).value, Collect(r, scope, 0).value;
    var o := OptionalOf(l, r, condition, scope, b, first + |a.filters|);
    NoneLeft(BoundOf(r, scope).possible, BoundOf(l, scope).possible);
    OwnsAdded(a.items, o);
    assert Collect(LeftJoin(l, r, condition), scope, first).value.items == a.items + [OptionalStep(o)];
    assert o.items == b.items && o.own == BoundOf(r, scope).possible - BoundOf(l, scope).possible;
  }

  lemma NoneLeft(vs: set<Var>, ws: set<Var>)
    ensures vs <= ws <==> vs - ws == {}
  {
    if vs - ws == {} {
      forall v | v in vs
        ensures v in ws
      {
        assert v !in vs - ws;
      }
    }
  }

  lemma {:induction false} OptionalNew(l: Pattern, r: Pattern, condition: Option<Expr>, scope: Scope, first: nat)
    requires GatheredNew(r, scope, Collect(r, scope, 0))
    ensures var d := Collect(LeftJoin(l, r, condition), scope, first);
            && (GatheredNew(l, scope, Collect(l, scope, first)) ==> GatheredNew(LeftJoin(l, r, condition), scope, d))
            && (WithinNew(l, scope, Collect(l, scope, first)) ==> WithinNew(LeftJoin(l, r, condition), scope, d))
  {
    if Collect(LeftJoin(l, r, condition), scope, first).Some? {
      OptionalOwns(l, r, condition, scope, first);
    }
  }

  lemma {:induction false} NewGathered(p: Pattern, scope: Scope, first: nat)
    ensures GatheredNew(p, scope, Collect(p, scope, first))
  {
    match p
    case Join(l, r) =>
      NewGathered(l, scope, first);
      var a := Collect(l, scope, first);
      if a.Some? {
        var b := Collect(r, scope, first + |a.value.filters|);
        NewGathered(r, scope, first + |a.value.filters|);
        if b.Some? {
          OwnsAppend(a.value.items, b.value.items);
        }
      }
    case LeftJoin(l, r, condition) =>
      NewGathered(l, scope, first);
      NewGathered(r, scope, 0);
      OptionalNew(l, r, condition, scope, first);
    case Filter(_, i) => NewGathered(i, scope, first);
    case Graph(name, i) => NewGathered(i, ScopeOf(name), first);
    case Project(i, _) => NewGathered(i, scope, 0);
    case _ =>
  }

  lemma {:induction false} NewWithin(p: Pattern, scope: Scope, first: nat)
    ensures WithinNew(p, scope, Collect(p, scope, first))
  {
    match p
    case Join(l, r) =>
      NewWithin(l, scope, first);
      var a := Collect(l, scope, first);
      if a.Some? {
        var b := Collect(r, scope, first + |a.value.filters|);
        NewWithin(r, scope, first + |a.value.filters|);
        if b.Some? {
          OwnsAppend(a.value.items, b.value.items);
        }
      }
    case LeftJoin(l, r, condition) =>
      NewWithin(l, scope, first);
      NewGathered(r, scope, 0);
      OptionalNew(l, r, condition, scope, first);
    case Filter(_, i) => NewWithin(i, scope, first);
    case Graph(name, i) => NewWithin(i, ScopeOf(name), first);
    case Project(i, _) => NewWithin(i, scope, 0);
    case _ =>
  }

  // What is gathered within what is gathered is gathered too.
  lemma {:induction false} GatheredThrough(items: seq<Item>, o: OptionalItem, n: OptionalItem)
    requires o in Gather(items) && n in Gather(o.items)
    ensures n in Gather(items)
    decreases items
  {
    if o in GatherIn(items[0]) {
      GatheredThroughIn(items[0], o, n);
    } else {
      GatheredThrough(items[1..], o, n);
    }
  }

  lemma {:induction false} GatheredThroughIn(item: Item, o: OptionalItem, n: OptionalItem)
    requires o in GatherIn(item) && n in Gather(o.items)
    ensures n in GatherIn(item)
    decreases item
  {
    if o != item.optional {
      GatheredThrough(item.optional.items, o, n);
    }
  }

  lemma {:induction false} GatheredBeneath(items: seq<Item>, o: OptionalItem) returns (i: nat)
    requires o in Gather(items)
    ensures i < |items| && items[i].OptionalStep? && (o == items[i].optional || o in Gather(items[i].optional.items))
  {
    if o in GatherIn(items[0]) {
      i := 0;
    } else {
      var j := GatheredBeneath(items[1..], o);
      i := j + 1;
    }
  }

  lemma NothingWithin(items: seq<Item>)
    requires AllApart(items)
    ensures !OwnsWithin(items)
  {
    forall o, n | o in Gather(items) && n in Gather(o.items)
      ensures n.own == {}
    {
      var i := GatheredBeneath(items, o);
      if o != items[i].optional {
        GatheredThrough(items[i].optional.items, o, n);
      }
      assert NothingNew(items[i].optional.items);
    }
  }

  // So a pattern with such an OPTIONAL within another never passes the test.
  lemma NestsNewFails(p: Pattern, scope: Scope, first: nat)
    requires NestsNew(p, scope) && Collect(p, scope, first).Some?
    ensures !WellDesigned(Collect(p, scope, first).value.items, Collect(p, scope, first).value.filters)
  {
    var d := Collect(p, scope, first).value;
    NewWithin(p, scope, first);
    if WellDesigned(d.items, d.filters) {
      CollectedApart(p, scope, first);
      NothingWithin(d.items);
    }
  }
}
