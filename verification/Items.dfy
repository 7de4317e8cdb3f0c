/**
 The flat plan of the bind join and what it means. A plan is a list of items to be joined, filters
 named by index, and optionals kept whole; `Meaning` says which bag of solutions a list of items
 left to do still owes, given what is bound. It is stated with the algebra's own operators, so it
 does not depend on the order the loop takes things in.
 */
module Items {
  import opened Options
  import opened Bags
  import opened Rdf
  import opened Solutions
  import opened Expressions
  import opened Algebra

  datatype PatternItem = PatternItem(triple: TriplePattern, scope: Scope)

  // How many edges a closure may cross: `*`, `+` and `?`.
  datatype Hops = AnyNumber | AtLeastOne | AtMostOne

  datatype ClosureItem = ClosureItem(
    source: Position, target: Position, link: Term, inverse: bool, hops: Hops, scope: Scope)

  datatype Item =
    | PatternStep(pattern: PatternItem)
    | UnionStep(branches: seq<seq<PatternItem>>)
    | ValuesStep(vars: seq<Var>, rows: seq<seq<Option<Term>>>)
    | ClosureStep(closure: ClosureItem)
    | OptionalStep(optional: OptionalItem)

  // `filters` are indices into the plan's filters: the ones that decide whether the optional matched.
  datatype OptionalItem = OptionalItem(items: seq<Item>, filters: seq<nat>, own: set<Var>)

  datatype FilterEntry = FilterEntry(expr: Expr, needs: set<Var>)

  // --- Bags of the items -------------------------------------------------------------------------

  function PathOf(cl: ClosureItem): PathExpr {
    var inner := if cl.inverse then Reverse(Link(cl.link)) else Link(cl.link);
    match cl.hops
    case AnyNumber => ZeroOrMore(inner)
    case AtLeastOne => OneOrMore(inner)
    case AtMostOne => ZeroOrOne(inner)
  }

  function GraphOf(scope: Scope): Option<Term> {
    if scope.InNamed? then Some(scope.g) else None
  }

  ghost function BranchConj(view: View, branch: seq<PatternItem>): seq<Solution> {
    if branch == [] then [map[]]
    else JoinBags(TripleBag(view, branch[0].triple, branch[0].scope), BranchConj(view, branch[1..]))
  }

  ghost function BranchBag(view: View): seq<PatternItem> -> seq<Solution> {
    branch => BranchConj(view, branch)
  }

  // What one required item contributes to the join.
  ghost function ItemBag(view: View, item: Item): seq<Solution> {
    match item
    case PatternStep(p) => TripleBag(view, p.triple, p.scope)
    case UnionStep(branches) => FlatMap(branches, BranchBag(view))
    case ValuesStep(vars, rows) => ValuesBag(vars, rows)
    case ClosureStep(cl) =>
      Listing(ClosureSet(view, GraphOf(cl.scope), cl.source, PathOf(cl), cl.target))
    case OptionalStep(_) => [map[]]
  }

  ghost function Conj(view: View, items: seq<Item>): seq<Solution> {
    if items == [] then [map[]] else JoinBags(ItemBag(view, items[0]), Conj(view, items[1..]))
  }

  function Required(items: seq<Item>): (r: seq<Item>) {
    if items == [] then []
    else if items[0].OptionalStep? then Required(items[1..])
    else [items[0]] + Required(items[1..])
  }

  function Optionals(items: seq<Item>): (r: seq<OptionalItem>) {
    if items == [] then []
    else if items[0].OptionalStep? then [items[0].optional] + Optionals(items[1..])
    else Optionals(items[1..])
  }

  lemma {:induction false} RequiredMembers(items: seq<Item>)
    ensures forall x :: x in Required(items) <==> x in items && !x.OptionalStep?
    ensures forall o :: o in Optionals(items) <==> OptionalStep(o) in items
  {
    if items != [] {
      RequiredMembers(items[1..]);
      assert items == [items[0]] + items[1..];
    }
  }

  function AsItems(branch: seq<PatternItem>): (r: seq<Item>)
    ensures |r| == |branch|
    ensures forall x :: x in r ==> x.PatternStep?
  {
    if branch == [] then [] else [PatternStep(branch[0])] + AsItems(branch[1..])
  }

  // --- Filters -----------------------------------------------------------------------------------

  // The engine's test: every variable the filter names is bound, and its expression, given those
  // variables and nothing else, is true.
  predicate Passes(r: Rules, f: FilterEntry, s: Solution) {
    f.needs <= s.Keys && Holds(r, f.expr, Restrict(s, f.needs))
  }

  predicate PassesEach(r: Rules, fs: seq<FilterEntry>, which: seq<nat>, s: Solution) {
    forall i :: i in which ==> i < |fs| && Passes(r, fs[i], s)
  }

  function Passing(r: Rules, fs: seq<FilterEntry>, which: seq<nat>): Solution -> bool {
    s => PassesEach(r, fs, which, s)
  }

  // --- Sizes: what makes the loop end ------------------------------------------------------------

  function ItemSize(item: Item): nat
    decreases item
  {
    match item
    case UnionStep(branches) => 1 + BranchesSize(branches)
    case OptionalStep(o) => 1 + TotalSize(o.items)
    case _ => 1
  }

  function BranchesSize(branches: seq<seq<PatternItem>>): nat {
    if branches == [] then 0 else |branches[0]| + BranchesSize(branches[1..])
  }

  function TotalSize(items: seq<Item>): nat
    decreases items
  {
    if items == [] then 0 else ItemSize(items[0]) + TotalSize(items[1..])
  }

  lemma {:induction false} SizeAppend(xs: seq<Item>, ys: seq<Item>)
    ensures TotalSize(xs + ys) == TotalSize(xs) + TotalSize(ys)
  {
    if xs == [] {
      assert xs + ys == ys;
    } else {
      var zs := xs + ys;
      assert zs[1..] == xs[1..] + ys && zs[0] == xs[0];
      SizeAppend(xs[1..], ys);
    }
  }

  // The optionals of a list, as the list that is left when nothing else is.
  function Steps(os: seq<OptionalItem>): (r: seq<Item>)
    ensures |r| == |os| && forall i :: 0 <= i < |os| ==> r[i] == OptionalStep(os[i])
  {
    if os == [] then [] else [OptionalStep(os[0])] + Steps(os[1..])
  }

  lemma {:induction false} StepsSize(items: seq<Item>)
    ensures TotalSize(Steps(Optionals(items))) <= TotalSize(items)
  {
    if items != [] {
      StepsSize(items[1..]);
      if items[0].OptionalStep? {
        assert Steps(Optionals(items))[1..] == Steps(Optionals(items[1..]));
      }
    }
  }

  lemma {:induction false} SmallerOptional(items: seq<Item>, i: nat)
    requires i < |Optionals(items)|
    ensures TotalSize(Optionals(items)[i].items) < TotalSize(items)
  {
    if items[0].OptionalStep? && i == 0 {
    } else if items[0].OptionalStep? {
      SmallerOptional(items[1..], i - 1);
    } else {
      SmallerOptional(items[1..], i);
    }
  }

  lemma StepsHead(os: seq<OptionalItem>)
    requires os != []
    ensures TotalSize(Steps(os)) == 1 + TotalSize(os[0].items) + TotalSize(Steps(os[1..]))
  {
    assert Steps(os)[1..] == Steps(os[1..]);
  }

  // --- Meaning -----------------------------------------------------------------------------------

  // The filters that cannot be decided yet, in the order given.
  function StillPending(fs: seq<FilterEntry>, pending: seq<nat>, bound: set<Var>): seq<nat> {
    if pending == [] then []
    else
      var last := pending[|pending| - 1];
      StillPending(fs, pending[..|pending| - 1], bound) + if last < |fs| && fs[last].needs <= bound then [] else [last]
  }

  // Every filter that can be decided passes.
  predicate Screens(r: Rules, fs: seq<FilterEntry>, pending: seq<nat>, s: Solution) {
    forall i :: i in pending && i < |fs| && fs[i].needs <= s.Keys ==> Passes(r, fs[i], s)
  }

  // The bag that the items `todo` and the filters `pending` still owe for the bound solutions `xs`: all the
  // required items joined, and then the optionals.
  ghost function Meaning(c: Context, fs: seq<FilterEntry>, todo: seq<Item>, pending: seq<nat>, xs: seq<Solution>)
    : seq<Solution>
    decreases TotalSize(todo), 2
  {
    StepsSize(todo);
    FlatMap(JoinBags(xs, Conj(c.view, Required(todo))), Carried(c, fs, Optionals(todo), pending))
  }

  ghost function Carried(c: Context, fs: seq<FilterEntry>, os: seq<OptionalItem>, pending: seq<nat>): Solution -> seq<Solution>
    decreases TotalSize(Steps(os)), 1
  {
    s => Onward(c, fs, os, pending, s)
  }

  // From one solution on, with only optionals left: none of it if a filter rejects it; the first optional's own
  // items and filters in front of the rest; and, where nothing comes of those, the rest alone. A filter that can
  // never be decided rejects nothing.
  ghost function Onward(c: Context, fs: seq<FilterEntry>, os: seq<OptionalItem>, pending: seq<nat>, s: Solution): seq<Solution>
    decreases TotalSize(Steps(os)), 0
  {
    if !Screens(c.rules, fs, pending, s) then []
    else if os == [] then [s]
    else
      var later := StillPending(fs, pending, s.Keys);
      StepsHead(os);
      SizeAppend(os[0].items, Steps(os[1..]));
      var inner := Meaning(c, fs, os[0].items + Steps(os[1..]), later + os[0].filters, [s]);
      if inner == [] then Onward(c, fs, os[1..], later, s) else inner
  }

  // --- Meaning is a loop over the bound solutions ------------------------------------------------

  lemma MeaningAppend(c: Context, fs: seq<FilterEntry>, todo: seq<Item>, pending: seq<nat>, xs: seq<Solution>, ys: seq<Solution>)
    ensures Meaning(c, fs, todo, pending, xs + ys)
         == Meaning(c, fs, todo, pending, xs) + Meaning(c, fs, todo, pending, ys)
  {
    var k := Conj(c.view, Required(todo));
    JoinAppend(xs, ys, k);
    FlatMapAppend(JoinBags(xs, k), JoinBags(ys, k), Carried(c, fs, Optionals(todo), pending));
  }

  lemma MeaningNone(c: Context, fs: seq<FilterEntry>, todo: seq<Item>, pending: seq<nat>)
    ensures Meaning(c, fs, todo, pending, []) == []
  {
  }

  lemma MeaningOfSame(c: Context, fs: seq<FilterEntry>, todo: seq<Item>, pending: seq<nat>, ks: seq<Solution>, xs: seq<Solution>)
    requires Same(ks, JoinBags(xs, Conj(c.view, Required(todo))))
    ensures Same(FlatMap(ks, Carried(c, fs, Optionals(todo), pending)), Meaning(c, fs, todo, pending, xs))
  {
    var f := Carried(c, fs, Optionals(todo), pending);
    FlatMapSame(ks, JoinBags(xs, Conj(c.view, Required(todo))), f, f);
  }

  lemma MeaningSame(c: Context, fs: seq<FilterEntry>, todo: seq<Item>, pending: seq<nat>, xs: seq<Solution>, ys: seq<Solution>)
    requires Same(xs, ys)
    ensures Same(Meaning(c, fs, todo, pending, xs), Meaning(c, fs, todo, pending, ys))
  {
    var k := Conj(c.view, Required(todo));
    JoinSame(xs, ys, k, k);
    MeaningOfSame(c, fs, todo, pending, JoinBags(xs, k), ys);
  }

  // --- Any required item may go first --------------------------------------------------------------

  lemma {:induction false} RequiredAppend(xs: seq<Item>, ys: seq<Item>)
    ensures Required(xs + ys) == Required(xs) + Required(ys)
    ensures Optionals(xs + ys) == Optionals(xs) + Optionals(ys)
  {
    if xs == [] {
      assert xs + ys == ys;
    } else {
      var zs, rest := xs + ys, xs[1..];
      assert zs[1..] == rest + ys && zs[0] == xs[0];
      RequiredAppend(rest, ys);
      if xs[0].OptionalStep? {
        Regroup([xs[0].optional], Optionals(rest), Optionals(ys));
      } else {
        Regroup([xs[0]], Required(rest), Required(ys));
      }
    }
  }

  lemma {:induction false} ConjAppend(view: View, xs: seq<Item>, ys: seq<Item>)
    ensures Conj(view, xs + ys) == JoinBags(Conj(view, xs), Conj(view, ys))
  {
    if xs == [] {
      assert xs + ys == ys;
      JoinIdentity(Conj(view, ys));
    } else {
      var zs := xs + ys;
      assert zs[1..] == xs[1..] + ys && zs[0] == xs[0];
      calc {
        Conj(view, zs);
        JoinBags(ItemBag(view, xs[0]), Conj(view, zs[1..]));
        { ConjAppend(view, xs[1..], ys); }
        JoinBags(ItemBag(view, xs[0]), JoinBags(Conj(view, xs[1..]), Conj(view, ys)));
        { JoinAssociative(ItemBag(view, xs[0]), Conj(view, xs[1..]), Conj(view, ys)); }
        JoinBags(Conj(view, xs), Conj(view, ys));
      }
    }
  }

  lemma ConjMove(view: View, xs: seq<Item>, x: Item, ys: seq<Item>)
    ensures Same(Conj(view, xs + [x] + ys), JoinBags(ItemBag(view, x), Conj(view, xs + ys)))
  {
    var a, b, k := Conj(view, xs), Conj(view, ys), ItemBag(view, x);
    ConjAppend(view, xs + [x], ys);
    ConjAppend(view, xs, [x]);
    ConjAppend(view, xs, ys);
    JoinIdentity(k);
    assert Conj(view, [x]) == k;
    JoinCommutes(a, k);
    JoinSame(JoinBags(a, k), JoinBags(k, a), b, b);
    JoinAssociative(k, a, b);
  }

  function Without(todo: seq<Item>, i: nat): seq<Item>
    requires i < |todo|
  {
    todo[..i] + todo[i + 1..]
  }

  lemma RequiredHead(item: Item, after: seq<Item>)
    requires !item.OptionalStep?
    ensures Required([item] + after) == [item] + Required(after)
    ensures Optionals([item] + after) == Optionals(after)
  {
    assert ([item] + after)[1..] == after;
  }

  lemma WithoutRequired(todo: seq<Item>, i: nat)
    requires i < |todo| && !todo[i].OptionalStep?
    ensures Optionals(todo) == Optionals(Without(todo, i))
    ensures Required(todo) == Required(todo[..i]) + ([todo[i]] + Required(todo[i + 1..]))
    ensures Required(Without(todo, i)) == Required(todo[..i]) + Required(todo[i + 1..])
  {
    SplitAt(todo, i);
    RequiredParts(todo[..i], todo[i], todo[i + 1..]);
  }

  lemma SplitAt<A>(xs: seq<A>, i: nat)
    requires i < |xs|
    ensures xs == xs[..i] + ([xs[i]] + xs[i + 1..])
  {
  }

  lemma RequiredParts(before: seq<Item>, item: Item, after: seq<Item>)
    requires !item.OptionalStep?
    ensures Optionals(before + ([item] + after)) == Optionals(before + after)
    ensures Required(before + ([item] + after)) == Required(before) + ([item] + Required(after))
    ensures Required(before + after) == Required(before) + Required(after)
  {
    RequiredAppend(before, [item] + after);
    RequiredHead(item, after);
    RequiredAppend(before, after);
  }

  lemma ConjTake(view: View, todo: seq<Item>, i: nat)
    requires i < |todo| && !todo[i].OptionalStep?
    ensures Same(Conj(view, Required(todo)),
                 JoinBags(ItemBag(view, todo[i]), Conj(view, Required(Without(todo, i)))))
  {
    WithoutRequired(todo, i);
    var before, after := Required(todo[..i]), Required(todo[i + 1..]);
    assert before + ([todo[i]] + after) == before + [todo[i]] + after;
    ConjMove(view, before, todo[i], after);
  }

  lemma MeaningTake(c: Context, fs: seq<FilterEntry>, todo: seq<Item>, pending: seq<nat>, s: Solution, i: nat)
    requires i < |todo| && !todo[i].OptionalStep?
    ensures Same(Meaning(c, fs, todo, pending, [s]),
                 Meaning(c, fs, Without(todo, i), pending, JoinOne(s, ItemBag(c.view, todo[i]))))
  {
    var rest := Without(todo, i);
    var k, rk := ItemBag(c.view, todo[i]), Conj(c.view, Required(rest));
    WithoutRequired(todo, i);
    ConjTake(c.view, todo, i);
    JoinSame([s], [s], Conj(c.view, Required(todo)), JoinBags(k, rk));
    JoinAssociative([s], k, rk);
    JoinSingle(s, k);
    MeaningOfSame(c, fs, rest, pending, JoinBags([s], Conj(c.view, Required(todo))), JoinOne(s, k));
  }

  // --- Union: each branch runs with its own patterns in front ----------------------------------------

  lemma {:induction false} ConjOfBranch(view: View, branch: seq<PatternItem>)
    ensures Conj(view, AsItems(branch)) == BranchConj(view, branch)
    ensures Required(AsItems(branch)) == AsItems(branch)
    ensures Optionals(AsItems(branch)) == []
  {
    if branch != [] {
      ConjOfBranch(view, branch[1..]);
      assert AsItems(branch)[1..] == AsItems(branch[1..]);
    }
  }

  lemma MeaningOfBranch(c: Context, fs: seq<FilterEntry>, branch: seq<PatternItem>, rest: seq<Item>, pending: seq<nat>, s: Solution)
    ensures Meaning(c, fs, AsItems(branch) + rest, pending, [s])
         == Meaning(c, fs, rest, pending, JoinOne(s, BranchConj(c.view, branch)))
  {
    RequiredAppend(AsItems(branch), rest);
    ConjOfBranch(c.view, branch);
    assert Optionals(AsItems(branch) + rest) == Optionals(rest);
    ConjAppend(c.view, AsItems(branch), Required(rest));
    var b, k := BranchConj(c.view, branch), Conj(c.view, Required(rest));
    JoinAssociative([s], b, k);
    JoinSingle(s, b);
  }

  // --- Filters that are ready ------------------------------------------------------------------------

  lemma PassesLocal(r: Rules, f: FilterEntry, s: Solution, t: Solution)
    requires f.needs <= s.Keys && f.needs <= t.Keys
    requires forall v :: v in f.needs ==> s[v] == t[v]
    ensures Passes(r, f, s) == Passes(r, f, t)
  {
    assert Restrict(s, f.needs) == Restrict(t, f.needs);
  }

  lemma JoinedExtends(s: Solution, k: seq<Solution>, t: Solution)
    requires t in JoinBags([s], k)
    ensures s.Keys <= t.Keys && forall v :: v in s ==> t[v] == s[v]
  {
    JoinSingle(s, k);
    JoinOneMember(s, k, t);
  }

  lemma {:induction false} StillPendingMembers(fs: seq<FilterEntry>, pending: seq<nat>, bound: set<Var>)
    ensures forall i :: i in StillPending(fs, pending, bound) <==> i in pending && !(i < |fs| && fs[i].needs <= bound)
  {
    if pending != [] {
      var init, last := pending[..|pending| - 1], pending[|pending| - 1];
      assert pending == init + [last];
      StillPendingMembers(fs, init, bound);
    }
  }

  lemma {:induction false} StillPendingSnoc(fs: seq<FilterEntry>, xs: seq<nat>, last: nat, bound: set<Var>)
    ensures StillPending(fs, xs + [last], bound)
         == StillPending(fs, xs, bound) + if last < |fs| && fs[last].needs <= bound then [] else [last]
  {
    assert (xs + [last])[..|xs|] == xs;
  }

  // What can be decided now is not asked again, however much more is bound by then.
  lemma {:induction false} StillPendingTwice(fs: seq<FilterEntry>, pending: seq<nat>, bound: set<Var>, more: set<Var>)
    requires bound <= more
    ensures StillPending(fs, StillPending(fs, pending, bound), more) == StillPending(fs, pending, more)
  {
    if pending != [] {
      var init, last := pending[..|pending| - 1], pending[|pending| - 1];
      StillPendingTwice(fs, init, bound, more);
      if !(last < |fs| && fs[last].needs <= bound) {
        StillPendingSnoc(fs, StillPending(fs, init, bound), last, more);
      } else {
        assert StillPending(fs, pending, bound) == StillPending(fs, init, bound);
      }
    }
  }

  lemma ScreensMore(r: Rules, fs: seq<FilterEntry>, pending: seq<nat>, s: Solution, t: Solution)
    requires s.Keys <= t.Keys && forall v :: v in s ==> t[v] == s[v]
    ensures Screens(r, fs, pending, t) <==> Screens(r, fs, pending, s) && Screens(r, fs, StillPending(fs, pending, s.Keys), t)
  {
    StillPendingMembers(fs, pending, s.Keys);
    forall i | i in pending && i < |fs| && fs[i].needs <= s.Keys
      ensures Passes(r, fs[i], t) == Passes(r, fs[i], s)
    {
      PassesLocal(r, fs[i], s, t);
    }
  }

  lemma OnwardScreened(c: Context, fs: seq<FilterEntry>, os: seq<OptionalItem>, pending: seq<nat>, s: Solution, t: Solution)
    requires s.Keys <= t.Keys && forall v :: v in s ==> t[v] == s[v]
    ensures Onward(c, fs, os, pending, t)
         == if Screens(c.rules, fs, pending, s) then Onward(c, fs, os, StillPending(fs, pending, s.Keys), t) else []
  {
    ScreensMore(c.rules, fs, pending, s, t);
    StillPendingTwice(fs, pending, s.Keys, t.Keys);
  }

  // A filter whose variables are all bound has the same verdict for every completion, so it may be
  // applied now: failing it leaves nothing, and passing it leaves nothing to check.
  lemma MeaningScreened(c: Context, fs: seq<FilterEntry>, todo: seq<Item>, pending: seq<nat>, s: Solution)
    ensures Meaning(c, fs, todo, pending, [s])
         == if Screens(c.rules, fs, pending, s) then Meaning(c, fs, todo, StillPending(fs, pending, s.Keys), [s]) else []
  {
    var k, later := Conj(c.view, Required(todo)), StillPending(fs, pending, s.Keys);
    var js, f, g := JoinBags([s], k), Carried(c, fs, Optionals(todo), pending), Carried(c, fs, Optionals(todo), later);
    forall t | t in js
      ensures f(t) == if Screens(c.rules, fs, pending, s) then g(t) else []
    {
      JoinedExtends(s, k, t);
      OnwardScreened(c, fs, Optionals(todo), pending, s, t);
    }
    if Screens(c.rules, fs, pending, s) {
      FlatMapEqual(js, f, g);
    } else {
      FlatMapNothing(js, f);
    }
  }

  // --- Optionals, once nothing required is left --------------------------------------------------------

  lemma {:induction false} OnlyOptionals(todo: seq<Item>)
    requires forall i :: 0 <= i < |todo| ==> todo[i].OptionalStep?
    ensures Required(todo) == [] && Steps(Optionals(todo)) == todo
    ensures |Optionals(todo)| == |todo|
    ensures forall i :: 0 <= i < |todo| ==> Optionals(todo)[i] == todo[i].optional
  {
    if todo != [] {
      OnlyOptionals(todo[1..]);
    }
  }

  lemma {:induction false} OptionalsOfSteps(os: seq<OptionalItem>)
    ensures Required(Steps(os)) == [] && Optionals(Steps(os)) == os
  {
    if os != [] {
      OptionalsOfSteps(os[1..]);
      assert Steps(os)[1..] == Steps(os[1..]);
    }
  }

  lemma {:induction false} OnlyRequired(todo: seq<Item>)
    requires forall i :: 0 <= i < |todo| ==> !todo[i].OptionalStep?
    ensures Required(todo) == todo
    ensures Optionals(todo) == []
  {
    if todo != [] {
      OnlyRequired(todo[1..]);
    }
  }

  lemma MeaningOnward(c: Context, fs: seq<FilterEntry>, todo: seq<Item>, pending: seq<nat>, s: Solution)
    requires forall i :: 0 <= i < |todo| ==> todo[i].OptionalStep?
    ensures Meaning(c, fs, todo, pending, [s]) == Onward(c, fs, Optionals(todo), pending, s)
  {
    OnlyOptionals(todo);
    JoinIdentity([s]);
    FlatMapOne(s, Carried(c, fs, Optionals(todo), pending));
  }

  ghost predicate Undecided(fs: seq<FilterEntry>, pending: seq<nat>, s: Solution) {
    forall i :: i in pending ==> i < |fs| && !(fs[i].needs <= s.Keys)
  }

  lemma {:induction false} UndecidedStay(fs: seq<FilterEntry>, pending: seq<nat>, s: Solution)
    requires Undecided(fs, pending, s)
    ensures StillPending(fs, pending, s.Keys) == pending
  {
    if pending != [] {
      var init, last := pending[..|pending| - 1], pending[|pending| - 1];
      assert pending == init + [last];
      assert last in pending;
      UndecidedStay(fs, init, s);
    }
  }

  // With its own items in front and its own filters pending as well, the todo list owes exactly what comes of
  // the optional; when it owes nothing, the optional did not match and the row goes on as it is.
  lemma MeaningOptional(c: Context, fs: seq<FilterEntry>, todo: seq<Item>, pending: seq<nat>, s: Solution)
    requires todo != [] && forall i :: 0 <= i < |todo| ==> todo[i].OptionalStep?
    requires Undecided(fs, pending, s)
    ensures var o := todo[0].optional;
            var inner := Meaning(c, fs, o.items + todo[1..], pending + o.filters, [s]);
            Meaning(c, fs, todo, pending, [s]) == if inner == [] then Meaning(c, fs, todo[1..], pending, [s]) else inner
  {
    UndecidedStay(fs, pending, s);
    MeaningOnward(c, fs, todo, pending, s);
    MeaningOnward(c, fs, todo[1..], pending, s);
    OnlyOptionals(todo);
    OnlyOptionals(todo[1..]);
    assert Optionals(todo)[1..] == Optionals(todo[1..]);
  }

  lemma MeaningDone(c: Context, fs: seq<FilterEntry>, pending: seq<nat>, s: Solution)
    requires Undecided(fs, pending, s)
    ensures Meaning(c, fs, [], pending, [s]) == [s]
  {
    MeaningOnward(c, fs, [], pending, s);
  }

  // --- Which variables an item binds ---------------------------------------------------------------------

  function PositionVars(at: Position): set<Var> {
    if at.V? then {at.v} else {}
  }

  function TripleVars(t: TriplePattern): set<Var> {
    PositionVars(t.s) + PositionVars(t.p) + PositionVars(t.o)
  }

  function TriplesVars(ts: seq<TriplePattern>): set<Var> {
    if ts == [] then {} else TripleVars(ts[0]) + TriplesVars(ts[1..])
  }

  function ScopeVars(scope: Scope): set<Var> {
    if scope.InEach? then {scope.v} else {}
  }

  function PatternVars(p: PatternItem): set<Var> {
    TripleVars(p.triple) + ScopeVars(p.scope)
  }

  function BranchVars(branch: seq<PatternItem>): set<Var> {
    if branch == [] then {} else PatternVars(branch[0]) + BranchVars(branch[1..])
  }

  function BranchesCertain(branches: seq<seq<PatternItem>>): set<Var> {
    if branches == [] then {}
    else if |branches| == 1 then BranchVars(branches[0])
    else BranchVars(branches[0]) * BranchesCertain(branches[1..])
  }

  function BranchesVars(branches: seq<seq<PatternItem>>): set<Var> {
    if branches == [] then {} else BranchVars(branches[0]) + BranchesVars(branches[1..])
  }

  predicate ColumnFull(rows: seq<seq<Option<Term>>>, i: nat) {
    forall k :: 0 <= k < |rows| ==> i < |rows[k]| && rows[k][i].Some?
  }

  function ValuesCertain(vars: seq<Var>, rows: seq<seq<Option<Term>>>): set<Var> {
    set i | 0 <= i < |vars| && ColumnFull(rows, i) :: vars[i]
  }

  // Bound whenever the item matched.
  function CertainOf(item: Item): set<Var> {
    match item
    case PatternStep(p) => PatternVars(p)
    case UnionStep(branches) => BranchesCertain(branches)
    case ValuesStep(vars, rows) => ValuesCertain(vars, rows)
    case ClosureStep(cl) => PositionVars(cl.source) + PositionVars(cl.target)
    case OptionalStep(_) => {}
  }

  function CertainAll(items: seq<Item>): set<Var> {
    if items == [] then {} else CertainOf(items[0]) + CertainAll(items[1..])
  }

  lemma {:induction false} CertainAppend(xs: seq<Item>, ys: seq<Item>)
    ensures CertainAll(xs + ys) == CertainAll(xs) + CertainAll(ys)
  {
    if xs == [] {
      assert xs + ys == ys;
    } else {
      CertainAppend(xs[1..], ys);
      assert (xs + ys)[1..] == xs[1..] + ys;
    }
  }

  lemma MatchBinds(t: TriplePattern, scope: Scope, q: Quad)
    requires MatchFrom(map[], t, scope, q).Some?
    ensures MatchFrom(map[], t, scope, q).value.Keys == TripleVars(t) + ScopeVars(scope)
  {
    var a := BindScope(map[], scope, q.graph);
    var b := BindTo(a, t.s, q.s);
    var d := BindTo(b, t.p, q.p);
    assert a.value.Keys == ScopeVars(scope);
    assert b.value.Keys == a.value.Keys + PositionVars(t.s);
    assert d.value.Keys == b.value.Keys + PositionVars(t.p);
  }

  lemma TripleBagBinds(view: View, t: TriplePattern, scope: Scope, s: Solution)
    requires s in TripleBag(view, t, scope)
    ensures s.Keys == TripleVars(t) + ScopeVars(scope)
  {
    FlatMapMember(view.quads, Matching(map[], t, scope), s);
    var q :| q in view.quads && s in Matching(map[], t, scope)(q);
    MatchBinds(t, scope, q);
  }

  lemma {:induction false} BranchBinds(view: View, branch: seq<PatternItem>, s: Solution)
    requires s in BranchConj(view, branch)
    ensures s.Keys == BranchVars(branch)
  {
    if branch != [] {
      var k := TripleBag(view, branch[0].triple, branch[0].scope);
      JoinMember(k, BranchConj(view, branch[1..]), s);
      var x, y :| x in k && y in BranchConj(view, branch[1..]) && Compatible(x, y) && s == x + y;
      TripleBagBinds(view, branch[0].triple, branch[0].scope, x);
      BranchBinds(view, branch[1..], y);
    }
  }

  lemma {:induction false} BranchesBound(branches: seq<seq<PatternItem>>, b: seq<PatternItem>)
    requires b in branches
    ensures BranchesCertain(branches) <= BranchVars(b) <= BranchesVars(branches)
  {
    if b != branches[0] {
      BranchesBound(branches[1..], b);
    }
  }

  lemma {:induction false} RowBinds(s: Solution, vars: seq<Var>, row: seq<Option<Term>>)
    requires RowFrom(Some(s), vars, row).Some?
    ensures var t := RowFrom(Some(s), vars, row).value;
            && s.Keys <= t.Keys <= s.Keys + (set v | v in vars)
            && (forall i :: 0 <= i < |vars| && i < |row| && row[i].Some? ==> vars[i] in t)
    decreases |vars|
  {
    if vars != [] && row != [] {
      var n := if row[0].None? then Some(s) else BindTo(Some(s), V(vars[0]), row[0].value);
      if n.None? {
      } else {
        RowBinds(n.value, vars[1..], row[1..]);
        var t := RowFrom(Some(s), vars, row).value;
        forall i | 0 <= i < |vars| && i < |row| && row[i].Some?
          ensures vars[i] in t
        {
          if i > 0 {
            assert vars[i] == vars[1..][i - 1] && row[i] == row[1..][i - 1];
          }
        }
      }
    }
  }

  // Every variable an item mentions, an optional's items included.
  function VarsOf(item: Item): set<Var>
    decreases item
  {
    match item
    case PatternStep(p) => PatternVars(p)
    case UnionStep(branches) => BranchesVars(branches)
    case ValuesStep(vars, rows) => set v | v in vars
    case ClosureStep(cl) => PositionVars(cl.source) + PositionVars(cl.target)
    case OptionalStep(o) => ItemsVars(o.items)
  }

  function ItemsVars(items: seq<Item>): set<Var>
    decreases items
  {
    if items == [] then {} else VarsOf(items[0]) + ItemsVars(items[1..])
  }

  lemma EndsBind(s: Solution, source: Position, target: Position, x: Term, y: Term)
    requires EndsFrom(s, source, target, x, y).Some?
    ensures EndsFrom(s, source, target, x, y).value.Keys == s.Keys + PositionVars(source) + PositionVars(target)
  {
  }

  // Every variable counted certain is bound, and none but the item's own.
  lemma ItemBinds(view: View, item: Item, s: Solution)
    requires !item.OptionalStep? && s in ItemBag(view, item)
    ensures CertainOf(item) <= s.Keys <= VarsOf(item)
  {
    match item
    case PatternStep(p) => TripleBagBinds(view, p.triple, p.scope, s);
    case UnionStep(branches) =>
      FlatMapMember(branches, BranchBag(view), s);
      var b :| b in branches && s in BranchBag(view)(b);
      BranchBinds(view, b, s);
      BranchesBound(branches, b);
    case ValuesStep(vars, rows) =>
      FlatMapMember(rows, RowBag(map[], vars), s);
      var row :| row in rows && s in RowBag(map[], vars)(row);
      RowBinds(map[], vars, row);
      forall v | v in ValuesCertain(vars, rows)
        ensures v in s
      {
        var i :| 0 <= i < |vars| && ColumnFull(rows, i) && v == vars[i];
        var k :| 0 <= k < |rows| && rows[k] == row;
      }
    case ClosureStep(cl) =>
      var pairs := ClosureSet(view, GraphOf(cl.scope), cl.source, PathOf(cl), cl.target);
      assert s in pairs;
      var x, y :| EndsFrom(map[], cl.source, cl.target, x, y).Some?
               && s == EndsFrom(map[], cl.source, cl.target, x, y).value;
      EndsBind(map[], cl.source, cl.target, x, y);
  }
}
