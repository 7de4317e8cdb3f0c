/**
 The nested loop of the bind join (crates/holos-engine/src/bindjoin.rs): one mutable set of bindings,
 a todo list shortened item by item, filters applied as soon as they can be, optionals last, rows
 emitted as they complete, and a run that may give itself up. Every choice the engine makes by
 estimated cost, and the order an index returns quads in, is left open.
 */
module BindJoin {
  import opened Locks
  import opened Options
  import opened Bags
  import opened Rdf
  import opened Solutions
  import opened Expressions
  import opened Algebra
  import opened Items
  import opened Scans
  import opened Reach
  import opened Lifting
  import opened Closures
  import opened Emission

  // The two long-lived facts of the loop, `Ready` and `LoopAt`, are kept folded (see `Locks`): the methods
  // pass them around without looking.

  // --- What a todo list must satisfy -------------------------------------------------------------------

  // A closure is walked in a graph known before the walk, and one the store has; a filter is one of the plan's.
  ghost predicate ItemOk(view: View, fs: seq<FilterEntry>, item: Item)
    decreases item
  {
    match item
    case ClosureStep(cl) =>
      (match cl.scope
       case InDefault => true
       case InNamed(g) => g in view.GraphNames()
       case InEach(_) => false)
    case OptionalStep(o) => (forall i :: i in o.filters ==> i < |fs|) && forall x :: x in o.items ==> ItemOk(view, fs, x)
    case _ => true
  }

  ghost predicate Ready(view: View, fs: seq<FilterEntry>, todo: seq<Item>, pending: seq<nat>) {
    forall k {:trigger Unlock(k)} :: Unlock(k) ==> ReadyNow(view, fs, todo, pending)
  }

  ghost predicate ReadyNow(view: View, fs: seq<FilterEntry>, todo: seq<Item>, pending: seq<nat>) {
    (forall x :: x in todo ==> ItemOk(view, fs, x)) && forall i :: i in pending ==> i < |fs|
  }

  // --- The measure ---------------------------------------------------------------------------------------

  lemma SizeWithout(todo: seq<Item>, i: nat)
    requires i < |todo|
    ensures TotalSize(todo) == ItemSize(todo[i]) + TotalSize(Without(todo, i))
  {
    var before, after := todo[..i], todo[i + 1..];
    assert todo == before + ([todo[i]] + after);
    SizeAppend(before, [todo[i]] + after);
    assert ([todo[i]] + after)[1..] == after;
    SizeAppend(before, after);
  }

  lemma {:induction false} SizeOfBranch(branches: seq<seq<PatternItem>>, k: nat)
    requires k < |branches|
    ensures TotalSize(AsItems(branches[k])) <= BranchesSize(branches)
  {
    PatternSizes(branches[k]);
    if k > 0 {
      SizeOfBranch(branches[1..], k - 1);
    }
  }

  lemma {:induction false} PatternSizes(branch: seq<PatternItem>)
    ensures TotalSize(AsItems(branch)) == |branch|
  {
    if branch != [] {
      PatternSizes(branch[1..]);
      assert AsItems(branch)[1..] == AsItems(branch[1..]);
    }
  }

  // --- When nothing can make the run give up -------------------------------------------------------------

  // Every term of a VALUES row and every constant of a closure is known, and each closure has a
  // constant end to start from.
  ghost predicate CalmItem(view: View, item: Item)
    decreases item
  {
    match item
    case ValuesStep(_, rows) => forall r: seq<Option<Term>>, i :: r in rows && 0 <= i < |r| && r[i].Some? ==> r[i].value in view.dict
    case ClosureStep(cl) =>
      && (cl.source.T? || cl.target.T?)
      && (cl.source.T? ==> cl.source.t in view.dict)
      && (cl.target.T? ==> cl.target.t in view.dict)
    case OptionalStep(o) => forall x :: x in o.items ==> CalmItem(view, x)
    case _ => true
  }

  ghost predicate Calm(view: View, todo: seq<Item>) {
    forall k {:trigger Unlock(k)} :: Unlock(k) ==> forall x :: x in todo ==> CalmItem(view, x)
  }

  lemma CalmWithout(view: View, todo: seq<Item>, i: nat)
    requires i < |todo| && Calm(view, todo)
    ensures Calm(view, Without(todo, i)) && CalmItem(view, todo[i])
  {
    assert Unlock(Key);
    assert todo[i] in todo;
    assert forall x :: x in Without(todo, i) ==> x in todo;
  }

  lemma CalmBranch(view: View, branch: seq<PatternItem>, rest: seq<Item>)
    requires Calm(view, rest)
    ensures Calm(view, AsItems(branch) + rest)
  {
    assert Unlock(Key);
    BranchFront(branch, rest);
  }

  lemma CalmOptional(view: View, todo: seq<Item>)
    requires todo != [] && todo[0].OptionalStep? && Calm(view, todo)
    ensures Calm(view, todo[0].optional.items + todo[1..]) && Calm(view, todo[1..])
  {
    assert Unlock(Key);
    assert todo[0] in todo && CalmItem(view, todo[0]);
    assert forall x :: x in todo[0].optional.items + todo[1..] ==> x in todo[0].optional.items || x in todo;
  }

  // --- Readiness is kept ---------------------------------------------------------------------------------

  lemma ReadyWithout(view: View, fs: seq<FilterEntry>, todo: seq<Item>, i: nat, pending: seq<nat>)
    requires i < |todo| && Ready(view, fs, todo, pending)
    ensures Ready(view, fs, Without(todo, i), pending)
  {
    assert Unlock(Key);
    assert forall x :: x in Without(todo, i) ==> x in todo;
  }

  lemma ReadyItem(view: View, fs: seq<FilterEntry>, todo: seq<Item>, i: nat, pending: seq<nat>)
    requires i < |todo| && Ready(view, fs, todo, pending)
    ensures ItemOk(view, fs, todo[i])
  {
    assert Unlock(Key);
    assert todo[i] in todo;
  }

  lemma BranchFront(branch: seq<PatternItem>, rest: seq<Item>)
    ensures forall x :: x in AsItems(branch) + rest ==> x.PatternStep? || x in rest
  {
  }

  lemma ReadyBranch(view: View, fs: seq<FilterEntry>, branch: seq<PatternItem>, rest: seq<Item>, pending: seq<nat>)
    requires Ready(view, fs, rest, pending)
    ensures Ready(view, fs, AsItems(branch) + rest, pending)
  {
    assert Unlock(Key);
    BranchFront(branch, rest);
  }

  lemma ReadyOptional(view: View, fs: seq<FilterEntry>, todo: seq<Item>, pending: seq<nat>)
    requires todo != [] && todo[0].OptionalStep? && Ready(view, fs, todo, pending)
    ensures var o := todo[0].optional;
            Ready(view, fs, o.items + todo[1..], pending + o.filters) && Ready(view, fs, todo[1..], pending)
  {
    assert Unlock(Key);
    var o := todo[0].optional;
    assert todo[0] in todo && ItemOk(view, fs, todo[0]);
    forall x | x in o.items + todo[1..]
      ensures ItemOk(view, fs, x)
    {
      assert x in o.items || x in todo;
    }
  }

  lemma ReadyLater(view: View, fs: seq<FilterEntry>, todo: seq<Item>, pending: seq<nat>, later: seq<nat>)
    requires Ready(view, fs, todo, pending)
    requires forall i :: i in later ==> i in pending
    ensures Ready(view, fs, todo, later)
  {
    assert Unlock(Key);
  }

  // --- What a scan may leave out -----------------------------------------------------------------------

  function SlotIn(view: View, s: Solution, at: Position): Slot {
    match at
    case V(v) => if v in s then Fixed(s[v]) else Any
    case T(t) => if t in view.dict then Fixed(t) else Missing
  }

  function Slotted(slot: Slot): Option<Term> {
    if slot.Fixed? then Some(slot.t) else None
  }

  predicate Places(s: Solution, at: Position, t: Term) {
    match at
    case T(c) => c == t
    case V(v) => v in s && s[v] == t
  }

  predicate PlacesGraph(s: Solution, scope: Scope, graph: Option<Term>) {
    match scope
    case InDefault => graph.None?
    case InNamed(g) => graph == Some(g)
    case InEach(v) => graph.Some? && v in s && s[v] == graph.value
  }

  // A match extends what was bound and puts every position where the quad has it.
  lemma MatchPlaces(s: Solution, t: TriplePattern, scope: Scope, q: Quad)
    requires MatchFrom(s, t, scope, q).Some?
    ensures var m := MatchFrom(s, t, scope, q).value;
            && (forall v :: v in s ==> v in m && m[v] == s[v])
            && Places(m, t.s, q.s) && Places(m, t.p, q.p) && Places(m, t.o, q.o) && PlacesGraph(m, scope, q.graph)
  {
    var a := BindScope(s, scope, q.graph);
    var b := BindTo(a, t.s, q.s);
    var d := BindTo(b, t.p, q.p);
    assert a.Some? && b.Some? && d.Some?;
  }

  function GraphSlot(s: Solution, scope: Scope): GraphKey {
    match scope
    case InDefault => DefaultGraph
    case InNamed(g) => NamedGraph(g)
    case InEach(v) => if v in s then NamedGraph(s[v]) else AnyNamed
  }

  function KeyFor(view: View, s: Solution, t: TriplePattern, scope: Scope): ScanKey {
    ScanKey(Slotted(SlotIn(view, s, t.s)), Slotted(SlotIn(view, s, t.p)), Slotted(SlotIn(view, s, t.o)), GraphSlot(s, scope))
  }

  // A quad a probe may come back with.
  ghost predicate Candidate(view: View, s: Solution, pattern: PatternItem, q: Quad) {
    var t := pattern.triple;
    && q in view.quads && Fits(KeyFor(view, s, t, pattern.scope), q)
    && !SlotIn(view, s, t.s).Missing? && !SlotIn(view, s, t.p).Missing? && !SlotIn(view, s, t.o).Missing?
  }

  // What a position of a pattern is known to hold.
  ghost predicate KnownAs(view: View, s: Solution, at: Position, t: Term) {
    if at.V? then at.v in s && s[at.v] == t else at.t == t && t in view.dict
  }

  // A scan comes back with nothing that disagrees with a position already known, or with the graph.
  lemma KeyKeepsOut(view: View, s: Solution, t: TriplePattern, scope: Scope, q: Quad)
    ensures Fits(KeyFor(view, s, t, scope), q) <==>
              && (forall x :: KnownAs(view, s, t.s, x) ==> x == q.s) && (forall x :: KnownAs(view, s, t.p, x) ==> x == q.p)
              && (forall x :: KnownAs(view, s, t.o, x) ==> x == q.o)
              && (scope.InDefault? <==> q.graph.None?) && (scope.InNamed? ==> q.graph == Some(scope.g))
              && (scope.InEach? && scope.v in s ==> q.graph == Some(s[scope.v]))
  {
    SlotKeepsOut(view, s, t.s, q.s);
    SlotKeepsOut(view, s, t.p, q.p);
    SlotKeepsOut(view, s, t.o, q.o);
  }

  lemma SlotKeepsOut(view: View, s: Solution, at: Position, t: Term)
    ensures Admits(Slotted(SlotIn(view, s, at)), t) <==> forall x :: KnownAs(view, s, at, x) ==> x == t
  {
    if at.V? && at.v in s {
      assert KnownAs(view, s, at, s[at.v]);
    }
    if at.T? && at.t in view.dict {
      assert KnownAs(view, s, at, at.t);
    }
  }

  // Scanning by what is already known loses no match, and a constant the dictionary lacks has none.
  lemma KeyLosesNothing(view: View, s: Solution, t: TriplePattern, scope: Scope, q: Quad)
    requires view.Valid() && q in view.quads && MatchFrom(s, t, scope, q).Some?
    ensures Fits(KeyFor(view, s, t, scope), q)
    ensures !SlotIn(view, s, t.s).Missing? && !SlotIn(view, s, t.p).Missing? && !SlotIn(view, s, t.o).Missing?
    ensures scope.InNamed? ==> scope.g in view.dict
  {
    MatchPlaces(s, t, scope, q);
  }

  lemma ScanIsJoin(view: View, s: Solution, t: TriplePattern, scope: Scope, quads: seq<Quad>)
    requires view.Valid() && Same(quads, Select(view.quads, Fitting(KeyFor(view, s, t, scope))))
    ensures Same(FlatMap(quads, Matching(s, t, scope)), JoinOne(s, TripleBag(view, t, scope)))
  {
    var key, f := KeyFor(view, s, t, scope), Matching(s, t, scope);
    forall q | q in view.quads && !Fitting(key)(q)
      ensures f(q) == []
    {
      if MatchFrom(s, t, scope, q).Some? {
        KeyLosesNothing(view, s, t, scope, q);
      }
    }
    FlatMapSelect(view.quads, Fitting(key), f);
    FlatMapSame(quads, Select(view.quads, Fitting(key)), f, f);
    TripleJoin(view, s, t, scope);
  }

  lemma MissingMatchesNothing(view: View, s: Solution, t: TriplePattern, scope: Scope)
    requires view.Valid()
    requires SlotIn(view, s, t.s).Missing? || SlotIn(view, s, t.p).Missing? || SlotIn(view, s, t.o).Missing?
          || (scope.InNamed? && scope.g !in view.dict)
    ensures JoinOne(s, TripleBag(view, t, scope)) == []
  {
    TripleJoin(view, s, t, scope);
    forall q | q in view.quads
      ensures Matching(s, t, scope)(q) == []
    {
      if MatchFrom(s, t, scope, q).Some? {
        KeyLosesNothing(view, s, t, scope, q);
      }
    }
    FlatMapNothing(view.quads, Matching(s, t, scope));
  }

  ghost function BranchJoin(view: View, s: Solution): seq<PatternItem> -> seq<Solution> {
    branch => JoinOne(s, BranchConj(view, branch))
  }

  lemma UnionJoin(view: View, s: Solution, branches: seq<seq<PatternItem>>)
    ensures FlatMap(branches, BranchJoin(view, s)) == JoinOne(s, ItemBag(view, UnionStep(branches)))
  {
    JoinOneFlatMap(s, branches, BranchBag(view), BranchJoin(view, s));
  }

  lemma NotANode(view: View, cl: ClosureItem, seed: Term, asSubject: seq<Quad>, asObject: seq<Quad>)
    requires !cl.scope.InEach? && asSubject == [] && asObject == []
    requires forall q :: q in asSubject <==> q in view.quads && Fits(ScanKey(Some(seed), None, None, GraphKeyOf(cl.scope)), q)
    requires forall q :: q in asObject <==> q in view.quads && Fits(ScanKey(None, None, Some(seed), GraphKeyOf(cl.scope)), q)
    ensures seed !in view.Nodes(GraphOf(cl.scope))
  {
    forall q | q in view.quads && q.graph == GraphOf(cl.scope)
      ensures q.s != seed && q.o != seed
    {
      assert q !in asSubject && q !in asObject;
    }
  }

  // With no edges to cross, the seed is the one node there is.
  lemma SeedRows(view: View, cl: ClosureItem, fromSource: bool, s: Solution, seed: Term)
    requires view.Valid() && cl.link !in view.dict && IsZeroLength(cl.hops)
    requires EndOf(s, if fromSource then cl.source else cl.target) == Some(seed)
    requires Admissible(view, cl, seed)
    ensures var farSlot := EndOf(s, if fromSource then cl.target else cl.source);
            var reached := if farSlot.Some? && farSlot.value != seed then [] else [seed];
            Same(FlatMap(reached, FarRows(s, if fromSource then cl.target else cl.source)),
                 JoinOne(s, ItemBag(view, ClosureStep(cl))))
  {
    forall y
      ensures WalkFor(view, cl, fromSource).Answers(cl.hops, [seed], y) <==> y == seed
    {
      NoEdges(view, cl, fromSource, seed, y);
    }
    var farSlot := EndOf(s, if fromSource then cl.target else cl.source);
    WalkRows(view, cl, fromSource, s, seed, if farSlot.Some? && farSlot.value != seed then [] else [seed]);
  }

  // --- Adding one turn of a loop to what the turns before it delivered -----------------------------------

  // What a loop has delivered of the bag `xs`: when it is `whole`, everything owed; when the run was given up on the way,
  // nothing but solutions owed, each at most as often as owed.
  ghost predicate LoopAt(c: Context, plan: Plan, rest: seq<Item>, pending: seq<nat>, xs: seq<Solution>,
                         before: Progress, now: Progress, sols: seq<Solution>, whole: bool)
  {
    forall k {:trigger Unlock(k)} :: Unlock(k) ==> LoopIsAt(c, plan, rest, pending, xs, before, now, sols, whole)
  }

  ghost predicate LoopIsAt(c: Context, plan: Plan, rest: seq<Item>, pending: seq<nat>, xs: seq<Solution>,
                           before: Progress, now: Progress, sols: seq<Solution>, whole: bool)
  {
    && OfThose(sols, Meaning(c, plan.filters, rest, pending, xs), whole)
    && now == EmitAll(plan, before, sols)
  }

  ghost predicate OfThose(sols: seq<Solution>, all: seq<Solution>, whole: bool) {
    if whole then Same(sols, all) else multiset(sols) <= multiset(all)
  }

  // Nothing delivered: all of nothing, and part of anything.
  lemma LoopStart(c: Context, plan: Plan, rest: seq<Item>, pending: seq<nat>, xs: seq<Solution>, before: Progress)
    ensures LoopAt(c, plan, rest, pending, [], before, before, [], true)
    ensures LoopAt(c, plan, rest, pending, xs, before, before, [], false)
  {
    assert Unlock(Key);
    MeaningNone(c, plan.filters, rest, pending);
  }

  lemma LoopTurn(c: Context, plan: Plan, rest: seq<Item>, pending: seq<nat>, xs: seq<Solution>, turn: seq<Solution>,
                 before: Progress, mid: Progress, now: Progress, sols: seq<Solution>, sub: seq<Solution>, whole: bool)
    requires LoopAt(c, plan, rest, pending, xs, before, mid, sols, true)
    requires LoopAt(c, plan, rest, pending, turn, mid, now, sub, whole)
    ensures LoopAt(c, plan, rest, pending, xs + turn, before, now, sols + sub, whole)
  {
    assert Unlock(Key);
    MeaningAppend(c, plan.filters, rest, pending, xs, turn);
    EmitAppend(plan, before, sols, sub);
  }

  // A run given up on the way has delivered part of the rest as well.
  lemma LoopLeft(c: Context, plan: Plan, rest: seq<Item>, pending: seq<nat>, xs: seq<Solution>, left: seq<Solution>,
                 before: Progress, now: Progress, sols: seq<Solution>)
    requires LoopAt(c, plan, rest, pending, xs, before, now, sols, false)
    ensures LoopAt(c, plan, rest, pending, xs + left, before, now, sols, false)
  {
    assert Unlock(Key);
    MeaningAppend(c, plan.filters, rest, pending, xs, left);
  }

  // What the loop does not reach once the limit is full changes nothing.
  lemma LoopCut(c: Context, plan: Plan, rest: seq<Item>, pending: seq<nat>, xs: seq<Solution>, left: seq<Solution>,
                before: Progress, now: Progress, sols: seq<Solution>)
    requires LoopAt(c, plan, rest, pending, xs, before, now, sols, true)
    requires Full(plan, now)
    ensures LoopAt(c, plan, rest, pending, xs + left, before, now, sols + Meaning(c, plan.filters, rest, pending, left), true)
  {
    assert Unlock(Key);
    var more := Meaning(c, plan.filters, rest, pending, left);
    EmitFull(plan, now, more);
    LoopTurn(c, plan, rest, pending, xs, left, before, now, now, sols, more, true);
  }

  lemma LoopSame(c: Context, plan: Plan, rest: seq<Item>, pending: seq<nat>, xs: seq<Solution>, ys: seq<Solution>,
                 before: Progress, now: Progress, sols: seq<Solution>, whole: bool)
    requires LoopAt(c, plan, rest, pending, xs, before, now, sols, whole) && Same(xs, ys)
    ensures LoopAt(c, plan, rest, pending, ys, before, now, sols, whole)
  {
    assert Unlock(Key);
    MeaningSame(c, plan.filters, rest, pending, xs, ys);
  }

  // Taking one required item and going on with the rest delivers the whole list.
  lemma LoopTake(c: Context, plan: Plan, todo: seq<Item>, i: nat, pending: seq<nat>, s: Solution,
                 before: Progress, now: Progress, sols: seq<Solution>, whole: bool)
    requires i < |todo| && !todo[i].OptionalStep?
    requires LoopAt(c, plan, Without(todo, i), pending, JoinOne(s, ItemBag(c.view, todo[i])), before, now, sols, whole)
    ensures LoopAt(c, plan, todo, pending, [s], before, now, sols, whole)
  {
    assert Unlock(Key);
    MeaningTake(c, plan.filters, todo, pending, s, i);
  }

  lemma LoopBranch(c: Context, plan: Plan, branch: seq<PatternItem>, rest: seq<Item>, pending: seq<nat>, s: Solution,
                   before: Progress, now: Progress, sols: seq<Solution>, whole: bool)
    requires LoopAt(c, plan, AsItems(branch) + rest, pending, [s], before, now, sols, whole)
    ensures LoopAt(c, plan, rest, pending, BranchJoin(c.view, s)(branch), before, now, sols, whole)
  {
    assert Unlock(Key);
    MeaningOfBranch(c, plan.filters, branch, rest, pending, s);
  }

  lemma FiltersInRange(view: View, fs: seq<FilterEntry>, todo: seq<Item>, pending: seq<nat>)
    requires Ready(view, fs, todo, pending)
    ensures forall n :: 0 <= n < |pending| ==> pending[n] < |fs|
  {
    assert Unlock(Key);
    forall n | 0 <= n < |pending|
      ensures pending[n] < |fs|
    {
      assert pending[n] in pending;
    }
  }

  // --- The ends a step can come to -------------------------------------------------------------------

  // A filter that is ready failed.
  lemma StepRejected(c: Context, plan: Plan, todo: seq<Item>, pending: seq<nat>, s: Solution, now: Progress)
    requires !Screens(c.rules, plan.filters, pending, s)
    ensures LoopAt(c, plan, todo, pending, [s], now, now, [], true)
  {
    MeaningScreened(c, plan.filters, todo, pending, s);
  }

  // Every filter that is ready passed: only the others are still owed.
  lemma StepScreened(c: Context, plan: Plan, todo: seq<Item>, pending: seq<nat>, s: Solution,
                     before: Progress, now: Progress, sols: seq<Solution>, whole: bool)
    requires Screens(c.rules, plan.filters, pending, s)
    requires LoopAt(c, plan, todo, StillPending(plan.filters, pending, s.Keys), [s], before, now, sols, whole)
    ensures LoopAt(c, plan, todo, pending, [s], before, now, sols, whole)
  {
    assert Unlock(Key);
    MeaningScreened(c, plan.filters, todo, pending, s);
  }

  // The limit was already full.
  lemma StepFull(c: Context, plan: Plan, todo: seq<Item>, pending: seq<nat>, s: Solution, now: Progress)
    requires Full(plan, now)
    ensures LoopAt(c, plan, todo, pending, [s], now, now, Meaning(c, plan.filters, todo, pending, [s]), true)
  {
    EmitFull(plan, now, Meaning(c, plan.filters, todo, pending, [s]));
  }

  // Nothing was left: one row, whatever can still not be decided.
  lemma StepEmitted(c: Context, plan: Plan, later: seq<nat>, s: Solution, before: Progress)
    requires !Full(plan, before) && Undecided(plan.filters, later, s)
    ensures LoopAt(c, plan, [], later, [s], before, Emit(plan, before, s), [s], true)
  {
    EmitOne(plan, before, s);
    MeaningDone(c, plan.filters, later, s);
  }

  ghost predicate OptionalsOnly(todo: seq<Item>) {
    todo != [] && forall i :: 0 <= i < |todo| ==> todo[i].OptionalStep?
  }

  // The optional's own list was run. If anything completed, or the run was given up, that is the answer; if nothing did,
  // nothing has changed and running the rest without it is.
  lemma OptionalTried(c: Context, plan: Plan, todo: seq<Item>, later: seq<nat>, s: Solution, before: Progress, now: Progress, sols: seq<Solution>,
                      whole: bool)
    requires OptionalsOnly(todo) && !Full(plan, before) && Undecided(plan.filters, later, s)
    requires LoopAt(c, plan, todo[0].optional.items + todo[1..], later + todo[0].optional.filters, [s], before, now, sols, whole)
    ensures !whole || now.completions != before.completions ==> LoopAt(c, plan, todo, later, [s], before, now, sols, whole)
    ensures whole && now.completions == before.completions ==>
              now == before && Meaning(c, plan.filters, todo[0].optional.items + todo[1..], later + todo[0].optional.filters, [s]) == []
  {
    assert Unlock(Key);
    MeaningOptional(c, plan.filters, todo, later, s);
    CompletionsMove(plan, before, sols);
    var tried := Meaning(c, plan.filters, todo[0].optional.items + todo[1..], later + todo[0].optional.filters, [s]);
    if whole {
      SameLength(sols, tried);
    } else if tried == [] {
      PartOfNothing(sols);
    }
  }

  lemma PartOfNothing(sols: seq<Solution>)
    requires multiset(sols) <= multiset([])
    ensures sols == []
  {
    assert |multiset(sols)| == |sols|;
    assert multiset(sols) == multiset{};
  }

  lemma OptionalSkipped(c: Context, plan: Plan, todo: seq<Item>, later: seq<nat>, s: Solution, before: Progress, now: Progress, sols: seq<Solution>,
                        whole: bool)
    requires OptionalsOnly(todo) && Undecided(plan.filters, later, s)
    requires Meaning(c, plan.filters, todo[0].optional.items + todo[1..], later + todo[0].optional.filters, [s]) == []
    requires LoopAt(c, plan, todo[1..], later, [s], before, now, sols, whole)
    ensures LoopAt(c, plan, todo, later, [s], before, now, sols, whole)
  {
    assert Unlock(Key);
    MeaningOptional(c, plan.filters, todo, later, s);
  }

  // The loop over `all`, turn by turn: what the first `k` contribute, and what is left.
  lemma LoopSplit<A>(all: seq<A>, k: nat, f: A -> seq<Solution>)
    requires k < |all|
    ensures FlatMap(all[..k + 1], f) == FlatMap(all[..k], f) + f(all[k])
    ensures FlatMap(all, f) == FlatMap(all[..k + 1], f) + FlatMap(all[k + 1..], f)
  {
    LoopSplitHead(all, k, f);
    var a, b := all[..k + 1], all[k + 1..];
    FlatMapAppend(a, b, f);
    assert a + b == all;
  }

  lemma LoopSplitHead<A>(all: seq<A>, k: nat, f: A -> seq<Solution>)
    requires k < |all|
    ensures FlatMap(all[..k + 1], f) == FlatMap(all[..k], f) + f(all[k])
  {
    var a, x := all[..k], all[k];
    FlatMapSnoc(a, x, f);
    assert all[..k + 1] == a + [x];
  }

  // One turn of a loop over `all`: what was delivered, with this turn's; and, once the limit is full or the run given up,
  // with everything the loop will not reach.
  lemma TurnTaken<A>(c: Context, plan: Plan, rest: seq<Item>, pending: seq<nat>, all: seq<A>, k: nat, f: A -> seq<Solution>,
                     before: Progress, mid: Progress, now: Progress, sols: seq<Solution>, sub: seq<Solution>, whole: bool)
    requires k < |all|
    requires LoopAt(c, plan, rest, pending, FlatMap(all[..k], f), before, mid, sols, true)
    requires LoopAt(c, plan, rest, pending, f(all[k]), mid, now, sub, whole)
    ensures whole ==> LoopAt(c, plan, rest, pending, FlatMap(all[..k + 1], f), before, now, sols + sub, true)
    ensures whole && Full(plan, now) ==> LoopAt(c, plan, rest, pending, FlatMap(all, f), before, now,
                                                sols + sub + Unreached(c, plan, rest, pending, all[k + 1..], f), true)
    ensures !whole ==> LoopAt(c, plan, rest, pending, FlatMap(all, f), before, now, sols + sub, false)
  {
    LoopSplit(all, k, f);
    LoopTurn(c, plan, rest, pending, FlatMap(all[..k], f), f(all[k]), before, mid, now, sols, sub, whole);
    if !whole {
      LoopLeft(c, plan, rest, pending, FlatMap(all[..k + 1], f), FlatMap(all[k + 1..], f), before, now, sols + sub);
    } else if Full(plan, now) {
      LoopCut(c, plan, rest, pending, FlatMap(all[..k + 1], f), FlatMap(all[k + 1..], f), before, now, sols + sub);
    }
  }

  // The run was given up before a turn.
  lemma TurnStopped<A>(c: Context, plan: Plan, rest: seq<Item>, pending: seq<nat>, all: seq<A>, k: nat, f: A -> seq<Solution>,
                       before: Progress, now: Progress, sols: seq<Solution>)
    requires k < |all| && LoopAt(c, plan, rest, pending, FlatMap(all[..k], f), before, now, sols, true)
    ensures LoopAt(c, plan, rest, pending, FlatMap(all, f), before, now, sols, false)
  {
    LoopStart(c, plan, rest, pending, f(all[k]), now);
    TurnTaken(c, plan, rest, pending, all, k, f, before, now, now, sols, [], false);
    assert sols + [] == sols;
  }

  ghost function Unreached<A>(c: Context, plan: Plan, rest: seq<Item>, pending: seq<nat>, left: seq<A>, f: A -> seq<Solution>)
    : seq<Solution>
  {
    Meaning(c, plan.filters, rest, pending, FlatMap(left, f))
  }

  // --- The run -------------------------------------------------------------------------------------------

  predicate Within(cap: Option<nat>, out: seq<Row>, seen: set<Row>, slack: nat) {
    cap.Some? ==> |out| + |seen| <= cap.value + slack
  }

  const TOKEN_CHECK_INTERVAL: nat := 4096

  // No reading of the token so far said to stop.
  ghost predicate Silent(cancelled: nat -> bool, readings: nat) {
    forall k {:trigger Unlock(k)} :: Unlock(k) ==> SilentSoFar(cancelled, readings)
  }

  ghost predicate SilentSoFar(cancelled: nat -> bool, readings: nat) {
    forall k :: 0 < k <= readings ==> !cancelled(k)
  }

  lemma SilentOnce(cancelled: nat -> bool, readings: nat)
    requires Silent(cancelled, readings) && !cancelled(readings + 1)
    ensures Silent(cancelled, readings + 1)
  {
    assert Unlock(Key);
  }

  datatype Slot = Fixed(t: Term) | Any | Missing

  class Run {
    const c: Context
    const plan: Plan
    // The row budget, and what the cancellation token says each time it is read.
    const cap: Option<nat>
    const cancelled: nat -> bool

    var bindings: Solution
    var out: seq<Row>
    var seen: set<Row>
    var skipped: nat
    var completions: nat
    var abandoned: bool
    var sinceCheck: nat
    var readings: nat

    constructor (c: Context, plan: Plan, cap: Option<nat>, cancelled: nat -> bool)
      ensures this.c == c && this.plan == plan && this.cap == cap && this.cancelled == cancelled
      ensures bindings == map[] && State() == NOTHING_YET && !abandoned && readings == 0 && sinceCheck == 0
    {
      this.c, this.plan, this.cap, this.cancelled := c, plan, cap, cancelled;
      bindings, out, seen, skipped, completions := map[], [], {}, 0, 0;
      abandoned, sinceCheck, readings := false, 0, 0;
    }

    function State(): Progress
      reads this
    {
      Progress(out, seen, skipped, completions)
    }

    // Held at every moment of every run: the rows kept exceed the budget by at most one row's worth.
    predicate InBudget()
      reads this
    {
      Within(cap, out, seen, 2)
    }

    // How often the run has asked whether to go on, and got as far as the token.
    function Calls(): nat
      reads this
    {
      readings * TOKEN_CHECK_INTERVAL + sinceCheck
    }

    // What a call owes when it comes back. `sols` enumerates the meaning of `rest` over `xs`; unless the
    // run was given up, its rows have been emitted in that order until the limit. A run given up has
    // emitted part of them. Nothing stays bound.
    twostate predicate Delivered(rest: seq<Item>, pending: seq<nat>, new xs: seq<Solution>, sols: seq<Solution>)
      reads this
    {
      && bindings == old(bindings)
      && (old(InBudget()) ==> InBudget())
      && LoopAt(c, plan, rest, pending, xs, old(State()), State(), sols, !abandoned)
    }

    // The rows held are over the budget, or the token was just read and says to stop.
    twostate predicate Cause()
      reads this
    {
      !Within(cap, out, seen, 0) || (old(readings) < readings && cancelled(readings))
    }

    // With nothing unknown to meet, only the budget or the token gives a run up; a token that says so always does. The
    // run asks at least once for every solution completed, but for the `due` its caller has asked for.
    twostate predicate Keeps(calm: bool, due: nat)
      reads this
    {
      && old(readings) <= readings && sinceCheck < TOKEN_CHECK_INTERVAL
      && (calm && abandoned && !old(abandoned) ==> Cause())
      && (!abandoned && Silent(cancelled, old(readings)) ==> Silent(cancelled, readings))
      && old(Calls()) + (completions - old(completions)) <= Calls() + due
    }

    // Given up already, over the row budget, or told to stop: the token is read once in so many calls.
    method Done() returns (r: bool)
      requires sinceCheck < 4096
      modifies this`abandoned, this`sinceCheck, this`readings
      ensures r == abandoned && sinceCheck < 4096
      ensures abandoned <==> old(abandoned) || !Within(cap, out, seen, 0) || (readings != old(readings) && cancelled(readings))
      ensures old(abandoned) || !Within(cap, out, seen, 0) ==> readings == old(readings) && sinceCheck == old(sinceCheck)
      ensures !old(abandoned) && Within(cap, out, seen, 0) ==>
                if old(sinceCheck) == 4095 then readings == old(readings) + 1 && sinceCheck == 0
                else readings == old(readings) && sinceCheck == old(sinceCheck) + 1
      ensures Keeps(true, 0)
      ensures !abandoned ==> Calls() == old(Calls()) + 1
    {
      if abandoned {
        return true;
      }
      if cap.Some? && |out| + |seen| > cap.value {
        abandoned := true;
        return true;
      }
      sinceCheck := sinceCheck + 1;
      if sinceCheck >= TOKEN_CHECK_INTERVAL {
        sinceCheck := 0;
        readings := readings + 1;
        if cancelled(readings) {
          abandoned := true;
          return true;
        }
        if Silent(cancelled, old(readings)) {
          SilentOnce(cancelled, old(readings));
        }
      }
      return false;
    }

    // Every item is satisfied: count the completion, and keep the row unless it is a repeat or before the offset.
    method EmitRow()
      modifies this`out, this`seen, this`skipped, this`completions
      ensures State() == Emit(plan, old(State()), bindings)
      ensures Within(cap, old(out), old(seen), 0) ==> InBudget()
    {
      completions := completions + 1;
      var row := RowOf(plan.variables, bindings);
      if plan.distinct {
        if row in seen {
          return;
        }
        seen := seen + {row};
      }
      if skipped < plan.offset {
        skipped := skipped + 1;
        return;
      }
      out := out + [row];
    }

    method ReachedLimit() returns (r: bool)
      ensures r == Full(plan, State())
    {
      return plan.limit.Some? && |out| >= plan.limit.value;
    }

    // A turn is over: what the loop has delivered so far, which is everything once the limit is reached, and part of
    // everything once the run is given up.
    method TurnOver<A>(ghost rest: seq<Item>, ghost pending: seq<nat>, ghost all: seq<A>, ghost k: nat, ghost f: A -> seq<Solution>,
                       ghost before: Progress, ghost mid: Progress, ghost sols: seq<Solution>, ghost sub: seq<Solution>)
      returns (stop: bool, ghost sum: seq<Solution>)
      requires k < |all|
      requires LoopAt(c, plan, rest, pending, FlatMap(all[..k], f), before, mid, sols, true)
      requires LoopAt(c, plan, rest, pending, f(all[k]), mid, State(), sub, !abandoned)
      ensures stop == (abandoned || Full(plan, State()))
      ensures LoopAt(c, plan, rest, pending, FlatMap(if stop then all else all[..k + 1], f), before, State(), sum, !abandoned)
    {
      TurnTaken(c, plan, rest, pending, all, k, f, before, mid, State(), sols, sub, !abandoned);
      sum := sols + sub;
      if abandoned {
        return true, sum;
      }
      stop := ReachedLimit();
      if stop {
        sum := sum + Unreached(c, plan, rest, pending, all[k + 1..], f);
      }
    }

    // The item to take next: any required one, or the first optional once none is left.
    method Cheapest(todo: seq<Item>) returns (i: Option<nat>)
      ensures i.None? <==> todo == []
      ensures i.Some? ==> i.value < |todo|
      ensures i.Some? && todo[i.value].OptionalStep? ==>
                i.value == 0 && forall k :: 0 <= k < |todo| ==> todo[k].OptionalStep?
    {
      if todo == [] {
        return None;
      }
      if k :| 0 <= k < |todo| && !todo[k].OptionalStep? {
        return Some(k);
      }
      return Some(0);
    }

    // Applies each pending filter whose variables are bound; the rest stay pending.
    method Screen(pending: seq<nat>) returns (pass: bool, later: seq<nat>)
      requires forall n :: 0 <= n < |pending| ==> pending[n] < |plan.filters|
      ensures pass <==> Screens(c.rules, plan.filters, pending, bindings)
      ensures pass ==> later == StillPending(plan.filters, pending, bindings.Keys)
    {
      pass, later := true, [];
      for n := 0 to |pending|
        invariant Screens(c.rules, plan.filters, pending[..n], bindings)
        invariant later == StillPending(plan.filters, pending[..n], bindings.Keys)
      {
        assert pending[..n + 1][..n] == pending[..n] && pending[..n + 1] == pending[..n] + [pending[n]];
        assert pending[n] in pending;
        var filter := plan.filters[pending[n]];
        if filter.needs <= bindings.Keys {
          if !Passes(c.rules, filter, bindings) {
            return false, later;
          }
        } else {
          later := later + [pending[n]];
        }
      }
      assert pending[..|pending|] == pending;
    }

    // Binds a variable, or reports that it is bound to something else. `added` is what to undo.
    method BindVariable(v: Var, t: Term, added: set<Var>) returns (ok: bool, added': set<Var>)
      modifies this`bindings
      ensures ok == BindTo(Some(old(bindings)), V(v), t).Some?
      ensures ok ==> Some(bindings) == BindTo(Some(old(bindings)), V(v), t)
      ensures !ok ==> bindings == old(bindings)
      ensures bindings - added' == old(bindings) - added
    {
      if v in bindings {
        return bindings[v] == t, added;
      }
      bindings := bindings[v := t];
      return true, added + {v};
    }

    // Takes a term into one position. A constant there was already part of the scan's key.
    method BindPosition(at: Position, t: Term, added: set<Var>) returns (ok: bool, added': set<Var>)
      requires at.T? ==> at.t == t
      modifies this`bindings
      ensures ok == BindTo(Some(old(bindings)), at, t).Some?
      ensures ok ==> Some(bindings) == BindTo(Some(old(bindings)), at, t)
      ensures !ok ==> bindings == old(bindings)
      ensures bindings - added' == old(bindings) - added
    {
      if at.T? {
        return true, added;
      }
      ok, added' := BindVariable(at.v, t, added);
    }

    // Binds what a pattern says of a quad; where that fails, the caller takes back what was added.
    method BindQuad(pattern: PatternItem, q: Quad) returns (ok: bool, added: set<Var>)
      requires pattern.triple.s.T? ==> pattern.triple.s.t == q.s
      requires pattern.triple.p.T? ==> pattern.triple.p.t == q.p
      requires pattern.triple.o.T? ==> pattern.triple.o.t == q.o
      requires GraphAdmits(GraphSlot(bindings, pattern.scope), q.graph)
      modifies this`bindings
      ensures ok ==> Some(bindings) == MatchFrom(old(bindings), pattern.triple, pattern.scope, q)
      ensures !ok ==> MatchFrom(old(bindings), pattern.triple, pattern.scope, q) == None
      ensures bindings - added == old(bindings)
    {
      ok, added := true, {};
      ghost var base := bindings;
      if pattern.scope.InEach? {
        if q.graph.None? {
          return false, added;
        }
        ok, added := BindVariable(pattern.scope.v, q.graph.value, added);
        if !ok {
          return;
        }
      }
      assert Some(bindings) == BindScope(base, pattern.scope, q.graph);
      ok, added := BindPosition(pattern.triple.s, q.s, added);
      if !ok {
        return;
      }
      ok, added := BindPosition(pattern.triple.p, q.p, added);
      if !ok {
        return;
      }
      ok, added := BindPosition(pattern.triple.o, q.o, added);
    }

    // One candidate quad: bind what it binds, go on from there, and undo the bindings.
    method ProbeQuad(pattern: PatternItem, q: Quad, rest: seq<Item>, pending: seq<nat>)
      returns (ok: bool, ghost sols: seq<Solution>)
      requires c.view.Valid() && Candidate(c.view, bindings, pattern, q)
      requires Ready(c.view, plan.filters, rest, pending)
      requires !abandoned && sinceCheck < TOKEN_CHECK_INTERVAL
      modifies this
      ensures Delivered(rest, pending, Matching(old(bindings), pattern.triple, pattern.scope)(q), sols)
      ensures !ok ==> !abandoned
      ensures Keeps(Calm(c.view, rest), 0)
      decreases TotalSize(rest), 3
    {
      ghost var base := bindings;
      var added;
      sols := [];
      ok, added := BindQuad(pattern, q);
      if ok {
        sols := Step(rest, pending);
      } else {
        LoopStart(c, plan, rest, pending, [], old(State()));
      }
      bindings := bindings - added;
    }

    // The rest of the plan from each of the quads found.
    method ProbeEach(pattern: PatternItem, quads: seq<Quad>, rest: seq<Item>, pending: seq<nat>) returns (ghost sols: seq<Solution>)
      requires c.view.Valid() && forall q :: q in quads ==> Candidate(c.view, bindings, pattern, q)
      requires Ready(c.view, plan.filters, rest, pending)
      requires !abandoned && sinceCheck < TOKEN_CHECK_INTERVAL
      modifies this
      ensures Delivered(rest, pending, FlatMap(quads, Matching(old(bindings), pattern.triple, pattern.scope)), sols)
      ensures Keeps(Calm(c.view, rest), 0)
      decreases TotalSize(rest), 4
    {
      ghost var base, before, f := bindings, State(), Matching(bindings, pattern.triple, pattern.scope);
      sols := [];
      LoopStart(c, plan, rest, pending, [], before);
      for k := 0 to |quads|
        invariant bindings == base
        invariant old(InBudget()) ==> InBudget()
        invariant !abandoned
        invariant Keeps(Calm(c.view, rest), 0)
        invariant LoopAt(c, plan, rest, pending, FlatMap(quads[..k], f), before, State(), sols, true)
      {
        var stop := Done();
        if stop {
          TurnStopped(c, plan, rest, pending, quads, k, f, before, State(), sols);
          return;
        }
        assert quads[k] in quads;
        ghost var mid := State();
        ghost var sub;
        var ok;
        ok, sub := ProbeQuad(pattern, quads[k], rest, pending);
        if ok {
          stop, sols := TurnOver(rest, pending, quads, k, f, before, mid, sols, sub);
          if stop {
            return;
          }
        } else {
          TurnTaken(c, plan, rest, pending, quads, k, f, before, mid, State(), sols, sub, true);
          sols := sols + sub;
        }
      }
      assert quads[..|quads|] == quads;
    }

    // A keyed scan for one pattern, and the rest of the plan from each quad that fits.
    method Probe(pattern: PatternItem, rest: seq<Item>, pending: seq<nat>) returns (ghost sols: seq<Solution>)
      requires c.view.Valid()
      requires Ready(c.view, plan.filters, rest, pending)
      requires !abandoned && sinceCheck < TOKEN_CHECK_INTERVAL
      modifies this
      ensures Delivered(rest, pending, JoinOne(old(bindings), TripleBag(c.view, pattern.triple, pattern.scope)), sols)
      ensures Keeps(Calm(c.view, rest), 0)
      decreases TotalSize(rest), 5
    {
      ghost var base, before := bindings, State();
      var t := pattern.triple;
      var s, p, o := SlotIn(c.view, bindings, t.s), SlotIn(c.view, bindings, t.p), SlotIn(c.view, bindings, t.o);
      if s.Missing? || p.Missing? || o.Missing? || (pattern.scope.InNamed? && pattern.scope.g !in c.view.dict) {
        MissingMatchesNothing(c.view, base, t, pattern.scope);
        LoopStart(c, plan, rest, pending, [], before);
        return [];
      }
      var key := ScanKey(Slotted(s), Slotted(p), Slotted(o), GraphSlot(bindings, pattern.scope));
      var quads := Scan(c.view, key);
      sols := ProbeEach(pattern, quads, rest, pending);
      ScanIsJoin(c.view, base, t, pattern.scope, quads);
      LoopSame(c, plan, rest, pending, FlatMap(quads, Matching(base, t, pattern.scope)),
               JoinOne(base, TripleBag(c.view, t, pattern.scope)), before, State(), sols, !abandoned);
    }

    // One row of a VALUES clause. A term the dictionary lacks cannot be bound to anything.
    method BindRow(vars: seq<Var>, row: seq<Option<Term>>) returns (ok: bool, missing: bool, added: set<Var>)
      modifies this`bindings
      ensures bindings - added == old(bindings)
      ensures !missing && ok ==> Some(bindings) == RowFrom(Some(old(bindings)), vars, row)
      ensures !missing && !ok ==> RowFrom(Some(old(bindings)), vars, row) == None
      ensures missing ==> exists i :: 0 <= i < |row| && row[i].Some? && row[i].value !in c.view.dict
    {
      ok, missing, added := true, false, {};
      var n := if |vars| <= |row| then |vars| else |row|;
      for i := 0 to n
        invariant bindings - added == old(bindings)
        invariant RowFrom(Some(old(bindings)), vars, row) == RowFrom(Some(bindings), vars[i..], row[i..])
      {
        assert vars[i..][1..] == vars[i + 1..] && row[i..][1..] == row[i + 1..];
        if row[i].None? {
          continue;
        }
        if row[i].value !in c.view.dict {
          return false, true, added;
        }
        ok, added := BindVariable(vars[i], row[i].value, added);
        if !ok {
          RowNone(vars[i + 1..], row[i + 1..]);
          return;
        }
      }
    }

    method RowTurn(vars: seq<Var>, rows: seq<seq<Option<Term>>>, k: nat, rest: seq<Item>, pending: seq<nat>)
      returns (ghost sols: seq<Solution>)
      requires c.view.Valid() && k < |rows|
      requires Ready(c.view, plan.filters, rest, pending)
      requires !abandoned && sinceCheck < TOKEN_CHECK_INTERVAL
      modifies this
      ensures Delivered(rest, pending, RowBag(old(bindings), vars)(rows[k]), sols)
      ensures Keeps(Calm(c.view, rest) && CalmItem(c.view, ValuesStep(vars, rows)), 0)
      decreases TotalSize(rest), 3
    {
      ghost var base := bindings;
      sols := [];
      var ok, missing, added := BindRow(vars, rows[k]);
      if missing {
        abandoned := true;
        LoopStart(c, plan, rest, pending, RowBag(base, vars)(rows[k]), old(State()));
      } else if ok {
        sols := Step(rest, pending);
      } else {
        LoopStart(c, plan, rest, pending, [], old(State()));
      }
      bindings := bindings - added;
    }

    // The rows of a table, one after another.
    method RowsOfValues(vars: seq<Var>, rows: seq<seq<Option<Term>>>, rest: seq<Item>, pending: seq<nat>)
      returns (ghost sols: seq<Solution>)
      requires c.view.Valid()
      requires Ready(c.view, plan.filters, rest, pending)
      requires !abandoned && sinceCheck < TOKEN_CHECK_INTERVAL
      modifies this
      ensures Delivered(rest, pending, FlatMap(rows, RowBag(old(bindings), vars)), sols)
      ensures Keeps(Calm(c.view, rest) && CalmItem(c.view, ValuesStep(vars, rows)), 0)
      decreases TotalSize(rest), 4
    {
      ghost var base, before, f := bindings, State(), RowBag(bindings, vars);
      sols := [];
      LoopStart(c, plan, rest, pending, [], before);
      for k := 0 to |rows|
        invariant bindings == base
        invariant old(InBudget()) ==> InBudget()
        invariant !abandoned
        invariant Keeps(Calm(c.view, rest) && CalmItem(c.view, ValuesStep(vars, rows)), 0)
        invariant LoopAt(c, plan, rest, pending, FlatMap(rows[..k], f), before, State(), sols, true)
      {
        var stop := Done();
        if stop {
          TurnStopped(c, plan, rest, pending, rows, k, f, before, State(), sols);
          return;
        }
        ghost var mid := State();
        ghost var sub := RowTurn(vars, rows, k, rest, pending);
        stop, sols := TurnOver(rest, pending, rows, k, f, before, mid, sols, sub);
        if stop {
          return;
        }
      }
      assert rows[..|rows|] == rows;
    }

    method BranchTurn(todo: seq<Item>, i: nat, k: nat, pending: seq<nat>) returns (ghost sols: seq<Solution>)
      requires c.view.Valid() && i < |todo| && todo[i].UnionStep? && k < |todo[i].branches|
      requires Ready(c.view, plan.filters, Without(todo, i), pending)
      requires !abandoned && sinceCheck < TOKEN_CHECK_INTERVAL
      modifies this
      ensures Delivered(Without(todo, i), pending, BranchJoin(c.view, old(bindings))(todo[i].branches[k]), sols)
      ensures Keeps(Calm(c.view, Without(todo, i)), 0)
      decreases TotalSize(Without(todo, i)) + BranchesSize(todo[i].branches), 3
    {
      var branch, rest := todo[i].branches[k], Without(todo, i);
      ReadyBranch(c.view, plan.filters, branch, rest, pending);
      SizeOfBranch(todo[i].branches, k);
      SizeAppend(AsItems(branch), rest);
      if Calm(c.view, rest) {
        CalmBranch(c.view, branch, rest);
      }
      ghost var base, before := bindings, State();
      sols := Step(AsItems(branch) + rest, pending);
      LoopBranch(c, plan, branch, rest, pending, base, before, State(), sols, !abandoned);
    }

    // The branches of a union, one after another, each put before the rest of the plan.
    method StepUnion(todo: seq<Item>, i: nat, pending: seq<nat>) returns (ghost sols: seq<Solution>)
      requires c.view.Valid() && i < |todo| && todo[i].UnionStep?
      requires Ready(c.view, plan.filters, Without(todo, i), pending)
      requires !abandoned && sinceCheck < TOKEN_CHECK_INTERVAL
      modifies this
      ensures Delivered(Without(todo, i), pending, FlatMap(todo[i].branches, BranchJoin(c.view, old(bindings))), sols)
      ensures Keeps(Calm(c.view, Without(todo, i)), 0)
      decreases TotalSize(Without(todo, i)) + BranchesSize(todo[i].branches), 4
    {
      var branches, rest := todo[i].branches, Without(todo, i);
      ghost var base, before, f := bindings, State(), BranchJoin(c.view, bindings);
      sols := [];
      LoopStart(c, plan, rest, pending, [], before);
      for k := 0 to |branches|
        invariant bindings == base
        invariant old(InBudget()) ==> InBudget()
        invariant !abandoned
        invariant Keeps(Calm(c.view, rest), 0)
        invariant LoopAt(c, plan, rest, pending, FlatMap(branches[..k], f), before, State(), sols, true)
      {
        ghost var mid := State();
        ghost var sub := BranchTurn(todo, i, k, pending);
        var stop;
        stop, sols := TurnOver(rest, pending, branches, k, f, before, mid, sols, sub);
        if stop {
          return;
        }
      }
      assert branches[..|branches|] == branches;
    }

    // Whether the graph mentions a term: as a subject, or else as an object.
    method ZeroLengthAdmissible(cl: ClosureItem, seed: Term) returns (r: bool)
      requires !cl.scope.InEach?
      ensures r == Admissible(c.view, cl, seed)
    {
      if !IsZeroLength(cl.hops) || !(cl.source.V? && cl.target.V?) {
        return true;
      }
      var asSubject := Scan(c.view, ScanKey(Some(seed), None, None, GraphKeyOf(cl.scope)));
      if asSubject != [] {
        assert asSubject[0] in c.view.quads;
        return true;
      }
      var asObject := Scan(c.view, ScanKey(None, None, Some(seed), GraphKeyOf(cl.scope)));
      if asObject != [] {
        assert asObject[0] in c.view.quads;
        return true;
      }
      NotANode(c.view, cl, seed, asSubject, asObject);
      return false;
    }

    method NodeTurn(far: Position, node: Term, rest: seq<Item>, pending: seq<nat>) returns (ghost sols: seq<Solution>)
      requires c.view.Valid()
      requires Ready(c.view, plan.filters, rest, pending)
      requires far.T? ==> node == far.t
      requires !abandoned && sinceCheck < TOKEN_CHECK_INTERVAL
      modifies this
      ensures Delivered(rest, pending, FarRows(old(bindings), far)(node), sols)
      ensures Keeps(Calm(c.view, rest), 0)
      decreases TotalSize(rest), 3
    {
      ghost var base := bindings;
      sols := [];
      var ok, added := BindPosition(far, node, {});
      if ok {
        sols := Step(rest, pending);
      } else {
        LoopStart(c, plan, rest, pending, [], old(State()));
      }
      bindings := bindings - added;
    }

    // Goes on from each node a walk reached, binding the far end to it.
    method FollowReached(far: Position, reached: seq<Term>, rest: seq<Item>, pending: seq<nat>)
      returns (ghost sols: seq<Solution>)
      requires c.view.Valid()
      requires Ready(c.view, plan.filters, rest, pending)
      requires far.T? ==> forall y :: y in reached ==> y == far.t
      requires !abandoned && sinceCheck < TOKEN_CHECK_INTERVAL
      modifies this
      ensures Delivered(rest, pending, FlatMap(reached, FarRows(old(bindings), far)), sols)
      ensures Keeps(Calm(c.view, rest), 0)
      decreases TotalSize(rest), 4
    {
      ghost var base, before, f := bindings, State(), FarRows(bindings, far);
      sols := [];
      LoopStart(c, plan, rest, pending, [], before);
      for k := 0 to |reached|
        invariant bindings == base
        invariant old(InBudget()) ==> InBudget()
        invariant !abandoned
        invariant Keeps(Calm(c.view, rest), 0)
        invariant LoopAt(c, plan, rest, pending, FlatMap(reached[..k], f), before, State(), sols, true)
      {
        var stop := Done();
        if stop {
          TurnStopped(c, plan, rest, pending, reached, k, f, before, State(), sols);
          return;
        }
        assert reached[k] in reached;
        ghost var mid := State();
        ghost var sub := NodeTurn(far, reached[k], rest, pending);
        stop, sols := TurnOver(rest, pending, reached, k, f, before, mid, sols, sub);
        if stop {
          return;
        }
      }
      assert reached[..|reached|] == reached;
    }

    // Goes on from the nodes that account for the closure's rows.
    method GoOnFrom(cl: ClosureItem, far: Position, reached: seq<Term>, rest: seq<Item>, pending: seq<nat>)
      returns (ghost sols: seq<Solution>)
      requires c.view.Valid() && (far == cl.source || far == cl.target)
      requires Ready(c.view, plan.filters, rest, pending)
      requires far.T? ==> forall y :: y in reached ==> y == far.t
      requires Same(FlatMap(reached, FarRows(bindings, far)), JoinOne(bindings, ItemBag(c.view, ClosureStep(cl))))
      requires !abandoned && sinceCheck < TOKEN_CHECK_INTERVAL
      modifies this
      ensures Delivered(rest, pending, JoinOne(old(bindings), ItemBag(c.view, ClosureStep(cl))), sols)
      ensures Keeps(Calm(c.view, rest), 0)
      decreases TotalSize(rest), 5
    {
      ghost var base, before := bindings, State();
      sols := FollowReached(far, reached, rest, pending);
      LoopSame(c, plan, rest, pending, FlatMap(reached, FarRows(base, far)),
               JoinOne(base, ItemBag(c.view, ClosureStep(cl))), before, State(), sols, !abandoned);
    }

    // With no edge to cross, the seed is the one node to go on from, if the far end will have it.
    method SeedFrom(cl: ClosureItem, fromSource: bool, seed: Term) returns (reached: seq<Term>)
      requires c.view.Valid() && cl.link !in c.view.dict && IsZeroLength(cl.hops)
      requires EndOf(bindings, if fromSource then cl.source else cl.target) == Some(seed)
      requires Admissible(c.view, cl, seed)
      ensures var far := if fromSource then cl.target else cl.source;
              && Same(FlatMap(reached, FarRows(bindings, far)), JoinOne(bindings, ItemBag(c.view, ClosureStep(cl))))
              && (far.T? ==> forall y :: y in reached ==> y == far.t)
    {
      var farSlot := EndOf(bindings, if fromSource then cl.target else cl.source);
      reached := if farSlot.Some? && farSlot.value != seed then [] else [seed];
      SeedRows(c.view, cl, fromSource, bindings, seed);
    }

    // No edge can exist for the predicate: only paths of no edges are left, where the closure allows them.
    method ClosureZeroOnly(cl: ClosureItem, rest: seq<Item>, pending: seq<nat>) returns (ghost sols: seq<Solution>)
      requires c.view.Valid() && cl.link !in c.view.dict && !cl.scope.InEach?
      requires Ready(c.view, plan.filters, rest, pending)
      requires !abandoned && sinceCheck < TOKEN_CHECK_INTERVAL
      modifies this
      ensures Delivered(rest, pending, JoinOne(old(bindings), ItemBag(c.view, ClosureStep(cl))), sols)
      ensures Keeps(Calm(c.view, rest) && CalmItem(c.view, ClosureStep(cl)), 0)
      decreases TotalSize(rest), 6
    {
      sols := [];
      LoopStart(c, plan, rest, pending, JoinOne(bindings, ItemBag(c.view, ClosureStep(cl))), State());
      if !IsZeroLength(cl.hops) {
        NoEdgesNothing(c.view, cl, bindings);
        return;
      }
      var s, t := EndOf(bindings, cl.source), EndOf(bindings, cl.target);
      if s.None? && t.None? {
        abandoned := true;
        return;
      }
      var fromSource := s.Some?;
      var seed := if fromSource then s.value else t.value;
      var far := if fromSource then cl.target else cl.source;
      var admissible := ZeroLengthAdmissible(cl, seed);
      if !admissible {
        InadmissibleNothing(c.view, cl, fromSource, bindings, seed);
        return;
      }
      var reached := SeedFrom(cl, fromSource, seed);
      sols := GoOnFrom(cl, far, reached, rest, pending);
    }

    // The nodes to go on from. With the far end known, the walk is a reachability test: it stops at the
    // one node that meets it and keeps no other.
    method WalkFrom(cl: ClosureItem, fromSource: bool, seed: Term) returns (reached: seq<Term>)
      requires EndOf(bindings, if fromSource then cl.source else cl.target) == Some(seed)
      requires Admissible(c.view, cl, seed)
      ensures var far := if fromSource then cl.target else cl.source;
              && Same(FlatMap(reached, FarRows(bindings, far)), JoinOne(bindings, ItemBag(c.view, ClosureStep(cl))))
              && (far.T? ==> forall y :: y in reached ==> y == far.t)
    {
      var far := EndOf(bindings, if fromSource then cl.target else cl.source);
      var stop: Term -> bool := if far.Some? then y => y == far.value else y => false;
      var emitted, complete, log := Reachable(WalkFor(c.view, cl, fromSource), cl.hops, [seed], stop);
      reached := if far.None? then emitted else if complete then [] else [far.value];
      WalkRows(c.view, cl, fromSource, bindings, seed, reached);
    }

    // A closure needs an end to start from. With neither bound, or a constant the dictionary
    // lacks, the run is given up. A graph the dictionary lacks is excluded by `ItemOk`.
    method ProbeClosure(cl: ClosureItem, rest: seq<Item>, pending: seq<nat>) returns (ghost sols: seq<Solution>)
      requires c.view.Valid() && ItemOk(c.view, plan.filters, ClosureStep(cl))
      requires Ready(c.view, plan.filters, rest, pending)
      requires !abandoned && sinceCheck < TOKEN_CHECK_INTERVAL
      modifies this
      ensures Delivered(rest, pending, JoinOne(old(bindings), ItemBag(c.view, ClosureStep(cl))), sols)
      ensures Keeps(Calm(c.view, rest) && CalmItem(c.view, ClosureStep(cl)), 0)
      decreases TotalSize(rest), 7
    {
      sols := [];
      LoopStart(c, plan, rest, pending, JoinOne(bindings, ItemBag(c.view, ClosureStep(cl))), State());
      if SlotIn(c.view, bindings, cl.source).Missing? || SlotIn(c.view, bindings, cl.target).Missing? {
        abandoned := true;
        return;
      }
      if cl.link !in c.view.dict {
        sols := ClosureZeroOnly(cl, rest, pending);
        return;
      }
      var s, t := EndOf(bindings, cl.source), EndOf(bindings, cl.target);
      if s.None? && t.None? {
        abandoned := true;
        return;
      }
      var fromSource := s.Some?;
      var seed := if fromSource then s.value else t.value;
      var far := if fromSource then cl.target else cl.source;
      var admissible := ZeroLengthAdmissible(cl, seed);
      if !admissible {
        InadmissibleNothing(c.view, cl, fromSource, bindings, seed);
        return;
      }
      var reached := WalkFrom(cl, fromSource, seed);
      sols := GoOnFrom(cl, far, reached, rest, pending);
    }

    // The first optional, with nothing required left: try its items, and if nothing came of them go on
    // without. Whether it matched is read off `completions`, which a dropped row moves too.
    method StepOptional(todo: seq<Item>, later: seq<nat>) returns (ghost sols: seq<Solution>)
      requires c.view.Valid() && OptionalsOnly(todo) && Undecided(plan.filters, later, bindings)
      requires Ready(c.view, plan.filters, todo, later)
      requires !Full(plan, State())
      requires !abandoned && sinceCheck < TOKEN_CHECK_INTERVAL
      modifies this
      ensures Delivered(todo, later, [old(bindings)], sols)
      ensures Keeps(Calm(c.view, todo), 0)
      decreases TotalSize(todo), 0
    {
      var o, rest := todo[0].optional, todo[1..];
      ghost var base, before := bindings, State();
      ReadyOptional(c.view, plan.filters, todo, later);
      SizeAppend(o.items, rest);
      assert TotalSize(todo) == ItemSize(todo[0]) + TotalSize(rest);
      if Calm(c.view, todo) {
        CalmOptional(c.view, todo);
      }
      var count := completions;
      sols := Step(o.items + rest, later + o.filters);
      OptionalTried(c, plan, todo, later, base, before, State(), sols, !abandoned);
      if abandoned {
        return;
      }
      if completions == count {
        sols := Step(rest, later);
        OptionalSkipped(c, plan, todo, later, base, before, State(), sols, !abandoned);
      }
    }

    // What is left of the plan, from the bindings made so far.
    method Step(todo: seq<Item>, pending: seq<nat>) returns (ghost sols: seq<Solution>)
      requires c.view.Valid()
      requires Ready(c.view, plan.filters, todo, pending)
      requires sinceCheck < TOKEN_CHECK_INTERVAL
      modifies this
      ensures Delivered(todo, pending, [old(bindings)], sols)
      ensures !old(abandoned) ==> Keeps(Calm(c.view, todo), 0)
      decreases TotalSize(todo), 2
    {
      sols := [];
      var stop := Done();
      if stop {
        LoopStart(c, plan, todo, pending, [bindings], State());
        return;
      }
      FiltersInRange(c.view, plan.filters, todo, pending);
      var pass, later := Screen(pending);
      if !pass {
        StepRejected(c, plan, todo, pending, bindings, State());
        return;
      }
      StillPendingMembers(plan.filters, pending, bindings.Keys);
      ReadyLater(c.view, plan.filters, todo, pending, later);
      ghost var base, before := bindings, State();
      sols := StepOn(todo, later);
      StepScreened(c, plan, todo, pending, base, before, State(), sols, !abandoned);
    }

    // The rest of a step, once the filters that were ready have passed.
    method StepOn(todo: seq<Item>, later: seq<nat>) returns (ghost sols: seq<Solution>)
      requires c.view.Valid() && Within(cap, out, seen, 0)
      requires Ready(c.view, plan.filters, todo, later)
      requires Undecided(plan.filters, later, bindings)
      requires !abandoned && sinceCheck < TOKEN_CHECK_INTERVAL
      modifies this
      ensures Delivered(todo, later, [old(bindings)], sols)
      ensures Keeps(Calm(c.view, todo), 1)
      decreases TotalSize(todo), 1
    {
      ghost var base, before := bindings, State();
      var full := ReachedLimit();
      if full {
        sols := Meaning(c, plan.filters, todo, later, [base]);
        StepFull(c, plan, todo, later, base, before);
        return;
      }
      var choice := Cheapest(todo);
      if choice.None? {
        EmitRow();
        sols := [base];
        StepEmitted(c, plan, later, base, before);
        return;
      }
      var i := choice.value;
      SizeWithout(todo, i);
      if todo[i].OptionalStep? {
        sols := StepOptional(todo, later);
        return;
      }
      ReadyWithout(c.view, plan.filters, todo, i, later);
      sols := StepRequired(todo, i, later);
      LoopTake(c, plan, todo, i, later, base, before, State(), sols, !abandoned);
    }

    // The chosen item, by kind.
    method StepRequired(todo: seq<Item>, i: nat, later: seq<nat>) returns (ghost sols: seq<Solution>)
      requires c.view.Valid() && i < |todo| && !todo[i].OptionalStep?
      requires Ready(c.view, plan.filters, todo, later)
      requires Ready(c.view, plan.filters, Without(todo, i), later)
      requires !abandoned && sinceCheck < TOKEN_CHECK_INTERVAL
      modifies this
      ensures Delivered(Without(todo, i), later, JoinOne(old(bindings), ItemBag(c.view, todo[i])), sols)
      ensures Keeps(Calm(c.view, todo), 0)
      decreases TotalSize(todo), 0
    {
      var rest := Without(todo, i);
      SizeWithout(todo, i);
      ReadyItem(c.view, plan.filters, todo, i, later);
      if Calm(c.view, todo) {
        CalmWithout(c.view, todo, i);
      }
      match todo[i] {
        case PatternStep(pattern) => sols := Probe(pattern, rest, later);
        case UnionStep(branches) =>
          UnionJoin(c.view, bindings, branches);
          sols := StepUnion(todo, i, later);
        case ValuesStep(vars, rows) =>
          ValuesJoin(bindings, vars, rows);
          sols := RowsOfValues(vars, rows, rest, later);
        case ClosureStep(cl) => sols := ProbeClosure(cl, rest, later);
      }
    }
  }
}
