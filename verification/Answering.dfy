/**
 A whole query through the bind join (crates/holos-engine/src/bindjoin.rs, `plan`, `finish` and
 `evaluate`): the wrappers peeled, the plan made, the loop run. If rows come back they are an answer
 to the query as the algebra reads it.
 */
module Answering {
  import opened Locks
  import opened Options
  import opened Bags
  import opened Rdf
  import opened Solutions
  import opened Expressions
  import opened Algebra
  import opened Items
  import opened Scopes
  import opened Commuting
  import opened Emission
  import opened BindJoin
  import opened Planning
  import opened PlanMeaning
  import opened Designs
  import opened Collecting

  // --- What counts as an answer ----------------------------------------------------------------------------

  // The solutions a query may return, in some order the algebra leaves open: any enumeration of the
  // projected bag, deduplicated and sliced as the query says.
  ghost predicate Answers(c: Context, q: Pattern, ys: seq<Solution>) {
    match q
    case Distinct(i) => exists zs :: Answers(c, i, zs) && ys == Dedup(zs)
    case Slice(i, start, length) => exists zs :: Answers(c, i, zs) && ys == Sliced(zs, start, length)
    case _ => Same(ys, Eval(c, None, q))
  }

  // Nothing in a query but a slice makes its answer depend on the order.
  lemma {:induction false} AnswersAreEval(c: Context, q: Pattern, ys: seq<Solution>)
    requires Answers(c, q, ys) && NoSlice(q)
    ensures Same(ys, Eval(c, None, q))
  {
    match q
    case Distinct(i) =>
      var zs :| Answers(c, i, zs) && ys == Dedup(zs);
      AnswersAreEval(c, i, zs);
      forall z
        ensures z in zs <==> z in Eval(c, None, i)
      {
        SameMembers(zs, Eval(c, None, i), z);
      }
      DedupSame(zs, Eval(c, None, i));
    case _ =>
  }

  predicate NoSlice(q: Pattern) {
    match q
    case Distinct(i) => NoSlice(i)
    case Slice(_, _, _) => false
    case _ => true
  }

  // --- `closures_can_be_anchored` --------------------------------------------------------------------------

  function Elsewhere(items: seq<Item>, at: nat): set<Var>
    requires at < |items|
  {
    ItemsVars(items[..at]) + ItemsVars(items[at + 1..])
  }

  predicate Anchorable(end: Position, elsewhere: set<Var>) {
    end.T? || end.v in elsewhere
  }

  predicate ClosuresAnchored(items: seq<Item>) {
    forall at :: 0 <= at < |items| && items[at].ClosureStep? ==>
      Anchorable(items[at].closure.source, Elsewhere(items, at)) || Anchorable(items[at].closure.target, Elsewhere(items, at))
  }

  // --- `plan` ----------------------------------------------------------------------------------------------

  function Finish(i: Pattern, d: Collected, variables: seq<Var>, distinct: bool, offset: nat, limit: Option<nat>): Option<Plan> {
    if d.items == [] || (exists v :: v in variables && v !in BoundOf(i, InDefault).possible)
       || !WellDesigned(d.items, d.filters) || !ClosuresAnchored(d.items) then None
    else Some(Plan(d.items, d.filters, variables, distinct, offset, limit))
  }

  // The pattern under the wrappers.
  function Core(q: Pattern): Pattern {
    match q
    case Distinct(i) => Core(i)
    case Slice(i, _, _) => Core(i)
    case Project(i, _) => i
    case _ => q
  }

  // What the query selects, in order, and the modifiers around it.
  function Head(q: Pattern): seq<Var> {
    match q
    case Distinct(i) => Head(i)
    case Slice(i, _, _) => Head(i)
    case Project(_, keep) => keep
    case _ => []
  }

  predicate HasDistinct(q: Pattern) {
    match q
    case Distinct(_) => true
    case Slice(i, _, _) => HasDistinct(i)
    case _ => false
  }

  function OffsetOf(q: Pattern): nat {
    match q
    case Distinct(i) => OffsetOf(i)
    case Slice(i, start, length) => if start == 0 && length.None? then OffsetOf(i) else start
    case _ => 0
  }

  function LimitOf(q: Pattern): Option<nat> {
    match q
    case Distinct(i) => LimitOf(i)
    case Slice(i, start, length) => if start == 0 && length.None? then LimitOf(i) else length
    case _ => None
  }

  // A projection under DISTINCT alone.
  predicate Unsliced(q: Pattern) {
    match q
    case Distinct(i) => Unsliced(i)
    case Project(_, _) => true
    case _ => false
  }

  // A projection under DISTINCT, and at most one slice that cuts anything around that; slices that cut nothing may stand
  // around it too.
  predicate Wrapped(q: Pattern) {
    match q
    case Slice(i, start, length) => if start == 0 && length.None? then Wrapped(i) else Unsliced(i)
    case _ => Unsliced(q)
  }

  // What `finish` asks of the pattern under the wrappers.
  ghost predicate Plannable(i: Pattern, variables: seq<Var>) {
    var d := Collect(i, InDefault, 0);
    && d.Some? && d.value.items != []
    && (forall v :: v in variables ==> v in BoundOf(i, InDefault).possible)
    && WellDesigned(d.value.items, d.value.filters) && ClosuresAnchored(d.value.items)
  }

  function PlanOf(q: Pattern, distinct: bool, offset: nat, limit: Option<nat>): Option<Plan> {
    match q
    case Distinct(i) => PlanOf(i, true, offset, limit)
    case Slice(i, start, length) =>
      if offset != 0 || limit.Some? || distinct then None else PlanOf(i, distinct, start, length)
    case Project(i, keep) =>
      var d := Collect(i, InDefault, 0);
      if d.None? then None else Finish(i, d.value, keep, distinct, offset, limit)
    case _ => None
  }

  lemma {:induction false} PlanParts(q: Pattern, distinct: bool, offset: nat, limit: Option<nat>)
    ensures PlanOf(q, distinct, offset, limit).Some?
       <==> (if distinct || offset != 0 || limit.Some? then Unsliced(q) else Wrapped(q)) && Plannable(Core(q), Head(q))
    ensures PlanOf(q, distinct, offset, limit).Some? ==>
              var plan, d := PlanOf(q, distinct, offset, limit).value, Collect(Core(q), InDefault, 0).value;
              plan == Plan(d.items, d.filters, Head(q), distinct || HasDistinct(q),
                           if offset != 0 || limit.Some? then offset else OffsetOf(q),
                           if offset != 0 || limit.Some? then limit else LimitOf(q))
  {
    match q
    case Distinct(i) => PlanParts(i, true, offset, limit);
    case Slice(i, start, length) =>
      if offset == 0 && limit.None? && !distinct {
        PlanParts(i, distinct, start, length);
      }
    case _ =>
  }

  // The plan has the query's own columns in the query's order, its modifiers, and what is collected from the pattern they
  // wrap; and there is one exactly when the wrappers come in the one order their meaning allows and the pattern is plannable.
  method MakePlan(q: Pattern) returns (plan: Option<Plan>)
    ensures plan == PlanOf(q, false, 0, None)
    ensures plan.Some? <==> Wrapped(q) && Plannable(Core(q), Head(q))
    ensures plan.Some? ==>
              && plan.value.variables == Head(q) && plan.value.distinct == HasDistinct(q)
              && plan.value.offset == OffsetOf(q) && plan.value.limit == LimitOf(q)
              && Collect(Core(q), InDefault, 0) == Some(Collected(plan.value.items, plan.value.filters))
  {
    PlanParts(q, false, 0, None);
    var distinct, offset, limit: Option<nat> := false, 0, None;
    var node := q;
    while true
      invariant PlanOf(q, false, 0, None) == PlanOf(node, distinct, offset, limit)
      decreases node
    {
      match node {
        case Distinct(i) =>
          distinct := true;
          node := i;
        case Slice(i, start, length) =>
          if offset != 0 || limit.Some? {
            return None;
          }
          if distinct {
            return None;
          }
          offset, limit := start, length;
          node := i;
        case Project(i, keep) =>
          var collector := new Collector();
          var bound := collector.Collect(i, InDefault);
          if bound.None? {
            return None;
          }
          ghost var d := Planning.Collect(i, InDefault, 0).value;
          assert collector.items == d.items && collector.filters == d.filters;
          return Finish(i, Collected(collector.items, collector.filters), keep, distinct, offset, limit);
        case _ => return None;
      }
    }
  }

  // What the peeled modifiers make of a list, in the order the loop applies them.
  function Finished<T(==)>(zs: seq<T>, distinct: bool, offset: nat, limit: Option<nat>): seq<T> {
    Sliced(if distinct then Dedup(zs) else zs, offset, limit)
  }

  lemma {:induction false} DedupTwice<T>(xs: seq<T>)
    ensures Dedup(Dedup(xs)) == Dedup(xs)
  {
    if xs != [] {
      var init, last := xs[..|xs| - 1], xs[|xs| - 1];
      DedupTwice(init);
      DedupSet(init);
      if last !in Dedup(init) {
        var more := Dedup(init) + [last];
        assert more[..|more| - 1] == Dedup(init) && more[|more| - 1] == last;
      }
    }
  }

  // Peeling loses nothing: the plan's flat modifiers, applied to any enumeration of the core's bag, give
  // an answer to the query that was peeled.
  lemma {:induction false} PeelAnswers(c: Context, q: Pattern, distinct: bool, offset: nat, limit: Option<nat>, xs: seq<Solution>)
    returns (ys: seq<Solution>)
    requires PlanOf(q, distinct, offset, limit).Some? && Same(xs, Eval(c, None, Core(q)))
    ensures Answers(c, q, ys)
    ensures var plan := PlanOf(q, distinct, offset, limit).value;
            Finished(ys, distinct, offset, limit)
              == Finished(FlatMap(xs, Projected(plan.variables)), plan.distinct, plan.offset, plan.limit)
  {
    match q
    case Distinct(i) =>
      var zs := PeelAnswers(c, i, true, offset, limit, xs);
      ys := Dedup(zs);
      DedupTwice(zs);
    case Slice(i, start, length) =>
      var zs := PeelAnswers(c, i, distinct, start, length, xs);
      ys := Sliced(zs, start, length);
    case Project(i, keep) =>
      ys := FlatMap(xs, Projected(keep));
      FlatMapSame(xs, Eval(c, None, i), Projected(keep), Projected(keep));
  }

  // --- Rows and solutions ------------------------------------------------------------------------------------

  ghost predicate Narrow(variables: seq<Var>, zs: seq<Solution>) {
    forall z :: z in zs ==> z.Keys <= set v | v in variables
  }

  lemma RowIsInjective(variables: seq<Var>, a: Solution, b: Solution)
    requires a.Keys <= (set v | v in variables) && b.Keys <= (set v | v in variables)
    requires RowOf(variables, a) == RowOf(variables, b)
    ensures a == b
  {
    forall v | v in variables
      ensures (v in a <==> v in b) && (v in a ==> a[v] == b[v])
    {
      var i :| 0 <= i < |variables| && variables[i] == v;
      assert RowOf(variables, a)[i] == RowOf(variables, b)[i];
    }
  }

  lemma RowsAt(variables: seq<Var>, xs: seq<Solution>, ys: seq<Solution>)
    requires |xs| == |ys| && forall i :: 0 <= i < |xs| ==> RowOf(variables, xs[i]) == RowOf(variables, ys[i])
    ensures RowsOf(variables, xs) == RowsOf(variables, ys)
  {
  }

  lemma {:induction false} ProjectedAt(variables: seq<Var>, xs: seq<Solution>)
    ensures |FlatMap(xs, Projected(variables))| == |xs|
    ensures forall i :: 0 <= i < |xs| ==> FlatMap(xs, Projected(variables))[i] == Restrict(xs[i], set v | v in variables)
  {
    if xs != [] {
      ProjectedAt(variables, xs[1..]);
      var zs, rest := FlatMap(xs, Projected(variables)), FlatMap(xs[1..], Projected(variables));
      assert zs == [Restrict(xs[0], set v | v in variables)] + rest;
      forall i | 0 <= i < |xs|
        ensures zs[i] == Restrict(xs[i], set v | v in variables)
      {
        if i > 0 {
          assert zs[i] == rest[i - 1] && xs[i] == xs[1..][i - 1];
        }
      }
    }
  }

  lemma ProjectedRows(variables: seq<Var>, xs: seq<Solution>)
    ensures var zs := FlatMap(xs, Projected(variables));
            RowsOf(variables, zs) == RowsOf(variables, xs) && Narrow(variables, zs)
  {
    ProjectedAt(variables, xs);
    var zs := FlatMap(xs, Projected(variables));
    RowsAt(variables, zs, xs);
  }

  lemma RowsMember(variables: seq<Var>, zs: seq<Solution>, z: Solution)
    requires Narrow(variables, zs) && z.Keys <= set v | v in variables
    ensures RowOf(variables, z) in RowsOf(variables, zs) <==> z in zs
  {
    var rows := RowsOf(variables, zs);
    if RowOf(variables, z) in rows {
      var i :| 0 <= i < |rows| && rows[i] == RowOf(variables, z);
      RowIsInjective(variables, zs[i], z);
    }
    if z in zs {
      var i :| 0 <= i < |zs| && zs[i] == z;
      assert rows[i] == RowOf(variables, z);
    }
  }

  // Removing duplicate rows is removing duplicate solutions.
  lemma {:induction false} DedupRows(variables: seq<Var>, zs: seq<Solution>)
    requires Narrow(variables, zs)
    ensures Dedup(RowsOf(variables, zs)) == RowsOf(variables, Dedup(zs)) && Narrow(variables, Dedup(zs))
  {
    if zs != [] {
      var init, last := zs[..|zs| - 1], zs[|zs| - 1];
      var rows := RowsOf(variables, zs);
      DedupRows(variables, init);
      DedupSet(init);
      assert rows[..|rows| - 1] == RowsOf(variables, init);
      RowsMember(variables, Dedup(init), last);
      RowsSnoc(variables, Dedup(init), last);
    }
  }

  lemma RowsFinished(variables: seq<Var>, zs: seq<Solution>, distinct: bool, offset: nat, limit: Option<nat>)
    requires Narrow(variables, zs)
    ensures Finished(RowsOf(variables, zs), distinct, offset, limit) == RowsOf(variables, Finished(zs, distinct, offset, limit))
  {
    DedupRows(variables, zs);
    SlicedRows(variables, if distinct then Dedup(zs) else zs, offset, limit);
  }

  lemma SlicedRows(variables: seq<Var>, zs: seq<Solution>, offset: nat, limit: Option<nat>)
    ensures Sliced(RowsOf(variables, zs), offset, limit) == RowsOf(variables, Sliced(zs, offset, limit))
  {
    var rows, cut := Sliced(RowsOf(variables, zs), offset, limit), Sliced(zs, offset, limit);
    assert |rows| == |cut|;
    forall i | 0 <= i < |cut|
      ensures rows[i] == RowOf(variables, cut[i])
    {
    }
  }

  // --- The loop meets its preconditions ------------------------------------------------------------------------

  ghost predicate AllOk(view: View, fs: seq<FilterEntry>, items: seq<Item>) {
    forall x :: x in items ==> ItemOk(view, fs, x)
  }

  // Every index a collected optional holds, however deep, is below the number of filters collected in all.
  lemma {:induction false} CollectOk(view: View, p: Pattern, scope: Scope, first: nat, fs: seq<FilterEntry>)
    requires Collect(p, scope, first).Some? && Supported(view, p, scope, first) && first + Hoisted(p) <= |fs|
    ensures AllOk(view, fs, Collect(p, scope, first).value.items)
    decreases p, 0
  {
    match p
    case Join(l, r) =>
      HoistedCount(l, scope, first);
      CollectOk(view, l, scope, first, fs);
      CollectOk(view, r, scope, first + Hoisted(l), fs);
    case LeftJoin(l, r, condition) =>
      CollectOk(view, l, scope, first, fs);
      CollectOk(view, r, scope, 0, fs);
      HoistedCount(l, scope, first);
      HoistedCount(r, scope, 0);
      OptionalOk(view, l, r, condition, scope, first, fs);
    case Filter(_, i) => CollectOk(view, i, scope, first, fs);
    case Graph(name, i) => CollectOk(view, i, ScopeOf(name), first, fs);
    case Project(i, _) => ProjectOk(view, i, scope, first, fs);
    case _ =>
  }

  lemma {:induction false} ProjectOk(view: View, i: Pattern, scope: Scope, first: nat, fs: seq<FilterEntry>)
    requires Collect(i, scope, 0).Some? && Supported(view, i, scope, first) && first + Hoisted(i) <= |fs| && (first == 0 || BareOptionals(i))
    ensures AllOk(view, fs, Collect(i, scope, 0).value.items)
    decreases i, 1
  {
    if first != 0 {
      CollectNoIndex(i, scope, 0, first);
    }
    CollectOk(view, i, scope, first, fs);
  }

  lemma OptionalOk(view: View, l: Pattern, r: Pattern, condition: Option<Expr>, scope: Scope, first: nat, fs: seq<FilterEntry>)
    requires Collect(LeftJoin(l, r, condition), scope, first).Some? && first + Hoisted(LeftJoin(l, r, condition)) <= |fs|
    requires AllOk(view, fs, Collect(l, scope, first).value.items) && AllOk(view, fs, Collect(r, scope, 0).value.items)
    requires |Collect(l, scope, first).value.filters| == Hoisted(l) && |Collect(r, scope, 0).value.filters| == Hoisted(r)
    ensures AllOk(view, fs, Collect(LeftJoin(l, r, condition), scope, first).value.items)
  {
    var a, b := Collect(l, scope, first).value, Collect(r, scope, 0).value;
    var o := OptionalOf(l, r, condition, scope, b, first + |a.filters|);
    assert ItemOk(view, fs, OptionalStep(o));
  }

  // --- The answer ----------------------------------------------------------------------------------------------

  lemma PlanCore(q: Pattern, distinct: bool, offset: nat, limit: Option<nat>)
    requires PlanOf(q, distinct, offset, limit).Some?
    ensures var plan, d := PlanOf(q, distinct, offset, limit).value, Collect(Core(q), InDefault, 0);
            d == Some(Collected(plan.items, plan.filters)) && AllApart(plan.items)
    decreases q
  {
    match q
    case Distinct(i) => PlanCore(i, true, offset, limit);
    case Slice(i, start, length) => PlanCore(i, distinct, start, length);
    case Project(i, _) => CollectedApart(i, InDefault, 0);
    case _ =>
  }

  lemma CoreMeaning(c: Context, q: Pattern)
    requires PlanOf(q, false, 0, None).Some? && Supported(c.view, Core(q), InDefault, 0)
    ensures var plan := PlanOf(q, false, 0, None).value;
            Same(Meaning(c, plan.filters, plan.items, Unowned(0, |plan.filters|, Owned(plan.items)), [map[]]), Eval(c, None, Core(q)))
  {
    var plan := PlanOf(q, false, 0, None).value;
    var d := Collected(plan.items, plan.filters);
    PlanCore(q, false, 0, None);
    PlacedAll(d.filters);
    CollectMeans(c, Core(q), InDefault, 0, d.filters);
    Opened(d.filters, Core(q), InDefault, d, 0);
    DenotedIsMeaning(c, d.filters, d, 0);
  }

  // Whatever the loop emitted in whatever order it chose, its rows are an answer to the query.
  lemma EmittedAnswers(c: Context, q: Pattern, sols: seq<Solution>)
    requires PlanOf(q, false, 0, None).Some? && Supported(c.view, Core(q), InDefault, 0)
    requires var plan := PlanOf(q, false, 0, None).value;
             Same(sols, Meaning(c, plan.filters, plan.items, Unowned(0, |plan.filters|, Owned(plan.items)), [map[]]))
    ensures var plan := PlanOf(q, false, 0, None).value;
            exists ys :: Answers(c, q, ys) && EmitAll(plan, NOTHING_YET, sols).out == RowsOf(plan.variables, ys)
  {
    var plan := PlanOf(q, false, 0, None).value;
    CoreMeaning(c, q);
    var ys := PeelAnswers(c, q, false, 0, None, sols);
    EmittedIsSliced(plan, sols);
    ProjectedRows(plan.variables, sols);
    RowsFinished(plan.variables, FlatMap(sols, Projected(plan.variables)), plan.distinct, plan.offset, plan.limit);
    assert Finished(ys, false, 0, None) == ys;
  }

  lemma QueryReady(c: Context, q: Pattern)
    requires PlanOf(q, false, 0, None).Some? && Supported(c.view, Core(q), InDefault, 0)
    ensures var plan := PlanOf(q, false, 0, None).value;
            Ready(c.view, plan.filters, plan.items, Unowned(0, |plan.filters|, Owned(plan.items)))
  {
    PlanCore(q, false, 0, None);
    HoistedCount(Core(q), InDefault, 0);
    CollectOk(c.view, Core(q), InDefault, 0, PlanOf(q, false, 0, None).value.filters);
  }

  // Rows that some answer to the query projects to.
  ghost predicate AnswerRows(c: Context, q: Pattern, variables: seq<Var>, rows: seq<Row>) {
    exists ys :: Answers(c, q, ys) && rows == RowsOf(variables, ys)
  }

  lemma LoopAnswers(c: Context, q: Pattern, plan: Plan, now: Progress, sols: seq<Solution>)
    requires PlanOf(q, false, 0, None) == Some(plan) && Supported(c.view, Core(q), InDefault, 0)
    requires LoopAt(c, plan, plan.items, Unowned(0, |plan.filters|, Owned(plan.items)), [map[]], NOTHING_YET, now, sols, true)
    ensures AnswerRows(c, q, plan.variables, now.out)
  {
    assert Unlock(Key);
    EmittedAnswers(c, q, sols);
  }

  // --- What a run can hold -------------------------------------------------------------------------------------

  // The rows kept and seen of so many solutions.
  function Held(distinct: bool, limit: Option<nat>, n: nat): nat {
    (if limit.Some? && limit.value < n then limit.value else n) + if distinct then n else 0
  }

  lemma {:induction false} EmitHolds(plan: Plan, st: Progress, xs: seq<Solution>)
    requires plan.limit.Some? ==> |st.out| <= plan.limit.value
    ensures var end := EmitAll(plan, st, xs);
            && |st.out| <= |end.out| <= |st.out| + |xs| && (plan.limit.Some? ==> |end.out| <= plan.limit.value)
            && |end.seen| <= |st.seen| + (if plan.distinct then |xs| else 0)
            && |end.out| - |st.out| <= end.completions - st.completions
    decreases |xs|
  {
    if xs != [] && !Full(plan, st) {
      EmitHolds(plan, Emit(plan, st, xs[0]), xs[1..]);
    }
  }

  lemma PartSize<T>(xs: seq<T>, ys: seq<T>)
    requires multiset(xs) <= multiset(ys)
    ensures |xs| <= |ys|
  {
    var rest := multiset(ys) - multiset(xs);
    assert multiset(ys) == multiset(xs) + rest;
    assert |multiset(xs)| == |xs| && |multiset(ys)| == |ys|;
  }

  // A run over a query holds no more than its solutions account for, given up or not.
  lemma LoopHolds(c: Context, q: Pattern, plan: Plan, now: Progress, sols: seq<Solution>, whole: bool)
    requires PlanOf(q, false, 0, None) == Some(plan) && Supported(c.view, Core(q), InDefault, 0)
    requires LoopAt(c, plan, plan.items, Unowned(0, |plan.filters|, Owned(plan.items)), [map[]], NOTHING_YET, now, sols, whole)
    ensures |now.out| + |now.seen| <= Held(plan.distinct, plan.limit, |Eval(c, None, Core(q))|)
    ensures |now.out| <= now.completions
  {
    var owed := Meaning(c, plan.filters, plan.items, Unowned(0, |plan.filters|, Owned(plan.items)), [map[]]);
    CoreMeaning(c, q);
    SameLength(owed, Eval(c, None, Core(q)));
    assert OfThose(sols, owed, whole) && now == EmitAll(plan, NOTHING_YET, sols) by {
      assert Unlock(Key);
    }
    PartSize(sols, owed);
    EmitHolds(plan, NOTHING_YET, sols);
  }

  // One query, from its pattern to its rows. `None` sends the query elsewhere: the pattern is outside the
  // fragment, or the run was given up. Whatever comes back is an answer, in the query's own columns, however the loop
  // ordered its items, a little over the budget at most, and no reading of the token was due on the way that said to
  // stop. A query in the fragment with nothing unknown in it comes back unless the token says to stop, or its solutions
  // are too many for the budget.
  method Answer(c: Context, q: Pattern, cap: Option<nat>, cancelled: nat -> bool) returns (rows: Option<seq<Row>>)
    requires c.view.Valid() && (PlanOf(q, false, 0, None).Some? ==> Supported(c.view, Core(q), InDefault, 0))
    ensures rows.Some? ==> PlanOf(q, false, 0, None).Some? && AnswerRows(c, q, Head(q), rows.value)
    ensures rows.Some? ==> (cap.Some? ==> |rows.value| <= cap.value + 2) && SilentSoFar(cancelled, |rows.value| / 4096)
    ensures PlanOf(q, false, 0, None).Some? && Calm(c.view, PlanOf(q, false, 0, None).value.items) && rows.None? ==>
              || (exists k :: k > 0 && cancelled(k))
              || (cap.Some? && cap.value < Held(HasDistinct(q), LimitOf(q), |Eval(c, None, Core(q))|))
  {
    var made := MakePlan(q);
    if made.None? {
      return None;
    }
    var plan := made.value;
    QueryReady(c, q);
    var run := new Run(c, plan, cap, cancelled);
    assert Silent(cancelled, 0);
    ghost var sols := run.Step(plan.items, Unowned(0, |plan.filters|, Owned(plan.items)));
    LoopHolds(c, q, plan, run.State(), sols, !run.abandoned);
    if run.abandoned {
      return None;
    }
    LoopAnswers(c, q, plan, run.State(), sols);
    rows := Some(run.out);
    assert |run.out| / 4096 <= run.readings;
    assert Unlock(Key);
  }
}
