/**
 A group's input, computed once by the bind join and given to the evaluator as a VALUES table
 (crates/holos-engine/src/group.rs).
 */
module GroupTables {
  import opened Options
  import opened Bags
  import opened Rdf
  import opened Solutions
  import opened Expressions
  import opened Algebra
  import opened Items
  import opened Scopes
  import opened Emission
  import opened Planning
  import opened PlanMeaning
  import opened Answering
  import opened Congruence
  import Equality
  import BindJoin
  import BoundJoin

  // What the top-level GROUP BY aggregates over; the flag says that it has no key.
  function GroupInput(p: Pattern): Option<(Pattern, bool)> {
    match p
    case Group(i, keys, _) => Some((i, keys == []))
    case Project(i, _) => GroupInput(i)
    case Distinct(i) => GroupInput(i)
    case Slice(i, _, _) => GroupInput(i)
    case OrderBy(i) => GroupInput(i)
    case Filter(_, i) => GroupInput(i)
    case Extend(i, _, _) => GroupInput(i)
    case _ => None
  }

  function ReplaceGroupInput(p: Pattern, table: Pattern): Pattern {
    match p
    case Group(_, keys, aggregate) => Group(table, keys, aggregate)
    case Project(i, keep) => Project(ReplaceGroupInput(i, table), keep)
    case Distinct(i) => Distinct(ReplaceGroupInput(i, table))
    case Slice(i, start, length) => Slice(ReplaceGroupInput(i, table), start, length)
    case OrderBy(i) => OrderBy(ReplaceGroupInput(i, table))
    case Filter(e, i) => Filter(e, ReplaceGroupInput(i, table))
    case Extend(i, v, e) => Extend(ReplaceGroupInput(i, table), v, e)
    case _ => p
  }

  // The table stands where the input stood, and nothing else has moved: put the input back and the query is as it was.
  lemma {:induction false} ReplacedOnly(p: Pattern, table: Pattern)
    requires GroupInput(p).Some?
    ensures GroupInput(ReplaceGroupInput(p, table)) == Some((table, GroupInput(p).value.1))
    ensures ReplaceGroupInput(ReplaceGroupInput(p, table), GroupInput(p).value.0) == p
  {
    match p
    case Group(_, _, _) =>
    case Project(i, _) => ReplacedOnly(i, table);
    case Distinct(i) => ReplacedOnly(i, table);
    case Slice(i, _, _) => ReplacedOnly(i, table);
    case OrderBy(i) => ReplacedOnly(i, table);
    case Filter(_, i) => ReplacedOnly(i, table);
    case Extend(i, _, _) => ReplacedOnly(i, table);
  }

  predicate IsOneScan(p: Pattern) {
    match p
    case Bgp(ts) => |ts| == 1
    case Graph(_, i) => IsOneScan(i)
    case _ => false
  }

  // The group is looked for through these six and no other, and is found whatever it aggregates.
  lemma GroupReached(p: Pattern)
    ensures p.Group? ==> GroupInput(p) == Some((p.inner, p.keys == []))
    ensures p.Project? || p.Distinct? || p.Slice? || p.OrderBy? || p.Filter? || p.Extend? ==> GroupInput(p) == GroupInput(p.inner)
    ensures GroupInput(p).Some? ==> p.Group? || p.Project? || p.Distinct? || p.Slice? || p.OrderBy? || p.Filter? || p.Extend?
    ensures IsOneScan(p) <==> (exists t :: p == Bgp([t])) || (p.Graph? && IsOneScan(p.inner))
  {
    if IsOneScan(p) && p.Bgp? {
      assert p == Bgp([p.triples[0]]);
    }
  }

  // --- The same bag in, the same answers out -------------------------------------------------------------------

  lemma {:induction false} ReplacedSame(c: Context, p: Pattern, table: Pattern)
    requires GroupInput(p).Some? && NoSliceAbove(p)
    requires Same(Eval(c, None, table), Eval(c, None, GroupInput(p).value.0))
    ensures Same(Eval(c, None, ReplaceGroupInput(p, table)), Eval(c, None, p))
  {
    match p
    case Group(i, keys, aggregate) => GroupSame(Eval(c, None, table), Eval(c, None, i), keys, aggregate);
    case Project(i, keep) =>
      ReplacedSame(c, i, table);
      FlatMapSame(Eval(c, None, ReplaceGroupInput(i, table)), Eval(c, None, i), Projected(keep), Projected(keep));
    case Distinct(i) =>
      ReplacedSame(c, i, table);
      DistinctSame(Eval(c, None, ReplaceGroupInput(i, table)), Eval(c, None, i));
    case OrderBy(i) => ReplacedSame(c, i, table);
    case Filter(e, i) =>
      ReplacedSame(c, i, table);
      SelectSame(Eval(c, None, ReplaceGroupInput(i, table)), Eval(c, None, i), Keeps(c.rules, e));
    case Extend(i, v, e) =>
      ReplacedSame(c, i, table);
      FlatMapSame(Eval(c, None, ReplaceGroupInput(i, table)), Eval(c, None, i), Extended(c.rules, v, e), Extended(c.rules, v, e));
  }

  // No slice between here and the group.
  predicate NoSliceAbove(p: Pattern) {
    match p
    case Project(i, _) => NoSliceAbove(i)
    case Distinct(i) => NoSliceAbove(i)
    case OrderBy(i) => NoSliceAbove(i)
    case Filter(_, i) => NoSliceAbove(i)
    case Extend(i, _, _) => NoSliceAbove(i)
    case Slice(_, _, _) => false
    case _ => true
  }

  predicate SlicedAtTop(p: Pattern) {
    match p
    case Distinct(i) => SlicedAtTop(i)
    case Slice(i, _, _) => SlicedAtTop(i)
    case _ => NoSliceAbove(p)
  }

  lemma {:induction false} ReplacedAnswers(c: Context, p: Pattern, table: Pattern, ys: seq<Solution>)
    requires GroupInput(p).Some? && SlicedAtTop(p)
    requires Same(Eval(c, None, table), Eval(c, None, GroupInput(p).value.0))
    ensures Answers(c, ReplaceGroupInput(p, table), ys) <==> Answers(c, p, ys)
  {
    match p
    case Distinct(i) =>
      forall zs
        ensures Answers(c, ReplaceGroupInput(i, table), zs) <==> Answers(c, i, zs)
      {
        ReplacedAnswers(c, i, table, zs);
      }
    case Slice(i, _, _) =>
      forall zs
        ensures Answers(c, ReplaceGroupInput(i, table), zs) <==> Answers(c, i, zs)
      {
        ReplacedAnswers(c, i, table, zs);
      }
    case _ => ReplacedPlain(c, p, table, ys);
  }

  lemma ReplacedPlain(c: Context, p: Pattern, table: Pattern, ys: seq<Solution>)
    requires GroupInput(p).Some? && NoSliceAbove(p) && !p.Distinct? && !p.Slice?
    requires Same(Eval(c, None, table), Eval(c, None, GroupInput(p).value.0))
    ensures Answers(c, ReplaceGroupInput(p, table), ys) <==> Answers(c, p, ys)
  {
    ReplacedSame(c, p, table);
    ReplacedShape(p, table);
  }

  lemma ReplacedShape(p: Pattern, table: Pattern)
    requires GroupInput(p).Some? && !p.Distinct? && !p.Slice?
    ensures !ReplaceGroupInput(p, table).Distinct? && !ReplaceGroupInput(p, table).Slice?
  {
  }

  // --- The table -------------------------------------------------------------------------------------------------

  function InScope(p: Pattern): set<Var> {
    match p
    case Bgp(ts) => TriplesVars(ts)
    case Path(s, _, o) => PositionVars(s) + PositionVars(o)
    case Values(vars, _) => set v | v in vars
    case Join(l, r) => InScope(l) + InScope(r)
    case LeftJoin(l, r, _) => InScope(l) + InScope(r)
    case Union(l, r) => InScope(l) + InScope(r)
    case Minus(l, _) => InScope(l)
    case Filter(_, i) => InScope(i)
    case Graph(name, i) => PositionVars(name) + InScope(i)
    case Extend(i, v, _) => InScope(i) + {v}
    case Project(_, keep) => set v | v in keep
    case Distinct(i) => InScope(i)
    case OrderBy(i) => InScope(i)
    case Slice(i, _, _) => InScope(i)
    case Group(_, keys, _) => set v | v in keys
    case Service(_, i) => InScope(i)
  }

  lemma {:induction false} BranchInScope(ts: seq<TriplePattern>, scope: Scope)
    ensures BranchVars(TaggedWith(ts, scope)) <= TriplesVars(ts) + ScopeVars(scope)
  {
    if ts != [] {
      BranchInScope(ts[1..], scope);
      assert TaggedWith(ts, scope)[1..] == TaggedWith(ts[1..], scope);
    }
  }

  // What a collected pattern may bind is in scope.
  lemma {:induction false} PossibleInScope(p: Pattern, scope: Scope, first: nat)
    requires Collect(p, scope, first).Some?
    ensures BoundOf(p, scope).possible <= InScope(p) + ScopeVars(scope)
  {
    match p
    case Bgp(ts) => BranchInScope(ts, scope);
    case Join(l, r) =>
      PossibleInScope(l, scope, first);
      PossibleInScope(r, scope, first + |Collect(l, scope, first).value.filters|);
    case LeftJoin(l, r, _) =>
      PossibleInScope(l, scope, first);
      PossibleInScope(r, scope, 0);
    case Union(_, _) => BranchesInScope(p, scope);
    case Filter(_, i) => PossibleInScope(i, scope, first);
    case Graph(name, i) => PossibleInScope(i, ScopeOf(name), first);
    case Project(i, _) => PossibleInScope(i, scope, 0);
    case _ =>
  }

  // And so is what it binds without counting it.
  lemma {:induction false} LeakedInScope(view: View, p: Pattern, scope: Scope, first: nat)
    requires Supported(view, p, scope, first)
    ensures Leaked(p) <= InScope(p)
  {
    match p
    case Join(l, r) =>
      LeakedInScope(view, l, scope, first);
      LeakedInScope(view, r, scope, first + Hoisted(l));
    case Filter(_, i) => LeakedInScope(view, i, scope, first);
    case Graph(name, i) => LeakedInScope(view, i, ScopeOf(name), first);
    case _ =>
  }

  lemma {:induction false} BranchesInScope(p: Pattern, scope: Scope)
    requires UnionBranches(p, scope).Some?
    ensures BoundOf(p, scope).possible <= InScope(p) + ScopeVars(scope)
  {
    match p
    case Union(l, r) => BranchesInScope(l, scope); BranchesInScope(r, scope);
    case Graph(name, i) => BranchesInScope(i, ScopeOf(name));
    case Bgp(ts) => BranchInScope(ts, scope);
  }

  lemma RowTail(vars: seq<Var>, s: Solution)
    requires vars != []
    ensures RowOf(vars, s)[0] == (if vars[0] in s then Some(s[vars[0]]) else None) && RowOf(vars, s)[1..] == RowOf(vars[1..], s)
  {
  }

  function Named(vars: seq<Var>): set<Var> {
    set v | v in vars
  }

  lemma NamedTail(acc: Solution, vars: seq<Var>, s: Solution)
    requires vars != [] && forall v :: v in acc ==> v in s && acc[v] == s[v]
    ensures var next := if vars[0] in s then acc[vars[0] := s[vars[0]]] else acc;
            next + Restrict(s, Named(vars[1..])) == acc + Restrict(s, Named(vars))
  {
    assert Named(vars) == {vars[0]} + Named(vars[1..]);
  }

  lemma RowStep(acc: Solution, vars: seq<Var>, s: Solution)
    requires vars != [] && forall v :: v in acc ==> v in s && acc[v] == s[v]
    ensures var next := if vars[0] in s then acc[vars[0] := s[vars[0]]] else acc;
            RowFrom(Some(acc), vars, RowOf(vars, s)) == RowFrom(Some(next), vars[1..], RowOf(vars[1..], s))
  {
    RowTail(vars, s);
    var next := if vars[0] in s then acc[vars[0] := s[vars[0]]] else acc;
    var cell := RowOf(vars, s)[0];
    assert (if cell.None? then Some(acc) else BindTo(Some(acc), V(vars[0]), cell.value)) == Some(next) by {
      if vars[0] in acc {
        assert next == acc;
      }
    }
  }

  // A row read back as a solution, UNDEF included.
  lemma {:induction false} RowBack(acc: Solution, vars: seq<Var>, s: Solution)
    requires forall v :: v in acc ==> v in s && acc[v] == s[v]
    ensures RowFrom(Some(acc), vars, RowOf(vars, s)) == Some(acc + Restrict(s, Named(vars)))
    decreases |vars|
  {
    if vars == [] {
      assert acc + Restrict(s, Named(vars)) == acc;
    } else {
      RowStep(acc, vars, s);
      NamedTail(acc, vars, s);
      RowBack(if vars[0] in s then acc[vars[0] := s[vars[0]]] else acc, vars[1..], s);
    }
  }

  lemma {:induction false} TableBack(vars: seq<Var>, zs: seq<Solution>)
    requires Narrow(vars, zs)
    ensures ValuesBag(vars, RowsOf(vars, zs)) == zs
  {
    if zs != [] {
      var init, last := zs[..|zs| - 1], zs[|zs| - 1];
      assert zs == init + [last];
      TableBack(vars, init);
      RowsSnoc(vars, init, last);
      FlatMapSnoc(RowsOf(vars, init), RowOf(vars, last), RowBag(map[], vars));
      RowBack(map[], vars, last);
      var none: Solution := map[];
      assert none + Restrict(last, Named(vars)) == last;
    }
  }

  // The rows of an answer, as a table, are the bag that was asked for.
  lemma TableSame(c: Context, i: Pattern, variables: seq<Var>, rows: seq<Row>)
    requires AnswerRows(c, Project(i, variables), variables, rows)
    requires forall x :: x in Eval(c, None, i) ==> x.Keys <= set v | v in variables
    ensures Same(Eval(c, None, Values(variables, rows)), Eval(c, None, i))
  {
    var ys :| Answers(c, Project(i, variables), ys) && rows == RowsOf(variables, ys);
    ProjectNothing(Eval(c, None, i), variables);
    ProjectedEval(c, i, variables, ys);
    forall y: Solution | y in ys
      ensures y.Keys <= set v | v in variables
    {
      SameMembers(ys, Eval(c, None, i), y);
    }
    TableBack(variables, ys);
  }

  lemma ProjectedEval(c: Context, i: Pattern, variables: seq<Var>, ys: seq<Solution>)
    requires Answers(c, Project(i, variables), ys) && FlatMap(Eval(c, None, i), Projected(variables)) == Eval(c, None, i)
    ensures Same(ys, Eval(c, None, i))
  {
  }

  lemma InputInScope(c: Context, i: Pattern, variables: seq<Var>)
    requires PlanOf(Project(i, variables), false, 0, None).Some? && Supported(c.view, i, InDefault, 0)
    requires forall v :: v in InScope(i) ==> v in variables
    ensures forall x :: x in Eval(c, None, i) ==> x.Keys <= set v | v in variables
  {
    var q := Project(i, variables);
    var plan := PlanOf(q, false, 0, None).value;
    var d := Collected(plan.items, plan.filters);
    PlanCore(q, false, 0, None);
    PlacedAll(d.filters);
    CollectMeans(c, i, InDefault, 0, d.filters);
    MeansBinds(c, d.filters, i, InDefault, d, 0);
    PossibleInScope(i, InDefault, 0);
    LeakedInScope(c.view, i, InDefault, 0);
    assert EvalIn(c, InDefault, i) == Eval(c, None, i);
  }

  // Whether a table can carry the rows: no blank node in any.
  predicate Carries(rows: seq<Row>) {
    forall i, j :: 0 <= i < |rows| && 0 <= j < |rows[i]| && rows[i][j].Some? ==> BoundJoin.Sendable(rows[i][j].value)
  }

  // The bind join has a plan for the group's input, with its variables in some order.
  ghost predicate Planned(i: Pattern) {
    exists vs: seq<Var> :: PlanOf(Project(i, vs), false, 0, None).Some? && forall v :: v in vs <==> v in InScope(i)
  }

  // What stands in for the input: a table of its rows over the variables in scope, one row for each solution; or, where a
  // keyless group has no input, a pattern nothing matches.
  ghost predicate Stands(c: Context, i: Pattern, keyless: bool, table: Pattern) {
    || (table.Values? && (forall v :: v in table.vars <==> v in InScope(i)) && AnswerRows(c, Project(i, table.vars), table.vars, table.rows)
        && Carries(table.rows) && !(keyless && table.rows == []))
    || (keyless && Eval(c, None, i) == [] && Equality.Nothing(c.view.dict) == Some(table))
  }

  // The input has its rows whenever it is worth a table, the bind join takes it with nothing unknown in it and the token
  // silent, and there are no more of them than the budget.
  ghost predicate Tabled(c: Context, i: Pattern, estimate: Option<nat>, budget: nat, cancelled: nat -> bool) {
    && !IsOneScan(i) && (estimate.Some? ==> estimate.value <= budget) && Planned(i)
    && BindJoin.Calm(c.view, Collect(i, InDefault, 0).value.items) && (forall k :: k > 0 ==> !cancelled(k)) && |Eval(c, None, i)| <= budget
  }

  // And they can be written down: no blank node in any, and something to write where there are none.
  ghost predicate Writable(c: Context, i: Pattern, keyless: bool) {
    && AllSendable(Eval(c, None, i))
    && (keyless && Eval(c, None, i) == [] ==> Equality.Nothing(c.view.dict).Some?)
  }

  lemma PlannedWith(i: Pattern, variables: seq<Var>)
    requires Planned(i) && forall v :: v in variables <==> v in InScope(i)
    ensures PlanOf(Project(i, variables), false, 0, None).Some?
    ensures Collect(i, InDefault, 0).Some?
    ensures PlanOf(Project(i, variables), false, 0, None).value.items == Collect(i, InDefault, 0).value.items
  {
    var vs: seq<Var> :| PlanOf(Project(i, vs), false, 0, None).Some? && forall v :: v in vs <==> v in InScope(i);
    PlanParts(Project(i, vs), false, 0, None);
    PlanParts(Project(i, variables), false, 0, None);
  }

  lemma AnswerOf(c: Context, i: Pattern, variables: seq<Var>, rows: seq<Row>) returns (ys: seq<Solution>)
    requires AnswerRows(c, Project(i, variables), variables, rows)
    requires forall x :: x in Eval(c, None, i) ==> x.Keys <= set v | v in variables
    ensures Same(ys, Eval(c, None, i)) && rows == RowsOf(variables, ys)
  {
    ys :| Answers(c, Project(i, variables), ys) && rows == RowsOf(variables, ys);
    ProjectNothing(Eval(c, None, i), variables);
    ProjectedEval(c, i, variables, ys);
  }

  ghost predicate AllSendable(xs: seq<Solution>) {
    forall x, v :: x in xs && v in x ==> BoundJoin.Sendable(x[v])
  }

  lemma RowsCarry(variables: seq<Var>, ys: seq<Solution>)
    requires AllSendable(ys)
    ensures Carries(RowsOf(variables, ys))
  {
    var rows: seq<Row> := RowsOf(variables, ys);
    forall k, j | 0 <= k < |rows| && 0 <= j < |rows[k]| && rows[k][j].Some?
      ensures BoundJoin.Sendable(rows[k][j].value)
    {
      assert rows[k] == RowOf(variables, ys[k]) && ys[k] in ys;
    }
  }

  lemma AnswerCarries(c: Context, i: Pattern, variables: seq<Var>, rows: seq<Row>)
    requires AnswerRows(c, Project(i, variables), variables, rows)
    requires forall x :: x in Eval(c, None, i) ==> x.Keys <= set v | v in variables
    requires AllSendable(Eval(c, None, i))
    ensures Carries(rows)
  {
    var ys := AnswerOf(c, i, variables, rows);
    forall x, v | x in ys && v in x
      ensures BoundJoin.Sendable(x[v])
    {
      SameMembers(ys, Eval(c, None, i), x);
    }
    RowsCarry(variables, ys);
  }

  // The rows the bind join has for the input; when it has none, the input is not to be tabled.
  method InputRows(c: Context, i: Pattern, estimate: Option<nat>, budget: nat, cancelled: nat -> bool)
    returns (variables: seq<Var>, rows: Option<seq<Row>>)
    requires c.view.Valid() && (Planned(i) ==> Supported(c.view, i, InDefault, 0))
    ensures forall v :: v in variables <==> v in InScope(i)
    ensures rows.Some? ==>
              && AnswerRows(c, Project(i, variables), variables, rows.value)
              && (forall x :: x in Eval(c, None, i) ==> x.Keys <= set v | v in variables)
              && Same(Eval(c, None, Values(variables, rows.value)), Eval(c, None, i))
    ensures rows.None? ==> !Tabled(c, i, estimate, budget, cancelled)
  {
    variables := BoundJoin.VariablesOf(InScope(i));
    if IsOneScan(i) || (estimate.Some? && estimate.value > budget) {
      return variables, None;
    }
    rows := Answer(c, Project(i, variables), Some(budget), cancelled);
    if rows.None? {
      if Planned(i) {
        PlannedWith(i, variables);
      }
      return;
    }
    InputInScope(c, i, variables);
    TableSame(c, i, variables, rows.value);
  }

  // What to put in the input's place, if anything: where the group has no key and the input no rows, a pattern that is
  // empty only once it is evaluated.
  method TableFor(c: Context, i: Pattern, keyless: bool, estimate: Option<nat>, budget: nat, cancelled: nat -> bool)
    returns (table: Option<Pattern>)
    requires c.view.Valid() && (Planned(i) ==> Supported(c.view, i, InDefault, 0))
    ensures table.Some? ==> Stands(c, i, keyless, table.value) && Same(Eval(c, None, table.value), Eval(c, None, i))
    ensures table.None? ==> !Tabled(c, i, estimate, budget, cancelled) || !Writable(c, i, keyless)
  {
    var variables, rows := InputRows(c, i, estimate, budget, cancelled);
    if rows.None? {
      return None;
    }
    if rows.value == [] && keyless {
      NoRowsNothing(c, i, variables);
      table := Equality.Nothing(c.view.dict);
      if table.Some? {
        Equality.NothingMatches(c, None);
      }
      return;
    }
    if !Carries(rows.value) {
      if Writable(c, i, keyless) {
        AnswerCarries(c, i, variables, rows.value);
      }
      return None;
    }
    table := Some(Values(variables, rows.value));
  }

  // Answers the input with the bind join and puts a table of its rows in its place. `None` leaves the query alone: no such
  // group, an input of one scan, an estimate over the budget, or no rows to be had.
  // Whatever comes back has exactly the answers the query has.
  method Materialised(c: Context, q: Pattern, estimate: Option<nat>, budget: nat, cancelled: nat -> bool)
    returns (out: Option<Pattern>)
    requires c.view.Valid() && SlicedAtTop(q)
    requires GroupInput(q).Some? && Planned(GroupInput(q).value.0) ==> Supported(c.view, GroupInput(q).value.0, InDefault, 0)
    ensures out.Some? ==> forall ys :: Answers(c, out.value, ys) <==> Answers(c, q, ys)
    ensures out.Some? ==>
              && GroupInput(q).Some? && GroupInput(out.value).Some?
              && Stands(c, GroupInput(q).value.0, GroupInput(q).value.1, GroupInput(out.value).value.0)
              && ReplaceGroupInput(out.value, GroupInput(q).value.0) == q
    ensures out.None? && GroupInput(q).Some? ==>
              !Tabled(c, GroupInput(q).value.0, estimate, budget, cancelled) || !Writable(c, GroupInput(q).value.0, GroupInput(q).value.1)
  {
    var input := GroupInput(q);
    if input.None? {
      return None;
    }
    var i, keyless := input.value.0, input.value.1;
    var table := TableFor(c, i, keyless, estimate, budget, cancelled);
    if table.None? {
      return None;
    }
    SubstitutedAnswers(c, q, i, table.value);
    ReplacedOnly(q, table.value);
    out := Some(ReplaceGroupInput(q, table.value));
  }

  lemma NoRowsNothing(c: Context, i: Pattern, variables: seq<Var>)
    requires Same(Eval(c, None, Values(variables, [])), Eval(c, None, i))
    ensures Eval(c, None, i) == []
  {
    SameLength(Eval(c, None, Values(variables, [])), Eval(c, None, i));
  }

  lemma SubstitutedAnswers(c: Context, q: Pattern, i: Pattern, table: Pattern)
    requires SlicedAtTop(q) && GroupInput(q).Some? && GroupInput(q).value.0 == i
    requires Same(Eval(c, None, table), Eval(c, None, i))
    ensures forall ys :: Answers(c, ReplaceGroupInput(q, table), ys) <==> Answers(c, q, ys)
  {
    forall ys
      ensures Answers(c, ReplaceGroupInput(q, table), ys) <==> Answers(c, q, ys)
    {
      ReplacedAnswers(c, q, table, ys);
    }
  }
}

/**
 `SELECT DISTINCT ?p WHERE { ?s ?p ?o }` from the predicates the store already knows
 (crates/holos-engine/src/distinct.rs): each is confirmed by one visible quad of the default graph.
 */
module DistinctTables {
  import opened Options
  import opened Bags
  import opened Rdf
  import opened Solutions
  import opened Algebra
  import opened Items
  import opened Scopes
  import opened Answering
  import opened GroupTables
  import BoundJoin

  // The predicate variable of a query of this shape.
  function Shape(p: Pattern): Option<Var> {
    var inner := if p.Slice? then p.inner else p;
    if !inner.Distinct? || !inner.inner.Project? || |inner.inner.keep| != 1 then None
    else
      var projected := inner.inner.keep[0];
      var body := if inner.inner.inner.OrderBy? then inner.inner.inner.inner else inner.inner.inner;
      if !body.Bgp? || |body.triples| != 1 then None else FreePredicate(body.triples[0], projected)
  }

  // A triple pattern of three different variables, the middle one projected.
  function FreePredicate(t: TriplePattern, projected: Var): Option<Var> {
    if !t.p.V? || t.p.v != projected || !t.s.V? || !t.o.V? then None
    else if t.s.v == t.o.v || t.s.v == projected || t.o.v == projected then None
    else Some(projected)
  }

  function ReplacePattern(p: Pattern, table: Pattern): Pattern {
    match p
    case Bgp(_) => table
    case Slice(i, start, length) => Slice(ReplacePattern(i, table), start, length)
    case Distinct(i) => Distinct(ReplacePattern(i, table))
    case Project(i, keep) => Project(ReplacePattern(i, table), keep)
    case OrderBy(i) => OrderBy(ReplacePattern(i, table))
    case _ => p
  }

  // Used in the default graph, as this session sees it.
  predicate Used(view: View, p: Term) {
    exists i :: 0 <= i < |view.quads| && view.quads[i].p == p && view.quads[i].graph.None?
  }

  // --- One free triple pattern ---------------------------------------------------------------------------------

  lemma FreeMatch(t: TriplePattern, v: Var, q: Quad)
    requires FreePredicate(t, v) == Some(v)
    ensures var m := MatchFrom(map[], t, InDefault, q);
            if q.graph.None? then m.Some? && v in m.value && m.value[v] == q.p else m.None?
  {
    if q.graph.None? {
      var none: Solution := map[];
      var a := none[t.s.v := q.s];
      var b := a[v := q.p];
      assert BindTo(Some(none), t.s, q.s) == Some(a);
      assert BindTo(Some(a), t.p, q.p) == Some(b);
      assert BindTo(Some(b), t.o, q.o) == Some(b[t.o.v := q.o]);
    }
  }

  lemma PredicateOnly(x: Solution, v: Var, p: Term)
    requires v in x && x[v] == p
    ensures Projected([v])(x) == [map[v := p]]
  {
    var s: Solution := map[v := p];
    assert Restrict(x, set u | u in [v]) == s;
  }

  lemma PredicateThere(view: View, t: TriplePattern, v: Var, p: Term)
    requires FreePredicate(t, v) == Some(v) && Used(view, p)
    ensures map[v := p] in FlatMap(TripleBag(view, t, InDefault), Projected([v]))
  {
    var xs := TripleBag(view, t, InDefault);
    var i :| 0 <= i < |view.quads| && view.quads[i].p == p && view.quads[i].graph.None?;
    FreeMatch(t, v, view.quads[i]);
    var x := MatchFrom(map[], t, InDefault, view.quads[i]).value;
    assert x in xs by {
      FlatMapMember(view.quads, Matching(map[], t, InDefault), x);
      assert view.quads[i] in view.quads && x in Matching(map[], t, InDefault)(view.quads[i]);
    }
    PredicateOnly(x, v, p);
    FlatMapMember(xs, Projected([v]), map[v := p]);
  }

  lemma PredicateFrom(view: View, t: TriplePattern, v: Var, s: Solution) returns (p: Term)
    requires FreePredicate(t, v) == Some(v) && s in FlatMap(TripleBag(view, t, InDefault), Projected([v]))
    ensures Used(view, p) && s == map[v := p]
  {
    var xs := TripleBag(view, t, InDefault);
    FlatMapMember(xs, Projected([v]), s);
    var x :| x in xs && s in Projected([v])(x);
    FlatMapMember(view.quads, Matching(map[], t, InDefault), x);
    var q :| q in view.quads && x in Matching(map[], t, InDefault)(q);
    FreeMatch(t, v, q);
    p := q.p;
    assert s == Restrict(x, set u | u in [v]) == map[v := p];
  }

  // The values of the predicate variable are exactly the predicates used.
  lemma PredicatesMatched(view: View, t: TriplePattern, v: Var, s: Solution)
    requires FreePredicate(t, v) == Some(v)
    ensures s in FlatMap(TripleBag(view, t, InDefault), Projected([v])) <==> exists p :: Used(view, p) && s == map[v := p]
  {
    var rows := FlatMap(TripleBag(view, t, InDefault), Projected([v]));
    if s in rows {
      var p := PredicateFrom(view, t, v, s);
      assert Used(view, p) && s == map[v := p];
    }
    forall p | Used(view, p) && s == map[v := p]
      ensures s in rows
    {
      PredicateThere(view, t, v, p);
    }
  }

  function AsRow(): Term -> seq<seq<Option<Term>>> {
    t => [[Some(t)]]
  }

  lemma {:induction false} TableOf(v: Var, ps: seq<Term>, s: Solution)
    ensures s in FlatMap(ValuesBag([v], FlatMap(ps, AsRow())), Projected([v])) <==> exists p :: p in ps && s == map[v := p]
    ensures NoRepeats(ps) ==> NoRepeats(FlatMap(ValuesBag([v], FlatMap(ps, AsRow())), Projected([v])))
    ensures |FlatMap(ValuesBag([v], FlatMap(ps, AsRow())), Projected([v]))| == |ps|
    ensures forall i :: 0 <= i < |ps| ==> FlatMap(ValuesBag([v], FlatMap(ps, AsRow())), Projected([v]))[i] == map[v := ps[i]]
  {
    TableIs(v, ps);
    var ts := FlatMap(ps, Single(v));
    SingleAt(v, ps);
    if s in ts {
      var i :| 0 <= i < |ts| && ts[i] == s;
      assert ps[i] in ps;
    }
    if p :| p in ps && s == map[v := p] {
      var i :| 0 <= i < |ps| && ps[i] == p;
      assert ts[i] == s;
    }
    if NoRepeats(ps) {
      forall i, j | 0 <= i < j < |ts|
        ensures ts[i] != ts[j]
      {
        assert ts[i][v] == ps[i] && ts[j][v] == ps[j];
      }
    }
  }

  function Single(v: Var): Term -> seq<Solution> {
    t => [map[v := t]]
  }

  lemma {:induction false} SingleAt(v: Var, ps: seq<Term>)
    ensures |FlatMap(ps, Single(v))| == |ps|
    ensures forall i :: 0 <= i < |ps| ==> FlatMap(ps, Single(v))[i] == map[v := ps[i]]
  {
    if ps != [] {
      SingleAt(v, ps[1..]);
      var all, rest := FlatMap(ps, Single(v)), FlatMap(ps[1..], Single(v));
      assert all == [map[v := ps[0]]] + rest;
      forall i | 0 <= i < |ps|
        ensures all[i] == map[v := ps[i]]
      {
        if i > 0 {
          assert all[i] == rest[i - 1] && ps[i] == ps[1..][i - 1];
        }
      }
    }
  }

  lemma {:induction false} TableIs(v: Var, ps: seq<Term>)
    ensures FlatMap(ValuesBag([v], FlatMap(ps, AsRow())), Projected([v])) == FlatMap(ps, Single(v))
  {
    if ps != [] {
      var row: seq<Option<Term>> := [Some(ps[0])];
      TableIs(v, ps[1..]);
      FlatMapAppend([row], FlatMap(ps[1..], AsRow()), RowBag(map[], [v]));
      FlatMapOne(row, RowBag(map[], [v]));
      OneRowOf(v, ps[0]);
      var one: Solution := map[v := ps[0]];
      FlatMapAppend([one], ValuesBag([v], FlatMap(ps[1..], AsRow())), Projected([v]));
      FlatMapOne(one, Projected([v]));
      assert Restrict(one, set u | u in [v]) == one;
    }
  }

  lemma OneRowOf(v: Var, t: Term)
    ensures RowBag(map[], [v])([Some(t)]) == [map[v := t]]
  {
    BoundJoin.RowFromDistinct(map[], [v], [t]);
    assert BoundJoin.SomeEach([t]) == [Some(t)];
    assert RowFrom(Some(map[]), [v], [Some(t)]).value == map[v := t];
  }

  // --- DISTINCT sees members, not multiplicities ----------------------------------------------------------------

  // Whatever lists some of a bag without repeats can be completed to an enumeration of the bag.
  lemma {:induction false} Remainder<T(!new)>(ys: seq<T>, bag: seq<T>) returns (rest: seq<T>)
    requires NoRepeats(ys) && forall y :: y in ys ==> y in bag
    ensures Same(ys + rest, bag)
  {
    if ys == [] {
      rest := bag;
      assert ys + rest == bag;
    } else {
      var init, last := ys[..|ys| - 1], ys[|ys| - 1];
      assert ys == init + [last];
      NoRepeatsSnoc(init, last);
      var wide := Remainder(init, bag);
      SameMembers(init + wide, bag, last);
      var i :| 0 <= i < |wide| && wide[i] == last;
      rest := wide[..i] + wide[i + 1..];
      assert wide == wide[..i] + [last] + wide[i + 1..];
      assert multiset(wide) == multiset(rest) + multiset{last};
      assert multiset(ys + rest) == multiset(init) + multiset{last} + multiset(rest);
      assert multiset(init + wide) == multiset(init) + multiset(wide);
    }
  }

  lemma {:induction false} DedupKept<T(!new)>(ys: seq<T>)
    requires NoRepeats(ys)
    ensures Dedup(ys) == ys
  {
    if ys != [] {
      var init, last := ys[..|ys| - 1], ys[|ys| - 1];
      assert ys == init + [last];
      NoRepeatsSnoc(init, last);
      DedupKept(init);
    }
  }

  lemma {:induction false} DedupPrefix<T(!new)>(ys: seq<T>, rest: seq<T>)
    requires NoRepeats(ys) && forall x :: x in rest ==> x in ys
    ensures Dedup(ys + rest) == ys
    decreases |rest|
  {
    if rest == [] {
      assert ys + rest == ys;
      DedupKept(ys);
    } else {
      var init, last := rest[..|rest| - 1], rest[|rest| - 1];
      var all := ys + rest;
      assert all[..|all| - 1] == ys + init && all[|all| - 1] == last;
      DedupPrefix(ys, init);
    }
  }

  // The lists DISTINCT may return for a bag are exactly the repeat-free lists of its members.
  ghost predicate Lists<T(!new)>(bag: seq<T>, ys: seq<T>) {
    NoRepeats(ys) && forall x :: x in ys <==> x in bag
  }

  lemma DedupLists<T(!new)>(zs: seq<T>, bag: seq<T>)
    requires Same(zs, bag)
    ensures Lists(bag, Dedup(zs))
  {
    DedupNoRepeats(zs);
    forall x
      ensures x in Dedup(zs) <==> x in bag
    {
      SameMembers(zs, bag, x);
    }
  }

  lemma ListsAreDedup<T(!new)>(bag: seq<T>, ys: seq<T>) returns (zs: seq<T>)
    requires Lists(bag, ys)
    ensures Same(zs, bag) && ys == Dedup(zs)
  {
    var rest := Remainder(ys, bag);
    forall x | x in rest
      ensures x in ys
    {
      assert x in ys + rest;
      SameMembers(ys + rest, bag, x);
    }
    DedupPrefix(ys, rest);
    zs := ys + rest;
  }

  lemma DistinctAnswers(c: Context, a: Pattern, ys: seq<Solution>)
    requires a.Project?
    ensures Answers(c, Distinct(a), ys) <==> Lists(Eval(c, None, a), ys)
  {
    if Answers(c, Distinct(a), ys) {
      var zs :| Answers(c, a, zs) && ys == Dedup(zs);
      DedupLists(zs, Eval(c, None, a));
    }
    if Lists(Eval(c, None, a), ys) {
      var zs := ListsAreDedup(Eval(c, None, a), ys);
      assert Answers(c, a, zs) && ys == Dedup(zs);
    }
  }

  // --- The query rewritten ----------------------------------------------------------------------------------------

  function Body(p: Pattern): Pattern {
    if p.OrderBy? then p.inner else p
  }

  // The terms listed are exactly those used as a predicate in the default graph.
  ghost predicate Confirmed(view: View, ps: seq<Term>) {
    forall p: Term :: p in ps <==> Used(view, p)
  }

  lemma OneTriple(c: Context, t: TriplePattern)
    ensures Eval(c, None, Bgp([t])) == TripleBag(c.view, t, InDefault)
  {
    JoinIdentity(TripleBag(c.view, t, InDefault));
    assert BgpBag(c.view, None, [t][1..]) == [map[]];
  }

  lemma BodyEval(c: Context, i: Pattern, table: Pattern)
    requires Body(i).Bgp? && |Body(i).triples| == 1
    ensures Eval(c, None, i) == TripleBag(c.view, Body(i).triples[0], InDefault)
    ensures Eval(c, None, ReplacePattern(i, table)) == Eval(c, None, table)
  {
    assert Body(i).triples == [Body(i).triples[0]];
    OneTriple(c, Body(i).triples[0]);
    if i.OrderBy? {
      assert ReplacePattern(i.inner, table) == table;
    }
  }

  lemma ProjectedMembers(c: Context, i: Pattern, v: Var, ps: seq<Term>, s: Solution)
    requires Shape(Distinct(Project(i, [v]))) == Some(v) && Confirmed(c.view, ps)
    ensures s in Eval(c, None, Project(ReplacePattern(i, Values([v], FlatMap(ps, AsRow()))), [v]))
       <==> s in Eval(c, None, Project(i, [v]))
  {
    var t := Body(i).triples[0];
    var table := Values([v], FlatMap(ps, AsRow()));
    BodyEval(c, i, table);
    MembersAgree(c.view, t, v, ps, s);
  }

  lemma MembersAgree(view: View, t: TriplePattern, v: Var, ps: seq<Term>, s: Solution)
    requires FreePredicate(t, v) == Some(v) && Confirmed(view, ps)
    ensures s in FlatMap(ValuesBag([v], FlatMap(ps, AsRow())), Projected([v]))
       <==> s in FlatMap(TripleBag(view, t, InDefault), Projected([v]))
  {
    PredicatesMatched(view, t, v, s);
    TableOf(v, ps, s);
  }

  // The table answers the query as the pattern did: the same lists, ordered and sliced the same ways.
  lemma TableAnswers(c: Context, q: Pattern, v: Var, ps: seq<Term>, ys: seq<Solution>)
    requires Shape(q) == Some(v) && Confirmed(c.view, ps)
    ensures Answers(c, ReplacePattern(q, Values([v], FlatMap(ps, AsRow()))), ys) <==> Answers(c, q, ys)
  {
    var table := Values([v], FlatMap(ps, AsRow()));
    var d := if q.Slice? then q.inner else q;
    var i := d.inner.inner;
    assert d == Distinct(Project(i, [v]));
    forall s
      ensures s in Eval(c, None, Project(ReplacePattern(i, table), [v])) <==> s in Eval(c, None, Project(i, [v]))
    {
      ProjectedMembers(c, i, v, ps, s);
    }
    forall zs
      ensures Answers(c, ReplacePattern(d, table), zs) <==> Answers(c, d, zs)
    {
      DistinctAnswers(c, Project(ReplacePattern(i, table), [v]), zs);
      DistinctAnswers(c, Project(i, [v]), zs);
    }
  }

  function Predicates(s: Var, v: Var, o: Var, ordered: bool): Pattern {
    var body := Bgp([TriplePattern(V(s), V(v), V(o))]);
    Distinct(Project(if ordered then OrderBy(body) else body, [v]))
  }

  // The queries of this shape: one slice or none, DISTINCT, the one variable selected, an order or none, and one triple
  // pattern of three variables with that one in the middle.
  lemma ShapeExactly(q: Pattern, v: Var)
    ensures Shape(q) == Some(v) <==>
            exists s, o, ordered :: s != v && o != v && s != o && (if q.Slice? then q.inner else q) == Predicates(s, v, o, ordered)
  {
    if Shape(q) == Some(v) {
      var d := if q.Slice? then q.inner else q;
      var b := d.inner.inner;
      var leaf := if b.OrderBy? then b.inner else b;
      var t := leaf.triples[0];
      assert leaf.triples == [TriplePattern(V(t.s.v), V(v), V(t.o.v))] && d.inner.keep == [v];
      assert d == Predicates(t.s.v, v, t.o.v, b.OrderBy?);
    }
  }

  // The query with a table in its pattern's place.
  function WithTable(q: Pattern, v: Var, rows: seq<seq<Option<Term>>>): Pattern
    requires Shape(q) == Some(v)
  {
    var d := if q.Slice? then q.inner else q;
    var table := Values([v], rows);
    var selected := Distinct(Project(if d.inner.inner.OrderBy? then OrderBy(table) else table, [v]));
    if q.Slice? then Slice(selected, q.start, q.length) else selected
  }

  // `histogram` lists what the store counts: every predicate of every graph, visible or not. The counts are
  // candidates only; each is confirmed against the session's own view before it is named.
  method Materialised(c: Context, q: Pattern, histogram: seq<Term>) returns (out: Option<Pattern>)
    requires forall i :: 0 <= i < |c.view.quads| ==> c.view.quads[i].p in histogram && BoundJoin.Sendable(c.view.quads[i].p)
    ensures out.Some? <==> Shape(q).Some?
    ensures out.Some? ==> forall ys :: Answers(c, out.value, ys) <==> Answers(c, q, ys)
    ensures out.Some? ==> exists rows :: out.value == WithTable(q, Shape(q).value, rows) && EachUsed(c.view, rows)
  {
    var v := Shape(q);
    if v.None? {
      return None;
    }
    var rows: seq<seq<Option<Term>>> := [];
    ghost var ps: seq<Term> := [];
    for k := 0 to |histogram|
      invariant rows == FlatMap(ps, AsRow())
      invariant forall p: Term :: p in ps <==> p in histogram[..k] && Used(c.view, p)
    {
      assert histogram[..k + 1] == histogram[..k] + [histogram[k]];
      if Used(c.view, histogram[k]) && BoundJoin.Sendable(histogram[k]) {
        FlatMapSnoc(ps, histogram[k], AsRow());
        rows := rows + [[Some(histogram[k])]];
        ps := ps + [histogram[k]];
      }
    }
    assert histogram[..|histogram|] == histogram;
    forall ys
      ensures Answers(c, ReplacePattern(q, Values([v.value], rows)), ys) <==> Answers(c, q, ys)
    {
      TableAnswers(c, q, v.value, ps, ys);
    }
    RowsListed(c.view, ps, rows);
    PatternReplaced(q, v.value, rows);
    out := Some(ReplacePattern(q, Values([v.value], rows)));
  }

  lemma PatternReplaced(q: Pattern, v: Var, rows: seq<seq<Option<Term>>>)
    requires Shape(q) == Some(v)
    ensures ReplacePattern(q, Values([v], rows)) == WithTable(q, v, rows)
  {
    var d := if q.Slice? then q.inner else q;
    var table := Values([v], rows);
    assert d == Distinct(Project(d.inner.inner, [v]));
    assert ReplacePattern(d, table) == Distinct(Project(ReplacePattern(d.inner.inner, table), [v]));
    if d.inner.inner.OrderBy? {
      assert ReplacePattern(d.inner.inner.inner, table) == table;
    }
  }

  // One row for each predicate of the default graph, and no other.
  ghost predicate EachUsed(view: View, rows: seq<seq<Option<Term>>>) {
    forall row :: row in rows <==> exists i :: 0 <= i < |view.quads| && view.quads[i].graph.None? && row == [Some(view.quads[i].p)]
  }

  lemma RowsListed(view: View, ps: seq<Term>, rows: seq<seq<Option<Term>>>)
    requires Confirmed(view, ps) && rows == FlatMap(ps, AsRow())
    ensures EachUsed(view, rows)
  {
    forall row
      ensures row in rows <==> exists i :: 0 <= i < |view.quads| && view.quads[i].graph.None? && row == [Some(view.quads[i].p)]
    {
      FlatMapMember(ps, AsRow(), row);
      if row in rows {
        var p :| p in ps && row in AsRow()(p);
        assert Used(view, p);
      }
      if i :| 0 <= i < |view.quads| && view.quads[i].graph.None? && row == [Some(view.quads[i].p)] {
        assert Used(view, view.quads[i].p);
        assert row in AsRow()(view.quads[i].p);
      }
    }
  }
}
