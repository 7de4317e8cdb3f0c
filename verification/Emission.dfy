/**
 What happens to a finished row: projected, deduplicated, skipped past the offset, kept until the
 limit. The incremental bookkeeping is shown to be the solution modifiers applied to the whole list.
 */
module Emission {
  import opened Options
  import opened Bags
  import opened Rdf
  import opened Solutions
  import opened Algebra
  import opened Items

  type Row = seq<Option<Term>>

  datatype Plan = Plan(
    items: seq<Item>, filters: seq<FilterEntry>, variables: seq<Var>, distinct: bool, offset: nat, limit: Option<nat>)

  // What a run has accumulated. `completions` counts the todo lists exhausted, kept or not.
  datatype Progress = Progress(out: seq<Row>, seen: set<Row>, skipped: nat, completions: nat)

  const NOTHING_YET := Progress([], {}, 0, 0)

  function RowOf(variables: seq<Var>, s: Solution): Row {
    seq(|variables|, i requires 0 <= i < |variables| => if variables[i] in s then Some(s[variables[i]]) else None)
  }

  function RowsOf(variables: seq<Var>, xs: seq<Solution>): (rows: seq<Row>)
    ensures |rows| == |xs|
    ensures forall i :: 0 <= i < |xs| ==> rows[i] == RowOf(variables, xs[i])
  {
    if xs == [] then [] else RowsOf(variables, xs[..|xs| - 1]) + [RowOf(variables, xs[|xs| - 1])]
  }

  predicate Full(plan: Plan, st: Progress) {
    plan.limit.Some? && |st.out| >= plan.limit.value
  }

  // One completed solution, as `emit` treats it.
  function Emit(plan: Plan, st: Progress, s: Solution): Progress {
    var row := RowOf(plan.variables, s);
    var counted := st.(completions := st.completions + 1);
    if plan.distinct && row in st.seen then counted
    else
      var noted := if plan.distinct then counted.(seen := st.seen + {row}) else counted;
      if st.skipped < plan.offset then noted.(skipped := st.skipped + 1)
      else noted.(out := st.out + [row])
  }

  // A list of solutions, until the limit is reached.
  function EmitAll(plan: Plan, st: Progress, xs: seq<Solution>): Progress
    decreases |xs|
  {
    if xs == [] || Full(plan, st) then st else EmitAll(plan, Emit(plan, st, xs[0]), xs[1..])
  }

  lemma EmitFull(plan: Plan, st: Progress, xs: seq<Solution>)
    requires Full(plan, st)
    ensures EmitAll(plan, st, xs) == st
  {
  }

  lemma {:induction false} EmitAppend(plan: Plan, st: Progress, xs: seq<Solution>, ys: seq<Solution>)
    ensures EmitAll(plan, st, xs + ys) == EmitAll(plan, EmitAll(plan, st, xs), ys)
    decreases |xs|
  {
    if xs == [] {
      assert xs + ys == ys;
    } else if Full(plan, st) {
      EmitFull(plan, st, ys);
    } else {
      assert (xs + ys)[1..] == xs[1..] + ys;
      EmitAppend(plan, Emit(plan, st, xs[0]), xs[1..], ys);
    }
  }

  lemma EmitOne(plan: Plan, st: Progress, s: Solution)
    requires !Full(plan, st)
    ensures EmitAll(plan, st, [s]) == Emit(plan, st, s)
  {
    assert EmitAll(plan, Emit(plan, st, s), []) == Emit(plan, st, s);
  }

  // A match is counted whether or not its row survives, so the count moves exactly when there was one.
  lemma {:induction false} CompletionsMove(plan: Plan, st: Progress, xs: seq<Solution>)
    ensures EmitAll(plan, st, xs).completions >= st.completions
    ensures !Full(plan, st) ==> (EmitAll(plan, st, xs).completions != st.completions <==> xs != [])
    decreases |xs|
  {
    if xs != [] && !Full(plan, st) {
      CompletionsMove(plan, Emit(plan, st, xs[0]), xs[1..]);
    }
  }

  // --- The bookkeeping is the solution modifiers -----------------------------------------------------

  function Modified(plan: Plan, rows: seq<Row>): seq<Row> {
    if plan.distinct then Dedup(rows) else rows
  }

  function Dropped<A>(xs: seq<A>, n: nat): seq<A> {
    if n <= |xs| then xs[n..] else []
  }

  // The state reached by `n` solutions that left the rows `kept`, none of them cut off by the limit.
  ghost predicate Holding(plan: Plan, st: Progress, kept: seq<Row>, n: nat) {
    && st.out == Dropped(kept, plan.offset)
    && st.skipped == (if |kept| <= plan.offset then |kept| else plan.offset)
    && st.seen == (if plan.distinct then set r | r in kept else {})
    && st.completions == n
  }

  ghost predicate After(plan: Plan, st: Progress, xs: seq<Solution>) {
    Holding(plan, st, Modified(plan, RowsOf(plan.variables, xs)), |xs|)
  }

  lemma EmitDuplicate(plan: Plan, st: Progress, kept: seq<Row>, n: nat, s: Solution)
    requires Holding(plan, st, kept, n) && plan.distinct && RowOf(plan.variables, s) in kept
    ensures Holding(plan, Emit(plan, st, s), kept, n + 1)
  {
  }

  lemma EmitNew(plan: Plan, st: Progress, kept: seq<Row>, n: nat, s: Solution)
    requires Holding(plan, st, kept, n) && !(plan.distinct && RowOf(plan.variables, s) in kept)
    ensures Holding(plan, Emit(plan, st, s), kept + [RowOf(plan.variables, s)], n + 1)
  {
    var row := RowOf(plan.variables, s);
    var all := kept + [row];
    assert (set r | r in all) == (set r | r in kept) + {row};
    if plan.offset <= |kept| {
      assert all[plan.offset..] == kept[plan.offset..] + [row];
    } else {
      assert Dropped(all, plan.offset) == [];
    }
  }

  lemma RowsSnoc(variables: seq<Var>, xs: seq<Solution>, s: Solution)
    ensures RowsOf(variables, xs + [s]) == RowsOf(variables, xs) + [RowOf(variables, s)]
  {
    assert (xs + [s])[..|xs|] == xs;
  }

  lemma ModifiedSnoc(plan: Plan, xs: seq<Solution>, s: Solution)
    ensures var kept, row := Modified(plan, RowsOf(plan.variables, xs)), RowOf(plan.variables, s);
            Modified(plan, RowsOf(plan.variables, xs + [s]))
              == if plan.distinct && row in kept then kept else kept + [row]
  {
    RowsSnoc(plan.variables, xs, s);
    var rows, row := RowsOf(plan.variables, xs), RowOf(plan.variables, s);
    assert (rows + [row])[..|rows|] == rows;
  }

  lemma AfterOne(plan: Plan, st: Progress, xs: seq<Solution>, s: Solution)
    requires After(plan, st, xs)
    ensures After(plan, Emit(plan, st, s), xs + [s])
  {
    var kept := Modified(plan, RowsOf(plan.variables, xs));
    ModifiedSnoc(plan, xs, s);
    if plan.distinct && RowOf(plan.variables, s) in kept {
      EmitDuplicate(plan, st, kept, |xs|, s);
    } else {
      EmitNew(plan, st, kept, |xs|, s);
    }
  }

  // Rows past the limit are never looked at.
  lemma SlicedPrefix(kept: seq<Row>, all: seq<Row>, start: nat, limit: nat)
    requires kept <= all && |Dropped(kept, start)| == limit
    ensures Sliced(all, start, Some(limit)) == Dropped(kept, start)
  {
    if start <= |kept| {
      assert all[start..][..limit] == kept[start..];
    }
  }

  lemma {:induction false} EmitAfter(plan: Plan, st: Progress, done: seq<Solution>, xs: seq<Solution>)
    requires After(plan, st, done)
    requires plan.limit.Some? ==> |st.out| <= plan.limit.value
    ensures EmitAll(plan, st, xs).out
         == Sliced(Modified(plan, RowsOf(plan.variables, done + xs)), plan.offset, plan.limit)
    decreases |xs|
  {
    if Full(plan, st) {
      ModifiedPrefix(plan, done, xs);
      SlicedPrefix(Modified(plan, RowsOf(plan.variables, done)), Modified(plan, RowsOf(plan.variables, done + xs)),
                   plan.offset, plan.limit.value);
    } else if xs == [] {
      assert done + xs == done;
    } else {
      assert done + xs == (done + [xs[0]]) + xs[1..];
      AfterOne(plan, st, done, xs[0]);
      EmitAfter(plan, Emit(plan, st, xs[0]), done + [xs[0]], xs[1..]);
    }
  }

  lemma {:induction false} ModifiedPrefix(plan: Plan, done: seq<Solution>, xs: seq<Solution>)
    ensures Modified(plan, RowsOf(plan.variables, done)) <= Modified(plan, RowsOf(plan.variables, done + xs))
    decreases |xs|
  {
    if xs == [] {
      assert done + xs == done;
    } else {
      assert done + xs == (done + [xs[0]]) + xs[1..];
      ModifiedSnoc(plan, done, xs[0]);
      ModifiedPrefix(plan, done + [xs[0]], xs[1..]);
    }
  }

  // Stopping at the limit, skipping and deduplicating as rows arrive gives what slicing the finished,
  // deduplicated list would: no early exit changes the answer.
  lemma EmittedIsSliced(plan: Plan, xs: seq<Solution>)
    ensures EmitAll(plan, NOTHING_YET, xs).out
         == Sliced(Modified(plan, RowsOf(plan.variables, xs)), plan.offset, plan.limit)
  {
    assert RowsOf(plan.variables, []) == [];
    assert After(plan, NOTHING_YET, []);
    EmitAfter(plan, NOTHING_YET, [], xs);
    assert [] + xs == xs;
  }
}
