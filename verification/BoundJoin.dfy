/**
 Sending a SERVICE the keys it will be joined against (crates/holos-engine/src/boundjoin.rs). The keys are
 read from the query with its services taken out; a key too many costs a row the join discards, and the
 theorem is that there is never one too few.
 */
module BoundJoin {
  import opened Options
  import opened Bags
  import opened Rdf
  import opened Solutions
  import opened Expressions
  import opened Algebra
  import opened Items
  import opened Commuting
  import opened Congruence
  import opened Answering

  const MAX_PUSHED_BINDINGS := 1024

  // A table without UNDEF.
  datatype Keys = Keys(variables: seq<Var>, rows: seq<seq<Term>>)

  // --- The clauses of a pattern ------------------------------------------------------------------------------

  function Clauses(p: Pattern): nat {
    match p
    case Service(_, _) => 1
    case Join(l, r) => Clauses(l) + Clauses(r)
    case LeftJoin(l, r, _) => Clauses(l) + Clauses(r)
    case Union(l, r) => Clauses(l) + Clauses(r)
    case Minus(l, r) => Clauses(l) + Clauses(r)
    case Filter(_, i) => Clauses(i)
    case Graph(_, i) => Clauses(i)
    case Extend(i, _, _) => Clauses(i)
    case OrderBy(i) => Clauses(i)
    case Project(i, _) => Clauses(i)
    case Distinct(i) => Clauses(i)
    case Slice(i, _, _) => Clauses(i)
    case Group(i, _, _) => Clauses(i)
    case _ => 0
  }

  // Every variable a pattern mentions where it could bind one.
  function PatternVariables(p: Pattern): set<Var> {
    match p
    case Bgp(ts) => TriplesVars(ts)
    case Path(s, _, o) => PositionVars(s) + PositionVars(o)
    case Values(vars, _) => set v | v in vars
    case Join(l, r) => PatternVariables(l) + PatternVariables(r)
    case LeftJoin(l, r, _) => PatternVariables(l) + PatternVariables(r)
    case Union(l, r) => PatternVariables(l) + PatternVariables(r)
    case Minus(l, r) => PatternVariables(l) + PatternVariables(r)
    case Filter(_, i) => PatternVariables(i)
    case Graph(name, i) => PositionVars(name) + PatternVariables(i)
    case Extend(i, v, _) => PatternVariables(i) + {v}
    case OrderBy(i) => PatternVariables(i)
    case Project(_, keep) => set v | v in keep
    case Distinct(i) => PatternVariables(i)
    case Slice(i, _, _) => PatternVariables(i)
    case Group(_, keys, _) => set v | v in keys
    case Service(_, i) => PatternVariables(i)
  }

  // What each clause could receive: the variables it shares with what it will be joined to.
  function Candidates(p: Pattern, bound: set<Var>): seq<set<Var>> {
    match p
    case Service(_, i) => [PatternVariables(i) * bound]
    case Join(l, r) => Candidates(l, bound + PatternVariables(r)) + Candidates(r, bound + PatternVariables(l))
    case LeftJoin(l, r, _) => Candidates(l, bound) + Candidates(r, bound + PatternVariables(l))
    case Union(l, r) => Candidates(l, bound) + Candidates(r, bound)
    case Minus(l, r) => Candidates(l, bound) + Candidates(r, bound)
    case Filter(_, i) => Candidates(i, bound)
    case Graph(_, i) => Candidates(i, bound)
    case Extend(i, _, _) => Candidates(i, bound)
    case OrderBy(i) => Candidates(i, bound)
    case Project(i, _) => Candidates(i, bound)
    case Distinct(i) => Candidates(i, bound)
    case Slice(i, _, _) => Candidates(i, bound)
    case Group(i, _, _) => Candidates(i, bound)
    case _ => []
  }

  function Rest<T>(xs: seq<T>, n: nat): seq<T> {
    if n <= |xs| then xs[n..] else []
  }

  function First(keys: seq<Option<Keys>>): Option<Keys> {
    if keys == [] then None else keys[0]
  }

  function AsTable(keys: Keys): Pattern {
    Values(keys.variables, Somes(keys.rows))
  }

  function Somes(rows: seq<seq<Term>>): (r: seq<seq<Option<Term>>>)
    ensures |r| == |rows|
  {
    if rows == [] then [] else [SomeEach(rows[0])] + Somes(rows[1..])
  }

  function SomeEach(row: seq<Term>): (r: seq<Option<Term>>)
    ensures |r| == |row| && forall i :: 0 <= i < |row| ==> r[i] == Some(row[i])
  {
    if row == [] then [] else [Some(row[0])] + SomeEach(row[1..])
  }

  function Push(keys: Option<Keys>, inner: Pattern): Pattern {
    if keys.Some? && keys.value.variables != [] && keys.value.rows != [] then Join(AsTable(keys.value), inner) else inner
  }

  // Keys joined into the clauses, the first to the first in pre-order.
  function Filled(p: Pattern, keys: seq<Option<Keys>>): Pattern {
    match p
    case Service(endpoint, i) => Service(endpoint, Push(First(keys), i))
    case Join(l, r) => Join(Filled(l, keys), Filled(r, Rest(keys, Clauses(l))))
    case LeftJoin(l, r, e) => LeftJoin(Filled(l, keys), Filled(r, Rest(keys, Clauses(l))), e)
    case Union(l, r) => Union(Filled(l, keys), Filled(r, Rest(keys, Clauses(l))))
    case Minus(l, r) => Minus(Filled(l, keys), Filled(r, Rest(keys, Clauses(l))))
    case Filter(e, i) => Filter(e, Filled(i, keys))
    case Graph(name, i) => Graph(name, Filled(i, keys))
    case Extend(i, v, e) => Extend(Filled(i, keys), v, e)
    case OrderBy(i) => OrderBy(Filled(i, keys))
    case Project(i, keep) => Project(Filled(i, keys), keep)
    case Distinct(i) => Distinct(Filled(i, keys))
    case Slice(i, start, length) => Slice(Filled(i, keys), start, length)
    case Group(i, ks, aggregate) => Group(Filled(i, keys), ks, aggregate)
    case _ => p
  }

  function WithoutServices(p: Pattern): Pattern {
    match p
    case Service(_, _) => Bgp([])
    case Join(l, r) => Join(WithoutServices(l), WithoutServices(r))
    case LeftJoin(l, r, e) => LeftJoin(WithoutServices(l), WithoutServices(r), e)
    case Union(l, r) => Union(WithoutServices(l), WithoutServices(r))
    case Minus(l, r) => Minus(WithoutServices(l), WithoutServices(r))
    case Filter(e, i) => Filter(e, WithoutServices(i))
    case Graph(name, i) => Graph(name, WithoutServices(i))
    case Extend(i, v, e) => Extend(WithoutServices(i), v, e)
    case OrderBy(i) => OrderBy(WithoutServices(i))
    case Project(i, keep) => Project(WithoutServices(i), keep)
    case Distinct(i) => Distinct(WithoutServices(i))
    case Slice(i, start, length) => Slice(WithoutServices(i), start, length)
    case Group(i, ks, aggregate) => Group(WithoutServices(i), ks, aggregate)
    case _ => p
  }

  // --- One walk, collecting or filling -------------------------------------------------------------------------

  lemma {:induction false} CandidatesCount(p: Pattern, bound: set<Var>)
    ensures |Candidates(p, bound)| == Clauses(p)
  {
    match p
    case Join(l, r) => CandidatesCount(l, bound + PatternVariables(r)); CandidatesCount(r, bound + PatternVariables(l));
    case LeftJoin(l, r, _) => CandidatesCount(l, bound); CandidatesCount(r, bound + PatternVariables(l));
    case Union(l, r) => CandidatesCount(l, bound); CandidatesCount(r, bound);
    case Minus(l, r) => CandidatesCount(l, bound); CandidatesCount(r, bound);
    case Filter(_, i) => CandidatesCount(i, bound);
    case Graph(_, i) => CandidatesCount(i, bound);
    case Extend(i, _, _) => CandidatesCount(i, bound);
    case OrderBy(i) => CandidatesCount(i, bound);
    case Project(i, _) => CandidatesCount(i, bound);
    case Distinct(i) => CandidatesCount(i, bound);
    case Slice(i, _, _) => CandidatesCount(i, bound);
    case Group(i, _, _) => CandidatesCount(i, bound);
    case _ =>
  }

  // What the walk asks for keys, clause by clause: it remembers what it was asked, and hands out what it
  // was given, in order.
  class Supply {
    var asked: seq<set<Var>>
    var keys: seq<Option<Keys>>

    constructor (keys: seq<Option<Keys>>)
      ensures asked == [] && this.keys == keys
    {
      asked, this.keys := [], keys;
    }

    method Next(candidates: set<Var>) returns (k: Option<Keys>)
      modifies this
      ensures asked == old(asked) + [candidates] && k == First(old(keys)) && keys == Rest(old(keys), 1)
    {
      asked := asked + [candidates];
      k := First(keys);
      keys := Rest(keys, 1);
    }
  }

  lemma RestTwice<T>(xs: seq<T>, m: nat, n: nat)
    ensures Rest(Rest(xs, m), n) == Rest(xs, m + n)
  {
  }

  // One walk for both purposes: what it asks for is exactly the clauses' candidates, and what it is given goes, n-th to
  // n-th, into the clauses.
  method RewriteServices(p: Pattern, bound: set<Var>, supply: Supply) returns (out: Pattern)
    modifies supply
    ensures out == Filled(p, old(supply.keys))
    ensures supply.keys == Rest(old(supply.keys), Clauses(p))
    ensures supply.asked == old(supply.asked) + Candidates(p, bound)
    decreases p, 1
  {
    match p {
      case Service(endpoint, i) =>
        var k := supply.Next(PatternVariables(i) * bound);
        out := Service(endpoint, Push(k, i));
      case Join(l, r) => out := RewriteJoin(l, r, bound, supply);
      case LeftJoin(l, r, e) => out := RewriteLeftJoin(l, r, e, bound, supply);
      case Union(l, r) => out := RewriteUnion(l, r, bound, supply);
      case Minus(l, r) => out := RewriteMinus(l, r, bound, supply);
      case Bgp(_) => out := Untouched(p, bound, supply);
      case Path(_, _, _) => out := Untouched(p, bound, supply);
      case Values(_, _) => out := Untouched(p, bound, supply);
      case _ => out := RewriteInside(p, bound, supply);
    }
  }

  method Untouched(p: Pattern, ghost bound: set<Var>, supply: Supply) returns (out: Pattern)
    requires p.Bgp? || p.Path? || p.Values?
    ensures out == Filled(p, supply.keys) && supply.keys == Rest(supply.keys, Clauses(p)) && Candidates(p, bound) == []
  {
    out := p;
  }

  // Neither side of a union or a MINUS hears of the other.
  method RewriteUnion(l: Pattern, r: Pattern, bound: set<Var>, supply: Supply) returns (out: Pattern)
    modifies supply
    ensures out == Filled(Union(l, r), old(supply.keys))
    ensures supply.keys == Rest(old(supply.keys), Clauses(Union(l, r)))
    ensures supply.asked == old(supply.asked) + Candidates(Union(l, r), bound)
    decreases Union(l, r), 0, 1
  {
    var a, b := RewriteBoth(Union(l, r), l, r, bound, bound, supply);
    out := Union(a, b);
  }

  method RewriteMinus(l: Pattern, r: Pattern, bound: set<Var>, supply: Supply) returns (out: Pattern)
    modifies supply
    ensures out == Filled(Minus(l, r), old(supply.keys))
    ensures supply.keys == Rest(old(supply.keys), Clauses(Minus(l, r)))
    ensures supply.asked == old(supply.asked) + Candidates(Minus(l, r), bound)
    decreases Minus(l, r), 0, 1
  {
    var a, b := RewriteBoth(Minus(l, r), l, r, bound, bound, supply);
    out := Minus(a, b);
  }

  // Across a join each side may receive what the other binds.
  method RewriteJoin(l: Pattern, r: Pattern, bound: set<Var>, supply: Supply) returns (out: Pattern)
    modifies supply
    ensures out == Filled(Join(l, r), old(supply.keys))
    ensures supply.keys == Rest(old(supply.keys), Clauses(Join(l, r)))
    ensures supply.asked == old(supply.asked) + Candidates(Join(l, r), bound)
    decreases Join(l, r), 0, 1
  {
    var a, b := RewriteBoth(Join(l, r), l, r, bound + PatternVariables(r), bound + PatternVariables(l), supply);
    out := Join(a, b);
  }

  // Across an OPTIONAL only the optional side may: a row on the other survives without a match.
  method RewriteLeftJoin(l: Pattern, r: Pattern, e: Option<Expr>, bound: set<Var>, supply: Supply) returns (out: Pattern)
    modifies supply
    ensures out == Filled(LeftJoin(l, r, e), old(supply.keys))
    ensures supply.keys == Rest(old(supply.keys), Clauses(LeftJoin(l, r, e)))
    ensures supply.asked == old(supply.asked) + Candidates(LeftJoin(l, r, e), bound)
    decreases LeftJoin(l, r, e), 0, 1
  {
    var a, b := RewriteBoth(LeftJoin(l, r, e), l, r, bound, bound + PatternVariables(l), supply);
    out := LeftJoin(a, b, e);
  }

  method RewriteInside(p: Pattern, bound: set<Var>, supply: Supply) returns (out: Pattern)
    requires p.Filter? || p.Graph? || p.Extend? || p.OrderBy? || p.Project? || p.Distinct? || p.Slice? || p.Group?
    modifies supply
    ensures out == Filled(p, old(supply.keys))
    ensures supply.keys == Rest(old(supply.keys), Clauses(p))
    ensures supply.asked == old(supply.asked) + Candidates(p, bound)
    decreases p, 0
  {
    var a := RewriteServices(p.inner, bound, supply);
    match p {
      case Filter(e, _) => out := Filter(e, a);
      case Graph(name, _) => out := Graph(name, a);
      case Extend(_, v, e) => out := Extend(a, v, e);
      case OrderBy(_) => out := OrderBy(a);
      case Project(_, keep) => out := Project(a, keep);
      case Distinct(_) => out := Distinct(a);
      case Slice(_, start, length) => out := Slice(a, start, length);
      case Group(_, ks, aggregate) => out := Group(a, ks, aggregate);
    }
  }

  method RewriteBoth(ghost p: Pattern, l: Pattern, r: Pattern, forLeft: set<Var>, forRight: set<Var>, supply: Supply)
    returns (a: Pattern, b: Pattern)
    requires l < p && r < p
    modifies supply
    ensures a == Filled(l, old(supply.keys)) && b == Filled(r, Rest(old(supply.keys), Clauses(l)))
    ensures supply.keys == Rest(old(supply.keys), Clauses(l) + Clauses(r))
    ensures supply.asked == old(supply.asked) + (Candidates(l, forLeft) + Candidates(r, forRight))
    decreases p, 0, 0
  {
    ghost var keys, asked := supply.keys, supply.asked;
    a := RewriteServices(l, forLeft, supply);
    b := RewriteServices(r, forRight, supply);
    RestTwice(keys, Clauses(l), Clauses(r));
    Regroup(asked, Candidates(l, forLeft), Candidates(r, forRight));
  }

  method ServiceCandidates(p: Pattern) returns (out: seq<set<Var>>)
    ensures out == Candidates(p, {})
  {
    var supply := new Supply([]);
    var same := RewriteServices(p, {}, supply);
    out := supply.asked;
  }

  method WithPushedKeys(p: Pattern, keys: seq<Option<Keys>>) returns (out: Pattern)
    ensures out == Filled(p, keys)
  {
    var supply := new Supply(keys);
    out := RewriteServices(p, {}, supply);
  }

  // --- Covered by the keys -------------------------------------------------------------------------------------

  predicate WellFormed(keys: Keys) {
    && (forall i, j :: 0 <= i < j < |keys.variables| ==> keys.variables[i] != keys.variables[j])
    && (forall i, j :: 0 <= i < j < |keys.rows| ==> keys.rows[i] != keys.rows[j])
    && (forall i :: 0 <= i < |keys.rows| ==> |keys.rows[i]| == |keys.variables|)
  }

  function TupleOf(vars: seq<Var>, s: Solution): (t: seq<Term>)
    requires forall v :: v in vars ==> v in s
    ensures |t| == |vars| && forall i :: 0 <= i < |vars| ==> t[i] == s[vars[i]]
  {
    if vars == [] then [] else [s[vars[0]]] + TupleOf(vars[1..], s)
  }

  // The solution binds every key variable, to one of the tuples.
  ghost predicate Covered(keys: Keys, s: Solution) {
    (forall v :: v in keys.variables ==> v in s) && TupleOf(keys.variables, s) in keys.rows
  }

  ghost predicate CoveredBy(keys: seq<Option<Keys>>, s: Solution) {
    forall k :: k in keys && k.Some? ==> WellFormed(k.value) && Covered(k.value, s)
  }

  lemma {:induction false} TupleMore(vars: seq<Var>, s: Solution, t: Solution)
    requires Extends(s, t) && forall v :: v in vars ==> v in s
    ensures (forall v :: v in vars ==> v in t) && TupleOf(vars, s) == TupleOf(vars, t)
  {
    if vars != [] {
      TupleMore(vars[1..], s, t);
    }
  }

  lemma CoveredMore(keys: seq<Option<Keys>>, s: Solution, t: Solution)
    requires CoveredBy(keys, s) && Extends(s, t)
    ensures CoveredBy(keys, t)
  {
    forall k | k in keys && k.Some?
      ensures Covered(k.value, t)
    {
      TupleMore(k.value.variables, s, t);
    }
  }

  // --- A table of keys joins each covered solution once, to itself ---------------------------------------------

  lemma {:induction false} RowFromDistinct(s: Solution, vars: seq<Var>, row: seq<Term>)
    requires |row| == |vars| && (forall i, j :: 0 <= i < j < |vars| ==> vars[i] != vars[j])
    requires forall v :: v in vars ==> v !in s
    ensures RowFrom(Some(s), vars, SomeEach(row)).Some?
    ensures var t := RowFrom(Some(s), vars, SomeEach(row)).value;
            && t.Keys == s.Keys + (set v | v in vars)
            && (forall v :: v in s ==> t[v] == s[v])
            && (forall i :: 0 <= i < |vars| ==> t[vars[i]] == row[i])
    decreases |vars|
  {
    if vars != [] {
      var next := s[vars[0] := row[0]];
      assert SomeEach(row)[1..] == SomeEach(row[1..]);
      assert RowFrom(Some(s), vars, SomeEach(row)) == RowFrom(Some(next), vars[1..], SomeEach(row[1..]));
      RowFromDistinct(next, vars[1..], row[1..]);
      var t := RowFrom(Some(s), vars, SomeEach(row)).value;
      forall i | 0 <= i < |vars|
        ensures t[vars[i]] == row[i]
      {
        if i > 0 {
          assert vars[1..][i - 1] == vars[i] && row[1..][i - 1] == row[i];
        }
      }
      assert (set v | v in vars) == {vars[0]} + (set v | v in vars[1..]);
    }
  }

  lemma RowMatches(vars: seq<Var>, t: Solution, row: seq<Term>, x: Solution)
    requires |row| == |vars| && t.Keys == (set v | v in vars) && (forall i :: 0 <= i < |vars| ==> t[vars[i]] == row[i])
    requires forall v :: v in vars ==> v in x
    ensures Compatible(x, t) <==> TupleOf(vars, x) == row
    ensures Compatible(x, t) ==> x + t == x
  {
    if TupleOf(vars, x) == row {
      forall v | v in t
        ensures v in x && x[v] == t[v]
      {
        var i :| 0 <= i < |vars| && vars[i] == v;
        assert TupleOf(vars, x)[i] == row[i];
      }
    }
    if Compatible(x, t) {
      forall i | 0 <= i < |vars|
        ensures TupleOf(vars, x)[i] == row[i]
      {
        assert vars[i] in t && x[vars[i]] == t[vars[i]];
      }
      forall v | v in t
        ensures x[v] == t[v]
      {
        assert v in vars;
      }
    }
  }

  lemma OneRow(keys: Keys, row: seq<Term>, x: Solution)
    requires WellFormed(keys) && |row| == |keys.variables| && forall v :: v in keys.variables ==> v in x
    ensures JoinOne(x, RowBag(map[], keys.variables)(SomeEach(row))) == if TupleOf(keys.variables, x) == row then [x] else []
  {
    var vars := keys.variables;
    RowFromDistinct(map[], vars, row);
    var t := RowFrom(Some(map[]), vars, SomeEach(row)).value;
    FlatMapOne(t, Against(x));
    RowMatches(vars, t, row, x);
  }

  lemma TableHead(keys: Keys, rows: seq<seq<Term>>)
    requires rows != []
    ensures ValuesBag(keys.variables, Somes(rows))
         == RowBag(map[], keys.variables)(SomeEach(rows[0])) + ValuesBag(keys.variables, Somes(rows[1..]))
  {
    var some := Somes(rows);
    assert some[0] == SomeEach(rows[0]) && some[1..] == Somes(rows[1..]);
  }

  lemma TailWellFormed(keys: Keys, rows: seq<seq<Term>>)
    requires WellFormed(keys.(rows := rows)) && rows != []
    ensures WellFormed(keys.(rows := rows[1..])) && rows[0] !in rows[1..] && |rows[0]| == |keys.variables|
  {
    var k := keys.(rows := rows);
    assert forall i :: 0 <= i < |rows[1..]| ==> rows[1..][i] == k.rows[i + 1];
    assert k.rows[0] == rows[0];
  }

  lemma {:induction false} TableOnce(keys: Keys, rows: seq<seq<Term>>, x: Solution)
    requires WellFormed(keys.(rows := rows)) && forall v :: v in keys.variables ==> v in x
    ensures JoinOne(x, ValuesBag(keys.variables, Somes(rows))) == if TupleOf(keys.variables, x) in rows then [x] else []
  {
    if rows != [] {
      TailWellFormed(keys, rows);
      TableOnce(keys, rows[1..], x);
      OneRow(keys.(rows := rows), rows[0], x);
      TableHead(keys, rows);
      JoinOneAppend(x, RowBag(map[], keys.variables)(SomeEach(rows[0])), ValuesBag(keys.variables, Somes(rows[1..])));
      InHeadOrTail(rows, TupleOf(keys.variables, x));
    }
  }

  lemma InHeadOrTail<T>(xs: seq<T>, x: T)
    requires xs != []
    ensures x in xs <==> x == xs[0] || x in xs[1..]
  {
    assert xs == [xs[0]] + xs[1..];
  }

  lemma TableKeeps(keys: Keys, xs: seq<Solution>)
    requires WellFormed(keys) && forall x :: x in xs ==> Covered(keys, x)
    ensures JoinBags(xs, ValuesBag(keys.variables, Somes(keys.rows))) == xs
  {
    var table := ValuesBag(keys.variables, Somes(keys.rows));
    forall x | x in xs
      ensures JoinedWith(table)(x) == Keep(Everything())(x)
    {
      TableOnce(keys, keys.rows, x);
    }
    FlatMapEqual(xs, JoinedWith(table), Keep(Everything()));
    SelectIsFlatMap(xs, Everything());
    SelectEvery(xs, Everything());
  }

  // --- The fragment ----------------------------------------------------------------------------------------------

  // The variables every solution of a pattern binds, whatever its services say.
  function Certain(p: Pattern): set<Var> {
    match p
    case Bgp(ts) => TriplesVars(ts)
    case Path(s, _, o) => PositionVars(s) + PositionVars(o)
    case Values(vars, rows) => ValuesCertain(vars, rows)
    case Join(l, r) => Certain(l) + Certain(r)
    case LeftJoin(l, _, _) => Certain(l)
    case Union(l, r) => Certain(l) * Certain(r)
    case Minus(l, _) => Certain(l)
    case Filter(_, i) => Certain(i)
    case Graph(name, i) => PositionVars(name) + Certain(i)
    case Extend(i, _, _) => Certain(i)
    case Project(i, keep) => set v | v in Certain(i) && v in keep
    case Distinct(i) => Certain(i)
    case OrderBy(i) => Certain(i)
    case Slice(i, _, _) => Certain(i)
    case Group(_, _, _) => {}
    case Service(_, _) => {}
  }

  // The expression has its verdict once the local part is matched.
  predicate Settles(e: Expr, bound: set<Var>) {
    Inspectable(e) && Needs(e) <= bound
  }

  // Patterns without a SERVICE, and over them SERVICE clauses, joins, unions, GRAPH blocks, subqueries, and filters and
  // BINDs that the local part settles.
  predicate Monotone(p: Pattern) {
    Clauses(p) == 0 || match p
      case Service(_, _) => true
      case Join(l, r) => Monotone(l) && Monotone(r)
      case Union(l, r) => Monotone(l) && Monotone(r)
      case Filter(e, i) => Monotone(i) && Settles(e, Certain(i))
      case Graph(_, i) => Monotone(i)
      case OrderBy(i) => Monotone(i)
      case Project(i, _) => Monotone(i)
      case Extend(i, _, e) => Monotone(i) && Settles(e, Certain(i))
      case _ => false
  }

  lemma {:induction false} LocalFilled(p: Pattern, keys: seq<Option<Keys>>)
    requires Clauses(p) == 0
    ensures Filled(p, keys) == p && WithoutServices(p) == p
  {
    match p
    case Join(l, r) => LocalFilled(l, keys); LocalFilled(r, Rest(keys, 0));
    case LeftJoin(l, r, _) => LocalFilled(l, keys); LocalFilled(r, Rest(keys, 0));
    case Union(l, r) => LocalFilled(l, keys); LocalFilled(r, Rest(keys, 0));
    case Minus(l, r) => LocalFilled(l, keys); LocalFilled(r, Rest(keys, 0));
    case Filter(_, i) => LocalFilled(i, keys);
    case Graph(_, i) => LocalFilled(i, keys);
    case Extend(i, _, _) => LocalFilled(i, keys);
    case OrderBy(i) => LocalFilled(i, keys);
    case Project(i, _) => LocalFilled(i, keys);
    case Distinct(i) => LocalFilled(i, keys);
    case Slice(i, _, _) => LocalFilled(i, keys);
    case Group(i, _, _) => LocalFilled(i, keys);
    case _ =>
  }

  ghost predicate ExtendsSome(xs: seq<Solution>, s: Solution) {
    exists x :: x in xs && Extends(x, s)
  }

  lemma ExtendsBoth(x: Solution, y: Solution, x': Solution, y': Solution)
    requires Extends(x, x') && Extends(y, y') && Compatible(x', y')
    ensures Compatible(x, y) && Extends(x + y, x' + y')
  {
    forall v | v in x && v in y
      ensures x[v] == y[v]
    {
      assert x'[v] == x[v] && y'[v] == y[v];
    }
    forall v | v in x + y
      ensures v in x' + y' && (x' + y')[v] == (x + y)[v]
    {
      if v in y {
        assert (x' + y')[v] == y'[v];
      } else {
        assert (x' + y')[v] == x'[v];
      }
    }
  }

  // --- What is bound whatever a service says -------------------------------------------------------------------

  lemma PathEnds(view: View, graph: Option<Term>, s: Position, e: PathExpr, o: Position, t: Solution)
    requires t in PathBag(view, graph, s, e, o)
    ensures PositionVars(s) + PositionVars(o) <= t.Keys
    decreases e
  {
    match e
    case Link(p) => TripleBagBinds(view, TriplePattern(s, T(p), o), ActiveScope(graph), t);
    case Reverse(i) => PathEnds(view, graph, o, i, s, t);
    case Alternative(a, b) =>
      if t in PathBag(view, graph, s, a, o) {
        PathEnds(view, graph, s, a, o, t);
      } else {
        PathEnds(view, graph, s, b, o, t);
      }
    case _ =>
      assert t in ClosureSet(view, graph, s, e, o);
      var x, y :| EndsFrom(map[], s, o, x, y).Some? && t == EndsFrom(map[], s, o, x, y).value;
      EndsBind(map[], s, o, x, y);
  }

  lemma {:induction false} TriplesBind(view: View, active: Option<Term>, ts: seq<TriplePattern>, s: Solution)
    requires s in BgpBag(view, active, ts)
    ensures TriplesVars(ts) <= s.Keys
  {
    if ts != [] {
      var k, rest := TripleBag(view, ts[0], ActiveScope(active)), BgpBag(view, active, ts[1..]);
      JoinMember(k, rest, s);
      var x, y :| x in k && y in rest && Compatible(x, y) && s == x + y;
      TripleBagBinds(view, ts[0], ActiveScope(active), x);
      TriplesBind(view, active, ts[1..], y);
    }
  }

  lemma LeafBinds(c: Context, active: Option<Term>, p: Pattern, s: Solution)
    requires (p.Bgp? || p.Path? || p.Values?) && s in Eval(c, active, p)
    ensures Certain(p) <= s.Keys
  {
    match p
    case Bgp(ts) => TriplesBind(c.view, active, ts, s);
    case Path(a, e, b) => PathEnds(c.view, active, a, e, b, s);
    case Values(vars, rows) => ItemBinds(c.view, ValuesStep(vars, rows), s);
  }

  ghost predicate AllHold(vs: set<Var>, xs: seq<Solution>) {
    forall x :: x in xs ==> vs <= x.Keys
  }

  lemma {:induction false} CertainBinds(c: Context, active: Option<Term>, p: Pattern)
    ensures AllHold(Certain(p), Eval(c, active, p))
    decreases p, 1, 0
  {
    match p
    case Join(l, r) =>
      CertainBinds(c, active, l);
      CertainBinds(c, active, r);
      JoinBinds(Eval(c, active, l), Eval(c, active, r), Certain(l), Certain(r));
    case LeftJoin(l, r, e) =>
      CertainBinds(c, active, l);
      LeftBinds(c.rules, Eval(c, active, l), Eval(c, active, r), e, Certain(l));
    case Union(l, r) =>
      CertainBinds(c, active, l);
      CertainBinds(c, active, r);
    case Minus(l, r) =>
      CertainBinds(c, active, l);
      SelectSub(Eval(c, active, l), Survives(Eval(c, active, r)));
    case Filter(e, i) =>
      CertainBinds(c, active, i);
      SelectSub(Eval(c, active, i), Keeps(c.rules, e));
    case Graph(T(g), i) => CertainBinds(c, Some(g), i);
    case Graph(V(v), i) => CertainBindsEach(c, Listing(c.view.GraphNames()), v, i);
    case Bgp(_) => LeavesBind(c, active, p);
    case Path(_, _, _) => LeavesBind(c, active, p);
    case Values(_, _) => LeavesBind(c, active, p);
    case Group(_, _, _) =>
    case Service(_, _) =>
    case _ => ModifierBinds(c, active, p);
  }

  lemma LeavesBind(c: Context, active: Option<Term>, p: Pattern)
    requires p.Bgp? || p.Path? || p.Values?
    ensures AllHold(Certain(p), Eval(c, active, p))
  {
    forall s | s in Eval(c, active, p)
      ensures Certain(p) <= s.Keys
    {
      LeafBinds(c, active, p, s);
    }
  }

  lemma {:induction false} ModifierBinds(c: Context, active: Option<Term>, p: Pattern)
    requires p.Extend? || p.Project? || p.Distinct? || p.OrderBy? || p.Slice?
    ensures AllHold(Certain(p), Eval(c, active, p))
    decreases p, 0, 0
  {
    CertainBinds(c, active, p.inner);
    var xs := Eval(c, active, p.inner);
    forall s | s in Eval(c, active, p)
      ensures Certain(p) <= s.Keys
    {
      match p
      case Extend(i, v, e) => FlatMapMember(xs, Extended(c.rules, v, e), s);
      case Project(i, keep) => FlatMapMember(xs, Projected(keep), s);
      case Distinct(i) => DedupSet(xs);
      case OrderBy(i) =>
      case Slice(i, start, length) => assert s in xs;
    }
  }

  lemma {:induction false} CertainBindsEach(c: Context, names: seq<Term>, v: Var, i: Pattern)
    ensures AllHold({v} + Certain(i), EvalEach(c, names, v, i))
    decreases i, 2, |names|
  {
    if names != [] {
      CertainBinds(c, Some(names[0]), i);
      CertainBindsEach(c, names[1..], v, i);
      var one: Solution := map[v := names[0]];
      JoinSingle(one, Eval(c, Some(names[0]), i));
      JoinBinds([one], Eval(c, Some(names[0]), i), {v}, Certain(i));
    }
  }

  lemma JoinBinds(xs: seq<Solution>, ys: seq<Solution>, a: set<Var>, b: set<Var>)
    requires AllHold(a, xs) && AllHold(b, ys)
    ensures AllHold(a + b, JoinBags(xs, ys))
  {
    forall s | s in JoinBags(xs, ys)
      ensures a + b <= s.Keys
    {
      JoinMember(xs, ys, s);
    }
  }

  lemma LeftBinds(r: Rules, xs: seq<Solution>, ys: seq<Solution>, e: Option<Expr>, a: set<Var>)
    requires AllHold(a, xs)
    ensures AllHold(a, FlatMap(xs, OrAlone(r, ys, e)))
  {
    forall s | s in FlatMap(xs, OrAlone(r, ys, e))
      ensures a <= s.Keys
    {
      var x := LeftRow(r, xs, ys, e, s);
    }
  }

  // Every row of a left join extends the left row it comes from.
  lemma LeftRow(r: Rules, xs: seq<Solution>, ys: seq<Solution>, e: Option<Expr>, s: Solution) returns (x: Solution)
    requires s in FlatMap(xs, OrAlone(r, ys, e))
    ensures x in xs && s in OrAlone(r, ys, e)(x) && Extends(x, s)
  {
    FlatMapMember(xs, OrAlone(r, ys, e), s);
    x :| x in xs && s in OrAlone(r, ys, e)(x);
    if s != x {
      SelectMember(JoinOne(x, ys), KeepsIf(r, e), s);
      JoinOneMember(x, ys, s);
    }
  }

  lemma {:induction false} CertainSame(p: Pattern)
    ensures Certain(WithoutServices(p)) == Certain(p)
  {
    match p
    case Join(l, r) => CertainSame(l); CertainSame(r);
    case LeftJoin(l, r, _) => CertainSame(l);
    case Union(l, r) => CertainSame(l); CertainSame(r);
    case Minus(l, _) => CertainSame(l);
    case Filter(_, i) => CertainSame(i);
    case Graph(_, i) => CertainSame(i);
    case Extend(i, _, _) => CertainSame(i);
    case OrderBy(i) => CertainSame(i);
    case Project(i, _) => CertainSame(i);
    case Distinct(i) => CertainSame(i);
    case Slice(i, _, _) => CertainSame(i);
    case _ =>
  }

  // --- A service only ever adds to what the local part says ----------------------------------------------------

  ghost function Local(c: Context, active: Option<Term>, p: Pattern): seq<Solution> {
    Eval(c, active, WithoutServices(p))
  }

  ghost predicate Grows(xs: seq<Solution>, ys: seq<Solution>) {
    forall y :: y in ys ==> ExtendsSome(xs, y)
  }

  lemma GrowsJoin(a: seq<Solution>, a': seq<Solution>, b: seq<Solution>, b': seq<Solution>)
    requires Grows(a, a') && Grows(b, b')
    ensures Grows(JoinBags(a, b), JoinBags(a', b'))
  {
    forall s | s in JoinBags(a', b')
      ensures ExtendsSome(JoinBags(a, b), s)
    {
      JoinMember(a', b', s);
      var x', y' :| x' in a' && y' in b' && Compatible(x', y') && s == x' + y';
      var x :| x in a && Extends(x, x');
      var y :| y in b && Extends(y, y');
      ExtendsBoth(x, y, x', y');
      JoinMember(a, b, x + y);
    }
  }

  lemma GrowsSelf(xs: seq<Solution>)
    ensures Grows(xs, xs)
  {
    forall x | x in xs
      ensures ExtendsSome(xs, x)
    {
      assert Extends(x, x);
    }
  }

  lemma GrowsSelected(xs: seq<Solution>, ys: seq<Solution>, q: Solution -> bool, n: set<Var>)
    requires Grows(xs, ys) && SettledBy(q, n) && AllHold(n, xs)
    ensures Grows(Select(xs, q), Select(ys, q))
  {
    forall y | y in Select(ys, q)
      ensures ExtendsSome(Select(xs, q), y)
    {
      SelectMember(ys, q, y);
      var x :| x in xs && Extends(x, y);
      SelectMember(xs, q, x);
    }
  }

  lemma KeepsSettled(r: Rules, e: Expr, n: set<Var>)
    requires Settles(e, n)
    ensures SettledBy(Keeps(r, e), n)
  {
    forall a: Solution, m: Solution | n <= a.Keys && Extends(a, m)
      ensures Keeps(r, e)(m) == Keeps(r, e)(a)
    {
      EvaluateLocal(r, e, a, m);
    }
  }

  lemma LocalHolds(c: Context, active: Option<Term>, p: Pattern)
    ensures AllHold(Certain(p), Local(c, active, p))
  {
    CertainBinds(c, active, WithoutServices(p));
    CertainSame(p);
  }

  lemma {:induction false} ServicesOnlyAdd(c: Context, active: Option<Term>, p: Pattern)
    requires Monotone(p)
    ensures Grows(Local(c, active, p), Eval(c, active, p))
    decreases p, 0, 0
  {
    if Clauses(p) == 0 {
      LocalFilled(p, []);
      GrowsSelf(Eval(c, active, p));
    } else {
      match p
      case Service(_, _) => NothingLocal(Eval(c, active, p));
      case Join(l, r) =>
        ServicesOnlyAdd(c, active, l);
        ServicesOnlyAdd(c, active, r);
        GrowsJoin(Local(c, active, l), Eval(c, active, l), Local(c, active, r), Eval(c, active, r));
      case Union(l, r) =>
        ServicesOnlyAdd(c, active, l);
        ServicesOnlyAdd(c, active, r);
        GrowsUnion(Local(c, active, l), Eval(c, active, l), Local(c, active, r), Eval(c, active, r));
      case Filter(e, i) =>
        ServicesOnlyAdd(c, active, i);
        KeepsSettled(c.rules, e, Certain(i));
        LocalHolds(c, active, i);
        GrowsSelected(Local(c, active, i), Eval(c, active, i), Keeps(c.rules, e), Certain(i));
      case Graph(T(g), i) => ServicesOnlyAdd(c, Some(g), i);
      case Graph(V(v), i) => GrowsEach(c, Listing(c.view.GraphNames()), v, i);
      case OrderBy(i) => ServicesOnlyAdd(c, active, i);
      case Project(i, keep) =>
        ServicesOnlyAdd(c, active, i);
        GrowsProjected(Local(c, active, i), Eval(c, active, i), keep);
      case Extend(i, v, e) =>
        ServicesOnlyAdd(c, active, i);
        LocalHolds(c, active, i);
        GrowsExtended(c.rules, Local(c, active, i), Eval(c, active, i), v, e, Certain(i));
    }
  }

  lemma GrowsProjected(xs: seq<Solution>, ys: seq<Solution>, keep: seq<Var>)
    requires Grows(xs, ys)
    ensures Grows(FlatMap(xs, Projected(keep)), FlatMap(ys, Projected(keep)))
  {
    forall t | t in FlatMap(ys, Projected(keep))
      ensures ExtendsSome(FlatMap(xs, Projected(keep)), t)
    {
      FlatMapMember(ys, Projected(keep), t);
      var y :| y in ys && t in Projected(keep)(y);
      var x :| x in xs && Extends(x, y);
      var s := Restrict(x, set v | v in keep);
      assert s in Projected(keep)(x);
      FlatMapMember(xs, Projected(keep), s);
      assert Extends(s, t);
    }
  }

  lemma GrowsExtended(r: Rules, xs: seq<Solution>, ys: seq<Solution>, v: Var, e: Expr, n: set<Var>)
    requires Grows(xs, ys) && AllHold(n, xs) && Settles(e, n)
    ensures Grows(FlatMap(xs, Extended(r, v, e)), FlatMap(ys, Extended(r, v, e)))
  {
    forall t | t in FlatMap(ys, Extended(r, v, e))
      ensures ExtendsSome(FlatMap(xs, Extended(r, v, e)), t)
    {
      FlatMapMember(ys, Extended(r, v, e), t);
      var y :| y in ys && t in Extended(r, v, e)(y);
      var x :| x in xs && Extends(x, y);
      var s := ExtendedRow(r, x, y, v, e, n, t);
      FlatMapMember(xs, Extended(r, v, e), s);
    }
  }

  lemma ExtendedRow(r: Rules, x: Solution, y: Solution, v: Var, e: Expr, n: set<Var>, t: Solution) returns (s: Solution)
    requires Extends(x, y) && n <= x.Keys && Settles(e, n) && t in Extended(r, v, e)(y)
    ensures s in Extended(r, v, e)(x) && Extends(s, t)
  {
    EvaluateLocal(r, e, x, y);
    s := Extended(r, v, e)(x)[0];
  }

  lemma NothingLocal(ys: seq<Solution>)
    ensures Grows([map[]], ys)
  {
    var none: Solution := map[];
    forall y | y in ys
      ensures ExtendsSome([none], y)
    {
      assert none in [none] && Extends(none, y);
    }
  }

  lemma GrowsUnion(a: seq<Solution>, a': seq<Solution>, b: seq<Solution>, b': seq<Solution>)
    requires Grows(a, a') && Grows(b, b')
    ensures Grows(a + b, a' + b')
  {
    forall s | s in a' + b'
      ensures ExtendsSome(a + b, s)
    {
      if s in a' {
        var x :| x in a && Extends(x, s);
        assert x in a + b;
      } else {
        var x :| x in b && Extends(x, s);
        assert x in a + b;
      }
    }
  }

  lemma {:induction false} GrowsEach(c: Context, names: seq<Term>, v: Var, i: Pattern)
    requires Monotone(i)
    ensures Grows(EvalEach(c, names, v, WithoutServices(i)), EvalEach(c, names, v, i))
    decreases i, 1, |names|
  {
    if names != [] {
      var one, g := map[v := names[0]], Some(names[0]);
      ServicesOnlyAdd(c, g, i);
      GrowsEach(c, names[1..], v, i);
      GrowsSelf([one]);
      GrowsJoin([one], [one], Local(c, g, i), Eval(c, g, i));
      JoinSingle(one, Local(c, g, i));
      JoinSingle(one, Eval(c, g, i));
      GrowsUnion(JoinOne(one, Local(c, g, i)), JoinOne(one, Eval(c, g, i)),
                 EvalEach(c, names[1..], v, WithoutServices(i)), EvalEach(c, names[1..], v, i));
    }
  }

  lemma {:induction false} CertainFilled(p: Pattern, keys: seq<Option<Keys>>)
    ensures Certain(Filled(p, keys)) == Certain(p)
  {
    match p
    case Join(l, r) => CertainFilled(l, keys); CertainFilled(r, Rest(keys, Clauses(l)));
    case LeftJoin(l, r, _) => CertainFilled(l, keys);
    case Union(l, r) => CertainFilled(l, keys); CertainFilled(r, Rest(keys, Clauses(l)));
    case Minus(l, r) => CertainFilled(l, keys);
    case Filter(_, i) => CertainFilled(i, keys);
    case Graph(_, i) => CertainFilled(i, keys);
    case Extend(i, _, _) => CertainFilled(i, keys);
    case OrderBy(i) => CertainFilled(i, keys);
    case Project(i, _) => CertainFilled(i, keys);
    case Distinct(i) => CertainFilled(i, keys);
    case Slice(i, _, _) => CertainFilled(i, keys);
    case _ =>
  }

  lemma {:induction false} FilledMonotone(p: Pattern, keys: seq<Option<Keys>>)
    requires Monotone(p)
    ensures Monotone(Filled(p, keys)) && WithoutServices(Filled(p, keys)) == WithoutServices(p)
  {
    if Clauses(p) == 0 {
      LocalFilled(p, keys);
    } else {
      match p
      case Join(l, r) => FilledMonotone(l, keys); FilledMonotone(r, Rest(keys, Clauses(l)));
      case Union(l, r) => FilledMonotone(l, keys); FilledMonotone(r, Rest(keys, Clauses(l)));
      case Service(_, _) =>
      case Filter(e, i) => FilledMonotone(i, keys); CertainFilled(i, keys);
      case Graph(_, i) => FilledMonotone(i, keys);
      case OrderBy(i) => FilledMonotone(i, keys);
      case Project(i, _) => FilledMonotone(i, keys);
      case Extend(i, _, _) => FilledMonotone(i, keys); CertainFilled(i, keys);
    }
  }

  // --- What the keys may name ------------------------------------------------------------------------------------

  ghost predicate NamesOnly(keys: seq<Option<Keys>>, vs: set<Var>) {
    forall k :: k in keys && k.Some? ==> forall v :: v in k.value.variables ==> v in vs
  }

  ghost predicate NamesNot(keys: seq<Option<Keys>>, v: Var) {
    forall k :: k in keys && k.Some? ==> v !in k.value.variables
  }

  function Taken<T>(xs: seq<T>, n: nat): seq<T> {
    if n <= |xs| then xs[..n] else xs
  }

  // No key goes into a subquery by a variable the subquery hides, or under a BIND by the variable it binds.
  ghost predicate Visible(p: Pattern, keys: seq<Option<Keys>>) {
    Clauses(p) == 0 || match p
      case Join(l, r) => Visible(l, keys) && Visible(r, Rest(keys, Clauses(l)))
      case Union(l, r) => Visible(l, keys) && Visible(r, Rest(keys, Clauses(l)))
      case Filter(_, i) => Visible(i, keys)
      case Graph(_, i) => Visible(i, keys)
      case OrderBy(i) => Visible(i, keys)
      case Project(i, keep) => Visible(i, keys) && NamesOnly(Taken(keys, Clauses(i)), set v | v in keep)
      case Extend(i, v, _) => Visible(i, keys) && NamesNot(Taken(keys, Clauses(i)), v)
      case _ => true
  }

  // The same, of the candidates the walk would ask for.
  predicate Shown(p: Pattern, bound: set<Var>) {
    Clauses(p) == 0 || match p
      case Join(l, r) => Shown(l, bound + PatternVariables(r)) && Shown(r, bound + PatternVariables(l))
      case Union(l, r) => Shown(l, bound) && Shown(r, bound)
      case Filter(_, i) => Shown(i, bound)
      case Graph(_, i) => Shown(i, bound)
      case OrderBy(i) => Shown(i, bound)
      case Project(i, keep) => Shown(i, bound) && EachWithin(Candidates(i, bound), set v | v in keep)
      case Extend(i, v, _) => Shown(i, bound) && forall k :: 0 <= k < |Candidates(i, bound)| ==> v !in Candidates(i, bound)[k]
      case _ => true
  }

  // What the keys may name, clause by clause.
  ghost predicate Asked(keys: seq<Option<Keys>>, candidates: seq<set<Var>>) {
    forall i :: 0 <= i < |keys| && i < |candidates| && keys[i].Some? ==> forall v :: v in keys[i].value.variables ==> v in candidates[i]
  }

  predicate EachWithin(candidates: seq<set<Var>>, bound: set<Var>) {
    forall i :: 0 <= i < |candidates| ==> candidates[i] <= bound
  }

  lemma AskedBoth(keys: seq<Option<Keys>>, n: nat, left: seq<set<Var>>, right: seq<set<Var>>)
    requires Asked(keys, left + right) && |left| == n
    ensures Asked(keys, left) && Asked(Rest(keys, n), right)
  {
    assert forall i :: 0 <= i < n ==> (left + right)[i] == left[i];
    assert forall i :: 0 <= i < |right| ==> (left + right)[n + i] == right[i];
    assert forall i :: 0 <= i < |Rest(keys, n)| ==> Rest(keys, n)[i] == keys[n + i];
  }

  lemma AskedNames(keys: seq<Option<Keys>>, candidates: seq<set<Var>>, n: nat)
    requires Asked(keys, candidates) && |candidates| == n
    ensures forall vs :: EachWithin(candidates, vs) ==> NamesOnly(Taken(keys, n), vs)
    ensures forall v :: (forall k :: 0 <= k < n ==> v !in candidates[k]) ==> NamesNot(Taken(keys, n), v)
  {
    var some := Taken(keys, n);
    assert forall i :: 0 <= i < |some| ==> some[i] == keys[i];
  }

  lemma {:induction false} ShownVisible(p: Pattern, bound: set<Var>, keys: seq<Option<Keys>>)
    requires Shown(p, bound) && Asked(keys, Candidates(p, bound))
    ensures Visible(p, keys)
  {
    if Clauses(p) != 0 {
      match p
      case Join(l, r) =>
        CandidatesCount(l, bound + PatternVariables(r));
        AskedBoth(keys, Clauses(l), Candidates(l, bound + PatternVariables(r)), Candidates(r, bound + PatternVariables(l)));
        ShownVisible(l, bound + PatternVariables(r), keys);
        ShownVisible(r, bound + PatternVariables(l), Rest(keys, Clauses(l)));
      case Union(l, r) =>
        CandidatesCount(l, bound);
        AskedBoth(keys, Clauses(l), Candidates(l, bound), Candidates(r, bound));
        ShownVisible(l, bound, keys);
        ShownVisible(r, bound, Rest(keys, Clauses(l)));
      case Filter(_, i) => ShownVisible(i, bound, keys);
      case Graph(_, i) => ShownVisible(i, bound, keys);
      case OrderBy(i) => ShownVisible(i, bound, keys);
      case Project(i, keep) =>
        ShownVisible(i, bound, keys);
        CandidatesCount(i, bound);
        AskedNames(keys, Candidates(i, bound), Clauses(i));
      case Extend(i, v, _) =>
        ShownVisible(i, bound, keys);
        CandidatesCount(i, bound);
        AskedNames(keys, Candidates(i, bound), Clauses(i));
      case _ =>
    }
  }

  lemma TakenTwice<T>(xs: seq<T>, m: nat, n: nat)
    requires m <= n
    ensures Taken(Taken(xs, n), m) == Taken(xs, m)
  {
  }

  lemma RestTaken<T>(xs: seq<T>, m: nat, n: nat)
    requires m <= n
    ensures Rest(Taken(xs, n), m) == Taken(Rest(xs, m), n - m)
  {
  }

  lemma {:induction false} VisibleTaken(p: Pattern, keys: seq<Option<Keys>>, n: nat)
    requires Visible(p, keys) && Clauses(p) <= n
    ensures Visible(p, Taken(keys, n))
  {
    if Clauses(p) != 0 {
      match p
      case Join(l, r) =>
        VisibleTaken(l, keys, n);
        VisibleTaken(r, Rest(keys, Clauses(l)), n - Clauses(l));
        RestTaken(keys, Clauses(l), n);
      case Union(l, r) =>
        VisibleTaken(l, keys, n);
        VisibleTaken(r, Rest(keys, Clauses(l)), n - Clauses(l));
        RestTaken(keys, Clauses(l), n);
      case Filter(_, i) => VisibleTaken(i, keys, n);
      case Graph(_, i) => VisibleTaken(i, keys, n);
      case OrderBy(i) => VisibleTaken(i, keys, n);
      case Project(i, keep) =>
        VisibleTaken(i, keys, n);
        TakenTwice(keys, Clauses(i), n);
      case Extend(i, v, _) =>
        VisibleTaken(i, keys, n);
        TakenTwice(keys, Clauses(i), n);
      case _ =>
    }
  }

  // --- Pushing keys is invisible -----------------------------------------------------------------------------------

  lemma SafeUnder(keys: seq<Option<Keys>>, xs: seq<Solution>, ys: seq<Solution>)
    requires forall x :: x in xs ==> CoveredBy(keys, x)
    requires forall y :: y in ys ==> ExtendsSome(xs, y)
    ensures forall y :: y in ys ==> CoveredBy(keys, y)
  {
    forall y | y in ys
      ensures CoveredBy(keys, y)
    {
      var x :| x in xs && Extends(x, y);
      CoveredMore(keys, x, y);
    }
  }

  lemma CoveredFewer(keys: seq<Option<Keys>>, n: nat, s: Solution)
    requires CoveredBy(keys, s)
    ensures CoveredBy(Rest(keys, n), s)
  {
    assert forall k :: k in Rest(keys, n) ==> k in keys;
  }

  lemma JoinSwap(xs: seq<Solution>, a: seq<Solution>, b: seq<Solution>)
    ensures Same(JoinBags(JoinBags(xs, a), b), JoinBags(JoinBags(xs, b), a))
  {
    JoinAssociative(xs, a, b);
    JoinAssociative(xs, b, a);
    JoinCommutes(a, b);
    JoinSame(xs, xs, JoinBags(a, b), JoinBags(b, a));
  }

  lemma JoinUnion(xs: seq<Solution>, a: seq<Solution>, b: seq<Solution>)
    ensures Same(JoinBags(xs, a + b), JoinBags(xs, a) + JoinBags(xs, b))
  {
    JoinCommutes(xs, a + b);
    JoinAppend(a, b, xs);
    JoinCommutes(a, xs);
    JoinCommutes(b, xs);
    UnionSame(JoinBags(a, xs), JoinBags(xs, a), JoinBags(b, xs), JoinBags(xs, b));
  }

  ghost predicate AllCovered(keys: seq<Option<Keys>>, xs: seq<Solution>) {
    forall x :: x in xs ==> CoveredBy(keys, x)
  }

  // Coverage passes to whatever only adds to what is covered.
  lemma CoveredGrowth(keys: seq<Option<Keys>>, xs: seq<Solution>, ys: seq<Solution>)
    requires AllCovered(keys, xs) && Grows(xs, ys)
    ensures AllCovered(keys, ys)
  {
    SafeUnder(keys, xs, ys);
  }

  lemma CoveredSame(keys: seq<Option<Keys>>, xs: seq<Solution>, ys: seq<Solution>)
    requires AllCovered(keys, xs) && Same(xs, ys)
    ensures AllCovered(keys, ys)
  {
    forall y | y in ys
      ensures CoveredBy(keys, y)
    {
      SameMembers(xs, ys, y);
    }
  }

  lemma AllFewer(keys: seq<Option<Keys>>, n: nat, xs: seq<Solution>)
    requires AllCovered(keys, xs)
    ensures AllCovered(Rest(keys, n), xs)
  {
    forall x | x in xs
      ensures CoveredBy(Rest(keys, n), x)
    {
      CoveredFewer(keys, n, x);
    }
  }

  // The other side of a join, services and all, is context in which this side's keys still cover.
  lemma SideCovered(keys: seq<Option<Keys>>, xs: seq<Solution>, local: seq<Solution>, other: seq<Solution>, full: seq<Solution>)
    requires AllCovered(keys, JoinBags(JoinBags(xs, other), local)) && Grows(other, full)
    ensures AllCovered(keys, JoinBags(JoinBags(xs, full), local))
  {
    GrowsSelf(xs);
    GrowsSelf(local);
    GrowsJoin(xs, xs, other, full);
    GrowsJoin(JoinBags(xs, other), JoinBags(xs, full), local, local);
    CoveredGrowth(keys, JoinBags(JoinBags(xs, other), local), JoinBags(JoinBags(xs, full), local));
  }

  lemma EvalGrows(c: Context, active: Option<Term>, p: Pattern, q: Pattern)
    requires Monotone(q) && WithoutServices(q) == WithoutServices(p)
    ensures Grows(Local(c, active, p), Eval(c, active, q))
  {
    ServicesOnlyAdd(c, active, q);
  }

  lemma PushService(c: Context, active: Option<Term>, xs: seq<Solution>, endpoint: string, i: Pattern, keys: seq<Option<Keys>>)
    requires AllCovered(keys, xs)
    ensures JoinBags(xs, Eval(c, active, Filled(Service(endpoint, i), keys))) == JoinBags(xs, Eval(c, active, Service(endpoint, i)))
  {
    var k := First(keys);
    if xs != [] && k.Some? && k.value.variables != [] && k.value.rows != [] {
      var far := Eval(c.(view := c.remote(endpoint)), None, i);
      var table := ValuesBag(k.value.variables, Somes(k.value.rows));
      assert k in keys;
      FirstCovers(keys, xs);
      TableKeeps(k.value, xs);
      JoinAssociative(xs, table, far);
      PushedEval(c, active, endpoint, i, k.value);
    }
  }

  lemma PushedEval(c: Context, active: Option<Term>, endpoint: string, i: Pattern, keys: Keys)
    ensures Eval(c, active, Service(endpoint, Join(AsTable(keys), i)))
         == JoinBags(ValuesBag(keys.variables, Somes(keys.rows)), Eval(c.(view := c.remote(endpoint)), None, i))
    ensures Eval(c, active, Service(endpoint, i)) == Eval(c.(view := c.remote(endpoint)), None, i)
  {
    var there := c.(view := c.remote(endpoint));
    assert Eval(there, None, Join(AsTable(keys), i)) == JoinBags(Eval(there, None, AsTable(keys)), Eval(there, None, i));
    assert Eval(there, None, AsTable(keys)) == ValuesBag(keys.variables, Somes(keys.rows));
  }

  lemma FirstCovers(keys: seq<Option<Keys>>, xs: seq<Solution>)
    requires AllCovered(keys, xs) && First(keys).Some? && xs != []
    ensures WellFormed(First(keys).value)
    ensures forall x :: x in xs ==> Covered(First(keys).value, x)
  {
    var k := First(keys);
    assert k in keys;
    assert CoveredBy(keys, xs[0]);
    forall x | x in xs
      ensures Covered(k.value, x)
    {
      assert CoveredBy(keys, x);
    }
  }

  // Pushing the keys into every clause leaves the join with any context the bag it was.
  lemma {:induction false} PushSame(c: Context, active: Option<Term>, xs: seq<Solution>, p: Pattern, keys: seq<Option<Keys>>)
    requires Monotone(p) && Visible(p, keys) && AllCovered(keys, JoinBags(xs, Local(c, active, p)))
    ensures Same(JoinBags(xs, Eval(c, active, Filled(p, keys))), JoinBags(xs, Eval(c, active, p)))
    decreases p, 1
  {
    if Clauses(p) == 0 {
      LocalFilled(p, keys);
    } else {
      match p
      case Service(endpoint, i) =>
        JoinIdentity(xs);
        PushService(c, active, xs, endpoint, i, keys);
      case Join(l, r) => PushJoin(c, active, xs, l, r, keys);
      case Union(l, r) => PushUnion(c, active, xs, l, r, keys);
      case Filter(e, i) => PushFilter(c, active, xs, e, i, keys);
      case Graph(T(g), i) =>
        if g in c.view.GraphNames() {
          PushSame(c, Some(g), xs, i, keys);
        }
      case Graph(V(v), i) => PushEach(c, Listing(c.view.GraphNames()), xs, v, i, keys);
      case OrderBy(i) => PushSame(c, active, xs, i, keys);
      case Project(i, keep) => PushProject(c, active, xs, i, keep, keys);
      case Extend(i, v, e) => PushExtend(c, active, xs, i, v, e, keys);
    }
  }

  // --- A filter is a join with a table of the tuples it lets through -------------------------------------------

  ghost function Narrowed(n: set<Var>): Solution -> seq<Solution> {
    s => [Restrict(s, n)]
  }

  // What the rows a test lets through say of the variables it reads, each once.
  ghost function Passed(xs: seq<Solution>, q: Solution -> bool, n: set<Var>): seq<Solution> {
    Dedup(FlatMap(Select(xs, q), Narrowed(n)))
  }

  lemma PassedMember(xs: seq<Solution>, q: Solution -> bool, n: set<Var>, t: Solution)
    ensures t in Passed(xs, q, n) <==> exists x :: x in xs && q(x) && t == Restrict(x, n)
  {
    var rows := FlatMap(Select(xs, q), Narrowed(n));
    DedupSet(rows);
    FlatMapMember(Select(xs, q), Narrowed(n), t);
    if x :| x in xs && q(x) && t == Restrict(x, n) {
      SelectMember(xs, q, x);
      assert t in Narrowed(n)(x);
    }
    if t in rows {
      var x :| x in Select(xs, q) && t in Narrowed(n)(x);
      SelectMember(xs, q, x);
    }
  }

  lemma NarrowMatches(y: Solution, t: Solution, n: set<Var>)
    requires n <= y.Keys && t.Keys == n
    ensures Merge(y, t) == if Restrict(y, n) == t then [y] else []
  {
    if Restrict(y, n) == t {
      assert y + t == y;
    } else {
      var v :| v in n && y[v] != t[v];
    }
  }

  lemma {:induction false} NarrowOnce(y: Solution, ts: seq<Solution>, n: set<Var>)
    requires NoRepeats(ts) && n <= y.Keys && forall t :: t in ts ==> t.Keys == n
    ensures JoinOne(y, ts) == if Restrict(y, n) in ts then [y] else []
  {
    if ts != [] {
      NarrowMatches(y, ts[0], n);
      NarrowOnce(y, ts[1..], n);
      InHeadOrTail(ts, Restrict(y, n));
      if Restrict(y, n) == ts[0] {
        assert ts[0] !in ts[1..];
      }
    }
  }

  lemma TableSelects(ts: seq<Solution>, ys: seq<Solution>, q: Solution -> bool, n: set<Var>)
    requires NoRepeats(ts) && forall t :: t in ts ==> t.Keys == n
    requires AllHold(n, ys) && forall y :: y in ys ==> (q(y) <==> Restrict(y, n) in ts)
    ensures Same(JoinBags(ts, ys), Select(ys, q))
  {
    JoinCommutes(ts, ys);
    forall y | y in ys
      ensures JoinedWith(ts)(y) == Keep(q)(y)
    {
      NarrowOnce(y, ts, n);
    }
    FlatMapEqual(ys, JoinedWith(ts), Keep(q));
    SelectIsFlatMap(ys, q);
  }

  // For rows that add to local ones, and a test the local ones settle.
  lemma PassedSelects(local: seq<Solution>, ys: seq<Solution>, q: Solution -> bool, n: set<Var>)
    requires SettledBy(q, n) && AllHold(n, local) && Grows(local, ys)
    ensures Same(JoinBags(Passed(local, q, n), ys), Select(ys, q))
  {
    var ts := Passed(local, q, n);
    DedupNoRepeats(FlatMap(Select(local, q), Narrowed(n)));
    forall t | t in ts
      ensures t.Keys == n
    {
      PassedMember(local, q, n, t);
    }
    forall y | y in ys
      ensures n <= y.Keys && (q(y) <==> Restrict(y, n) in ts)
    {
      PassedVerdict(local, q, n, y);
    }
    TableSelects(ts, ys, q, n);
  }

  lemma PassedVerdict(local: seq<Solution>, q: Solution -> bool, n: set<Var>, y: Solution)
    requires SettledBy(q, n) && AllHold(n, local) && ExtendsSome(local, y)
    ensures n <= y.Keys && (q(y) <==> Restrict(y, n) in Passed(local, q, n))
  {
    var x :| x in local && Extends(x, y);
    var t := Restrict(y, n);
    PassedMember(local, q, n, t);
    assert t == Restrict(x, n);
    if z :| z in local && q(z) && t == Restrict(z, n) {
      assert Extends(t, z) && Extends(t, y);
      assert q(z) == q(t) == q(y);
    }
  }

  // In any context.
  lemma ContextSelects(xs: seq<Solution>, local: seq<Solution>, ys: seq<Solution>, q: Solution -> bool, n: set<Var>)
    requires SettledBy(q, n) && AllHold(n, local) && Grows(local, ys)
    ensures Same(JoinBags(JoinBags(xs, Passed(local, q, n)), ys), JoinBags(xs, Select(ys, q)))
  {
    PassedSelects(local, ys, q, n);
    JoinAssociative(xs, Passed(local, q, n), ys);
    JoinSame(xs, xs, JoinBags(Passed(local, q, n), ys), Select(ys, q));
  }

  lemma {:induction false} PushSelected(c: Context, active: Option<Term>, xs: seq<Solution>, i: Pattern, keys: seq<Option<Keys>>,
                                        q: Solution -> bool, n: set<Var>)
    requires Monotone(i) && Visible(i, keys) && SettledBy(q, n) && n <= Certain(i)
    requires AllCovered(keys, JoinBags(xs, Select(Local(c, active, i), q)))
    ensures Same(JoinBags(xs, Select(Eval(c, active, Filled(i, keys)), q)), JoinBags(xs, Select(Eval(c, active, i), q)))
    decreases i, 2
  {
    var local, i' := Local(c, active, i), Filled(i, keys);
    var context := JoinBags(xs, Passed(local, q, n));
    LocalHolds(c, active, i);
    GrowsSelf(local);
    FilledMonotone(i, keys);
    EvalGrows(c, active, i, i);
    EvalGrows(c, active, i, i');
    ContextSelects(xs, local, local, q, n);
    ContextSelects(xs, local, Eval(c, active, i), q, n);
    ContextSelects(xs, local, Eval(c, active, i'), q, n);
    CoveredSame(keys, JoinBags(xs, Select(local, q)), JoinBags(context, local));
    PushSame(c, active, context, i, keys);
  }

  lemma {:induction false} PushFilter(c: Context, active: Option<Term>, xs: seq<Solution>, e: Expr, i: Pattern, keys: seq<Option<Keys>>)
    requires Monotone(i) && Visible(i, keys) && Settles(e, Certain(i)) && AllCovered(keys, JoinBags(xs, Select(Local(c, active, i), Keeps(c.rules, e))))
    ensures Same(JoinBags(xs, Select(Eval(c, active, Filled(i, keys)), Keeps(c.rules, e))), JoinBags(xs, Select(Eval(c, active, i), Keeps(c.rules, e))))
    decreases i, 3
  {
    KeepsSettled(c.rules, e, Certain(i));
    PushSelected(c, active, xs, i, keys, Keeps(c.rules, e), Certain(i));
  }

  // --- A subquery: what it hides meets nothing outside --------------------------------------------------------

  lemma PushRows(xs: seq<Solution>, ys: seq<Solution>, ys': seq<Solution>)
    requires forall x :: x in xs ==> Same(JoinOne(x, ys'), JoinOne(x, ys))
    ensures Same(JoinBags(xs, ys'), JoinBags(xs, ys))
  {
    FlatMapSame(xs, xs, JoinedWith(ys'), JoinedWith(ys));
  }

  lemma CoveredRow(keys: seq<Option<Keys>>, xs: seq<Solution>, ys: seq<Solution>, x: Solution)
    requires AllCovered(keys, JoinBags(xs, ys)) && x in xs
    ensures AllCovered(keys, JoinOne(x, ys))
  {
    forall t | t in JoinOne(x, ys)
      ensures CoveredBy(keys, t)
    {
      FlatMapMember(xs, JoinedWith(ys), t);
    }
  }

  // Coverage asks about the variables the keys name, and no others.
  lemma {:induction false} TupleAlike(vars: seq<Var>, a: Solution, b: Solution)
    requires forall v :: v in vars ==> v in a && v in b && a[v] == b[v]
    ensures TupleOf(vars, a) == TupleOf(vars, b)
  {
    if vars != [] {
      TupleAlike(vars[1..], a, b);
    }
  }

  lemma CoveredAlike(keys: seq<Option<Keys>>, n: nat, a: Solution, b: Solution)
    requires CoveredBy(keys, a)
    requires forall k, v :: k in Taken(keys, n) && k.Some? && v in k.value.variables && v in a ==> v in b && b[v] == a[v]
    ensures CoveredBy(Taken(keys, n), b)
  {
    forall k | k in Taken(keys, n) && k.Some?
      ensures WellFormed(k.value) && Covered(k.value, b)
    {
      assert k in keys;
      TupleAlike(k.value.variables, a, b);
    }
  }

  // The outer row, cut to what the subquery shows; and put back afterwards.
  function Under(x: Solution, keep: set<Var>): Solution {
    Restrict(x, keep)
  }

  function Back(x: Solution, keep: set<Var>): Solution -> seq<Solution> {
    m => [x + Restrict(m, keep)]
  }

  lemma ProjectedPair(x: Solution, keep: set<Var>, y: Solution)
    ensures Merge(x, Restrict(y, keep)) == FlatMap(Merge(Under(x, keep), y), Back(x, keep))
  {
    var cut := Under(x, keep);
    if Compatible(cut, y) {
      forall v | v in x && v in Restrict(y, keep)
        ensures x[v] == Restrict(y, keep)[v]
      {
        assert v in cut && cut[v] == y[v];
      }
      FlatMapOne(cut + y, Back(x, keep));
      assert x + Restrict(cut + y, keep) == x + Restrict(y, keep);
    } else {
      var v :| v in cut && v in y && cut[v] != y[v];
      assert v in x && v in Restrict(y, keep) && x[v] != Restrict(y, keep)[v];
    }
  }

  lemma {:induction false} ProjectedJoin(x: Solution, keep: seq<Var>, ys: seq<Solution>)
    ensures var vs := set v | v in keep;
            JoinOne(x, FlatMap(ys, Projected(keep))) == FlatMap(JoinOne(Under(x, vs), ys), Back(x, vs))
  {
    if ys != [] {
      var vs, y := (set v | v in keep), ys[0];
      ProjectedJoin(x, keep, ys[1..]);
      ProjectedPair(x, vs, y);
      FlatMapOne(Restrict(y, vs), Against(x));
      JoinOneAppend(x, Projected(keep)(y), FlatMap(ys[1..], Projected(keep)));
      FlatMapAppend(Merge(Under(x, vs), y), JoinOne(Under(x, vs), ys[1..]), Back(x, vs));
    }
  }

  lemma ProjectCovered(keys: seq<Option<Keys>>, n: nat, x: Solution, keep: seq<Var>, local: seq<Solution>)
    requires NamesOnly(Taken(keys, n), set v | v in keep) && AllCovered(keys, JoinOne(x, FlatMap(local, Projected(keep))))
    ensures AllCovered(Taken(keys, n), JoinBags([Under(x, set v | v in keep)], local))
  {
    var vs := set v | v in keep;
    var cut := Under(x, vs);
    JoinSingle(cut, local);
    ProjectedJoin(x, keep, local);
    forall m | m in JoinOne(cut, local)
      ensures CoveredBy(Taken(keys, n), m)
    {
      var a := x + Restrict(m, vs);
      assert a in Back(x, vs)(m);
      FlatMapMember(JoinOne(cut, local), Back(x, vs), a);
      JoinOneMember(cut, local, m);
      forall k, v | k in Taken(keys, n) && k.Some? && v in k.value.variables && v in a
        ensures v in m && m[v] == a[v]
      {
        assert v in vs;
      }
      CoveredAlike(keys, n, a, m);
    }
  }

  lemma {:induction false} PushProject(c: Context, active: Option<Term>, xs: seq<Solution>, i: Pattern, keep: seq<Var>, keys: seq<Option<Keys>>)
    requires Monotone(i) && Visible(i, keys) && NamesOnly(Taken(keys, Clauses(i)), set v | v in keep)
    requires AllCovered(keys, JoinBags(xs, FlatMap(Local(c, active, i), Projected(keep))))
    ensures Same(JoinBags(xs, FlatMap(Eval(c, active, Filled(i, keys)), Projected(keep))), JoinBags(xs, FlatMap(Eval(c, active, i), Projected(keep))))
    decreases i, 3
  {
    var n, vs, some := Clauses(i), (set v | v in keep), Taken(keys, Clauses(i));
    var ys, ys' := Eval(c, active, i), Eval(c, active, Filled(i, keys));
    FilledTaken(i, keys, n);
    VisibleTaken(i, keys, n);
    forall x | x in xs
      ensures Same(JoinOne(x, FlatMap(ys', Projected(keep))), JoinOne(x, FlatMap(ys, Projected(keep))))
    {
      var cut := Under(x, vs);
      CoveredRow(keys, xs, FlatMap(Local(c, active, i), Projected(keep)), x);
      ProjectCovered(keys, n, x, keep, Local(c, active, i));
      PushSame(c, active, [cut], i, some);
      ProjectedJoin(x, keep, ys);
      ProjectedJoin(x, keep, ys');
      JoinSingle(cut, ys);
      JoinSingle(cut, ys');
      FlatMapSame(JoinOne(cut, ys'), JoinOne(cut, ys), Back(x, vs), Back(x, vs));
    }
    PushRows(xs, FlatMap(ys, Projected(keep)), FlatMap(ys', Projected(keep)));
  }

  // --- A BIND the local part settles -----------------------------------------------------------------------------

  function ValueOf(r: Rules, e: Expr, s: Solution): Option<Term> {
    AsTerm(Evaluate(r, e, s))
  }

  // Rows the BIND leaves as they are; and rows it gives a value the outer row can take.
  function Unbound(r: Rules, e: Expr): Solution -> bool {
    y => ValueOf(r, e, y).None?
  }

  function Taking(r: Rules, e: Expr, x: Solution, v: Var): Solution -> bool {
    y => ValueOf(r, e, y).Some? && (v in x ==> Some(x[v]) == ValueOf(r, e, y))
  }

  function Put(r: Rules, e: Expr, x: Solution, v: Var): Solution -> seq<Solution> {
    m => if ValueOf(r, e, m).None? then [] else [x + m[v := ValueOf(r, e, m).value]]
  }

  lemma ValueSettled(r: Rules, e: Expr, x: Solution, v: Var, n: set<Var>)
    requires Settles(e, n)
    ensures SettledBy(Unbound(r, e), n) && SettledBy(Taking(r, e, x, v), n)
  {
    forall a: Solution, m: Solution | n <= a.Keys && Extends(a, m)
      ensures ValueOf(r, e, m) == ValueOf(r, e, a)
    {
      EvaluateLocal(r, e, a, m);
    }
  }

  lemma PutPair(x: Solution, v: Var, t: Term, y: Solution)
    requires v in x ==> x[v] == t
    ensures Compatible(x, y[v := t]) <==> Compatible(x - {v}, y)
    ensures x + ((x - {v}) + y)[v := t] == x + y[v := t]
  {
    var z, bare := y[v := t], x - {v};
    if Compatible(bare, y) {
      forall w | w in x && w in z
        ensures x[w] == z[w]
      {
        assert w == v || (w in bare && bare[w] == x[w]);
      }
    }
    if Compatible(x, z) {
      forall w | w in bare && w in y
        ensures bare[w] == y[w]
      {
        assert w in x && w in z && x[w] == z[w];
      }
    }
  }

  lemma PutRow(r: Rules, e: Expr, x: Solution, v: Var, n: set<Var>, y: Solution)
    requires Settles(e, n) && n <= y.Keys && ValueOf(r, e, y).Some? && Compatible(x - {v}, y)
    ensures Put(r, e, x, v)((x - {v}) + y) == [x + ((x - {v}) + y)[v := ValueOf(r, e, y).value]]
  {
    assert Extends(y, (x - {v}) + y);
    EvaluateLocal(r, e, y, (x - {v}) + y);
  }

  lemma ExtendedPair(r: Rules, e: Expr, x: Solution, v: Var, n: set<Var>, y: Solution)
    requires Settles(e, n) && n <= y.Keys && ValueOf(r, e, y).Some?
    ensures JoinOne(x, Extended(r, v, e)(y)) == if Taking(r, e, x, v)(y) then FlatMap(Merge(x - {v}, y), Put(r, e, x, v)) else []
  {
    var t := ValueOf(r, e, y).value;
    var z := y[v := t];
    FlatMapOne(z, Against(x));
    if !Taking(r, e, x, v)(y) {
      assert x[v] != z[v];
    } else {
      PutPair(x, v, t, y);
      if Compatible(x - {v}, y) {
        PutRow(r, e, x, v, n, y);
        FlatMapOne((x - {v}) + y, Put(r, e, x, v));
      }
    }
  }

  // The join with what a BIND makes of some rows, as two joins with the rows themselves.
  lemma {:induction false} ExtendedJoin(r: Rules, e: Expr, x: Solution, v: Var, n: set<Var>, ys: seq<Solution>)
    requires Settles(e, n) && AllHold(n, ys)
    ensures Same(JoinOne(x, FlatMap(ys, Extended(r, v, e))),
                 JoinOne(x, Select(ys, Unbound(r, e))) + FlatMap(JoinOne(x - {v}, Select(ys, Taking(r, e, x, v))), Put(r, e, x, v)))
  {
    if ys != [] {
      var y, rest, f, g, h := ys[0], ys[1..], Extended(r, v, e), Unbound(r, e), Taking(r, e, x, v);
      ExtendedJoin(r, e, x, v, n, rest);
      JoinOneAppend(x, f(y), FlatMap(rest, f));
      var a, b := if g(y) then [y] else [], if h(y) then [y] else [];
      JoinOneAppend(x, a, Select(rest, g));
      JoinOneAppend(x - {v}, b, Select(rest, h));
      FlatMapAppend(JoinOne(x - {v}, b), JoinOne(x - {v}, Select(rest, h)), Put(r, e, x, v));
      FlatMapOne(y, Against(x - {v}));
      if !g(y) {
        ExtendedPair(r, e, x, v, n, y);
      }
      assert JoinOne(x, f(y)) == JoinOne(x, a) + FlatMap(JoinOne(x - {v}, b), Put(r, e, x, v));
      Interleaved(JoinOne(x, a), FlatMap(JoinOne(x - {v}, b), Put(r, e, x, v)), JoinOne(x, Select(rest, g)),
                  FlatMap(JoinOne(x - {v}, Select(rest, h)), Put(r, e, x, v)), JoinOne(x, FlatMap(rest, f)));
    }
  }

  lemma Interleaved(a: seq<Solution>, b: seq<Solution>, xs: seq<Solution>, ys: seq<Solution>, zs: seq<Solution>)
    requires Same(zs, xs + ys)
    ensures Same((a + b) + zs, (a + xs) + (b + ys))
  {
    assert multiset((a + b) + zs) == multiset(a) + multiset(b) + multiset(zs);
    assert multiset((a + xs) + (b + ys)) == multiset(a) + multiset(xs) + multiset(b) + multiset(ys);
    assert multiset(xs + ys) == multiset(xs) + multiset(ys);
  }

  lemma ExtendMember(r: Rules, e: Expr, x: Solution, v: Var, local: seq<Solution>, t: Solution)
    requires t in local
    ensures ValueOf(r, e, t).None? && Compatible(x, t) ==> x + t in JoinOne(x, FlatMap(local, Extended(r, v, e)))
    ensures Taking(r, e, x, v)(t) && Compatible(x - {v}, t) ==>
              x + t[v := ValueOf(r, e, t).value] in JoinOne(x, FlatMap(local, Extended(r, v, e)))
  {
    var z := Extended(r, v, e)(t)[0];
    assert z in Extended(r, v, e)(t);
    FlatMapMember(local, Extended(r, v, e), z);
    if Taking(r, e, x, v)(t) && Compatible(x - {v}, t) {
      forall w | w in x && w in z
        ensures x[w] == z[w]
      {
        assert w == v || w in x - {v};
      }
      JoinOneMember(x, FlatMap(local, Extended(r, v, e)), x + z);
    }
    if ValueOf(r, e, t).None? && Compatible(x, t) {
      JoinOneMember(x, FlatMap(local, Extended(r, v, e)), x + z);
    }
  }

  lemma UnboundCovered(keys: seq<Option<Keys>>, n: nat, r: Rules, e: Expr, x: Solution, v: Var, local: seq<Solution>)
    requires AllCovered(keys, JoinOne(x, FlatMap(local, Extended(r, v, e))))
    ensures AllCovered(Taken(keys, n), JoinBags([x], Select(local, Unbound(r, e))))
  {
    JoinSingle(x, Select(local, Unbound(r, e)));
    forall m | m in JoinOne(x, Select(local, Unbound(r, e)))
      ensures CoveredBy(Taken(keys, n), m)
    {
      JoinOneMember(x, Select(local, Unbound(r, e)), m);
      var t :| t in Select(local, Unbound(r, e)) && Compatible(x, t) && m == x + t;
      SelectMember(local, Unbound(r, e), t);
      ExtendMember(r, e, x, v, local, t);
      CoveredAlike(keys, n, m, m);
    }
  }

  lemma TakingCovered(keys: seq<Option<Keys>>, n: nat, r: Rules, e: Expr, x: Solution, v: Var, local: seq<Solution>)
    requires NamesNot(Taken(keys, n), v) && AllCovered(keys, JoinOne(x, FlatMap(local, Extended(r, v, e))))
    ensures AllCovered(Taken(keys, n), JoinBags([x - {v}], Select(local, Taking(r, e, x, v))))
  {
    var q := Taking(r, e, x, v);
    JoinSingle(x - {v}, Select(local, q));
    forall m | m in JoinOne(x - {v}, Select(local, q))
      ensures CoveredBy(Taken(keys, n), m)
    {
      JoinOneMember(x - {v}, Select(local, q), m);
      var t :| t in Select(local, q) && Compatible(x - {v}, t) && m == (x - {v}) + t;
      SelectMember(local, q, t);
      ExtendMember(r, e, x, v, local, t);
      TakingRow(keys, n, x, v, t, ValueOf(r, e, t).value);
    }
  }

  lemma TakingRow(keys: seq<Option<Keys>>, n: nat, x: Solution, v: Var, t: Solution, value: Term)
    requires NamesNot(Taken(keys, n), v) && CoveredBy(keys, x + t[v := value])
    ensures CoveredBy(Taken(keys, n), (x - {v}) + t)
  {
    CoveredAlike(keys, n, x + t[v := value], (x - {v}) + t);
  }

  lemma {:induction false} PushExtend(c: Context, active: Option<Term>, xs: seq<Solution>, i: Pattern, v: Var, e: Expr, keys: seq<Option<Keys>>)
    requires Monotone(i) && Settles(e, Certain(i)) && Visible(i, keys) && NamesNot(Taken(keys, Clauses(i)), v)
    requires AllCovered(keys, JoinBags(xs, FlatMap(Local(c, active, i), Extended(c.rules, v, e))))
    ensures Same(JoinBags(xs, FlatMap(Eval(c, active, Filled(i, keys)), Extended(c.rules, v, e))),
                 JoinBags(xs, FlatMap(Eval(c, active, i), Extended(c.rules, v, e))))
    decreases i, 4
  {
    var ys, ys', f := Eval(c, active, i), Eval(c, active, Filled(i, keys)), Extended(c.rules, v, e);
    forall x | x in xs
      ensures Same(JoinOne(x, FlatMap(ys', f)), JoinOne(x, FlatMap(ys, f)))
    {
      CoveredRow(keys, xs, FlatMap(Local(c, active, i), f), x);
      PushExtendRow(c, active, x, i, v, e, keys);
    }
    PushRows(xs, FlatMap(ys, f), FlatMap(ys', f));
  }

  lemma {:induction false} PushExtendRow(c: Context, active: Option<Term>, x: Solution, i: Pattern, v: Var, e: Expr, keys: seq<Option<Keys>>)
    requires Monotone(i) && Settles(e, Certain(i)) && Visible(i, keys) && NamesNot(Taken(keys, Clauses(i)), v)
    requires AllCovered(keys, JoinOne(x, FlatMap(Local(c, active, i), Extended(c.rules, v, e))))
    ensures Same(JoinOne(x, FlatMap(Eval(c, active, Filled(i, keys)), Extended(c.rules, v, e))),
                 JoinOne(x, FlatMap(Eval(c, active, i), Extended(c.rules, v, e))))
    decreases i, 3
  {
    var n, some := Certain(i), Taken(keys, Clauses(i));
    var ys, ys' := Eval(c, active, i), Eval(c, active, Filled(i, keys));
    var g, h, put := Unbound(c.rules, e), Taking(c.rules, e, x, v), Put(c.rules, e, x, v);
    FilledTaken(i, keys, Clauses(i));
    VisibleTaken(i, keys, Clauses(i));
    ValueSettled(c.rules, e, x, v, n);
    UnboundCovered(keys, Clauses(i), c.rules, e, x, v, Local(c, active, i));
    TakingCovered(keys, Clauses(i), c.rules, e, x, v, Local(c, active, i));
    PushSelected(c, active, [x], i, some, g, n);
    PushSelected(c, active, [x - {v}], i, some, h, n);
    BindsFilled(c, active, i, keys);
    ExtendedSides(c.rules, e, x, v, n, ys, ys');
  }

  lemma BindsFilled(c: Context, active: Option<Term>, i: Pattern, keys: seq<Option<Keys>>)
    ensures AllHold(Certain(i), Eval(c, active, i)) && AllHold(Certain(i), Eval(c, active, Filled(i, keys)))
  {
    CertainBinds(c, active, i);
    CertainBinds(c, active, Filled(i, keys));
    CertainFilled(i, keys);
  }

  lemma ExtendedSides(r: Rules, e: Expr, x: Solution, v: Var, n: set<Var>, ys: seq<Solution>, ys': seq<Solution>)
    requires Settles(e, n) && AllHold(n, ys) && AllHold(n, ys')
    requires Same(JoinBags([x], Select(ys', Unbound(r, e))), JoinBags([x], Select(ys, Unbound(r, e))))
    requires Same(JoinBags([x - {v}], Select(ys', Taking(r, e, x, v))), JoinBags([x - {v}], Select(ys, Taking(r, e, x, v))))
    ensures Same(JoinOne(x, FlatMap(ys', Extended(r, v, e))), JoinOne(x, FlatMap(ys, Extended(r, v, e))))
  {
    var g, h, put := Unbound(r, e), Taking(r, e, x, v), Put(r, e, x, v);
    JoinSingle(x, Select(ys, g));
    JoinSingle(x, Select(ys', g));
    JoinSingle(x - {v}, Select(ys, h));
    JoinSingle(x - {v}, Select(ys', h));
    ExtendedJoin(r, e, x, v, n, ys);
    ExtendedJoin(r, e, x, v, n, ys');
    var a, a' := JoinOne(x - {v}, Select(ys, h)), JoinOne(x - {v}, Select(ys', h));
    FlatMapSame(a', a, put, put);
    UnionSame(JoinOne(x, Select(ys', g)), JoinOne(x, Select(ys, g)), FlatMap(a', put), FlatMap(a, put));
  }

  // GRAPH ?v: each graph in turn is one more context.
  lemma {:induction false} PushEach(c: Context, names: seq<Term>, xs: seq<Solution>, v: Var, i: Pattern, keys: seq<Option<Keys>>)
    requires Monotone(i) && Visible(i, keys) && AllCovered(keys, JoinBags(xs, EvalEach(c, names, v, WithoutServices(i))))
    ensures Same(JoinBags(xs, EvalEach(c, names, v, Filled(i, keys))), JoinBags(xs, EvalEach(c, names, v, i)))
    decreases i, 2, |names|
  {
    if names == [] {
    } else {
      var one, g, rest := map[v := names[0]], Some(names[0]), names[1..];
      TurnSplit(c, names, xs, v, WithoutServices(i));
      TurnSplit(c, names, xs, v, Filled(i, keys));
      TurnSplit(c, names, xs, v, i);
      CoveredSame(keys, JoinBags(xs, EvalEach(c, names, v, WithoutServices(i))),
                  JoinBags(JoinBags(xs, [one]), Local(c, g, i)) + JoinBags(xs, EvalEach(c, rest, v, WithoutServices(i))));
      CoveredParts(keys, JoinBags(JoinBags(xs, [one]), Local(c, g, i)), JoinBags(xs, EvalEach(c, rest, v, WithoutServices(i))));
      PushSame(c, g, JoinBags(xs, [one]), i, keys);
      PushEach(c, rest, xs, v, i, keys);
      UnionSame(JoinBags(JoinBags(xs, [one]), Eval(c, g, Filled(i, keys))), JoinBags(JoinBags(xs, [one]), Eval(c, g, i)),
                JoinBags(xs, EvalEach(c, rest, v, Filled(i, keys))), JoinBags(xs, EvalEach(c, rest, v, i)));
    }
  }

  lemma TurnSplit(c: Context, names: seq<Term>, xs: seq<Solution>, v: Var, i: Pattern)
    requires names != []
    ensures Same(JoinBags(xs, EvalEach(c, names, v, i)),
                 JoinBags(JoinBags(xs, [map[v := names[0]]]), Eval(c, Some(names[0]), i)) + JoinBags(xs, EvalEach(c, names[1..], v, i)))
  {
    var one, turn := map[v := names[0]], Eval(c, Some(names[0]), i);
    JoinSingle(one, turn);
    JoinAssociative(xs, [one], turn);
    JoinUnion(xs, JoinOne(one, turn), EvalEach(c, names[1..], v, i));
  }

  lemma {:induction false} PushJoin(c: Context, active: Option<Term>, xs: seq<Solution>, l: Pattern, r: Pattern, keys: seq<Option<Keys>>)
    requires Monotone(l) && Monotone(r) && Visible(l, keys) && Visible(r, Rest(keys, Clauses(l)))
    requires AllCovered(keys, JoinBags(xs, Local(c, active, Join(l, r))))
    ensures Same(JoinBags(xs, Eval(c, active, Filled(Join(l, r), keys))), JoinBags(xs, Eval(c, active, Join(l, r))))
    decreases Join(l, r), 0
  {
    var l', r' := Filled(l, keys), Filled(r, Rest(keys, Clauses(l)));
    FilledMonotone(r, Rest(keys, Clauses(l)));
    SidesCovered(c, active, xs, l, r, r', keys);
    PushSame(c, active, JoinBags(xs, Eval(c, active, r')), l, keys);
    PushSame(c, active, JoinBags(xs, Eval(c, active, l)), r, Rest(keys, Clauses(l)));
    JoinedBySides(xs, Eval(c, active, l), Eval(c, active, l'), Eval(c, active, r), Eval(c, active, r'));
  }

  lemma SidesCovered(c: Context, active: Option<Term>, xs: seq<Solution>, l: Pattern, r: Pattern, r': Pattern, keys: seq<Option<Keys>>)
    requires Monotone(l) && Monotone(r') && WithoutServices(r') == WithoutServices(r)
    requires AllCovered(keys, JoinBags(xs, Local(c, active, Join(l, r))))
    ensures AllCovered(keys, JoinBags(JoinBags(xs, Eval(c, active, r')), Local(c, active, l)))
    ensures AllCovered(Rest(keys, Clauses(l)), JoinBags(JoinBags(xs, Eval(c, active, l)), Local(c, active, r)))
  {
    LocalJoin(c, active, l, r);
    EvalGrows(c, active, r, r');
    EvalGrows(c, active, l, l);
    BothCovered(keys, Clauses(l), xs, Local(c, active, l), Local(c, active, r), Eval(c, active, l), Eval(c, active, r'));
  }

  lemma LocalJoin(c: Context, active: Option<Term>, l: Pattern, r: Pattern)
    ensures Local(c, active, Join(l, r)) == JoinBags(Local(c, active, l), Local(c, active, r))
  {
  }

  lemma BothCovered(keys: seq<Option<Keys>>, n: nat, xs: seq<Solution>, a: seq<Solution>, b: seq<Solution>,
                    fullA: seq<Solution>, fullB: seq<Solution>)
    requires AllCovered(keys, JoinBags(xs, JoinBags(a, b))) && Grows(a, fullA) && Grows(b, fullB)
    ensures AllCovered(keys, JoinBags(JoinBags(xs, fullB), a)) && AllCovered(Rest(keys, n), JoinBags(JoinBags(xs, fullA), b))
  {
    JoinAssociative(xs, a, b);
    JoinSwap(xs, a, b);
    CoveredSame(keys, JoinBags(JoinBags(xs, a), b), JoinBags(JoinBags(xs, b), a));
    SideCovered(keys, xs, a, b, fullB);
    SideCovered(keys, xs, b, a, fullA);
    AllFewer(keys, n, JoinBags(JoinBags(xs, fullA), b));
  }

  // One side changed in the context of the other, and then the other.
  lemma JoinedBySides(xs: seq<Solution>, a: seq<Solution>, a': seq<Solution>, b: seq<Solution>, b': seq<Solution>)
    requires Same(JoinBags(JoinBags(xs, b'), a'), JoinBags(JoinBags(xs, b'), a))
    requires Same(JoinBags(JoinBags(xs, a), b'), JoinBags(JoinBags(xs, a), b))
    ensures Same(JoinBags(xs, JoinBags(a', b')), JoinBags(xs, JoinBags(a, b)))
  {
    JoinAssociative(xs, a', b');
    JoinAssociative(xs, a, b);
    JoinSwap(xs, a', b');
    JoinSwap(xs, b', a);
  }

  lemma {:induction false} PushUnion(c: Context, active: Option<Term>, xs: seq<Solution>, l: Pattern, r: Pattern, keys: seq<Option<Keys>>)
    requires Monotone(l) && Monotone(r) && Visible(l, keys) && Visible(r, Rest(keys, Clauses(l)))
    requires AllCovered(keys, JoinBags(xs, Local(c, active, l) + Local(c, active, r)))
    ensures Same(JoinBags(xs, Eval(c, active, Filled(l, keys)) + Eval(c, active, Filled(r, Rest(keys, Clauses(l))))),
                 JoinBags(xs, Eval(c, active, l) + Eval(c, active, r)))
    decreases Union(l, r), 0
  {
    UnionCovered(keys, Clauses(l), xs, Local(c, active, l), Local(c, active, r));
    PushSame(c, active, xs, l, keys);
    PushSame(c, active, xs, r, Rest(keys, Clauses(l)));
    UnionParts(xs, Eval(c, active, Filled(l, keys)), Eval(c, active, l), Eval(c, active, Filled(r, Rest(keys, Clauses(l)))), Eval(c, active, r));
  }

  lemma UnionCovered(keys: seq<Option<Keys>>, n: nat, xs: seq<Solution>, a: seq<Solution>, b: seq<Solution>)
    requires AllCovered(keys, JoinBags(xs, a + b))
    ensures AllCovered(keys, JoinBags(xs, a)) && AllCovered(Rest(keys, n), JoinBags(xs, b))
  {
    JoinUnion(xs, a, b);
    CoveredSame(keys, JoinBags(xs, a + b), JoinBags(xs, a) + JoinBags(xs, b));
    CoveredParts(keys, JoinBags(xs, a), JoinBags(xs, b));
    AllFewer(keys, n, JoinBags(xs, b));
  }

  lemma UnionParts(xs: seq<Solution>, a': seq<Solution>, a: seq<Solution>, b': seq<Solution>, b: seq<Solution>)
    requires Same(JoinBags(xs, a'), JoinBags(xs, a)) && Same(JoinBags(xs, b'), JoinBags(xs, b))
    ensures Same(JoinBags(xs, a' + b'), JoinBags(xs, a + b))
  {
    JoinUnion(xs, a, b);
    JoinUnion(xs, a', b');
    UnionSame(JoinBags(xs, a'), JoinBags(xs, a), JoinBags(xs, b'), JoinBags(xs, b));
  }

  lemma CoveredParts(keys: seq<Option<Keys>>, xs: seq<Solution>, ys: seq<Solution>)
    requires AllCovered(keys, xs + ys)
    ensures AllCovered(keys, xs) && AllCovered(keys, ys)
  {
  }

  // --- OPTIONAL around a service -------------------------------------------------------------------------------

  predicate SettledCondition(condition: Option<Expr>, bound: set<Var>) {
    condition.Some? ==> Settles(condition.value, bound)
  }

  // The body of a query: optionals and filters over something monotone. A service may stand left of an OPTIONAL when
  // what it can be sent is certain there; and right of one, when the left side and the condition are settled locally.
  predicate Outward(p: Pattern) {
    (Monotone(p) && Shown(p, {})) || match p
      case LeftJoin(l, r, condition) =>
        && Outward(l) && EachWithin(Candidates(l, {}), Certain(l))
        && (Clauses(r) == 0 || (Monotone(l) && Monotone(r) && Shown(r, PatternVariables(l))
                                && SettledCondition(condition, Certain(l) + Certain(r))))
      case Filter(e, i) => Outward(i) && Settles(e, Certain(i))
      case OrderBy(i) => Outward(i)
      case _ => false
  }

  lemma {:induction false} FilledTaken(p: Pattern, keys: seq<Option<Keys>>, n: nat)
    requires Clauses(p) <= n
    ensures Filled(p, Taken(keys, n)) == Filled(p, keys)
    decreases p, 0
  {
    match p
    case Service(_, _) =>
    case Join(l, r) => FilledTaken(l, keys, n); FilledTakenRest(l, r, keys, n);
    case LeftJoin(l, r, _) => FilledTaken(l, keys, n); FilledTakenRest(l, r, keys, n);
    case Union(l, r) => FilledTaken(l, keys, n); FilledTakenRest(l, r, keys, n);
    case Minus(l, r) => FilledTaken(l, keys, n); FilledTakenRest(l, r, keys, n);
    case Filter(_, i) => FilledTaken(i, keys, n);
    case Graph(_, i) => FilledTaken(i, keys, n);
    case Extend(i, _, _) => FilledTaken(i, keys, n);
    case OrderBy(i) => FilledTaken(i, keys, n);
    case Project(i, _) => FilledTaken(i, keys, n);
    case Distinct(i) => FilledTaken(i, keys, n);
    case Slice(i, _, _) => FilledTaken(i, keys, n);
    case Group(i, _, _) => FilledTaken(i, keys, n);
    case _ =>
  }

  lemma {:induction false} FilledTakenRest(l: Pattern, r: Pattern, keys: seq<Option<Keys>>, n: nat)
    requires Clauses(l) + Clauses(r) <= n
    ensures Filled(r, Rest(Taken(keys, n), Clauses(l))) == Filled(r, Rest(keys, Clauses(l)))
    decreases r, 1
  {
    RestTaken(keys, Clauses(l), n);
    FilledTaken(r, Rest(keys, Clauses(l)), n - Clauses(l));
  }

  // A row that binds what the keys name is covered as soon as something it is part of is.
  lemma CoveredLess(keys: seq<Option<Keys>>, n: nat, candidates: seq<set<Var>>, a: Solution, z: Solution)
    requires CoveredBy(keys, z) && Asked(Taken(keys, n), candidates) && |Taken(keys, n)| <= |candidates|
    requires EachWithin(candidates, a.Keys) && Extends(a, z)
    ensures CoveredBy(Taken(keys, n), a)
  {
    var some := Taken(keys, n);
    forall k | k in some && k.Some?
      ensures WellFormed(k.value) && Covered(k.value, a)
    {
      var i :| 0 <= i < |some| && some[i] == k;
      assert k in keys;
      forall v | v in k.value.variables
        ensures v in a
      {
        assert v in candidates[i];
      }
      TupleMore(k.value.variables, a, z);
    }
  }

  lemma AskedLeft(keys: seq<Option<Keys>>, n: nat, left: seq<set<Var>>, right: seq<set<Var>>)
    requires Asked(keys, left + right) && |left| == n
    ensures Asked(Taken(keys, n), left) && |Taken(keys, n)| <= |left|
  {
    assert forall i :: 0 <= i < n ==> (left + right)[i] == left[i];
  }

  // Both bags filtered by one test, through the local part.
  ghost predicate Tested(c: Context, p: Pattern, q: Solution -> bool, n: set<Var>, keys: seq<Option<Keys>>) {
    SettledBy(q, n) && n <= Certain(p) && AllCovered(keys, Select(Local(c, None, p), q))
  }

  lemma PushMonotone(c: Context, p: Pattern, keys: seq<Option<Keys>>, q: Solution -> bool, n: set<Var>)
    requires Monotone(p) && Visible(p, keys) && Tested(c, p, q, n, keys)
    ensures Same(Select(Eval(c, None, Filled(p, keys)), q), Select(Eval(c, None, p), q))
  {
    JoinIdentity(Select(Local(c, None, p), q));
    PushSelected(c, None, [map[]], p, keys, q, n);
    JoinIdentity(Select(Eval(c, None, Filled(p, keys)), q));
    JoinIdentity(Select(Eval(c, None, p), q));
  }

  // A test the left rows settle passes through a left join.
  lemma LeftSelected(r: Rules, xs: seq<Solution>, ys: seq<Solution>, condition: Option<Expr>, q: Solution -> bool, n: set<Var>)
    requires SettledBy(q, n) && AllHold(n, xs)
    ensures Select(FlatMap(xs, OrAlone(r, ys, condition)), q) == FlatMap(Select(xs, q), OrAlone(r, ys, condition))
  {
    var f := OrAlone(r, ys, condition);
    forall x | x in xs
      ensures If(q, f)(x) == Select(f(x), q)
    {
      LeftRowSelected(r, ys, condition, q, n, x);
    }
    SelectFlatMap(xs, f, q, If(q, f));
    FlatMapSelect(xs, q, If(q, f));
    forall x | x in Select(xs, q)
      ensures If(q, f)(x) == f(x)
    {
      SelectMember(xs, q, x);
    }
    FlatMapEqual(Select(xs, q), If(q, f), f);
  }

  lemma LeftRowSelected(r: Rules, ys: seq<Solution>, condition: Option<Expr>, q: Solution -> bool, n: set<Var>, x: Solution)
    requires SettledBy(q, n) && n <= x.Keys
    ensures Select(OrAlone(r, ys, condition)(x), q) == if q(x) then OrAlone(r, ys, condition)(x) else []
  {
    var rows := OrAlone(r, ys, condition)(x);
    forall t | t in rows
      ensures q(t) == q(x)
    {
      FlatMapOne(x, OrAlone(r, ys, condition));
      var a := LeftRow(r, [x], ys, condition, t);
      assert Extends(x, t);
    }
    if q(x) {
      SelectEvery(rows, q);
    } else {
      SelectNone(rows, q);
    }
  }

  // Every left row has a row of the left join that extends it.
  lemma LeftKept(r: Rules, xs: seq<Solution>, ys: seq<Solution>, condition: Option<Expr>, x: Solution) returns (z: Solution)
    requires x in xs
    ensures z in FlatMap(xs, OrAlone(r, ys, condition)) && Extends(x, z)
  {
    var f := OrAlone(r, ys, condition);
    z := f(x)[0];
    assert z in f(x);
    FlatMapMember(xs, f, z);
    FlatMapOne(x, f);
    var a := LeftRow(r, [x], ys, condition, z);
  }

  // The left side's keys cover the left side, by the rows of the probe that extend its own.
  lemma LeftCovered(c: Context, l: Pattern, r: Pattern, condition: Option<Expr>, keys: seq<Option<Keys>>, q: Solution -> bool, n: set<Var>)
    requires Tested(c, LeftJoin(l, r, condition), q, n, keys) && EachWithin(Candidates(l, {}), Certain(l))
    requires Asked(keys, Candidates(LeftJoin(l, r, condition), {}))
    ensures Tested(c, l, q, n, Taken(keys, Clauses(l)))
  {
    var xs, ys := Local(c, None, l), Local(c, None, r);
    CandidatesCount(l, {});
    LocalHolds(c, None, l);
    AskedLeft(keys, Clauses(l), Candidates(l, {}), Candidates(r, {} + PatternVariables(l)));
    LeftSelected(c.rules, xs, ys, condition, q, n);
    forall a | a in Select(xs, q)
      ensures CoveredBy(Taken(keys, Clauses(l)), a)
    {
      SelectSub(xs, q);
      var z := LeftKept(c.rules, Select(xs, q), ys, condition, a);
      CoveredLess(keys, Clauses(l), Candidates(l, {}), a, z);
    }
  }

  // The condition, asked of the right row alone once the left row is known.
  ghost function Asking(r: Rules, condition: Option<Expr>, a: Solution): Solution -> bool {
    y => KeepsIf(r, condition)(y + a)
  }

  lemma AskingSettled(r: Rules, condition: Option<Expr>, a: Solution, left: set<Var>, right: set<Var>)
    requires SettledCondition(condition, left + right) && left <= a.Keys
    ensures SettledBy(Asking(r, condition, a), right)
  {
    forall y: Solution, m: Solution | right <= y.Keys && Extends(y, m)
      ensures Asking(r, condition, a)(m) == Asking(r, condition, a)(y)
    {
      if condition.Some? {
        forall v | v in Needs(condition.value)
          ensures v in y + a && v in m + a && (y + a)[v] == (m + a)[v]
        {
          assert v in a || v in right;
        }
        EvaluateLocal(r, condition.value, y + a, m + a);
      }
      assert KeepsIf(r, condition)(y + a) == KeepsIf(r, condition)(m + a);
    }
  }

  lemma AskingPair(r: Rules, condition: Option<Expr>, a: Solution, y: Solution)
    requires Compatible(a, y)
    ensures Asking(r, condition, a)(a + y) == Asking(r, condition, a)(y) == KeepsIf(r, condition)(a + y)
  {
    assert (a + y) + a == y + a == a + y;
  }

  lemma AskingIs(r: Rules, condition: Option<Expr>, a: Solution, ys: seq<Solution>)
    ensures JoinOne(a, Select(ys, Asking(r, condition, a))) == Select(JoinOne(a, ys), KeepsIf(r, condition))
  {
    var q := Asking(r, condition, a);
    forall y | y in ys && Compatible(a, y)
      ensures q(a + y) == q(y)
    {
      AskingPair(r, condition, a, y);
    }
    SelectJoinRight(a, ys, q);
    forall t | t in JoinOne(a, ys)
      ensures q(t) == KeepsIf(r, condition)(t)
    {
      JoinOneMember(a, ys, t);
      var y :| y in ys && Compatible(a, y) && t == a + y;
      AskingPair(r, condition, a, y);
    }
    SelectEqual(JoinOne(a, ys), q, KeepsIf(r, condition));
  }

  // A pair of local rows that meets the condition is a row of the probe.
  lemma PairProbed(r: Rules, xs: seq<Solution>, ys: seq<Solution>, condition: Option<Expr>, a: Solution, b: Solution)
    requires a in xs && b in ys && Compatible(a, b) && KeepsIf(r, condition)(a + b)
    ensures a + b in FlatMap(xs, OrAlone(r, ys, condition))
  {
    JoinOneMember(a, ys, a + b);
    SelectMember(JoinOne(a, ys), KeepsIf(r, condition), a + b);
    assert a + b in OrAlone(r, ys, condition)(a);
    FlatMapMember(xs, OrAlone(r, ys, condition), a + b);
  }

  lemma ConditionKept(r: Rules, condition: Option<Expr>, n: set<Var>, s: Solution, t: Solution)
    requires SettledCondition(condition, n) && n <= s.Keys && Extends(s, t)
    ensures KeepsIf(r, condition)(s) == KeepsIf(r, condition)(t)
  {
    if condition.Some? {
      EvaluateLocal(r, condition.value, s, t);
    }
  }

  // The two sides of a left join as the probe saw them, and what each is certain to bind.
  ghost predicate Sides(xs: seq<Solution>, ys: seq<Solution>, condition: Option<Expr>, left: set<Var>, right: set<Var>) {
    AllHold(left, xs) && AllHold(right, ys) && SettledCondition(condition, left + right)
  }

  lemma RightCovered(r: Rules, xs: seq<Solution>, ys: seq<Solution>, condition: Option<Expr>, left: set<Var>, right: set<Var>,
                     keys: seq<Option<Keys>>, a': Solution)
    requires Sides(xs, ys, condition, left, right) && AllCovered(keys, FlatMap(xs, OrAlone(r, ys, condition)))
    requires ExtendsSome(xs, a')
    ensures AllCovered(keys, JoinBags([a'], Select(ys, Asking(r, condition, a'))))
  {
    JoinSingle(a', Select(ys, Asking(r, condition, a')));
    AskingIs(r, condition, a', ys);
    var a :| a in xs && Extends(a, a');
    forall z | z in Select(JoinOne(a', ys), KeepsIf(r, condition))
      ensures CoveredBy(keys, z)
    {
      SelectMember(JoinOne(a', ys), KeepsIf(r, condition), z);
      JoinOneMember(a', ys, z);
      var b :| b in ys && Compatible(a', b) && z == a' + b;
      assert Extends(b, b);
      ExtendsBoth(a, b, a', b);
      ConditionKept(r, condition, left + right, a + b, z);
      PairProbed(r, xs, ys, condition, a, b);
      CoveredMore(keys, a + b, z);
    }
  }

  lemma RightRow(c: Context, r: Pattern, keys: seq<Option<Keys>>, condition: Option<Expr>, left: set<Var>, a': Solution)
    requires Monotone(r) && Visible(r, keys) && SettledCondition(condition, left + Certain(r)) && left <= a'.Keys
    requires AllCovered(keys, JoinBags([a'], Select(Local(c, None, r), Asking(c.rules, condition, a'))))
    ensures Same(OrAlone(c.rules, Eval(c, None, Filled(r, keys)), condition)(a'), OrAlone(c.rules, Eval(c, None, r), condition)(a'))
  {
    var q, ys, ys' := Asking(c.rules, condition, a'), Eval(c, None, r), Eval(c, None, Filled(r, keys));
    AskingSettled(c.rules, condition, a', left, Certain(r));
    PushSelected(c, None, [a'], r, keys, q, Certain(r));
    JoinSingle(a', Select(ys, q));
    JoinSingle(a', Select(ys', q));
    AskingIs(c.rules, condition, a', ys);
    AskingIs(c.rules, condition, a', ys');
    SameLength(Select(JoinOne(a', ys'), KeepsIf(c.rules, condition)), Select(JoinOne(a', ys), KeepsIf(c.rules, condition)));
  }

  // Every row on the left meets right rows the keys cover.
  lemma RightsCovered(r: Rules, xs: seq<Solution>, ys: seq<Solution>, condition: Option<Expr>, left: set<Var>, right: set<Var>,
                      keys: seq<Option<Keys>>, k: nat, q: Solution -> bool, n: set<Var>, zs: seq<Solution>, a': Solution)
    requires Sides(xs, ys, condition, left, right) && SettledBy(q, n) && n <= left && Grows(xs, zs) && a' in Select(zs, q)
    requires AllCovered(keys, Select(FlatMap(xs, OrAlone(r, ys, condition)), q))
    ensures AllCovered(Rest(keys, k), JoinBags([a'], Select(ys, Asking(r, condition, a'))))
  {
    GrowsSelected(xs, zs, q, n);
    SelectSub(xs, q);
    LeftSelected(r, xs, ys, condition, q, n);
    AllFewer(keys, k, FlatMap(Select(xs, q), OrAlone(r, ys, condition)));
    RightCovered(r, Select(xs, q), ys, condition, left, right, Rest(keys, k), a');
  }

  lemma RightReady(c: Context, l: Pattern, r: Pattern, condition: Option<Expr>, keys: seq<Option<Keys>>, q: Solution -> bool, n: set<Var>, a': Solution)
    requires Monotone(l) && SettledCondition(condition, Certain(l) + Certain(r))
    requires Tested(c, LeftJoin(l, r, condition), q, n, keys) && a' in Select(Eval(c, None, l), q)
    ensures AllCovered(Rest(keys, Clauses(l)), JoinBags([a'], Select(Local(c, None, r), Asking(c.rules, condition, a'))))
  {
    LocalHolds(c, None, l);
    LocalHolds(c, None, r);
    ServicesOnlyAdd(c, None, l);
    TestedLeft(c, l, r, condition, q, n, keys);
    RightsCovered(c.rules, Local(c, None, l), Local(c, None, r), condition, Certain(l), Certain(r), keys, Clauses(l), q, n, Eval(c, None, l), a');
  }

  lemma TestedLeft(c: Context, l: Pattern, r: Pattern, condition: Option<Expr>, q: Solution -> bool, n: set<Var>, keys: seq<Option<Keys>>)
    requires Tested(c, LeftJoin(l, r, condition), q, n, keys)
    ensures SettledBy(q, n) && n <= Certain(l)
    ensures AllCovered(keys, Select(FlatMap(Local(c, None, l), OrAlone(c.rules, Local(c, None, r), condition)), q))
  {
    LeftLocal(c, l, r, condition);
  }

  lemma LeftLocal(c: Context, l: Pattern, r: Pattern, condition: Option<Expr>)
    ensures Local(c, None, LeftJoin(l, r, condition)) == FlatMap(Local(c, None, l), OrAlone(c.rules, Local(c, None, r), condition))
  {
  }

  lemma RightRows(c: Context, l: Pattern, r: Pattern, condition: Option<Expr>, keys: seq<Option<Keys>>, q: Solution -> bool, n: set<Var>, a': Solution)
    requires Monotone(l) && Monotone(r) && Visible(r, Rest(keys, Clauses(l))) && SettledCondition(condition, Certain(l) + Certain(r))
    requires Tested(c, LeftJoin(l, r, condition), q, n, keys) && a' in Select(Eval(c, None, l), q)
    ensures var rest := Rest(keys, Clauses(l));
            Same(OrAlone(c.rules, Eval(c, None, Filled(r, rest)), condition)(a'), OrAlone(c.rules, Eval(c, None, r), condition)(a'))
  {
    RightReady(c, l, r, condition, keys, q, n, a');
    CertainBinds(c, None, l);
    SelectSub(Eval(c, None, l), q);
    RightRow(c, r, Rest(keys, Clauses(l)), condition, Certain(l), a');
  }

  // Pushing keys into a query's body, optionals included, leaves what any settled test lets through the bag it was.
  lemma {:induction false} PushOutward(c: Context, p: Pattern, keys: seq<Option<Keys>>, q: Solution -> bool, n: set<Var>)
    requires Outward(p) && Tested(c, p, q, n, keys) && Asked(keys, Candidates(p, {}))
    ensures Same(Select(Eval(c, None, Filled(p, keys)), q), Select(Eval(c, None, p), q))
    decreases p, 1
  {
    if Monotone(p) && Shown(p, {}) {
      ShownVisible(p, {}, keys);
      PushMonotone(c, p, keys, q, n);
    } else {
      match p
      case LeftJoin(l, r, condition) => PushLeft(c, l, r, condition, keys, q, n);
      case Filter(e, i) => PushOver(c, e, i, keys, q, n);
      case OrderBy(i) => PushOutward(c, i, keys, q, n);
    }
  }

  lemma {:induction false} PushOver(c: Context, e: Expr, i: Pattern, keys: seq<Option<Keys>>, q: Solution -> bool, n: set<Var>)
    requires Outward(i) && Settles(e, Certain(i)) && Tested(c, Filter(e, i), q, n, keys) && Asked(keys, Candidates(i, {}))
    ensures Same(Select(Eval(c, None, Filled(Filter(e, i), keys)), q), Select(Eval(c, None, Filter(e, i)), q))
    decreases i, 2
  {
    var keep := Keeps(c.rules, e);
    var both := Commuting.Both(keep, q);
    KeepsSettled(c.rules, e, Certain(i));
    BothSettled(keep, q, Certain(i), n);
    SelectTwice(Local(c, None, i), keep, q);
    SelectTwice(Eval(c, None, i), keep, q);
    SelectTwice(Eval(c, None, Filled(i, keys)), keep, q);
    PushOutward(c, i, keys, both, Certain(i));
  }

  lemma BothSettled(p: Solution -> bool, q: Solution -> bool, n: set<Var>, m: set<Var>)
    requires SettledBy(p, n) && SettledBy(q, m) && m <= n
    ensures SettledBy(Commuting.Both(p, q), n)
  {
  }

  lemma {:induction false} PushLeft(c: Context, l: Pattern, r: Pattern, condition: Option<Expr>, keys: seq<Option<Keys>>, q: Solution -> bool, n: set<Var>)
    requires Outward(LeftJoin(l, r, condition)) && Clauses(LeftJoin(l, r, condition)) != 0
    requires Tested(c, LeftJoin(l, r, condition), q, n, keys) && Asked(keys, Candidates(LeftJoin(l, r, condition), {}))
    ensures Same(Select(Eval(c, None, Filled(LeftJoin(l, r, condition), keys)), q), Select(Eval(c, None, LeftJoin(l, r, condition)), q))
    decreases LeftJoin(l, r, condition), 0
  {
    var rest := Rest(keys, Clauses(l));
    var xs, xs' := Eval(c, None, l), Eval(c, None, Filled(l, keys));
    var f, f' := OrAlone(c.rules, Eval(c, None, r), condition), OrAlone(c.rules, Eval(c, None, Filled(r, rest)), condition);
    LeftCovered(c, l, r, condition, keys, q, n);
    CandidatesCount(l, {});
    AskedLeft(keys, Clauses(l), Candidates(l, {}), Candidates(r, {} + PatternVariables(l)));
    RightVisible(l, r, condition, keys);
    PushOutward(c, l, Taken(keys, Clauses(l)), q, n);
    FilledTaken(l, keys, Clauses(l));
    LeftSides(c, l, keys, n);
    LeftSelected(c.rules, xs, Eval(c, None, r), condition, q, n);
    LeftSelected(c.rules, xs', Eval(c, None, Filled(r, rest)), condition, q, n);
    forall a' | a' in Select(xs', q)
      ensures Same(f'(a'), f(a'))
    {
      SameMembers(Select(xs', q), Select(xs, q), a');
      if Clauses(r) == 0 {
        LocalFilled(r, rest);
      } else {
        RightRows(c, l, r, condition, keys, q, n, a');
      }
    }
    FlatMapSame(Select(xs', q), Select(xs, q), f', f);
  }

  lemma RightVisible(l: Pattern, r: Pattern, condition: Option<Expr>, keys: seq<Option<Keys>>)
    requires Asked(keys, Candidates(LeftJoin(l, r, condition), {}))
    ensures Shown(r, PatternVariables(l)) ==> Visible(r, Rest(keys, Clauses(l)))
  {
    CandidatesCount(l, {});
    assert {} + PatternVariables(l) == PatternVariables(l);
    AskedBoth(keys, Clauses(l), Candidates(l, {}), Candidates(r, PatternVariables(l)));
    if Shown(r, PatternVariables(l)) {
      ShownVisible(r, PatternVariables(l), Rest(keys, Clauses(l)));
    }
  }

  lemma LeftSides(c: Context, l: Pattern, keys: seq<Option<Keys>>, n: set<Var>)
    requires n <= Certain(l)
    ensures AllHold(n, Eval(c, None, l)) && AllHold(n, Eval(c, None, Filled(l, keys)))
  {
    CertainBinds(c, None, l);
    CertainBinds(c, None, Filled(l, keys));
    CertainFilled(l, keys);
  }

  // --- The keys of the probe's rows --------------------------------------------------------------------------------

  function ColumnBound(rows: seq<seq<Option<Term>>>): nat -> bool {
    (i: nat) => forall k :: 0 <= k < |rows| ==> HasTerm(rows[k], i)
  }

  predicate HasTerm(row: seq<Option<Term>>, i: nat) {
    i < |row| && row[i].Some?
  }

  function Upto(n: nat): (r: seq<nat>)
    ensures |r| == n && forall i :: 0 <= i < n ==> r[i] == i
  {
    if n == 0 then [] else Upto(n - 1) + [n - 1]
  }

  // The columns every row bound.
  function KeptColumns(candidates: seq<Var>, rows: seq<seq<Option<Term>>>): seq<nat> {
    Select(Upto(|candidates|), ColumnBound(rows))
  }

  ghost predicate HasAll(row: seq<Option<Term>>, keep: seq<nat>) {
    forall k :: 0 <= k < |keep| ==> HasTerm(row, keep[k])
  }

  // A row's terms in the kept columns.
  function TupleAt(row: seq<Option<Term>>, keep: seq<nat>): (t: seq<Term>)
    requires HasAll(row, keep)
    ensures |t| == |keep| && forall i :: 0 <= i < |keep| ==> t[i] == row[keep[i]].value
  {
    if keep == [] then []
    else
      assert HasTerm(row, keep[0]);
      assert forall k :: 0 <= k < |keep[1..]| ==> keep[1..][k] == keep[k + 1];
      [row[keep[0]].value] + TupleAt(row, keep[1..])
  }

  ghost predicate Names(candidates: seq<Var>, keep: seq<nat>) {
    forall k :: 0 <= k < |keep| ==> keep[k] < |candidates|
  }

  function NamesAt(candidates: seq<Var>, keep: seq<nat>): (vs: seq<Var>)
    requires Names(candidates, keep)
    ensures |vs| == |keep| && forall i :: 0 <= i < |keep| ==> vs[i] == candidates[keep[i]]
  {
    if keep == [] then []
    else
      assert forall k :: 0 <= k < |keep[1..]| ==> keep[1..][k] == keep[k + 1];
      [candidates[keep[0]]] + NamesAt(candidates, keep[1..])
  }

  lemma KeptAre(candidates: seq<Var>, rows: seq<seq<Option<Term>>>)
    ensures Names(candidates, KeptColumns(candidates, rows))
    ensures forall k :: 0 <= k < |rows| ==> HasAll(rows[k], KeptColumns(candidates, rows))
    ensures forall i: nat :: i < |candidates| && ColumnBound(rows)(i) ==> i in KeptColumns(candidates, rows)
  {
    var keep := KeptColumns(candidates, rows);
    forall n | 0 <= n < |keep|
      ensures keep[n] < |candidates| && ColumnBound(rows)(keep[n])
    {
      SelectMember<nat>(Upto(|candidates|), ColumnBound(rows), keep[n]);
      var m :| 0 <= m < |candidates| && Upto(|candidates|)[m] == keep[n];
    }
    forall i: nat | i < |candidates| && ColumnBound(rows)(i)
      ensures i in keep
    {
      SelectMember<nat>(Upto(|candidates|), ColumnBound(rows), i);
      assert Upto(|candidates|)[i] == i;
    }
  }

  lemma {:induction false} KeptInOrder(xs: seq<nat>, p: nat -> bool)
    requires forall i, j :: 0 <= i < j < |xs| ==> xs[i] < xs[j]
    ensures forall i, j :: 0 <= i < j < |Select(xs, p)| ==> Select(xs, p)[i] < Select(xs, p)[j]
  {
    if xs != [] {
      var rest := Select(xs[1..], p);
      assert forall i, j :: 0 <= i < j < |xs[1..]| ==> xs[1..][i] < xs[1..][j];
      KeptInOrder(xs[1..], p);
      forall k | 0 <= k < |rest|
        ensures xs[0] < rest[k]
      {
        SelectMember<nat>(xs[1..], p, rest[k]);
        var n :| 0 <= n < |xs[1..]| && xs[1..][n] == rest[k];
        assert xs[1..][n] == xs[n + 1];
      }
    }
  }

  ghost predicate AllHave(rows: seq<seq<Option<Term>>>, keep: seq<nat>) {
    forall k :: 0 <= k < |rows| ==> HasAll(rows[k], keep)
  }

  ghost predicate IsTuple(rows: seq<seq<Option<Term>>>, keep: seq<nat>, t: seq<Term>)
    requires AllHave(rows, keep)
  {
    exists k :: 0 <= k < |rows| && t == TupleAt(rows[k], keep)
  }

  // The distinct tuples of the rows, in some order.
  ghost predicate TuplesOf(tuples: seq<seq<Term>>, rows: seq<seq<Option<Term>>>, keep: seq<nat>)
    requires AllHave(rows, keep)
  {
    NoRepeats(tuples) && forall t :: t in tuples <==> IsTuple(rows, keep, t)
  }

  // What the keys must be, whichever order their rows are put in.
  ghost predicate KeysOf(candidates: seq<Var>, rows: seq<seq<Option<Term>>>, keys: Keys) {
    var keep := KeptColumns(candidates, rows);
    && keep != [] && rows != [] && Names(candidates, keep) && AllHave(rows, keep)
    && keys.variables == NamesAt(candidates, keep) && TuplesOf(keys.rows, rows, keep)
  }

  lemma IsTupleMore(rows: seq<seq<Option<Term>>>, row: seq<Option<Term>>, keep: seq<nat>, t: seq<Term>)
    requires AllHave(rows, keep) && HasAll(row, keep)
    ensures AllHave(rows + [row], keep)
    ensures IsTuple(rows + [row], keep, t) <==> IsTuple(rows, keep, t) || t == TupleAt(row, keep)
  {
    var more := rows + [row];
    assert more[|rows|] == row && forall k :: 0 <= k < |rows| ==> more[k] == rows[k];
  }

  lemma TuplesMore(tuples: seq<seq<Term>>, rows: seq<seq<Option<Term>>>, row: seq<Option<Term>>, keep: seq<nat>)
    requires AllHave(rows, keep) && HasAll(row, keep) && TuplesOf(tuples, rows, keep)
    ensures AllHave(rows + [row], keep)
    ensures var t := TupleAt(row, keep); TuplesOf(if t in tuples then tuples else tuples + [t], rows + [row], keep)
  {
    var t := TupleAt(row, keep);
    IsTupleMore(rows, row, keep, t);
    forall u
      ensures IsTuple(rows + [row], keep, u) <==> IsTuple(rows, keep, u) || u == t
    {
      IsTupleMore(rows, row, keep, u);
    }
  }

  // More tuples than may be sent.
  ghost predicate TooMany(candidates: seq<Var>, rows: seq<seq<Option<Term>>>) {
    var keep := KeptColumns(candidates, rows);
    AllHave(rows, keep)
    && exists some: seq<seq<Term>> :: NoRepeats(some) && |some| > MAX_PUSHED_BINDINGS && forall t :: t in some ==> IsTuple(rows, keep, t)
  }

  // The keys to push, or `None`: nothing to send, no column bound throughout, or too many tuples.
  method KeysFromRows(candidates: seq<Var>, rows: seq<seq<Option<Term>>>) returns (keys: Option<Keys>)
    ensures keys.Some? ==> KeysOf(candidates, rows, keys.value) && |keys.value.rows| <= MAX_PUSHED_BINDINGS
    ensures keys.None? ==>
      candidates == [] || rows == [] || KeptColumns(candidates, rows) == [] || TooMany(candidates, rows)
  {
    if candidates == [] || rows == [] {
      return None;
    }
    var keep := KeptColumns(candidates, rows);
    KeptAre(candidates, rows);
    if keep == [] {
      return None;
    }
    var tuples: seq<seq<Term>> := [];
    for i := 0 to |rows|
      invariant AllHave(rows[..i], keep) && TuplesOf(tuples, rows[..i], keep) && |tuples| <= MAX_PUSHED_BINDINGS
    {
      tuples := AddTuple(tuples, rows[..i], rows[i], keep);
      assert rows[..i + 1] == rows[..i] + [rows[i]];
      if |tuples| > MAX_PUSHED_BINDINGS {
        EnoughTuples(tuples, rows, i + 1, keep);
        return None;
      }
    }
    assert rows[..|rows|] == rows;
    keys := Some(Keys(NamesAt(candidates, keep), tuples));
  }

  method AddTuple(tuples: seq<seq<Term>>, ghost done: seq<seq<Option<Term>>>, row: seq<Option<Term>>, keep: seq<nat>)
    returns (more: seq<seq<Term>>)
    requires AllHave(done, keep) && HasAll(row, keep) && TuplesOf(tuples, done, keep)
    ensures AllHave(done + [row], keep) && TuplesOf(more, done + [row], keep)
    ensures |more| <= |tuples| + 1
  {
    var t := TupleAt(row, keep);
    TuplesMore(tuples, done, row, keep);
    more := if t in tuples then tuples else tuples + [t];
  }

  lemma EnoughTuples(tuples: seq<seq<Term>>, rows: seq<seq<Option<Term>>>, n: nat, keep: seq<nat>)
    requires n <= |rows| && AllHave(rows, keep) && AllHave(rows[..n], keep) && TuplesOf(tuples, rows[..n], keep)
    ensures forall t :: t in tuples ==> IsTuple(rows, keep, t)
  {
    forall t | t in tuples
      ensures IsTuple(rows, keep, t)
    {
      var k :| 0 <= k < n && t == TupleAt(rows[..n][k], keep);
      assert rows[k] == rows[..n][k];
    }
  }

  // --- The whole query ---------------------------------------------------------------------------------------------

  // What is under the solution modifiers.
  function QueryBody(p: Pattern): Pattern {
    match p
    case Project(i, _) => QueryBody(i)
    case Distinct(i) => QueryBody(i)
    case Slice(i, _, _) => QueryBody(i)
    case OrderBy(i) => QueryBody(i)
    case _ => p
  }

  // A slice stands only at the top, under nothing but other slices and DISTINCT.
  predicate Sliceable(p: Pattern) {
    match p
    case Distinct(i) => Sliceable(i)
    case Slice(i, _, _) => Sliceable(i)
    case _ => Unsliced(p)
  }

  predicate Unsliced(p: Pattern) {
    match p
    case Project(i, _) => Unsliced(i)
    case Distinct(i) => Unsliced(i)
    case OrderBy(i) => Unsliced(i)
    case Slice(_, _, _) => false
    case _ => true
  }

  lemma {:induction false} UnslicedSame(c: Context, q: Pattern, keys: seq<Option<Keys>>)
    requires Unsliced(q) && Same(Eval(c, None, Filled(QueryBody(q), keys)), Eval(c, None, QueryBody(q)))
    ensures Same(Eval(c, None, Filled(q, keys)), Eval(c, None, q))
  {
    match q
    case Project(i, keep) =>
      UnslicedSame(c, i, keys);
      FlatMapSame(Eval(c, None, Filled(i, keys)), Eval(c, None, i), Projected(keep), Projected(keep));
    case Distinct(i) =>
      UnslicedSame(c, i, keys);
      DistinctSame(Eval(c, None, Filled(i, keys)), Eval(c, None, i));
    case OrderBy(i) => UnslicedSame(c, i, keys);
    case _ =>
  }

  lemma {:induction false} FilledAnswers(c: Context, q: Pattern, keys: seq<Option<Keys>>, ys: seq<Solution>)
    requires Sliceable(q) && Same(Eval(c, None, Filled(QueryBody(q), keys)), Eval(c, None, QueryBody(q)))
    ensures Answers(c, Filled(q, keys), ys) <==> Answers(c, q, ys)
  {
    match q
    case Distinct(i) =>
      forall zs
        ensures Answers(c, Filled(i, keys), zs) <==> Answers(c, i, zs)
      {
        FilledAnswers(c, i, keys, zs);
      }
    case Slice(i, _, _) =>
      forall zs
        ensures Answers(c, Filled(i, keys), zs) <==> Answers(c, i, zs)
      {
        FilledAnswers(c, i, keys, zs);
      }
    case _ =>
      UnslicedSame(c, q, keys);
      FilledShape(q, keys);
  }

  lemma FilledShape(q: Pattern, keys: seq<Option<Keys>>)
    requires !q.Distinct? && !q.Slice?
    ensures !Filled(q, keys).Distinct? && !Filled(q, keys).Slice?
  {
  }

  function ProbeQuery(q: Pattern, projected: seq<Var>): Pattern {
    Distinct(Project(WithoutServices(QueryBody(q)), projected))
  }

  // A term that can be named at the far end: no blank node, however deep.
  predicate Sendable(t: Term) {
    match t
    case Blank(_) => false
    case Quoted(s, p, o) => Sendable(s) && Sendable(p) && Sendable(o)
    case _ => true
  }

  function SentRow(vars: seq<Var>, s: Solution): (row: seq<Option<Term>>)
    ensures |row| == |vars|
    ensures forall i :: 0 <= i < |vars| ==> row[i] == if vars[i] in s && Sendable(s[vars[i]]) then Some(s[vars[i]]) else None
  {
    if vars == [] then []
    else [if vars[0] in s && Sendable(s[vars[0]]) then Some(s[vars[0]]) else None] + SentRow(vars[1..], s)
  }

  function SentRows(vars: seq<Var>, solutions: seq<Solution>): (rows: seq<seq<Option<Term>>>)
    ensures |rows| == |solutions| && forall i :: 0 <= i < |rows| ==> rows[i] == SentRow(vars, solutions[i])
  {
    if solutions == [] then [] else [SentRow(vars, solutions[0])] + SentRows(vars, solutions[1..])
  }

  lemma ProbeMembers(c: Context, q: Pattern, projected: seq<Var>, solutions: seq<Solution>, s: Solution)
    requires Answers(c, ProbeQuery(q, projected), solutions) && s in Local(c, None, QueryBody(q))
    ensures Restrict(s, set v | v in projected) in solutions
  {
    var body := WithoutServices(QueryBody(q));
    var zs :| Answers(c, Project(body, projected), zs) && solutions == Dedup(zs);
    ProjectedAnswer(c, body, projected, zs, s);
    DedupSet(zs);
  }

  lemma ProjectedAnswer(c: Context, i: Pattern, keep: seq<Var>, zs: seq<Solution>, s: Solution)
    requires Answers(c, Project(i, keep), zs) && s in Eval(c, None, i)
    ensures Restrict(s, set v | v in keep) in zs
  {
    var t := Restrict(s, set v | v in keep);
    FlatMapMember(Eval(c, None, i), Projected(keep), t);
    assert t in Projected(keep)(s);
    SameMembers(zs, Eval(c, None, Project(i, keep)), t);
  }

  // The keys read off the probe cover every local solution.
  lemma KeysCover(clause: seq<Var>, solutions: seq<Solution>, keys: Keys, s: Solution, t: Solution)
    requires KeysOf(clause, SentRows(clause, solutions), keys) && t in solutions && Extends(t, s)
    ensures Covered(keys, s)
  {
    var rows, keep := SentRows(clause, solutions), KeptColumns(clause, SentRows(clause, solutions));
    var k :| 0 <= k < |solutions| && solutions[k] == t;
    assert HasAll(rows[k], keep);
    forall i | 0 <= i < |keep|
      ensures keys.variables[i] in s && s[keys.variables[i]] == rows[k][keep[i]].value
    {
      assert HasTerm(rows[k], keep[i]);
    }
    forall v | v in keys.variables
      ensures v in s
    {
      var i :| 0 <= i < |keys.variables| && keys.variables[i] == v;
    }
    assert TupleOf(keys.variables, s) == TupleAt(rows[k], keep);
    assert IsTuple(rows, keep, TupleAt(rows[k], keep));
  }

  lemma KeysWellFormed(clause: seq<Var>, rows: seq<seq<Option<Term>>>, keys: Keys)
    requires KeysOf(clause, rows, keys) && NoRepeats(clause)
    ensures WellFormed(keys)
  {
    var keep := KeptColumns(clause, rows);
    KeptInOrder(Upto(|clause|), ColumnBound(rows));
    forall i, j | 0 <= i < j < |keys.variables|
      ensures keys.variables[i] != keys.variables[j]
    {
      assert keep[i] < keep[j];
    }
    forall i | 0 <= i < |keys.rows|
      ensures |keys.rows[i]| == |keys.variables|
    {
      assert keys.rows[i] in keys.rows;
      assert IsTuple(rows, keep, keys.rows[i]);
    }
  }

  method VariablesOf(vs: set<Var>) returns (xs: seq<Var>)
    ensures NoRepeats(xs) && forall v :: v in xs <==> v in vs
  {
    xs := [];
    var left := vs;
    while left != {}
      invariant left <= vs && NoRepeats(xs) && forall v :: v in xs <==> v in vs - left
      decreases left
    {
      var v :| v in left;
      assert v !in xs;
      xs := xs + [v];
      left := left - {v};
    }
  }

  // What `KeysFromRows` makes of a clause's candidates, whatever order they are put in.
  ghost predicate KeysFound(candidates: set<Var>, solutions: seq<Solution>, k: Option<Keys>) {
    exists clause ::
      && NoRepeats(clause) && (forall v :: v in clause <==> v in candidates)
      && FoundIn(clause, SentRows(clause, solutions), k)
  }

  ghost predicate FoundIn(clause: seq<Var>, rows: seq<seq<Option<Term>>>, k: Option<Keys>) {
    && (k.Some? ==> KeysOf(clause, rows, k.value) && |k.value.rows| <= MAX_PUSHED_BINDINGS)
    && (k.None? ==> clause == [] || rows == [] || KeptColumns(clause, rows) == [] || TooMany(clause, rows))
  }

  predicate NothingAsked(candidates: seq<set<Var>>) {
    forall i :: 0 <= i < |candidates| ==> candidates[i] == {}
  }

  // One probe over every candidate variable, and each clause's keys found in its rows.
  ghost predicate Probed(q: Pattern, evaluate: Pattern -> seq<Solution>, projected: seq<Var>, keys: seq<Option<Keys>>) {
    ProbedFor(Candidates(q, {}), q, evaluate, projected, keys)
  }

  ghost predicate ProbedFor(candidates: seq<set<Var>>, q: Pattern, evaluate: Pattern -> seq<Solution>, projected: seq<Var>, keys: seq<Option<Keys>>) {
    && NoRepeats(projected) && (forall v :: v in projected <==> exists i :: 0 <= i < |candidates| && v in candidates[i])
    && |keys| == |candidates|
    && forall i :: 0 <= i < |keys| ==> KeysFound(candidates[i], evaluate(ProbeQuery(q, projected)), keys[i])
  }

  // The query as `bind_services` rewrites it.
  ghost predicate Rewritten(q: Pattern, evaluate: Pattern -> seq<Solution>, out: Pattern) {
    if NothingAsked(Candidates(q, {})) then out == q
    else exists projected, keys :: Probed(q, evaluate, projected, keys) && out == Filled(q, keys)
  }

  ghost predicate Evaluates(c: Context, evaluate: Pattern -> seq<Solution>) {
    forall p {:trigger evaluate(p)} :: Answers(c, p, evaluate(p))
  }

  // Probe once for every clause, and push what it found into each. Where the body keeps to the fragment, the query
  // that comes out has exactly the answers of the one that went in.
  method BindServices(c: Context, q: Pattern, evaluate: Pattern -> seq<Solution>) returns (out: Pattern)
    ensures Rewritten(q, evaluate, out)
    ensures Sliceable(q) && Outward(QueryBody(q)) && Evaluates(c, evaluate) ==> forall ys :: Answers(c, out, ys) <==> Answers(c, q, ys)
  {
    var candidates := ServiceCandidates(q);
    var all: set<Var> := {};
    for i := 0 to |candidates|
      invariant forall v :: v in all <==> exists j :: 0 <= j < i && v in candidates[j]
    {
      all := all + candidates[i];
    }
    if all == {} {
      forall i | 0 <= i < |candidates|
        ensures candidates[i] == {}
      {
        assert forall v :: v in candidates[i] ==> v in all;
      }
      return q;
    }
    var projected := VariablesOf(all);
    var solutions := evaluate(ProbeQuery(q, projected));
    var keys := FindKeys(candidates, solutions);
    SomethingAsked(candidates, all);
    out := WithPushedKeys(q, keys);
    assert Probed(q, evaluate, projected, keys);
    if Sliceable(q) && Outward(QueryBody(q)) && Evaluates(c, evaluate) {
      ProbedAnswers(c, q, evaluate, projected, keys);
    }
  }

  method FindKeys(candidates: seq<set<Var>>, solutions: seq<Solution>) returns (keys: seq<Option<Keys>>)
    ensures |keys| == |candidates| && forall i :: 0 <= i < |keys| ==> KeysFound(candidates[i], solutions, keys[i])
  {
    keys := [];
    for i := 0 to |candidates|
      invariant |keys| == i && forall j :: 0 <= j < i ==> KeysFound(candidates[j], solutions, keys[j])
    {
      var clause := VariablesOf(candidates[i]);
      var found := KeysFromRows(clause, SentRows(clause, solutions));
      assert FoundIn(clause, SentRows(clause, solutions), found);
      keys := keys + [found];
    }
  }

  lemma SomethingAsked(candidates: seq<set<Var>>, all: set<Var>)
    requires all != {} && forall v :: v in all <==> exists j :: 0 <= j < |candidates| && v in candidates[j]
    ensures !NothingAsked(candidates)
  {
    var v :| v in all;
    var j :| 0 <= j < |candidates| && v in candidates[j];
  }

  lemma {:induction false} CandidatesBody(q: Pattern)
    ensures Candidates(q, {}) == Candidates(QueryBody(q), {})
  {
    match q
    case Project(i, _) => CandidatesBody(i);
    case Distinct(i) => CandidatesBody(i);
    case Slice(i, _, _) => CandidatesBody(i);
    case OrderBy(i) => CandidatesBody(i);
    case _ =>
  }

  lemma ProbedAnswers(c: Context, q: Pattern, evaluate: Pattern -> seq<Solution>, projected: seq<Var>, keys: seq<Option<Keys>>)
    requires Sliceable(q) && Outward(QueryBody(q)) && Evaluates(c, evaluate) && Probed(q, evaluate, projected, keys)
    ensures forall ys :: Answers(c, Filled(q, keys), ys) <==> Answers(c, q, ys)
  {
    ProbeCovers(c, q, evaluate, projected, keys);
    forall ys
      ensures Answers(c, Filled(q, keys), ys) <==> Answers(c, q, ys)
    {
      FilledAnswers(c, q, keys, ys);
    }
  }

  lemma FoundNames(candidates: set<Var>, solutions: seq<Solution>, keys: Keys)
    requires KeysFound(candidates, solutions, Some(keys))
    ensures WellFormed(keys) && forall v :: v in keys.variables ==> v in candidates
  {
    var clause :| NoRepeats(clause) && (forall v :: v in clause <==> v in candidates) && FoundIn(clause, SentRows(clause, solutions), Some(keys));
    KeysWellFormed(clause, SentRows(clause, solutions), keys);
    forall v | v in keys.variables
      ensures v in candidates
    {
      var i :| 0 <= i < |keys.variables| && keys.variables[i] == v;
      assert v in clause;
    }
  }

  lemma FoundCovers(candidates: set<Var>, solutions: seq<Solution>, keys: Keys, projected: seq<Var>, s: Solution)
    requires KeysFound(candidates, solutions, Some(keys)) && forall v :: v in candidates ==> v in projected
    requires Restrict(s, set v | v in projected) in solutions
    ensures Covered(keys, s)
  {
    var clause :| NoRepeats(clause) && (forall v :: v in clause <==> v in candidates) && FoundIn(clause, SentRows(clause, solutions), Some(keys));
    KeysCover(clause, solutions, keys, s, Restrict(s, set v | v in projected));
  }

  lemma ProbeRows(c: Context, q: Pattern, evaluate: Pattern -> seq<Solution>, projected: seq<Var>, keys: seq<Option<Keys>>)
    requires Evaluates(c, evaluate) && Probed(q, evaluate, projected, keys)
    ensures AllCovered(keys, Local(c, None, QueryBody(q))) && Asked(keys, Candidates(q, {}))
  {
    var candidates, solutions := Candidates(q, {}), evaluate(ProbeQuery(q, projected));
    forall s | s in Local(c, None, QueryBody(q))
      ensures CoveredBy(keys, s)
    {
      ProbeMembers(c, q, projected, solutions, s);
      forall k | k in keys && k.Some?
        ensures WellFormed(k.value) && Covered(k.value, s)
      {
        var i :| 0 <= i < |keys| && keys[i] == k;
        FoundNames(candidates[i], solutions, k.value);
        FoundCovers(candidates[i], solutions, k.value, projected, s);
      }
    }
    forall i | 0 <= i < |keys| && keys[i].Some?
      ensures forall v :: v in keys[i].value.variables ==> v in candidates[i]
    {
      FoundNames(candidates[i], solutions, keys[i].value);
    }
  }

  lemma ProbeCovers(c: Context, q: Pattern, evaluate: Pattern -> seq<Solution>, projected: seq<Var>, keys: seq<Option<Keys>>)
    requires Outward(QueryBody(q)) && Evaluates(c, evaluate) && Probed(q, evaluate, projected, keys)
    ensures Same(Eval(c, None, Filled(QueryBody(q), keys)), Eval(c, None, QueryBody(q)))
  {
    var body, all := QueryBody(q), Everything<Solution>();
    ProbeRows(c, q, evaluate, projected, keys);
    CandidatesBody(q);
    SelectEvery(Local(c, None, body), all);
    assert SettledBy(all, {});
    PushOutward(c, body, keys, all, {});
    SelectEvery(Eval(c, None, body), all);
    SelectEvery(Eval(c, None, Filled(body, keys)), all);
  }
}
