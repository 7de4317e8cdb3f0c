/**
 Where sending keys to a SERVICE loses an answer (crates/holos-engine/src/boundjoin.rs). Each family is put through
 `BindServices` itself: its candidates, its probe, the keys read off the rows. The service holds a table of one row, and
 what that row says decides whether the query that comes out is still the one that went in.
 */
module BoundLimits {
  import opened Options
  import opened Bags
  import opened Rdf
  import opened Solutions
  import opened Expressions
  import opened Algebra
  import opened Items
  import opened Answering
  import opened BoundJoin

  // --- A probe that finds one value for one variable -----------------------------------------------------------

  // The one thing a clause is asked for, and the one row its probe finds.
  ghost predicate OneProbe(c: Context, q: Pattern, v: Var, a: Term) {
    && |Candidates(q, {})| == 1 && Candidates(q, {})[0] == {v}
    && Eval(c, None, Project(WithoutServices(QueryBody(q)), [v])) == [map[v := a]]
  }

  function KeyOf(v: Var, a: Term): Option<Keys> {
    if Sendable(a) then Some(Keys([v], [[a]])) else None
  }

  lemma OnlyOne<T(!new)>(xs: seq<T>, x: T)
    requires NoRepeats(xs) && forall y :: y in xs <==> y == x
    ensures xs == [x]
  {
    NoRepeatsIsSet(xs);
    assert x in xs;
    assert (set y | y in xs) == {x};
    assert |xs| == |multiset(xs)|;
  }

  lemma ProbeOne(c: Context, q: Pattern, v: Var, a: Term, ys: seq<Solution>)
    requires OneProbe(c, q, v, a) && Answers(c, ProbeQuery(q, [v]), ys)
    ensures ys == [map[v := a]]
  {
    var body := Project(WithoutServices(QueryBody(q)), [v]);
    var zs :| Answers(c, body, zs) && ys == Dedup(zs);
    SameLength(zs, Eval(c, None, body));
    SameMembers(zs, Eval(c, None, body), zs[0]);
    assert zs == [zs[0]];
    assert zs[..0] == [] && Dedup(zs[..0]) == [];
  }

  lemma SentOne(v: Var, a: Term)
    ensures SentRows([v], [map[v := a]]) == [[if Sendable(a) then Some(a) else None]]
  {
    var s: Solution := map[v := a];
    var row := SentRow([v], s);
    assert SentRows([v], [s])[0] == row;
    assert s[v] == a && row[0] == if Sendable(a) then Some(a) else None;
    assert row == [row[0]];
    assert SentRows([v], [s]) == [row];
  }

  lemma KeptOne(v: Var, cell: Option<Term>)
    ensures KeptColumns([v], [[cell]]) == if cell.Some? then [0] else []
  {
    var rows := [[cell]];
    var p := ColumnBound(rows);
    assert rows[0] == [cell];
    assert p(0) <==> HasTerm(rows[0], 0);
    assert Upto(1) == Upto(0) + [0] == [0];
    assert [0][1..] == [];
  }

  lemma TupleOne(a: Term)
    ensures HasAll([Some(a)], [0]) && TupleAt([Some(a)], [0]) == [a]
  {
    assert HasTerm([Some(a)], 0);
  }

  lemma FoundOne(v: Var, a: Term, k: Option<Keys>)
    requires FoundIn([v], [[if Sendable(a) then Some(a) else None]], k)
    ensures k == KeyOf(v, a)
  {
    var cell := if Sendable(a) then Some(a) else None;
    var rows := [[cell]];
    KeptOne(v, cell);
    if Sendable(a) {
      TupleOne(a);
      assert AllHave(rows, [0]);
      forall t
        ensures IsTuple(rows, [0], t) <==> t == [a]
      {
        assert rows[0] == [Some(a)];
      }
      if k.None? {
        NotTooMany([v], rows, [a]);
      } else {
        OnlyOne(k.value.rows, [a]);
        assert NamesAt([v], [0])[0] == v;
        assert k.value.variables == [v];
      }
    }
  }

  lemma AnotherOne<T>(xs: seq<T>, only: T) returns (x: T)
    requires |xs| >= 2 && xs[0] != xs[1]
    ensures x in xs && x != only
  {
    x := if xs[0] == only then xs[1] else xs[0];
  }

  lemma NotTooMany(candidates: seq<Var>, rows: seq<seq<Option<Term>>>, only: seq<Term>)
    requires AllHave(rows, KeptColumns(candidates, rows))
    requires forall t :: IsTuple(rows, KeptColumns(candidates, rows), t) ==> t == only
    ensures !TooMany(candidates, rows)
  {
    forall some: seq<seq<Term>> | NoRepeats(some) && |some| > MAX_PUSHED_BINDINGS
      ensures exists t :: t in some && !IsTuple(rows, KeptColumns(candidates, rows), t)
    {
      var t := AnotherOne(some, only);
    }
  }

  lemma OneFound(v: Var, a: Term, k: Option<Keys>)
    requires KeysFound({v}, [map[v := a]], k)
    ensures k == KeyOf(v, a)
  {
    var s: Solution := map[v := a];
    var clause :| NoRepeats(clause) && (forall w :: w in clause <==> w in {v}) && FoundIn(clause, SentRows(clause, [s]), k);
    OnlyOne(clause, v);
    SentOne(v, a);
    FoundOne(v, a, k);
  }

  lemma AskedOne(candidates: seq<set<Var>>, v: Var, projected: seq<Var>)
    requires |candidates| == 1 && candidates[0] == {v} && NoRepeats(projected)
    requires forall w :: w in projected <==> exists i :: 0 <= i < |candidates| && w in candidates[i]
    ensures projected == [v]
  {
    assert forall w :: w in projected <==> w in candidates[0];
    OnlyOne(projected, v);
  }

  lemma ProjectedOne(candidates: seq<set<Var>>, q: Pattern, v: Var, evaluate: Pattern -> seq<Solution>, projected: seq<Var>, keys: seq<Option<Keys>>)
    requires |candidates| == 1 && candidates[0] == {v} && ProbedFor(candidates, q, evaluate, projected, keys)
    ensures projected == [v] && |keys| == 1 && KeysFound({v}, evaluate(ProbeQuery(q, [v])), keys[0])
  {
    AskedOne(candidates, v, projected);
  }

  lemma ProbedOne(c: Context, q: Pattern, v: Var, a: Term, evaluate: Pattern -> seq<Solution>, projected: seq<Var>, keys: seq<Option<Keys>>)
    requires OneProbe(c, q, v, a) && Evaluates(c, evaluate) && Probed(q, evaluate, projected, keys)
    ensures keys == [KeyOf(v, a)]
  {
    ProjectedOne(Candidates(q, {}), q, v, evaluate, projected, keys);
    var rows := evaluate(ProbeQuery(q, [v]));
    ProbeOne(c, q, v, a, rows);
    OneFound(v, a, keys[0]);
    assert keys == [keys[0]];
  }

  // So what comes out is the query with that key in its one clause, or with none when the value cannot be sent.
  lemma OneKey(c: Context, q: Pattern, v: Var, a: Term, evaluate: Pattern -> seq<Solution>, out: Pattern)
    requires OneProbe(c, q, v, a) && Evaluates(c, evaluate) && Rewritten(q, evaluate, out)
    ensures out == Filled(q, [KeyOf(v, a)])
  {
    assert v in Candidates(q, {})[0];
    assert !NothingAsked(Candidates(q, {}));
    var projected, keys :| Probed(q, evaluate, projected, keys) && out == Filled(q, keys);
    ProbedOne(c, q, v, a, evaluate, projected, keys);
  }

  // --- Equal answers -------------------------------------------------------------------------------------------------

  ghost predicate AnswersAlike(c: Context, p: Pattern, q: Pattern) {
    forall ys :: Answers(c, p, ys) <==> Answers(c, q, ys)
  }

  lemma AlikeWhen(c: Context, i: Pattern, j: Pattern, keep: seq<Var>)
    ensures AnswersAlike(c, Project(i, keep), Project(j, keep)) <==> Same(Eval(c, None, Project(i, keep)), Eval(c, None, Project(j, keep)))
  {
    var xs := Eval(c, None, Project(i, keep));
    assert Answers(c, Project(i, keep), xs);
    if AnswersAlike(c, Project(i, keep), Project(j, keep)) {
      assert Answers(c, Project(j, keep), xs);
    }
  }

  lemma {:induction false} ProjectedSize(keep: seq<Var>, xs: seq<Solution>)
    ensures |FlatMap(xs, Projected(keep))| == |xs|
  {
    if xs != [] {
      ProjectedSize(keep, xs[1..]);
    }
  }

  lemma {:induction false} FilledWithNone(p: Pattern, keys: seq<Option<Keys>>)
    requires forall k :: k in keys ==> k.None?
    ensures Filled(p, keys) == p
  {
    match p
    case Service(_, _) =>
      if keys != [] {
        assert keys[0] in keys;
      }
    case Join(l, r) => FilledWithNone(l, keys); FilledWithNone(r, Rest(keys, Clauses(l)));
    case LeftJoin(l, r, _) => FilledWithNone(l, keys); FilledWithNone(r, Rest(keys, Clauses(l)));
    case Union(l, r) => FilledWithNone(l, keys); FilledWithNone(r, Rest(keys, Clauses(l)));
    case Minus(l, r) => FilledWithNone(l, keys); FilledWithNone(r, Rest(keys, Clauses(l)));
    case Filter(_, i) => FilledWithNone(i, keys);
    case Graph(_, i) => FilledWithNone(i, keys);
    case Extend(i, _, _) => FilledWithNone(i, keys);
    case OrderBy(i) => FilledWithNone(i, keys);
    case Project(i, _) => FilledWithNone(i, keys);
    case Distinct(i) => FilledWithNone(i, keys);
    case Slice(i, _, _) => FilledWithNone(i, keys);
    case Group(i, _, _) => FilledWithNone(i, keys);
    case _ =>
  }

  // Put through the rewrite, a query of one clause and one key has the answers it had exactly when the key cannot be
  // sent, or sending it leaves the body as many rows as before and the same ones.
  lemma OneKeyAnswers(c: Context, i: Pattern, keep: seq<Var>, v: Var, a: Term, evaluate: Pattern -> seq<Solution>, out: Pattern)
    requires OneProbe(c, Project(i, keep), v, a) && Evaluates(c, evaluate) && Rewritten(Project(i, keep), evaluate, out)
    ensures AnswersAlike(c, out, Project(i, keep))
       <==> !Sendable(a) || Same(FlatMap(Eval(c, None, Filled(i, [Some(Keys([v], [[a]]))])), Projected(keep)), FlatMap(Eval(c, None, i), Projected(keep)))
  {
    OneKey(c, Project(i, keep), v, a, evaluate, out);
    if Sendable(a) {
      AlikeWhen(c, Filled(i, [KeyOf(v, a)]), i, keep);
    } else {
      FilledWithNone(Project(i, keep), [KeyOf(v, a)]);
    }
  }

  lemma EmptyOrNot(keep: seq<Var>, xs: seq<Solution>, ys: seq<Solution>)
    requires xs == ys || |xs| != |ys|
    ensures Same(FlatMap(xs, Projected(keep)), FlatMap(ys, Projected(keep))) <==> xs == ys
  {
    ProjectedSize(keep, xs);
    ProjectedSize(keep, ys);
    if Same(FlatMap(xs, Projected(keep)), FlatMap(ys, Projected(keep))) {
      SameLength(FlatMap(xs, Projected(keep)), FlatMap(ys, Projected(keep)));
    }
  }

  // --- Tables of one row, here and at the service ----------------------------------------------------------------

  lemma OneValue(x: Var, a: Term)
    ensures ValuesBag([x], [[Some(a)]]) == [map[x := a]]
  {
    RowFromDistinct(map[], [x], [a]);
    assert SomeEach([a]) == [Some(a)];
    FlatMapOne([Some(a)], RowBag(map[], [x]));
    assert RowFrom(Some(map[]), [x], [Some(a)]).value == map[x := a];
  }

  lemma TwoValues(x: Var, y: Var, s: Term, b: Term)
    requires x != y
    ensures ValuesBag([x, y], [[Some(s), Some(b)]]) == [map[x := s, y := b]]
  {
    RowFromDistinct(map[], [x, y], [s, b]);
    assert SomeEach([s, b]) == [Some(s), Some(b)];
    FlatMapOne([Some(s), Some(b)], RowBag(map[], [x, y]));
    var vars, row := [x, y], [s, b];
    var t := RowFrom(Some(map[]), vars, SomeEach(row)).value;
    assert vars[0] == x && vars[1] == y && row[0] == s && row[1] == b;
    assert t[x] == s && t[y] == b && t.Keys == {x, y};
    assert t == map[x := s, y := b];
  }

  function Here(v: Var, a: Term): Pattern {
    Values([v], [[Some(a)]])
  }

  function Far(endpoint: string, i: Pattern): Pattern {
    Service(endpoint, i)
  }

  lemma HereEval(c: Context, active: Option<Term>, v: Var, a: Term)
    ensures Eval(c, active, Here(v, a)) == [map[v := a]]
  {
    OneValue(v, a);
  }

  lemma FarEval(c: Context, endpoint: string, i: Pattern, rows: seq<Solution>)
    requires Eval(c.(view := c.remote(endpoint)), None, i) == rows
    ensures Eval(c, None, Far(endpoint, i)) == rows
  {
  }

  // A table at the service, with the one key in front of it.
  lemma FarPushed(c: Context, endpoint: string, i: Pattern, v: Var, a: Term, row: Solution)
    requires Eval(c.(view := c.remote(endpoint)), None, i) == [row] && v in row
    ensures Eval(c, None, Far(endpoint, Join(AsTable(Keys([v], [[a]])), i))) == if row[v] == a then [row] else []
  {
    var key: Solution := map[v := a];
    PushedEval(c, None, endpoint, i, Keys([v], [[a]]));
    assert SomeEach([a]) == [Some(a)] && [[a]][1..] == [] && Somes([[a]]) == [[Some(a)]];
    OneValue(v, a);
    JoinSingle(key, [row]);
    FlatMapOne(row, Against(key));
    if row[v] == a {
      assert key + row == row;
    } else {
      assert key[v] != row[v];
    }
  }

  lemma JoinHere(c: Context, x: Var, a: Term, r: Pattern)
    ensures Eval(c, None, Join(Here(x, a), r)) == JoinOne(map[x := a], Eval(c, None, r))
  {
    OneValue(x, a);
    JoinSingle(map[x := a], Eval(c, None, r));
  }

  lemma FilledFar(endpoint: string, i: Pattern, k: Keys)
    requires k.variables != [] && k.rows != []
    ensures Filled(Far(endpoint, i), [Some(k)]) == Far(endpoint, Join(AsTable(k), i))
  {
  }

  lemma WithoutFar(endpoint: string, i: Pattern)
    ensures WithoutServices(Far(endpoint, i)) == Bgp([])
  {
  }

  lemma FilledHere(v: Var, a: Term, keys: seq<Option<Keys>>)
    ensures Filled(Here(v, a), keys) == Here(v, a) && Clauses(Here(v, a)) == 0 && Rest(keys, 0) == keys
  {
  }

  lemma JoinedRow(x: Var, a: Term, row: Solution)
    requires x !in row
    ensures JoinOne(map[x := a], [row]) == [map[x := a] + row]
  {
    var key: Solution := map[x := a];
    FlatMapOne(row, Against(key));
    assert Compatible(key, row);
  }

  // --- Under MINUS ------------------------------------------------------------------------------------------------

  // `?x` given one value, and a row for `?y` taken away by what a service says of both.
  function UnderMinus(x: Var, y: Var, a: Term, b: Term, s: Term, endpoint: string): Pattern {
    Join(Here(x, a), Minus(Here(y, b), Far(endpoint, Values([x, y], [[Some(s), Some(b)]]))))
  }

  lemma MinusOne(y: Var, b: Term, ts: seq<Solution>)
    requires forall t :: t in ts ==> y in t && t[y] == b
    ensures Select([map[y := b]], Survives(ts)) == if ts == [] then [map[y := b]] else []
  {
    var one: Solution := map[y := b];
    assert Select([one][1..], Survives(ts)) == [];
    if ts != [] {
      assert ts[0] in ts;
      assert Excludes(one, ts[0]) by {
        assert y in one && y in ts[0];
      }
    }
  }

  lemma MinusEval(c: Context, y: Var, b: Term, r: Pattern, ts: seq<Solution>)
    requires ts == Eval(c, None, r) && forall t :: t in ts ==> y in t && t[y] == b
    ensures Eval(c, None, Minus(Here(y, b), r)) == if ts == [] then [map[y := b]] else []
  {
    MinusIs(c, Here(y, b), r);
    HereEval(c, None, y, b);
    MinusOne(y, b, ts);
  }

  lemma MinusJoin(c: Context, x: Var, y: Var, a: Term, b: Term, r: Pattern, ts: seq<Solution>)
    requires x != y && ts == Eval(c, None, r) && forall t :: t in ts ==> y in t && t[y] == b
    ensures Eval(c, None, Join(Here(x, a), Minus(Here(y, b), r))) == if ts == [] then [map[x := a] + map[y := b]] else []
  {
    MinusEval(c, y, b, r, ts);
    JoinHere(c, x, a, Minus(Here(y, b), r));
    JoinedRow(x, a, map[y := b]);
  }

  lemma UnderMinusFilled(x: Var, y: Var, a: Term, b: Term, s: Term, endpoint: string)
    ensures Filled(UnderMinus(x, y, a, b, s, endpoint), [Some(Keys([x], [[a]]))])
         == Join(Here(x, a), Minus(Here(y, b), Far(endpoint, Join(AsTable(Keys([x], [[a]])), Values([x, y], [[Some(s), Some(b)]])))))
  {
    var ks, far := [Some(Keys([x], [[a]]))], Values([x, y], [[Some(s), Some(b)]]);
    FilledHere(x, a, ks);
    FilledHere(y, b, ks);
    FilledFar(endpoint, far, Keys([x], [[a]]));
    assert Filled(Minus(Here(y, b), Far(endpoint, far)), ks) == Minus(Here(y, b), Filled(Far(endpoint, far), ks));
  }

  lemma UnderMinusAsked(x: Var, y: Var, a: Term, b: Term, s: Term, endpoint: string, keep: seq<Var>)
    ensures |Candidates(Project(UnderMinus(x, y, a, b, s, endpoint), keep), {})| == 1
    ensures Candidates(Project(UnderMinus(x, y, a, b, s, endpoint), keep), {})[0] == {x}
  {
    var p, none: set<Var> := UnderMinus(x, y, a, b, s, endpoint), {};
    var bound := none + PatternVariables(p.left);
    var left, far := Candidates(p.left, none + PatternVariables(p.right)), Candidates(p.right.right, bound);
    assert left == [] && Candidates(p.right.left, bound) == [];
    assert |far| == 1 && far[0] == PatternVariables(Values([x, y], [[Some(s), Some(b)]])) * bound;
    assert Candidates(p.right, bound) == [] + far;
    assert Candidates(p, none) == left + Candidates(p.right, bound);
  }

  // The probe's own MINUS has nothing to take away: with the service out, its right side binds nothing.
  lemma UnderMinusProbe(c: Context, x: Var, y: Var, a: Term, b: Term, s: Term, endpoint: string, keep: seq<Var>)
    requires x != y
    ensures OneProbe(c, Project(UnderMinus(x, y, a, b, s, endpoint), keep), x, a)
  {
    var body := Join(Here(x, a), Minus(Here(y, b), Bgp([])));
    UnderMinusAsked(x, y, a, b, s, endpoint, keep);
    WithoutFar(endpoint, Values([x, y], [[Some(s), Some(b)]]));
    assert WithoutServices(Minus(Here(y, b), Far(endpoint, Values([x, y], [[Some(s), Some(b)]])))) == Minus(Here(y, b), Bgp([]));
    MinusNothing(c, y, b);
    JoinHere(c, x, a, Minus(Here(y, b), Bgp([])));
    JoinedRow(x, a, map[y := b]);
    OneProjected(map[x := a] + map[y := b], x);
    ProjectIs(c, body, [x]);
  }

  lemma MinusNothing(c: Context, y: Var, b: Term)
    ensures Eval(c, None, Minus(Here(y, b), Bgp([]))) == [map[y := b]]
  {
    OneValue(y, b);
    var none: Solution, one: Solution := map[], map[y := b];
    assert Eval(c, None, Bgp([])) == [none];
    assert !Excludes(one, none);
    SelectEvery([one], Survives([none]));
  }

  lemma OneProjected(s: Solution, v: Var)
    requires v in s
    ensures FlatMap([s], Projected([v])) == [map[v := s[v]]]
  {
    FlatMapOne(s, Projected([v]));
    assert Restrict(s, set w | w in [v]) == map[v := s[v]];
  }

  lemma UnderMinusBoth(c: Context, x: Var, y: Var, a: Term, b: Term, s: Term, endpoint: string)
    requires x != y
    ensures Eval(c, None, UnderMinus(x, y, a, b, s, endpoint)) == []
    ensures Eval(c, None, Filled(UnderMinus(x, y, a, b, s, endpoint), [Some(Keys([x], [[a]]))]))
         == if s == a then [] else [map[x := a] + map[y := b]]
  {
    var far, row := Values([x, y], [[Some(s), Some(b)]]), map[x := s, y := b];
    var pushed := Far(endpoint, Join(AsTable(Keys([x], [[a]])), far));
    TwoValues(x, y, s, b);
    assert Eval(c.(view := c.remote(endpoint)), None, far) == [row];
    FarEval(c, endpoint, far, [row]);
    MinusJoin(c, x, y, a, b, Far(endpoint, far), [row]);
    FarPushed(c, endpoint, far, x, a, row);
    UnderMinusFilled(x, y, a, b, s, endpoint);
    MinusJoin(c, x, y, a, b, pushed, if s == a then [row] else []);
  }

  // Keys sent to a service under MINUS keep it from taking a row away. The rewritten query has the answers it had
  // exactly when the key cannot be sent, or is what the service speaks of.
  lemma UnderMinusExactly(c: Context, x: Var, y: Var, a: Term, b: Term, s: Term, endpoint: string, keep: seq<Var>,
                          evaluate: Pattern -> seq<Solution>, out: Pattern)
    requires x != y && Evaluates(c, evaluate) && Rewritten(Project(UnderMinus(x, y, a, b, s, endpoint), keep), evaluate, out)
    ensures AnswersAlike(c, out, Project(UnderMinus(x, y, a, b, s, endpoint), keep)) <==> !Sendable(a) || s == a
  {
    var i := UnderMinus(x, y, a, b, s, endpoint);
    UnderMinusProbe(c, x, y, a, b, s, endpoint, keep);
    OneKeyAnswers(c, i, keep, x, a, evaluate, out);
    UnderMinusBoth(c, x, y, a, b, s, endpoint);
    EmptyOrNot(keep, Eval(c, None, Filled(i, [Some(Keys([x], [[a]]))])), Eval(c, None, i));
  }

  // --- Under OPTIONAL, beside what binds the same variable ---------------------------------------------------------

  // `?x` given one value, and beside it a row for `?y` that a service may say an `?x` for.
  function BesideOptional(x: Var, y: Var, a: Term, b: Term, s: Term, endpoint: string): Pattern {
    Join(Here(x, a), LeftJoin(Here(y, b), Far(endpoint, Here(x, s)), None))
  }

  lemma LeftEval(c: Context, y: Var, b: Term, r: Pattern, ts: seq<Solution>)
    requires ts == Eval(c, None, r) && forall t :: t in ts ==> y !in t
    requires |ts| <= 1
    ensures Eval(c, None, LeftJoin(Here(y, b), r, None)) == if ts == [] then [map[y := b]] else [map[y := b] + ts[0]]
  {
    var one: Solution := map[y := b];
    LeftIs(c, Here(y, b), r);
    HereEval(c, None, y, b);
    FlatMapOne(one, OrAlone(c.rules, ts, None));
    SelectEvery(JoinOne(one, ts), KeepsIf(c.rules, None));
    if ts != [] {
      assert ts == [ts[0]];
      JoinedRow(y, b, ts[0]);
    }
  }

  lemma BesideFilled(x: Var, y: Var, a: Term, b: Term, s: Term, endpoint: string)
    ensures Filled(BesideOptional(x, y, a, b, s, endpoint), [Some(Keys([x], [[a]]))])
         == Join(Here(x, a), LeftJoin(Here(y, b), Far(endpoint, Join(AsTable(Keys([x], [[a]])), Here(x, s))), None))
  {
    var ks := [Some(Keys([x], [[a]]))];
    FilledHere(x, a, ks);
    FilledHere(y, b, ks);
    FilledFar(endpoint, Here(x, s), Keys([x], [[a]]));
    assert Filled(LeftJoin(Here(y, b), Far(endpoint, Here(x, s)), None), ks) == LeftJoin(Here(y, b), Filled(Far(endpoint, Here(x, s)), ks), None);
  }

  lemma BesideAsked(x: Var, y: Var, a: Term, b: Term, s: Term, endpoint: string, keep: seq<Var>)
    ensures |Candidates(Project(BesideOptional(x, y, a, b, s, endpoint), keep), {})| == 1
    ensures Candidates(Project(BesideOptional(x, y, a, b, s, endpoint), keep), {})[0] == {x}
  {
    var p, none: set<Var> := BesideOptional(x, y, a, b, s, endpoint), {};
    var bound := none + PatternVariables(p.left);
    var left, far := Candidates(p.left, none + PatternVariables(p.right)), Candidates(p.right.right, bound + PatternVariables(p.right.left));
    assert left == [] && Candidates(p.right.left, bound) == [];
    assert |far| == 1 && far[0] == PatternVariables(Here(x, s)) * (bound + PatternVariables(p.right.left));
    assert Candidates(p.right, bound) == [] + far;
    assert Candidates(p, none) == left + Candidates(p.right, bound);
  }

  lemma BesideProbe(c: Context, x: Var, y: Var, a: Term, b: Term, s: Term, endpoint: string, keep: seq<Var>)
    requires x != y
    ensures OneProbe(c, Project(BesideOptional(x, y, a, b, s, endpoint), keep), x, a)
  {
    var body, none: Solution, one: Solution := Join(Here(x, a), LeftJoin(Here(y, b), Bgp([]), None)), map[], map[y := b];
    BesideAsked(x, y, a, b, s, endpoint, keep);
    WithoutFar(endpoint, Here(x, s));
    assert WithoutServices(LeftJoin(Here(y, b), Far(endpoint, Here(x, s)), None)) == LeftJoin(Here(y, b), Bgp([]), None);
    assert Eval(c, None, Bgp([])) == [none];
    LeftEval(c, y, b, Bgp([]), [none]);
    assert one + none == one;
    JoinHere(c, x, a, LeftJoin(Here(y, b), Bgp([]), None));
    JoinedRow(x, a, one);
    OneProjected(map[x := a] + one, x);
    ProjectIs(c, body, [x]);
  }

  lemma BesideJoin(c: Context, x: Var, y: Var, a: Term, b: Term, r: Pattern, ts: seq<Solution>)
    requires x != y && ts == Eval(c, None, r) && |ts| <= 1 && forall t :: t in ts ==> t.Keys == {x}
    ensures Eval(c, None, Join(Here(x, a), LeftJoin(Here(y, b), r, None)))
         == if ts == [] || ts[0][x] == a then [map[x := a] + map[y := b]] else []
  {
    var one: Solution, key: Solution := map[y := b], map[x := a];
    LeftEval(c, y, b, r, ts);
    JoinHere(c, x, a, LeftJoin(Here(y, b), r, None));
    if ts == [] {
      JoinedRow(x, a, one);
    } else {
      var row := one + ts[0];
      assert ts[0] in ts;
      FlatMapOne(row, Against(key));
      if ts[0][x] == a {
        assert Compatible(key, row) && key + row == key + one;
      } else {
        assert key[x] != row[x];
      }
    }
  }

  lemma BesideBoth(c: Context, x: Var, y: Var, a: Term, b: Term, s: Term, endpoint: string)
    requires x != y
    ensures Eval(c, None, BesideOptional(x, y, a, b, s, endpoint)) == if s == a then [map[x := a] + map[y := b]] else []
    ensures Eval(c, None, Filled(BesideOptional(x, y, a, b, s, endpoint), [Some(Keys([x], [[a]]))])) == [map[x := a] + map[y := b]]
  {
    var row: Solution := map[x := s];
    var pushed := Far(endpoint, Join(AsTable(Keys([x], [[a]])), Here(x, s)));
    HereEval(c.(view := c.remote(endpoint)), None, x, s);
    FarEval(c, endpoint, Here(x, s), [row]);
    BesideJoin(c, x, y, a, b, Far(endpoint, Here(x, s)), [row]);
    FarPushed(c, endpoint, Here(x, s), x, a, row);
    BesideFilled(x, y, a, b, s, endpoint);
    BesideJoin(c, x, y, a, b, pushed, if s == a then [row] else []);
  }

  // A key that keeps a service from matching makes the OPTIONAL leave its row bare, and the bare row then joins what the
  // service's would not have. The rewritten query has the answers it had exactly when the key cannot be sent, or is what
  // the service speaks of.
  lemma BesideOptionalExactly(c: Context, x: Var, y: Var, a: Term, b: Term, s: Term, endpoint: string, keep: seq<Var>,
                              evaluate: Pattern -> seq<Solution>, out: Pattern)
    requires x != y && Evaluates(c, evaluate) && Rewritten(Project(BesideOptional(x, y, a, b, s, endpoint), keep), evaluate, out)
    ensures AnswersAlike(c, out, Project(BesideOptional(x, y, a, b, s, endpoint), keep)) <==> !Sendable(a) || s == a
  {
    var i := BesideOptional(x, y, a, b, s, endpoint);
    BesideProbe(c, x, y, a, b, s, endpoint, keep);
    OneKeyAnswers(c, i, keep, x, a, evaluate, out);
    BesideBoth(c, x, y, a, b, s, endpoint);
    EmptyOrNot(keep, Eval(c, None, Filled(i, [Some(Keys([x], [[a]]))])), Eval(c, None, i));
  }

  // --- Under a filter the local part does not settle -----------------------------------------------------------------

  // Two values of `?d` here, one of `?d` with a `?w` there, and a filter over both.
  function UnderFilter(d: Var, w: Var, x: Term, y: Term, s: Term, t: Term, e: Expr, endpoint: string): Pattern {
    Filter(e, Join(Values([d], [[Some(x)], [Some(y)]]), Far(endpoint, Values([d, w], [[Some(s), Some(t)]]))))
  }

  // What the filter says of the two values before the service is heard.
  ghost predicate Leaves(r: Rules, e: Expr, d: Var, x: Term, y: Term) {
    Holds(r, e, map[d := x]) && !Holds(r, e, map[d := y])
  }

  lemma TwoRows(d: Var, x: Term, y: Term)
    ensures ValuesBag([d], [[Some(x)], [Some(y)]]) == [map[d := x], map[d := y]]
  {
    var f := RowBag(map[], [d]);
    var rows := [[Some(x)], [Some(y)]];
    OneValue(d, x);
    OneValue(d, y);
    assert rows == [rows[0]] + [rows[1]];
    FlatMapAppend([rows[0]], [rows[1]], f);
  }

  lemma JoinTwo(c: Context, d: Var, x: Term, y: Term, r: Pattern, ts: seq<Solution>)
    requires ts == Eval(c, None, r)
    ensures Eval(c, None, Join(Values([d], [[Some(x)], [Some(y)]]), r)) == JoinOne(map[d := x], ts) + JoinOne(map[d := y], ts)
  {
    TwoRows(d, x, y);
    var one, two := map[d := x], map[d := y];
    assert [one, two] == [one] + [two];
    JoinAppend([one], [two], ts);
    JoinSingle(one, ts);
    JoinSingle(two, ts);
  }

  lemma KeyedRow(d: Var, x: Term, row: Solution)
    requires d in row
    ensures JoinOne(map[d := x], [row]) == if row[d] == x then [row] else []
  {
    var key: Solution := map[d := x];
    FlatMapOne(row, Against(key));
    if row[d] == x {
      assert Compatible(key, row) && key + row == row;
    } else {
      assert key[d] != row[d];
    }
  }

  // With the service's one row there, and with nothing there.
  lemma FilterJoin(c: Context, d: Var, x: Term, y: Term, e: Expr, r: Pattern, row: Solution)
    requires x != y && d in row && Eval(c, None, r) == [row]
    ensures Eval(c, None, Filter(e, Join(Values([d], [[Some(x)], [Some(y)]]), r)))
         == if (row[d] == x || row[d] == y) && Holds(c.rules, e, row) then [row] else []
  {
    JoinTwo(c, d, x, y, r, [row]);
    KeyedTwo(d, x, y, row);
    SelectOneOf(c.rules, e, row);
    FilterIs(c, e, Join(Values([d], [[Some(x)], [Some(y)]]), r));
  }

  lemma KeyedTwo(d: Var, x: Term, y: Term, row: Solution)
    requires x != y && d in row
    ensures JoinOne(map[d := x], [row]) + JoinOne(map[d := y], [row]) == if row[d] == x || row[d] == y then [row] else []
  {
    KeyedRow(d, x, row);
    KeyedRow(d, y, row);
  }

  lemma SelectOneOf(r: Rules, e: Expr, row: Solution)
    ensures Select([row], Keeps(r, e)) == if Holds(r, e, row) then [row] else []
  {
    assert [row][1..] == [];
  }

  lemma FilterNothing(c: Context, d: Var, x: Term, y: Term, e: Expr, r: Pattern)
    requires Eval(c, None, r) == []
    ensures Eval(c, None, Filter(e, Join(Values([d], [[Some(x)], [Some(y)]]), r))) == []
  {
    JoinTwo(c, d, x, y, r, []);
  }

  lemma UnderFilterFilled(d: Var, w: Var, x: Term, y: Term, s: Term, t: Term, e: Expr, endpoint: string)
    ensures Filled(UnderFilter(d, w, x, y, s, t, e, endpoint), [Some(Keys([d], [[x]]))])
         == Filter(e, Join(Values([d], [[Some(x)], [Some(y)]]),
                           Far(endpoint, Join(AsTable(Keys([d], [[x]])), Values([d, w], [[Some(s), Some(t)]])))))
  {
    var ks, here, far := [Some(Keys([d], [[x]]))], Values([d], [[Some(x)], [Some(y)]]), Values([d, w], [[Some(s), Some(t)]]);
    assert Rest(ks, 0) == ks && Filled(here, ks) == here && Clauses(here) == 0;
    FilledFar(endpoint, far, Keys([d], [[x]]));
    assert Filled(Join(here, Far(endpoint, far)), ks) == Join(here, Filled(Far(endpoint, far), ks));
  }

  lemma UnderFilterAsked(d: Var, w: Var, x: Term, y: Term, s: Term, t: Term, e: Expr, endpoint: string, keep: seq<Var>)
    ensures |Candidates(Project(UnderFilter(d, w, x, y, s, t, e, endpoint), keep), {})| == 1
    ensures Candidates(Project(UnderFilter(d, w, x, y, s, t, e, endpoint), keep), {})[0] == {d}
  {
    var p, none: set<Var> := UnderFilter(d, w, x, y, s, t, e, endpoint).inner, {};
    var left, far := Candidates(p.left, none + PatternVariables(p.right)), Candidates(p.right, none + PatternVariables(p.left));
    assert left == [];
    assert |far| == 1 && far[0] == PatternVariables(Values([d, w], [[Some(s), Some(t)]])) * (none + PatternVariables(p.left));
    assert Candidates(p, none) == left + far;
  }

  lemma UnderFilterProbe(c: Context, d: Var, w: Var, x: Term, y: Term, s: Term, t: Term, e: Expr, endpoint: string, keep: seq<Var>)
    requires x != y && Leaves(c.rules, e, d, x, y)
    ensures OneProbe(c, Project(UnderFilter(d, w, x, y, s, t, e, endpoint), keep), d, x)
  {
    var body := Filter(e, Join(Values([d], [[Some(x)], [Some(y)]]), Bgp([])));
    UnderFilterAsked(d, w, x, y, s, t, e, endpoint, keep);
    WithoutFar(endpoint, Values([d, w], [[Some(s), Some(t)]]));
    assert WithoutServices(UnderFilter(d, w, x, y, s, t, e, endpoint).inner) == body.inner;
    LocalRows(c, d, x, y, e);
    OneProjected(map[d := x], d);
    ProjectIs(c, body, [d]);
  }

  lemma LocalRows(c: Context, d: Var, x: Term, y: Term, e: Expr)
    requires Leaves(c.rules, e, d, x, y)
    ensures Eval(c, None, Filter(e, Join(Values([d], [[Some(x)], [Some(y)]]), Bgp([])))) == [map[d := x]]
  {
    var none: Solution := map[];
    assert Eval(c, None, Bgp([])) == [none];
    JoinTwo(c, d, x, y, Bgp([]), [none]);
    AloneRow(map[d := x]);
    AloneRow(map[d := y]);
    FilterIs(c, e, Join(Values([d], [[Some(x)], [Some(y)]]), Bgp([])));
    SelectAppend([map[d := x]], [map[d := y]], Keeps(c.rules, e));
    SelectOneOf(c.rules, e, map[d := x]);
    SelectOneOf(c.rules, e, map[d := y]);
  }

  lemma AloneRow(s: Solution)
    ensures JoinOne(s, [map[]]) == [s]
  {
    var none: Solution := map[];
    MergeEmpty(s);
    FlatMapOne(none, Against(s));
  }

  lemma UnderFilterBoth(c: Context, d: Var, w: Var, x: Term, y: Term, s: Term, t: Term, e: Expr, endpoint: string)
    requires d != w && x != y
    ensures var row := map[d := s, w := t];
            && Eval(c, None, UnderFilter(d, w, x, y, s, t, e, endpoint)) == (if (s == x || s == y) && Holds(c.rules, e, row) then [row] else [])
            && Eval(c, None, Filled(UnderFilter(d, w, x, y, s, t, e, endpoint), [Some(Keys([d], [[x]]))]))
                 == if s == x && Holds(c.rules, e, row) then [row] else []
  {
    var far, row := Values([d, w], [[Some(s), Some(t)]]), map[d := s, w := t];
    var pushed := Far(endpoint, Join(AsTable(Keys([d], [[x]])), far));
    TwoValues(d, w, s, t);
    assert Eval(c.(view := c.remote(endpoint)), None, far) == [row];
    FarEval(c, endpoint, far, [row]);
    FilterJoin(c, d, x, y, e, Far(endpoint, far), row);
    FarPushed(c, endpoint, far, d, x, row);
    UnderFilterFilled(d, w, x, y, s, t, e, endpoint);
    if s == x {
      FilterJoin(c, d, x, y, e, pushed, row);
    } else {
      FilterNothing(c, d, x, y, e, pushed);
    }
  }

  // The probe keeps the filter, and drops the rows it cannot pass yet. The rewritten query has the answers it had exactly
  // when the key cannot be sent, or the service says nothing of the dropped value that would have passed.
  lemma UnderFilterExactly(c: Context, d: Var, w: Var, x: Term, y: Term, s: Term, t: Term, e: Expr, endpoint: string, keep: seq<Var>,
                           evaluate: Pattern -> seq<Solution>, out: Pattern)
    requires d != w && x != y && Leaves(c.rules, e, d, x, y)
    requires Evaluates(c, evaluate) && Rewritten(Project(UnderFilter(d, w, x, y, s, t, e, endpoint), keep), evaluate, out)
    ensures AnswersAlike(c, out, Project(UnderFilter(d, w, x, y, s, t, e, endpoint), keep))
       <==> !Sendable(x) || s != y || !Holds(c.rules, e, map[d := s, w := t])
  {
    var i := UnderFilter(d, w, x, y, s, t, e, endpoint);
    UnderFilterProbe(c, d, w, x, y, s, t, e, endpoint, keep);
    OneKeyAnswers(c, i, keep, d, x, evaluate, out);
    UnderFilterBoth(c, d, w, x, y, s, t, e, endpoint);
    EmptyOrNot(keep, Eval(c, None, Filled(i, [Some(Keys([d], [[x]]))])), Eval(c, None, i));
  }

  // --- One value here, and beside it something around one service --------------------------------------------------

  function Beside(x: Var, a: Term, w: Pattern): Pattern {
    Join(Here(x, a), w)
  }

  // What the walk asks of such a query, and the one row its probe finds.
  ghost predicate BesideOne(c: Context, x: Var, a: Term, w: Pattern) {
    && |Candidates(w, {x})| == 1 && Candidates(w, {x})[0] == {x}
    && |Eval(c, None, WithoutServices(w))| == 1 && x !in Eval(c, None, WithoutServices(w))[0]
  }

  lemma BesideOneIs(c: Context, x: Var, a: Term, w: Pattern, asked: seq<set<Var>>, local: Pattern, row: Solution)
    requires Candidates(w, {x}) == asked && asked == [{x}] && WithoutServices(w) == local
    requires Eval(c, None, local) == [row] && x !in row
    ensures BesideOne(c, x, a, w)
  {
  }

  lemma BesideRow(c: Context, x: Var, a: Term, local: Pattern, row: Solution)
    requires Eval(c, None, local) == [row] && x !in row
    ensures Eval(c, None, Project(Join(Here(x, a), local), [x])) == [map[x := a]]
  {
    JoinHere(c, x, a, local);
    JoinedRow(x, a, row);
    OneProjected(map[x := a] + row, x);
    ProjectIs(c, Join(Here(x, a), local), [x]);
  }

  lemma BesideProbed(c: Context, x: Var, a: Term, w: Pattern, keep: seq<Var>)
    requires BesideOne(c, x, a, w)
    ensures OneProbe(c, Project(Beside(x, a, w), keep), x, a)
  {
    var local := WithoutServices(w);
    var rows := Eval(c, None, local);
    BesideCandidates(x, a, w);
    assert rows == [rows[0]];
    BesideRow(c, x, a, local, rows[0]);
    assert WithoutServices(Beside(x, a, w)) == Join(Here(x, a), local);
  }

  lemma BesideCandidates(x: Var, a: Term, w: Pattern)
    ensures Candidates(Beside(x, a, w), {}) == Candidates(w, {x})
  {
    var none: set<Var> := {};
    assert PatternVariables(Here(x, a)) == {x};
    assert none + PatternVariables(Here(x, a)) == {x};
    assert Candidates(Here(x, a), none + PatternVariables(w)) == [];
  }

  // The rewritten query has the answers it had exactly when nothing was sent, or what is around the service joins the
  // value alike with the key and without.
  lemma BesideAnswers(c: Context, x: Var, a: Term, w: Pattern, keep: seq<Var>, evaluate: Pattern -> seq<Solution>, out: Pattern)
    requires BesideOne(c, x, a, w) && Evaluates(c, evaluate) && Rewritten(Project(Beside(x, a, w), keep), evaluate, out)
    ensures var pushed := Filled(w, [Some(Keys([x], [[a]]))]);
            AnswersAlike(c, out, Project(Beside(x, a, w), keep))
            <==> (!Sendable(a) || Same(FlatMap(JoinOne(map[x := a], Eval(c, None, pushed)), Projected(keep)),
                                       FlatMap(JoinOne(map[x := a], Eval(c, None, w)), Projected(keep))))
  {
    var ks := [Some(Keys([x], [[a]]))];
    BesideProbed(c, x, a, w, keep);
    OneKeyAnswers(c, Beside(x, a, w), keep, x, a, evaluate, out);
    FilledHere(x, a, ks);
    assert Filled(Beside(x, a, w), ks) == Beside(x, a, Filled(w, ks));
    JoinHere(c, x, a, w);
    JoinHere(c, x, a, Filled(w, ks));
  }

  // --- Under a subquery that hides the variable ----------------------------------------------------------------------

  function UnderSubquery(x: Var, y: Var, s: Term, b: Term, endpoint: string): Pattern {
    Project(Far(endpoint, Values([x, y], [[Some(s), Some(b)]])), [y])
  }

  lemma NothingEval(c: Context)
    ensures Eval(c, None, Bgp([])) == [map[]]
  {
  }

  lemma UnderSubqueryOne(c: Context, x: Var, y: Var, a: Term, s: Term, b: Term, endpoint: string)
    ensures BesideOne(c, x, a, UnderSubquery(x, y, s, b, endpoint))
  {
    var far := Values([x, y], [[Some(s), Some(b)]]);
    var none: Solution := map[];
    WithoutFar(endpoint, far);
    NothingEval(c);
    ProjectIs(c, Bgp([]), [y]);
    FlatMapOne(none, Projected([y]));
    assert Restrict(none, set v | v in [y]) == none;
    assert PatternVariables(far) * {x} == {x};
  }

  lemma UnderSubqueryBoth(c: Context, x: Var, y: Var, a: Term, s: Term, b: Term, endpoint: string)
    requires x != y
    ensures Eval(c, None, UnderSubquery(x, y, s, b, endpoint)) == [map[y := b]]
    ensures Eval(c, None, Filled(UnderSubquery(x, y, s, b, endpoint), [Some(Keys([x], [[a]]))])) == if s == a then [map[y := b]] else []
  {
    var far, row := Values([x, y], [[Some(s), Some(b)]]), map[x := s, y := b];
    TwoValues(x, y, s, b);
    assert Eval(c.(view := c.remote(endpoint)), None, far) == [row];
    FarEval(c, endpoint, far, [row]);
    FarPushed(c, endpoint, far, x, a, row);
    FilledFar(endpoint, far, Keys([x], [[a]]));
    OneProjected(row, y);
    ProjectIs(c, Far(endpoint, far), [y]);
    ProjectIs(c, Far(endpoint, Join(AsTable(Keys([x], [[a]])), far)), [y]);
  }

  // `VALUES ?x {a} { SELECT ?y { SERVICE .. { VALUES (?x ?y) {(s b)} } } }`: the key is for the ?x outside, and the
  // subquery's own ?x is another variable. The same answers exactly when nothing was sent or the two happen to agree.
  lemma UnderSubqueryExactly(c: Context, x: Var, y: Var, a: Term, s: Term, b: Term, endpoint: string, keep: seq<Var>,
                             evaluate: Pattern -> seq<Solution>, out: Pattern)
    requires x != y && Evaluates(c, evaluate)
    requires Rewritten(Project(Beside(x, a, UnderSubquery(x, y, s, b, endpoint)), keep), evaluate, out)
    ensures AnswersAlike(c, out, Project(Beside(x, a, UnderSubquery(x, y, s, b, endpoint)), keep)) <==> !Sendable(a) || s == a
  {
    UnderSubqueryOne(c, x, y, a, s, b, endpoint);
    BesideAnswers(c, x, a, UnderSubquery(x, y, s, b, endpoint), keep, evaluate, out);
    UnderSubqueryBoth(c, x, y, a, s, b, endpoint);
    JoinedRow(x, a, map[y := b]);
    EmptyOrNot(keep, if s == a then [map[x := a] + map[y := b]] else [], [map[x := a] + map[y := b]]);
  }

  // --- Under an aggregate ----------------------------------------------------------------------------------------------

  function UnderGroup(x: Var, s: Term, aggregate: multiset<Solution> -> Solution, endpoint: string): Pattern {
    Group(Far(endpoint, Here(x, s)), [], aggregate)
  }

  // What the aggregate makes of a bag leaves the variable alone: it names the columns it makes.
  ghost predicate Unnamed(aggregate: multiset<Solution> -> Solution, x: Var) {
    forall m :: x !in aggregate(m)
  }

  lemma UnderGroupOne(c: Context, x: Var, a: Term, s: Term, aggregate: multiset<Solution> -> Solution, endpoint: string)
    requires Unnamed(aggregate, x)
    ensures BesideOne(c, x, a, UnderGroup(x, s, aggregate, endpoint))
  {
    WithoutFar(endpoint, Here(x, s));
    GroupIs(c, Bgp([]), aggregate);
    assert PatternVariables(Here(x, s)) * {x} == {x};
  }

  lemma UnderGroupKept(c: Context, x: Var, s: Term, aggregate: multiset<Solution> -> Solution, endpoint: string)
    ensures Eval(c, None, UnderGroup(x, s, aggregate, endpoint)) == [aggregate(multiset{map[x := s]})]
  {
    var row: Solution := map[x := s];
    HereEval(c.(view := c.remote(endpoint)), None, x, s);
    FarEval(c, endpoint, Here(x, s), [row]);
    GroupIs(c, Far(endpoint, Here(x, s)), aggregate);
    assert multiset([row]) == multiset{row};
  }

  lemma GroupFilled(x: Var, a: Term, s: Term, aggregate: multiset<Solution> -> Solution, endpoint: string)
    ensures Filled(UnderGroup(x, s, aggregate, endpoint), [Some(Keys([x], [[a]]))])
         == Group(Far(endpoint, Join(AsTable(Keys([x], [[a]])), Here(x, s))), [], aggregate)
  {
    FilledFar(endpoint, Here(x, s), Keys([x], [[a]]));
  }

  lemma UnderGroupPushed(c: Context, x: Var, a: Term, s: Term, aggregate: multiset<Solution> -> Solution, endpoint: string)
    ensures Eval(c, None, Filled(UnderGroup(x, s, aggregate, endpoint), [Some(Keys([x], [[a]]))]))
         == [aggregate(if s == a then multiset{map[x := s]} else multiset{})]
  {
    var row: Solution, pushed := map[x := s], Far(endpoint, Join(AsTable(Keys([x], [[a]])), Here(x, s)));
    HereEval(c.(view := c.remote(endpoint)), None, x, s);
    FarPushed(c, endpoint, Here(x, s), x, a, row);
    GroupFilled(x, a, s, aggregate, endpoint);
    GroupIs(c, pushed, aggregate);
    assert multiset([row]) == multiset{row};
  }

  // The column put in front of both rows tells nothing of them.
  lemma RestrictedAlike(key: Solution, g: Solution, h: Solution, vs: set<Var>)
    requires key.Keys !! g.Keys && key.Keys !! h.Keys
    ensures Restrict(key + g, vs) == Restrict(key + h, vs) <==> Restrict(g, vs) == Restrict(h, vs)
  {
    var p, q := Restrict(key + g, vs), Restrict(key + h, vs);
    if p == q {
      forall v
        ensures v in Restrict(g, vs) <==> v in Restrict(h, vs)
        ensures v in Restrict(g, vs) && v in Restrict(h, vs) ==> g[v] == h[v]
      {
        assert v in p <==> v in q;
        assert v in p && v in q ==> p[v] == q[v];
      }
    }
    if Restrict(g, vs) == Restrict(h, vs) {
      forall v
        ensures v in p <==> v in q
        ensures v in p && v in q ==> p[v] == q[v]
      {
        assert v in Restrict(g, vs) <==> v in Restrict(h, vs);
      }
    }
  }

  lemma SameOne(p: Solution, q: Solution)
    ensures Same([p], [q]) <==> p == q
  {
    if Same([p], [q]) {
      SameMembers([p], [q], p);
    }
  }

  lemma OneKept(x: Var, a: Term, keep: seq<Var>, g: Solution, h: Solution)
    requires x !in g && x !in h
    ensures Same(FlatMap(JoinOne(map[x := a], [g]), Projected(keep)), FlatMap(JoinOne(map[x := a], [h]), Projected(keep)))
       <==> Restrict(g, set v | v in keep) == Restrict(h, set v | v in keep)
  {
    var key: Solution := map[x := a];
    JoinedRow(x, a, g);
    JoinedRow(x, a, h);
    FlatMapOne(key + g, Projected(keep));
    FlatMapOne(key + h, Projected(keep));
    RestrictedAlike(key, g, h, set v | v in keep);
    SameOne(Restrict(key + g, set v | v in keep), Restrict(key + h, set v | v in keep));
  }

  lemma KeptWhen(x: Var, a: Term, keep: seq<Var>, stays: bool, none: Solution, full: Solution, left: Solution)
    requires x !in none && x !in full && left == if stays then full else none
    ensures Same(FlatMap(JoinOne(map[x := a], [left]), Projected(keep)), FlatMap(JoinOne(map[x := a], [full]), Projected(keep)))
       <==> stays || Restrict(none, set v | v in keep) == Restrict(full, set v | v in keep)
  {
    OneKept(x, a, keep, left, full);
  }

  // `VALUES ?x {a} { SELECT (f(..) AS ..) { SERVICE .. { VALUES ?x {s} } } }`: the aggregate is over what the service
  // says, and the key takes rows from it. The same answers exactly when nothing was sent, the row stays, or the aggregate
  // of the one row and of none are the same in the columns selected.
  lemma UnderGroupExactly(c: Context, x: Var, a: Term, s: Term, aggregate: multiset<Solution> -> Solution, endpoint: string, keep: seq<Var>,
                          evaluate: Pattern -> seq<Solution>, out: Pattern)
    requires Unnamed(aggregate, x) && Evaluates(c, evaluate)
    requires Rewritten(Project(Beside(x, a, UnderGroup(x, s, aggregate, endpoint)), keep), evaluate, out)
    ensures AnswersAlike(c, out, Project(Beside(x, a, UnderGroup(x, s, aggregate, endpoint)), keep))
       <==> || !Sendable(a) || s == a
            || Restrict(aggregate(multiset{}), set v | v in keep) == Restrict(aggregate(multiset{map[x := s]}), set v | v in keep)
  {
    UnderGroupOne(c, x, a, s, aggregate, endpoint);
    BesideAnswers(c, x, a, UnderGroup(x, s, aggregate, endpoint), keep, evaluate, out);
    UnderGroupKept(c, x, s, aggregate, endpoint);
    UnderGroupPushed(c, x, a, s, aggregate, endpoint);
    var left := aggregate(if s == a then multiset{map[x := s]} else multiset{});
    KeptWhen(x, a, keep, s == a, aggregate(multiset{}), aggregate(multiset{map[x := s]}), left);
  }

  // --- Under DISTINCT -----------------------------------------------------------------------------------------------------

  // A service's table of two rows, one of which leaves the variable unbound.
  function Loose(x: Var, s: Term): Pattern {
    Values([x], [[Some(s)], [None]])
  }

  function UnderDistinct(x: Var, s: Term, endpoint: string): Pattern {
    Distinct(Project(Far(endpoint, Loose(x, s)), [x]))
  }

  lemma LooseEval(c: Context, x: Var, s: Term)
    ensures Eval(c, None, Loose(x, s)) == [map[x := s], map[]]
  {
    var rows: seq<seq<Option<Term>>> := [[Some(s)], [None]];
    var none: Solution := map[];
    OneValue(x, s);
    assert rows == [rows[0]] + [rows[1]];
    FlatMapAppend([rows[0]], [rows[1]], RowBag(map[], [x]));
    FlatMapOne(rows[1], RowBag(map[], [x]));
    assert [x][1..] == [] && rows[1][1..] == [];
    assert RowFrom(Some(none), [], []) == Some(none);
    assert RowFrom(Some(none), [x], rows[1]) == RowFrom(Some(none), [x][1..], rows[1][1..]);
  }

  lemma LoosePushed(c: Context, x: Var, a: Term, s: Term, endpoint: string)
    ensures Eval(c, None, Far(endpoint, Join(AsTable(Keys([x], [[a]])), Loose(x, s))))
         == if s == a then [map[x := a], map[x := a]] else [map[x := a]]
  {
    var key: Solution, row: Solution, none: Solution := map[x := a], map[x := s], map[];
    PushedEval(c, None, endpoint, Loose(x, s), Keys([x], [[a]]));
    assert SomeEach([a]) == [Some(a)] && [[a]][1..] == [] && Somes([[a]]) == [[Some(a)]];
    OneValue(x, a);
    LooseEval(c.(view := c.remote(endpoint)), x, s);
    JoinSingle(key, [row, none]);
    assert [row, none] == [row] + [none];
    JoinOneAppend(key, [row], [none]);
    FlatMapOne(row, Against(key));
    FlatMapOne(none, Against(key));
    MergeEmpty(key);
    if s == a {
      assert key + row == key;
    } else {
      assert key[x] != row[x];
    }
  }

  lemma DedupTwo(p: Solution, q: Solution)
    ensures Dedup([p, q]) == if p == q then [p] else [p, q]
    ensures Dedup([p]) == [p]
  {
    assert [p, q][..1] == [p] && [p][..0] == [];
    assert Dedup([p][..0]) == [];
  }

  lemma KeepTwo(x: Var, p: Solution, q: Solution)
    requires p.Keys <= {x} && q.Keys <= {x}
    ensures FlatMap([p, q], Projected([x])) == [p, q] && FlatMap([p], Projected([x])) == [p]
  {
    FlatMapOne(p, Projected([x]));
    FlatMapOne(q, Projected([x]));
    assert [p, q] == [p] + [q];
    FlatMapAppend([p], [q], Projected([x]));
    assert Restrict(p, set v | v in [x]) == p && Restrict(q, set v | v in [x]) == q;
  }

  lemma DistinctEval(c: Context, i: Pattern, keep: seq<Var>)
    ensures Eval(c, None, Distinct(Project(i, keep))) == Dedup(FlatMap(Eval(c, None, i), Projected(keep)))
  {
    ProjectIs(c, i, keep);
  }

  lemma DistinctShapes(x: Var, a: Term, s: Term, endpoint: string)
    ensures WithoutServices(UnderDistinct(x, s, endpoint)) == Distinct(Project(Bgp([]), [x]))
    ensures Candidates(UnderDistinct(x, s, endpoint), {x}) == [{x}]
    ensures Filled(UnderDistinct(x, s, endpoint), [Some(Keys([x], [[a]]))])
         == Distinct(Project(Far(endpoint, Join(AsTable(Keys([x], [[a]])), Loose(x, s))), [x]))
  {
    var far, ks := Far(endpoint, Loose(x, s)), [Some(Keys([x], [[a]]))];
    WithoutFar(endpoint, Loose(x, s));
    FilledFar(endpoint, Loose(x, s), Keys([x], [[a]]));
    assert WithoutServices(Project(far, [x])) == Project(WithoutServices(far), [x]);
    assert PatternVariables(Loose(x, s)) * {x} == {x};
    assert Candidates(Project(far, [x]), {x}) == Candidates(far, {x});
    assert Filled(Project(far, [x]), ks) == Project(Filled(far, ks), [x]);
  }

  lemma NothingDistinct(c: Context, x: Var)
    ensures Eval(c, None, Distinct(Project(Bgp([]), [x]))) == [map[]]
  {
    var none: Solution := map[];
    NothingEval(c);
    DistinctEval(c, Bgp([]), [x]);
    KeepTwo(x, none, none);
    DedupTwo(none, none);
  }

  lemma UnderDistinctOne(c: Context, x: Var, a: Term, s: Term, endpoint: string)
    ensures BesideOne(c, x, a, UnderDistinct(x, s, endpoint))
  {
    DistinctShapes(x, a, s, endpoint);
    NothingDistinct(c, x);
    BesideOneIs(c, x, a, UnderDistinct(x, s, endpoint), [{x}], Distinct(Project(Bgp([]), [x])), map[]);
  }

  lemma DistinctPair(c: Context, i: Pattern, x: Var, p: Solution, q: Solution)
    requires Eval(c, None, i) == [p, q] && p.Keys <= {x} && q.Keys <= {x}
    ensures Eval(c, None, Distinct(Project(i, [x]))) == if p == q then [p] else [p, q]
  {
    DistinctEval(c, i, [x]);
    KeepTwo(x, p, q);
    DedupTwo(p, q);
  }

  lemma DistinctSingle(c: Context, i: Pattern, x: Var, p: Solution)
    requires Eval(c, None, i) == [p] && p.Keys <= {x}
    ensures Eval(c, None, Distinct(Project(i, [x]))) == [p]
  {
    DistinctEval(c, i, [x]);
    KeepTwo(x, p, p);
    DedupTwo(p, p);
  }

  lemma UnderDistinctBoth(c: Context, x: Var, a: Term, s: Term, endpoint: string)
    ensures Eval(c, None, UnderDistinct(x, s, endpoint)) == [map[x := s], map[]]
    ensures Eval(c, None, Filled(UnderDistinct(x, s, endpoint), [Some(Keys([x], [[a]]))])) == [map[x := a]]
  {
    var pushed := Far(endpoint, Join(AsTable(Keys([x], [[a]])), Loose(x, s)));
    DistinctShapes(x, a, s, endpoint);
    LooseEval(c.(view := c.remote(endpoint)), x, s);
    FarEval(c, endpoint, Loose(x, s), [map[x := s], map[]]);
    DistinctPair(c, Far(endpoint, Loose(x, s)), x, map[x := s], map[]);
    LoosePushed(c, x, a, s, endpoint);
    if s == a {
      DistinctPair(c, pushed, x, map[x := a], map[x := a]);
    } else {
      DistinctSingle(c, pushed, x, map[x := a]);
    }
  }

  lemma LooseJoined(x: Var, a: Term, s: Term)
    ensures JoinOne(map[x := a], [map[x := s], map[]]) == if s == a then [map[x := a], map[x := a]] else [map[x := a]]
    ensures JoinOne(map[x := a], [map[x := a]]) == [map[x := a]]
  {
    var key: Solution, row: Solution, none: Solution := map[x := a], map[x := s], map[];
    assert [row, none] == [row] + [none];
    JoinOneAppend(key, [row], [none]);
    FlatMapOne(row, Against(key));
    FlatMapOne(none, Against(key));
    FlatMapOne(key, Against(key));
    MergeEmpty(key);
    assert key + key == key;
    if s == a {
      assert key + row == key;
    } else {
      assert key[x] != row[x];
    }
  }

  // `VALUES ?x {a} { SELECT DISTINCT ?x { SERVICE .. { VALUES ?x {s UNDEF} } } }`: the key fills in what the service left
  // unbound, and rows that were distinct are no longer. The same answers exactly when nothing was sent, or the bound row
  // is not the key's.
  lemma UnderDistinctExactly(c: Context, x: Var, a: Term, s: Term, endpoint: string, keep: seq<Var>,
                             evaluate: Pattern -> seq<Solution>, out: Pattern)
    requires Evaluates(c, evaluate) && Rewritten(Project(Beside(x, a, UnderDistinct(x, s, endpoint)), keep), evaluate, out)
    ensures AnswersAlike(c, out, Project(Beside(x, a, UnderDistinct(x, s, endpoint)), keep)) <==> !Sendable(a) || s != a
  {
    UnderDistinctOne(c, x, a, s, endpoint);
    BesideAnswers(c, x, a, UnderDistinct(x, s, endpoint), keep, evaluate, out);
    UnderDistinctBoth(c, x, a, s, endpoint);
    LooseJoined(x, a, s);
    EmptyOrNot(keep, [map[x := a]], if s == a then [map[x := a], map[x := a]] else [map[x := a]]);
  }

  // --- Under LIMIT ---------------------------------------------------------------------------------------------------------

  // The first of two rows, in the order the service gives them.
  function UnderSlice(x: Var, s: Term, a: Term, endpoint: string): Pattern {
    Slice(Far(endpoint, Values([x], [[Some(s)], [Some(a)]])), 0, Some(1))
  }

  lemma TwoPushed(c: Context, x: Var, s: Term, a: Term, endpoint: string)
    ensures Eval(c, None, Far(endpoint, Join(AsTable(Keys([x], [[a]])), Values([x], [[Some(s)], [Some(a)]]))))
         == if s == a then [map[x := a], map[x := a]] else [map[x := a]]
  {
    var key: Solution, row: Solution := map[x := a], map[x := s];
    PushedEval(c, None, endpoint, Values([x], [[Some(s)], [Some(a)]]), Keys([x], [[a]]));
    assert SomeEach([a]) == [Some(a)] && [[a]][1..] == [] && Somes([[a]]) == [[Some(a)]];
    OneValue(x, a);
    TwoRows(x, s, a);
    JoinSingle(key, [row, key]);
    assert [row, key] == [row] + [key];
    JoinOneAppend(key, [row], [key]);
    FlatMapOne(row, Against(key));
    FlatMapOne(key, Against(key));
    assert key + key == key;
    if s == a {
      assert key + row == key;
    } else {
      assert key[x] != row[x];
    }
  }

  lemma UnderSliceOne(c: Context, x: Var, s: Term, a: Term, endpoint: string)
    ensures BesideOne(c, x, a, UnderSlice(x, s, a, endpoint))
  {
    var far := Values([x], [[Some(s)], [Some(a)]]);
    WithoutFar(endpoint, far);
    NothingEval(c);
    SliceIs(c, Bgp([]));
    assert PatternVariables(far) * {x} == {x};
  }

  lemma SliceFilled(x: Var, s: Term, a: Term, endpoint: string)
    ensures Filled(UnderSlice(x, s, a, endpoint), [Some(Keys([x], [[a]]))])
         == Slice(Far(endpoint, Join(AsTable(Keys([x], [[a]])), Values([x], [[Some(s)], [Some(a)]]))), 0, Some(1))
  {
    FilledFar(endpoint, Values([x], [[Some(s)], [Some(a)]]), Keys([x], [[a]]));
  }

  lemma FirstOf(c: Context, i: Pattern, rows: seq<Solution>)
    requires Eval(c, None, i) == rows && rows != []
    ensures Eval(c, None, Slice(i, 0, Some(1))) == [rows[0]]
  {
    SliceIs(c, i);
  }

  lemma UnderSliceBoth(c: Context, x: Var, s: Term, a: Term, endpoint: string)
    ensures Eval(c, None, UnderSlice(x, s, a, endpoint)) == [map[x := s]]
    ensures Eval(c, None, Filled(UnderSlice(x, s, a, endpoint), [Some(Keys([x], [[a]]))])) == [map[x := a]]
  {
    var far := Values([x], [[Some(s)], [Some(a)]]);
    var pushed := Far(endpoint, Join(AsTable(Keys([x], [[a]])), far));
    TwoValuesEval(c.(view := c.remote(endpoint)), x, s, a);
    FarEval(c, endpoint, far, [map[x := s], map[x := a]]);
    FirstOf(c, Far(endpoint, far), [map[x := s], map[x := a]]);
    TwoPushed(c, x, s, a, endpoint);
    SliceFilled(x, s, a, endpoint);
    FirstOf(c, pushed, if s == a then [map[x := a], map[x := a]] else [map[x := a]]);
  }

  lemma TwoValuesEval(c: Context, x: Var, s: Term, a: Term)
    ensures Eval(c, None, Values([x], [[Some(s)], [Some(a)]])) == [map[x := s], map[x := a]]
  {
    TwoRows(x, s, a);
  }

  // `VALUES ?x {a} { SELECT * { SERVICE .. { VALUES ?x {s a} } } LIMIT 1 }`: with the key the limit takes another row. The
  // same answers exactly when nothing was sent or the first row is the key's.
  lemma UnderSliceExactly(c: Context, x: Var, s: Term, a: Term, endpoint: string, keep: seq<Var>,
                          evaluate: Pattern -> seq<Solution>, out: Pattern)
    requires Evaluates(c, evaluate) && Rewritten(Project(Beside(x, a, UnderSlice(x, s, a, endpoint)), keep), evaluate, out)
    ensures AnswersAlike(c, out, Project(Beside(x, a, UnderSlice(x, s, a, endpoint)), keep)) <==> !Sendable(a) || s == a
  {
    UnderSliceOne(c, x, s, a, endpoint);
    BesideAnswers(c, x, a, UnderSlice(x, s, a, endpoint), keep, evaluate, out);
    UnderSliceBoth(c, x, s, a, endpoint);
    KeyedRow(x, a, map[x := s]);
    KeyedRow(x, a, map[x := a]);
    EmptyOrNot(keep, [map[x := a]], if s == a then [map[x := a]] else []);
  }

  // --- Under a BIND the local part does not settle ------------------------------------------------------------------------

  // Two rows of `?x` and `?v` here, an `?x` there, and `?v` made of it.
  function Pairs(x: Var, v: Var, a: Term, m: Term, b: Term, n: Term): Pattern {
    Values([x, v], [[Some(a), Some(m)], [Some(b), Some(n)]])
  }

  function UnderBind(x: Var, v: Var, a: Term, m: Term, b: Term, n: Term, s: Term, e: Expr, endpoint: string): Pattern {
    Join(Pairs(x, v, a, m, b, n), Extend(Far(endpoint, Here(x, s)), v, e))
  }

  lemma PairsEval(c: Context, x: Var, v: Var, a: Term, m: Term, b: Term, n: Term)
    requires x != v
    ensures Eval(c, None, Pairs(x, v, a, m, b, n)) == [map[x := a, v := m], map[x := b, v := n]]
  {
    var rows := [[Some(a), Some(m)], [Some(b), Some(n)]];
    TwoValues(x, v, a, m);
    TwoValues(x, v, b, n);
    assert rows == [rows[0]] + [rows[1]];
    FlatMapAppend([rows[0]], [rows[1]], RowBag(map[], [x, v]));
  }

  lemma PairsJoin(c: Context, x: Var, v: Var, a: Term, m: Term, b: Term, n: Term, r: Pattern, row: Solution)
    requires x != v && Eval(c, None, r) == [row]
    ensures Eval(c, None, Join(Pairs(x, v, a, m, b, n), r)) == Merge(map[x := a, v := m], row) + Merge(map[x := b, v := n], row)
  {
    PairsEval(c, x, v, a, m, b, n);
    var p: Solution, q: Solution := map[x := a, v := m], map[x := b, v := n];
    assert [p, q] == [p] + [q];
    JoinAppend([p], [q], [row]);
    JoinSingle(p, [row]);
    JoinSingle(q, [row]);
    FlatMapOne(row, Against(p));
    FlatMapOne(row, Against(q));
  }

  lemma PairsNothing(c: Context, x: Var, v: Var, a: Term, m: Term, b: Term, n: Term, r: Pattern)
    requires x != v && Eval(c, None, r) == []
    ensures Eval(c, None, Join(Pairs(x, v, a, m, b, n), r)) == []
  {
    PairsEval(c, x, v, a, m, b, n);
    var p: Solution, q: Solution := map[x := a, v := m], map[x := b, v := n];
    assert [p, q] == [p] + [q];
    JoinAppend([p], [q], []);
    JoinSingle(p, []);
    JoinSingle(q, []);
  }

  // The row the service and the BIND make together.
  ghost function Made(c: Context, x: Var, v: Var, s: Term, e: Expr): Solution {
    Extended(c.rules, v, e)(map[x := s])[0]
  }

  lemma UnderBindAsked(x: Var, v: Var, a: Term, m: Term, b: Term, n: Term, s: Term, e: Expr, endpoint: string, keep: seq<Var>)
    ensures |Candidates(Project(UnderBind(x, v, a, m, b, n, s, e, endpoint), keep), {})| == 1
    ensures Candidates(Project(UnderBind(x, v, a, m, b, n, s, e, endpoint), keep), {})[0] == {x}
  {
    var p, none: set<Var> := UnderBind(x, v, a, m, b, n, s, e, endpoint), {};
    var bound := none + PatternVariables(p.left);
    var left, far := Candidates(p.left, none + PatternVariables(p.right)), Candidates(p.right.inner, bound);
    assert left == [];
    assert |far| == 1 && far[0] == PatternVariables(Here(x, s)) * bound;
    assert Candidates(p.right, bound) == far;
    assert Candidates(p, none) == left + Candidates(p.right, bound);
  }

  // What the expression comes to before the service is heard.
  ghost predicate MakesLocally(r: Rules, e: Expr, m: Term) {
    AsTerm(Evaluate(r, e, map[])) == Some(m)
  }

  lemma LocallyMade(c: Context, v: Var, m: Term, e: Expr)
    requires MakesLocally(c.rules, e, m)
    ensures Eval(c, None, Extend(Bgp([]), v, e)) == [map[v := m]]
  {
    var none: Solution := map[];
    NothingEval(c);
    ExtendIs(c, Bgp([]), v, e);
    FlatMapOne(none, Extended(c.rules, v, e));
    assert none[v := m] == map[v := m];
  }

  lemma PairsMade(c: Context, x: Var, v: Var, a: Term, m: Term, b: Term, n: Term, e: Expr)
    requires x != v && m != n && MakesLocally(c.rules, e, m)
    ensures Eval(c, None, Join(Pairs(x, v, a, m, b, n), Extend(Bgp([]), v, e))) == [map[x := a, v := m]]
  {
    var p: Solution, q: Solution, row: Solution := map[x := a, v := m], map[x := b, v := n], map[v := m];
    LocallyMade(c, v, m, e);
    PairsJoin(c, x, v, a, m, b, n, Extend(Bgp([]), v, e), row);
    assert Compatible(p, row) && p + row == p;
    assert q[v] != row[v];
  }

  lemma UnderBindProbe(c: Context, x: Var, v: Var, a: Term, m: Term, b: Term, n: Term, s: Term, e: Expr, endpoint: string, keep: seq<Var>)
    requires x != v && m != n && MakesLocally(c.rules, e, m)
    ensures OneProbe(c, Project(UnderBind(x, v, a, m, b, n, s, e, endpoint), keep), x, a)
  {
    var local := Extend(Bgp([]), v, e);
    UnderBindAsked(x, v, a, m, b, n, s, e, endpoint, keep);
    WithoutFar(endpoint, Here(x, s));
    assert WithoutServices(Extend(Far(endpoint, Here(x, s)), v, e)) == local;
    PairsMade(c, x, v, a, m, b, n, e);
    OneProjected(map[x := a, v := m], x);
    ProjectIs(c, Join(Pairs(x, v, a, m, b, n), local), [x]);
  }

  lemma MadeEval(c: Context, x: Var, v: Var, s: Term, e: Expr, i: Pattern)
    requires Eval(c, None, i) == [map[x := s]]
    ensures Eval(c, None, Extend(i, v, e)) == [Made(c, x, v, s, e)]
  {
    ExtendIs(c, i, v, e);
    FlatMapOne(map[x := s], Extended(c.rules, v, e));
  }

  lemma UnderBindFilled(x: Var, v: Var, a: Term, m: Term, b: Term, n: Term, s: Term, e: Expr, endpoint: string)
    ensures Filled(UnderBind(x, v, a, m, b, n, s, e, endpoint), [Some(Keys([x], [[a]]))])
         == Join(Pairs(x, v, a, m, b, n), Extend(Far(endpoint, Join(AsTable(Keys([x], [[a]])), Here(x, s))), v, e))
  {
    var ks, here := [Some(Keys([x], [[a]]))], Pairs(x, v, a, m, b, n);
    assert Rest(ks, 0) == ks && Filled(here, ks) == here && Clauses(here) == 0;
    FilledFar(endpoint, Here(x, s), Keys([x], [[a]]));
    assert Filled(Extend(Far(endpoint, Here(x, s)), v, e), ks) == Extend(Filled(Far(endpoint, Here(x, s)), ks), v, e);
  }

  lemma UnderBindBoth(c: Context, x: Var, v: Var, a: Term, m: Term, b: Term, n: Term, s: Term, e: Expr, endpoint: string)
    requires x != v && a != b
    ensures var p: Solution, q: Solution, made := map[x := a, v := m], map[x := b, v := n], Made(c, x, v, s, e);
            && Eval(c, None, UnderBind(x, v, a, m, b, n, s, e, endpoint)) == Merge(p, made) + Merge(q, made)
            && Eval(c, None, Filled(UnderBind(x, v, a, m, b, n, s, e, endpoint), [Some(Keys([x], [[a]]))]))
                 == if s == a then Merge(p, made) + Merge(q, made) else []
  {
    var row: Solution := map[x := s];
    var far, pushed := Far(endpoint, Here(x, s)), Far(endpoint, Join(AsTable(Keys([x], [[a]])), Here(x, s)));
    HereEval(c.(view := c.remote(endpoint)), None, x, s);
    FarEval(c, endpoint, Here(x, s), [row]);
    FarPushed(c, endpoint, Here(x, s), x, a, row);
    UnderBindFilled(x, v, a, m, b, n, s, e, endpoint);
    MadeEval(c, x, v, s, e, far);
    PairsJoin(c, x, v, a, m, b, n, Extend(far, v, e), Made(c, x, v, s, e));
    if s == a {
      MadeEval(c, x, v, s, e, pushed);
      PairsJoin(c, x, v, a, m, b, n, Extend(pushed, v, e), Made(c, x, v, s, e));
    } else {
      ExtendIs(c, pushed, v, e);
      PairsNothing(c, x, v, a, m, b, n, Extend(pushed, v, e));
    }
  }

  // The second pair is what the service's row goes with.
  ghost predicate Fits(c: Context, x: Var, v: Var, b: Term, n: Term, s: Term, e: Expr) {
    var made := AsTerm(Evaluate(c.rules, e, map[x := s]));
    s == b && (made.None? || made.value == n)
  }

  lemma MadeMeets(c: Context, x: Var, v: Var, b: Term, n: Term, s: Term, e: Expr)
    requires x != v
    ensures Compatible(map[x := b, v := n], Made(c, x, v, s, e)) <==> Fits(c, x, v, b, n, s, e)
  {
    var row: Solution, p: Solution, made := map[x := s], map[x := b, v := n], Made(c, x, v, s, e);
    assert made[x] == s;
    if Compatible(p, made) {
      assert p[x] == made[x];
      if v in made {
        assert p[v] == made[v];
      }
    }
  }

  // The probe's own BIND has a value, and drops the rows that value does not suit. The same answers exactly when nothing
  // was sent, or the row the service and the BIND make does not go with the pair dropped.
  lemma UnderBindExactly(c: Context, x: Var, v: Var, a: Term, m: Term, b: Term, n: Term, s: Term, e: Expr, endpoint: string, keep: seq<Var>,
                         evaluate: Pattern -> seq<Solution>, out: Pattern)
    requires x != v && a != b && m != n && MakesLocally(c.rules, e, m) && Evaluates(c, evaluate)
    requires Rewritten(Project(UnderBind(x, v, a, m, b, n, s, e, endpoint), keep), evaluate, out)
    ensures AnswersAlike(c, out, Project(UnderBind(x, v, a, m, b, n, s, e, endpoint), keep))
       <==> !Sendable(a) || !Fits(c, x, v, b, n, s, e)
  {
    var i := UnderBind(x, v, a, m, b, n, s, e, endpoint);
    var p: Solution, q: Solution, made := map[x := a, v := m], map[x := b, v := n], Made(c, x, v, s, e);
    UnderBindProbe(c, x, v, a, m, b, n, s, e, endpoint, keep);
    OneKeyAnswers(c, i, keep, x, a, evaluate, out);
    UnderBindBoth(c, x, v, a, m, b, n, s, e, endpoint);
    MadeMeets(c, x, v, a, m, s, e);
    MadeMeets(c, x, v, b, n, s, e);
    EmptyOrNot(keep, Eval(c, None, Filled(i, [Some(Keys([x], [[a]]))])), Eval(c, None, i));
  }
}
