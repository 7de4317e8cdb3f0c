/**
 What is sent with a SERVICE clause (crates/holos-engine/src/boundjoin.rs, `keys_from_rows`), without the names the code
 gives its parts: which columns, which values, and how many.
 */
module Sending {
  import opened Options
  import opened Bags
  import opened Rdf
  import opened Solutions
  import opened Algebra
  import opened BoundJoin
  import opened Expressions
  import opened Items

  // --- What a clause may be sent --------------------------------------------------------------------------------

  // What is in the n-th clause, in the order they are written.
  ghost function ClauseAt(p: Pattern, n: nat): Pattern
    requires n < Clauses(p)
  {
    match p
    case Service(_, i) => i
    case Join(l, r) => if n < Clauses(l) then ClauseAt(l, n) else ClauseAt(r, n - Clauses(l))
    case LeftJoin(l, r, _) => if n < Clauses(l) then ClauseAt(l, n) else ClauseAt(r, n - Clauses(l))
    case Union(l, r) => if n < Clauses(l) then ClauseAt(l, n) else ClauseAt(r, n - Clauses(l))
    case Minus(l, r) => if n < Clauses(l) then ClauseAt(l, n) else ClauseAt(r, n - Clauses(l))
    case Filter(_, i) => ClauseAt(i, n)
    case Graph(_, i) => ClauseAt(i, n)
    case Extend(i, _, _) => ClauseAt(i, n)
    case OrderBy(i) => ClauseAt(i, n)
    case Project(i, _) => ClauseAt(i, n)
    case Distinct(i) => ClauseAt(i, n)
    case Slice(i, _, _) => ClauseAt(i, n)
    case Group(i, _, _) => ClauseAt(i, n)
  }

  // A pattern the n-th clause is to be joined with, at whatever depth: the other side of a join around the clause, or the
  // left side of an OPTIONAL the clause is on the right of. A union and a MINUS join it with nothing.
  ghost predicate Meets(p: Pattern, n: nat, beside: Pattern)
    requires n < Clauses(p)
  {
    match p
    case Service(_, _) => false
    case Join(l, r) =>
      if n < Clauses(l) then beside == r || Meets(l, n, beside) else beside == l || Meets(r, n - Clauses(l), beside)
    case LeftJoin(l, r, _) =>
      if n < Clauses(l) then Meets(l, n, beside) else beside == l || Meets(r, n - Clauses(l), beside)
    case Union(l, r) => if n < Clauses(l) then Meets(l, n, beside) else Meets(r, n - Clauses(l), beside)
    case Minus(l, r) => if n < Clauses(l) then Meets(l, n, beside) else Meets(r, n - Clauses(l), beside)
    case Filter(_, i) => Meets(i, n, beside)
    case Graph(_, i) => Meets(i, n, beside)
    case Extend(i, _, _) => Meets(i, n, beside)
    case OrderBy(i) => Meets(i, n, beside)
    case Project(i, _) => Meets(i, n, beside)
    case Distinct(i) => Meets(i, n, beside)
    case Slice(i, _, _) => Meets(i, n, beside)
    case Group(i, _, _) => Meets(i, n, beside)
  }

  ghost predicate Heard(p: Pattern, n: nat, v: Var)
    requires n < Clauses(p)
  {
    exists beside :: Meets(p, n, beside) && v in PatternVariables(beside)
  }

  lemma {:induction false} HeardBeside(l: Pattern, r: Pattern, e: Option<Expr>, n: nat, v: Var)
    requires n < Clauses(l) + Clauses(r)
    ensures Heard(Join(l, r), n, v)
       <==> if n < Clauses(l) then v in PatternVariables(r) || Heard(l, n, v) else v in PatternVariables(l) || Heard(r, n - Clauses(l), v)
    ensures Heard(LeftJoin(l, r, e), n, v)
       <==> if n < Clauses(l) then Heard(l, n, v) else v in PatternVariables(l) || Heard(r, n - Clauses(l), v)
  {
    var j, o := Join(l, r), LeftJoin(l, r, e);
    if n < Clauses(l) {
      assert forall beside :: Meets(j, n, beside) <==> beside == r || Meets(l, n, beside);
      assert forall beside :: Meets(o, n, beside) <==> Meets(l, n, beside);
      assert Meets(j, n, r);
    } else {
      assert forall beside :: Meets(j, n, beside) <==> beside == l || Meets(r, n - Clauses(l), beside);
      assert forall beside :: Meets(o, n, beside) <==> beside == l || Meets(r, n - Clauses(l), beside);
      assert Meets(j, n, l) && Meets(o, n, l);
    }
  }

  // The keys asked for a clause are over the variables it shares with what it is to be joined with.
  lemma {:induction false} CandidatesShared(p: Pattern, bound: set<Var>, n: nat, v: Var)
    requires n < Clauses(p)
    ensures |Candidates(p, bound)| == Clauses(p)
    ensures v in Candidates(p, bound)[n]
       <==> v in PatternVariables(ClauseAt(p, n))
            && (v in bound || Heard(p, n, v))
    decreases p, 1
  {
    CandidatesCount(p, bound);
    match p
    case Service(_, _) =>
    case Join(l, r) =>
      HeardBeside(l, r, None, n, v);
      SharedBeside(p, l, r, bound + PatternVariables(r), bound + PatternVariables(l), n, v);
    case LeftJoin(l, r, e) =>
      HeardBeside(l, r, e, n, v);
      SharedBeside(p, l, r, bound, bound + PatternVariables(l), n, v);
    case Union(l, r) => SharedBeside(p, l, r, bound, bound, n, v);
    case Minus(l, r) => SharedBeside(p, l, r, bound, bound, n, v);
    case Filter(_, i) => CandidatesShared(i, bound, n, v);
    case Graph(_, i) => CandidatesShared(i, bound, n, v);
    case Extend(i, _, _) => CandidatesShared(i, bound, n, v);
    case OrderBy(i) => CandidatesShared(i, bound, n, v);
    case Project(i, _) => CandidatesShared(i, bound, n, v);
    case Distinct(i) => CandidatesShared(i, bound, n, v);
    case Slice(i, _, _) => CandidatesShared(i, bound, n, v);
    case Group(i, _, _) => CandidatesShared(i, bound, n, v);
  }

  // On one side of two, a clause has the candidates it has on that side alone.
  lemma {:induction false} SharedBeside(p: Pattern, l: Pattern, r: Pattern, left: set<Var>, right: set<Var>, n: nat, v: Var)
    requires l < p && r < p && n < Clauses(l) + Clauses(r)
    ensures |Candidates(l, left)| == Clauses(l) && |Candidates(r, right)| == Clauses(r)
    ensures n < Clauses(l) ==>
              (v in (Candidates(l, left) + Candidates(r, right))[n]
               <==> v in PatternVariables(ClauseAt(l, n))
                    && (v in left || Heard(l, n, v)))
    ensures n >= Clauses(l) ==>
              (v in (Candidates(l, left) + Candidates(r, right))[n]
               <==> v in PatternVariables(ClauseAt(r, n - Clauses(l)))
                    && (v in right || Heard(r, n - Clauses(l), v)))
    decreases p, 0
  {
    CandidatesCount(l, left);
    CandidatesCount(r, right);
    if n < Clauses(l) {
      CandidatesShared(l, left, n, v);
    } else {
      CandidatesShared(r, right, n - Clauses(l), v);
    }
  }

  // The n-th keys go into the n-th clause: a table of them beside what was there, unless they are empty.
  lemma {:induction false} FilledAt(p: Pattern, keys: seq<Option<Keys>>, n: nat)
    requires n < Clauses(p)
    ensures Clauses(Filled(p, keys)) == Clauses(p)
    ensures ClauseAt(Filled(p, keys), n) == Push(if n < |keys| then keys[n] else None, ClauseAt(p, n))
    decreases p, 1
  {
    ClausesFilled(p, keys);
    match p
    case Service(_, _) =>
    case Join(l, r) => FilledSide(p, l, r, keys, n);
    case LeftJoin(l, r, _) => FilledSide(p, l, r, keys, n);
    case Union(l, r) => FilledSide(p, l, r, keys, n);
    case Minus(l, r) => FilledSide(p, l, r, keys, n);
    case Filter(_, i) => FilledAt(i, keys, n);
    case Graph(_, i) => FilledAt(i, keys, n);
    case Extend(i, _, _) => FilledAt(i, keys, n);
    case OrderBy(i) => FilledAt(i, keys, n);
    case Project(i, _) => FilledAt(i, keys, n);
    case Distinct(i) => FilledAt(i, keys, n);
    case Slice(i, _, _) => FilledAt(i, keys, n);
    case Group(i, _, _) => FilledAt(i, keys, n);
  }

  lemma {:induction false} FilledSide(p: Pattern, l: Pattern, r: Pattern, keys: seq<Option<Keys>>, n: nat)
    requires l < p && r < p && n < Clauses(l) + Clauses(r)
    ensures Clauses(Filled(l, keys)) == Clauses(l) && Clauses(Filled(r, Rest(keys, Clauses(l)))) == Clauses(r)
    ensures var k := if n < |keys| then keys[n] else None;
            if n < Clauses(l) then ClauseAt(Filled(l, keys), n) == Push(k, ClauseAt(l, n))
            else ClauseAt(Filled(r, Rest(keys, Clauses(l))), n - Clauses(l)) == Push(k, ClauseAt(r, n - Clauses(l)))
    decreases p, 0
  {
    ClausesFilled(l, keys);
    ClausesFilled(r, Rest(keys, Clauses(l)));
    if n < Clauses(l) {
      FilledAt(l, keys, n);
    } else {
      FilledAt(r, Rest(keys, Clauses(l)), n - Clauses(l));
    }
  }

  lemma {:induction false} ClausesFilled(p: Pattern, keys: seq<Option<Keys>>)
    ensures Clauses(Filled(p, keys)) == Clauses(p)
  {
    match p
    case Join(l, r) => ClausesFilled(l, keys); ClausesFilled(r, Rest(keys, Clauses(l)));
    case LeftJoin(l, r, _) => ClausesFilled(l, keys); ClausesFilled(r, Rest(keys, Clauses(l)));
    case Union(l, r) => ClausesFilled(l, keys); ClausesFilled(r, Rest(keys, Clauses(l)));
    case Minus(l, r) => ClausesFilled(l, keys); ClausesFilled(r, Rest(keys, Clauses(l)));
    case Filter(_, i) => ClausesFilled(i, keys);
    case Graph(_, i) => ClausesFilled(i, keys);
    case Extend(i, _, _) => ClausesFilled(i, keys);
    case OrderBy(i) => ClausesFilled(i, keys);
    case Project(i, _) => ClausesFilled(i, keys);
    case Distinct(i) => ClausesFilled(i, keys);
    case Slice(i, _, _) => ClausesFilled(i, keys);
    case Group(i, _, _) => ClausesFilled(i, keys);
    case _ =>
  }

  // Nothing but the insides of clauses changes, and nothing asked before the keys are known asks anybody.
  lemma {:induction false} ProbeAsksNobody(p: Pattern, keys: seq<Option<Keys>>)
    ensures Clauses(WithoutServices(p)) == 0 && WithoutServices(Filled(p, keys)) == WithoutServices(p)
  {
    match p
    case Join(l, r) => ProbeAsksNobody(l, keys); ProbeAsksNobody(r, Rest(keys, Clauses(l)));
    case LeftJoin(l, r, _) => ProbeAsksNobody(l, keys); ProbeAsksNobody(r, Rest(keys, Clauses(l)));
    case Union(l, r) => ProbeAsksNobody(l, keys); ProbeAsksNobody(r, Rest(keys, Clauses(l)));
    case Minus(l, r) => ProbeAsksNobody(l, keys); ProbeAsksNobody(r, Rest(keys, Clauses(l)));
    case Filter(_, i) => ProbeAsksNobody(i, keys);
    case Graph(_, i) => ProbeAsksNobody(i, keys);
    case Extend(i, _, _) => ProbeAsksNobody(i, keys);
    case OrderBy(i) => ProbeAsksNobody(i, keys);
    case Project(i, _) => ProbeAsksNobody(i, keys);
    case Distinct(i) => ProbeAsksNobody(i, keys);
    case Slice(i, _, _) => ProbeAsksNobody(i, keys);
    case Group(i, _, _) => ProbeAsksNobody(i, keys);
    case _ =>
  }

  // The body is what is left once every modifier is off.
  lemma {:induction false} BodyBare(p: Pattern)
    ensures var b := QueryBody(p); !b.Project? && !b.Distinct? && !b.Slice? && !b.OrderBy?
    ensures QueryBody(p) == if p.Project? || p.Distinct? || p.Slice? || p.OrderBy? then QueryBody(p.inner) else p
  {
    match p
    case Project(i, _) => BodyBare(i);
    case Distinct(i) => BodyBare(i);
    case Slice(i, _, _) => BodyBare(i);
    case OrderBy(i) => BodyBare(i);
    case _ =>
  }

  // --- Keys ------------------------------------------------------------------------------------------------------

  // The blank nodes of a term, at any depth and in any place.
  function AllBlanks(t: Term): set<string> {
    match t
    case Blank(node) => {node}
    case Quoted(s, p, o) => AllBlanks(s) + AllBlanks(p) + AllBlanks(o)
    case _ => {}
  }

  // A value can be sent exactly when it has no blank node in it.
  lemma {:induction false} SendableExactly(t: Term)
    ensures Sendable(t) <==> AllBlanks(t) == {}
  {
    match t
    case Blank(node) => assert node in AllBlanks(t);
    case Quoted(s, p, o) => SendableExactly(s); SendableExactly(p); SendableExactly(o);
    case _ =>
  }

  // Every row has a value in this column.
  ghost predicate Throughout(rows: seq<seq<Option<Term>>>, i: nat) {
    forall k :: 0 <= k < |rows| ==> i < |rows[k]| && rows[k][i].Some?
  }

  // A column is kept exactly when every row has a value in it.
  lemma KeptExactly(candidates: seq<Var>, rows: seq<seq<Option<Term>>>, i: nat)
    ensures i in KeptColumns(candidates, rows) <==> i < |candidates| && Throughout(rows, i)
  {
    SelectMember(Upto(|candidates|), ColumnBound(rows), i);
    UptoMembers(|candidates|);
    if Throughout(rows, i) {
      forall k | 0 <= k < |rows|
        ensures HasTerm(rows[k], i)
      {
      }
    }
    if ColumnBound(rows)(i) {
      forall k | 0 <= k < |rows|
        ensures i < |rows[k]| && rows[k][i].Some?
      {
        assert HasTerm(rows[k], i);
      }
    }
  }

  lemma UptoMembers(n: nat)
    ensures forall i: nat :: i in Upto(n) <==> i < n
  {
    forall i: nat | i < n
      ensures i in Upto(n)
    {
      assert Upto(n)[i] == i;
    }
  }

  // The rows cut down to some columns, in the order the columns are given.
  ghost predicate CutTo(row: seq<Option<Term>>, keep: seq<nat>, t: seq<Term>) {
    |t| == |keep| && forall n :: 0 <= n < |keep| ==> keep[n] < |row| && row[keep[n]] == Some(t[n])
  }

  ghost predicate InSome(rows: seq<seq<Option<Term>>>, keep: seq<nat>, t: seq<Term>) {
    exists k :: 0 <= k < |rows| && CutTo(rows[k], keep, t)
  }

  lemma {:induction false} TupleCut(row: seq<Option<Term>>, keep: seq<nat>, t: seq<Term>)
    requires HasAll(row, keep)
    ensures t == TupleAt(row, keep) <==> CutTo(row, keep, t)
  {
    if keep == [] {
      assert TupleAt(row, keep) == [];
    } else {
      assert HasTerm(row, keep[0]);
      assert forall k :: 0 <= k < |keep[1..]| ==> keep[1..][k] == keep[k + 1];
      if t != [] {
        TupleCut(row, keep[1..], t[1..]);
        assert t == [t[0]] + t[1..];
        if CutTo(row, keep, t) {
          assert CutTo(row, keep[1..], t[1..]);
        }
      }
    }
  }

  // The columns with a value in every row, from the left.
  ghost predicate Kept(candidates: seq<Var>, rows: seq<seq<Option<Term>>>, keep: seq<nat>) {
    && (forall m, n :: 0 <= m < n < |keep| ==> keep[m] < keep[n])
    && forall i: nat :: i in keep <==> i < |candidates| && Throughout(rows, i)
  }

  ghost predicate Heads(candidates: seq<Var>, keep: seq<nat>, vs: seq<Var>) {
    |vs| == |keep| && forall n :: 0 <= n < |keep| ==> keep[n] < |candidates| && vs[n] == candidates[keep[n]]
  }

  // One key for each different way the rows fill the columns kept, and at most 1024 of them.
  ghost predicate SentKeys(candidates: seq<Var>, rows: seq<seq<Option<Term>>>, keys: Keys) {
    && NoRepeats(keys.rows) && |keys.rows| <= 1024
    && exists keep: seq<nat> ::
         Kept(candidates, rows, keep) && keep != [] && Heads(candidates, keep, keys.variables)
         && forall t :: t in keys.rows <==> InSome(rows, keep, t)
  }

  // More than 1024 of them.
  ghost predicate ManyKeys(candidates: seq<Var>, rows: seq<seq<Option<Term>>>) {
    exists keep: seq<nat> :: Kept(candidates, rows, keep) && Many(rows, keep)
  }

  ghost predicate Many(rows: seq<seq<Option<Term>>>, keep: seq<nat>) {
    exists some: seq<seq<Term>> :: NoRepeats(some) && |some| > 1024 && forall t :: t in some ==> InSome(rows, keep, t)
  }

  lemma TuplesAreCut(rows: seq<seq<Option<Term>>>, keep: seq<nat>, t: seq<Term>)
    requires AllHave(rows, keep)
    ensures IsTuple(rows, keep, t) <==> InSome(rows, keep, t)
  {
    if IsTuple(rows, keep, t) {
      var k :| 0 <= k < |rows| && t == TupleAt(rows[k], keep);
      TupleCut(rows[k], keep, t);
    }
    if InSome(rows, keep, t) {
      var k :| 0 <= k < |rows| && CutTo(rows[k], keep, t);
      TupleCut(rows[k], keep, t);
    }
  }

  lemma ColumnsKept(candidates: seq<Var>, rows: seq<seq<Option<Term>>>)
    ensures Kept(candidates, rows, KeptColumns(candidates, rows))
  {
    KeptInOrder(Upto(|candidates|), ColumnBound(rows));
    forall i: nat
      ensures i in KeptColumns(candidates, rows) <==> i < |candidates| && Throughout(rows, i)
    {
      KeptExactly(candidates, rows, i);
    }
  }

  // What comes back as keys is that.
  lemma KeysAreSent(candidates: seq<Var>, rows: seq<seq<Option<Term>>>, keys: Keys)
    requires KeysOf(candidates, rows, keys) && |keys.rows| <= MAX_PUSHED_BINDINGS
    ensures rows != [] && SentKeys(candidates, rows, keys)
  {
    var keep := KeptColumns(candidates, rows);
    ColumnsKept(candidates, rows);
    forall t
      ensures t in keys.rows <==> InSome(rows, keep, t)
    {
      TuplesAreCut(rows, keep, t);
    }
    assert Heads(candidates, keep, keys.variables);
  }

  // When nothing comes back although there are rows to send, either they fill the columns in more than 1024 ways,
  lemma TooManyKeys(candidates: seq<Var>, rows: seq<seq<Option<Term>>>)
    requires TooMany(candidates, rows)
    ensures ManyKeys(candidates, rows)
  {
    var keep := KeptColumns(candidates, rows);
    ColumnsKept(candidates, rows);
    var some: seq<seq<Term>> :| NoRepeats(some) && |some| > 1024 && forall t :: t in some ==> IsTuple(rows, keep, t);
    forall t | t in some
      ensures InSome(rows, keep, t)
    {
      TuplesAreCut(rows, keep, t);
    }
    assert Many(rows, keep);
  }

  // or no column has a value in every row.
  lemma NoneKept(candidates: seq<Var>, rows: seq<seq<Option<Term>>>, i: nat)
    requires KeptColumns(candidates, rows) == [] && i < |candidates|
    ensures !Throughout(rows, i)
  {
    KeptExactly(candidates, rows, i);
  }
}
