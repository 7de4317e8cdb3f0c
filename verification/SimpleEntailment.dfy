/**
 The backtracking search behind entailment (crates/holos-conformance/src/entailment.rs, `entails`,
 `search`, `unify` and `bind`): one shared binding, extended on the way down and put back on the way up.
 It answers yes exactly when some mapping of blank nodes makes the conclusion part of the graph (RDF 1.1
 Semantics, sections 5.2 and 5.3), looking through triple terms.
 */
module SimpleEntailment {
  import opened Options
  import opened Rdf

  type Binding = map<string, Term>

  datatype Triple = Triple(s: Term, p: Term, o: Term)

  // --- Instances ---------------------------------------------------------------------------------------------

  function Apply(m: Binding, t: Term): Term {
    match t
    case Blank(b) => if b in m then m[b] else t
    case Quoted(s, p, o) => Quoted(Apply(m, s), p, Apply(m, o))
    case _ => t
  }

  function BlanksIn(t: Term): set<string> {
    match t
    case Blank(b) => {b}
    case Quoted(s, _, o) => BlanksIn(s) + BlanksIn(o)
    case _ => {}
  }

  // The mapping says where every blank node of the term goes, and takes the term to the fact.
  predicate Fits(m: Binding, goal: Term, fact: Term) {
    BlanksIn(goal) <= m.Keys && Apply(m, goal) == fact
  }

  predicate FitsTriple(m: Binding, goal: Triple, fact: Triple) {
    goal.p == fact.p && Fits(m, goal.s, fact.s) && Fits(m, goal.o, fact.o)
  }

  predicate Solves(m: Binding, goals: seq<Triple>, facts: seq<Triple>) {
    forall i :: 0 <= i < |goals| ==> Meets(m, goals[i], facts)
  }

  predicate Meets(m: Binding, goal: Triple, facts: seq<Triple>) {
    exists k :: 0 <= k < |facts| && FitsTriple(m, goal, facts[k])
  }

  ghost predicate Extends(a: Binding, b: Binding) {
    forall v :: v in a ==> v in b && b[v] == a[v]
  }

  lemma {:induction false} FitsMore(a: Binding, b: Binding, goal: Term, fact: Term)
    requires Extends(a, b) && Fits(a, goal, fact)
    ensures Fits(b, goal, fact)
    decreases goal
  {
    match goal
    case Quoted(s, p, o) =>
      FitsMore(a, b, s, Apply(a, s));
      FitsMore(a, b, o, Apply(a, o));
    case _ =>
  }

  lemma SolvesMore(a: Binding, b: Binding, goal: Triple, fact: Triple)
    requires Extends(a, b) && FitsTriple(a, goal, fact)
    ensures FitsTriple(b, goal, fact)
  {
    FitsMore(a, b, goal.s, fact.s);
    FitsMore(a, b, goal.o, fact.o);
  }

  // `now` is the least extension of `before` that does what is asked: every other one extends it.
  ghost predicate Least(before: Binding, now: Binding, goal: Term, fact: Term) {
    && Extends(before, now) && Fits(now, goal, fact)
    && forall m: Binding {:trigger Extends(before, m)} :: Extends(before, m) && Fits(m, goal, fact) ==> Extends(now, m)
  }

  ghost predicate Impossible(before: Binding, goal: Term, fact: Term) {
    forall m: Binding {:trigger Extends(before, m)} :: Extends(before, m) ==> !Fits(m, goal, fact)
  }

  class Searcher {
    var binding: Binding

    constructor ()
      ensures binding == map[]
    {
      binding := map[];
    }

    // One position. A blank node is a variable; a triple term is matched through.
    method Bind(goal: Term, fact: Term) returns (ok: bool)
      modifies this
      ensures ok ==> Least(old(binding), binding, goal, fact)
      ensures !ok ==> Impossible(old(binding), goal, fact)
      decreases goal
    {
      if goal.Blank? {
        if goal.node in binding {
          ok := binding[goal.node] == fact;
        } else {
          binding := binding[goal.node := fact];
          ok := true;
        }
      } else if goal.Quoted? && fact.Quoted? {
        if goal.pred != fact.pred {
          return false;
        }
        ok := Bind(goal.subj, fact.subj);
        if !ok {
          return;
        }
        ghost var mid := binding;
        ok := Bind(goal.obj, fact.obj);
        QuotedStep(old(binding), mid, binding, goal, fact, ok);
      } else {
        ok := goal == fact;
        Ground(goal, fact);
      }
    }

    method Unify(goal: Triple, fact: Triple) returns (ok: bool)
      modifies this
      ensures ok ==> Extends(old(binding), binding) && FitsTriple(binding, goal, fact)
      ensures ok ==> forall m: Binding {:trigger Extends(old(binding), m)} ::
                Extends(old(binding), m) && FitsTriple(m, goal, fact) ==> Extends(binding, m)
      ensures !ok ==> forall m: Binding {:trigger Extends(old(binding), m)} :: Extends(old(binding), m) ==> !FitsTriple(m, goal, fact)
    {
      if goal.p != fact.p {
        return false;
      }
      ok := Bind(goal.s, fact.s);
      if !ok {
        return;
      }
      ghost var mid := binding;
      ok := Bind(goal.o, fact.o);
      if ok {
        FitsMore(mid, binding, goal.s, fact.s);
      }
    }

    // Whether some extension of the binding meets every goal. On success the binding is one; on failure it
    // is as it was.
    method Search(goals: seq<Triple>, facts: seq<Triple>) returns (found: bool)
      modifies this
      ensures found ==> Extends(old(binding), binding) && Solves(binding, goals, facts)
      ensures !found ==> binding == old(binding)
      ensures found <==> exists m :: Extends(old(binding), m) && Solves(m, goals, facts)
      decreases |goals|
    {
      if goals == [] {
        assert Extends(binding, binding) && Solves(binding, goals, facts);
        return true;
      }
      var goal, rest := goals[0], goals[1..];
      ghost var before := binding;
      for k := 0 to |facts|
        invariant binding == before
        invariant forall m: Binding, j {:trigger Extends(before, m), facts[j]} ::
          Extends(before, m) && 0 <= j < k && FitsTriple(m, goal, facts[j]) ==> !Solves(m, rest, facts)
      {
        var saved := binding;
        var unified := Unify(goal, facts[k]);
        if unified {
          ghost var mid := binding;
          var deeper := Search(rest, facts);
          if deeper {
            SolvedBoth(before, mid, binding, goals, facts, k);
            return true;
          }
        }
        binding := saved;
      }
      found := false;
      forall m | Extends(before, m) && Solves(m, goals, facts)
        ensures false
      {
        SolvesParts(m, goals, facts);
      }
    }
  }

  lemma Ground(goal: Term, fact: Term)
    requires !goal.Blank? && !(goal.Quoted? && fact.Quoted?)
    ensures goal == fact ==> forall m :: Fits(m, goal, fact)
    ensures goal != fact ==> forall m :: !Fits(m, goal, fact)
  {
  }

  lemma QuotedStep(before: Binding, mid: Binding, now: Binding, goal: Term, fact: Term, ok: bool)
    requires goal.Quoted? && fact.Quoted? && goal.pred == fact.pred
    requires Least(before, mid, goal.subj, fact.subj)
    requires if ok then Least(mid, now, goal.obj, fact.obj) else Impossible(mid, goal.obj, fact.obj)
    ensures if ok then Least(before, now, goal, fact) else Impossible(before, goal, fact)
  {
    forall m: Binding | Extends(before, m) && Fits(m, goal, fact)
      ensures Fits(m, goal.subj, fact.subj) && Fits(m, goal.obj, fact.obj) && Extends(mid, m)
    {
    }
    if ok {
      FitsMore(mid, now, goal.subj, fact.subj);
    }
  }

  lemma SolvesParts(m: Binding, goals: seq<Triple>, facts: seq<Triple>)
    requires goals != [] && Solves(m, goals, facts)
    ensures Solves(m, goals[1..], facts) && exists k :: 0 <= k < |facts| && FitsTriple(m, goals[0], facts[k])
  {
    assert Meets(m, goals[0], facts);
    forall i | 0 <= i < |goals[1..]|
      ensures Meets(m, goals[1..][i], facts)
    {
      assert goals[1..][i] == goals[i + 1];
    }
  }

  lemma SolvedBoth(before: Binding, mid: Binding, now: Binding, goals: seq<Triple>, facts: seq<Triple>, k: nat)
    requires goals != [] && k < |facts| && Extends(before, mid) && Extends(mid, now)
    requires FitsTriple(mid, goals[0], facts[k]) && Solves(now, goals[1..], facts)
    ensures Extends(before, now) && Solves(now, goals, facts)
  {
    SolvesMore(mid, now, goals[0], facts[k]);
    forall i | 0 <= i < |goals|
      ensures Meets(now, goals[i], facts)
    {
      if i > 0 {
        assert Meets(now, goals[1..][i - 1], facts);
      }
    }
  }

  // --- Entailment --------------------------------------------------------------------------------------------

  function TripleOf(q: Quad): Triple {
    Triple(q.s, q.p, q.o)
  }

  // Some instance of the conclusion is part of the closure.
  ghost predicate HasInstanceIn(conclusion: seq<Quad>, closure: set<Triple>) {
    exists m: Binding :: InstanceWithin(m, conclusion, closure)
  }

  ghost predicate InstanceWithin(m: Binding, conclusion: seq<Quad>, closure: set<Triple>) {
    forall q :: q in conclusion ==>
      && BlanksIn(q.s) + BlanksIn(q.o) <= m.Keys
      && Triple(Apply(m, q.s), q.p, Apply(m, q.o)) in closure
  }

  // Blank nodes of a term, counted through triple terms.
  function BlankCount(t: Term): nat {
    match t
    case Blank(_) => 1
    case Quoted(s, _, o) => BlankCount(s) + BlankCount(o)
    case _ => 0
  }

  function Weight(t: Triple): nat {
    BlankCount(t.s) + BlankCount(t.o)
  }

  function Placed(xs: seq<Triple>, g: Triple): (r: seq<Triple>)
    ensures multiset(r) == multiset(xs) + multiset{g}
  {
    if xs == [] || Weight(xs[|xs| - 1]) <= Weight(g) then xs + [g]
    else
      var init, last := xs[..|xs| - 1], xs[|xs| - 1];
      assert xs == init + [last];
      Placed(init, g) + [last]
  }

  // The stable sort by weight. Only that it loses and invents no goal matters to the answer.
  function GroundFirst(goals: seq<Triple>): (r: seq<Triple>)
    ensures multiset(r) == multiset(goals)
  {
    if goals == [] then []
    else
      assert goals == goals[..|goals| - 1] + [goals[|goals| - 1]];
      Placed(GroundFirst(goals[..|goals| - 1]), goals[|goals| - 1])
  }

  // The goals and the facts may be put in any order; it decides the work and not the answer.
  method Entails(closure: set<Triple>, conclusion: seq<Quad>) returns (r: bool)
    ensures r <==> (forall q :: q in conclusion ==> q.graph.None?) && HasInstanceIn(conclusion, closure)
  {
    var goals: seq<Triple> := [];
    for i := 0 to |conclusion|
      invariant forall j :: 0 <= j < i ==> conclusion[j].graph.None?
      invariant |goals| == i && forall j :: 0 <= j < i ==> goals[j] == TripleOf(conclusion[j])
    {
      if conclusion[i].graph.Some? {
        return false;
      }
      goals := goals + [TripleOf(conclusion[i])];
    }
    var ordered := GroundFirst(goals);
    var facts := InSomeOrder(closure);
    var searcher := new Searcher();
    r := searcher.Search(ordered, facts);
    forall m: Binding
      ensures Solves(m, ordered, facts) <==> InstanceWithin(m, conclusion, closure)
    {
      InstanceSolves(m, conclusion, goals, ordered, facts, closure);
    }
    if r {
      assert InstanceWithin(searcher.binding, conclusion, closure);
    }
    if HasInstanceIn(conclusion, closure) {
      var m: Binding :| InstanceWithin(m, conclusion, closure);
      assert Extends(map[], m) && Solves(m, ordered, facts);
    }
  }

  lemma InstanceSolves(m: Binding, conclusion: seq<Quad>, goals: seq<Triple>, ordered: seq<Triple>, facts: seq<Triple>, closure: set<Triple>)
    requires |goals| == |conclusion| && forall j :: 0 <= j < |goals| ==> goals[j] == TripleOf(conclusion[j])
    requires multiset(ordered) == multiset(goals) && forall f :: f in facts <==> f in closure
    ensures Solves(m, ordered, facts) <==> InstanceWithin(m, conclusion, closure)
  {
    forall g
      ensures Meets(m, g, facts) <==> BlanksIn(g.s) + BlanksIn(g.o) <= m.Keys && Triple(Apply(m, g.s), g.p, Apply(m, g.o)) in closure
    {
      if Triple(Apply(m, g.s), g.p, Apply(m, g.o)) in closure {
        var k :| 0 <= k < |facts| && facts[k] == Triple(Apply(m, g.s), g.p, Apply(m, g.o));
      }
    }
    assert forall g :: g in ordered <==> g in multiset(ordered);
    assert forall g :: g in goals <==> g in multiset(goals);
    if Solves(m, ordered, facts) {
      forall q | q in conclusion
        ensures Meets(m, TripleOf(q), facts)
      {
        var j :| 0 <= j < |conclusion| && conclusion[j] == q;
        assert goals[j] in ordered;
        var i :| 0 <= i < |ordered| && ordered[i] == goals[j];
      }
    }
    if InstanceWithin(m, conclusion, closure) {
      forall i | 0 <= i < |ordered|
        ensures Meets(m, ordered[i], facts)
      {
        assert ordered[i] in goals;
        var j :| 0 <= j < |goals| && goals[j] == ordered[i];
        assert conclusion[j] in conclusion;
      }
    }
  }

  method InSomeOrder(closure: set<Triple>) returns (facts: seq<Triple>)
    ensures forall f :: f in facts <==> f in closure
  {
    facts := [];
    var left := closure;
    while left != {}
      invariant left <= closure && forall f :: f in facts <==> f in closure - left
      decreases left
    {
      var f :| f in left;
      facts := facts + [f];
      left := left - {f};
    }
  }
}
