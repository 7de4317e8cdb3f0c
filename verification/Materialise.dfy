/**
 `materialise` as it runs (crates/holos-engine/src/entailment.rs): the schema maps, the frontier, the
 reflexive pass and the write, each a loop over a set in whatever order the set yields.
 */
module Materialise {
  import opened Locks
  import opened Options
  import opened Rdf
  import opened Hierarchies
  import opened Rdfs

  datatype Outcome = Entailed(added: nat, rounds: nat) | OverBudget | Refused

  function Members(ts: seq<Statement>): set<Statement> {
    set t | t in ts
  }

  // --- Reading the schema ----------------------------------------------------------------------------------

  lemma ReadAt(known: set<Statement>, p: Term, s: Term)
    ensures s in Read(known, p) <==> Objects(known, p, s) != {}
    ensures Next(Read(known, p), s) == Objects(known, p, s)
  {
    if s in Read(known, p) {
      var t :| t in known && t.p == p && t.s == s;
      assert t.o in Objects(known, p, s);
    } else {
      assert forall t :: t in known && t.p == p ==> t.s in Read(known, p);
    }
  }

  lemma ObjectsMore(done: set<Statement>, t: Statement, p: Term, s: Term)
    ensures Objects(done + {t}, p, s) == Objects(done, p, s) + (if t.p == p && t.s == s then {t.o} else {})
  {
  }

  lemma SameMaps(a: Links, b: Links)
    requires forall s {:trigger Next(a, s)} :: (s in a <==> s in b) && Next(a, s) == Next(b, s)
    ensures a == b
  {
    forall s
      ensures (s in a <==> s in b) && (s in a ==> a[s] == b[s])
    {
      assert Next(a, s) == Next(b, s);
    }
    assert a.Keys == b.Keys;
  }

  lemma ReadMore(done: set<Statement>, t: Statement, p: Term)
    ensures Read(done + {t}, p)
         == if t.p == p then Read(done, p)[t.s := Next(Read(done, p), t.s) + {t.o}] else Read(done, p)
  {
    var before := Read(done, p);
    var after := if t.p == p then before[t.s := Next(before, t.s) + {t.o}] else before;
    forall s
      ensures (s in Read(done + {t}, p) <==> s in after) && Next(Read(done + {t}, p), s) == Next(after, s)
    {
      ReadAt(done, p, s);
      ReadAt(done + {t}, p, s);
      ObjectsMore(done, t, p, s);
    }
    SameMaps(Read(done + {t}, p), after);
  }

  method ReadSchema(v: Vocabulary, known: set<Statement>)
    returns (superProperties: Hierarchy, superClasses: Hierarchy, domains: Hierarchy, ranges: Hierarchy)
    requires v.Valid()
    ensures superProperties.links == Read(known, v.subPropertyOf)
    ensures superClasses.links == Read(known, v.subClassOf)
    ensures domains.links == Read(known, v.domain) && ranges.links == Read(known, v.range)
    ensures fresh({superProperties, superClasses, domains, ranges})
    ensures superProperties != superClasses && superProperties != domains && superProperties != ranges
    ensures superClasses != domains && superClasses != ranges && domains != ranges
  {
    superProperties := new Hierarchy();
    superClasses := new Hierarchy();
    domains := new Hierarchy();
    ranges := new Hierarchy();
    var left := known;
    ghost var done: set<Statement> := {};
    while left != {}
      invariant left + done == known && left !! done
      invariant superProperties.links == Read(done, v.subPropertyOf)
      invariant superClasses.links == Read(done, v.subClassOf)
      invariant domains.links == Read(done, v.domain)
      invariant ranges.links == Read(done, v.range)
      decreases left
    {
      var t :| t in left;
      ReadMore(done, t, v.subPropertyOf);
      ReadMore(done, t, v.subClassOf);
      ReadMore(done, t, v.domain);
      ReadMore(done, t, v.range);
      if t.p == v.subPropertyOf {
        superProperties.Add(t.s, t.o);
      } else if t.p == v.subClassOf {
        superClasses.Add(t.s, t.o);
      } else if t.p == v.domain {
        domains.Add(t.s, t.o);
      } else if t.p == v.range {
        ranges.Add(t.s, t.o);
      }
      left, done := left - {t}, done + {t};
    }
    assert done == known;
  }

  lemma AxiomsMore(v: Vocabulary, terms: set<Term>, x: Term)
    ensures AxiomsFor(v, terms + {x})
         == AxiomsFor(v, terms) + if IsMembership(x) then {Statement(x, v.ty, v.membership), Statement(x, v.subPropertyOf, v.member)} else {}
  {
  }

  // A term is looked at once, in whichever position it first turns up.
  method Examine(v: Vocabulary, x: Term, examined: set<Term>, axioms: seq<Statement>)
    returns (examined': set<Term>, axioms': seq<Statement>)
    requires Members(axioms) == AxiomsFor(v, examined)
    ensures examined' == examined + {x} && Members(axioms') == AxiomsFor(v, examined')
  {
    examined', axioms' := examined + {x}, axioms;
    if x in examined {
      assert examined' == examined;
      return;
    }
    AxiomsMore(v, examined, x);
    if IsMembership(x) {
      axioms' := AppendAxioms(v, axioms, x);
    }
  }

  method FindContainers(v: Vocabulary, known: set<Statement>) returns (axioms: seq<Statement>)
    ensures Members(axioms) == ContainerAxioms(v, known)
  {
    axioms := [];
    var examined: set<Term> := {};
    var left := known;
    ghost var done: set<Statement> := {};
    while left != {}
      invariant left + done == known && left !! done && examined == TermsOf(done)
      invariant Members(axioms) == AxiomsFor(v, examined)
      decreases left
    {
      var t :| t in left;
      examined, axioms := Examine(v, t.s, examined, axioms);
      examined, axioms := Examine(v, t.p, examined, axioms);
      examined, axioms := Examine(v, t.o, examined, axioms);
      TermsMore(done, t);
      left, done := left - {t}, done + {t};
    }
    assert done == known;
  }

  lemma TermsMore(done: set<Statement>, t: Statement)
    ensures TermsOf(done + {t}) == TermsOf(done) + {t.s} + {t.p} + {t.o}
  {
  }

  function AppendAxioms(v: Vocabulary, axioms: seq<Statement>, x: Term): (r: seq<Statement>)
    ensures Members(r) == Members(axioms) + {Statement(x, v.ty, v.membership), Statement(x, v.subPropertyOf, v.member)}
  {
    axioms + [Statement(x, v.ty, v.membership), Statement(x, v.subPropertyOf, v.member)]
  }

  // --- Pushing what is new ---------------------------------------------------------------------------------

  // Every statement of the batch not already known, in some order.
  method PushEach(batch: set<Statement>, known: set<Statement>, onto: seq<Statement>)
    returns (known': set<Statement>, onto': seq<Statement>)
    ensures known' == known + batch
    ensures Members(onto') == Members(onto) + (batch - known)
  {
    known', onto' := known, onto;
    var left := batch;
    ghost var done: set<Statement> := {};
    while left != {}
      invariant left + done == batch && left !! done
      invariant known' == known + done && Members(onto') == Members(onto) + (done - known)
      decreases left
    {
      var t :| t in left;
      if t !in known' {
        MembersSnoc(onto', t);
        onto' := onto' + [t];
      }
      PushedOne(known, done, t);
      known' := known' + {t};
      left, done := left - {t}, done + {t};
    }
  }

  lemma MembersSnoc(xs: seq<Statement>, t: Statement)
    ensures Members(xs + [t]) == Members(xs) + {t}
  {
  }

  lemma PushedOne(known: set<Statement>, done: set<Statement>, t: Statement)
    ensures (done + {t}) - known == (done - known) + (if t in known then {} else {t})
    ensures known + done + {t} == known + (done + {t})
  {
  }

  // The container axioms, taken in before the hierarchies are closed.
  method TakeAxioms(v: Vocabulary, axioms: seq<Statement>, asserted: set<Statement>, superProperties: Hierarchy)
    returns (known: set<Statement>, gained: seq<Statement>)
    requires superProperties.links == Read(asserted, v.subPropertyOf)
    modifies superProperties
    ensures known == asserted + Members(axioms) && Members(gained) == known - asserted
    ensures superProperties.links == Read(known, v.subPropertyOf)
  {
    known, gained := asserted, [];
    for i := 0 to |axioms|
      invariant known == asserted + Members(axioms[..i])
      invariant Members(gained) == known - asserted
      invariant superProperties.links == Read(known, v.subPropertyOf)
    {
      var t := axioms[i];
      assert Members(axioms[..i + 1]) == Members(axioms[..i]) + {t};
      ReadMore(known, t, v.subPropertyOf);
      if t !in known {
        gained := gained + [t];
        assert Members(gained) == Members(gained[..|gained| - 1]) + {t};
      }
      known := known + {t};
      if t.p == v.subPropertyOf {
        superProperties.Add(t.s, t.o);
      }
    }
    assert axioms[..|axioms|] == axioms;
  }

  lemma AxiomsElsewhere(v: Vocabulary, asserted: set<Statement>, p: Term)
    requires p != v.ty && p != v.subPropertyOf
    ensures Read(WithAxioms(v, asserted), p) == Read(asserted, p)
  {
    var more := WithAxioms(v, asserted);
    forall s
      ensures Objects(more, p, s) == Objects(asserted, p, s)
    {
      assert forall t :: t in more && t.p == p ==> t in asserted;
    }
    assert forall t :: t in more && t.p == p <==> t in asserted && t.p == p;
    assert Read(more, p).Keys == Read(asserted, p).Keys;
  }

  // Everything the fixpoint starts from.
  method Prepare(v: Vocabulary, asserted: set<Statement>)
    returns (schema: Schema, known: set<Statement>, gained: seq<Statement>)
    requires v.Valid()
    ensures schema == SchemaOf(v, asserted) && known == Start(v, asserted)
    ensures Members(gained) == known - asserted
  {
    var superProperties, superClasses, domains, ranges := ReadSchema(v, asserted);
    var axioms := FindContainers(v, asserted);
    known, gained := TakeAxioms(v, axioms, asserted, superProperties);
    assert known == WithAxioms(v, asserted);
    AxiomsElsewhere(v, asserted, v.subClassOf);
    AxiomsElsewhere(v, asserted, v.domain);
    AxiomsElsewhere(v, asserted, v.range);
    ranges.Add(v.reifies, v.proposition);
    superProperties.CloseTransitively();
    superClasses.CloseTransitively();
    ClosureIs(Read(known, v.subPropertyOf), superProperties.links);
    ClosureIs(Read(known, v.subClassOf), superClasses.links);
    schema := Schema(superProperties.links, superClasses.links, domains.links, ranges.links);
    known, gained := PushEach(LinksAs(schema.superProperties, v.subPropertyOf), known, gained);
    known, gained := PushEach(LinksAs(schema.superClasses, v.subClassOf), known, gained);
  }

  // --- The fixpoint ----------------------------------------------------------------------------------------

  // Between rounds: nothing beyond what is forced is known, and every statement not on the frontier has
  // been acted on.
  ghost predicate Saturating(v: Vocabulary, schema: Schema, start: set<Statement>, known: set<Statement>, waiting: set<Statement>) {
    && start <= known && Forced(v, schema, start, known)
    && known <= Universe(Vocab(v, schema, start))
    && forall t :: t in known && t !in waiting ==> Derived(v, schema, t) <= known
  }

  lemma SaturateOne(v: Vocabulary, schema: Schema, start: set<Statement>, known: set<Statement>, waiting: set<Statement>, t: Statement)
    requires Saturating(v, schema, start, known, waiting) && t in known
    ensures var more := Derived(v, schema, t);
            Saturating(v, schema, start, known + more, (waiting - {t}) + (more - known))
  {
    DerivedInUniverse(v, schema, start, t);
    ForcedMore(v, schema, start, known, t, Derived(v, schema, t));
  }

  // All that the rules make of what is known, and what is known.
  ghost function Widened(v: Vocabulary, schema: Schema, known: set<Statement>): set<Statement> {
    known + set t, d | t in known && d in Derived(v, schema, t) :: d
  }

  ghost function Widening(v: Vocabulary, schema: Schema): set<Statement> -> set<Statement> {
    known => Widened(v, schema, known)
  }

  // What is known after so many rounds, whatever order a round takes its statements in.
  ghost function Stage(step: set<Statement> -> set<Statement>, start: set<Statement>, n: nat): set<Statement> {
    if n == 0 then start else step(Stage(step, start, n - 1))
  }

  ghost predicate Moves(step: set<Statement> -> set<Statement>, start: set<Statement>, k: nat)
    requires k > 0
  {
    Stage(step, start, k) != Stage(step, start, k - 1)
  }

  // The first round to find nothing is the n-th; there is none when there is nothing to start from.
  ghost predicate TakesRounds(step: set<Statement> -> set<Statement>, start: set<Statement>, n: nat) {
    && (n == 0 <==> start == {}) && (n > 0 ==> !Moves(step, start, n))
    && forall k :: 0 < k < n ==> Moves(step, start, k)
  }

  ghost predicate FromSome(v: Vocabulary, schema: Schema, known: set<Statement>, more: set<Statement>) {
    forall d :: d in more ==> exists t :: t in known && d in Derived(v, schema, t)
  }

  lemma WidenedIs(v: Vocabulary, schema: Schema, known: set<Statement>, known': set<Statement>)
    requires known <= known' && FromSome(v, schema, known, known' - known)
    requires forall t :: t in known ==> Derived(v, schema, t) <= known'
    ensures known' == Widened(v, schema, known)
  {
    forall d | d in known'
      ensures d in Widened(v, schema, known)
    {
      if d !in known {
        assert d in known' - known;
      }
    }
  }

  lemma FromMore(v: Vocabulary, schema: Schema, known: set<Statement>, known': set<Statement>, t: Statement)
    requires FromSome(v, schema, known, known' - known) && t in known
    ensures FromSome(v, schema, known, known' + Derived(v, schema, t) - known)
  {
    forall d | d in known' + Derived(v, schema, t) - known
      ensures exists u :: u in known && d in Derived(v, schema, u)
    {
      if d in known' {
        assert d in known' - known;
      }
    }
  }

  // One frontier statement through the four rules.
  method Apply(v: Vocabulary, schema: Schema, t: Statement, known: set<Statement>, next: seq<Statement>)
    returns (known': set<Statement>, next': seq<Statement>)
    ensures known' == known + Derived(v, schema, t)
    ensures Members(next') == Members(next) + (Derived(v, schema, t) - known)
  {
    known', next' := PushEach(Rdfs7(schema, t), known, next);
    known', next' := PushEach(Rdfs2(v, schema, t), known', next');
    known', next' := PushEach(Rdfs3(v, schema, t), known', next');
    known', next' := PushEach(Rdfs9(v, schema, t), known', next');
  }

  method Round(v: Vocabulary, schema: Schema, ghost start: set<Statement>, frontier: seq<Statement>, known: set<Statement>)
    returns (known': set<Statement>, next: seq<Statement>)
    requires Saturating(v, schema, start, known, Members(frontier)) && Members(frontier) <= known
    ensures known <= known' && Members(next) == known' - known
    ensures Saturating(v, schema, start, known', Members(next))
    ensures known' == Widened(v, schema, known)
  {
    known', next := known, [];
    for i := 0 to |frontier|
      invariant known <= known' && Members(next) == known' - known
      invariant FromSome(v, schema, known, known' - known)
      invariant Saturating(v, schema, start, known', Members(frontier[i..]) + Members(next))
    {
      var t := frontier[i];
      ghost var waiting := Members(frontier[i..]) + Members(next);
      ghost var before := known';
      assert t in Members(frontier);
      assert Members(frontier[i..]) == Members(frontier[i + 1..]) + {t} by {
        assert frontier[i..] == [t] + frontier[i + 1..];
      }
      SaturateOne(v, schema, start, known', waiting, t);
      FromMore(v, schema, known, known', t);
      known', next := Apply(v, schema, t, known', next);
      Waiting(v, schema, start, known', (waiting - {t}) + (Derived(v, schema, t) - before), Members(frontier[i + 1..]) + Members(next));
    }
    assert Members(frontier[|frontier|..]) == {};
    ActedOn(v, schema, start, known, known', Members(next));
    WidenedIs(v, schema, known, known');
  }

  lemma ActedOn(v: Vocabulary, schema: Schema, start: set<Statement>, known: set<Statement>, known': set<Statement>, next: set<Statement>)
    requires known <= known' && next == known' - known && Saturating(v, schema, start, known', next)
    ensures forall t :: t in known ==> Derived(v, schema, t) <= known'
  {
  }

  lemma Waiting(v: Vocabulary, schema: Schema, start: set<Statement>, known: set<Statement>, less: set<Statement>, more: set<Statement>)
    requires Saturating(v, schema, start, known, less) && less <= more
    ensures Saturating(v, schema, start, known, more)
  {
  }

  // A round that found anything leaves less to find.
  lemma Progress(all: set<Statement>, known: set<Statement>, known': set<Statement>, next: seq<Statement>)
    requires known <= known' <= all && Members(next) == known' - known
    ensures if next == [] then all - known' == all - known else all - known' < all - known
  {
    if next == [] {
      assert Members(next) == {};
      forall t | t in known'
        ensures t in known
      {
        assert t !in known' - known;
      }
      assert known' == known;
    } else {
      assert next[0] in Members(next);
      assert next[0] in all - known && next[0] !in all - known';
    }
  }

  lemma Gained(asserted: set<Statement>, known: set<Statement>, known': set<Statement>, gained: seq<Statement>, next: seq<Statement>)
    requires asserted <= known <= known' && Members(gained) == known - asserted && Members(next) == known' - known
    ensures Members(gained + next) == known' - asserted
  {
    MembersBoth(gained, next);
  }

  lemma StartsSaturating(v: Vocabulary, schema: Schema, start: set<Statement>)
    ensures Saturating(v, schema, start, start, start)
  {
    StartInUniverse(v, schema, start);
  }

  lemma MembersBoth(xs: seq<Statement>, ys: seq<Statement>)
    ensures Members(xs + ys) == Members(xs) + Members(ys)
  {
  }

  // Rounds until one produces nothing, or the closure passes its budget. It ends on every input: no rule
  // invents a term, so there are only so many statements to find.
  method Saturate(v: Vocabulary, schema: Schema, asserted: set<Statement>, start: set<Statement>, gained0: seq<Statement>, budget: nat)
    returns (ok: bool, known: set<Statement>, gained: seq<Statement>, rounds: nat)
    requires asserted <= start && Members(gained0) == start - asserted
    ensures ok ==> IsLeast(v, schema, start, known) && Members(gained) == known - asserted
    ensures start <= known && Forced(v, schema, start, known)
    ensures !ok ==> |known - asserted| > budget
    ensures ok ==> TakesRounds(Widening(v, schema), start, rounds)
  {
    known, gained, rounds := start, gained0, 0;
    var frontier := Listed(known);
    assert Members(frontier) == start;
    StartsSaturating(v, schema, start);
    ghost var step, last := Widening(v, schema), start;
    ghost var all := Universe(Vocab(v, schema, start));
    while frontier != []
      invariant Saturating(v, schema, start, known, Members(frontier)) && Members(frontier) <= known
      invariant Members(gained) == known - asserted
      invariant Reached(step, start, known, Members(frontier), rounds)
      invariant last <= known && (rounds > 0 ==> last == Stage(step, start, rounds - 1))
      decreases all - known, frontier != []
    {
      ghost var before := known;
      var next: seq<Statement>;
      assert frontier[0] in Members(frontier);
      known, next := Round(v, schema, start, frontier, known);
      ReachedNext(step, start, before, Members(frontier), known, Members(next), rounds);
      rounds, last := rounds + 1, before;
      Progress(all, before, known, next);
      if |known - asserted| > budget {
        return false, known, gained, rounds;
      }
      Gained(asserted, before, known, gained, next);
      gained, frontier := gained + next, next;
    }
    assert Members(frontier) == {};
    ReachedEnd(step, start, known, rounds);
    ok := true;
  }

  // So many rounds in, with these still to act on.
  ghost predicate Reached(step: set<Statement> -> set<Statement>, start: set<Statement>, known: set<Statement>, waiting: set<Statement>, rounds: nat) {
    && known == Stage(step, start, rounds) && (rounds > 0 ==> start != {})
    && (forall k :: 0 < k < rounds ==> Moves(step, start, k))
    && waiting == if rounds == 0 then start else known - Stage(step, start, rounds - 1)
  }

  lemma ReachedNext(step: set<Statement> -> set<Statement>, start: set<Statement>, known: set<Statement>, waiting: set<Statement>,
                    known': set<Statement>, next: set<Statement>, rounds: nat)
    requires Reached(step, start, known, waiting, rounds) && waiting != {} && known' == step(known) && next == known' - known
    ensures Reached(step, start, known', next, rounds + 1)
  {
    if rounds > 0 {
      assert Moves(step, start, rounds);
    }
  }

  lemma ReachedEnd(step: set<Statement> -> set<Statement>, start: set<Statement>, known: set<Statement>, rounds: nat)
    requires Reached(step, start, known, {}, rounds)
    requires rounds > 0 ==> Stage(step, start, rounds - 1) <= known
    ensures TakesRounds(step, start, rounds)
  {
    if rounds > 0 {
      NothingLeft(known, Stage(step, start, rounds - 1));
    }
  }

  lemma NothingLeft(a: set<Statement>, b: set<Statement>)
    requires a - b == {} && b <= a
    ensures a == b
  {
    forall t | t in a
      ensures t in b
    {
      assert t !in a - b;
    }
  }

  // --- The reflexive pass and the write --------------------------------------------------------------------

  // The positions read one statement at a time.
  method ClassesAndProperties(v: Vocabulary, known: set<Statement>) returns (classes: set<Term>, properties: set<Term>)
    requires v.Valid()
    ensures classes == Classes(v, known) && properties == Properties(v, known)
  {
    classes, properties := {}, {};
    var left := known;
    ghost var done: set<Statement> := {};
    while left != {}
      invariant left + done == known && left !! done
      invariant classes == Classes(v, done) && properties == Properties(v, done)
      decreases left
    {
      var t :| t in left;
      ClassesMore(v, done, t);
      PropertiesMore(v, done, t);
      properties := properties + {t.p};
      if t.p == v.ty {
        classes := classes + {t.o};
      } else if t.p == v.subClassOf {
        classes := classes + {t.s};
        classes := classes + {t.o};
      } else if t.p == v.subPropertyOf {
        properties := properties + {t.s};
        properties := properties + {t.o};
      } else if t.p == v.domain || t.p == v.range {
        properties := properties + {t.s};
        classes := classes + {t.o};
      }
      left, done := left - {t}, done + {t};
    }
    assert done == known;
  }

  lemma ClassesMore(v: Vocabulary, done: set<Statement>, t: Statement)
    ensures Classes(v, done + {t}) == Classes(v, done)
      + (if t.p == v.ty || t.p == v.subClassOf || t.p == v.domain || t.p == v.range then {t.o} else {})
      + (if t.p == v.subClassOf then {t.s} else {})
  {
  }

  lemma PropertiesMore(v: Vocabulary, done: set<Statement>, t: Statement)
    ensures Properties(v, done + {t}) == Properties(v, done) + {t.p}
      + (if t.p == v.subPropertyOf || t.p == v.domain || t.p == v.range then {t.s} else {})
      + (if t.p == v.subPropertyOf then {t.o} else {})
  {
  }

  method AddReflexive(v: Vocabulary, asserted: set<Statement>, known: set<Statement>, gained: seq<Statement>)
    returns (known': set<Statement>, gained': seq<Statement>)
    requires v.Valid() && asserted <= known && Members(gained) == known - asserted
    ensures known' == Full(v, known) && Members(gained') == known' - asserted
  {
    var classes, properties := ClassesAndProperties(v, known);
    known', gained' := PushEach(set c | c in classes && c.CanBeSubject() :: Statement(c, v.subClassOf, c), known, gained);
    known', gained' := PushEach(set p | p in properties && p.CanBeSubject() :: Statement(p, v.subPropertyOf, p), known', gained');
  }

  class Store {
    var quads: set<Quad>

    // `insert_encoded`: whether the quad was new.
    method Insert(q: Quad) returns (inserted: bool)
      modifies this
      ensures inserted == (q !in old(quads)) && quads == old(quads) + {q}
    {
      inserted := q !in quads;
      quads := quads + {q};
    }
  }

  function Statements(quads: set<Quad>): set<Statement> {
    set q | q in quads :: Statement(q.s, q.p, q.o)
  }

  function QuadOf(t: Statement, graph: Option<Term>): Quad {
    Quad(t.s, t.p, t.o, graph)
  }

  // What a run writes of a list it gained.
  function Written(ts: set<Statement>, asserted: set<Statement>, graph: Option<Term>): set<Quad> {
    set t | t in ts && t.s.CanBeSubject() && t !in asserted :: QuadOf(t, graph)
  }

  predicate Writes(t: Statement, asserted: set<Statement>) {
    t.s.CanBeSubject() && t !in asserted
  }

  lemma WrittenMore(ts: set<Statement>, t: Statement, asserted: set<Statement>, graph: Option<Term>)
    ensures Written(ts + {t}, asserted, graph) == Written(ts, asserted, graph) + if Writes(t, asserted) then {QuadOf(t, graph)} else {}
  {
  }

  ghost predicate Permitted(qs: set<Quad>, permits: Quad -> bool) {
    forall q :: q in qs ==> permits(q)
  }

  // One statement. `None` is a refusal; otherwise whether a quad was added.
  method WriteOne(store: Store, t: Statement, asserted: set<Statement>, graph: Option<Term>, permits: Quad -> bool)
    returns (inserted: Option<bool>)
    modifies store
    ensures inserted.None? <==> Writes(t, asserted) && !permits(QuadOf(t, graph))
    ensures store.quads == old(store.quads) + if inserted.Some? && Writes(t, asserted) then {QuadOf(t, graph)} else {}
    ensures inserted.Some? ==> Counted(old(store.quads), store.quads, if inserted.value then 1 else 0)
  {
    if !t.s.CanBeSubject() {
      return Some(false);
    }
    if t in asserted {
      return Some(false);
    }
    var q := QuadOf(t, graph);
    if !permits(q) {
      return None;
    }
    var added := store.Insert(q);
    if !added {
      assert store.quads == old(store.quads);
    }
    inserted := Some(added);
  }

  method Write(store: Store, gained: seq<Statement>, asserted: set<Statement>, graph: Option<Term>, permits: Quad -> bool)
    returns (ok: bool, added: nat)
    modifies store
    ensures ok == Permitted(Written(Members(gained), asserted, graph), permits)
    ensures ok ==> store.quads == old(store.quads) + Written(Members(gained), asserted, graph)
    ensures ok ==> |store.quads| == |old(store.quads)| + added
    ensures old(store.quads) <= store.quads <= old(store.quads) + Written(Members(gained), asserted, graph)
  {
    added := 0;
    WroteNothing(store.quads, asserted, graph, permits);
    for i := 0 to |gained|
      invariant Wrote(old(store.quads), store.quads, Members(gained[..i]), asserted, graph, permits, added)
    {
      var t := gained[i];
      MembersSnoc(gained[..i], t);
      assert gained[..i + 1] == gained[..i] + [t];
      ghost var before := store.quads;
      var inserted := WriteOne(store, t, asserted, graph, permits);
      if inserted.None? {
        Refusal(gained, i, asserted, graph, permits);
        assert Unlock(Key);
        return false, added;
      }
      WroteOne(old(store.quads), before, store.quads, Members(gained[..i]), t, asserted, graph, permits, added, inserted.value);
      added := added + if inserted.value then 1 else 0;
    }
    assert gained[..|gained|] == gained;
    assert Unlock(Key);
    ok := true;
  }

  ghost predicate Counted(before: set<Quad>, now: set<Quad>, added: nat) {
    |now| == |before| + added
  }

  // The state of the write once the statements `done` have been gone through.
  ghost predicate Wrote(before: set<Quad>, now: set<Quad>, done: set<Statement>, asserted: set<Statement>, graph: Option<Term>,
                        permits: Quad -> bool, added: nat)
  {
    forall k {:trigger Unlock(k)} :: Unlock(k) ==>
      && now == before + Written(done, asserted, graph)
      && Permitted(Written(done, asserted, graph), permits) && Counted(before, now, added)
  }

  lemma WroteNothing(before: set<Quad>, asserted: set<Statement>, graph: Option<Term>, permits: Quad -> bool)
    ensures Wrote(before, before, Members([]), asserted, graph, permits, 0)
  {
    assert Written(Members([]), asserted, graph) == {};
  }

  lemma WroteOne(before: set<Quad>, mid: set<Quad>, now: set<Quad>, done: set<Statement>, t: Statement, asserted: set<Statement>,
                 graph: Option<Term>, permits: Quad -> bool, added: nat, inserted: bool)
    requires Wrote(before, mid, done, asserted, graph, permits, added)
    requires Writes(t, asserted) ==> permits(QuadOf(t, graph))
    requires now == mid + (if Writes(t, asserted) then {QuadOf(t, graph)} else {}) && Counted(mid, now, if inserted then 1 else 0)
    ensures Wrote(before, now, done + {t}, asserted, graph, permits, added + if inserted then 1 else 0)
  {
    assert Unlock(Key);
    WrittenMore(done, t, asserted, graph);
  }

  lemma Refusal(gained: seq<Statement>, i: nat, asserted: set<Statement>, graph: Option<Term>, permits: Quad -> bool)
    requires i < |gained| && Writes(gained[i], asserted) && !permits(QuadOf(gained[i], graph))
    ensures !Permitted(Written(Members(gained), asserted, graph), permits)
    ensures Written(Members(gained[..i]), asserted, graph) <= Written(Members(gained), asserted, graph)
  {
    assert gained[i] in Members(gained);
    assert QuadOf(gained[i], graph) in Written(Members(gained), asserted, graph);
    assert Members(gained[..i]) <= Members(gained);
  }

  // --- The whole run ---------------------------------------------------------------------------------------

  ghost predicate Overruns(v: Vocabulary, asserted: set<Statement>, budget: nat) {
    forall known :: IsEntailed(v, asserted, known) ==> |Full(v, known) - asserted| > budget
  }

  lemma PartCount(part: set<Statement>, whole: set<Statement>, asserted: set<Statement>)
    requires part <= whole
    ensures |part - asserted| <= |whole - asserted|
  {
    assert whole - asserted == (part - asserted) + ((whole - asserted) - (part - asserted));
  }

  // What a finished run leaves: the closure and its reflexive statements, less what was asserted, written to one graph.
  ghost predicate Completed(v: Vocabulary, before: set<Quad>, after: set<Quad>, graph: Option<Term>, known: set<Statement>, added: nat) {
    && IsEntailed(v, Statements(before), known)
    && after == before + Written(Full(v, known), Statements(before), graph)
    && |after| == |before| + added
  }

  // Read every graph, close, and write what is new to one. A run that is over budget would have been over it
  // with the whole closure, and writes nothing; one the policy refuses may have written part.
  method Run(v: Vocabulary, store: Store, graph: Option<Term>, budget: nat, permits: Quad -> bool)
    returns (outcome: Outcome, ghost known: set<Statement>)
    requires v.Valid()
    modifies store
    ensures outcome.Entailed? ==>
      && Completed(v, old(store.quads), store.quads, graph, known, outcome.added)
      && |Full(v, known) - Statements(old(store.quads))| <= budget
      && TakesRounds(Widening(v, SchemaOf(v, Statements(old(store.quads)))), Start(v, Statements(old(store.quads))), outcome.rounds)
    ensures outcome.OverBudget? ==> store.quads == old(store.quads) && Overruns(v, Statements(old(store.quads)), budget)
    ensures outcome.Refused? ==>
      && IsEntailed(v, Statements(old(store.quads)), known)
      && !Permitted(Written(Full(v, known), Statements(old(store.quads)), graph), permits)
      && old(store.quads) <= store.quads <= old(store.quads) + Written(Full(v, known), Statements(old(store.quads)), graph)
  {
    var asserted := Statements(store.quads);
    var schema, start, gained := Prepare(v, asserted);
    var ok, closure, rounds := false, start, 0;
    ok, closure, gained, rounds := Saturate(v, schema, asserted, start, gained, budget);
    known := closure;
    if !ok {
      Overrun(v, asserted, closure, budget);
      return OverBudget, known;
    }
    closure, gained := AddReflexive(v, asserted, closure, gained);
    if |closure - asserted| > budget {
      FullOverrun(v, asserted, known, budget);
      return OverBudget, known;
    }
    var added: nat;
    ok, added := Write(store, gained, asserted, graph, permits);
    WrittenOfGained(closure, asserted, graph);
    outcome := if ok then Entailed(added, rounds) else Refused;
  }

  lemma WrittenOfGained(all: set<Statement>, asserted: set<Statement>, graph: Option<Term>)
    ensures Written(all - asserted, asserted, graph) == Written(all, asserted, graph)
  {
  }

  lemma Overrun(v: Vocabulary, asserted: set<Statement>, part: set<Statement>, budget: nat)
    requires Forced(v, SchemaOf(v, asserted), Start(v, asserted), part) && |part - asserted| > budget
    ensures Overruns(v, asserted, budget)
  {
    forall known | IsEntailed(v, asserted, known)
      ensures |Full(v, known) - asserted| > budget
    {
      PartCount(part, Full(v, known), asserted);
    }
  }

  lemma FullOverrun(v: Vocabulary, asserted: set<Statement>, known: set<Statement>, budget: nat)
    requires IsEntailed(v, asserted, known) && |Full(v, known) - asserted| > budget
    ensures Overruns(v, asserted, budget)
  {
    forall other | IsEntailed(v, asserted, other)
      ensures |Full(v, other) - asserted| > budget
    {
      LeastIsUnique(v, SchemaOf(v, asserted), Start(v, asserted), known, other);
    }
  }
}
