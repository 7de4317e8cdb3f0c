/**
 One store materialised again and again (crates/holos-engine/src/entailment.rs, `materialise`): what the second and the
 third call add, told from what the store asserted before the first.
 */
module Reruns {
  import opened Locks
  import opened Options
  import opened Rdf
  import opened Hierarchies
  import opened Rdfs
  import opened Materialise
  import opened Rematerialise

  predicate Subjects(asserted: set<Statement>) {
    forall t :: t in asserted ==> t.s.CanBeSubject()
  }

  // Triples a store can hold: a subject that can be one, and an IRI between.
  predicate Lawful(asserted: set<Statement>) {
    forall t :: t in asserted ==> t.s.CanBeSubject() && t.p.Iri?
  }

  // --- What a finished run leaves in the store ---------------------------------------------------------------

  // What the store says after a run that finished is the closure and its reflexive statements, no more and no less.
  lemma AfterRun(v: Vocabulary, before: set<Quad>, after: set<Quad>, graph: Option<Term>, known: set<Statement>, added: nat)
    requires v.Apart() && Subjects(Statements(before)) && Completed(v, before, after, graph, known, added)
    ensures Statements(after) == Full(v, known) && Subjects(Full(v, known))
  {
    var asserted, full := Statements(before), Full(v, known);
    FullIsWritable(v, asserted, known);
    forall t | t in full
      ensures t in Statements(after)
    {
      if t in asserted {
        var q :| q in before && t == Statement(q.s, q.p, q.o);
        assert q in after;
      } else {
        assert QuadOf(t, graph) in after;
      }
    }
    forall t | t in Statements(after)
      ensures t in full
    {
      var q :| q in after && t == Statement(q.s, q.p, q.o);
      if q in before {
        assert t in asserted;
      }
    }
  }

  // And what it counts as added is what the store did not say before.
  lemma AddedCounts(v: Vocabulary, before: set<Quad>, after: set<Quad>, graph: Option<Term>, known: set<Statement>, added: nat)
    requires v.Apart() && Subjects(Statements(before)) && Completed(v, before, after, graph, known, added)
    ensures added == |Full(v, known) - Statements(before)|
  {
    var asserted, full := Statements(before), Full(v, known);
    FullIsWritable(v, asserted, known);
    WrittenIsNew(full, before, graph);
    TogetherSize(before, Written(full, asserted, graph), added);
    WrittenSize(full - asserted, graph);
  }

  lemma WrittenIsNew(full: set<Statement>, before: set<Quad>, graph: Option<Term>)
    requires forall t :: t in full ==> t.s.CanBeSubject()
    ensures Written(full, Statements(before), graph) == AsQuads(full - Statements(before), graph)
    ensures Written(full, Statements(before), graph) !! before
  {
    forall q | q in Written(full, Statements(before), graph)
      ensures q !in before
    {
      var t :| t in full && t !in Statements(before) && q == QuadOf(t, graph);
      assert q in before ==> t in Statements(before);
    }
  }

  lemma TogetherSize<A>(a: set<A>, b: set<A>, added: nat)
    requires a !! b && |a + b| == |a| + added
    ensures added == |b|
  {
  }

  function AsQuads(ts: set<Statement>, graph: Option<Term>): set<Quad> {
    set t | t in ts :: QuadOf(t, graph)
  }

  lemma {:induction false} WrittenSize(ts: set<Statement>, graph: Option<Term>)
    ensures |AsQuads(ts, graph)| == |ts|
  {
    if ts == {} {
      assert AsQuads(ts, graph) == {};
    } else {
      var t :| t in ts;
      WrittenSize(ts - {t}, graph);
      assert AsQuads(ts, graph) == AsQuads(ts - {t}, graph) + {QuadOf(t, graph)};
      assert QuadOf(t, graph) !in AsQuads(ts - {t}, graph);
    }
  }

  // --- What the first run leaves unsaid, told from the assertions --------------------------------------------

  // Some statement is about properties being under properties, written or implied by a container position, or limits what
  // may stand on either side of that predicate.
  predicate NamesSubProperties(v: Vocabulary, asserted: set<Statement>) {
    exists t :: t in WithAxioms(v, asserted) && (t.p == v.subPropertyOf || (t.s == v.subPropertyOf && (t.p == v.domain || t.p == v.range)))
  }

  // Some statement says a class is under a class, or something of `rdfs:subClassOf` as a property.
  predicate NamesSubClasses(v: Vocabulary, asserted: set<Statement>) {
    exists t :: t in WithAxioms(v, asserted) && OfSubClass(v, t)
  }

  predicate OfSubClass(v: Vocabulary, t: Statement) {
    || t.p == v.subClassOf
    || (t.p == v.subPropertyOf && (t.s == v.subClassOf || t.o == v.subClassOf))
    || ((t.p == v.domain || t.p == v.range) && t.s == v.subClassOf)
  }

  // A statement that makes a class of a term that can be a subject: by its predicate, or by a predicate above that one.
  ghost predicate MakesClass(v: Vocabulary, schema: Schema, t: Statement) {
    || (t.p in {v.ty, v.subClassOf, v.domain, v.range} && t.o.CanBeSubject())
    || (t.p == v.subClassOf && t.s.CanBeSubject())
    || (t.o.CanBeSubject() && (t.p == v.reifies || v.reifies in Next(schema.superProperties, t.p) || v.ty in Next(schema.superProperties, t.p)))
  }

  ghost predicate HasClass(v: Vocabulary, asserted: set<Statement>) {
    exists t :: t in WithAxioms(v, asserted) && MakesClass(v, SchemaOf(v, asserted), t)
  }

  lemma ClosedAbove(m: Links, x: Term, y: Term, z: Term)
    requires y in Next(Closure(m), x) && z in Next(Closure(m), y)
    ensures z == x || z in Next(Closure(m), x)
  {
    ClosureAt(m, x, y);
    ClosureAt(m, y, z);
    AboveTwice(m, x, y, z);
    ClosureAt(m, x, z);
  }

  // Both ends of a link of a closed hierarchy are ends of links that were read.
  lemma ClosedEnds(known: set<Statement>, p: Term, x: Term, y: Term)
    requires y in Next(Closure(Read(known, p)), x)
    ensures (exists o :: Statement(x, p, o) in known) && exists s :: Statement(s, p, y) in known
  {
    var m := Read(known, p);
    ClosureAt(m, x, y);
    var w :| Walk(m, w) && w[0] == x && w[|w| - 1] == y;
    ReadAt(known, p, w[0]);
    ReadAt(known, p, w[|w| - 2]);
    assert w[0 + 1] in Next(m, w[0]);
    assert w[|w| - 2 + 1] in Next(m, w[|w| - 2]);
    assert Statement(x, p, w[1]) in known;
    assert Statement(w[|w| - 2], p, y) in known;
  }

  ghost function Classless(v: Vocabulary, asserted: set<Statement>): Statement -> bool {
    (t: Statement) => !MakesClass(v, SchemaOf(v, asserted), t)
  }

  lemma StartClassless(v: Vocabulary, asserted: set<Statement>, t: Statement)
    requires v.Apart() && !HasClass(v, asserted) && t in Start(v, asserted)
    ensures !MakesClass(v, SchemaOf(v, asserted), t)
  {
    var schema, known := SchemaOf(v, asserted), WithAxioms(v, asserted);
    if t !in known {
      var p := t.p;
      StartSchema(v, asserted, t);
      ClosedEnds(known, p, t.s, t.o);
      var o :| Statement(t.s, p, o) in known;
      var s :| Statement(s, p, t.o) in known;
      assert !MakesClass(v, schema, Statement(t.s, p, o));
      assert !MakesClass(v, schema, Statement(s, p, t.o));
    }
  }

  lemma UpwardClassless(v: Vocabulary, asserted: set<Statement>, t: Statement, q: Term)
    requires v.Apart() && q !in v.Schematic() && !MakesClass(v, SchemaOf(v, asserted), t)
    requires q in Next(SchemaOf(v, asserted).superProperties, t.p)
    ensures !MakesClass(v, SchemaOf(v, asserted), Statement(t.s, q, t.o))
  {
    var m := Read(WithAxioms(v, asserted), v.subPropertyOf);
    if v.reifies in Next(Closure(m), q) {
      ClosedAbove(m, t.p, q, v.reifies);
    }
    if v.ty in Next(Closure(m), q) {
      ClosedAbove(m, t.p, q, v.ty);
    }
  }

  // Nothing that makes no class is named a class by a domain, a range or a class above.
  lemma NoClassNamed(v: Vocabulary, asserted: set<Statement>, p: Term, c: Term)
    requires v.Apart() && !HasClass(v, asserted)
    ensures c in Next(SchemaOf(v, asserted).domains, p) ==> !c.CanBeSubject()
    ensures c in Next(SchemaOf(v, asserted).ranges, p) ==> !c.CanBeSubject() || (p == v.reifies && c == v.proposition)
    ensures c in Next(SchemaOf(v, asserted).superClasses, p) ==> !c.CanBeSubject()
  {
    var schema, known := SchemaOf(v, asserted), WithAxioms(v, asserted);
    ReadAt(known, v.domain, p);
    ReadAt(known, v.range, p);
    if c in Next(schema.domains, p) {
      assert !MakesClass(v, schema, Statement(p, v.domain, c));
    }
    if c in Next(Read(known, v.range), p) {
      assert !MakesClass(v, schema, Statement(p, v.range, c));
    }
    if c in Next(schema.superClasses, p) {
      ClosedEnds(known, v.subClassOf, p, c);
      var s :| Statement(s, v.subClassOf, c) in known;
      assert !MakesClass(v, schema, Statement(s, v.subClassOf, c));
    }
  }

  lemma DerivedClassless(v: Vocabulary, asserted: set<Statement>, t: Statement, d: Statement)
    requires v.Apart() && !HasClass(v, asserted) && (d.p in v.Schematic() ==> d in Start(v, asserted))
    requires !MakesClass(v, SchemaOf(v, asserted), t) && d in Derived(v, SchemaOf(v, asserted), t)
    ensures !MakesClass(v, SchemaOf(v, asserted), d)
  {
    if d.p in v.Schematic() {
      StartClassless(v, asserted, d);
    } else {
      OrdinaryClassless(v, asserted, t, d);
    }
  }

  lemma OrdinaryClassless(v: Vocabulary, asserted: set<Statement>, t: Statement, d: Statement)
    requires v.Apart() && !HasClass(v, asserted) && d.p !in v.Schematic()
    requires !MakesClass(v, SchemaOf(v, asserted), t) && d in Derived(v, SchemaOf(v, asserted), t)
    ensures !MakesClass(v, SchemaOf(v, asserted), d)
  {
    var schema := SchemaOf(v, asserted);
    DerivedIs(v, schema, t, d);
    if d.s == t.s && d.o == t.o && d.p in Next(schema.superProperties, t.p) {
      UpwardClassless(v, asserted, t, d.p);
    } else {
      NoClassNamed(v, asserted, t.p, d.o);
      NoClassNamed(v, asserted, t.o, d.o);
    }
  }

  lemma KnownClassless(v: Vocabulary, asserted: set<Statement>, known: set<Statement>)
    requires Settled(v, asserted, known) && !HasClass(v, asserted)
    ensures forall t :: t in known ==> !MakesClass(v, SchemaOf(v, asserted), t)
  {
    assert Unlock(Key);
    var schema, start := SchemaOf(v, asserted), Start(v, asserted);
    forall t | t in start
      ensures Classless(v, asserted)(t)
    {
      StartClassless(v, asserted, t);
    }
    forall t, d | t in known && Classless(v, asserted)(t) && d in Derived(v, schema, t)
      ensures Classless(v, asserted)(d)
    {
      assert d in known;
      DerivedClassless(v, asserted, t, d);
    }
    RuleInduction(v, schema, start, known, Classless(v, asserted));
    forall t | t in known
      ensures !MakesClass(v, schema, t)
    {
      assert Classless(v, asserted)(t);
    }
  }

  lemma NoClasses(v: Vocabulary, schema: Schema, known: set<Statement>)
    requires forall t :: t in known ==> !MakesClass(v, schema, t)
    ensures forall c :: c in Classes(v, known) ==> !c.CanBeSubject()
  {
  }

  lemma SomeClass(v: Vocabulary, asserted: set<Statement>, known: set<Statement>) returns (c: Term)
    requires v.Apart() && IsEntailed(v, asserted, known) && HasClass(v, asserted)
    ensures c in Classes(v, known) && c.CanBeSubject()
  {
    var schema := SchemaOf(v, asserted);
    var t :| t in WithAxioms(v, asserted) && MakesClass(v, schema, t);
    assert t in known;
    if t.p in {v.ty, v.subClassOf, v.domain, v.range} && t.o.CanBeSubject() {
      c := t.o;
    } else if t.p == v.subClassOf {
      c := t.s;
    } else if v.ty in Next(schema.superProperties, t.p) {
      assert Statement(t.s, v.ty, t.o) in Derived(v, schema, t);
      c := t.o;
    } else {
      var r := Statement(t.s, v.reifies, t.o);
      assert r == t || r in Derived(v, schema, t);
      assert v.proposition in Next(schema.ranges, v.reifies);
      assert Statement(t.o, v.ty, v.proposition) in Derived(v, schema, r);
      c := v.proposition;
    }
  }

  // --- The schema predicates in use after the first run --------------------------------------------------------

  lemma SubPropertiesUsed(v: Vocabulary, asserted: set<Statement>, known: set<Statement>)
    requires Settled(v, asserted, known)
    ensures v.subPropertyOf in Properties(v, known) <==> NamesSubProperties(v, asserted)
  {
    assert Unlock(Key);
    if v.subPropertyOf in Properties(v, known) {
      var t := UseOfSubProperty(v, known);
      SubPropertyStart(v, asserted, t);
    }
    if NamesSubProperties(v, asserted) {
      var t :| t in WithAxioms(v, asserted) && (t.p == v.subPropertyOf || (t.s == v.subPropertyOf && (t.p == v.domain || t.p == v.range)));
      assert t in known;
    }
  }

  lemma UseOfSubProperty(v: Vocabulary, known: set<Statement>) returns (t: Statement)
    requires v.subPropertyOf in Properties(v, known)
    ensures t in known && (t.p == v.subPropertyOf || (t.s == v.subPropertyOf && (t.p == v.domain || t.p == v.range)))
  {
    t :| t in known && (t.p == v.subPropertyOf || (t.s == v.subPropertyOf && (t.p == v.domain || t.p == v.range)));
  }

  lemma SubPropertyStart(v: Vocabulary, asserted: set<Statement>, t: Statement)
    requires v.Apart() && t in Start(v, asserted)
    requires t.p == v.subPropertyOf || (t.s == v.subPropertyOf && (t.p == v.domain || t.p == v.range))
    ensures NamesSubProperties(v, asserted)
  {
    StartSchema(v, asserted, t);
    if t !in WithAxioms(v, asserted) {
      ClosedEnds(WithAxioms(v, asserted), v.subPropertyOf, t.s, t.o);
    }
  }

  lemma SubClassesUsed(v: Vocabulary, asserted: set<Statement>, known: set<Statement>)
    requires Settled(v, asserted, known)
    ensures v.subClassOf in Properties(v, known) <==> NamesSubClasses(v, asserted)
  {
    if v.subClassOf in Properties(v, known) {
      SubClassNamed(v, asserted, known);
    }
    if NamesSubClasses(v, asserted) {
      var t :| t in WithAxioms(v, asserted) && OfSubClass(v, t);
      assert WithAxioms(v, asserted) <= known by {
        assert Unlock(Key);
      }
      assert t in known;
    }
  }

  lemma SubClassNamed(v: Vocabulary, asserted: set<Statement>, known: set<Statement>)
    requires Settled(v, asserted, known) && v.subClassOf in Properties(v, known)
    ensures NamesSubClasses(v, asserted)
  {
    var t := UseOfSubClass(v, known);
    assert Unlock(Key);
    SubClassStart(v, asserted, t);
  }

  lemma UseOfSubClass(v: Vocabulary, known: set<Statement>) returns (t: Statement)
    requires v.subClassOf in Properties(v, known)
    ensures t in known && OfSubClass(v, t)
  {
    t :| t in known && OfSubClass(v, t);
  }

  // A link of a closed hierarchy ends where links that were read end.
  lemma SubClassStart(v: Vocabulary, asserted: set<Statement>, t: Statement)
    requires v.Apart() && t in Start(v, asserted) && OfSubClass(v, t)
    ensures NamesSubClasses(v, asserted)
  {
    var known, p := WithAxioms(v, asserted), t.p;
    StartSchema(v, asserted, t);
    if t !in known {
      ClosedEnds(known, p, t.s, t.o);
      var o :| Statement(t.s, p, o) in known;
      var s :| Statement(s, p, t.o) in known;
      assert OfSubClass(v, Statement(t.s, p, o)) || OfSubClass(v, Statement(s, p, t.o));
    }
  }

  // --- What is still to say ----------------------------------------------------------------------------------------

  // The statements a second run adds, told from the assertions.
  ghost function Outstanding(v: Vocabulary, asserted: set<Statement>): set<Statement> {
    (if asserted != {} && !NamesSubProperties(v, asserted) then {Statement(v.subPropertyOf, v.subPropertyOf, v.subPropertyOf)} else {})
    + (if HasClass(v, asserted) && !NamesSubClasses(v, asserted) then {Statement(v.subClassOf, v.subPropertyOf, v.subClassOf)} else {})
  }

  lemma SaidAlready(v: Vocabulary, known: set<Statement>, p: Term)
    requires v.Apart() && p.CanBeSubject()
    ensures Statement(p, v.subPropertyOf, p) in Full(v, known) <==> p in Properties(v, known)
  {
  }

  lemma SubClassWhen(v: Vocabulary, asserted: set<Statement>, known: set<Statement>)
    requires Settled(v, asserted, known)
    ensures v.subClassOf in Properties(v, Full(v, known)) <==> NamesSubClasses(v, asserted) || HasClass(v, asserted)
  {
    assert Unlock(Key);
    SubClassesUsed(v, asserted, known);
    if HasClass(v, asserted) {
      var c := SomeClass(v, asserted, known);
      assert Statement(c, v.subClassOf, c) in Full(v, known);
    } else {
      KnownClassless(v, asserted, known);
      NoClasses(v, SchemaOf(v, asserted), known);
      NoLoops(v, known);
    }
  }

  lemma NoLoops(v: Vocabulary, known: set<Statement>)
    requires v.Apart() && forall c :: c in Classes(v, known) ==> !c.CanBeSubject()
    ensures v.subClassOf in Properties(v, Full(v, known)) <==> v.subClassOf in Properties(v, known)
  {
  }

  lemma NothingKnown(v: Vocabulary, known: set<Statement>)
    requires IsEntailed(v, {}, known)
    ensures known == {}
  {
    StartNothing(v);
    assert Closed(v, SchemaOf(v, {}), {});
  }

  lemma AssertedKnown(v: Vocabulary, asserted: set<Statement>, known: set<Statement>)
    requires IsEntailed(v, asserted, known)
    ensures asserted <= known
  {
  }

  lemma SubPropertyWhen(v: Vocabulary, asserted: set<Statement>, known: set<Statement>)
    requires IsEntailed(v, asserted, known) && Lawful(asserted)
    ensures v.subPropertyOf in Properties(v, Full(v, known)) <==> asserted != {}
  {
    if asserted == {} {
      NothingKnown(v, known);
      NothingReflexive(v);
      assert Properties(v, {}) == {};
    } else {
      AssertedKnown(v, asserted, known);
      SubPropertyOfUsed(v, asserted, known);
    }
  }

  lemma StillUnsaid(v: Vocabulary, full: set<Statement>)
    requires v.Apart()
    ensures var c, p := Statement(v.subClassOf, v.subPropertyOf, v.subClassOf), Statement(v.subPropertyOf, v.subPropertyOf, v.subPropertyOf);
            Unsaid(v, full) - full == (if v.subPropertyOf in Properties(v, full) && p !in full then {p} else {})
                                    + (if v.subClassOf in Properties(v, full) && c !in full then {c} else {})
  {
  }

  lemma OutstandingExactly(v: Vocabulary, asserted: set<Statement>, known: set<Statement>)
    requires Settled(v, asserted, known) && Lawful(asserted)
    ensures Unsaid(v, Full(v, known)) - Full(v, known) == Outstanding(v, asserted)
  {
    assert v.Apart() && IsEntailed(v, asserted, known) by {
      assert Unlock(Key);
    }
    StillUnsaid(v, Full(v, known));
    SubPropertiesUsed(v, asserted, known);
    SubClassesUsed(v, asserted, known);
    SubClassWhen(v, asserted, known);
    SubPropertyWhen(v, asserted, known);
    SaidAlready(v, known, v.subPropertyOf);
    SaidAlready(v, known, v.subClassOf);
  }

  // --- The second call and the third -------------------------------------------------------------------------------

  // A store whose schema is settled once closed.
  ghost predicate Steady(v: Vocabulary, asserted: set<Statement>, known: set<Statement>) {
    v.Apart() && Lawful(asserted) && SchemaSettled(v, asserted, known)
  }

  // And whose reflexive statements, those of the second run included, lead nowhere new.
  ghost predicate Enduring(v: Vocabulary, asserted: set<Statement>) {
    forall known {:trigger IsEntailed(v, asserted, known)} :: IsEntailed(v, asserted, known) ==>
      Steady(v, asserted, known) && LoopsSpent(v, asserted, known) && UnsaidSpent(v, asserted, known)
  }

  lemma PlainEndures(v: Vocabulary, asserted: set<Statement>)
    requires v.Apart() && PlainSchema(v, asserted) && Lawful(asserted)
    ensures Enduring(v, asserted)
  {
    forall known | IsEntailed(v, asserted, known)
      ensures Steady(v, asserted, known) && LoopsSpent(v, asserted, known) && UnsaidSpent(v, asserted, known)
    {
      SchemaUnderived(v, asserted, known);
      PlainSettles(v, asserted, known);
      PlainSpends(v, asserted, known);
    }
  }

  lemma OneFixpoint(v: Vocabulary, asserted: set<Statement>, a: set<Statement>, b: set<Statement>)
    requires IsEntailed(v, asserted, a) && IsEntailed(v, asserted, b)
    ensures a == b
  {
    LeastIsUnique(v, SchemaOf(v, asserted), Start(v, asserted), a, b);
  }

  lemma SettledFirst(v: Vocabulary, asserted: set<Statement>, known: set<Statement>)
    requires Steady(v, asserted, known) && IsEntailed(v, asserted, known)
    ensures Settled(v, asserted, known)
  {
  }

  // What the second run's fixpoint and reflexive pass come to.
  lemma SecondFull(v: Vocabulary, asserted: set<Statement>, known: set<Statement>, again: set<Statement>)
    requires Steady(v, asserted, known) && LoopsSpent(v, asserted, known)
    requires IsEntailed(v, asserted, known) && IsEntailed(v, Full(v, known), again)
    ensures again == Full(v, known)
    ensures Full(v, again) == Full(v, known) + Outstanding(v, asserted) && Full(v, again) - Full(v, known) == Outstanding(v, asserted)
  {
    SettledFirst(v, asserted, known);
    SecondRun(v, asserted, known);
    OneFixpoint(v, Full(v, known), again, Full(v, known));
    TwiceExactly(v, known);
    OutstandingExactly(v, asserted, known);
    OnlyMissing(Full(v, again), Full(v, known), Unsaid(v, Full(v, known)), Outstanding(v, asserted));
  }

  lemma OnlyMissing(second: set<Statement>, first: set<Statement>, unsaid: set<Statement>, missing: set<Statement>)
    requires second == first + unsaid && unsaid - first == missing
    ensures second == first + missing && second - first == missing
  {
  }

  // A run that adds nothing found its store closed.
  lemma NothingMore(v: Vocabulary, asserted: set<Statement>, known: set<Statement>)
    requires IsEntailed(v, asserted, known)
    ensures Full(v, known) - asserted == {} <==> IsEntailed(v, asserted, asserted) && Full(v, asserted) == asserted
  {
    AssertedKnown(v, asserted, known);
    if Full(v, known) - asserted == {} {
      forall t | t in Full(v, known)
        ensures t in asserted
      {
        assert t !in Full(v, known) - asserted;
      }
      assert known == asserted;
    }
    if IsEntailed(v, asserted, asserted) {
      OneFixpoint(v, asserted, known, asserted);
    }
  }

  lemma ThirdFull(v: Vocabulary, asserted: set<Statement>, known: set<Statement>, third: set<Statement>)
    requires Steady(v, asserted, known) && LoopsSpent(v, asserted, known) && IsEntailed(v, asserted, known)
    requires IsEntailed(v, Full(v, Full(v, known)), third)
    ensures Full(v, third) - Full(v, Full(v, known)) == {} <==> UnsaidSpent(v, asserted, known)
  {
    SettledFirst(v, asserted, known);
    ThirdRun(v, asserted, known);
    NothingMore(v, Full(v, Full(v, known)), third);
  }

  // Two runs over one store, into whichever graphs: the second adds at most two statements, those the assertions leave
  // outstanding.
  lemma SecondCall(v: Vocabulary, q0: set<Quad>, q1: set<Quad>, q2: set<Quad>, g1: Option<Term>, g2: Option<Term>,
                   k1: set<Statement>, k2: set<Statement>, n1: nat, n2: nat)
    requires Steady(v, Statements(q0), k1) && LoopsSpent(v, Statements(q0), k1)
    requires Completed(v, q0, q1, g1, k1, n1) && Completed(v, q1, q2, g2, k2, n2)
    ensures Statements(q1) <= Statements(q2) && Statements(q2) - Statements(q1) == Outstanding(v, Statements(q0))
    ensures n2 == |Outstanding(v, Statements(q0))|
  {
    AfterRun(v, q0, q1, g1, k1, n1);
    AfterRun(v, q1, q2, g2, k2, n2);
    AddedCounts(v, q1, q2, g2, k2, n2);
    SecondFull(v, Statements(q0), k1, k2);
  }

  // So it adds nothing if and only if the loops lead nowhere new, the assertions speak of properties under properties, and,
  // where they make anything a class, of classes under classes.
  lemma IdempotentExactly(v: Vocabulary, q0: set<Quad>, q1: set<Quad>, q2: set<Quad>, g1: Option<Term>, g2: Option<Term>,
                          k1: set<Statement>, k2: set<Statement>, n1: nat, n2: nat)
    requires Steady(v, Statements(q0), k1) && Completed(v, q0, q1, g1, k1, n1) && Completed(v, q1, q2, g2, k2, n2)
    ensures n2 == 0 <==> var asserted := Statements(q0);
                         && LoopsSpent(v, asserted, k1)
                         && (asserted == {} || NamesSubProperties(v, asserted))
                         && (HasClass(v, asserted) ==> NamesSubClasses(v, asserted))
  {
    if LoopsSpent(v, Statements(q0), k1) {
      SecondCall(v, q0, q1, q2, g1, g2, k1, k2, n1, n2);
      OutstandingSize(v, Statements(q0));
    } else {
      AfterRun(v, q0, q1, g1, k1, n1);
      AddedCounts(v, q1, q2, g2, k2, n2);
      SettledFirst(v, Statements(q0), k1);
      SecondRun(v, Statements(q0), k1);
      NothingMore(v, Statements(q1), k2);
    }
  }

  lemma OutstandingSize(v: Vocabulary, asserted: set<Statement>)
    requires v.Apart()
    ensures |Outstanding(v, asserted)| == (if asserted != {} && !NamesSubProperties(v, asserted) then 1 else 0)
                                        + (if HasClass(v, asserted) && !NamesSubClasses(v, asserted) then 1 else 0)
  {
    var p, c := Statement(v.subPropertyOf, v.subPropertyOf, v.subPropertyOf), Statement(v.subClassOf, v.subPropertyOf, v.subClassOf);
    assert p != c;
    assert |{p} + {c}| == 2;
  }

  // The third run of the same store finds nothing to add, if and only if what the second added leads nowhere new.
  lemma ThirdCall(v: Vocabulary, q0: set<Quad>, q1: set<Quad>, q2: set<Quad>, q3: set<Quad>, g1: Option<Term>, g2: Option<Term>, g3: Option<Term>,
                  k1: set<Statement>, k2: set<Statement>, k3: set<Statement>, n1: nat, n2: nat, n3: nat)
    requires Steady(v, Statements(q0), k1) && LoopsSpent(v, Statements(q0), k1)
    requires Completed(v, q0, q1, g1, k1, n1) && Completed(v, q1, q2, g2, k2, n2) && Completed(v, q2, q3, g3, k3, n3)
    ensures n3 == 0 <==> UnsaidSpent(v, Statements(q0), k1)
    ensures n3 == 0 ==> q3 == q2
  {
    AfterTwo(v, q0, q1, q2, g1, g2, k1, k2, n1, n2);
    ThirdFull(v, Statements(q0), k1, k3);
    AddedCounts(v, q2, q3, g3, k3, n3);
    if n3 == 0 {
      NothingAdded(v, q2, q3, g3, k3);
    }
  }

  lemma AfterTwo(v: Vocabulary, q0: set<Quad>, q1: set<Quad>, q2: set<Quad>, g1: Option<Term>, g2: Option<Term>,
                 k1: set<Statement>, k2: set<Statement>, n1: nat, n2: nat)
    requires Steady(v, Statements(q0), k1) && LoopsSpent(v, Statements(q0), k1)
    requires Completed(v, q0, q1, g1, k1, n1) && Completed(v, q1, q2, g2, k2, n2)
    ensures Statements(q2) == Full(v, Full(v, k1)) && Subjects(Statements(q2))
  {
    AfterRun(v, q0, q1, g1, k1, n1);
    AfterRun(v, q1, q2, g2, k2, n2);
    SecondFull(v, Statements(q0), k1, k2);
  }

  lemma NothingAdded(v: Vocabulary, before: set<Quad>, after: set<Quad>, graph: Option<Term>, known: set<Statement>)
    requires Completed(v, before, after, graph, known, 0)
    ensures after == before
  {
    assert before <= after;
    assert |after - before| == |after| - |before|;
  }

  // Three calls, one after the other.
  method MaterialiseThrice(v: Vocabulary, store: Store, graph: Option<Term>, budget: nat, permits: Quad -> bool)
    returns (first: Outcome, second: Outcome, third: Outcome)
    requires v.Apart() && Lawful(Statements(store.quads))
    modifies store
    ensures Enduring(v, Statements(old(store.quads))) && first.Entailed? && second.Entailed?
            ==> second.added == |Outstanding(v, Statements(old(store.quads)))|
    ensures Enduring(v, Statements(old(store.quads))) && first.Entailed? && second.Entailed? && third.Entailed? ==> third.added == 0
  {
    ghost var q0 := store.quads;
    ghost var k1, k2, k3;
    first, k1 := Run(v, store, graph, budget, permits);
    ghost var q1 := store.quads;
    second, k2 := Run(v, store, graph, budget, permits);
    ghost var q2 := store.quads;
    third, k3 := Run(v, store, graph, budget, permits);
    if Enduring(v, Statements(q0)) && first.Entailed? && second.Entailed? {
      SecondCall(v, q0, q1, q2, graph, graph, k1, k2, first.added, second.added);
      if third.Entailed? {
        ThirdCall(v, q0, q1, q2, store.quads, graph, graph, graph, k1, k2, k3, first.added, second.added, third.added);
      }
    }
  }

  // --- Two stores ----------------------------------------------------------------------------------------------------

  predicate Ordinary(v: Vocabulary, x: Term) {
    x.Iri? && !IsMembership(x) && x !in v.Schematic() + {v.ty, v.member, v.membership, v.reifies, v.proposition}
  }

  // A store of one triple: its second run adds that `rdfs:subPropertyOf` is a property.
  lemma OneTriple(v: Vocabulary, a: Term, p: Term, b: Term, q0: set<Quad>, q1: set<Quad>, q2: set<Quad>, k1: set<Statement>, k2: set<Statement>,
                  n1: nat, n2: nat)
    requires v.Apart() && Ordinary(v, a) && Ordinary(v, p) && Ordinary(v, b) && Statements(q0) == {Statement(a, p, b)}
    requires Completed(v, q0, q1, None, k1, n1) && Completed(v, q1, q2, None, k2, n2)
    ensures Statements(q2) - Statements(q1) == {Statement(v.subPropertyOf, v.subPropertyOf, v.subPropertyOf)} && n2 == 1
  {
    OneTriplePlain(v, a, p, b);
    PlainEndures(v, {Statement(a, p, b)});
    OneTripleClass(v, a, p, b);
    SecondCall(v, q0, q1, q2, None, None, k1, k2, n1, n2);
  }

  lemma OneTriplePlain(v: Vocabulary, a: Term, p: Term, b: Term)
    requires v.Apart() && Ordinary(v, a) && Ordinary(v, p) && Ordinary(v, b)
    ensures PlainSchema(v, {Statement(a, p, b)}) && Lawful({Statement(a, p, b)}) && WithAxioms(v, {Statement(a, p, b)}) == {Statement(a, p, b)}
  {
  }

  lemma OneTripleClass(v: Vocabulary, a: Term, p: Term, b: Term)
    requires v.Apart() && Ordinary(v, a) && Ordinary(v, p) && Ordinary(v, b)
    ensures Outstanding(v, {Statement(a, p, b)}) == {Statement(v.subPropertyOf, v.subPropertyOf, v.subPropertyOf)}
  {
    var asserted := {Statement(a, p, b)};
    OneTriplePlain(v, a, p, b);
    forall q
      ensures q !in Next(SchemaOf(v, asserted).superProperties, p)
    {
      if q in Next(SchemaOf(v, asserted).superProperties, p) {
        ClosedEnds(asserted, v.subPropertyOf, p, q);
      }
    }
    assert !MakesClass(v, SchemaOf(v, asserted), Statement(a, p, b));
  }

  // There is always a run that finishes, given the budget and the permission.
  lemma CompletedExists(v: Vocabulary, before: set<Quad>, graph: Option<Term>) returns (after: set<Quad>, known: set<Statement>, added: nat)
    ensures Completed(v, before, after, graph, known, added)
  {
    known := EntailmentExists(v, Statements(before));
    after := before + Written(Full(v, known), Statements(before), graph);
    assert after == before + (after - before);
    added := |after| - |before|;
  }

  // A schema that is not plain: a property declared to be under `rdfs:subClassOf` itself.
  function Indirect(v: Vocabulary, p: Term, x: Term, y: Term, u: Term): set<Statement> {
    {Statement(p, v.subPropertyOf, v.subClassOf), Statement(x, p, y), Statement(u, v.ty, x)}
  }

  ghost predicate Named(v: Vocabulary, p: Term, x: Term, y: Term, u: Term) {
    v.Apart() && v.reifies != v.ty && Ordinary(v, p) && Ordinary(v, x) && Ordinary(v, y) && Ordinary(v, u) && x != y
  }

  lemma IndirectAxioms(v: Vocabulary, p: Term, x: Term, y: Term, u: Term)
    requires Named(v, p, x, y, u)
    ensures WithAxioms(v, Indirect(v, p, x, y, u)) == Indirect(v, p, x, y, u)
  {
    assert v.subPropertyOf in v.Schematic() && v.subClassOf in v.Schematic();
  }

  // One property under `rdfs:subClassOf`, and nothing else in the schema.
  ghost predicate OnlyLink(v: Vocabulary, schema: Schema, p: Term) {
    && (forall a, q :: q in Next(schema.superProperties, a) ==> a == p && q == v.subClassOf)
    && (forall a :: Next(schema.superClasses, a) == {})
    && (forall a :: Next(schema.domains, a) == {})
    && (forall a :: a != v.reifies ==> Next(schema.ranges, a) == {})
  }

  lemma LinksOf(v: Vocabulary, asserted: set<Statement>, p: Term)
    requires WithAxioms(v, asserted) == asserted
    requires forall t :: t in asserted ==>
               (t.p == v.subPropertyOf ==> t.s == p && t.o == v.subClassOf) && t.p != v.subClassOf && t.p != v.domain && t.p != v.range
    ensures OnlyLink(v, SchemaOf(v, asserted), p)
  {
    var schema := SchemaOf(v, asserted);
    forall a, q | q in Next(schema.superProperties, a)
      ensures a == p && q == v.subClassOf
    {
      ClosedEnds(asserted, v.subPropertyOf, a, q);
    }
    forall a
      ensures Next(schema.superClasses, a) == {}
    {
      if q :| q in Next(schema.superClasses, a) {
        ClosedEnds(asserted, v.subClassOf, a, q);
      }
    }
    forall a
      ensures Next(schema.domains, a) == {} && (a != v.reifies ==> Next(schema.ranges, a) == {})
    {
      ReadAt(asserted, v.domain, a);
      ReadAt(asserted, v.range, a);
    }
  }

  lemma IndirectLinks(v: Vocabulary, p: Term, x: Term, y: Term, u: Term)
    requires Named(v, p, x, y, u)
    ensures OnlyLink(v, SchemaOf(v, Indirect(v, p, x, y, u)), p)
  {
    IndirectAxioms(v, p, x, y, u);
    assert v.subPropertyOf in v.Schematic() && v.subClassOf in v.Schematic() && v.domain in v.Schematic() && v.range in v.Schematic();
    LinksOf(v, Indirect(v, p, x, y, u), p);
  }

  // What the first run can come to know: nothing typed but what was.
  ghost function Untyped(v: Vocabulary, p: Term, x: Term, u: Term): Statement -> bool {
    (t: Statement) => t.p in {v.subPropertyOf, p, v.subClassOf} || t == Statement(u, v.ty, x)
  }

  lemma UntypedStep(v: Vocabulary, schema: Schema, p: Term, x: Term, u: Term, t: Statement, d: Statement)
    requires OnlyLink(v, schema, p) && v.reifies !in {v.subPropertyOf, p, v.subClassOf, v.ty}
    requires Untyped(v, p, x, u)(t) && d in Derived(v, schema, t)
    ensures Untyped(v, p, x, u)(d)
  {
    DerivedIs(v, schema, t, d);
  }

  lemma UntypedStart(v: Vocabulary, p: Term, x: Term, y: Term, u: Term, t: Statement)
    requires Named(v, p, x, y, u) && t in Start(v, Indirect(v, p, x, y, u))
    ensures Untyped(v, p, x, u)(t)
  {
    var asserted := Indirect(v, p, x, y, u);
    IndirectAxioms(v, p, x, y, u);
    StartSchema(v, asserted, t);
    if t in asserted {
      UntypedAsserted(v, p, x, y, u, t);
    } else {
      assert t.p == v.subPropertyOf || t.p == v.subClassOf;
    }
  }

  lemma UntypedAsserted(v: Vocabulary, p: Term, x: Term, y: Term, u: Term, t: Statement)
    requires t in Indirect(v, p, x, y, u)
    ensures Untyped(v, p, x, u)(t)
  {
  }

  lemma OnlyUntyped(v: Vocabulary, p: Term, x: Term, y: Term, u: Term, known: set<Statement>)
    requires Named(v, p, x, y, u) && IsEntailed(v, Indirect(v, p, x, y, u), known)
    ensures forall t :: t in known ==> Untyped(v, p, x, u)(t)
  {
    var asserted, good := Indirect(v, p, x, y, u), Untyped(v, p, x, u);
    var schema, start := SchemaOf(v, asserted), Start(v, asserted);
    IndirectLinks(v, p, x, y, u);
    assert v.reifies !in {v.subPropertyOf, p, v.subClassOf, v.ty};
    forall t | t in start
      ensures good(t)
    {
      UntypedStart(v, p, x, y, u, t);
    }
    forall t, d | t in known && good(t) && d in Derived(v, schema, t)
      ensures good(d)
    {
      UntypedStep(v, schema, p, x, u, t, d);
    }
    RuleInduction(v, schema, start, known, good);
  }

  lemma NotYetTyped(v: Vocabulary, p: Term, x: Term, y: Term, u: Term, known: set<Statement>)
    requires v.Apart() && Ordinary(v, p) && x != y && forall t :: t in known ==> Untyped(v, p, x, u)(t)
    ensures Statement(u, v.ty, y) !in Full(v, known)
  {
    assert !Untyped(v, p, x, u)(Statement(u, v.ty, y));
  }

  lemma LinkClosed(known: set<Statement>, p: Term, x: Term, y: Term)
    requires Statement(x, p, y) in known && x != y
    ensures y in Next(Closure(Read(known, p)), x)
  {
    ReadAt(known, p, x);
    AboveStep(Read(known, p), x, y);
    ClosureAt(Read(known, p), x, y);
  }

  lemma LinkDerived(v: Vocabulary, p: Term, x: Term, y: Term, u: Term, known: set<Statement>)
    requires Named(v, p, x, y, u) && IsEntailed(v, Indirect(v, p, x, y, u), known)
    ensures Statement(x, v.subClassOf, y) in known && Statement(u, v.ty, x) in known
  {
    var asserted := Indirect(v, p, x, y, u);
    AssertedKnown(v, asserted, known);
    IndirectAxioms(v, p, x, y, u);
    assert v.subClassOf in v.Schematic();
    LinkClosed(asserted, v.subPropertyOf, p, v.subClassOf);
    assert Statement(x, v.subClassOf, y) in Derived(v, SchemaOf(v, asserted), Statement(x, p, y));
  }

  lemma TypedNext(v: Vocabulary, u: Term, x: Term, y: Term, asserted: set<Statement>, known: set<Statement>)
    requires IsEntailed(v, asserted, known) && x != y
    requires Statement(x, v.subClassOf, y) in asserted && Statement(u, v.ty, x) in asserted
    ensures Statement(u, v.ty, y) in known
  {
    AssertedKnown(v, asserted, known);
    LinkClosed(WithAxioms(v, asserted), v.subClassOf, x, y);
    assert Statement(u, v.ty, y) in Derived(v, SchemaOf(v, asserted), Statement(u, v.ty, x));
  }

  lemma TypedLate(v: Vocabulary, p: Term, x: Term, y: Term, u: Term, k1: set<Statement>, k2: set<Statement>)
    requires Named(v, p, x, y, u) && IsEntailed(v, Indirect(v, p, x, y, u), k1) && IsEntailed(v, Full(v, k1), k2)
    ensures Statement(u, v.ty, y) in Full(v, k2) && Statement(u, v.ty, y) !in Full(v, k1)
  {
    OnlyUntyped(v, p, x, y, u, k1);
    NotYetTyped(v, p, x, y, u, k1);
    LinkDerived(v, p, x, y, u, k1);
    TypedNext(v, u, x, y, Full(v, k1), k2);
  }

  lemma IndirectSubjects(v: Vocabulary, p: Term, x: Term, y: Term, u: Term)
    requires Named(v, p, x, y, u)
    ensures Subjects(Indirect(v, p, x, y, u))
  {
  }

  // The class hierarchy was read before the rules made its one link, so only the second run acts on it: it adds a type
  // that was entailed all along.
  lemma IndirectSchema(v: Vocabulary, p: Term, x: Term, y: Term, u: Term, q0: set<Quad>, q1: set<Quad>, q2: set<Quad>,
                       k1: set<Statement>, k2: set<Statement>, n1: nat, n2: nat)
    requires Named(v, p, x, y, u) && Statements(q0) == Indirect(v, p, x, y, u)
    requires Completed(v, q0, q1, None, k1, n1) && Completed(v, q1, q2, None, k2, n2)
    ensures Statement(u, v.ty, y) in Statements(q2) - Statements(q1) && n2 > 0
  {
    IndirectSubjects(v, p, x, y, u);
    AfterRun(v, q0, q1, None, k1, n1);
    AfterRun(v, q1, q2, None, k2, n2);
    AddedCounts(v, q1, q2, None, k2, n2);
    TypedLate(v, p, x, y, u, k1, k2);
    assert Statement(u, v.ty, y) in Full(v, k2) - Full(v, k1);
  }
}
