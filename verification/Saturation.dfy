/**
 What a run is for (crates/holos-engine/src/entailment.rs): the RDFS closure of the store. The rules are stated here on the
 statements themselves, two at a time, with no schema read beforehand, no walk and no frontier. A run never goes beyond
 their closure; it has reached it exactly when the next run has nothing to add; and runs repeated until that happens
 always end there.
 */
module Saturation {
  import opened Options
  import opened Rdf
  import opened Hierarchies
  import opened Rdfs
  import opened Materialise
  import opened Rematerialise
  import opened Reruns

  // --- The rules, statement by statement -----------------------------------------------------------------------

  // rdfs5 and rdfs11.
  predicate Transitive(s: set<Statement>, p: Term) {
    forall a, b :: a in s && b in s && a.p == p && b.p == p && a.o == b.s ==> Statement(a.s, p, b.o) in s
  }

  // rdfs7.
  predicate Inherits(v: Vocabulary, s: set<Statement>) {
    forall a, t :: a in s && t in s && a.p == v.subPropertyOf && t.p == a.s ==> Statement(t.s, a.o, t.o) in s
  }

  // rdfs2.
  predicate TypesSubjects(v: Vocabulary, s: set<Statement>) {
    forall a, t :: a in s && t in s && a.p == v.domain && t.p == a.s ==> Statement(t.s, v.ty, a.o) in s
  }

  // rdfs3.
  predicate TypesObjects(v: Vocabulary, s: set<Statement>) {
    forall a, t :: a in s && t in s && a.p == v.range && t.p == a.s && t.o.CanBeSubject() ==> Statement(t.o, v.ty, a.o) in s
  }

  // RDF 1.2's range of `rdf:reifies`, which no statement says.
  predicate TypesReified(v: Vocabulary, s: set<Statement>) {
    forall t :: t in s && t.p == v.reifies && t.o.CanBeSubject() ==> Statement(t.o, v.ty, v.proposition) in s
  }

  // rdfs9.
  predicate TypesUpward(v: Vocabulary, s: set<Statement>) {
    forall a, t :: a in s && t in s && a.p == v.subClassOf && t.p == v.ty && t.o == a.s ==> Statement(t.s, v.ty, a.o) in s
  }

  // No rule has anything to add; rdfs12 and the reflexive rules among them.
  ghost predicate Saturated(v: Vocabulary, s: set<Statement>) {
    && ContainerAxioms(v, s) <= s && Reflexive(v, s) <= s
    && Transitive(s, v.subPropertyOf) && Transitive(s, v.subClassOf)
    && Inherits(v, s) && TypesSubjects(v, s) && TypesObjects(v, s) && TypesReified(v, s) && TypesUpward(v, s)
  }

  // The least saturated set with these statements.
  ghost predicate RdfsClosure(v: Vocabulary, asserted: set<Statement>, s: set<Statement>) {
    && asserted <= s && Saturated(v, s)
    && forall other {:trigger Saturated(v, other)} :: asserted <= other && Saturated(v, other) ==> s <= other
  }

  // --- A run stays within every saturated set --------------------------------------------------------------------

  lemma AboveIn(known: set<Statement>, s: set<Statement>, p: Term, x: Term, y: Term)
    requires known <= s && Transitive(s, p) && Above(Read(known, p), x, y)
    ensures Statement(x, p, y) in s
  {
    var m := Read(known, p);
    var w :| Walk(m, w) && w[0] == x && w[|w| - 1] == y;
    LinkIn(known, s, p, w, 0);
    var i := 1;
    while i < |w| - 1
      invariant 1 <= i < |w| && Statement(x, p, w[i]) in s
    {
      LinkIn(known, s, p, w, i);
      i := i + 1;
    }
  }

  lemma LinkIn(known: set<Statement>, s: set<Statement>, p: Term, w: seq<Term>, i: nat)
    requires known <= s && Walk(Read(known, p), w) && i < |w| - 1
    ensures Statement(w[i], p, w[i + 1]) in s
  {
    ReadAt(known, p, w[i]);
    assert w[i + 1] in Next(Read(known, p), w[i]);
    assert Statement(w[i], p, w[i + 1]) in known;
  }

  lemma AxiomsIn(v: Vocabulary, asserted: set<Statement>, s: set<Statement>)
    requires asserted <= s && ContainerAxioms(v, s) <= s
    ensures WithAxioms(v, asserted) <= s
  {
    assert TermsOf(asserted) <= TermsOf(s);
    assert ContainerAxioms(v, asserted) <= ContainerAxioms(v, s);
  }

  lemma LinksIn(known: set<Statement>, s: set<Statement>, p: Term)
    requires known <= s && Transitive(s, p)
    ensures LinksAs(Closure(Read(known, p)), p) <= s
  {
    forall t | t in LinksAs(Closure(Read(known, p)), p)
      ensures t in s
    {
      ClosureAt(Read(known, p), t.s, t.o);
      AboveIn(known, s, p, t.s, t.o);
    }
  }

  lemma StartIn(v: Vocabulary, asserted: set<Statement>, s: set<Statement>)
    requires asserted <= s && Saturated(v, s)
    ensures Start(v, asserted) <= s
  {
    AxiomsIn(v, asserted, s);
    LinksIn(WithAxioms(v, asserted), s, v.subPropertyOf);
    LinksIn(WithAxioms(v, asserted), s, v.subClassOf);
  }

  lemma LimitsAre(v: Vocabulary, asserted: set<Statement>, x: Term)
    ensures Next(SchemaOf(v, asserted).domains, x) == Objects(WithAxioms(v, asserted), v.domain, x)
    ensures Next(SchemaOf(v, asserted).ranges, x)
         == Objects(WithAxioms(v, asserted), v.range, x) + if x == v.reifies then {v.proposition} else {}
  {
    ReadAt(WithAxioms(v, asserted), v.domain, x);
    ReadAt(WithAxioms(v, asserted), v.range, x);
  }

  lemma LimitsIn(v: Vocabulary, asserted: set<Statement>, s: set<Statement>, x: Term, y: Term)
    requires WithAxioms(v, asserted) <= s
    ensures y in Next(SchemaOf(v, asserted).domains, x) ==> Statement(x, v.domain, y) in s
    ensures y in Next(SchemaOf(v, asserted).ranges, x) ==> Statement(x, v.range, y) in s || (x == v.reifies && y == v.proposition)
  {
    LimitsAre(v, asserted, x);
  }

  lemma HierarchyIn(known: set<Statement>, s: set<Statement>, p: Term, x: Term, y: Term)
    requires known <= s && Transitive(s, p)
    ensures y in Next(Closure(Read(known, p)), x) ==> Statement(x, p, y) in s
  {
    ClosureAt(Read(known, p), x, y);
    if y in Next(Closure(Read(known, p)), x) {
      AboveIn(known, s, p, x, y);
    }
  }

  lemma UpIn(v: Vocabulary, asserted: set<Statement>, s: set<Statement>, t: Statement, d: Statement)
    requires WithAxioms(v, asserted) <= s && Transitive(s, v.subPropertyOf) && Inherits(v, s) && t in s
    ensures d in Rdfs7(SchemaOf(v, asserted), t) ==> d in s
  {
    HierarchyIn(WithAxioms(v, asserted), s, v.subPropertyOf, t.p, d.p);
  }

  lemma ClassIn(v: Vocabulary, asserted: set<Statement>, s: set<Statement>, t: Statement, d: Statement)
    requires WithAxioms(v, asserted) <= s && Transitive(s, v.subClassOf) && TypesUpward(v, s) && t in s
    ensures d in Rdfs9(v, SchemaOf(v, asserted), t) ==> d in s
  {
    HierarchyIn(WithAxioms(v, asserted), s, v.subClassOf, t.o, d.o);
  }

  lemma TypeIn(v: Vocabulary, asserted: set<Statement>, s: set<Statement>, t: Statement, d: Statement)
    requires WithAxioms(v, asserted) <= s && TypesSubjects(v, s) && TypesObjects(v, s) && TypesReified(v, s) && t in s
    ensures d in Rdfs2(v, SchemaOf(v, asserted), t) + Rdfs3(v, SchemaOf(v, asserted), t) ==> d in s
  {
    LimitsIn(v, asserted, s, t.p, d.o);
  }

  lemma RulesIn(v: Vocabulary, asserted: set<Statement>, s: set<Statement>)
    requires asserted <= s && Saturated(v, s)
    ensures Closed(v, SchemaOf(v, asserted), s)
  {
    AxiomsIn(v, asserted, s);
    forall t, d | t in s && d in Derived(v, SchemaOf(v, asserted), t)
      ensures d in s
    {
      UpIn(v, asserted, s, t, d);
      ClassIn(v, asserted, s, t, d);
      TypeIn(v, asserted, s, t, d);
    }
  }

  lemma ReflexiveGrows(v: Vocabulary, known: set<Statement>, s: set<Statement>)
    requires known <= s
    ensures Reflexive(v, known) <= Reflexive(v, s)
  {
    assert Classes(v, known) <= Classes(v, s) && Properties(v, known) <= Properties(v, s);
  }

  // A run is sound: it says only what every saturated set with the assertions says.
  lemma RunWithin(v: Vocabulary, asserted: set<Statement>, known: set<Statement>, s: set<Statement>)
    requires IsEntailed(v, asserted, known) && asserted <= s && Saturated(v, s)
    ensures Full(v, known) <= s
  {
    StartIn(v, asserted, s);
    RulesIn(v, asserted, s);
    assert known <= s;
    ReflexiveGrows(v, known, s);
  }

  // --- A run with nothing to add -----------------------------------------------------------------------------------

  lemma FixedLink(v: Vocabulary, s: set<Statement>, p: Term, x: Term, y: Term)
    requires IsEntailed(v, s, s) && (p == v.subPropertyOf || p == v.subClassOf) && x != y
    requires Above(Read(WithAxioms(v, s), p), x, y)
    ensures Statement(x, p, y) in s
    ensures p == v.subPropertyOf ==> y in Next(SchemaOf(v, s).superProperties, x)
    ensures p == v.subClassOf ==> y in Next(SchemaOf(v, s).superClasses, x)
  {
    var closed := Closure(Read(WithAxioms(v, s), p));
    ClosureAt(Read(WithAxioms(v, s), p), x, y);
    assert Statement(x, p, y) in LinksAs(closed, p);
    assert Statement(x, p, y) in Start(v, s);
  }

  lemma FixedStep(v: Vocabulary, s: set<Statement>, a: Statement)
    requires a in s
    ensures Above(Read(WithAxioms(v, s), a.p), a.s, a.o)
  {
    ReadAt(WithAxioms(v, s), a.p, a.s);
    AboveStep(Read(WithAxioms(v, s), a.p), a.s, a.o);
  }

  lemma FixedTransitive(v: Vocabulary, s: set<Statement>, p: Term, a: Statement, b: Statement)
    requires IsEntailed(v, s, s) && Reflexive(v, s) <= s && Subjects(s) && (p == v.subPropertyOf || p == v.subClassOf)
    requires a in s && b in s && a.p == p && b.p == p && a.o == b.s
    ensures Statement(a.s, p, b.o) in s
  {
    if a.s == b.o {
      FixedLoop(v, s, a);
    } else {
      FixedStep(v, s, a);
      FixedStep(v, s, b);
      AboveTwice(Read(WithAxioms(v, s), p), a.s, a.o, b.o);
      FixedLink(v, s, p, a.s, b.o);
    }
  }

  lemma FixedLoop(v: Vocabulary, s: set<Statement>, a: Statement)
    requires Reflexive(v, s) <= s && Subjects(s) && a in s && (a.p == v.subPropertyOf || a.p == v.subClassOf)
    ensures Statement(a.s, a.p, a.s) in s
  {
    if a.p == v.subPropertyOf {
      assert a.s in Properties(v, s);
    } else {
      assert a.s in Classes(v, s);
    }
    assert Statement(a.s, a.p, a.s) in Reflexive(v, s);
  }

  lemma Fires(v: Vocabulary, s: set<Statement>, t: Statement, d: Statement)
    requires IsEntailed(v, s, s) && t in s && d in Derived(v, SchemaOf(v, s), t)
    ensures d in s
  {
    assert Derived(v, SchemaOf(v, s), t) <= s;
  }

  lemma FixedUpward(v: Vocabulary, s: set<Statement>, a: Statement, t: Statement)
    requires IsEntailed(v, s, s) && a in s && t in s
    ensures a.p == v.subPropertyOf && t.p == a.s ==> Statement(t.s, a.o, t.o) in s
    ensures a.p == v.subClassOf && t.p == v.ty && t.o == a.s ==> Statement(t.s, v.ty, a.o) in s
  {
    if a.s != a.o && (a.p == v.subPropertyOf || a.p == v.subClassOf) {
      FixedStep(v, s, a);
      FixedLink(v, s, a.p, a.s, a.o);
      if a.p == v.subPropertyOf && t.p == a.s {
        Fires(v, s, t, Statement(t.s, a.o, t.o));
      }
      if a.p == v.subClassOf && t.p == v.ty && t.o == a.s {
        Fires(v, s, t, Statement(t.s, v.ty, a.o));
      }
    }
  }

  lemma TypesDerived(v: Vocabulary, s: set<Statement>, a: Statement, t: Statement)
    requires a in s
    ensures a.p == v.domain && t.p == a.s ==> Statement(t.s, v.ty, a.o) in Derived(v, SchemaOf(v, s), t)
    ensures a.p == v.range && t.p == a.s && t.o.CanBeSubject() ==> Statement(t.o, v.ty, a.o) in Derived(v, SchemaOf(v, s), t)
    ensures t.p == v.reifies && t.o.CanBeSubject() ==> Statement(t.o, v.ty, v.proposition) in Derived(v, SchemaOf(v, s), t)
  {
    LimitsAre(v, s, t.p);
  }

  lemma FixedTypes(v: Vocabulary, s: set<Statement>, a: Statement, t: Statement)
    requires IsEntailed(v, s, s) && a in s && t in s
    ensures a.p == v.domain && t.p == a.s ==> Statement(t.s, v.ty, a.o) in s
    ensures a.p == v.range && t.p == a.s && t.o.CanBeSubject() ==> Statement(t.o, v.ty, a.o) in s
    ensures t.p == v.reifies && t.o.CanBeSubject() ==> Statement(t.o, v.ty, v.proposition) in s
  {
    TypesDerived(v, s, a, t);
    if a.p == v.domain && t.p == a.s {
      Fires(v, s, t, Statement(t.s, v.ty, a.o));
    }
    if a.p == v.range && t.p == a.s && t.o.CanBeSubject() {
      Fires(v, s, t, Statement(t.o, v.ty, a.o));
    }
    if t.p == v.reifies && t.o.CanBeSubject() {
      Fires(v, s, t, Statement(t.o, v.ty, v.proposition));
    }
  }

  lemma FixedSaturated(v: Vocabulary, s: set<Statement>)
    requires IsEntailed(v, s, s) && Reflexive(v, s) <= s && Subjects(s)
    ensures Saturated(v, s)
  {
    assert ContainerAxioms(v, s) <= Start(v, s) <= s;
    forall p, a, b | (p == v.subPropertyOf || p == v.subClassOf) && a in s && b in s && a.p == p && b.p == p && a.o == b.s
      ensures Statement(a.s, p, b.o) in s
    {
      FixedTransitive(v, s, p, a, b);
    }
    forall a, t | a in s && t in s
      ensures a.p == v.subPropertyOf && t.p == a.s ==> Statement(t.s, a.o, t.o) in s
      ensures a.p == v.subClassOf && t.p == v.ty && t.o == a.s ==> Statement(t.s, v.ty, a.o) in s
    {
      FixedUpward(v, s, a, t);
    }
    forall a, t | a in s && t in s
      ensures a.p == v.domain && t.p == a.s ==> Statement(t.s, v.ty, a.o) in s
      ensures a.p == v.range && t.p == a.s && t.o.CanBeSubject() ==> Statement(t.o, v.ty, a.o) in s
    {
      FixedTypes(v, s, a, t);
    }
    forall t | t in s && t.p == v.reifies && t.o.CanBeSubject()
      ensures Statement(t.o, v.ty, v.proposition) in s
    {
      FixedTypes(v, s, t, t);
    }
  }

  lemma FixedWhen(v: Vocabulary, schema: Schema, start: set<Statement>, s: set<Statement>)
    requires start == s && Closed(v, schema, s)
    ensures IsLeast(v, schema, start, s)
  {
  }

  lemma StartExactly(v: Vocabulary, s: set<Statement>)
    requires Start(v, s) <= s
    ensures Start(v, s) == s
  {
  }

  lemma ReflexiveWithin(v: Vocabulary, s: set<Statement>)
    requires Saturated(v, s)
    ensures Full(v, s) == s
  {
  }

  lemma SaturatedFixed(v: Vocabulary, s: set<Statement>)
    requires Saturated(v, s)
    ensures IsEntailed(v, s, s) && Full(v, s) == s
  {
    ReflexiveWithin(v, s);
    StartIn(v, s, s);
    RulesIn(v, s, s);
    StartExactly(v, s);
    FixedWhen(v, SchemaOf(v, s), Start(v, s), s);
  }

  // A run of a store of statements that can be written adds nothing if and only if the store is saturated.
  lemma NothingToAdd(v: Vocabulary, before: set<Quad>, after: set<Quad>, graph: Option<Term>, known: set<Statement>, added: nat)
    requires v.Apart() && Subjects(Statements(before)) && Completed(v, before, after, graph, known, added)
    ensures added == 0 <==> Saturated(v, Statements(before))
    ensures added == 0 ==> after == before
  {
    var s := Statements(before);
    AddedCounts(v, before, after, graph, known, added);
    NothingMore(v, s, known);
    if added == 0 {
      FixedSaturated(v, s);
      NothingAdded(v, before, after, graph, known);
    }
    if Saturated(v, s) {
      SaturatedFixed(v, s);
    }
  }

  // --- One run, and runs repeated ----------------------------------------------------------------------------------

  // One finished run leads from each store to the next.
  ghost predicate Runs(v: Vocabulary, stores: seq<set<Quad>>) {
    forall i :: 0 <= i < |stores| - 1 ==> RunBetween(v, stores[i], stores[i + 1])
  }

  ghost predicate RunBetween(v: Vocabulary, before: set<Quad>, after: set<Quad>) {
    exists graph, known, added :: Completed(v, before, after, graph, known, added)
  }

  lemma RunGrows(v: Vocabulary, before: set<Quad>, after: set<Quad>)
    requires v.Apart() && Subjects(Statements(before)) && RunBetween(v, before, after)
    ensures Statements(before) <= Statements(after) && Subjects(Statements(after))
  {
    var graph, known, added :| Completed(v, before, after, graph, known, added);
    AfterRun(v, before, after, graph, known, added);
    AssertedKnown(v, Statements(before), known);
  }

  lemma RunStays(v: Vocabulary, before: set<Quad>, after: set<Quad>, other: set<Statement>)
    requires v.Apart() && Subjects(Statements(before)) && RunBetween(v, before, after)
    requires Statements(before) <= other && Saturated(v, other)
    ensures Statements(after) <= other
  {
    var graph, known, added :| Completed(v, before, after, graph, known, added);
    AfterRun(v, before, after, graph, known, added);
    RunWithin(v, Statements(before), known, other);
  }

  // However many runs there are, what they leave is within every saturated set with the first store's assertions.
  lemma {:induction false} RunsWithin(v: Vocabulary, stores: seq<set<Quad>>, other: set<Statement>)
    requires v.Apart() && stores != [] && Runs(v, stores) && Subjects(Statements(stores[0]))
    requires Statements(stores[0]) <= other && Saturated(v, other)
    ensures Statements(stores[|stores| - 1]) <= other
  {
    if |stores| > 1 {
      assert RunBetween(v, stores[0], stores[0 + 1]);
      RunGrows(v, stores[0], stores[1]);
      RunStays(v, stores[0], stores[1], other);
      RestRuns(v, stores);
      RunsWithin(v, stores[1..], other);
    }
  }

  lemma RestRuns(v: Vocabulary, stores: seq<set<Quad>>)
    requires |stores| > 1 && Runs(v, stores)
    ensures Runs(v, stores[1..])
  {
    var rest := stores[1..];
    forall i | 0 <= i < |rest| - 1
      ensures RunBetween(v, rest[i], rest[i + 1])
    {
      assert rest[i] == stores[i + 1] && rest[i + 1] == stores[i + 1 + 1];
    }
  }

  lemma {:induction false} RunsGrow(v: Vocabulary, stores: seq<set<Quad>>)
    requires v.Apart() && stores != [] && Runs(v, stores) && Subjects(Statements(stores[0]))
    ensures Statements(stores[0]) <= Statements(stores[|stores| - 1]) && Subjects(Statements(stores[|stores| - 1]))
  {
    if |stores| > 1 {
      assert RunBetween(v, stores[0], stores[0 + 1]);
      RunGrows(v, stores[0], stores[1]);
      RestRuns(v, stores);
      RunsGrow(v, stores[1..]);
    }
  }

  // Runs repeated until one adds nothing end at the RDFS closure of the store before the first, and only there. Of two
  // stores: one run has computed the RDFS closure if and only if the next has nothing to add.
  lemma RepeatedExactly(v: Vocabulary, stores: seq<set<Quad>>, after: set<Quad>, graph: Option<Term>, known: set<Statement>, added: nat)
    requires v.Apart() && stores != [] && Runs(v, stores) && Subjects(Statements(stores[0]))
    requires Completed(v, stores[|stores| - 1], after, graph, known, added)
    ensures added == 0 <==> RdfsClosure(v, Statements(stores[0]), Statements(stores[|stores| - 1]))
  {
    var last := Statements(stores[|stores| - 1]);
    RunsGrow(v, stores);
    NothingToAdd(v, stores[|stores| - 1], after, graph, known, added);
    forall other | Statements(stores[0]) <= other && Saturated(v, other)
      ensures last <= other
    {
      RunsWithin(v, stores, other);
    }
  }
}
