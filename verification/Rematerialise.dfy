/**
 Materialising twice (crates/holos-engine/src/entailment.rs). The schema maps are read once, so a schema
 statement that a rule derives is first acted on by the next run; where none is derived and the reflexive
 statements lead nowhere new, a second run finds nothing, and the most it adds is that the two hierarchy
 predicates are properties.
 */
module Rematerialise {
  import opened Locks
  import opened Options
  import opened Rdf
  import opened Hierarchies
  import opened Rdfs
  import opened Materialise

  // No schema predicate has a domain, a range or a proper super-property, and none is one.
  predicate PlainSchema(v: Vocabulary, asserted: set<Statement>) {
    forall t :: t in asserted ==>
      && (t.p == v.subPropertyOf && (t.s in v.Schematic() || t.o in v.Schematic()) ==> t.s == t.o)
      && (t.p == v.domain || t.p == v.range ==> t.s !in v.Schematic())
  }

  // --- Every statement a run makes can be written ------------------------------------------------------------

  function Writable(): Statement -> bool {
    (t: Statement) => t.s.CanBeSubject()
  }

  // The guard the write keeps against a statement with an unwritable subject never fires.
  lemma SubjectsAreWritable(v: Vocabulary, asserted: set<Statement>, known: set<Statement>)
    requires IsEntailed(v, asserted, known) && v.Apart()
    requires forall t :: t in asserted ==> t.s.CanBeSubject()
    ensures forall t :: t in known ==> t.s.CanBeSubject()
  {
    var schema, start := SchemaOf(v, asserted), Start(v, asserted);
    forall t | t in start
      ensures Writable()(t)
    {
      StartSubject(v, asserted, t);
    }
    forall t, d | t in known && Writable()(t) && d in Derived(v, schema, t)
      ensures Writable()(d)
    {
      DerivedIs(v, schema, t, d);
    }
    RuleInduction(v, schema, start, known, Writable());
    forall t | t in known
      ensures t.s.CanBeSubject()
    {
      assert Writable()(t);
    }
  }

  lemma FullIsWritable(v: Vocabulary, asserted: set<Statement>, known: set<Statement>)
    requires IsEntailed(v, asserted, known) && v.Apart()
    requires forall t :: t in asserted ==> t.s.CanBeSubject()
    ensures forall t :: t in Full(v, known) ==> t.s.CanBeSubject()
  {
    SubjectsAreWritable(v, asserted, known);
    forall t | t in Reflexive(v, known)
      ensures t.s.CanBeSubject()
    {
      ReflexiveIs(v, known, t);
    }
  }

  lemma StartSubject(v: Vocabulary, asserted: set<Statement>, t: Statement)
    requires t in Start(v, asserted)
    ensures IsMembership(t.s) || exists a :: a in asserted && a.s == t.s
  {
    var known, schema := WithAxioms(v, asserted), SchemaOf(v, asserted);
    if t !in known {
      if t in LinksAs(schema.superProperties, v.subPropertyOf) {
        assert t.s in Read(known, v.subPropertyOf);
      } else {
        assert t.s in Read(known, v.subClassOf);
      }
      var a :| a in known && a.s == t.s;
    }
  }

  // --- What a plain schema leaves underived --------------------------------------------------------------------

  // From a schema predicate there is nowhere up to go but itself, and no way up to one but from itself.
  lemma PlainAbove(v: Vocabulary, asserted: set<Statement>, x: Term, y: Term)
    requires v.Apart() && PlainSchema(v, asserted)
    requires Above(Read(WithAxioms(v, asserted), v.subPropertyOf), x, y)
    requires x in v.Schematic() || y in v.Schematic()
    ensures x == y
  {
    var m := Read(WithAxioms(v, asserted), v.subPropertyOf);
    var w :| Walk(m, w) && w[0] == x && w[|w| - 1] == y;
    var i := 0;
    while i < |w| - 1
      invariant 0 <= i < |w|
      invariant x in v.Schematic() || w[i] in v.Schematic() ==> w[i] == x
    {
      PlainLink(v, asserted, w[i], w[i + 1]);
      i := i + 1;
    }
  }

  lemma PlainLink(v: Vocabulary, asserted: set<Statement>, x: Term, y: Term)
    requires v.Apart() && PlainSchema(v, asserted)
    requires y in Next(Read(WithAxioms(v, asserted), v.subPropertyOf), x)
    ensures x in v.Schematic() || y in v.Schematic() ==> x == y
  {
    ReadAt(WithAxioms(v, asserted), v.subPropertyOf, x);
    assert Statement(x, v.subPropertyOf, y) in WithAxioms(v, asserted);
  }

  lemma ClosureAt(m: Links, x: Term, y: Term)
    ensures y in Next(Closure(m), x) <==> Above(m, x, y) && y != x
  {
    if Above(m, x, y) {
      AboveTarget(m, x, y);
      var w :| Walk(m, w) && w[0] == x && w[|w| - 1] == y;
      assert w[1] in Next(m, w[0]);
    }
  }

  // No rule fires on a statement about the schema, and none makes one.
  lemma PlainRules(v: Vocabulary, asserted: set<Statement>, p: Term)
    requires v.Apart() && PlainSchema(v, asserted) && p in v.Schematic()
    ensures var schema := SchemaOf(v, asserted);
            && Next(schema.superProperties, p) == {} && Next(schema.domains, p) == {} && Next(schema.ranges, p) == {}
            && forall x :: p !in Next(schema.superProperties, x)
  {
    var known := WithAxioms(v, asserted);
    var m := Read(known, v.subPropertyOf);
    forall x, y | y in Next(Closure(m), x)
      ensures x != p && y != p
    {
      ClosureAt(m, x, y);
      if x == p || y == p {
        PlainAbove(v, asserted, x, y);
      }
    }
    ReadAt(known, v.domain, p);
    ReadAt(known, v.range, p);
  }

  ghost function IfSchema(v: Vocabulary, start: set<Statement>): Statement -> bool {
    (t: Statement) => t.p in v.Schematic() ==> t in start
  }

  lemma SchemaStep(v: Vocabulary, asserted: set<Statement>, schema: Schema, t: Statement, d: Statement)
    requires v.Apart() && PlainSchema(v, asserted) && schema == SchemaOf(v, asserted) && d in Derived(v, schema, t)
    ensures d.p !in v.Schematic()
  {
    DerivedIs(v, schema, t, d);
    if d.p in v.Schematic() {
      NothingAboveIt(v, asserted, schema, d.p, t.p);
    }
  }

  lemma NothingAboveIt(v: Vocabulary, asserted: set<Statement>, schema: Schema, p: Term, x: Term)
    requires v.Apart() && PlainSchema(v, asserted) && schema == SchemaOf(v, asserted) && p in v.Schematic()
    ensures p !in Next(schema.superProperties, x) && p != v.ty
  {
    PlainRules(v, asserted, p);
  }

  // Every schema statement known at the end was there at the start.
  lemma SchemaUnderived(v: Vocabulary, asserted: set<Statement>, known: set<Statement>)
    requires v.Apart() && PlainSchema(v, asserted) && IsEntailed(v, asserted, known)
    ensures forall t :: t in known && t.p in v.Schematic() ==> t in Start(v, asserted)
  {
    var schema, start := SchemaOf(v, asserted), Start(v, asserted);
    forall t, d | t in known && IfSchema(v, start)(t) && d in Derived(v, schema, t)
      ensures IfSchema(v, start)(d)
    {
      SchemaStep(v, asserted, schema, t, d);
    }
    RuleInduction(v, schema, start, known, IfSchema(v, start));
    forall t | t in known && t.p in v.Schematic()
      ensures t in start
    {
      assert IfSchema(v, start)(t);
    }
  }

  // --- The second run's schema is the first's ------------------------------------------------------------------

  lemma ReadSame(a: set<Statement>, b: set<Statement>, p: Term)
    requires forall t: Statement :: t.p == p ==> (t in a <==> t in b)
    ensures Read(a, p) == Read(b, p)
  {
    forall s
      ensures (s in Read(a, p) <==> s in Read(b, p)) && Next(Read(a, p), s) == Next(Read(b, p), s)
    {
      ReadAt(a, p, s);
      ReadAt(b, p, s);
      assert Objects(a, p, s) == Objects(b, p, s);
    }
    SameMaps(Read(a, p), Read(b, p));
  }

  // The closed links added back, and loops anywhere, change nothing the closure says.
  lemma ClosureOfMore(m: Links, more: Links, x: Term)
    requires forall u, y :: y in Next(m, u) ==> y in Next(more, u)
    requires forall u, y :: y in Next(more, u) ==> u == y || Above(m, u, y)
    ensures Next(Closure(more), x) == Next(Closure(m), x)
  {
    forall y
      ensures y in Next(Closure(more), x) <==> y in Next(Closure(m), x)
    {
      ClosureAt(m, x, y);
      ClosureAt(more, x, y);
      if Above(m, x, y) {
        AboveMore(m, more, x, y);
      }
      if Above(more, x, y) && y != x {
        AboveLess(m, more, x, y);
      }
    }
  }

  lemma AboveMore(m: Links, more: Links, x: Term, y: Term)
    requires forall u, z :: z in Next(m, u) ==> z in Next(more, u)
    requires Above(m, x, y)
    ensures Above(more, x, y)
  {
    var w :| Walk(m, w) && w[0] == x && w[|w| - 1] == y;
    assert Walk(more, w);
  }

  lemma AboveLess(m: Links, more: Links, x: Term, y: Term)
    requires forall u, z :: z in Next(more, u) ==> u == z || Above(m, u, z)
    requires Above(more, x, y)
    ensures x == y || Above(m, x, y)
  {
    var w :| Walk(more, w) && w[0] == x && w[|w| - 1] == y;
    var i := 0;
    while i < |w| - 1
      invariant 0 <= i < |w| && (w[i] == x || Above(m, x, w[i]))
    {
      assert w[i + 1] in Next(more, w[i]);
      if w[i + 1] != w[i] && w[i] != x {
        AboveTwice(m, x, w[i], w[i + 1]);
      }
      i := i + 1;
    }
  }

  // The terms of the closure that are container positions were in the graph to begin with.
  predicate Familiar(asserted: set<Statement>, t: Statement) {
    forall x :: x in {t.s, t.p, t.o} && IsMembership(x) ==> x in TermsOf(asserted)
  }

  ghost predicate FamiliarLinks(asserted: set<Statement>, m: Links) {
    forall x, y :: y in Next(m, x) && IsMembership(y) ==> y in TermsOf(asserted)
  }

  lemma AssertedFamiliar(v: Vocabulary, asserted: set<Statement>, t: Statement)
    requires v.Apart() && t in WithAxioms(v, asserted)
    ensures Familiar(asserted, t)
  {
    if t !in asserted {
      assert v.member in Vocab4(v) && v.ty in Vocab4(v) && v.membership in Vocab4(v);
    }
  }

  function Vocab4(v: Vocabulary): set<Term> {
    v.Schematic() + {v.ty, v.member, v.membership, v.proposition}
  }

  lemma ReadFamiliar(v: Vocabulary, asserted: set<Statement>, p: Term)
    requires v.Apart()
    ensures FamiliarLinks(asserted, Read(WithAxioms(v, asserted), p))
    ensures forall x :: x in Read(WithAxioms(v, asserted), p) && IsMembership(x) ==> x in TermsOf(asserted)
  {
    var known := WithAxioms(v, asserted);
    forall x, y | y in Next(Read(known, p), x) && IsMembership(y)
      ensures y in TermsOf(asserted)
    {
      ReadAt(known, p, x);
      AssertedFamiliar(v, asserted, Statement(x, p, y));
    }
    forall x | x in Read(known, p) && IsMembership(x)
      ensures x in TermsOf(asserted)
    {
      var t :| t in known && t.p == p && t.s == x;
      AssertedFamiliar(v, asserted, t);
    }
  }

  lemma ClosureFamiliar(asserted: set<Statement>, m: Links)
    requires FamiliarLinks(asserted, m)
    ensures FamiliarLinks(asserted, Closure(m))
  {
    forall x, y | y in Next(Closure(m), x) && IsMembership(y)
      ensures y in TermsOf(asserted)
    {
      ClosureAt(m, x, y);
      var w :| Walk(m, w) && w[0] == x && w[|w| - 1] == y;
      assert w[|w| - 2 + 1] in Next(m, w[|w| - 2]);
    }
  }

  lemma SchemaFamiliar(v: Vocabulary, asserted: set<Statement>)
    requires v.Apart()
    ensures var schema := SchemaOf(v, asserted);
            && FamiliarLinks(asserted, schema.superProperties) && FamiliarLinks(asserted, schema.superClasses)
            && FamiliarLinks(asserted, schema.domains) && FamiliarLinks(asserted, schema.ranges)
  {
    var known := WithAxioms(v, asserted);
    ReadFamiliar(v, asserted, v.subPropertyOf);
    ReadFamiliar(v, asserted, v.subClassOf);
    ReadFamiliar(v, asserted, v.domain);
    ReadFamiliar(v, asserted, v.range);
    ClosureFamiliar(asserted, Read(known, v.subPropertyOf));
    ClosureFamiliar(asserted, Read(known, v.subClassOf));
    assert v.proposition in Vocab4(v);
  }

  lemma StartFamiliar(v: Vocabulary, asserted: set<Statement>, t: Statement)
    requires v.Apart() && t in Start(v, asserted)
    ensures Familiar(asserted, t)
  {
    var known, schema := WithAxioms(v, asserted), SchemaOf(v, asserted);
    if t in known {
      AssertedFamiliar(v, asserted, t);
    } else {
      SchemaFamiliar(v, asserted);
      ReadFamiliar(v, asserted, v.subPropertyOf);
      ReadFamiliar(v, asserted, v.subClassOf);
      assert v.subPropertyOf in Vocab4(v) && v.subClassOf in Vocab4(v);
      if t in LinksAs(schema.superProperties, v.subPropertyOf) {
        assert t.o in Next(schema.superProperties, t.s);
      } else {
        assert t.o in Next(schema.superClasses, t.s);
      }
    }
  }

  function FamiliarTo(asserted: set<Statement>): Statement -> bool {
    (t: Statement) => Familiar(asserted, t)
  }

  lemma FamiliarStep(v: Vocabulary, asserted: set<Statement>, t: Statement, d: Statement)
    requires v.Apart() && Familiar(asserted, t) && d in Derived(v, SchemaOf(v, asserted), t)
    ensures Familiar(asserted, d)
  {
    SchemaFamiliar(v, asserted);
    assert v.ty in Vocab4(v);
    DerivedIs(v, SchemaOf(v, asserted), t, d);
  }

  lemma KnownFamiliar(v: Vocabulary, asserted: set<Statement>, known: set<Statement>)
    requires v.Apart() && IsEntailed(v, asserted, known)
    ensures forall t :: t in known ==> Familiar(asserted, t)
  {
    var schema, start := SchemaOf(v, asserted), Start(v, asserted);
    forall t | t in start
      ensures FamiliarTo(asserted)(t)
    {
      StartFamiliar(v, asserted, t);
    }
    forall t, d | t in known && FamiliarTo(asserted)(t) && d in Derived(v, schema, t)
      ensures FamiliarTo(asserted)(d)
    {
      FamiliarStep(v, asserted, t, d);
    }
    RuleInduction(v, schema, start, known, FamiliarTo(asserted));
    forall t | t in known
      ensures Familiar(asserted, t)
    {
      assert FamiliarTo(asserted)(t);
    }
  }

  lemma ReflexiveFamiliar(v: Vocabulary, asserted: set<Statement>, known: set<Statement>, t: Statement)
    requires v.Apart() && t in Reflexive(v, known)
    requires forall u :: u in known ==> Familiar(asserted, u)
    ensures Familiar(asserted, t)
  {
    assert v.subClassOf in Vocab4(v) && v.subPropertyOf in Vocab4(v);
    assert t.s == t.o && (t.s in Classes(v, known) || t.s in Properties(v, known));
    var u :| u in known && (t.s == u.s || t.s == u.p || t.s == u.o);
    assert Familiar(asserted, u);
  }

  lemma AxiomsWithin(v: Vocabulary, asserted: set<Statement>, full: set<Statement>)
    requires forall t :: t in full ==> Familiar(asserted, t)
    ensures ContainerAxioms(v, full) <= ContainerAxioms(v, asserted)
  {
    forall x | x in TermsOf(full) && IsMembership(x)
      ensures x in TermsOf(asserted)
    {
      var t :| t in full && (x == t.s || x == t.p || x == t.o);
      assert Familiar(asserted, t);
    }
  }

  // Neither the fixpoint nor the reflexive pass brings in a container position, so there is no new axiom.
  lemma NoNewAxioms(v: Vocabulary, asserted: set<Statement>, known: set<Statement>)
    requires v.Apart() && IsEntailed(v, asserted, known)
    ensures WithAxioms(v, Full(v, known)) == Full(v, known)
  {
    KnownFamiliar(v, asserted, known);
    forall t | t in Full(v, known)
      ensures Familiar(asserted, t)
    {
      if t !in known {
        ReflexiveFamiliar(v, asserted, known, t);
      }
    }
    AxiomsWithin(v, asserted, Full(v, known));
    assert ContainerAxioms(v, asserted) <= Start(v, asserted) <= known;
  }

  // --- The second run ----------------------------------------------------------------------------------------

  // Every statement about the schema that the closure holds was there when the schema was read.
  ghost predicate SchemaSettled(v: Vocabulary, asserted: set<Statement>, known: set<Statement>) {
    forall t :: t in known && t.p in v.Schematic() ==> t in Start(v, asserted)
  }

  // What the rules make of the reflexive statements is there as well.
  ghost predicate LoopsSpent(v: Vocabulary, asserted: set<Statement>, known: set<Statement>) {
    forall t :: t in Reflexive(v, known) ==> Derived(v, SchemaOf(v, asserted), t) <= Full(v, known)
  }

  ghost predicate Settled(v: Vocabulary, asserted: set<Statement>, known: set<Statement>) {
    forall k {:trigger Unlock(k)} :: Unlock(k) ==> v.Apart() && SchemaSettled(v, asserted, known) && IsEntailed(v, asserted, known)
  }

  // The schema statements of the finished store: those at the start, and loops.
  lemma FinishedSchema(v: Vocabulary, asserted: set<Statement>, known: set<Statement>, t: Statement)
    requires Settled(v, asserted, known)
    requires t in Full(v, known) && t.p in v.Schematic()
    ensures t in Start(v, asserted) || (t.s == t.o && (t.p == v.subClassOf || t.p == v.subPropertyOf))
  {
    assert Unlock(Key);
    if t !in known {
      ReflexiveIs(v, known, t);
    }
  }

  lemma StartSchema(v: Vocabulary, asserted: set<Statement>, t: Statement)
    requires v.Apart() && t in Start(v, asserted)
    ensures || t in WithAxioms(v, asserted)
            || (t.p == v.subPropertyOf && t.o in Next(SchemaOf(v, asserted).superProperties, t.s))
            || (t.p == v.subClassOf && t.o in Next(SchemaOf(v, asserted).superClasses, t.s))
  {
  }

  lemma HierarchyAgain(v: Vocabulary, asserted: set<Statement>, known: set<Statement>, p: Term, x: Term)
    requires Settled(v, asserted, known) && WithAxioms(v, asserted) <= known
    requires p == v.subClassOf || p == v.subPropertyOf
    ensures Next(Closure(Read(Full(v, known), p)), x) == Next(Closure(Read(WithAxioms(v, asserted), p)), x)
  {
    var m, more := Read(WithAxioms(v, asserted), p), Read(Full(v, known), p);
    forall u, y | y in Next(m, u)
      ensures y in Next(more, u)
    {
      ReadAt(WithAxioms(v, asserted), p, u);
      ReadAt(Full(v, known), p, u);
      assert Statement(u, p, y) in WithAxioms(v, asserted);
    }
    forall u, y | y in Next(more, u)
      ensures u == y || Above(m, u, y)
    {
      ReadAt(Full(v, known), p, u);
      FinishedLink(v, asserted, known, p, u, y);
    }
    ClosureOfMore(m, more, x);
  }

  lemma FinishedLink(v: Vocabulary, asserted: set<Statement>, known: set<Statement>, p: Term, u: Term, y: Term)
    requires Settled(v, asserted, known)
    requires p == v.subClassOf || p == v.subPropertyOf
    requires Statement(u, p, y) in Full(v, known)
    ensures u == y || Above(Read(WithAxioms(v, asserted), p), u, y)
  {
    assert Unlock(Key);
    var m, t := Read(WithAxioms(v, asserted), p), Statement(u, p, y);
    FinishedSchema(v, asserted, known, t);
    if u != y {
      StartSchema(v, asserted, t);
      ReadAt(WithAxioms(v, asserted), p, u);
      ClosureAt(m, u, y);
      if t in WithAxioms(v, asserted) {
        AboveStep(m, u, y);
      }
    }
  }

  lemma LimitsAgain(v: Vocabulary, asserted: set<Statement>, known: set<Statement>, p: Term)
    requires Settled(v, asserted, known)
    requires p == v.domain || p == v.range
    ensures Read(Full(v, known), p) == Read(WithAxioms(v, asserted), p)
  {
    assert Unlock(Key);
    forall t: Statement | t.p == p
      ensures t in Full(v, known) <==> t in WithAxioms(v, asserted)
    {
      if t in Full(v, known) {
        FinishedSchema(v, asserted, known, t);
        StartSchema(v, asserted, t);
      }
    }
    ReadSame(Full(v, known), WithAxioms(v, asserted), p);
  }

  // The two schemas lead the same way from every term.
  ghost predicate Alike(a: Schema, b: Schema) {
    && (forall x :: Next(a.superProperties, x) == Next(b.superProperties, x))
    && (forall x :: Next(a.superClasses, x) == Next(b.superClasses, x))
    && (forall x :: Next(a.domains, x) == Next(b.domains, x))
    && (forall x :: Next(a.ranges, x) == Next(b.ranges, x))
  }

  lemma SchemaAgain(v: Vocabulary, asserted: set<Statement>, known: set<Statement>)
    requires Settled(v, asserted, known)
    ensures Alike(SchemaOf(v, Full(v, known)), SchemaOf(v, asserted))
  {
    assert Unlock(Key);
    NoNewAxioms(v, asserted, known);
    forall x
      ensures Next(SchemaOf(v, Full(v, known)).superProperties, x) == Next(SchemaOf(v, asserted).superProperties, x)
      ensures Next(SchemaOf(v, Full(v, known)).superClasses, x) == Next(SchemaOf(v, asserted).superClasses, x)
    {
      HierarchyAgain(v, asserted, known, v.subPropertyOf, x);
      HierarchyAgain(v, asserted, known, v.subClassOf, x);
    }
    LimitsAgain(v, asserted, known, v.domain);
    LimitsAgain(v, asserted, known, v.range);
  }

  lemma LinksWithin(a: Links, b: Links, p: Term)
    requires forall x :: Next(a, x) == Next(b, x)
    ensures LinksAs(a, p) <= LinksAs(b, p)
  {
    forall t | t in LinksAs(a, p)
      ensures t in LinksAs(b, p)
    {
      assert t.o in Next(a, t.s);
      assert t.s in b;
    }
  }

  lemma DerivedAlike(v: Vocabulary, a: Schema, b: Schema, t: Statement)
    requires Alike(a, b)
    ensures Derived(v, a, t) == Derived(v, b, t)
  {
  }

  lemma NothingFrom(v: Vocabulary, asserted: set<Statement>, t: Statement)
    requires v.Apart() && PlainSchema(v, asserted) && (t.p == v.subClassOf || t.p == v.subPropertyOf)
    ensures Derived(v, SchemaOf(v, asserted), t) == {}
  {
    PlainRules(v, asserted, t.p);
  }

  lemma NothingFromLoops(v: Vocabulary, asserted: set<Statement>, known: set<Statement>, t: Statement)
    requires v.Apart() && PlainSchema(v, asserted) && t in Reflexive(v, known)
    ensures Derived(v, SchemaOf(v, asserted), t) == {}
  {
    ReflexiveIs(v, known, t);
    NothingFrom(v, asserted, t);
  }

  // A plain schema is settled, and its loops lead nowhere.
  lemma PlainSettles(v: Vocabulary, asserted: set<Statement>, known: set<Statement>)
    requires v.Apart() && PlainSchema(v, asserted) && IsEntailed(v, asserted, known)
    ensures Settled(v, asserted, known) && LoopsSpent(v, asserted, known)
  {
    SchemaUnderived(v, asserted, known);
    forall t | t in Reflexive(v, known)
      ensures Derived(v, SchemaOf(v, asserted), t) <= Full(v, known)
    {
      NothingFromLoops(v, asserted, known, t);
    }
  }

  lemma SecondStart(v: Vocabulary, asserted: set<Statement>, known: set<Statement>)
    requires Settled(v, asserted, known)
    ensures Start(v, Full(v, known)) == Full(v, known)
  {
    assert Unlock(Key);
    var full, first, second := Full(v, known), SchemaOf(v, asserted), SchemaOf(v, Full(v, known));
    SchemaAgain(v, asserted, known);
    NoNewAxioms(v, asserted, known);
    LinksWithin(second.superProperties, first.superProperties, v.subPropertyOf);
    LinksWithin(second.superClasses, first.superClasses, v.subClassOf);
  }

  // A second run starts from what the first left, and its fixpoint derives nothing if and only if the loops do not.
  lemma SecondRun(v: Vocabulary, asserted: set<Statement>, known: set<Statement>)
    requires Settled(v, asserted, known)
    ensures IsEntailed(v, Full(v, known), Full(v, known)) <==> LoopsSpent(v, asserted, known)
  {
    var full, first, second := Full(v, known), SchemaOf(v, asserted), SchemaOf(v, Full(v, known));
    SecondStart(v, asserted, known);
    SchemaAgain(v, asserted, known);
    forall t
      ensures Derived(v, second, t) == Derived(v, first, t)
    {
      DerivedAlike(v, second, first, t);
    }
    assert Closed(v, first, known) by {
      assert Unlock(Key);
    }
    assert LoopsSpent(v, asserted, known) <==> Closed(v, second, full);
  }

  // What the second run may still add: that the hierarchy predicates, now in use, are properties.
  function Unsaid(v: Vocabulary, full: set<Statement>): set<Statement> {
    (if v.subClassOf in Properties(v, full) then {Statement(v.subClassOf, v.subPropertyOf, v.subClassOf)} else {})
    + (if v.subPropertyOf in Properties(v, full) then {Statement(v.subPropertyOf, v.subPropertyOf, v.subPropertyOf)} else {})
  }

  lemma LoopsAgain(v: Vocabulary, known: set<Statement>, t: Statement)
    requires v.Apart() && t in Reflexive(v, Full(v, known))
    ensures t in Full(v, known) || t in Unsaid(v, Full(v, known))
  {
    var full := Full(v, known);
    if t.p == v.subClassOf {
      var u :| u in full && (t.s == u.s || t.s == u.o) && t.s in Classes(v, full);
      ClassesAgain(v, known, t.s);
    } else if t.s != v.subClassOf && t.s != v.subPropertyOf {
      PropertiesAgain(v, known, t.s);
    }
  }

  lemma ClassesAgain(v: Vocabulary, known: set<Statement>, c: Term)
    requires v.Apart() && c in Classes(v, Full(v, known))
    ensures c in Classes(v, known)
  {
  }

  lemma PropertiesAgain(v: Vocabulary, known: set<Statement>, p: Term)
    requires v.Apart() && p in Properties(v, Full(v, known)) && p != v.subClassOf && p != v.subPropertyOf
    ensures p in Properties(v, known)
  {
  }

  lemma UnsaidIsReflexive(v: Vocabulary, full: set<Statement>)
    requires v.Apart()
    ensures Unsaid(v, full) <= Reflexive(v, full)
  {
  }

  // Exactly what closing what a run left comes to: at most two statements more. So it adds nothing if and only if the
  // store already says that each hierarchy predicate it uses is a property.
  lemma TwiceExactly(v: Vocabulary, known: set<Statement>)
    requires v.Apart()
    ensures Full(v, Full(v, known)) == Full(v, known) + Unsaid(v, Full(v, known))
    ensures Full(v, Full(v, known)) == Full(v, known) <==> Unsaid(v, Full(v, known)) <= Full(v, known)
  {
    var full := Full(v, known);
    forall t | t in Reflexive(v, full)
      ensures t in full + Unsaid(v, full)
    {
      LoopsAgain(v, known, t);
    }
    UnsaidIsReflexive(v, full);
    MoreOnly(full, Reflexive(v, full), Unsaid(v, full));
  }

  lemma MoreOnly(full: set<Statement>, more: set<Statement>, unsaid: set<Statement>)
    requires unsaid <= more && forall t :: t in more ==> t in full + unsaid
    ensures full + more == full + unsaid
    ensures full + more == full <==> unsaid <= full
  {
  }

  // What the rules make of the statements the second run adds is there when it ends.
  ghost predicate UnsaidSpent(v: Vocabulary, asserted: set<Statement>, known: set<Statement>) {
    forall t :: t in Unsaid(v, Full(v, known)) ==> Derived(v, SchemaOf(v, asserted), t) <= Full(v, Full(v, known))
  }

  lemma UnsaidIs(v: Vocabulary, full: set<Statement>, t: Statement)
    requires t in Unsaid(v, full)
    ensures t.p == v.subPropertyOf
  {
  }

  lemma PlainSpends(v: Vocabulary, asserted: set<Statement>, known: set<Statement>)
    requires v.Apart() && PlainSchema(v, asserted) && IsEntailed(v, asserted, known)
    ensures UnsaidSpent(v, asserted, known)
  {
    var full := Full(v, known);
    var unsaid, end := Unsaid(v, full), Full(v, full);
    forall t | t in unsaid
      ensures Derived(v, SchemaOf(v, asserted), t) <= end
    {
      UnsaidIs(v, full, t);
      NothingFrom(v, asserted, t);
    }
  }

  // A third run adds nothing at all, if and only if the rules find nothing new in what the second added.
  lemma ThirdRun(v: Vocabulary, asserted: set<Statement>, known: set<Statement>)
    requires Settled(v, asserted, known) && LoopsSpent(v, asserted, known)
    requires forall t :: t in asserted ==> t.p.Iri?
    ensures var second := Full(v, Full(v, known));
            Full(v, second) == second && (IsEntailed(v, second, second) <==> UnsaidSpent(v, asserted, known))
  {
    var full := Full(v, known);
    SettledAgain(v, asserted, known);
    SecondRun(v, full, full);
    SpentAgain(v, asserted, known);
    assert v.Apart() by {
      assert Unlock(Key);
    }
    TwiceExactly(v, full);
    AllSaid(v, asserted, known);
  }

  lemma SettledAgain(v: Vocabulary, asserted: set<Statement>, known: set<Statement>)
    requires Settled(v, asserted, known) && LoopsSpent(v, asserted, known)
    ensures Settled(v, Full(v, known), Full(v, known))
  {
    SecondRun(v, asserted, known);
    assert Unlock(Key);
  }

  lemma SpentAgain(v: Vocabulary, asserted: set<Statement>, known: set<Statement>)
    requires Settled(v, asserted, known) && LoopsSpent(v, asserted, known)
    ensures LoopsSpent(v, Full(v, known), Full(v, known)) <==> UnsaidSpent(v, asserted, known)
  {
    var full, first, second := Full(v, known), SchemaOf(v, asserted), SchemaOf(v, Full(v, known));
    SecondRun(v, asserted, known);
    SchemaAgain(v, asserted, known);
    assert v.Apart() by {
      assert Unlock(Key);
    }
    UnsaidIsReflexive(v, full);
    forall t
      ensures Derived(v, second, t) == Derived(v, first, t)
      ensures t in Reflexive(v, full) ==> t in full || t in Unsaid(v, full)
    {
      DerivedAlike(v, second, first, t);
      if t in Reflexive(v, full) {
        LoopsAgain(v, known, t);
      }
    }
  }

  lemma AllSaid(v: Vocabulary, asserted: set<Statement>, known: set<Statement>)
    requires Settled(v, asserted, known)
    requires forall t :: t in asserted ==> t.p.Iri?
    ensures Unsaid(v, Full(v, Full(v, known))) <= Full(v, Full(v, known))
  {
    var full := Full(v, known);
    assert Unlock(Key);
    SubPropertyOfUsed(v, asserted, known);
    SubClassSaid(v, known, Full(v, full));
    if known != {} {
      PropertySaid(v, full, v.subPropertyOf);
    }
    NothingUnsaid(v, Full(v, full));
  }

  lemma SubClassSaid(v: Vocabulary, known: set<Statement>, second: set<Statement>)
    requires v.Apart() && second == Full(v, Full(v, known))
    ensures v.subClassOf in Properties(v, second) ==> Statement(v.subClassOf, v.subPropertyOf, v.subClassOf) in second
    ensures known == {} ==> second == {}
  {
    if known == {} {
      NothingReflexive(v);
    } else if v.subClassOf in Properties(v, second) {
      SubClassOfUsed(v, known);
      PropertySaid(v, Full(v, known), v.subClassOf);
    }
  }

  lemma NothingReflexive(v: Vocabulary)
    ensures Full(v, {}) == {}
    ensures v.subClassOf !in Properties(v, {})
  {
  }

  lemma NothingUnsaid(v: Vocabulary, full: set<Statement>)
    requires v.subClassOf in Properties(v, full) ==> Statement(v.subClassOf, v.subPropertyOf, v.subClassOf) in full
    requires full == {} || Statement(v.subPropertyOf, v.subPropertyOf, v.subPropertyOf) in full
    ensures Unsaid(v, full) <= full
  {
  }

  lemma PropertySaid(v: Vocabulary, full: set<Statement>, p: Term)
    requires p in Properties(v, full) && p.CanBeSubject()
    ensures Statement(p, v.subPropertyOf, p) in Full(v, full)
  {
  }

  lemma StartNothing(v: Vocabulary)
    ensures Start(v, {}) == {}
  {
    assert WithAxioms(v, {}) == {};
    assert Read({}, v.subPropertyOf) == map[] && Read({}, v.subClassOf) == map[];
  }

  lemma SubPropertyOfUsed(v: Vocabulary, asserted: set<Statement>, known: set<Statement>)
    requires IsEntailed(v, asserted, known) && forall t :: t in asserted ==> t.p.Iri?
    ensures known == {} || v.subPropertyOf in Properties(v, Full(v, known))
  {
    if asserted == {} {
      StartNothing(v);
      assert Closed(v, SchemaOf(v, asserted), {});
    } else {
      var t :| t in asserted;
      assert t in known && t.p in Properties(v, known) && t.p.CanBeSubject();
      assert Statement(t.p, v.subPropertyOf, t.p) in Full(v, known);
    }
  }

  lemma SubClassOfUsed(v: Vocabulary, known: set<Statement>)
    requires v.Apart() && v.subClassOf in Properties(v, Full(v, Full(v, known)))
    ensures v.subClassOf in Properties(v, Full(v, known))
  {
    var full := Full(v, known);
    if v.subClassOf !in Properties(v, full) {
      var u :| u in Full(v, full) && (v.subClassOf == u.s || v.subClassOf == u.p || v.subClassOf == u.o)
            && u !in full && (u.p == v.subClassOf || u.p == v.subPropertyOf);
      if u.p == v.subClassOf {
        assert u.s in Classes(v, full);
        ClassesAgain(v, known, u.s);
      }
    }
  }
}
