/**
 What a run is sure to add (crates/holos-engine/src/entailment.rs), statement by statement: the container positions spelled
 out, and each rule on what the store asserted, with the kinds of term the rules turn on named one by one.
 */
module Consequences {
  import opened Options
  import opened Rdf
  import opened Hierarchies
  import opened Rdfs
  import opened Materialise
  import opened Rematerialise
  import opened Reruns

  // --- Container positions ----------------------------------------------------------------------------------------

  function Numeral(n: nat): string {
    if n < 10 then [('0' as int + n) as char] else Numeral(n / 10) + [('0' as int + n % 10) as char]
  }

  // `rdf:_n`.
  function Position(n: nat): Term {
    Iri("http://www.w3.org/1999/02/22-rdf-syntax-ns#_" + Numeral(n))
  }

  predicate IsNumbered(t: Term) {
    t.Iri? && exists at :: 0 <= at < |t.iri| && NumberedFrom(t.iri, at)
  }

  // The RDF namespace and an underscore, and from there on digits, one at least.
  predicate NumberedFrom(iri: string, at: nat)
    requires at < |iri|
  {
    iri[..at] == "http://www.w3.org/1999/02/22-rdf-syntax-ns#_" && forall c :: c in iri[at..] ==> c in "0123456789"
  }

  lemma DigitIs(c: char)
    ensures c in "0123456789" <==> '0' <= c <= '9'
  {
    var digits := "0123456789";
    assert digits[0] == '0' && digits[1] == '1' && digits[2] == '2' && digits[3] == '3' && digits[4] == '4';
    assert digits[5] == '5' && digits[6] == '6' && digits[7] == '7' && digits[8] == '8' && digits[9] == '9';
    if '0' <= c <= '9' {
      assert c == digits[c as int - '0' as int];
    }
  }

  lemma {:induction false} NumeralDigits(n: nat)
    ensures Numeral(n) != [] && forall c :: c in Numeral(n) ==> '0' <= c <= '9'
  {
    if n >= 10 {
      NumeralDigits(n / 10);
    }
  }

  // The terms that get axioms are exactly the numbered ones.
  lemma MembershipExactly(t: Term)
    ensures IsMembership(t) <==> IsNumbered(t)
  {
    assert |MEMBERSHIP_PREFIX| == 44;
    if IsMembership(t) {
      var at := 44;
      forall c | c in t.iri[at..]
        ensures c in "0123456789"
      {
        var i :| 0 <= i < |t.iri[at..]| && t.iri[at..][i] == c;
        assert t.iri[at + i] == c;
        DigitIs(c);
      }
      assert NumberedFrom(t.iri, at);
    }
    if IsNumbered(t) {
      var at :| 0 <= at < |t.iri| && NumberedFrom(t.iri, at);
      assert |t.iri[..at]| == at == 44;
      forall i | 44 <= i < |t.iri|
        ensures '0' <= t.iri[i] <= '9'
      {
        assert t.iri[i] in t.iri[at..];
        DigitIs(t.iri[i]);
      }
    }
  }

  lemma PositionIs(n: nat)
    ensures IsMembership(Position(n))
  {
    NumeralDigits(n);
    assert |MEMBERSHIP_PREFIX| == 44;
    var iri := Position(n).iri;
    assert iri[..44] == MEMBERSHIP_PREFIX;
    forall i | 44 <= i < |iri|
      ensures '0' <= iri[i] <= '9'
    {
      assert iri[i] == Numeral(n)[i - 44] && Numeral(n)[i - 44] in Numeral(n);
    }
  }

  // An axiom is about a numbered term of the store, and says one of two things of it.
  lemma AxiomsOnly(v: Vocabulary, s: set<Statement>, t: Statement)
    ensures t in ContainerAxioms(v, s)
       <==> IsNumbered(t.s) && (exists u :: u in s && (t.s == u.s || t.s == u.p || t.s == u.o))
            && ((t.p == v.ty && t.o == v.membership) || (t.p == v.subPropertyOf && t.o == v.member))
  {
    MembershipExactly(t.s);
    if u :| u in s && (t.s == u.s || t.s == u.p || t.s == u.o) {
      assert t.s in TermsOf(s);
    }
  }

  // --- What a finished run has said ---------------------------------------------------------------------------------

  ghost predicate Ran(v: Vocabulary, before: set<Quad>, after: set<Quad>, known: set<Statement>) {
    v.Apart() && Subjects(Statements(before)) && IsEntailed(v, Statements(before), known) && Statements(after) == Full(v, known)
  }

  lemma RanWhen(v: Vocabulary, before: set<Quad>, after: set<Quad>, graph: Option<Term>, known: set<Statement>, added: nat)
    requires v.Apart() && Subjects(Statements(before)) && Completed(v, before, after, graph, known, added)
    ensures Ran(v, before, after, known)
  {
    AfterRun(v, before, after, graph, known, added);
  }

  lemma Started(v: Vocabulary, before: set<Quad>, after: set<Quad>, known: set<Statement>, t: Statement)
    requires Ran(v, before, after, known) && t in WithAxioms(v, Statements(before))
    ensures t in known && t in Statements(after)
  {
  }

  lemma Concluded(v: Vocabulary, before: set<Quad>, after: set<Quad>, known: set<Statement>, t: Statement, d: Statement)
    requires Ran(v, before, after, known) && t in known && d in Derived(v, SchemaOf(v, Statements(before)), t)
    ensures d in Statements(after)
  {
    assert Derived(v, SchemaOf(v, Statements(before)), t) <= known;
  }

  lemma Inherited(v: Vocabulary, before: set<Quad>, after: set<Quad>, known: set<Statement>, a: Statement, t: Statement)
    requires Ran(v, before, after, known) && a in WithAxioms(v, Statements(before)) && t in known
    requires a.p == v.subPropertyOf && t.p == a.s
    ensures Statement(t.s, a.o, t.o) in Statements(after)
  {
    if a.o != a.s {
      LinkClosed(WithAxioms(v, Statements(before)), v.subPropertyOf, a.s, a.o);
      assert Statement(t.s, a.o, t.o) in Rdfs7(SchemaOf(v, Statements(before)), t);
      Concluded(v, before, after, known, t, Statement(t.s, a.o, t.o));
    }
  }

  // Whatever a store says by `rdf:_n`, for whatever n, it says by `rdfs:member` once the run has finished, and says that
  // `rdf:_n` is a container membership property under `rdfs:member`.
  lemma PositionsNamed(v: Vocabulary, before: set<Quad>, after: set<Quad>, known: set<Statement>, x: Term, n: nat, y: Term)
    requires Ran(v, before, after, known) && Statement(x, Position(n), y) in Statements(before)
    ensures Statement(x, v.member, y) in Statements(after)
    ensures Statement(Position(n), v.ty, v.membership) in Statements(after)
    ensures Statement(Position(n), v.subPropertyOf, v.member) in Statements(after)
  {
    var p, asserted := Position(n), Statements(before);
    PositionIs(n);
    assert p in TermsOf(asserted);
    var a, b := Statement(p, v.ty, v.membership), Statement(p, v.subPropertyOf, v.member);
    assert a in WithAxioms(v, asserted) && b in WithAxioms(v, asserted);
    Started(v, before, after, known, a);
    Started(v, before, after, known, b);
    Started(v, before, after, known, Statement(x, p, y));
    Inherited(v, before, after, known, b, Statement(x, p, y));
  }

  // rdfs7 and rdfs9.
  lemma RunInherits(v: Vocabulary, before: set<Quad>, after: set<Quad>, known: set<Statement>, a: Statement, t: Statement)
    requires Ran(v, before, after, known) && a in Statements(before) && t in Statements(before)
    ensures a.p == v.subPropertyOf && t.p == a.s ==> Statement(t.s, a.o, t.o) in Statements(after)
    ensures a.p == v.subClassOf && t.p == v.ty && t.o == a.s ==> Statement(t.s, v.ty, a.o) in Statements(after)
  {
    Started(v, before, after, known, t);
    if a.p == v.subPropertyOf && t.p == a.s {
      Inherited(v, before, after, known, a, t);
    }
    if a.p == v.subClassOf && t.p == v.ty && t.o == a.s && a.s != a.o {
      LinkClosed(WithAxioms(v, Statements(before)), v.subClassOf, a.s, a.o);
      assert Statement(t.s, v.ty, a.o) in Rdfs9(v, SchemaOf(v, Statements(before)), t);
      Concluded(v, before, after, known, t, Statement(t.s, v.ty, a.o));
    }
  }

  lemma LimitsOf(v: Vocabulary, asserted: set<Statement>, a: Statement)
    requires a in asserted
    ensures a.p == v.domain ==> a.o in Next(SchemaOf(v, asserted).domains, a.s)
    ensures a.p == v.range ==> a.o in Next(SchemaOf(v, asserted).ranges, a.s)
    ensures v.proposition in Next(SchemaOf(v, asserted).ranges, v.reifies)
  {
    ReadAt(WithAxioms(v, asserted), v.domain, a.s);
    ReadAt(WithAxioms(v, asserted), v.range, a.s);
  }

  // rdfs2, and rdfs3 for an IRI or a blank node; a literal or a triple term is given no type.
  lemma RunTypes(v: Vocabulary, before: set<Quad>, after: set<Quad>, known: set<Statement>, a: Statement, t: Statement)
    requires Ran(v, before, after, known) && a in Statements(before) && t in Statements(before)
    ensures a.p == v.domain && t.p == a.s ==> Statement(t.s, v.ty, a.o) in Statements(after)
    ensures a.p == v.range && t.p == a.s && (t.o.Iri? || t.o.Blank?) ==> Statement(t.o, v.ty, a.o) in Statements(after)
    ensures t.p == v.reifies && (t.o.Iri? || t.o.Blank?) ==> Statement(t.o, v.ty, v.proposition) in Statements(after)
  {
    var schema := SchemaOf(v, Statements(before));
    Started(v, before, after, known, t);
    LimitsOf(v, Statements(before), a);
    if a.p == v.domain && t.p == a.s {
      assert Statement(t.s, v.ty, a.o) in Rdfs2(v, schema, t);
      Concluded(v, before, after, known, t, Statement(t.s, v.ty, a.o));
    }
    if a.p == v.range && t.p == a.s && (t.o.Iri? || t.o.Blank?) {
      assert Statement(t.o, v.ty, a.o) in Rdfs3(v, schema, t);
      Concluded(v, before, after, known, t, Statement(t.o, v.ty, a.o));
    }
    if t.p == v.reifies && (t.o.Iri? || t.o.Blank?) {
      assert Statement(t.o, v.ty, v.proposition) in Rdfs3(v, schema, t);
      Concluded(v, before, after, known, t, Statement(t.o, v.ty, v.proposition));
    }
  }

  lemma SubjectsOnly(v: Vocabulary, before: set<Quad>, after: set<Quad>, known: set<Statement>, t: Statement)
    requires Ran(v, before, after, known) && t in Statements(after)
    ensures t.s.Iri? || t.s.Blank?
  {
    FullIsWritable(v, Statements(before), known);
  }

  // rdfs5 and rdfs11.
  lemma RunChains(v: Vocabulary, before: set<Quad>, after: set<Quad>, known: set<Statement>, a: Statement, b: Statement)
    requires Ran(v, before, after, known) && a in Statements(before) && b in Statements(before) && a.o == b.s && a.p == b.p
    ensures a.p == v.subPropertyOf || a.p == v.subClassOf ==> Statement(a.s, a.p, b.o) in Statements(after)
  {
    var s := WithAxioms(v, Statements(before));
    var m := Read(s, a.p);
    if a.s == b.o {
      Started(v, before, after, known, a);
      LoopSaid(v, before, after, known, a);
    } else if a.p == v.subPropertyOf || a.p == v.subClassOf {
      ReadAt(s, a.p, a.s);
      ReadAt(s, a.p, b.s);
      AboveStep(m, a.s, a.o);
      AboveStep(m, b.s, b.o);
      AboveTwice(m, a.s, a.o, b.o);
      ClosureAt(m, a.s, b.o);
      assert Statement(a.s, a.p, b.o) in LinksAs(Closure(m), a.p);
      assert Statement(a.s, a.p, b.o) in Start(v, Statements(before));
    }
  }

  lemma LoopSaid(v: Vocabulary, before: set<Quad>, after: set<Quad>, known: set<Statement>, a: Statement)
    requires Ran(v, before, after, known) && a in known && a in Statements(before)
    ensures a.p == v.subPropertyOf || a.p == v.subClassOf ==> Statement(a.s, a.p, a.s) in Statements(after)
  {
    if a.p == v.subPropertyOf {
      assert a.s in Properties(v, known);
      assert Statement(a.s, a.p, a.s) in Reflexive(v, known);
    } else if a.p == v.subClassOf {
      assert a.s in Classes(v, known);
      assert Statement(a.s, a.p, a.s) in Reflexive(v, known);
    }
  }

  // rdfs6 and rdfs10: every predicate used, and every IRI or blank node in a place that makes it a property or a class.
  lemma RunReflexive(v: Vocabulary, before: set<Quad>, after: set<Quad>, known: set<Statement>, t: Statement)
    requires Ran(v, before, after, known) && t in Statements(before)
    ensures t.p.Iri? ==> Statement(t.p, v.subPropertyOf, t.p) in Statements(after)
    ensures t.p == v.subPropertyOf || t.p == v.domain || t.p == v.range ==> Statement(t.s, v.subPropertyOf, t.s) in Statements(after)
    ensures t.p == v.subPropertyOf && (t.o.Iri? || t.o.Blank?) ==> Statement(t.o, v.subPropertyOf, t.o) in Statements(after)
    ensures (t.p == v.ty || t.p == v.subClassOf || t.p == v.domain || t.p == v.range) && (t.o.Iri? || t.o.Blank?) ==>
              Statement(t.o, v.subClassOf, t.o) in Statements(after)
    ensures t.p == v.subClassOf ==> Statement(t.s, v.subClassOf, t.s) in Statements(after)
  {
    Started(v, before, after, known, t);
    SubjectsOnly(v, before, after, known, t);
    assert t.p in Properties(v, known);
    if t.p == v.subPropertyOf || t.p == v.domain || t.p == v.range {
      assert t.s in Properties(v, known);
    }
    if t.p == v.subPropertyOf {
      assert t.o in Properties(v, known);
    }
    if t.p == v.ty || t.p == v.subClassOf || t.p == v.domain || t.p == v.range {
      assert t.o in Classes(v, known);
    }
    if t.p == v.subClassOf {
      assert t.s in Classes(v, known);
    }
  }

  // Some statement uses the term as a class: after `a`, on either side of a subclass statement, or as a domain or a range.
  ghost predicate UsedAsClass(v: Vocabulary, known: set<Statement>, c: Term) {
    exists u :: u in known &&
      ((u.o == c && u.p in {v.ty, v.subClassOf, v.domain, v.range}) || (u.s == c && u.p == v.subClassOf))
  }

  // Or as a property: as a predicate, on either side of a subproperty statement, or as what has a domain or a range.
  ghost predicate UsedAsProperty(v: Vocabulary, known: set<Statement>, p: Term) {
    exists u :: u in known &&
      (u.p == p || (u.s == p && u.p in {v.subPropertyOf, v.domain, v.range}) || (u.o == p && u.p == v.subPropertyOf))
  }

  // Nothing else is said of itself.
  lemma ReflexiveOnly(v: Vocabulary, known: set<Statement>, t: Statement)
    ensures t in Reflexive(v, known)
       <==> t.s == t.o && (t.s.Iri? || t.s.Blank?)
            && ((t.p == v.subClassOf && UsedAsClass(v, known, t.s)) || (t.p == v.subPropertyOf && UsedAsProperty(v, known, t.s)))
  {
    ClassesExactly(v, known, t.s);
    PropertiesExactly(v, known, t.s);
  }

  lemma ClassesExactly(v: Vocabulary, known: set<Statement>, c: Term)
    ensures c in Classes(v, known) <==> UsedAsClass(v, known, c)
  {
  }

  lemma PropertiesExactly(v: Vocabulary, known: set<Statement>, p: Term)
    ensures p in Properties(v, known) <==> UsedAsProperty(v, known, p)
  {
  }

  // --- Quads --------------------------------------------------------------------------------------------------------

  // A store says what some graph of it says, the default graph among them.
  lemma SaysIs(quads: set<Quad>, s: Term, p: Term, o: Term)
    ensures Statement(s, p, o) in Statements(quads) <==> exists graph :: Quad(s, p, o, graph) in quads
  {
    if Statement(s, p, o) in Statements(quads) {
      var q :| q in quads && Statement(s, p, o) == Statement(q.s, q.p, q.o);
      assert q == Quad(s, p, o, q.graph);
    }
    if graph :| Quad(s, p, o, graph) in quads {
      assert Quad(s, p, o, graph) in quads;
    }
  }

  // A finished run takes nothing away, writes to the one graph it was given, and writes what no graph said before.
  lemma WrittenThere(v: Vocabulary, before: set<Quad>, after: set<Quad>, graph: Option<Term>, known: set<Statement>, added: nat, q: Quad)
    requires v.Apart() && Subjects(Statements(before)) && Completed(v, before, after, graph, known, added)
    ensures before <= after
    ensures q in after && q !in before ==> q.graph == graph && !(exists other :: Quad(q.s, q.p, q.o, other) in before)
    ensures Statement(q.s, q.p, q.o) in Full(v, known) && !(exists other :: Quad(q.s, q.p, q.o, other) in before) ==>
              Quad(q.s, q.p, q.o, graph) in after
  {
    SaysIs(before, q.s, q.p, q.o);
    FullIsWritable(v, Statements(before), known);
  }
}
