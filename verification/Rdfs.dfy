/**
 Materialising the RDFS closure of a store (crates/holos-engine/src/entailment.rs). The schema is read
 once; rdfs2, rdfs3, rdfs7 and rdfs9 then run from a frontier until nothing new appears; the reflexive
 statements follow, and the store is written last, so that a run over its budget leaves it as it was.
 */
module Rdfs {
  import opened Options
  import opened Rdf
  import opened Hierarchies

  datatype Statement = Statement(s: Term, p: Term, o: Term)

  // The terms the rules turn on.
  datatype Vocabulary = Vocabulary(
    ty: Term, subClassOf: Term, subPropertyOf: Term, domain: Term, range: Term,
    member: Term, membership: Term, reifies: Term, proposition: Term)
  {
    predicate Valid() {
      && ty != subClassOf && ty != subPropertyOf && ty != domain && ty != range
      && subClassOf != subPropertyOf && subClassOf != domain && subClassOf != range
      && subPropertyOf != domain && subPropertyOf != range && domain != range
    }

    // Every term of the vocabulary is its own, and none is a container position.
    predicate Apart() {
      && Valid() && ty.Iri? && subClassOf.Iri? && subPropertyOf.Iri? && proposition.Iri?
      && member !in Schematic() && reifies !in Schematic()
      && forall x :: x in Schematic() + {ty, member, membership, proposition} ==> !IsMembership(x)
    }

    // The predicates the schema maps are read from.
    function Schematic(): set<Term> {
      {subClassOf, subPropertyOf, domain, range}
    }
  }

  // `rdf:_1`, `rdf:_2` and so on: the prefix, and digits.
  const MEMBERSHIP_PREFIX := "http://www.w3.org/1999/02/22-rdf-syntax-ns#_"

  predicate IsMembership(t: Term) {
    && t.Iri?
    && |MEMBERSHIP_PREFIX| < |t.iri|
    && t.iri[..|MEMBERSHIP_PREFIX|] == MEMBERSHIP_PREFIX
    && forall i :: |MEMBERSHIP_PREFIX| <= i < |t.iri| ==> '0' <= t.iri[i] <= '9'
  }

  // --- The schema ------------------------------------------------------------------------------------------

  function Objects(known: set<Statement>, p: Term, s: Term): set<Term> {
    set t | t in known && t.p == p && t.s == s :: t.o
  }

  function Read(known: set<Statement>, p: Term): Links {
    map t | t in known && t.p == p :: t.s := Objects(known, p, t.s)
  }

  datatype Schema = Schema(superProperties: Links, superClasses: Links, domains: Links, ranges: Links)

  function TermsOf(known: set<Statement>): set<Term> {
    (set t | t in known :: t.s) + (set t | t in known :: t.p) + (set t | t in known :: t.o)
  }

  // rdfs12, for the container positions among some terms.
  function AxiomsFor(v: Vocabulary, terms: set<Term>): set<Statement> {
    (set t | t in terms && IsMembership(t) :: Statement(t, v.ty, v.membership))
    + (set t | t in terms && IsMembership(t) :: Statement(t, v.subPropertyOf, v.member))
  }

  function ContainerAxioms(v: Vocabulary, known: set<Statement>): set<Statement> {
    AxiomsFor(v, TermsOf(known))
  }

  function WithAxioms(v: Vocabulary, asserted: set<Statement>): set<Statement> {
    asserted + ContainerAxioms(v, asserted)
  }

  function WithReifies(v: Vocabulary, ranges: Links): Links {
    ranges[v.reifies := Next(ranges, v.reifies) + {v.proposition}]
  }

  ghost function SchemaOf(v: Vocabulary, asserted: set<Statement>): Schema {
    var known := WithAxioms(v, asserted);
    Schema(Closure(Read(known, v.subPropertyOf)), Closure(Read(known, v.subClassOf)),
           Read(known, v.domain), WithReifies(v, Read(known, v.range)))
  }

  function LinksAs(m: Links, p: Term): set<Statement> {
    set k, y | k in m && y in m[k] :: Statement(k, p, y)
  }

  // What the rules start from: the assertions, the container axioms and the closed hierarchies.
  ghost function Start(v: Vocabulary, asserted: set<Statement>): set<Statement> {
    var schema := SchemaOf(v, asserted);
    WithAxioms(v, asserted) + LinksAs(schema.superProperties, v.subPropertyOf) + LinksAs(schema.superClasses, v.subClassOf)
  }

  // --- The rules -------------------------------------------------------------------------------------------

  function Rdfs7(schema: Schema, t: Statement): set<Statement> {
    set q | q in Next(schema.superProperties, t.p) :: Statement(t.s, q, t.o)
  }

  function Rdfs2(v: Vocabulary, schema: Schema, t: Statement): set<Statement> {
    set c | c in Next(schema.domains, t.p) :: Statement(t.s, v.ty, c)
  }

  // Not for a literal object: no triple can say what it entails.
  function Rdfs3(v: Vocabulary, schema: Schema, t: Statement): set<Statement> {
    if t.o.CanBeSubject() then set c | c in Next(schema.ranges, t.p) :: Statement(t.o, v.ty, c) else {}
  }

  function Rdfs9(v: Vocabulary, schema: Schema, t: Statement): set<Statement> {
    if t.p == v.ty then set d | d in Next(schema.superClasses, t.o) :: Statement(t.s, v.ty, d) else {}
  }

  function Derived(v: Vocabulary, schema: Schema, t: Statement): set<Statement> {
    Rdfs7(schema, t) + Rdfs2(v, schema, t) + Rdfs3(v, schema, t) + Rdfs9(v, schema, t)
  }

  ghost predicate Closed(v: Vocabulary, schema: Schema, known: set<Statement>) {
    forall t :: t in known ==> Derived(v, schema, t) <= known
  }

  // In every closed set that holds what the rules start from.
  ghost predicate Forced(v: Vocabulary, schema: Schema, start: set<Statement>, known: set<Statement>) {
    forall other: set<Statement> {:trigger Closed(v, schema, other)} ::
      start <= other && Closed(v, schema, other) ==> known <= other
  }

  ghost predicate IsLeast(v: Vocabulary, schema: Schema, start: set<Statement>, known: set<Statement>) {
    start <= known && Closed(v, schema, known) && Forced(v, schema, start, known)
  }

  lemma LeastIsUnique(v: Vocabulary, schema: Schema, start: set<Statement>, a: set<Statement>, b: set<Statement>)
    requires IsLeast(v, schema, start, a) && IsLeast(v, schema, start, b)
    ensures a == b
  {
  }

  // What holds of everything the rules start from, and of what they make of statements it holds of.
  lemma RuleInduction(v: Vocabulary, schema: Schema, start: set<Statement>, known: set<Statement>, good: Statement -> bool)
    requires IsLeast(v, schema, start, known)
    requires forall t :: t in start ==> good(t)
    requires forall t, d :: t in known && good(t) && d in Derived(v, schema, t) ==> good(d)
    ensures forall t :: t in known ==> good(t)
  {
    var kept := set t | t in known && good(t);
    forall t | t in kept
      ensures Derived(v, schema, t) <= kept
    {
    }
    assert Closed(v, schema, kept);
  }

  lemma DerivedIs(v: Vocabulary, schema: Schema, t: Statement, d: Statement)
    requires d in Derived(v, schema, t)
    ensures || (d.s == t.s && d.o == t.o && d.p in Next(schema.superProperties, t.p))
            || (d.s == t.s && d.p == v.ty && d.o in Next(schema.domains, t.p))
            || (d.s == t.o && t.o.CanBeSubject() && d.p == v.ty && d.o in Next(schema.ranges, t.p))
            || (d.s == t.s && t.p == v.ty && d.p == v.ty && d.o in Next(schema.superClasses, t.o))
  {
  }

  // The closure of what a store asserts.
  ghost predicate IsEntailed(v: Vocabulary, asserted: set<Statement>, known: set<Statement>) {
    IsLeast(v, SchemaOf(v, asserted), Start(v, asserted), known)
  }

  lemma ForcedMore(v: Vocabulary, schema: Schema, start: set<Statement>, known: set<Statement>, t: Statement, more: set<Statement>)
    requires Forced(v, schema, start, known) && t in known && more <= Derived(v, schema, t)
    ensures Forced(v, schema, start, known + more)
  {
    forall other: set<Statement> | start <= other && Closed(v, schema, other)
      ensures known + more <= other
    {
      assert t in other;
    }
  }

  // --- Termination: no rule invents a term -----------------------------------------------------------------

  ghost function Vocab(v: Vocabulary, schema: Schema, start: set<Statement>): set<Term> {
    TermsOf(start) + Targets(schema.superProperties) + Targets(schema.superClasses)
    + Targets(schema.domains) + Targets(schema.ranges) + {v.ty}
  }

  ghost function Universe(terms: set<Term>): set<Statement> {
    set s, p, o | s in terms && p in terms && o in terms :: Statement(s, p, o)
  }

  lemma NextInTargets(m: Links, x: Term)
    ensures Next(m, x) <= Targets(m)
  {
  }

  lemma DerivedInUniverse(v: Vocabulary, schema: Schema, start: set<Statement>, t: Statement)
    requires t in Universe(Vocab(v, schema, start))
    ensures Derived(v, schema, t) <= Universe(Vocab(v, schema, start))
  {
    NextInTargets(schema.superProperties, t.p);
    NextInTargets(schema.domains, t.p);
    NextInTargets(schema.ranges, t.p);
    NextInTargets(schema.superClasses, t.o);
  }

  lemma StartInUniverse(v: Vocabulary, schema: Schema, start: set<Statement>)
    ensures start <= Universe(Vocab(v, schema, start))
  {
    forall t | t in start
      ensures t in Universe(Vocab(v, schema, start))
    {
      assert t == Statement(t.s, t.p, t.o);
      assert t.s in TermsOf(start) && t.p in TermsOf(start) && t.o in TermsOf(start);
    }
  }

  // --- The reflexive pass ----------------------------------------------------------------------------------

  // Terms in a position that makes them a class.
  function Classes(v: Vocabulary, known: set<Statement>): set<Term> {
    (set t | t in known && (t.p == v.ty || t.p == v.subClassOf || t.p == v.domain || t.p == v.range) :: t.o)
    + (set t | t in known && t.p == v.subClassOf :: t.s)
  }

  // Terms in a position that makes them a property.
  function Properties(v: Vocabulary, known: set<Statement>): set<Term> {
    (set t | t in known :: t.p)
    + (set t | t in known && (t.p == v.subPropertyOf || t.p == v.domain || t.p == v.range) :: t.s)
    + (set t | t in known && t.p == v.subPropertyOf :: t.o)
  }

  // rdfs6 and rdfs10.
  function Reflexive(v: Vocabulary, known: set<Statement>): set<Statement> {
    (set c | c in Classes(v, known) && c.CanBeSubject() :: Statement(c, v.subClassOf, c))
    + (set p | p in Properties(v, known) && p.CanBeSubject() :: Statement(p, v.subPropertyOf, p))
  }

  function Full(v: Vocabulary, known: set<Statement>): set<Statement> {
    known + Reflexive(v, known)
  }

  lemma ReflexiveIs(v: Vocabulary, known: set<Statement>, t: Statement)
    requires t in Reflexive(v, known)
    ensures t.s == t.o && t.s.CanBeSubject()
    ensures (t.p == v.subClassOf && t.s in Classes(v, known)) || (t.p == v.subPropertyOf && t.s in Properties(v, known))
  {
  }

  // There is always such a closure: what every closed set holds, of the statements there are to make.
  lemma EntailmentExists(v: Vocabulary, asserted: set<Statement>) returns (known: set<Statement>)
    ensures IsEntailed(v, asserted, known)
  {
    var schema, start := SchemaOf(v, asserted), Start(v, asserted);
    var all := Universe(Vocab(v, schema, start));
    known := set t | t in all && Unavoidable(v, schema, start, t);
    StartInUniverse(v, schema, start);
    forall t | t in known
      ensures Derived(v, schema, t) <= known
    {
      DerivedInUniverse(v, schema, start, t);
    }
    UniverseClosed(v, schema, start);
    assert Forced(v, schema, start, known);
  }

  ghost predicate Unavoidable(v: Vocabulary, schema: Schema, start: set<Statement>, t: Statement) {
    forall other: set<Statement> {:trigger Closed(v, schema, other)} :: start <= other && Closed(v, schema, other) ==> t in other
  }

  lemma UniverseClosed(v: Vocabulary, schema: Schema, start: set<Statement>)
    ensures Closed(v, schema, Universe(Vocab(v, schema, start)))
  {
    forall t | t in Universe(Vocab(v, schema, start))
      ensures Derived(v, schema, t) <= Universe(Vocab(v, schema, start))
    {
      DerivedInUniverse(v, schema, start, t);
    }
  }
}
