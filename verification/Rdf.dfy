module Options {
  datatype Option<+T> = None | Some(value: T)
}

/**
 RDF terms, quads and the store as a query sees it. A term's 64-bit id is modelled by the term
 itself: id equality is term equality (crates/holos-core/src/term_id.rs:95-100), and `Inline`
 proves the injectivity that rests on.
 */
module Rdf {
  import opened Options

  const XSD_STRING := "http://www.w3.org/2001/XMLSchema#string"
  const XSD_BOOLEAN := "http://www.w3.org/2001/XMLSchema#boolean"

  datatype BaseDirection = Undirected | Ltr | Rtl

  datatype Term =
    | Iri(iri: string)
    | Blank(node: string)
    | Typed(lexical: string, kind: string)
    | Tagged(text: string, lang: string, direction: BaseDirection)
    | Quoted(subj: Term, pred: Term, obj: Term)
  {
    predicate IsPlain() {
      Typed? && kind == XSD_STRING
    }

    // Whether the term may stand in the subject position of a triple.
    predicate CanBeSubject() {
      Iri? || Blank?
    }
  }

  // `graph` is None for the default graph.
  datatype Quad = Quad(s: Term, p: Term, o: Term, graph: Option<Term>)

  // The store through one session: the quads it may see, and the terms the dictionary holds.
  datatype View = View(quads: seq<Quad>, dict: set<Term>)
  {
    ghost predicate Valid() {
      && (forall q :: q in quads ==> q.s in dict && q.p in dict && q.o in dict)
      && (forall q :: q in quads && q.graph.Some? ==> q.graph.value in dict)
      && (forall i, j :: 0 <= i < j < |quads| ==> quads[i] != quads[j])
    }

    ghost function GraphNames(): set<Term> {
      set q | q in quads && q.graph.Some? :: q.graph.value
    }

    predicate Edge(graph: Option<Term>, p: Term, x: Term, y: Term) {
      Quad(x, p, y, graph) in quads
    }

    // The subjects and objects of a graph's triples (SPARQL 1.1 Query, section 18.4, nodes(G)).
    ghost function Nodes(graph: Option<Term>): set<Term> {
      (set q | q in quads && q.graph == graph :: q.s) + (set q | q in quads && q.graph == graph :: q.o)
    }
  }
}

/** Solutions: partial maps from variables to terms, and bags of them as sequences. */
module Solutions {
  import opened Options
  import opened Bags
  import opened Rdf

  type Var = string
  type Solution = map<Var, Term>

  ghost predicate Compatible(a: Solution, b: Solution) {
    forall v :: v in a && v in b ==> a[v] == b[v]
  }

  function Restrict(s: Solution, vs: set<Var>): Solution {
    map v | v in s && v in vs :: s[v]
  }

  // --- Join ------------------------------------------------------------------------------------

  ghost function Merge(a: Solution, b: Solution): seq<Solution> {
    if Compatible(a, b) then [a + b] else []
  }

  ghost function Against(a: Solution): Solution -> seq<Solution> {
    b => Merge(a, b)
  }

  ghost function JoinOne(a: Solution, bs: seq<Solution>): seq<Solution> {
    FlatMap(bs, Against(a))
  }

  ghost function JoinedWith(bs: seq<Solution>): Solution -> seq<Solution> {
    a => JoinOne(a, bs)
  }

  // Join(A, B) of SPARQL 1.1 Query, section 18.5, with its multiplicities.
  ghost function JoinBags(xs: seq<Solution>, ys: seq<Solution>): seq<Solution> {
    FlatMap(xs, JoinedWith(ys))
  }

  lemma JoinOneAppend(a: Solution, xs: seq<Solution>, ys: seq<Solution>)
    ensures JoinOne(a, xs + ys) == JoinOne(a, xs) + JoinOne(a, ys)
  {
    FlatMapAppend(xs, ys, Against(a));
  }

  lemma JoinAppend(xs: seq<Solution>, ys: seq<Solution>, zs: seq<Solution>)
    ensures JoinBags(xs + ys, zs) == JoinBags(xs, zs) + JoinBags(ys, zs)
  {
    FlatMapAppend(xs, ys, JoinedWith(zs));
  }

  lemma JoinSingle(a: Solution, bs: seq<Solution>)
    ensures JoinBags([a], bs) == JoinOne(a, bs)
  {
    FlatMapOne(a, JoinedWith(bs));
  }

  lemma MergeEmpty(a: Solution)
    ensures Merge(a, map[]) == [a] && Merge(map[], a) == [a]
  {
    assert a + map[] == a;
    assert map[] + a == a;
  }

  lemma {:induction false} JoinIdentity(xs: seq<Solution>)
    ensures JoinBags(xs, [map[]]) == xs
    ensures JoinBags([map[]], xs) == xs
  {
    JoinSingle(map[], xs);
    if xs != [] {
      JoinIdentity(xs[1..]);
      JoinSingle(map[], xs[1..]);
      MergeEmpty(xs[0]);
      FlatMapOne(map[], Against(xs[0]));
      assert JoinedWith([map[]])(xs[0]) == [xs[0]];
    }
  }

  // Three partial maps merge in either grouping, or in neither.
  lemma MergeAssociative(a: Solution, b: Solution, c: Solution)
    requires Compatible(a, b)
    ensures Merge(a + b, c) == JoinOne(a, Merge(b, c))
  {
    FlatMapOne(b + c, Against(a));
    assert Compatible(a + b, c) <==> Compatible(b, c) && Compatible(a, b + c) by {
      if Compatible(a + b, c) {
        forall v | v in b && v in c
          ensures b[v] == c[v]
        {
          assert (a + b)[v] == b[v];
        }
      }
      if Compatible(b, c) && Compatible(a, b + c) {
        forall v | v in a + b && v in c
          ensures (a + b)[v] == c[v]
        {
          assert v in b + c;
        }
      }
    }
    assert (a + b) + c == a + (b + c);
  }

  lemma MergeConflict(a: Solution, b: Solution, c: Solution)
    requires !Compatible(a, b)
    ensures JoinOne(a, Merge(b, c)) == []
  {
    if Compatible(b, c) {
      FlatMapOne(b + c, Against(a));
      var v :| v in a && v in b && a[v] != b[v];
      assert (b + c)[v] == b[v];
    }
  }

  lemma {:induction false} MergeThenJoin(a: Solution, b: Solution, cs: seq<Solution>)
    ensures JoinBags(Merge(a, b), cs) == JoinOne(a, JoinOne(b, cs))
  {
    if Compatible(a, b) {
      JoinSingle(a + b, cs);
    }
    if cs != [] {
      MergeThenJoin(a, b, cs[1..]);
      JoinOneAppend(a, Merge(b, cs[0]), JoinOne(b, cs[1..]));
      if Compatible(a, b) {
        JoinSingle(a + b, cs[1..]);
        MergeAssociative(a, b, cs[0]);
      } else {
        MergeConflict(a, b, cs[0]);
      }
    }
  }

  lemma {:induction false} JoinOneAssociative(a: Solution, bs: seq<Solution>, cs: seq<Solution>)
    ensures JoinBags(JoinOne(a, bs), cs) == JoinOne(a, JoinBags(bs, cs))
  {
    if bs != [] {
      JoinOneAssociative(a, bs[1..], cs);
      MergeThenJoin(a, bs[0], cs);
      JoinAppend(Merge(a, bs[0]), JoinOne(a, bs[1..]), cs);
      JoinOneAppend(a, JoinOne(bs[0], cs), JoinBags(bs[1..], cs));
    }
  }

  // The join regroups without even changing the order of its rows.
  lemma {:induction false} JoinAssociative(xs: seq<Solution>, ys: seq<Solution>, zs: seq<Solution>)
    ensures JoinBags(JoinBags(xs, ys), zs) == JoinBags(xs, JoinBags(ys, zs))
  {
    if xs != [] {
      JoinAssociative(xs[1..], ys, zs);
      JoinOneAssociative(xs[0], ys, zs);
      JoinAppend(JoinOne(xs[0], ys), JoinBags(xs[1..], ys), zs);
    }
  }

  ghost function MergeBoth(): (Solution, Solution) -> seq<Solution> {
    (a, b) => Merge(a, b)
  }

  lemma MergeCommutes(a: Solution, b: Solution)
    ensures Merge(a, b) == Merge(b, a)
  {
    if Compatible(a, b) {
      assert a + b == b + a;
    }
  }

  // Swapping the two sides reorders the rows and changes nothing else.
  lemma JoinCommutes(xs: seq<Solution>, ys: seq<Solution>)
    ensures Same(JoinBags(xs, ys), JoinBags(ys, xs))
  {
    var r := MergeBoth();
    Exchange(xs, ys, r);
    forall x | x in xs
      ensures JoinedWith(ys)(x) == Rows(r, ys)(x)
    {
      FlatMapEqual(ys, Against(x), Row(r, x));
    }
    FlatMapEqual(xs, JoinedWith(ys), Rows(r, ys));
    forall y | y in ys
      ensures JoinedWith(xs)(y) == Columns(r, xs)(y)
    {
      forall x | x in xs
        ensures Against(y)(x) == Column(r, y)(x)
      {
        MergeCommutes(y, x);
      }
      FlatMapEqual(xs, Against(y), Column(r, y));
    }
    FlatMapEqual(ys, JoinedWith(xs), Columns(r, xs));
  }

  lemma JoinOneSame(a: Solution, xs: seq<Solution>, ys: seq<Solution>)
    requires Same(xs, ys)
    ensures Same(JoinOne(a, xs), JoinOne(a, ys))
  {
    FlatMapSame(xs, ys, Against(a), Against(a));
  }

  lemma JoinSame(xs: seq<Solution>, xs': seq<Solution>, ys: seq<Solution>, ys': seq<Solution>)
    requires Same(xs, xs') && Same(ys, ys')
    ensures Same(JoinBags(xs, ys), JoinBags(xs', ys'))
  {
    forall x | x in xs
      ensures Same(JoinedWith(ys)(x), JoinedWith(ys')(x))
    {
      JoinOneSame(x, ys, ys');
    }
    FlatMapSame(xs, xs', JoinedWith(ys), JoinedWith(ys'));
  }

  lemma JoinOneMember(a: Solution, bs: seq<Solution>, s: Solution)
    ensures s in JoinOne(a, bs) <==> exists b :: b in bs && Compatible(a, b) && s == a + b
  {
    FlatMapMember(bs, Against(a), s);
    assert forall b :: s in Against(a)(b) <==> Compatible(a, b) && s == a + b;
  }

  lemma JoinMember(xs: seq<Solution>, ys: seq<Solution>, s: Solution)
    ensures s in JoinBags(xs, ys) <==>
            exists x, y :: x in xs && y in ys && Compatible(x, y) && s == x + y
  {
    FlatMapMember(xs, JoinedWith(ys), s);
    forall x
      ensures s in JoinedWith(ys)(x) <==> exists y :: y in ys && Compatible(x, y) && s == x + y
    {
      JoinOneMember(x, ys, s);
    }
  }
}
