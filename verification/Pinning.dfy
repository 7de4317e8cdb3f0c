/**
 What the equality rewrite finds to pin (crates/holos-engine/src/equality.rs, `pins`, `store_bound`, `pinned_input`): each
 form a filter can name a constant in, written out, is used wherever the pattern under it is sure to bind the variable.
 */
module Pinning {
  import opened Options
  import opened Bags
  import opened Rdf
  import opened Solutions
  import opened Expressions
  import opened Algebra
  import opened Items
  import opened Equality

  // --- The forms ---------------------------------------------------------------------------------------------------

  predicate IsConstant(t: Term) {
    t.Iri? || t.Typed? || t.Tagged?
  }

  // An IRI or a plain string: equal to itself alone.
  predicate IsExact(t: Term) {
    t.Iri? || (t.Typed? && t.kind == "http://www.w3.org/2001/XMLSchema#string")
  }

  function PlainText(s: string): Expr {
    Constant(Typed(s, "http://www.w3.org/2001/XMLSchema#string"))
  }

  // Two operands, in either order.
  ghost predicate Sides(a: Expr, b: Expr, x: Expr, y: Expr) {
    (a == x && b == y) || (a == y && b == x)
  }

  // `?v = t` and `sameTerm(?v, t)`.
  ghost predicate NamesOne(d: Expr, v: Var, t: Term) {
    || (d.Equal? && Sides(d.a, d.b, Variable(v), Constant(t)) && IsExact(t))
    || (d.SameTerm? && Sides(d.a, d.b, Variable(v), Constant(t)) && IsConstant(t))
  }

  // `?v IN (..)`.
  ghost predicate NamesAny(d: Expr, v: Var, list: seq<Term>) {
    && d.In? && d.a == Variable(v) && |d.list| == |list|
    && forall i :: 0 <= i < |list| ==> d.list[i] == Constant(list[i]) && IsExact(list[i])
  }

  ghost predicate NamesText(d: Expr, v: Var, s: string) {
    d.Equal? && Sides(d.a, d.b, Str(Variable(v)), PlainText(s))
  }

  ghost predicate NamesLanguage(d: Expr, v: Var, l: string) {
    d.Equal? && Sides(d.a, d.b, Lang(Variable(v)), PlainText(l))
  }

  // --- Every form is used ------------------------------------------------------------------------------------------

  lemma OneIsPin(d: Expr, v: Var, t: Term)
    requires NamesOne(d, v, t)
    ensures PinOf(d) == [Pin(v, [t])]
  {
  }

  lemma {:induction false} ListedAll(list: seq<Expr>, terms: seq<Term>)
    requires |list| == |terms| && forall i :: 0 <= i < |list| ==> list[i] == Constant(terms[i]) && IsExact(terms[i])
    ensures Listed(list).Some? && forall t :: t in Listed(list).value <==> t in terms
  {
    if list != [] {
      var init, last := list[..|list| - 1], terms[|terms| - 1];
      ListedAll(init, terms[..|terms| - 1]);
      assert terms == terms[..|terms| - 1] + [last];
      assert ConstantTerm(list[|list| - 1]) == Some(last);
    }
  }

  lemma AnyIsPin(d: Expr, v: Var, terms: seq<Term>) returns (pin: Pin)
    requires NamesAny(d, v, terms)
    ensures PinOf(d) == [pin] && pin.v == v && NoRepeats(pin.candidates) && forall t :: t in pin.candidates <==> t in terms
  {
    ListedAll(d.list, terms);
    ListedTerms(d.list);
    pin := Pin(v, Listed(d.list).value);
  }

  lemma TextListed(d: Expr, v: Var, s: string)
    requires NamesText(d, v, s)
    ensures StringOf(d) == [(v, s)]
  {
  }

  lemma LanguageListed(d: Expr, v: Var, l: string)
    requires NamesLanguage(d, v, l)
    ensures LanguageOf(d) == [(v, l)]
  {
  }

  // A conjunct that names one constant is a pin of it.
  lemma OnePinned(e: Expr, d: Expr, v: Var, t: Term)
    requires d in Conjuncts(e) && NamesOne(d, v, t)
    ensures Pin(v, [t]) in Pins(e)
  {
    OneIsPin(d, v, t);
    FlatMapMember(Conjuncts(e), PinsOf(), Pin(v, [t]));
    assert Pin(v, [t]) in PinsOf()(d);
  }

  // One that lists some is a pin of those, each once.
  lemma AnyPinned(e: Expr, d: Expr, v: Var, terms: seq<Term>) returns (pin: Pin)
    requires d in Conjuncts(e) && NamesAny(d, v, terms)
    ensures pin in Pins(e) && pin.v == v && NoRepeats(pin.candidates) && forall t :: t in pin.candidates <==> t in terms
  {
    pin := AnyIsPin(d, v, terms);
    FlatMapMember(Conjuncts(e), PinsOf(), pin);
    assert pin in PinsOf()(d);
  }

  // A text and a language, in two conjuncts, are a pin of the three terms that have both.
  lemma LabelPinned(e: Expr, d: Expr, f: Expr, v: Var, s: string, l: string)
    requires d in Conjuncts(e) && f in Conjuncts(e) && NamesText(d, v, s) && NamesLanguage(f, v, l) && l != ""
    ensures Pin(v, [Tagged(s, l, Undirected), Tagged(s, l, Ltr), Tagged(s, l, Rtl)]) in Pins(e)
  {
    var es, pin := Conjuncts(e), Pin(v, [Tagged(s, l, Undirected), Tagged(s, l, Ltr), Tagged(s, l, Rtl)]);
    TextListed(d, v, s);
    LanguageListed(f, v, l);
    var strings, languages := FlatMap(es, Strings()), FlatMap(es, Languages());
    FlatMapMember(es, Strings(), (v, s));
    assert (v, s) in Strings()(d);
    FlatMapMember(es, Languages(), (v, l));
    assert (v, l) in Languages()(f);
    FlatMapMember(languages, LabelPin((v, s)), pin);
    assert pin in LabelPin((v, s))((v, l));
    FlatMapMember(strings, LabelPins(languages), pin);
    assert pin in LabelPins(languages)((v, s));
  }

  // --- And no other ------------------------------------------------------------------------------------------------

  ghost predicate PinnedAlone(d: Expr, pin: Pin) {
    || (exists t :: NamesOne(d, pin.v, t) && pin.candidates == [t])
    || (exists terms :: NamesAny(d, pin.v, terms) && NoRepeats(pin.candidates) && forall t :: t in pin.candidates <==> t in terms)
  }

  ghost predicate PinnedByLabel(d: Expr, f: Expr, pin: Pin) {
    exists s, l :: NamesText(d, pin.v, s) && NamesLanguage(f, pin.v, l) && l != ""
                   && pin.candidates == [Tagged(s, l, Undirected), Tagged(s, l, Ltr), Tagged(s, l, Rtl)]
  }

  lemma PinIsOne(d: Expr, pin: Pin)
    requires pin in PinOf(d)
    ensures PinnedAlone(d, pin)
  {
    match d
    case Equal(a, b) => assert NamesOne(d, pin.v, pin.candidates[0]);
    case SameTerm(a, b) => assert NamesOne(d, pin.v, pin.candidates[0]);
    case In(a, list) =>
      ListedTerms(list);
      var terms := seq(|list|, i requires 0 <= i < |list| && list[i].Constant? => list[i].t);
      assert NamesAny(d, pin.v, terms);
      ListedAll(list, terms);
  }

  lemma TextIsNamed(d: Expr, str: (Var, string))
    requires str in StringOf(d)
    ensures NamesText(d, str.0, str.1)
  {
    assert StrIs(d.a, d.b) == Some(str);
  }

  lemma LanguageIsNamed(d: Expr, lang: (Var, string))
    requires lang in LanguageOf(d)
    ensures NamesLanguage(d, lang.0, lang.1)
  {
    assert LangIs(d.a, d.b) == Some(lang);
  }

  // A filter's pins are the ones its conjuncts name, alone or by text and language.
  lemma PinsOnly(e: Expr, pin: Pin)
    requires pin in Pins(e)
    ensures (exists d :: d in Conjuncts(e) && PinnedAlone(d, pin))
         || (exists d, f :: d in Conjuncts(e) && f in Conjuncts(e) && PinnedByLabel(d, f, pin))
  {
    var es := Conjuncts(e);
    if pin in FlatMap(es, PinsOf()) {
      var d := PinOrigin(es, pin);
      PinIsOne(d, pin);
    } else {
      var d, f, str, lang := LabelOrigin(es, pin);
      TextIsNamed(d, str);
      LanguageIsNamed(f, lang);
      assert pin.candidates == [Tagged(str.1, lang.1, Undirected), Tagged(str.1, lang.1, Ltr), Tagged(str.1, lang.1, Rtl)];
      assert PinnedByLabel(d, f, pin);
    }
  }

  // --- Where they are used -------------------------------------------------------------------------------------------

  // A variable is sure to come from the store if it stands in a triple, or at an end of a path.
  lemma {:induction false} TriplesBound(ts: seq<TriplePattern>, v: Var)
    ensures v in StoreBound(Bgp(ts)) <==> exists t :: t in ts && (t.s == V(v) || t.p == V(v) || t.o == V(v))
  {
    if ts != [] {
      TriplesBound(ts[1..], v);
      assert ts == [ts[0]] + ts[1..];
      assert v in TripleVars(ts[0]) <==> ts[0].s == V(v) || ts[0].p == V(v) || ts[0].o == V(v);
    }
  }

  lemma PathBound(s: Position, e: PathExpr, o: Position, v: Var)
    ensures v in StoreBound(Path(s, e, o)) <==> s == V(v) || o == V(v)
  {
  }

  // A filter that names one constant for a variable of the triples under it: they are joined with a table of that constant,
  // or, where the store has never seen it, with a pattern nothing matches.
  lemma OneUsed(known: set<Term>, d: Expr, v: Var, t: Term, ts: seq<TriplePattern>)
    requires NamesOne(d, v, t) && exists u :: u in ts && (u.s == V(v) || u.p == V(v) || u.o == V(v))
    requires Iri("urn:holos:nothing") !in known
    ensures var never := Iri("urn:holos:nothing");
            Rewrite(known, Filter(d, Bgp(ts)))
              == Filter(d, Join(if t in known then Values([v], [[Some(t)]]) else Bgp([TriplePattern(T(never), T(never), T(never))]), Bgp(ts)))
  {
    TriplesBound(ts, v);
    OneIsPin(d, v, t);
    var pins := [Pin(v, [t])];
    assert Conjuncts(d) == [d];
    OnlyPin(d, v, t);
    assert pins[..0] == [] && pins[1..] == [];
    assert Select(pins, InBound(StoreBound(Bgp(ts)))) == pins;
    OneTable(known, v, t);
    assert PinnedAll(known, pins[..0], Bgp(ts)) == Bgp(ts);
    assert PinnedAll(known, pins, Bgp(ts)) == Pinned(known, pins[0], Bgp(ts));
  }

  lemma OneTable(known: set<Term>, v: Var, t: Term)
    ensures FlatMap(Select([t], Known(known)), AsRow()) == if t in known then [[Some(t)]] else []
  {
    assert [t][1..] == [];
    if t in known {
      FlatMapOne(t, AsRow());
    }
  }

  lemma OnlyPin(d: Expr, v: Var, t: Term)
    requires NamesOne(d, v, t)
    ensures Pins(d) == [Pin(v, [t])]
  {
    OneIsPin(d, v, t);
    assert Conjuncts(d) == [d];
    FlatMapOne(d, PinsOf());
    FlatMapOne(d, Strings());
    assert StringOf(d) == [];
    assert FlatMap(FlatMap([d], Strings()), LabelPins(FlatMap([d], Languages()))) == [];
  }

  // --- What a pattern is sure to scan --------------------------------------------------------------------------------

  // A variable of triples or a path, or the variable a GRAPH block is named by.
  ghost predicate Scans(p: Pattern, v: Var) {
    match p
    case Bgp(ts) => exists t :: t in ts && (t.s == V(v) || t.p == V(v) || t.o == V(v))
    case Path(s, _, o) => s == V(v) || o == V(v)
    case Graph(name, _) => name == V(v)
    case _ => false
  }

  // The ways a solution can come about: one branch of each union, no optional side, and what is scanned that way.
  ghost function Ways(p: Pattern): set<set<Pattern>> {
    match p
    case Bgp(_) => {{p}}
    case Path(_, _, _) => {{p}}
    case Join(l, r) => set x, y | x in Ways(l) && y in Ways(r) :: x + y
    case LeftJoin(l, _, _) => Ways(l)
    case Union(l, r) => Ways(l) + Ways(r)
    case Filter(_, i) => Ways(i)
    case Extend(i, _, _) => Ways(i)
    case Graph(_, i) => set x | x in Ways(i) :: x + {p}
    case _ => {{}}
  }

  ghost predicate Scanned(way: set<Pattern>, v: Var) {
    exists q :: q in way && Scans(q, v)
  }

  ghost predicate AlwaysScanned(p: Pattern, v: Var) {
    forall way :: way in Ways(p) ==> Scanned(way, v)
  }

  lemma {:induction false} SomeWay(p: Pattern)
    ensures Ways(p) != {}
  {
    match p
    case Bgp(_) => assert {p} in Ways(p);
    case Path(_, _, _) => assert {p} in Ways(p);
    case Join(l, r) =>
      SomeWay(l);
      SomeWay(r);
      var x, y :| x in Ways(l) && y in Ways(r);
      assert x + y in Ways(p);
    case LeftJoin(l, _, _) => SomeWay(l);
    case Union(l, r) => SomeWay(l);
    case Filter(_, i) => SomeWay(i);
    case Extend(i, _, _) => SomeWay(i);
    case Graph(_, i) =>
      SomeWay(i);
      var x :| x in Ways(i);
      assert x + {p} in Ways(p);
    case _ => assert {} in Ways(p);
  }

  lemma ScannedJoin(l: Pattern, r: Pattern, v: Var)
    ensures AlwaysScanned(Join(l, r), v) <==> AlwaysScanned(l, v) || AlwaysScanned(r, v)
  {
    var p := Join(l, r);
    if !AlwaysScanned(l, v) && !AlwaysScanned(r, v) {
      var x :| x in Ways(l) && !Scanned(x, v);
      var y :| y in Ways(r) && !Scanned(y, v);
      assert x + y in Ways(p) && !Scanned(x + y, v);
    }
    if AlwaysScanned(l, v) || AlwaysScanned(r, v) {
      forall way | way in Ways(p)
        ensures Scanned(way, v)
      {
        var x, y :| x in Ways(l) && y in Ways(r) && way == x + y;
        assert Scanned(x, v) || Scanned(y, v);
      }
    }
  }

  lemma ScannedGraph(name: Position, i: Pattern, v: Var)
    ensures AlwaysScanned(Graph(name, i), v) <==> AlwaysScanned(i, v) || name == V(v)
  {
    var p := Graph(name, i);
    SomeWay(i);
    forall x | x in Ways(i)
      ensures x + {p} in Ways(p) && (Scanned(x + {p}, v) <==> Scanned(x, v) || name == V(v))
    {
      assert p in x + {p};
      assert Scans(p, v) <==> name == V(v);
    }
    if !AlwaysScanned(i, v) && name != V(v) {
      var x :| x in Ways(i) && !Scanned(x, v);
      assert x + {p} in Ways(p);
    }
  }

  // A variable is taken to be bound by the store exactly when something scanned has it, whichever way a solution comes about.
  lemma {:induction false} BoundExactly(p: Pattern, v: Var)
    ensures v in StoreBound(p) <==> AlwaysScanned(p, v)
  {
    match p
    case Bgp(ts) =>
      TriplesBound(ts, v);
      assert Ways(p) == {{p}} && p in {p};
    case Path(s, e, o) =>
      PathBound(s, e, o, v);
      assert Ways(p) == {{p}} && p in {p};
    case Join(l, r) => BoundExactly(l, v); BoundExactly(r, v); ScannedJoin(l, r, v);
    case LeftJoin(l, _, _) => BoundExactly(l, v);
    case Union(l, r) => BoundExactly(l, v); BoundExactly(r, v);
    case Filter(_, i) => BoundExactly(i, v);
    case Extend(i, _, _) => BoundExactly(i, v);
    case Graph(name, i) => BoundExactly(i, v); ScannedGraph(name, i, v);
    case _ => assert {} in Ways(p) && !Scanned({}, v);
  }

  // --- Every filter -----------------------------------------------------------------------------------------------

  // A pattern and the patterns within it, those sent elsewhere aside.
  ghost function Within(p: Pattern): set<Pattern> {
    {p} + match p
          case Join(l, r) => Within(l) + Within(r)
          case LeftJoin(l, r, _) => Within(l) + Within(r)
          case Union(l, r) => Within(l) + Within(r)
          case Minus(l, r) => Within(l) + Within(r)
          case Filter(_, i) => Within(i)
          case Graph(_, i) => Within(i)
          case Extend(i, _, _) => Within(i)
          case OrderBy(i) => Within(i)
          case Project(i, _) => Within(i)
          case Distinct(i) => Within(i)
          case Slice(i, _, _) => Within(i)
          case Group(i, _, _) => Within(i)
          case _ => {}
  }

  lemma {:induction false} WithinPinned(known: set<Term>, pins: seq<Pin>, inner: Pattern)
    ensures Within(inner) <= Within(PinnedAll(known, pins, inner))
  {
    if pins != [] {
      WithinPinned(known, pins[..|pins| - 1], inner);
    }
  }

  // Each of the pins is used on the input as the pins before it left it, and those after it go around that.
  lemma {:induction false} EachPinUsed(known: set<Term>, pins: seq<Pin>, inner: Pattern, k: nat)
    requires k < |pins|
    ensures Pinned(known, pins[k], PinnedAll(known, pins[..k], inner)) in Within(PinnedAll(known, pins, inner))
  {
    var init := pins[..|pins| - 1];
    if k < |init| {
      EachPinUsed(known, init, inner, k);
      assert init[..k] == pins[..k] && init[k] == pins[k];
      StaysWithin(known, pins[|pins| - 1], PinnedAll(known, init, inner));
    }
  }

  lemma {:induction false} StaysWithin(known: set<Term>, pin: Pin, inner: Pattern)
    ensures Within(inner) <= Within(Pinned(known, pin, inner))
  {
  }

  // Wherever a filter stands, however deep, the rewritten query has it over its input rewritten and joined with the input's
  // pins.
  lemma {:induction false} EveryFilter(known: set<Term>, p: Pattern, e: Expr, i: Pattern)
    requires Filter(e, i) in Within(p)
    ensures var inner := Rewrite(known, i); Filter(e, PinnedAll(known, PinsWithin(e, inner), inner)) in Within(Rewrite(known, p))
  {
    RewrittenWithin(known, p, Filter(e, i), Rewrite(known, Filter(e, i)));
  }

  // Rewriting goes everywhere: what a part becomes is part of what the whole becomes.
  lemma {:induction false} RewrittenWithin(known: set<Term>, p: Pattern, x: Pattern, f: Pattern)
    requires x in Within(p) && f in Within(Rewrite(known, x))
    ensures f in Within(Rewrite(known, p))
    decreases p, 1
  {
    if p != x {
      match p
      case Join(l, r) => WithinEither(known, p, l, r, x, f);
      case LeftJoin(l, r, _) => WithinEither(known, p, l, r, x, f);
      case Union(l, r) => WithinEither(known, p, l, r, x, f);
      case Minus(l, r) => WithinEither(known, p, l, r, x, f);
      case Filter(d, j) =>
        RewrittenWithin(known, j, x, f);
        UnderFilter(known, d, j, f);
      case Graph(_, j) => RewrittenWithin(known, j, x, f);
      case Extend(j, _, _) => RewrittenWithin(known, j, x, f);
      case OrderBy(j) => RewrittenWithin(known, j, x, f);
      case Project(j, _) => RewrittenWithin(known, j, x, f);
      case Distinct(j) => RewrittenWithin(known, j, x, f);
      case Slice(j, _, _) => RewrittenWithin(known, j, x, f);
      case Group(j, _, _) => RewrittenWithin(known, j, x, f);
    }
  }

  lemma {:induction false} WithinEither(known: set<Term>, p: Pattern, l: Pattern, r: Pattern, x: Pattern, f: Pattern)
    requires l < p && r < p && (x in Within(l) || x in Within(r)) && f in Within(Rewrite(known, x))
    ensures f in Within(Rewrite(known, l)) || f in Within(Rewrite(known, r))
    decreases p, 0
  {
    if x in Within(l) {
      RewrittenWithin(known, l, x, f);
    } else {
      RewrittenWithin(known, r, x, f);
    }
  }

  lemma {:induction false} UnderFilter(known: set<Term>, d: Expr, j: Pattern, f: Pattern)
    requires f in Within(Rewrite(known, j))
    ensures f in Within(Rewrite(known, Filter(d, j)))
  {
    WithinPinned(known, PinsWithin(d, Rewrite(known, j)), Rewrite(known, j));
  }
}
