/** Replacing a pattern inside another: every operator but a slice depends only on its inputs' bags. */
module Congruence {
  import opened Options
  import opened Bags
  import opened Rdf
  import opened Solutions
  import opened Expressions
  import opened Algebra
  import opened Scopes

  lemma UnionSame(xs: seq<Solution>, xs': seq<Solution>, ys: seq<Solution>, ys': seq<Solution>)
    requires Same(xs, xs') && Same(ys, ys')
    ensures Same(xs + ys, xs' + ys')
  {
    assert multiset(xs + ys) == multiset(xs) + multiset(ys);
    assert multiset(xs' + ys') == multiset(xs') + multiset(ys');
  }

  lemma OrAloneSame(r: Rules, ys: seq<Solution>, ys': seq<Solution>, e: Option<Expr>, a: Solution)
    requires Same(ys, ys')
    ensures Same(OrAlone(r, ys, e)(a), OrAlone(r, ys', e)(a))
  {
    JoinOneSame(a, ys, ys');
    SelectSame(JoinOne(a, ys), JoinOne(a, ys'), KeepsIf(r, e));
    SameLength(Select(JoinOne(a, ys), KeepsIf(r, e)), Select(JoinOne(a, ys'), KeepsIf(r, e)));
  }

  lemma LeftJoinSame(r: Rules, xs: seq<Solution>, xs': seq<Solution>, ys: seq<Solution>, ys': seq<Solution>, e: Option<Expr>)
    requires Same(xs, xs') && Same(ys, ys')
    ensures Same(FlatMap(xs, OrAlone(r, ys, e)), FlatMap(xs', OrAlone(r, ys', e)))
  {
    forall a | a in xs
      ensures Same(OrAlone(r, ys, e)(a), OrAlone(r, ys', e)(a))
    {
      OrAloneSame(r, ys, ys', e, a);
    }
    FlatMapSame(xs, xs', OrAlone(r, ys, e), OrAlone(r, ys', e));
  }

  lemma MinusSame(xs: seq<Solution>, xs': seq<Solution>, ys: seq<Solution>, ys': seq<Solution>)
    requires Same(xs, xs') && Same(ys, ys')
    ensures Same(Select(xs, Survives(ys)), Select(xs', Survives(ys')))
  {
    forall b
      ensures b in ys <==> b in ys'
    {
      SameMembers(ys, ys', b);
    }
    forall a | a in xs
      ensures Survives(ys)(a) == Survives(ys')(a)
    {
    }
    SelectEqual(xs, Survives(ys), Survives(ys'));
    SelectSame(xs, xs', Survives(ys'));
  }

  lemma DistinctSame(xs: seq<Solution>, xs': seq<Solution>)
    requires Same(xs, xs')
    ensures Same(Dedup(xs), Dedup(xs'))
  {
    forall x
      ensures x in xs <==> x in xs'
    {
      SameMembers(xs, xs', x);
    }
    DedupSame(xs, xs');
  }

  lemma GroupSame(xs: seq<Solution>, xs': seq<Solution>, keys: seq<Var>, aggregate: multiset<Solution> -> Solution)
    requires Same(xs, xs')
    ensures Same(GroupBag(xs, keys, aggregate), GroupBag(xs', keys, aggregate))
  {
    if keys != [] {
      var ks, ks' := FlatMap(xs, Projected(keys)), FlatMap(xs', Projected(keys));
      FlatMapSame(xs, xs', Projected(keys), Projected(keys));
      DistinctSame(ks, ks');
      forall k | k in Dedup(ks)
        ensures Same(GroupRow(xs, keys, aggregate)(k), GroupRow(xs', keys, aggregate)(k))
      {
        SelectSame(xs, xs', HasKey(keys, k));
      }
      FlatMapSame(Dedup(ks), Dedup(ks'), GroupRow(xs, keys, aggregate), GroupRow(xs', keys, aggregate));
    }
  }

  // Two patterns that agree in every graph agree under GRAPH.
  ghost predicate Agree(c: Context, p: Pattern, q: Pattern) {
    forall active {:trigger Eval(c, active, p)} :: Same(Eval(c, active, p), Eval(c, active, q))
  }

  lemma AgreeAt(c: Context, p: Pattern, q: Pattern, g: Term)
    requires Agree(c, p, q)
    ensures Same(EvalAt(c, p)(g), EvalAt(c, q)(g))
  {
    assert Same(Eval(c, Some(g), p), Eval(c, Some(g), q));
  }

  lemma EachGraphSame(c: Context, names: seq<Term>, v: Var, p: Pattern, q: Pattern)
    requires Agree(c, p, q)
    ensures Same(EvalEach(c, names, v, p), EvalEach(c, names, v, q))
  {
    EvalEachIsEach(c, names, v, p);
    EvalEachIsEach(c, names, v, q);
    forall g | g in names
      ensures Same(EvalAt(c, p)(g), EvalAt(c, q)(g))
    {
      AgreeAt(c, p, q, g);
    }
    SameEach(names, v, EvalAt(c, p), EvalAt(c, q));
  }

  lemma GraphSame(c: Context, active: Option<Term>, name: Position, p: Pattern, q: Pattern)
    requires Agree(c, p, q)
    ensures Same(Eval(c, active, Graph(name, p)), Eval(c, active, Graph(name, q)))
  {
    if name.V? {
      EachGraphSame(c, Listing(c.view.GraphNames()), name.v, p, q);
    } else {
      AgreeAt(c, p, q, name.t);
    }
  }
}

/**
 A filter that names a constant, used as one (crates/holos-engine/src/equality.rs): each variable a
 filter pins is joined with the terms the pin admits, and the bag of solutions stays what it was.
 */
module Equality {
  import opened Options
  import opened Bags
  import opened Rdf
  import opened Solutions
  import opened Expressions
  import opened Algebra
  import opened Items
  import opened Congruence
  import opened Scopes

  datatype Pin = Pin(v: Var, candidates: seq<Term>)

  // --- `pins` ------------------------------------------------------------------------------------------------

  predicate IsGround(t: Term) {
    t.Iri? || t.Typed? || t.Tagged?
  }

  function ConstantTerm(e: Expr): Option<Term> {
    match e
    case Constant(t) => if IsGround(t) then Some(t) else None
    case _ => None
  }

  function VariableAndConstant(a: Expr, b: Expr): Option<(Var, Term)> {
    if a.Variable? then (if ConstantTerm(b).Some? then Some((a.v, ConstantTerm(b).value)) else None)
    else if b.Variable? && ConstantTerm(a).Some? then Some((b.v, ConstantTerm(a).value))
    else None
  }

  // Terms equal to nothing but themselves, whatever the store's literals are.
  predicate EqualAdmits(t: Term) {
    t.Iri? || t.IsPlain()
  }

  function PlainString(e: Expr): Option<string> {
    match e
    case Constant(Typed(l, k)) => if k == XSD_STRING then Some(l) else None
    case _ => None
  }

  function StrOf(e: Expr): Option<Var> {
    match e
    case Str(Variable(v)) => Some(v)
    case _ => None
  }

  function LangOf(e: Expr): Option<Var> {
    match e
    case Lang(Variable(v)) => Some(v)
    case _ => None
  }

  function Named(call: Option<Var>, text: Option<string>): Option<(Var, string)> {
    if call.Some? && text.Some? then Some((call.value, text.value)) else None
  }

  function Either(a: Option<(Var, string)>, b: Option<(Var, string)>): Option<(Var, string)> {
    if a.Some? then a else b
  }

  // `str(?v) = "s"` and `lang(?v) = "s"`, in either order.
  function StrIs(a: Expr, b: Expr): Option<(Var, string)> {
    Either(Named(StrOf(a), PlainString(b)), Named(StrOf(b), PlainString(a)))
  }

  function LangIs(a: Expr, b: Expr): Option<(Var, string)> {
    Either(Named(LangOf(a), PlainString(b)), Named(LangOf(b), PlainString(a)))
  }

  // The terms `IN` lists, each once; `None` when one of them is not a term `=` would pin.
  function Listed(list: seq<Expr>): Option<seq<Term>> {
    if list == [] then Some([])
    else
      var init, last := Listed(list[..|list| - 1]), ConstantTerm(list[|list| - 1]);
      if init.None? || last.None? || !EqualAdmits(last.value) then None
      else if last.value in init.value then init
      else Some(init.value + [last.value])
  }

  function PinOf(e: Expr): seq<Pin> {
    match e
    case Equal(a, b) =>
      var vc := VariableAndConstant(a, b);
      if vc.Some? && EqualAdmits(vc.value.1) then [Pin(vc.value.0, [vc.value.1])] else []
    case SameTerm(a, b) =>
      var vc := VariableAndConstant(a, b);
      if vc.Some? then [Pin(vc.value.0, [vc.value.1])] else []
    case In(Variable(v), list) => if Listed(list).Some? then [Pin(v, Listed(list).value)] else []
    case _ => []
  }

  function StringOf(e: Expr): seq<(Var, string)> {
    match e
    case Equal(a, b) =>
      if VariableAndConstant(a, b).None? && StrIs(a, b).Some? then [StrIs(a, b).value] else []
    case _ => []
  }

  function LanguageOf(e: Expr): seq<(Var, string)> {
    match e
    case Equal(a, b) =>
      if VariableAndConstant(a, b).None? && StrIs(a, b).None? && LangIs(a, b).Some? then [LangIs(a, b).value] else []
    case _ => []
  }

  function Strings(): Expr -> seq<(Var, string)> {
    e => StringOf(e)
  }

  function Languages(): Expr -> seq<(Var, string)> {
    e => LanguageOf(e)
  }

  function PinsOf(): Expr -> seq<Pin> {
    e => PinOf(e)
  }

  // A term written `s` and tagged `l`, in each direction it may have.
  function Labelled(s: string, l: string): seq<Term> {
    [Tagged(s, l, Undirected), Tagged(s, l, Ltr), Tagged(s, l, Rtl)]
  }

  function LabelPin(str: (Var, string)): ((Var, string)) -> seq<Pin> {
    (lang: (Var, string)) => if lang.0 == str.0 && lang.1 != "" then [Pin(str.0, Labelled(str.1, lang.1))] else []
  }

  function LabelPins(langs: seq<(Var, string)>): ((Var, string)) -> seq<Pin> {
    (str: (Var, string)) => FlatMap(langs, LabelPin(str))
  }

  function Pins(e: Expr): seq<Pin> {
    var es := Conjuncts(e);
    FlatMap(es, PinsOf()) + FlatMap(FlatMap(es, Strings()), LabelPins(FlatMap(es, Languages())))
  }

  // One pass over the conjuncts, and then each string with each language.
  method CollectPins(e: Expr) returns (out: seq<Pin>)
    ensures out == Pins(e)
  {
    var es := Conjuncts(e);
    out := [];
    var strings, languages := [], [];
    for i := 0 to |es|
      invariant out == FlatMap(es[..i], PinsOf())
      invariant strings == FlatMap(es[..i], Strings()) && languages == FlatMap(es[..i], Languages())
    {
      assert es[..i + 1] == es[..i] + [es[i]];
      FlatMapSnoc(es[..i], es[i], PinsOf());
      FlatMapSnoc(es[..i], es[i], Strings());
      FlatMapSnoc(es[..i], es[i], Languages());
      out := out + PinOf(es[i]);
      strings := strings + StringOf(es[i]);
      languages := languages + LanguageOf(es[i]);
    }
    assert es[..|es|] == es;
    var labels := CollectLabels(strings, languages);
    out := out + labels;
  }

  method CollectLabels(strings: seq<(Var, string)>, languages: seq<(Var, string)>) returns (labels: seq<Pin>)
    ensures labels == FlatMap(strings, LabelPins(languages))
  {
    labels := [];
    for i := 0 to |strings|
      invariant labels == FlatMap(strings[..i], LabelPins(languages))
    {
      assert strings[..i + 1] == strings[..i] + [strings[i]];
      FlatMapSnoc(strings[..i], strings[i], LabelPins(languages));
      labels := labels + FlatMap(languages, LabelPin(strings[i]));
    }
    assert strings[..|strings|] == strings;
  }

  // --- What a pin admits -------------------------------------------------------------------------------------

  ghost predicate Admits(pin: Pin, s: Solution) {
    pin.v in s ==> s[pin.v] in pin.candidates
  }

  lemma EqualIsTerm(r: Rules, a: Value, b: Value, x: Term, y: Term)
    requires r.Sparql() && AsTerm(a) == Some(x) && AsTerm(b) == Some(y) && (EqualAdmits(x) || EqualAdmits(y))
    ensures EqualValues(r, a, b) == Truth(true) <==> x == y
  {
    assert r.equal(x, y) == Some(true) <==> x == y;
  }

  lemma EqualPin(r: Rules, a: Expr, b: Expr, s: Solution)
    requires r.Sparql() && Holds(r, Equal(a, b), s) && VariableAndConstant(a, b).Some?
    ensures var vc := VariableAndConstant(a, b).value;
            EqualAdmits(vc.1) && vc.0 in s ==> s[vc.0] == vc.1
  {
    var vc := VariableAndConstant(a, b).value;
    if EqualAdmits(vc.1) && vc.0 in s {
      var x, y := Evaluate(r, a, s), Evaluate(r, b, s);
      EqualIsTerm(r, x, y, AsTerm(x).value, AsTerm(y).value);
    }
  }

  lemma SameTermPin(r: Rules, a: Expr, b: Expr, s: Solution)
    requires Holds(r, SameTerm(a, b), s) && VariableAndConstant(a, b).Some?
    ensures var vc := VariableAndConstant(a, b).value; vc.0 in s ==> s[vc.0] == vc.1
  {
    var x, y := Evaluate(r, a, s), Evaluate(r, b, s);
    assert Evaluate(r, SameTerm(a, b), s) == SameTermValues(x, y);
  }

  lemma {:induction false} ListedTerms(list: seq<Expr>)
    requires Listed(list).Some?
    ensures NoRepeats(Listed(list).value)
    ensures forall i :: 0 <= i < |list| ==> list[i].Constant? && EqualAdmits(list[i].t) && list[i].t in Listed(list).value
  {
    if list != [] {
      ListedTerms(list[..|list| - 1]);
      var init, last := list[..|list| - 1], list[|list| - 1];
      forall i | 0 <= i < |list|
        ensures list[i].Constant? && EqualAdmits(list[i].t) && list[i].t in Listed(list).value
      {
        if i < |init| {
          assert init[i] == list[i];
        }
      }
    }
  }

  lemma InPin(r: Rules, v: Var, list: seq<Expr>, s: Solution)
    requires r.Sparql() && Holds(r, In(Variable(v), list), s) && Listed(list).Some?
    ensures v in s ==> s[v] in Listed(list).value
  {
    ListedTerms(list);
    if v in s {
      var a, vs := Evaluate(r, Variable(v), s), EvaluateEach(r, list, s);
      assert InValues(r, a, vs) == Truth(true);
      var i :| 0 <= i < |vs| && EqualValues(r, a, vs[i]) == Truth(true);
      assert vs[i] == Of(list[i].t);
      EqualIsTerm(r, a, vs[i], s[v], list[i].t);
    }
  }

  // What one conjunct pins, it admits.
  lemma PinAdmits(r: Rules, e: Expr, s: Solution, pin: Pin)
    requires r.Sparql() && Holds(r, e, s) && pin in PinOf(e)
    ensures Admits(pin, s) && NoRepeats(pin.candidates)
  {
    match e
    case Equal(a, b) => EqualPin(r, a, b, s);
    case SameTerm(a, b) => SameTermPin(r, a, b, s);
    case In(Variable(v), list) => InPin(r, v, list, s); ListedTerms(list);
  }

  lemma PlainEqual(r: Rules, a: Value, b: Value, x: string, y: string)
    requires r.Sparql() && a == Of(Typed(x, XSD_STRING)) && b == Of(Typed(y, XSD_STRING))
    ensures EqualValues(r, a, b) == Truth(true) ==> x == y
  {
    EqualIsTerm(r, a, b, Typed(x, XSD_STRING), Typed(y, XSD_STRING));
  }

  // A call compared with a plain string: one side is the call, the other the string.
  lemma Compared(r: Rules, a: Expr, b: Expr, s: Solution, call: Value, text: string)
    requires r.Sparql() && Holds(r, Equal(a, b), s) && call.Of? && call.t.IsPlain()
    requires || (Evaluate(r, a, s) == call && Evaluate(r, b, s) == Of(Typed(text, XSD_STRING)))
             || (Evaluate(r, b, s) == call && Evaluate(r, a, s) == Of(Typed(text, XSD_STRING)))
    ensures call.t.lexical == text
  {
    assert Evaluate(r, Equal(a, b), s) == EqualValues(r, Evaluate(r, a, s), Evaluate(r, b, s));
    PlainEqual(r, call, Of(Typed(text, XSD_STRING)), call.t.lexical, text);
    PlainEqual(r, Of(Typed(text, XSD_STRING)), call, text, call.t.lexical);
  }

  lemma CallSides(r: Rules, e: Expr, s: Solution, v: Var)
    requires v in s
    ensures e == Str(Variable(v)) ==> Evaluate(r, e, s) == StrValue(Of(s[v]))
    ensures e == Lang(Variable(v)) ==> Evaluate(r, e, s) == LangValue(Of(s[v]))
  {
    assert Evaluate(r, Variable(v), s) == Of(s[v]);
  }

  lemma StringHolds(r: Rules, e: Expr, s: Solution, str: (Var, string))
    requires r.Sparql() && Holds(r, e, s) && str in StringOf(e) && str.0 in s && s[str.0].Tagged?
    ensures s[str.0].text == str.1
  {
    CallSides(r, e.a, s, str.0);
    CallSides(r, e.b, s, str.0);
    Compared(r, e.a, e.b, s, Of(Typed(s[str.0].text, XSD_STRING)), str.1);
  }

  lemma LanguageHolds(r: Rules, e: Expr, s: Solution, lang: (Var, string))
    requires r.Sparql() && Holds(r, e, s) && lang in LanguageOf(e) && lang.0 in s && lang.1 != ""
    ensures s[lang.0].Tagged? && s[lang.0].lang == lang.1
  {
    CallSides(r, e.a, s, lang.0);
    CallSides(r, e.b, s, lang.0);
    var x := LangValue(Of(s[lang.0]));
    assert Evaluate(r, e, s) == EqualValues(r, Evaluate(r, e.a, s), Evaluate(r, e.b, s));
    if x.Of? {
      Compared(r, e.a, e.b, s, x, lang.1);
    }
  }

  lemma LabelsApart(s: string, l: string)
    ensures NoRepeats(Labelled(s, l))
  {
    var ts := Labelled(s, l);
    assert ts[0].direction != ts[1].direction && ts[0].direction != ts[2].direction && ts[1].direction != ts[2].direction;
    forall i, j | 0 <= i < j < |ts|
      ensures ts[i] != ts[j]
    {
    }
  }

  lemma LabelListed(s: string, l: string, d: BaseDirection)
    ensures Tagged(s, l, d) in Labelled(s, l)
  {
    var ts := Labelled(s, l);
    assert ts[0].direction == Undirected && ts[1].direction == Ltr && ts[2].direction == Rtl;
    match d
    case Undirected => assert ts[0] == Tagged(s, l, d);
    case Ltr => assert ts[1] == Tagged(s, l, d);
    case Rtl => assert ts[2] == Tagged(s, l, d);
  }

  // The language and the string together leave a term three ways to be.
  lemma LabelAdmits(r: Rules, d: Expr, e: Expr, s: Solution, str: (Var, string), lang: (Var, string))
    requires r.Sparql() && Holds(r, d, s) && Holds(r, e, s) && str in StringOf(d) && lang in LanguageOf(e)
    requires str.0 == lang.0 && lang.1 != ""
    ensures Admits(Pin(str.0, Labelled(str.1, lang.1)), s) && NoRepeats(Labelled(str.1, lang.1))
  {
    LabelsApart(str.1, lang.1);
    if str.0 in s {
      LanguageHolds(r, e, s, lang);
      StringHolds(r, d, s, str);
      LabelListed(str.1, lang.1, s[str.0].direction);
    }
  }

  lemma PairOrigin(strings: seq<(Var, string)>, languages: seq<(Var, string)>, pin: Pin) returns (str: (Var, string), lang: (Var, string))
    requires pin in FlatMap(strings, LabelPins(languages))
    ensures str in strings && lang in languages && pin in LabelPin(str)(lang)
  {
    FlatMapMember(strings, LabelPins(languages), pin);
    str :| str in strings && pin in FlatMap(languages, LabelPin(str));
    FlatMapMember(languages, LabelPin(str), pin);
    lang :| lang in languages && pin in LabelPin(str)(lang);
  }

  lemma LabelOrigin(es: seq<Expr>, pin: Pin) returns (d: Expr, e: Expr, str: (Var, string), lang: (Var, string))
    requires pin in FlatMap(FlatMap(es, Strings()), LabelPins(FlatMap(es, Languages())))
    ensures d in es && e in es && str in StringOf(d) && lang in LanguageOf(e)
    ensures str.0 == lang.0 && lang.1 != "" && pin == Pin(str.0, Labelled(str.1, lang.1))
  {
    str, lang := PairOrigin(FlatMap(es, Strings()), FlatMap(es, Languages()), pin);
    FlatMapMember(es, Strings(), str);
    FlatMapMember(es, Languages(), lang);
    d :| d in es && str in StringOf(d);
    e :| e in es && lang in LanguageOf(e);
  }

  lemma PinOrigin(es: seq<Expr>, pin: Pin) returns (e: Expr)
    requires pin in FlatMap(es, PinsOf())
    ensures e in es && pin in PinOf(e)
  {
    FlatMapMember(es, PinsOf(), pin);
    e :| e in es && pin in PinOf(e);
  }

  // A solution the filter keeps has, in each pinned variable it binds, one of the pin's candidates.
  lemma PinsAdmit(r: Rules, e: Expr, s: Solution, pin: Pin)
    requires r.Sparql() && Holds(r, e, s) && pin in Pins(e)
    ensures Admits(pin, s) && NoRepeats(pin.candidates)
  {
    var es := Conjuncts(e);
    ConjunctsHold(r, e, s);
    if pin in FlatMap(es, PinsOf()) {
      var x := PinOrigin(es, pin);
      PinAdmits(r, x, s, pin);
    } else {
      var d, x, str, lang := LabelOrigin(es, pin);
      LabelAdmits(r, d, x, s, str, lang);
    }
  }

  lemma PinsApart(e: Expr, pin: Pin)
    requires pin in Pins(e)
    ensures NoRepeats(pin.candidates)
  {
    var es := Conjuncts(e);
    if pin in FlatMap(es, PinsOf()) {
      var x := PinOrigin(es, pin);
      if x.In? {
        ListedTerms(x.list);
      }
    } else {
      var d, x, str, lang := LabelOrigin(es, pin);
      LabelsApart(str.1, lang.1);
    }
  }

  // --- `store_bound` -------------------------------------------------------------------------------------------

  function StoreBound(p: Pattern): set<Var> {
    match p
    case Bgp(ts) => TriplesVars(ts)
    case Path(s, _, o) => PositionVars(s) + PositionVars(o)
    case Join(l, r) => StoreBound(l) + StoreBound(r)
    case LeftJoin(l, _, _) => StoreBound(l)
    case Union(l, r) => StoreBound(l) * StoreBound(r)
    case Filter(_, i) => StoreBound(i)
    case Extend(i, _, _) => StoreBound(i)
    case Graph(name, i) => StoreBound(i) + PositionVars(name)
    case _ => {}
  }

  // --- `rewrite` -----------------------------------------------------------------------------------------------

  const NOTHING := Iri("urn:holos:nothing")

  // A pattern over a term the store does not have.
  function Nothing(known: set<Term>): Option<Pattern> {
    if NOTHING in known then None else Some(Bgp([TriplePattern(T(NOTHING), T(NOTHING), T(NOTHING))]))
  }

  function Known(known: set<Term>): Term -> bool {
    t => t in known
  }

  function AsRow(): Term -> seq<seq<Option<Term>>> {
    t => [[Some(t)]]
  }

  // One pin's join, or the pattern as it was.
  function Pinned(known: set<Term>, pin: Pin, inner: Pattern): Pattern {
    var rows := FlatMap(Select(pin.candidates, Known(known)), AsRow());
    if rows != [] then Join(Values([pin.v], rows), inner)
    else if Nothing(known).Some? then Join(Nothing(known).value, inner)
    else inner
  }

  function PinnedAll(known: set<Term>, pins: seq<Pin>, inner: Pattern): Pattern {
    if pins == [] then inner
    else Pinned(known, pins[|pins| - 1], PinnedAll(known, pins[..|pins| - 1], inner))
  }

  function InBound(bound: set<Var>): Pin -> bool {
    (pin: Pin) => pin.v in bound
  }

  function PinsWithin(e: Expr, inner: Pattern): seq<Pin> {
    Select(Pins(e), InBound(StoreBound(inner)))
  }

  method PinnedInput(e: Expr, inner: Pattern, known: set<Term>) returns (out: Pattern)
    ensures out == PinnedAll(known, PinsWithin(e, inner), inner)
  {
    var pins := CollectPins(e);
    pins := Select(pins, InBound(StoreBound(inner)));
    out := inner;
    for i := 0 to |pins|
      invariant out == PinnedAll(known, pins[..i], inner)
    {
      assert pins[..i + 1][..i] == pins[..i];
      out := Pinned(known, pins[i], out);
    }
    assert pins[..|pins|] == pins;
  }

  function Rewrite(known: set<Term>, p: Pattern): Pattern {
    match p
    case Filter(e, i) =>
      var inner := Rewrite(known, i);
      Filter(e, PinnedAll(known, PinsWithin(e, inner), inner))
    case Join(l, r) => Join(Rewrite(known, l), Rewrite(known, r))
    case LeftJoin(l, r, e) => LeftJoin(Rewrite(known, l), Rewrite(known, r), e)
    case Union(l, r) => Union(Rewrite(known, l), Rewrite(known, r))
    case Minus(l, r) => Minus(Rewrite(known, l), Rewrite(known, r))
    case Graph(name, i) => Graph(name, Rewrite(known, i))
    case Extend(i, v, e) => Extend(Rewrite(known, i), v, e)
    case OrderBy(i) => OrderBy(Rewrite(known, i))
    case Project(i, keep) => Project(Rewrite(known, i), keep)
    case Distinct(i) => Distinct(Rewrite(known, i))
    case Slice(i, start, length) => Slice(Rewrite(known, i), start, length)
    case Group(i, keys, aggregate) => Group(Rewrite(known, i), keys, aggregate)
    case _ => p
  }

  // --- Store-bound variables hold terms of the store -----------------------------------------------------------

  // Paths that may have length zero.
  predicate MayBeEmpty(e: PathExpr) {
    match e
    case Link(_) => false
    case Reverse(i) => MayBeEmpty(i)
    case Alternative(a, b) => MayBeEmpty(a) || MayBeEmpty(b)
    case ZeroOrMore(_) => true
    case ZeroOrOne(_) => true
    case OneOrMore(i) => MayBeEmpty(i)
  }

  // A path that may be empty joins no variable to a constant the store does not hold.
  predicate PathRegular(known: set<Term>, s: Position, e: PathExpr, o: Position) {
    MayBeEmpty(e) ==> (s.T? && o.V? ==> s.t in known) && (o.T? && s.V? ==> o.t in known)
  }

  // What the theorem asks of a pattern. SPARQL itself forbids BIND to a variable already in scope; paths are
  // regular; and below the top a slice, whose answer depends on the order of its input, has an input with nothing to pin.
  ghost predicate Regular(known: set<Term>, p: Pattern) {
    match p
    case Path(s, e, o) => PathRegular(known, s, e, o)
    case Join(l, r) => Regular(known, l) && Regular(known, r)
    case LeftJoin(l, r, _) => Regular(known, l) && Regular(known, r)
    case Union(l, r) => Regular(known, l) && Regular(known, r)
    case Minus(l, r) => Regular(known, l) && Regular(known, r)
    case Filter(_, i) => Regular(known, i)
    case Graph(_, i) => Regular(known, i)
    case Extend(i, v, _) => Regular(known, i) && v !in StoreBound(i)
    case Project(i, _) => Regular(known, i)
    case Distinct(i) => Regular(known, i)
    case OrderBy(i) => Regular(known, i)
    case Group(i, _, _) => Regular(known, i)
    case Slice(i, _, _) => Rewrite(known, i) == i
    case _ => true
  }

  ghost predicate Holding(vs: set<Var>, dict: set<Term>, s: Solution) {
    forall v :: v in vs ==> v in s && s[v] in dict
  }

  ghost predicate AllHolding(vs: set<Var>, dict: set<Term>, xs: seq<Solution>) {
    forall x :: x in xs ==> Holding(vs, dict, x)
  }

  lemma BindHolds(s: Option<Solution>, at: Position, t: Term, vs: set<Var>, dict: set<Term>)
    requires s.Some? ==> Holding(vs, dict, s.value)
    requires t in dict
    ensures BindTo(s, at, t).Some? ==> Holding(vs + PositionVars(at), dict, BindTo(s, at, t).value)
  {
  }

  lemma MatchHolds(view: View, t: TriplePattern, scope: Scope, q: Quad)
    requires view.Valid() && q in view.quads && !scope.InEach?
    ensures MatchFrom(map[], t, scope, q).Some? ==> Holding(TripleVars(t), view.dict, MatchFrom(map[], t, scope, q).value)
  {
    var a := BindScope(map[], scope, q.graph);
    BindHolds(a, t.s, q.s, {}, view.dict);
    BindHolds(BindTo(a, t.s, q.s), t.p, q.p, PositionVars(t.s), view.dict);
    BindHolds(BindTo(BindTo(a, t.s, q.s), t.p, q.p), t.o, q.o, PositionVars(t.s) + PositionVars(t.p), view.dict);
  }

  lemma TripleHolds(view: View, t: TriplePattern, scope: Scope)
    requires view.Valid() && !scope.InEach?
    ensures AllHolding(TripleVars(t), view.dict, TripleBag(view, t, scope))
  {
    forall s | s in TripleBag(view, t, scope)
      ensures Holding(TripleVars(t), view.dict, s)
    {
      FlatMapMember(view.quads, Matching(map[], t, scope), s);
      var q :| q in view.quads && s in Matching(map[], t, scope)(q);
      MatchHolds(view, t, scope, q);
    }
  }

  lemma MergedHolds(a: set<Var>, b: set<Var>, dict: set<Term>, x: Solution, y: Solution)
    requires Holding(a, dict, x) && Holding(b, dict, y) && Compatible(x, y)
    ensures Holding(a + b, dict, x + y)
  {
  }

  lemma JoinHolds(a: set<Var>, b: set<Var>, dict: set<Term>, xs: seq<Solution>, ys: seq<Solution>)
    requires AllHolding(a, dict, xs) && AllHolding(b, dict, ys)
    ensures AllHolding(a + b, dict, JoinBags(xs, ys))
  {
    forall s | s in JoinBags(xs, ys)
      ensures Holding(a + b, dict, s)
    {
      JoinMember(xs, ys, s);
      var x, y :| x in xs && y in ys && Compatible(x, y) && s == x + y;
      MergedHolds(a, b, dict, x, y);
    }
  }

  lemma {:induction false} BgpHolds(view: View, active: Option<Term>, ts: seq<TriplePattern>)
    requires view.Valid()
    ensures AllHolding(TriplesVars(ts), view.dict, BgpBag(view, active, ts))
  {
    if ts != [] {
      TripleHolds(view, ts[0], ActiveScope(active));
      BgpHolds(view, active, ts[1..]);
      JoinHolds(TripleVars(ts[0]), TriplesVars(ts[1..]), view.dict, TripleBag(view, ts[0], ActiveScope(active)), BgpBag(view, active, ts[1..]));
    }
  }

  lemma {:induction false} PathHolds(view: View, graph: Option<Term>, s: Position, e: PathExpr, o: Position)
    requires view.Valid() && PathRegular(view.dict, s, e, o)
    ensures AllHolding(PositionVars(s) + PositionVars(o), view.dict, PathBag(view, graph, s, e, o))
    decreases e
  {
    match e
    case Link(p) => TripleHolds(view, TriplePattern(s, T(p), o), ActiveScope(graph));
    case Reverse(i) => PathHolds(view, graph, o, i, s);
    case Alternative(a, b) =>
      PathHolds(view, graph, s, a, o);
      PathHolds(view, graph, s, b, o);
    case _ => ClosureHolds(view, graph, s, e, o);
  }

  lemma EndsHold(dict: set<Term>, s: Position, o: Position, x: Term, y: Term)
    requires x in dict && y in dict && EndsFrom(map[], s, o, x, y).Some?
    ensures Holding(PositionVars(s) + PositionVars(o), dict, EndsFrom(map[], s, o, x, y).value)
  {
    BindHolds(Some(map[]), s, x, {}, dict);
    BindHolds(BindTo(Some(map[]), s, x), o, y, PositionVars(s), dict);
  }

  lemma RangeInStore(view: View, graph: Option<Term>, s: Position, o: Position)
    requires view.Valid() && (s.T? ==> s.t in view.dict) && (o.T? ==> o.t in view.dict)
    ensures PathRange(view, graph, s, o) <= view.dict
  {
  }

  lemma ClosureRow(view: View, graph: Option<Term>, s: Position, e: PathExpr, o: Position, t: Solution) returns (x: Term, y: Term)
    requires t in Listing(ClosureSet(view, graph, s, e, o))
    ensures x in PathRange(view, graph, s, o) && y in PathRange(view, graph, s, o)
    ensures Linked(view, graph, e, x, y) && EndsFrom(map[], s, o, x, y) == Some(t)
  {
    assert t in ClosureSet(view, graph, s, e, o);
    x, y :| x in PathRange(view, graph, s, o) && y in PathRange(view, graph, s, o)
         && Linked(view, graph, e, x, y) && EndsFrom(map[], s, o, x, y).Some? && t == EndsFrom(map[], s, o, x, y).value;
  }

  // An edge is crossed, so both ends are nodes the store holds.
  lemma {:induction false} CrossedEnds(view: View, graph: Option<Term>, e: PathExpr, x: Term, y: Term)
    requires view.Valid() && !MayBeEmpty(e) && Linked(view, graph, e, x, y)
    ensures x in view.dict && y in view.dict
    decreases e
  {
    match e
    case Link(p) => assert Quad(x, p, y, graph) in view.quads;
    case Reverse(i) => CrossedEnds(view, graph, i, y, x);
    case Alternative(a, b) =>
      if Linked(view, graph, a, x, y) {
        CrossedEnds(view, graph, a, x, y);
      } else {
        CrossedEnds(view, graph, b, x, y);
      }
    case OneOrMore(i) =>
      var walk: seq<Term> :| |walk| >= 2 && walk[0] == x && walk[|walk| - 1] == y
                          && forall k :: 0 <= k < |walk| - 1 ==> Linked(view, graph, i, walk[k], walk[k + 1]);
      var n := |walk| - 2;
      assert Linked(view, graph, i, walk[0], walk[1]) && Linked(view, graph, i, walk[n], walk[n + 1]);
      CrossedEnds(view, graph, i, walk[0], walk[1]);
      CrossedEnds(view, graph, i, walk[n], walk[n + 1]);
  }

  lemma ClosureEnds(view: View, graph: Option<Term>, s: Position, e: PathExpr, o: Position, x: Term, y: Term)
    requires view.Valid() && PathRegular(view.dict, s, e, o) && (s.V? || o.V?) && Linked(view, graph, e, x, y)
    requires x in PathRange(view, graph, s, o) && y in PathRange(view, graph, s, o)
    ensures x in view.dict && y in view.dict
  {
    if MayBeEmpty(e) {
      RangeInStore(view, graph, s, o);
    } else {
      CrossedEnds(view, graph, e, x, y);
    }
  }

  lemma ClosureHolds(view: View, graph: Option<Term>, s: Position, e: PathExpr, o: Position)
    requires view.Valid() && PathRegular(view.dict, s, e, o)
    ensures AllHolding(PositionVars(s) + PositionVars(o), view.dict, Listing(ClosureSet(view, graph, s, e, o)))
  {
    forall t | t in Listing(ClosureSet(view, graph, s, e, o))
      ensures Holding(PositionVars(s) + PositionVars(o), view.dict, t)
    {
      if s.V? || o.V? {
        var x, y := ClosureRow(view, graph, s, e, o, t);
        ClosureEnds(view, graph, s, e, o, x, y);
        EndsHold(view.dict, s, o, x, y);
      }
    }
  }

  lemma OrAloneHolds(r: Rules, vs: set<Var>, dict: set<Term>, a: Solution, ys: seq<Solution>, e: Option<Expr>, s: Solution)
    requires Holding(vs, dict, a) && s in OrAlone(r, ys, e)(a)
    ensures Holding(vs, dict, s)
  {
    if s != a {
      SelectMember(JoinOne(a, ys), KeepsIf(r, e), s);
      JoinOneMember(a, ys, s);
      var b :| b in ys && Compatible(a, b) && s == a + b;
      MergedHolds(vs, {}, dict, a, b);
    }
  }

  lemma LeftJoinHolds(r: Rules, vs: set<Var>, dict: set<Term>, xs: seq<Solution>, ys: seq<Solution>, e: Option<Expr>)
    requires AllHolding(vs, dict, xs)
    ensures AllHolding(vs, dict, FlatMap(xs, OrAlone(r, ys, e)))
  {
    forall s | s in FlatMap(xs, OrAlone(r, ys, e))
      ensures Holding(vs, dict, s)
    {
      FlatMapMember(xs, OrAlone(r, ys, e), s);
      var a :| a in xs && s in OrAlone(r, ys, e)(a);
      OrAloneHolds(r, vs, dict, a, ys, e, s);
    }
  }

  lemma SelectHolds(vs: set<Var>, dict: set<Term>, xs: seq<Solution>, p: Solution -> bool)
    requires AllHolding(vs, dict, xs)
    ensures AllHolding(vs, dict, Select(xs, p))
  {
    forall s | s in Select(xs, p)
      ensures Holding(vs, dict, s)
    {
      SelectMember(xs, p, s);
    }
  }

  lemma ExtendHolds(r: Rules, vs: set<Var>, dict: set<Term>, xs: seq<Solution>, v: Var, e: Expr)
    requires AllHolding(vs, dict, xs) && v !in vs
    ensures AllHolding(vs, dict, FlatMap(xs, Extended(r, v, e)))
  {
    forall s | s in FlatMap(xs, Extended(r, v, e))
      ensures Holding(vs, dict, s)
    {
      FlatMapMember(xs, Extended(r, v, e), s);
      var a :| a in xs && s in Extended(r, v, e)(a);
    }
  }

  lemma {:induction false} EachHolds(c: Context, names: seq<Term>, v: Var, i: Pattern, vs: set<Var>)
    requires forall g :: g in names ==> g in c.view.dict && AllHolding(vs, c.view.dict, Eval(c, Some(g), i))
    ensures AllHolding(vs + {v}, c.view.dict, EvalEach(c, names, v, i))
    decreases |names|
  {
    if names != [] {
      var g := names[0];
      EachHolds(c, names[1..], v, i, vs);
      JoinHolds({v}, vs, c.view.dict, [map[v := g]], Eval(c, Some(g), i));
      JoinSingle(map[v := g], Eval(c, Some(g), i));
    }
  }

  lemma {:induction false} StoreBoundHolds(c: Context, active: Option<Term>, p: Pattern)
    requires c.view.Valid() && Regular(c.view.dict, p)
    ensures AllHolding(StoreBound(p), c.view.dict, Eval(c, active, p))
    decreases p
  {
    match p
    case Bgp(ts) => BgpHolds(c.view, active, ts);
    case Path(s, e, o) => PathHolds(c.view, active, s, e, o);
    case Join(l, r) =>
      StoreBoundHolds(c, active, l);
      StoreBoundHolds(c, active, r);
      JoinHolds(StoreBound(l), StoreBound(r), c.view.dict, Eval(c, active, l), Eval(c, active, r));
    case LeftJoin(l, r, e) =>
      StoreBoundHolds(c, active, l);
      LeftJoinHolds(c.rules, StoreBound(l), c.view.dict, Eval(c, active, l), Eval(c, active, r), e);
    case Union(l, r) =>
      StoreBoundHolds(c, active, l);
      StoreBoundHolds(c, active, r);
    case Filter(e, i) =>
      StoreBoundHolds(c, active, i);
      SelectHolds(StoreBound(i), c.view.dict, Eval(c, active, i), Keeps(c.rules, e));
    case Extend(i, v, e) =>
      StoreBoundHolds(c, active, i);
      ExtendHolds(c.rules, StoreBound(i), c.view.dict, Eval(c, active, i), v, e);
    case Graph(T(g), i) => StoreBoundHolds(c, Some(g), i);
    case Graph(V(v), i) =>
      forall g | g in Listing(c.view.GraphNames())
        ensures g in c.view.dict && AllHolding(StoreBound(i), c.view.dict, Eval(c, Some(g), i))
      {
        StoreBoundHolds(c, Some(g), i);
      }
      EachHolds(c, Listing(c.view.GraphNames()), v, i, StoreBound(i));
    case _ =>
  }

  // --- A pin changes nothing the filter keeps ------------------------------------------------------------------

  // The candidates the store holds, as the one-variable solutions a VALUES of them gives.
  function Bindings(v: Var): Term -> seq<Solution> {
    t => [map[v := t]]
  }

  lemma OneCandidate(v: Var, t: Term)
    ensures RowBag(map[], [v])([Some(t)]) == [map[v := t]]
  {
    var vars, row: seq<Option<Term>> := [v], [Some(t)];
    var none: Solution := map[];
    assert vars[1..] == [] && row[1..] == [];
    assert none[v := t] == map[v := t];
    assert RowFrom(Some(none), vars, row) == RowFrom(BindTo(Some(none), V(vars[0]), row[0].value), vars[1..], row[1..]);
    assert RowFrom(Some(map[v := t]), vars[1..], row[1..]) == Some(map[v := t]);
  }

  lemma {:induction false} ValuesOfCandidates(v: Var, ts: seq<Term>)
    ensures ValuesBag([v], FlatMap(ts, AsRow())) == FlatMap(ts, Bindings(v))
  {
    if ts != [] {
      var row: seq<Option<Term>> := [Some(ts[0])];
      ValuesOfCandidates(v, ts[1..]);
      FlatMapAppend([row], FlatMap(ts[1..], AsRow()), RowBag(map[], [v]));
      FlatMapOne(row, RowBag(map[], [v]));
      OneCandidate(v, ts[0]);
    }
  }

  // A solution that binds the variable joins with the one candidate it holds, and stays as it is.
  lemma {:induction false} JoinCandidates(v: Var, ts: seq<Term>, x: Solution)
    requires v in x && NoRepeats(ts)
    ensures JoinOne(x, FlatMap(ts, Bindings(v))) == if x[v] in ts then [x] else []
  {
    if ts != [] {
      var rest := FlatMap(ts[1..], Bindings(v));
      JoinCandidates(v, ts[1..], x);
      JoinOneAppend(x, [map[v := ts[0]]], rest);
      FlatMapOne(map[v := ts[0]], Against(x));
      if x[v] == ts[0] {
        assert x[v] !in ts[1..];
        assert x + map[v := ts[0]] == x;
      } else {
        assert x[v] in ts <==> x[v] in ts[1..];
        assert map[v := ts[0]][v] != x[v];
      }
    }
  }

  function OneOf(v: Var, ts: seq<Term>): Solution -> bool {
    x => v in x && x[v] in ts
  }

  lemma JoinPin(v: Var, ts: seq<Term>, xs: seq<Solution>)
    requires NoRepeats(ts) && forall x :: x in xs ==> v in x
    ensures Same(JoinBags(FlatMap(ts, Bindings(v)), xs), Select(xs, OneOf(v, ts)))
  {
    var vs := FlatMap(ts, Bindings(v));
    JoinCommutes(vs, xs);
    forall x | x in xs
      ensures JoinedWith(vs)(x) == Keep(OneOf(v, ts))(x)
    {
      JoinCandidates(v, ts, x);
    }
    FlatMapEqual(xs, JoinedWith(vs), Keep(OneOf(v, ts)));
    SelectIsFlatMap(xs, OneOf(v, ts));
  }

  // Selecting first what the filter would keep anyway.
  lemma {:induction false} SelectedAnyway(xs: seq<Solution>, p: Solution -> bool, q: Solution -> bool)
    requires forall x :: x in xs && q(x) ==> p(x)
    ensures Select(Select(xs, p), q) == Select(xs, q)
  {
    if xs != [] {
      SelectedAnyway(xs[1..], p, q);
      var head := if p(xs[0]) then [xs[0]] else [];
      SelectAppend(head, Select(xs[1..], p), q);
    }
  }

  lemma {:induction false} ApartStill(ts: seq<Term>, p: Term -> bool)
    requires NoRepeats(ts)
    ensures NoRepeats(Select(ts, p))
  {
    if ts != [] {
      ApartStill(ts[1..], p);
      SelectMember(ts[1..], p, ts[0]);
      if p(ts[0]) {
        NoRepeatsCons(ts[0], Select(ts[1..], p));
      }
    }
  }

  lemma NothingMatches(c: Context, active: Option<Term>)
    requires c.view.Valid() && Nothing(c.view.dict).Some?
    ensures Eval(c, active, Nothing(c.view.dict).value) == []
  {
    var t := TriplePattern(T(NOTHING), T(NOTHING), T(NOTHING));
    FlatMapNothing(c.view.quads, Matching(map[], t, ActiveScope(active)));
    BgpOne(c.view, active, t);
  }

  lemma RowsEmpty(ts: seq<Term>)
    ensures FlatMap(ts, AsRow()) == [] <==> ts == []
  {
  }

  // What a pinned pattern must still satisfy for the next pin: nothing in it is new.
  ghost predicate Within(xs: seq<Solution>, ys: seq<Solution>) {
    forall x :: x in xs ==> x in ys
  }

  // The solutions a filter keeps of a pattern.
  ghost function Kept(c: Context, active: Option<Term>, e: Expr, p: Pattern): seq<Solution> {
    Select(Eval(c, active, p), Keeps(c.rules, e))
  }

  ghost predicate PinnedAs(c: Context, active: Option<Term>, e: Expr, out: Pattern, inner: Pattern) {
    Same(Kept(c, active, e, out), Kept(c, active, e, inner)) && Within(Eval(c, active, out), Eval(c, active, inner))
  }

  lemma JoinedValues(c: Context, active: Option<Term>, v: Var, ts: seq<Term>, inner: Pattern)
    ensures Eval(c, active, Join(Values([v], FlatMap(ts, AsRow())), inner)) == JoinBags(FlatMap(ts, Bindings(v)), Eval(c, active, inner))
  {
    ValuesOfCandidates(v, ts);
  }

  lemma PinSome(c: Context, active: Option<Term>, e: Expr, v: Var, ts: seq<Term>, inner: Pattern, xs: seq<Solution>)
    requires xs == Eval(c, active, inner) && NoRepeats(ts) && forall x :: x in xs ==> v in x
    requires forall x :: x in xs && Keeps(c.rules, e)(x) ==> OneOf(v, ts)(x)
    ensures PinnedAs(c, active, e, Join(Values([v], FlatMap(ts, AsRow())), inner), inner)
  {
    JoinPin(v, ts, xs);
    PinnedRows(JoinBags(FlatMap(ts, Bindings(v)), xs), xs, OneOf(v, ts), Keeps(c.rules, e));
    JoinedValues(c, active, v, ts, inner);
  }

  lemma JoinNothing(c: Context, active: Option<Term>, nothing: Pattern, e: Expr, inner: Pattern)
    requires Eval(c, active, nothing) == []
    requires forall x :: x in Eval(c, active, inner) ==> !Keeps(c.rules, e)(x)
    ensures PinnedAs(c, active, e, Join(nothing, inner), inner)
  {
    SelectNone(Eval(c, active, inner), Keeps(c.rules, e));
    assert Eval(c, active, Join(nothing, inner)) == [];
  }

  lemma PinNone(c: Context, active: Option<Term>, e: Expr, inner: Pattern)
    requires c.view.Valid() && Nothing(c.view.dict).Some?
    requires forall x :: x in Eval(c, active, inner) ==> !Keeps(c.rules, e)(x)
    ensures PinnedAs(c, active, e, Join(Nothing(c.view.dict).value, inner), inner)
  {
    NothingMatches(c, active);
    JoinNothing(c, active, Nothing(c.view.dict).value, e, inner);
  }

  lemma PinSame(c: Context, active: Option<Term>, e: Expr, pin: Pin, inner: Pattern)
    requires c.view.Valid() && c.rules.Sparql() && pin in Pins(e)
    requires AllHolding({pin.v}, c.view.dict, Eval(c, active, inner))
    ensures PinnedAs(c, active, e, Pinned(c.view.dict, pin, inner), inner)
  {
    var ts := Select(pin.candidates, Known(c.view.dict));
    PinsApart(e, pin);
    ApartStill(pin.candidates, Known(c.view.dict));
    RowsEmpty(ts);
    CandidatesKept(c, e, pin, Eval(c, active, inner));
    if ts != [] {
      BindsIt(pin.v, c.view.dict, Eval(c, active, inner));
      PinSome(c, active, e, pin.v, ts, inner, Eval(c, active, inner));
    } else if Nothing(c.view.dict).Some? {
      PinNone(c, active, e, inner);
    }
  }

  lemma BindsIt(v: Var, dict: set<Term>, xs: seq<Solution>)
    requires AllHolding({v}, dict, xs)
    ensures forall x :: x in xs ==> v in x
  {
    forall x | x in xs
      ensures v in x
    {
      assert Holding({v}, dict, x) && v in {v};
    }
  }

  lemma PinnedRows(joined: seq<Solution>, xs: seq<Solution>, p: Solution -> bool, q: Solution -> bool)
    requires Same(joined, Select(xs, p)) && forall x :: x in xs && q(x) ==> p(x)
    ensures Same(Select(joined, q), Select(xs, q)) && Within(joined, xs)
  {
    SelectSame(joined, Select(xs, p), q);
    SelectedAnyway(xs, p, q);
    forall x | x in joined
      ensures x in xs
    {
      SameMembers(joined, Select(xs, p), x);
      SelectMember(xs, p, x);
    }
  }

  lemma CandidatesKept(c: Context, e: Expr, pin: Pin, xs: seq<Solution>)
    requires c.rules.Sparql() && pin in Pins(e) && AllHolding({pin.v}, c.view.dict, xs)
    ensures forall x :: x in xs && Keeps(c.rules, e)(x) ==> OneOf(pin.v, Select(pin.candidates, Known(c.view.dict)))(x)
  {
    forall x | x in xs && Keeps(c.rules, e)(x)
      ensures OneOf(pin.v, Select(pin.candidates, Known(c.view.dict)))(x)
    {
      PinsAdmit(c.rules, e, x, pin);
      assert pin.v in {pin.v};
      SelectMember(pin.candidates, Known(c.view.dict), x[pin.v]);
    }
  }

  lemma {:induction false} PinsSame(c: Context, active: Option<Term>, e: Expr, pins: seq<Pin>, inner: Pattern)
    requires c.view.Valid() && c.rules.Sparql()
    requires forall pin :: pin in pins ==> pin in Pins(e) && AllHolding({pin.v}, c.view.dict, Eval(c, active, inner))
    ensures PinnedAs(c, active, e, PinnedAll(c.view.dict, pins, inner), inner)
  {
    if pins != [] {
      var init, last := pins[..|pins| - 1], pins[|pins| - 1];
      var mid := PinnedAll(c.view.dict, init, inner);
      PinsSame(c, active, e, init, inner);
      assert last in pins;
      assert AllHolding({last.v}, c.view.dict, Eval(c, active, mid));
      PinSame(c, active, e, last, mid);
    }
  }

  lemma PinsUsable(c: Context, active: Option<Term>, e: Expr, inner: Pattern)
    requires AllHolding(StoreBound(inner), c.view.dict, Eval(c, active, inner))
    ensures forall pin :: pin in PinsWithin(e, inner) ==> pin in Pins(e) && AllHolding({pin.v}, c.view.dict, Eval(c, active, inner))
  {
    forall pin | pin in PinsWithin(e, inner)
      ensures pin in Pins(e) && AllHolding({pin.v}, c.view.dict, Eval(c, active, inner))
    {
      SelectMember(Pins(e), InBound(StoreBound(inner)), pin);
    }
  }

  lemma FilterSame(c: Context, active: Option<Term>, e: Expr, inner: Pattern)
    requires c.view.Valid() && c.rules.Sparql() && AllHolding(StoreBound(inner), c.view.dict, Eval(c, active, inner))
    ensures Same(Kept(c, active, e, PinnedAll(c.view.dict, PinsWithin(e, inner), inner)), Kept(c, active, e, inner))
  {
    PinsUsable(c, active, e, inner);
    PinsSame(c, active, e, PinsWithin(e, inner), inner);
  }

  lemma KeptIs(c: Context, active: Option<Term>, e: Expr, p: Pattern)
    ensures Eval(c, active, Filter(e, p)) == Kept(c, active, e, p)
  {
  }

  // --- The rewrite keeps every pattern's bag --------------------------------------------------------------------

  lemma {:induction false} PinnedBound(known: set<Term>, pins: seq<Pin>, inner: Pattern)
    ensures StoreBound(PinnedAll(known, pins, inner)) == StoreBound(inner)
    ensures Regular(known, inner) ==> Regular(known, PinnedAll(known, pins, inner))
  {
    if pins != [] {
      var mid := PinnedAll(known, pins[..|pins| - 1], inner);
      PinnedBound(known, pins[..|pins| - 1], inner);
      assert TriplesVars([TriplePattern(T(NOTHING), T(NOTHING), T(NOTHING))]) == {};
    }
  }

  // The rewrite neither adds nor loses a store-bound variable.
  lemma {:induction false} RewriteBound(known: set<Term>, p: Pattern)
    requires Regular(known, p)
    ensures StoreBound(Rewrite(known, p)) == StoreBound(p) && Regular(known, Rewrite(known, p))
  {
    match p
    case Filter(e, i) =>
      RewriteBound(known, i);
      var inner := Rewrite(known, i);
      PinnedBound(known, PinsWithin(e, inner), inner);
    case Join(l, r) => RewriteBound(known, l); RewriteBound(known, r);
    case LeftJoin(l, r, _) => RewriteBound(known, l); RewriteBound(known, r);
    case Union(l, r) => RewriteBound(known, l); RewriteBound(known, r);
    case Minus(l, r) => RewriteBound(known, l); RewriteBound(known, r);
    case Graph(_, i) => RewriteBound(known, i);
    case Extend(i, _, _) => RewriteBound(known, i);
    case OrderBy(i) => RewriteBound(known, i);
    case Project(i, _) => RewriteBound(known, i);
    case Distinct(i) => RewriteBound(known, i);
    case Group(i, _, _) => RewriteBound(known, i);
    case _ =>
  }

  // Rewriting with the pins a store can answer leaves the bag of solutions exactly what it was, at any
  // depth and in any graph.
  lemma {:induction false} RewriteSame(c: Context, active: Option<Term>, p: Pattern)
    requires c.view.Valid() && c.rules.Sparql() && Regular(c.view.dict, p)
    ensures Same(Eval(c, active, Rewrite(c.view.dict, p)), Eval(c, active, p))
    decreases p, 1
  {
    var known := c.view.dict;
    match p
    case Filter(e, i) =>
      RewriteSame(c, active, i);
      FilterRewritten(c, active, e, i, Rewrite(known, i));
      RewriteFilter(known, e, i, Rewrite(known, i));
    case Join(l, r) =>
      RewriteSame(c, active, l);
      RewriteSame(c, active, r);
      JoinSame(Eval(c, active, Rewrite(known, l)), Eval(c, active, l), Eval(c, active, Rewrite(known, r)), Eval(c, active, r));
    case LeftJoin(l, r, e) =>
      RewriteSame(c, active, l);
      RewriteSame(c, active, r);
      LeftJoinSame(c.rules, Eval(c, active, Rewrite(known, l)), Eval(c, active, l), Eval(c, active, Rewrite(known, r)), Eval(c, active, r), e);
    case Union(l, r) =>
      RewriteSame(c, active, l);
      RewriteSame(c, active, r);
      UnionSame(Eval(c, active, Rewrite(known, l)), Eval(c, active, l), Eval(c, active, Rewrite(known, r)), Eval(c, active, r));
    case Minus(l, r) =>
      RewriteSame(c, active, l);
      RewriteSame(c, active, r);
      MinusSame(Eval(c, active, Rewrite(known, l)), Eval(c, active, l), Eval(c, active, Rewrite(known, r)), Eval(c, active, r));
    case _ => RewriteOne(c, active, p);
  }

  lemma {:induction false} RewriteOne(c: Context, active: Option<Term>, p: Pattern)
    requires !p.Filter? && !p.Join? && !p.LeftJoin? && !p.Union? && !p.Minus?
    requires c.view.Valid() && c.rules.Sparql() && Regular(c.view.dict, p)
    ensures Same(Eval(c, active, Rewrite(c.view.dict, p)), Eval(c, active, p))
    decreases p, 0
  {
    var known := c.view.dict;
    match p
    case Graph(name, i) =>
      forall graph
        ensures Same(Eval(c, graph, Rewrite(known, i)), Eval(c, graph, i))
      {
        RewriteSame(c, graph, i);
      }
      GraphSame(c, active, name, Rewrite(known, i), i);
    case Extend(i, v, e) =>
      RewriteSame(c, active, i);
      FlatMapSame(Eval(c, active, Rewrite(known, i)), Eval(c, active, i), Extended(c.rules, v, e), Extended(c.rules, v, e));
    case OrderBy(i) => RewriteSame(c, active, i);
    case Project(i, keep) =>
      RewriteSame(c, active, i);
      FlatMapSame(Eval(c, active, Rewrite(known, i)), Eval(c, active, i), Projected(keep), Projected(keep));
    case Distinct(i) =>
      RewriteSame(c, active, i);
      DistinctSame(Eval(c, active, Rewrite(known, i)), Eval(c, active, i));
    case Group(i, keys, aggregate) =>
      RewriteSame(c, active, i);
      GroupSame(Eval(c, active, Rewrite(known, i)), Eval(c, active, i), keys, aggregate);
    case _ =>
  }

  lemma RewrittenHolds(c: Context, active: Option<Term>, i: Pattern, inner: Pattern)
    requires c.view.Valid() && Regular(c.view.dict, i) && inner == Rewrite(c.view.dict, i)
    ensures AllHolding(StoreBound(inner), c.view.dict, Eval(c, active, inner))
  {
    RewriteBound(c.view.dict, i);
    StoreBoundHolds(c, active, inner);
  }

  lemma RewriteFilter(known: set<Term>, e: Expr, i: Pattern, inner: Pattern)
    requires inner == Rewrite(known, i)
    ensures Rewrite(known, Filter(e, i)) == Filter(e, PinnedAll(known, PinsWithin(e, inner), inner))
  {
  }

  lemma FilterRewritten(c: Context, active: Option<Term>, e: Expr, i: Pattern, inner: Pattern)
    requires c.view.Valid() && c.rules.Sparql() && Regular(c.view.dict, i) && inner == Rewrite(c.view.dict, i)
    requires Same(Eval(c, active, inner), Eval(c, active, i))
    ensures Same(Eval(c, active, Filter(e, PinnedAll(c.view.dict, PinsWithin(e, inner), inner))), Eval(c, active, Filter(e, i)))
  {
    RewrittenHolds(c, active, i, inner);
    FilterSame(c, active, e, inner);
    FilterStep(c, active, e, i, inner, PinnedAll(c.view.dict, PinsWithin(e, inner), inner));
  }

  lemma FilterStep(c: Context, active: Option<Term>, e: Expr, i: Pattern, inner: Pattern, out: Pattern)
    requires Same(Kept(c, active, e, out), Kept(c, active, e, inner)) && Same(Eval(c, active, inner), Eval(c, active, i))
    ensures Same(Eval(c, active, Filter(e, out)), Eval(c, active, Filter(e, i)))
  {
    SelectSame(Eval(c, active, inner), Eval(c, active, i), Keeps(c.rules, e));
    KeptIs(c, active, e, i);
    KeptIs(c, active, e, out);
  }

  // --- Where the path arm goes wrong ------------------------------------------------------------------------------

  // `?x :p* c` filtered to `?x = c`.
  function ToItself(x: Var, p: Term, e: Term): Pattern {
    Filter(Equal(Variable(x), Constant(e)), Path(V(x), ZeroOrMore(Link(p)), T(e)))
  }

  lemma ZeroLength(view: View, active: Option<Term>, x: Var, p: Term, e: Term)
    ensures map[x := e] in PathBag(view, active, V(x), ZeroOrMore(Link(p)), T(e))
  {
    var s: Solution := map[x := e];
    var path := ZeroOrMore(Link(p));
    var walk := [e];
    assert |walk| >= 1 && walk[0] == e && walk[|walk| - 1] == e;
    assert Linked(view, active, path, e, e);
    var none: Solution := map[];
    assert none[x := e] == s;
    assert EndsFrom(none, V(x), T(e), e, e) == Some(s);
    assert e in PathRange(view, active, V(x), T(e));
    assert s in ClosureSet(view, active, V(x), path, T(e));
  }

  lemma ItselfEqual(r: Rules, x: Var, e: Term)
    requires e.Iri? && r.Sparql()
    ensures Holds(r, Equal(Variable(x), Constant(e)), map[x := e])
  {
    var s: Solution := map[x := e];
    assert r.equal(e, e) == Some(true);
    assert Evaluate(r, Variable(x), s) == Of(e) && Evaluate(r, Constant(e), s) == Of(e);
  }

  lemma ItselfReached(c: Context, active: Option<Term>, x: Var, p: Term, e: Term)
    requires e.Iri? && c.rules.Sparql()
    ensures map[x := e] in Eval(c, active, ToItself(x, p, e))
  {
    var i, f := Path(V(x), ZeroOrMore(Link(p)), T(e)), Equal(Variable(x), Constant(e));
    ZeroLength(c.view, active, x, p, e);
    ItselfEqual(c.rules, x, e);
    KeptMember(c, active, f, i, PathBag(c.view, active, V(x), ZeroOrMore(Link(p)), T(e)), map[x := e]);
  }

  lemma KeptMember(c: Context, active: Option<Term>, e: Expr, i: Pattern, xs: seq<Solution>, s: Solution)
    requires xs == Eval(c, active, i) && s in xs && Holds(c.rules, e, s)
    ensures s in Eval(c, active, Filter(e, i))
  {
    KeptIs(c, active, e, i);
    SelectMember(xs, Keeps(c.rules, e), s);
  }

  lemma ItselfPinned(known: set<Term>, x: Var, p: Term, e: Term)
    requires e.Iri? && e !in known && NOTHING !in known
    ensures Rewrite(known, ToItself(x, p, e)) == Filter(Equal(Variable(x), Constant(e)),
              Join(Nothing(known).value, Path(V(x), ZeroOrMore(Link(p)), T(e))))
  {
    var q := ToItself(x, p, e);
    var pin := Pin(x, [e]);
    FlatMapOne(q.expr, PinsOf());
    FlatMapOne(q.expr, Strings());
    FlatMapOne(q.expr, Languages());
    assert Pins(q.expr) == [pin];
    assert Select([pin][1..], InBound(StoreBound(q.inner))) == [];
    assert PinsWithin(q.expr, q.inner) == [pin];
    assert Select([e][1..], Known(known)) == [];
    assert Select(pin.candidates, Known(known)) == [];
    assert [pin][..0] == [];
    assert PinnedAll(known, [pin], q.inner) == Pinned(known, pin, q.inner);
  }

  // A path of length zero holds of a constant the store has never seen, and the pin drops that constant.
  // For this query the rewrite is right exactly when the store knows the term.
  lemma PathPinExactly(c: Context, active: Option<Term>, x: Var, p: Term, e: Term)
    requires c.view.Valid() && c.rules.Sparql() && e.Iri? && NOTHING !in c.view.dict
    ensures Same(Eval(c, active, Rewrite(c.view.dict, ToItself(x, p, e))), Eval(c, active, ToItself(x, p, e))) <==> e in c.view.dict
  {
    var q := ToItself(x, p, e);
    if e in c.view.dict {
      RewriteSame(c, active, q);
    } else {
      ItselfReached(c, active, x, p, e);
      ItselfLost(c, active, x, p, e);
      if Same(Eval(c, active, Rewrite(c.view.dict, q)), Eval(c, active, q)) {
        SameMembers(Eval(c, active, Rewrite(c.view.dict, q)), Eval(c, active, q), map[x := e]);
      }
    }
  }

  lemma ItselfLost(c: Context, active: Option<Term>, x: Var, p: Term, e: Term)
    requires c.view.Valid() && e.Iri? && e !in c.view.dict && NOTHING !in c.view.dict
    ensures Eval(c, active, Rewrite(c.view.dict, ToItself(x, p, e))) == []
  {
    var i, f := Path(V(x), ZeroOrMore(Link(p)), T(e)), Equal(Variable(x), Constant(e));
    var out := Join(Nothing(c.view.dict).value, i);
    ItselfPinned(c.view.dict, x, p, e);
    NothingMatches(c, active);
    NothingJoined(c, active, Nothing(c.view.dict).value, i);
    KeptIs(c, active, f, out);
  }

  lemma NothingJoined(c: Context, active: Option<Term>, l: Pattern, r: Pattern)
    requires Eval(c, active, l) == []
    ensures Eval(c, active, Join(l, r)) == []
  {
  }
}

/** The rewrite at the top of a query, where a slice may stand. */
module RewrittenQueries {
  import opened Options
  import opened Bags
  import opened Rdf
  import opened Solutions
  import opened Expressions
  import opened Algebra
  import opened Equality
  import opened Answering

  ghost predicate RegularQuery(known: set<Term>, q: Pattern) {
    match q
    case Distinct(i) => RegularQuery(known, i)
    case Slice(i, _, _) => RegularQuery(known, i)
    case _ => Regular(known, q)
  }

  // The rewritten query has exactly the answers the query has.
  lemma {:induction false} RewriteAnswers(c: Context, q: Pattern, ys: seq<Solution>)
    requires c.view.Valid() && c.rules.Sparql() && RegularQuery(c.view.dict, q)
    ensures Answers(c, Rewrite(c.view.dict, q), ys) <==> Answers(c, q, ys)
  {
    match q
    case Distinct(i) =>
      forall zs
        ensures Answers(c, Rewrite(c.view.dict, i), zs) <==> Answers(c, i, zs)
      {
        RewriteAnswers(c, i, zs);
      }
    case Slice(i, _, _) =>
      forall zs
        ensures Answers(c, Rewrite(c.view.dict, i), zs) <==> Answers(c, i, zs)
      {
        RewriteAnswers(c, i, zs);
      }
    case _ =>
      RewriteSame(c, None, q);
  }
}
