/** Expressions, as far as the engine looks inside them. */
module Expressions {
  import opened Options
  import opened Rdf
  import opened Solutions

  // What evaluating an expression yields: an error, a truth value, or a term.
  datatype Value = Error | Truth(b: bool) | Of(t: Term)

  /**
   `Fn` stands for every operator and builtin whose result depends only on its arguments' values,
   errors included (`||`, `!`, `BOUND`, `IF`, arithmetic, casts and the custom functions).
   `External` stands for what depends on more: `EXISTS`, `NOW`, `RAND`, `UUID`, `BNODE`.
   */
  datatype Expr =
    | Variable(v: Var)
    | Constant(t: Term)
    | And(a: Expr, b: Expr)
    | Equal(a: Expr, b: Expr)
    | SameTerm(a: Expr, b: Expr)
    | In(a: Expr, list: seq<Expr>)
    | Str(a: Expr)
    | Lang(a: Expr)
    | Fn(args: seq<Expr>, f: seq<Value> -> Value)
    | External(g: Solution -> Value)

  // The evaluator's own rules: `=` between terms, and the effective boolean value of a term.
  // `None` is an error.
  datatype Rules = Rules(equal: (Term, Term) -> Option<bool>, ebv: Term -> Option<bool>)
  {
    // What SPARQL fixes about `=` when one side is an IRI or a plain string: it holds for the
    // identical term and for no other.
    ghost predicate Sparql() {
      forall x: Term, y: Term :: x.Iri? || x.IsPlain() ==>
        && (equal(x, y) == Some(true) <==> x == y)
        && (equal(y, x) == Some(true) <==> x == y)
    }
  }

  function AsTerm(v: Value): Option<Term> {
    match v
    case Error => None
    case Truth(b) => Some(Typed(if b then "true" else "false", XSD_BOOLEAN))
    case Of(t) => Some(t)
  }

  function Ebv(r: Rules, v: Value): Option<bool> {
    match v
    case Error => None
    case Truth(b) => Some(b)
    case Of(t) => r.ebv(t)
  }

  function FromOption(b: Option<bool>): Value {
    if b.None? then Error else Truth(b.value)
  }

  // `&&` with errors: false wins over an error, and an error over true.
  function Both(a: Option<bool>, b: Option<bool>): Value {
    if a == Some(false) || b == Some(false) then Truth(false)
    else if a.None? || b.None? then Error
    else Truth(true)
  }

  function EqualValues(r: Rules, a: Value, b: Value): Value {
    var x, y := AsTerm(a), AsTerm(b);
    if x.None? || y.None? then Error else FromOption(r.equal(x.value, y.value))
  }

  function SameTermValues(a: Value, b: Value): Value {
    var x, y := AsTerm(a), AsTerm(b);
    if x.None? || y.None? then Error else Truth(x == y)
  }

  // `a IN (x, ...)` is `a = x || ...`.
  function InValues(r: Rules, a: Value, list: seq<Value>): Value {
    if exists i :: 0 <= i < |list| && EqualValues(r, a, list[i]) == Truth(true) then Truth(true)
    else if exists i :: 0 <= i < |list| && EqualValues(r, a, list[i]) == Error then Error
    else Truth(false)
  }

  function StrValue(a: Value): Value {
    match AsTerm(a)
    case Some(Iri(i)) => Of(Typed(i, XSD_STRING))
    case Some(Typed(l, _)) => Of(Typed(l, XSD_STRING))
    case Some(Tagged(l, _, _)) => Of(Typed(l, XSD_STRING))
    case _ => Error
  }

  function LangValue(a: Value): Value {
    match AsTerm(a)
    case Some(Typed(_, _)) => Of(Typed("", XSD_STRING))
    case Some(Tagged(_, tag, _)) => Of(Typed(tag, XSD_STRING))
    case _ => Error
  }

  function Evaluate(r: Rules, e: Expr, s: Solution): Value
    decreases e
  {
    match e
    case Variable(v) => if v in s then Of(s[v]) else Error
    case Constant(t) => Of(t)
    case And(a, b) => Both(Ebv(r, Evaluate(r, a, s)), Ebv(r, Evaluate(r, b, s)))
    case Equal(a, b) => EqualValues(r, Evaluate(r, a, s), Evaluate(r, b, s))
    case SameTerm(a, b) => SameTermValues(Evaluate(r, a, s), Evaluate(r, b, s))
    case In(a, list) => InValues(r, Evaluate(r, a, s), EvaluateEach(r, list, s))
    case Str(a) => StrValue(Evaluate(r, a, s))
    case Lang(a) => LangValue(Evaluate(r, a, s))
    case Fn(args, f) => f(EvaluateEach(r, args, s))
    case External(g) => g(s)
  }

  function EvaluateEach(r: Rules, es: seq<Expr>, s: Solution): (vs: seq<Value>)
    ensures |vs| == |es|
    ensures forall i :: 0 <= i < |es| ==> vs[i] == Evaluate(r, es[i], s)
    decreases es
  {
    if es == [] then [] else [Evaluate(r, es[0], s)] + EvaluateEach(r, es[1..], s)
  }

  // Whether a FILTER keeps the solution. Errors and terms without a truth value reject it.
  predicate Holds(r: Rules, e: Expr, s: Solution) {
    Ebv(r, Evaluate(r, e, s)) == Some(true)
  }

  // --- What `inspect_expression` reports ---------------------------------------------------------

  function Needs(e: Expr): set<Var>
    decreases e
  {
    match e
    case Variable(v) => {v}
    case Constant(_) => {}
    case And(a, b) => Needs(a) + Needs(b)
    case Equal(a, b) => Needs(a) + Needs(b)
    case SameTerm(a, b) => Needs(a) + Needs(b)
    case In(a, list) => Needs(a) + NeedsEach(list)
    case Str(a) => Needs(a)
    case Lang(a) => Needs(a)
    case Fn(args, _) => NeedsEach(args)
    case External(_) => {}
  }

  function NeedsEach(es: seq<Expr>): set<Var>
    decreases es
  {
    if es == [] then {} else Needs(es[0]) + NeedsEach(es[1..])
  }

  predicate Inspectable(e: Expr)
    decreases e
  {
    match e
    case Variable(_) => true
    case Constant(_) => true
    case And(a, b) => Inspectable(a) && Inspectable(b)
    case Equal(a, b) => Inspectable(a) && Inspectable(b)
    case SameTerm(a, b) => Inspectable(a) && Inspectable(b)
    case In(a, list) => Inspectable(a) && InspectableEach(list)
    case Str(a) => Inspectable(a)
    case Lang(a) => Inspectable(a)
    case Fn(args, _) => InspectableEach(args)
    case External(_) => false
  }

  predicate InspectableEach(es: seq<Expr>)
    decreases es
  {
    es == [] || (Inspectable(es[0]) && InspectableEach(es[1..]))
  }

  ghost predicate Agree(vs: set<Var>, s: Solution, t: Solution) {
    forall v :: v in vs ==> (v in s <==> v in t) && (v in s && v in t ==> s[v] == t[v])
  }

  // An inspectable expression sees only the variables it mentions.
  lemma {:induction false} EvaluateLocal(r: Rules, e: Expr, s: Solution, t: Solution)
    requires Inspectable(e) && Agree(Needs(e), s, t)
    ensures Evaluate(r, e, s) == Evaluate(r, e, t)
    decreases e
  {
    match e
    case Variable(v) => assert v in Needs(e);
    case Constant(_) =>
    case And(a, b) => EvaluateLocal(r, a, s, t); EvaluateLocal(r, b, s, t);
    case Equal(a, b) => EvaluateLocal(r, a, s, t); EvaluateLocal(r, b, s, t);
    case SameTerm(a, b) => EvaluateLocal(r, a, s, t); EvaluateLocal(r, b, s, t);
    case In(a, list) => EvaluateLocal(r, a, s, t); EvaluateEachLocal(r, list, s, t);
    case Str(a) => EvaluateLocal(r, a, s, t);
    case Lang(a) => EvaluateLocal(r, a, s, t);
    case Fn(args, _) => EvaluateEachLocal(r, args, s, t);
  }

  lemma {:induction false} EvaluateEachLocal(r: Rules, es: seq<Expr>, s: Solution, t: Solution)
    requires InspectableEach(es) && Agree(NeedsEach(es), s, t)
    ensures EvaluateEach(r, es, s) == EvaluateEach(r, es, t)
    decreases es
  {
    if es != [] {
      EvaluateLocal(r, es[0], s, t);
      EvaluateEachLocal(r, es[1..], s, t);
    }
  }

  // --- `flatten_conjunction` ---------------------------------------------------------------------

  function Conjuncts(e: Expr): seq<Expr> {
    match e
    case And(a, b) => Conjuncts(a) + Conjuncts(b)
    case _ => [e]
  }

  lemma BothTrue(x: Option<bool>, y: Option<bool>)
    ensures Both(x, y) == Truth(true) <==> x == Some(true) && y == Some(true)
  {
    if x.Some? && y.Some? {
      var p, q := x.value, y.value;
      assert x == Some(p) && y == Some(q);
    }
  }

  // Splitting `A && B` keeps the same solutions: the errors one half could mask reject it anyway.
  lemma {:induction false} ConjunctsHold(r: Rules, e: Expr, s: Solution)
    ensures Holds(r, e, s) <==> forall x :: x in Conjuncts(e) ==> Holds(r, x, s)
  {
    match e
    case And(a, b) =>
      ConjunctsHold(r, a, s);
      ConjunctsHold(r, b, s);
      var x, y := Ebv(r, Evaluate(r, a, s)), Ebv(r, Evaluate(r, b, s));
      assert Evaluate(r, e, s) == Both(x, y);
      BothTrue(x, y);
      assert Holds(r, e, s) <==> Holds(r, a, s) && Holds(r, b, s);
      assert Conjuncts(e) == Conjuncts(a) + Conjuncts(b);
      assert forall x :: x in Conjuncts(a) ==> x in Conjuncts(e);
      assert forall x :: x in Conjuncts(b) ==> x in Conjuncts(e);
    case _ =>
      assert Conjuncts(e) == [e] && e in Conjuncts(e);
  }
}

/**
 The SPARQL 1.1 algebra (SPARQL 1.1 Query, sections 18.4 to 18.6) over bags of solutions: the
 bottom-up meaning that the engine's plans and rewrites are held to.
 */
module Algebra {
  import opened Options
  import opened Bags
  import opened Rdf
  import opened Solutions
  import opened Expressions

  // A position of a triple pattern. A blank node of the query is a variable that no projection
  // can name, so it is written as one.
  datatype Position = V(v: Var) | T(t: Term)

  datatype TriplePattern = TriplePattern(s: Position, p: Position, o: Position)

  datatype PathExpr =
    | Link(p: Term)
    | Reverse(inner: PathExpr)
    | Alternative(a: PathExpr, b: PathExpr)
    | ZeroOrMore(inner: PathExpr)
    | OneOrMore(inner: PathExpr)
    | ZeroOrOne(inner: PathExpr)

  datatype Pattern =
    | Bgp(triples: seq<TriplePattern>)
    | Path(source: Position, path: PathExpr, target: Position)
    | Values(vars: seq<Var>, rows: seq<seq<Option<Term>>>)
    | Join(left: Pattern, right: Pattern)
    | LeftJoin(left: Pattern, right: Pattern, condition: Option<Expr>)
    | Union(left: Pattern, right: Pattern)
    | Minus(left: Pattern, right: Pattern)
    | Filter(expr: Expr, inner: Pattern)
    | Graph(name: Position, inner: Pattern)
    | Extend(inner: Pattern, v: Var, expr: Expr)
    | Project(inner: Pattern, keep: seq<Var>)
    | Distinct(inner: Pattern)
    | OrderBy(inner: Pattern)
    | Slice(inner: Pattern, start: nat, length: Option<nat>)
    | Group(inner: Pattern, keys: seq<Var>, aggregate: multiset<Solution> -> Solution)
    | Service(endpoint: string, inner: Pattern)

  datatype Context = Context(view: View, remote: string -> View, rules: Rules)

  // Where a pattern looks: outside every graph, in one, or in all of them by turns.
  datatype Scope = InDefault | InNamed(g: Term) | InEach(v: Var)

  // --- Triple patterns -------------------------------------------------------------------------

  // Extends a solution so that a position holds a term, or gives up.
  function BindTo(s: Option<Solution>, at: Position, t: Term): Option<Solution> {
    if s.None? then None
    else match at
      case T(c) => if c == t then s else None
      case V(v) =>
        if v in s.value then (if s.value[v] == t then s else None)
        else Some(s.value[v := t])
  }

  function BindScope(s: Solution, scope: Scope, graph: Option<Term>): Option<Solution> {
    match scope
    case InDefault => if graph.None? then Some(s) else None
    case InNamed(g) => if graph == Some(g) then Some(s) else None
    case InEach(v) => if graph.None? then None else BindTo(Some(s), V(v), graph.value)
  }

  function MatchFrom(s: Solution, t: TriplePattern, scope: Scope, q: Quad): Option<Solution> {
    BindTo(BindTo(BindTo(BindScope(s, scope, q.graph), t.s, q.s), t.p, q.p), t.o, q.o)
  }

  function AsBag(s: Option<Solution>): seq<Solution> {
    if s.None? then [] else [s.value]
  }

  function Matching(s: Solution, t: TriplePattern, scope: Scope): Quad -> seq<Solution> {
    q => AsBag(MatchFrom(s, t, scope, q))
  }

  function TripleBag(view: View, t: TriplePattern, scope: Scope): seq<Solution> {
    FlatMap(view.quads, Matching(map[], t, scope))
  }

  function ActiveScope(active: Option<Term>): Scope {
    if active.None? then InDefault else InNamed(active.value)
  }

  // --- Property paths --------------------------------------------------------------------------

  // Whether a path expression connects two terms in a graph.
  ghost predicate Linked(view: View, graph: Option<Term>, e: PathExpr, x: Term, y: Term)
    decreases e
  {
    match e
    case Link(p) => view.Edge(graph, p, x, y)
    case Reverse(i) => Linked(view, graph, i, y, x)
    case Alternative(a, b) => Linked(view, graph, a, x, y) || Linked(view, graph, b, x, y)
    case ZeroOrOne(i) => x == y || Linked(view, graph, i, x, y)
    case ZeroOrMore(i) => exists walk: seq<Term> ::
      |walk| >= 1 && walk[0] == x && walk[|walk| - 1] == y
      && forall k :: 0 <= k < |walk| - 1 ==> Linked(view, graph, i, walk[k], walk[k + 1])
    case OneOrMore(i) => exists walk: seq<Term> ::
      |walk| >= 2 && walk[0] == x && walk[|walk| - 1] == y
      && forall k :: 0 <= k < |walk| - 1 ==> Linked(view, graph, i, walk[k], walk[k + 1])
  }

  function ConstantOf(at: Position): set<Term> {
    if at.T? then {at.t} else {}
  }

  function EndsFrom(s: Solution, source: Position, target: Position, x: Term, y: Term): Option<Solution> {
    BindTo(BindTo(Some(s), source, x), target, y)
  }

  // The terms a closure ranges over: the nodes of the graph, and the constants written at its ends
  // (section 18.4: with a term at an end, a zero-length path holds whether or not the graph has it).
  ghost function PathRange(view: View, graph: Option<Term>, source: Position, target: Position): set<Term> {
    view.Nodes(graph) + ConstantOf(source) + ConstantOf(target)
  }

  // The pairs a closure connects, each once whatever the number of routes (section 9.3).
  ghost function ClosureSet(view: View, graph: Option<Term>, source: Position, e: PathExpr, target: Position)
    : set<Solution>
  {
    set x, y |
      && x in PathRange(view, graph, source, target)
      && y in PathRange(view, graph, source, target)
      && Linked(view, graph, e, x, y)
      && EndsFrom(map[], source, target, x, y).Some?
      :: EndsFrom(map[], source, target, x, y).value
  }

  ghost function PathBag(view: View, graph: Option<Term>, source: Position, e: PathExpr, target: Position)
    : seq<Solution>
    decreases e
  {
    match e
    case Link(p) => TripleBag(view, TriplePattern(source, T(p), target), ActiveScope(graph))
    case Reverse(i) => PathBag(view, graph, target, i, source)
    case Alternative(a, b) => PathBag(view, graph, source, a, target) + PathBag(view, graph, source, b, target)
    case _ => Listing(ClosureSet(view, graph, source, e, target))
  }

  // --- VALUES ----------------------------------------------------------------------------------

  // A row's bindings, column by column. `None` is UNDEF. A variable written twice must agree.
  function RowFrom(s: Option<Solution>, vars: seq<Var>, row: seq<Option<Term>>): Option<Solution>
    decreases |vars|
  {
    if s.None? || vars == [] || row == [] then s
    else RowFrom(if row[0].None? then s else BindTo(s, V(vars[0]), row[0].value), vars[1..], row[1..])
  }

  function RowBag(s: Solution, vars: seq<Var>): seq<Option<Term>> -> seq<Solution> {
    row => AsBag(RowFrom(Some(s), vars, row))
  }

  function ValuesBag(vars: seq<Var>, rows: seq<seq<Option<Term>>>): seq<Solution> {
    FlatMap(rows, RowBag(map[], vars))
  }

  // --- The operators ---------------------------------------------------------------------------

  function Keeps(r: Rules, e: Expr): Solution -> bool {
    s => Holds(r, e, s)
  }

  function KeepsIf(r: Rules, e: Option<Expr>): Solution -> bool {
    s => e.None? || Holds(r, e.value, s)
  }

  // LeftJoin(A, B, F) for one left solution: its matches, or itself when there are none.
  ghost function OrAlone(r: Rules, bs: seq<Solution>, e: Option<Expr>): Solution -> seq<Solution> {
    a => var matches := Select(JoinOne(a, bs), KeepsIf(r, e)); if matches == [] then [a] else matches
  }

  ghost predicate Excludes(a: Solution, b: Solution) {
    Compatible(a, b) && exists v :: v in a && v in b
  }

  ghost function Survives(bs: seq<Solution>): Solution -> bool {
    a => !exists b :: b in bs && Excludes(a, b)
  }

  function Extended(r: Rules, v: Var, e: Expr): Solution -> seq<Solution> {
    s => var t := AsTerm(Evaluate(r, e, s)); [if t.None? then s else s[v := t.value]]
  }

  function Projected(keep: seq<Var>): Solution -> seq<Solution> {
    s => [Restrict(s, set v | v in keep)]
  }

  function HasKey(keys: seq<Var>, k: Solution): Solution -> bool {
    s => Restrict(s, set v | v in keys) == k
  }

  function GroupRow(xs: seq<Solution>, keys: seq<Var>, aggregate: multiset<Solution> -> Solution)
    : Solution -> seq<Solution>
  {
    k => [k + aggregate(multiset(Select(xs, HasKey(keys, k))))]
  }

  // One row per distinct key; without keys, one row whatever the input.
  function GroupBag(xs: seq<Solution>, keys: seq<Var>, aggregate: multiset<Solution> -> Solution)
    : seq<Solution>
  {
    if keys == [] then [aggregate(multiset(xs))]
    else FlatMap(Dedup(FlatMap(xs, Projected(keys))), GroupRow(xs, keys, aggregate))
  }

  function Sliced<A>(xs: seq<A>, start: nat, length: Option<nat>): seq<A> {
    var rest := if start <= |xs| then xs[start..] else [];
    if length.None? || |rest| <= length.value then rest else rest[..length.value]
  }

  // The bag a pattern denotes in the active graph. The order of the rows means nothing, except that
  // `Slice` has to take some of them: see `Answers` for the top of a query.
  ghost function Eval(c: Context, active: Option<Term>, p: Pattern): seq<Solution>
    decreases p, 0
  {
    match p
    case Bgp(ts) => BgpBag(c.view, active, ts)
    case Path(s, e, o) => PathBag(c.view, active, s, e, o)
    case Values(vars, rows) => ValuesBag(vars, rows)
    case Join(l, r) => JoinBags(Eval(c, active, l), Eval(c, active, r))
    case LeftJoin(l, r, e) => FlatMap(Eval(c, active, l), OrAlone(c.rules, Eval(c, active, r), e))
    case Union(l, r) => Eval(c, active, l) + Eval(c, active, r)
    case Minus(l, r) => Select(Eval(c, active, l), Survives(Eval(c, active, r)))
    case Filter(e, i) => Select(Eval(c, active, i), Keeps(c.rules, e))
    case Graph(T(g), i) => if g in c.view.GraphNames() then Eval(c, Some(g), i) else []
    case Graph(V(v), i) => EvalEach(c, Listing(c.view.GraphNames()), v, i)
    case Extend(i, v, e) => FlatMap(Eval(c, active, i), Extended(c.rules, v, e))
    case Project(i, keep) => FlatMap(Eval(c, active, i), Projected(keep))
    case Distinct(i) => Dedup(Eval(c, active, i))
    case OrderBy(i) => Eval(c, active, i)
    case Slice(i, start, length) => Sliced(Eval(c, active, i), start, length)
    case Group(i, keys, aggregate) => GroupBag(Eval(c, active, i), keys, aggregate)
    case Service(endpoint, i) => Eval(c.(view := c.remote(endpoint)), None, i)
  }

  ghost function BgpBag(view: View, active: Option<Term>, ts: seq<TriplePattern>): seq<Solution> {
    if ts == [] then [map[]]
    else JoinBags(TripleBag(view, ts[0], ActiveScope(active)), BgpBag(view, active, ts[1..]))
  }

  // GRAPH ?v: every named graph in turn, the variable bound to its name.
  ghost function EvalEach(c: Context, names: seq<Term>, v: Var, p: Pattern): seq<Solution>
    decreases p, 1, |names|
  {
    if names == [] then []
    else JoinOne(map[v := names[0]], Eval(c, Some(names[0]), p)) + EvalEach(c, names[1..], v, p)
  }

  // --- One operator at a time --------------------------------------------------------------------------------------

  lemma ProjectIs(c: Context, i: Pattern, keep: seq<Var>)
    ensures Eval(c, None, Project(i, keep)) == FlatMap(Eval(c, None, i), Projected(keep))
  {
  }

  lemma FilterIs(c: Context, e: Expr, i: Pattern)
    ensures Eval(c, None, Filter(e, i)) == Select(Eval(c, None, i), Keeps(c.rules, e))
  {
  }

  lemma MinusIs(c: Context, l: Pattern, r: Pattern)
    ensures Eval(c, None, Minus(l, r)) == Select(Eval(c, None, l), Survives(Eval(c, None, r)))
  {
  }

  lemma LeftIs(c: Context, l: Pattern, r: Pattern)
    ensures Eval(c, None, LeftJoin(l, r, None)) == FlatMap(Eval(c, None, l), OrAlone(c.rules, Eval(c, None, r), None))
  {
  }

  lemma GroupIs(c: Context, i: Pattern, aggregate: multiset<Solution> -> Solution)
    ensures Eval(c, None, Group(i, [], aggregate)) == [aggregate(multiset(Eval(c, None, i)))]
  {
  }

  lemma SliceIs(c: Context, i: Pattern)
    ensures Eval(c, None, Slice(i, 0, Some(1))) == Sliced(Eval(c, None, i), 0, Some(1))
  {
  }

  lemma ExtendIs(c: Context, i: Pattern, v: Var, e: Expr)
    ensures Eval(c, None, Extend(i, v, e)) == FlatMap(Eval(c, None, i), Extended(c.rules, v, e))
  {
  }
}
