/**
 When an OPTIONAL may run last. `(A OPT B) JOIN C` and `(A JOIN C) OPT B` differ in general; they are
 the same bag once no variable the optional adds occurs in C, and the ones it shares are bound in A.
 */
module Commuting {
  import opened Options
  import opened Bags
  import opened Rdf
  import opened Solutions
  import opened Expressions
  import opened Algebra
  import opened Items

  // --- Left joins, in the order written ------------------------------------------------------------------

  // What an optional's items denote by themselves: the required ones joined, and their own optionals.
  ghost function Inner(c: Context, fs: seq<FilterEntry>, items: seq<Item>): seq<Solution>
    decreases TotalSize(items), 1
  {
    StepsSize(items);
    LeftJoins(c, fs, Conj(c.view, Required(items)), Optionals(items))
  }

  // What an optional adds to one solution: its matches, or nothing at all.
  ghost function OptionalMatches(c: Context, fs: seq<FilterEntry>, o: OptionalItem, a: Solution): seq<Solution>
    decreases TotalSize(o.items), 2
  {
    Select(JoinOne(a, Inner(c, fs, o.items)), Passing(c.rules, fs, o.filters))
  }

  ghost function OptionalFor(c: Context, fs: seq<FilterEntry>, o: OptionalItem): Solution -> seq<Solution>
    decreases TotalSize(o.items), 3
  {
    a => var m := OptionalMatches(c, fs, o, a); if m == [] then [a] else m
  }

  ghost function LeftJoins(c: Context, fs: seq<FilterEntry>, xs: seq<Solution>, os: seq<OptionalItem>)
    : seq<Solution>
    decreases TotalSize(Steps(os)), 0
  {
    if os == [] then xs
    else
      StepsHead(os);
      LeftJoins(c, fs, FlatMap(xs, OptionalFor(c, fs, os[0])), os[1..])
  }

  lemma {:induction false} LeftJoinsAppend(c: Context, fs: seq<FilterEntry>, xs: seq<Solution>, ys: seq<Solution>, os: seq<OptionalItem>)
    ensures LeftJoins(c, fs, xs + ys, os) == LeftJoins(c, fs, xs, os) + LeftJoins(c, fs, ys, os)
    decreases |os|
  {
    if os != [] {
      var f := OptionalFor(c, fs, os[0]);
      FlatMapAppend(xs, ys, f);
      LeftJoinsAppend(c, fs, FlatMap(xs, f), FlatMap(ys, f), os[1..]);
    }
  }

  lemma {:induction false} LeftJoinsNone(c: Context, fs: seq<FilterEntry>, os: seq<OptionalItem>)
    ensures LeftJoins(c, fs, [], os) == []
    decreases |os|
  {
    if os != [] {
      LeftJoinsNone(c, fs, os[1..]);
    }
  }

  // A left join never loses a row.
  lemma {:induction false} LeftJoinsSome(c: Context, fs: seq<FilterEntry>, xs: seq<Solution>, os: seq<OptionalItem>)
    requires xs != []
    ensures LeftJoins(c, fs, xs, os) != []
    decreases |os|
  {
    if os != [] {
      LeftJoinsSome(c, fs, FlatMap(xs, OptionalFor(c, fs, os[0])), os[1..]);
    }
  }

  lemma {:induction false} LeftJoinsSame(c: Context, fs: seq<FilterEntry>, xs: seq<Solution>, ys: seq<Solution>, os: seq<OptionalItem>)
    requires Same(xs, ys)
    ensures Same(LeftJoins(c, fs, xs, os), LeftJoins(c, fs, ys, os))
    decreases |os|
  {
    if os != [] {
      var f := OptionalFor(c, fs, os[0]);
      FlatMapSame(xs, ys, f, f);
      LeftJoinsSame(c, fs, FlatMap(xs, f), FlatMap(ys, f), os[1..]);
    }
  }

  lemma {:induction false} LeftJoinsConcat(c: Context, fs: seq<FilterEntry>, xs: seq<Solution>, os: seq<OptionalItem>, ps: seq<OptionalItem>)
    ensures LeftJoins(c, fs, xs, os + ps) == LeftJoins(c, fs, LeftJoins(c, fs, xs, os), ps)
    decreases |os|
  {
    if os == [] {
      assert os + ps == ps;
    } else {
      assert (os + ps)[1..] == os[1..] + ps;
      LeftJoinsConcat(c, fs, FlatMap(xs, OptionalFor(c, fs, os[0])), os[1..], ps);
    }
  }

  // --- The fence around an optional ------------------------------------------------------------------------

  // An optional inside another, over rows that bind `shared`: it adds no variable and has no filters.
  ghost predicate Bare(o: OptionalItem, shared: set<Var>)
    decreases TotalSize(o.items), 1
  {
    o.filters == [] && o.own == {} && ItemsVars(o.items) <= shared && BareWithin(o.items)
  }

  ghost predicate BareWithin(items: seq<Item>)
    decreases TotalSize(items), 0
  {
    forall i :: 0 <= i < |Optionals(items)| ==>
      (SmallerOptional(items, i); Bare(Optionals(items)[i], CertainAll(Required(items))))
  }

  // An optional over rows that bind `shared`: its items use only those variables and its own, its filters can be
  // decided once it has matched, and what is optional within it is bare.
  ghost predicate Fenced(fs: seq<FilterEntry>, o: OptionalItem, shared: set<Var>) {
    && ItemsVars(o.items) <= o.own + shared
    && (forall i :: i in o.filters ==> i < |fs| && fs[i].needs <= shared + CertainAll(Required(o.items)))
    && BareWithin(o.items)
  }

  lemma BareFenced(fs: seq<FilterEntry>, items: seq<Item>)
    requires BareWithin(items)
    ensures FencedAll(fs, Optionals(items), CertainAll(Required(items))) && OwnVars(Optionals(items)) == {}
  {
    OwnNothing(Optionals(items));
  }

  lemma {:induction false} OwnNothing(os: seq<OptionalItem>)
    requires forall i :: 0 <= i < |os| ==> os[i].own == {}
    ensures OwnVars(os) == {}
  {
    if os != [] {
      OwnNothing(os[1..]);
    }
  }

  ghost predicate AllBind(xs: seq<Solution>, shared: set<Var>) {
    forall x :: x in xs ==> shared <= x.Keys
  }

  ghost predicate Extends(a: Solution, m: Solution) {
    a.Keys <= m.Keys && forall v :: v in a ==> m[v] == a[v]
  }

  // A test that looks at nothing beyond `shared`.
  ghost predicate SettledBy(p: Solution -> bool, shared: set<Var>) {
    forall a: Solution, m: Solution :: shared <= a.Keys && Extends(a, m) ==> p(m) == p(a)
  }

  ghost predicate NoneBind(ys: seq<Solution>, own: set<Var>) {
    forall y :: y in ys ==> y.Keys !! own
  }

  lemma {:induction false} ConjBinds(view: View, items: seq<Item>, s: Solution)
    requires forall i :: 0 <= i < |items| ==> !items[i].OptionalStep?
    requires s in Conj(view, items)
    ensures CertainAll(items) <= s.Keys <= ItemsVars(items)
  {
    if items != [] {
      var k, rest := ItemBag(view, items[0]), Conj(view, items[1..]);
      JoinMember(k, rest, s);
      var x, y :| x in k && y in rest && Compatible(x, y) && s == x + y;
      ItemBinds(view, items[0], x);
      ConjBinds(view, items[1..], y);
    }
  }

  // --- One row of the left side ------------------------------------------------------------------------

  function Adding(y: Solution): Solution -> seq<Solution> {
    m => [m + y]
  }

  // The optional's solutions see the row and its extension alike.
  lemma SeesAlike(a: Solution, y: Solution, b: Solution, shared: set<Var>, own: set<Var>)
    requires Compatible(a, y) && shared <= a.Keys && b.Keys <= own + shared && y.Keys !! own
    ensures Compatible(a + y, b) == Compatible(a, b)
    ensures Compatible(a, b) ==> Compatible(a + b, y) && (a + y) + b == (a + b) + y
  {
    if Compatible(a, b) {
      forall v | v in a + y && v in b
        ensures (a + y)[v] == b[v]
      {
        assert v in a;
        assert (a + y)[v] == a[v];
      }
      forall v | v in a + b && v in y
        ensures (a + b)[v] == y[v]
      {
        if v in b {
          assert v in a && a[v] == b[v];
        }
      }
      assert (a + y) + b == (a + b) + y;
    }
    if Compatible(a + y, b) {
      forall v | v in a && v in b
        ensures a[v] == b[v]
      {
        assert (a + y)[v] == a[v];
      }
    }
  }

  lemma PassesAlike(r: Rules, fs: seq<FilterEntry>, which: seq<nat>, m: Solution, y: Solution)
    requires Compatible(m, y)
    requires forall i :: i in which ==> i < |fs| && fs[i].needs <= m.Keys
    ensures PassesEach(r, fs, which, m + y) == PassesEach(r, fs, which, m)
  {
    forall i | i in which
      ensures Passes(r, fs[i], m + y) == Passes(r, fs[i], m)
    {
      forall v | v in fs[i].needs
        ensures (m + y)[v] == m[v]
      {
      }
      PassesLocal(r, fs[i], m + y, m);
    }
  }

  lemma {:induction false} MatchesAlike(r: Rules, fs: seq<FilterEntry>, which: seq<nat>, a: Solution, y: Solution,
                                        bs: seq<Solution>, shared: set<Var>, own: set<Var>, certain: set<Var>)
    requires Compatible(a, y) && shared <= a.Keys && y.Keys !! own
    requires forall b :: b in bs ==> certain <= b.Keys <= own + shared
    requires forall i :: i in which ==> i < |fs| && fs[i].needs <= shared + certain
    ensures Select(JoinOne(a + y, bs), Passing(r, fs, which))
         == FlatMap(Select(JoinOne(a, bs), Passing(r, fs, which)), Adding(y))
  {
    if bs != [] {
      var b, p := bs[0], Passing(r, fs, which);
      MatchesAlike(r, fs, which, a, y, bs[1..], shared, own, certain);
      SeesAlike(a, y, b, shared, own);
      SelectAppend(Merge(a + y, b), JoinOne(a + y, bs[1..]), p);
      SelectAppend(Merge(a, b), JoinOne(a, bs[1..]), p);
      FlatMapAppend(Select(Merge(a, b), p), Select(JoinOne(a, bs[1..]), p), Adding(y));
      assert Select(Merge(a + y, b), p) == FlatMap(Select(Merge(a, b), p), Adding(y)) by {
        if Compatible(a, b) {
          PassesAlike(r, fs, which, a + b, y);
          SelectOne(a + b, p);
          SelectOne((a + b) + y, p);
          FlatMapOne(a + b, Adding(y));
        }
      }
    }
  }

  lemma SelectOne(s: Solution, p: Solution -> bool)
    ensures Select([s], p) == if p(s) then [s] else []
  {
    assert Select([s][1..], p) == [];
  }

  lemma {:induction false} AddingNothing(ms: seq<Solution>, y: Solution)
    ensures |FlatMap(ms, Adding(y))| == |ms|
  {
    if ms != [] {
      AddingNothing(ms[1..], y);
    }
  }

  lemma OptionalAlike(c: Context, fs: seq<FilterEntry>, o: OptionalItem, shared: set<Var>, a: Solution, y: Solution)
    requires Fenced(fs, o, shared) && shared <= a.Keys && y.Keys !! o.own && Compatible(a, y)
    ensures OptionalFor(c, fs, o)(a + y) == FlatMap(OptionalFor(c, fs, o)(a), Adding(y))
  {
    var k, certain := Inner(c, fs, o.items), CertainAll(Required(o.items));
    forall b | b in k
      ensures certain <= b.Keys <= o.own + shared
    {
      InnerBinds(c, fs, o.items, b);
    }
    MatchesAlike(c.rules, fs, o.filters, a, y, k, shared, o.own, certain);
    AddingNothing(OptionalMatches(c, fs, o, a), y);
    FlatMapOne(a, Adding(y));
  }

  // What an optional makes of a row keeps the row and adds only the optional's own variables.
  lemma {:induction false} OptionalKeeps(c: Context, fs: seq<FilterEntry>, o: OptionalItem, shared: set<Var>, a: Solution, m: Solution)
    requires Fenced(fs, o, shared) && shared <= a.Keys && m in OptionalFor(c, fs, o)(a)
    ensures Extends(a, m) && m.Keys <= a.Keys + o.own
    decreases TotalSize(o.items), 2
  {
    var k := Inner(c, fs, o.items);
    if m != a {
      SelectMember(JoinOne(a, k), Passing(c.rules, fs, o.filters), m);
      JoinOneMember(a, k, m);
      var b :| b in k && Compatible(a, b) && m == a + b;
      InnerBinds(c, fs, o.items, b);
    }
  }

  // An optional's rows bind what its required items are certain of, and nothing it does not mention.
  lemma {:induction false} InnerBinds(c: Context, fs: seq<FilterEntry>, items: seq<Item>, b: Solution)
    requires BareWithin(items) && b in Inner(c, fs, items)
    ensures CertainAll(Required(items)) <= b.Keys <= ItemsVars(items)
    decreases TotalSize(items), 1
  {
    var k := Conj(c.view, Required(items));
    RequiredVars(items);
    forall x | x in k
      ensures CertainAll(Required(items)) <= x.Keys <= ItemsVars(Required(items))
    {
      RequiredBinds(c.view, items, x);
    }
    BareFenced(fs, items);
    StepsSize(items);
    var a := LeftJoinsBind(c, fs, Optionals(items), CertainAll(Required(items)), k, b);
  }

  lemma {:induction false} RequiredVars(items: seq<Item>)
    ensures ItemsVars(Required(items)) <= ItemsVars(items)
  {
    if items != [] {
      RequiredVars(items[1..]);
      if !items[0].OptionalStep? {
        assert Required(items)[1..] == Required(items[1..]);
      }
    }
  }

  lemma RequiredBinds(view: View, items: seq<Item>, s: Solution)
    requires s in Conj(view, Required(items))
    ensures CertainAll(Required(items)) <= s.Keys <= ItemsVars(Required(items))
  {
    RequiredMembers(items);
    assert forall i :: 0 <= i < |Required(items)| ==> Required(items)[i] in Required(items);
    ConjBinds(view, Required(items), s);
  }

  lemma KeptCompatible(a: Solution, m: Solution, y: Solution, own: set<Var>)
    requires Extends(a, m) && m.Keys <= a.Keys + own && y.Keys !! own
    ensures Merge(m, y) == if Compatible(a, y) then [m + y] else []
  {
    if Compatible(a, y) {
      forall v | v in m && v in y
        ensures m[v] == y[v]
      {
        assert v in a;
      }
    } else {
      var v :| v in a && v in y && a[v] != y[v];
      assert m[v] == a[v];
    }
  }

  // For one row: the optional and then the join, or the join and then the optional.
  lemma RowCommutes(c: Context, fs: seq<FilterEntry>, o: OptionalItem, shared: set<Var>, a: Solution, ys: seq<Solution>)
    requires Fenced(fs, o, shared) && shared <= a.Keys && NoneBind(ys, o.own)
    ensures Same(JoinBags(OptionalFor(c, fs, o)(a), ys), FlatMap(JoinOne(a, ys), OptionalFor(c, fs, o)))
  {
    var ms, r := OptionalFor(c, fs, o)(a), MergeBoth();
    Exchange(ms, ys, r);
    forall m | m in ms
      ensures JoinedWith(ys)(m) == Rows(r, ys)(m)
    {
      FlatMapEqual(ys, Against(m), Row(r, m));
    }
    FlatMapEqual(ms, JoinedWith(ys), Rows(r, ys));
    ColumnByColumn(c, fs, o, shared, a, ys);
  }

  lemma {:induction false} ColumnByColumn(c: Context, fs: seq<FilterEntry>, o: OptionalItem, shared: set<Var>, a: Solution, ys: seq<Solution>)
    requires Fenced(fs, o, shared) && shared <= a.Keys && NoneBind(ys, o.own)
    ensures FlatMap(ys, Columns(MergeBoth(), OptionalFor(c, fs, o)(a))) == FlatMap(JoinOne(a, ys), OptionalFor(c, fs, o))
  {
    if ys != [] {
      var y, ms := ys[0], OptionalFor(c, fs, o)(a);
      ColumnByColumn(c, fs, o, shared, a, ys[1..]);
      FlatMapAppend(Merge(a, y), JoinOne(a, ys[1..]), OptionalFor(c, fs, o));
      assert y in ys;
      forall m | m in ms
        ensures Column(MergeBoth(), y)(m) == if Compatible(a, y) then Adding(y)(m) else []
      {
        OptionalKeeps(c, fs, o, shared, a, m);
        KeptCompatible(a, m, y, o.own);
      }
      if Compatible(a, y) {
        FlatMapEqual(ms, Column(MergeBoth(), y), Adding(y));
        OptionalAlike(c, fs, o, shared, a, y);
        FlatMapOne(a + y, OptionalFor(c, fs, o));
      } else {
        FlatMapNothing(ms, Column(MergeBoth(), y));
      }
    }
  }

  lemma {:induction false} OptionalCommutes(c: Context, fs: seq<FilterEntry>, o: OptionalItem, shared: set<Var>,
                                            xs: seq<Solution>, ys: seq<Solution>)
    requires Fenced(fs, o, shared) && AllBind(xs, shared) && NoneBind(ys, o.own)
    ensures Same(JoinBags(FlatMap(xs, OptionalFor(c, fs, o)), ys), FlatMap(JoinBags(xs, ys), OptionalFor(c, fs, o)))
  {
    if xs != [] {
      var f := OptionalFor(c, fs, o);
      OptionalCommutes(c, fs, o, shared, xs[1..], ys);
      RowCommutes(c, fs, o, shared, xs[0], ys);
      JoinAppend(f(xs[0]), FlatMap(xs[1..], f), ys);
      FlatMapAppend(JoinOne(xs[0], ys), JoinBags(xs[1..], ys), f);
    }
  }

  lemma {:induction false} OptionalBinds(c: Context, fs: seq<FilterEntry>, o: OptionalItem, shared: set<Var>, xs: seq<Solution>)
    requires Fenced(fs, o, shared) && AllBind(xs, shared)
    ensures AllBind(FlatMap(xs, OptionalFor(c, fs, o)), shared)
    decreases TotalSize(o.items), 3
  {
    forall m | m in FlatMap(xs, OptionalFor(c, fs, o))
      ensures shared <= m.Keys
    {
      FlatMapMember(xs, OptionalFor(c, fs, o), m);
      var a :| a in xs && m in OptionalFor(c, fs, o)(a);
      OptionalKeeps(c, fs, o, shared, a, m);
    }
  }

  // --- Any number of optionals -----------------------------------------------------------------------------

  ghost predicate FencedAll(fs: seq<FilterEntry>, os: seq<OptionalItem>, shared: set<Var>) {
    forall i :: 0 <= i < |os| ==> Fenced(fs, os[i], shared)
  }

  lemma {:induction false} LeftJoinsCommute(c: Context, fs: seq<FilterEntry>, os: seq<OptionalItem>, shared: set<Var>,
                                            xs: seq<Solution>, ys: seq<Solution>)
    requires FencedAll(fs, os, shared) && AllBind(xs, shared)
    requires forall i :: 0 <= i < |os| ==> NoneBind(ys, os[i].own)
    ensures Same(JoinBags(LeftJoins(c, fs, xs, os), ys), LeftJoins(c, fs, JoinBags(xs, ys), os))
    decreases |os|
  {
    if os != [] {
      var f := OptionalFor(c, fs, os[0]);
      OptionalBinds(c, fs, os[0], shared, xs);
      LeftJoinsCommute(c, fs, os[1..], shared, FlatMap(xs, f), ys);
      OptionalCommutes(c, fs, os[0], shared, xs, ys);
      LeftJoinsSame(c, fs, JoinBags(FlatMap(xs, f), ys), FlatMap(JoinBags(xs, ys), f), os[1..]);
    }
  }

  // The same with the optionals on the right.
  lemma LeftJoinsCommuteRight(c: Context, fs: seq<FilterEntry>, os: seq<OptionalItem>, shared: set<Var>,
                              xs: seq<Solution>, ys: seq<Solution>)
    requires FencedAll(fs, os, shared) && AllBind(ys, shared)
    requires forall i :: 0 <= i < |os| ==> NoneBind(xs, os[i].own)
    ensures Same(JoinBags(xs, LeftJoins(c, fs, ys, os)), LeftJoins(c, fs, JoinBags(xs, ys), os))
  {
    JoinCommutes(xs, LeftJoins(c, fs, ys, os));
    LeftJoinsCommute(c, fs, os, shared, ys, xs);
    JoinCommutes(ys, xs);
    LeftJoinsSame(c, fs, JoinBags(ys, xs), JoinBags(xs, ys), os);
  }

  // Every row is a left row with nothing changed and only the optionals' own variables added.
  lemma {:induction false} LeftJoinsBind(c: Context, fs: seq<FilterEntry>, os: seq<OptionalItem>, shared: set<Var>,
                                         xs: seq<Solution>, m: Solution)
    returns (a: Solution)
    requires FencedAll(fs, os, shared) && AllBind(xs, shared)
    requires m in LeftJoins(c, fs, xs, os)
    ensures a in xs && Extends(a, m) && m.Keys <= a.Keys + OwnVars(os)
    decreases TotalSize(Steps(os)), 0
  {
    if os == [] {
      a := m;
    } else {
      StepsHead(os);
      var f := OptionalFor(c, fs, os[0]);
      OptionalBinds(c, fs, os[0], shared, xs);
      var n := LeftJoinsBind(c, fs, os[1..], shared, FlatMap(xs, f), m);
      FlatMapMember(xs, f, n);
      a :| a in xs && n in f(a);
      OptionalKeeps(c, fs, os[0], shared, a, n);
      ExtendsTwice(a, n, m);
    }
  }

  lemma ExtendsTwice(a: Solution, n: Solution, m: Solution)
    requires Extends(a, n) && Extends(n, m)
    ensures Extends(a, m)
  {
    forall v | v in a
      ensures v in m && m[v] == a[v]
    {
      assert v in n;
    }
  }

  function OwnVars(os: seq<OptionalItem>): set<Var> {
    if os == [] then {} else os[0].own + OwnVars(os[1..])
  }

  // --- A filter that reads only what every left row binds ----------------------------------------------------

  lemma OptionalRowFiltered(c: Context, fs: seq<FilterEntry>, o: OptionalItem, shared: set<Var>, a: Solution, p: Solution -> bool)
    requires Fenced(fs, o, shared) && shared <= a.Keys && SettledBy(p, shared)
    ensures Select(OptionalFor(c, fs, o)(a), p) == if p(a) then OptionalFor(c, fs, o)(a) else []
  {
    var ms := OptionalFor(c, fs, o)(a);
    forall m | m in ms
      ensures p(m) == p(a)
    {
      OptionalKeeps(c, fs, o, shared, a, m);
    }
    if p(a) {
      SelectEvery(ms, p);
    } else {
      SelectNone(ms, p);
    }
  }

  ghost function If(p: Solution -> bool, f: Solution -> seq<Solution>): Solution -> seq<Solution> {
    a => if p(a) then f(a) else []
  }

  lemma OptionalFiltered(c: Context, fs: seq<FilterEntry>, o: OptionalItem, shared: set<Var>,
                         xs: seq<Solution>, p: Solution -> bool)
    requires Fenced(fs, o, shared) && AllBind(xs, shared) && SettledBy(p, shared)
    ensures Select(FlatMap(xs, OptionalFor(c, fs, o)), p) == FlatMap(Select(xs, p), OptionalFor(c, fs, o))
  {
    var f := OptionalFor(c, fs, o);
    forall a | a in xs
      ensures If(p, f)(a) == Select(f(a), p)
    {
      OptionalRowFiltered(c, fs, o, shared, a, p);
    }
    SelectFlatMap(xs, f, p, If(p, f));
    FlatMapSelect(xs, p, If(p, f));
    forall a | a in Select(xs, p)
      ensures f(a) == If(p, f)(a)
    {
      SelectMember(xs, p, a);
    }
    FlatMapEqual(Select(xs, p), f, If(p, f));
  }

  lemma {:induction false} LeftJoinsFiltered(c: Context, fs: seq<FilterEntry>, os: seq<OptionalItem>, shared: set<Var>,
                                             xs: seq<Solution>, p: Solution -> bool)
    requires FencedAll(fs, os, shared) && AllBind(xs, shared)
    requires SettledBy(p, shared)
    ensures Select(LeftJoins(c, fs, xs, os), p) == LeftJoins(c, fs, Select(xs, p), os)
    decreases |os|
  {
    if os != [] {
      var f := OptionalFor(c, fs, os[0]);
      OptionalBinds(c, fs, os[0], shared, xs);
      LeftJoinsFiltered(c, fs, os[1..], shared, FlatMap(xs, f), p);
      OptionalFiltered(c, fs, os[0], shared, xs, p);
    }
  }

  // --- Filters hoisted out of a join ---------------------------------------------------------------------------

  function Both(p: Solution -> bool, q: Solution -> bool): Solution -> bool {
    s => p(s) && q(s)
  }

  lemma {:induction false} SelectJoinRight(x: Solution, ys: seq<Solution>, q: Solution -> bool)
    requires forall y :: y in ys && Compatible(x, y) ==> q(x + y) == q(y)
    ensures JoinOne(x, Select(ys, q)) == Select(JoinOne(x, ys), q)
  {
    if ys != [] {
      var head := if q(ys[0]) then [ys[0]] else [];
      SelectJoinRight(x, ys[1..], q);
      JoinOneAppend(x, head, Select(ys[1..], q));
      SelectAppend(Merge(x, ys[0]), JoinOne(x, ys[1..]), q);
      FlatMapOne(ys[0], Against(x));
      if Compatible(x, ys[0]) {
        SelectOne(x + ys[0], q);
      }
    }
  }

  lemma {:induction false} SelectTwice(xs: seq<Solution>, p: Solution -> bool, q: Solution -> bool)
    ensures Select(Select(xs, p), q) == Select(xs, Both(p, q))
  {
    if xs != [] {
      var head := if p(xs[0]) then [xs[0]] else [];
      SelectTwice(xs[1..], p, q);
      SelectAppend(head, Select(xs[1..], p), q);
      if p(xs[0]) {
        SelectOne(xs[0], q);
      }
    }
  }

  // Filtering each side before a join is filtering the join with both.
  lemma {:induction false} SelectJoin(xs: seq<Solution>, ys: seq<Solution>, p: Solution -> bool, q: Solution -> bool)
    requires forall x, y :: x in xs && y in ys && Compatible(x, y) ==> p(x + y) == p(x) && q(x + y) == q(y)
    ensures JoinBags(Select(xs, p), Select(ys, q)) == Select(JoinBags(xs, ys), Both(p, q))
  {
    if xs != [] {
      var x := xs[0];
      var head := if p(x) then [x] else [];
      SelectJoin(xs[1..], ys, p, q);
      JoinAppend(head, Select(xs[1..], p), Select(ys, q));
      SelectAppend(JoinOne(x, ys), JoinBags(xs[1..], ys), Both(p, q));
      SelectJoinRight(x, ys, q);
      SelectTwice(JoinOne(x, ys), q, p);
      JoinSingle(x, Select(ys, q));
      forall t | t in JoinOne(x, ys)
        ensures p(t) == p(x) && Both(p, q)(t) == Both(q, p)(t)
      {
        JoinOneMember(x, ys, t);
      }
      SelectEqual(JoinOne(x, ys), Both(p, q), Both(q, p));
      if p(x) {
        SelectSub(JoinOne(x, ys), q);
        SelectEvery(Select(JoinOne(x, ys), q), p);
      } else {
        SelectNone(JoinOne(x, ys), Both(p, q));
      }
    }
  }

  lemma SelectSub(xs: seq<Solution>, q: Solution -> bool)
    ensures forall t :: t in Select(xs, q) ==> t in xs
  {
    forall t | t in Select(xs, q)
      ensures t in xs
    {
      SelectMember(xs, q, t);
    }
  }

  // --- What the loop owes, where the fences stand, is the left joins -----------------------------------------

  ghost predicate Decided(fs: seq<FilterEntry>, which: seq<nat>, bound: set<Var>) {
    forall i :: i in which ==> i < |fs| && fs[i].needs <= bound
  }

  lemma {:induction false} NothingPending(fs: seq<FilterEntry>, which: seq<nat>, bound: set<Var>)
    requires Decided(fs, which, bound)
    ensures StillPending(fs, which, bound) == []
  {
    if which != [] {
      var init, last := which[..|which| - 1], which[|which| - 1];
      assert which == init + [last] && last in which;
      NothingPending(fs, init, bound);
    }
  }

  lemma OnwardDecided(c: Context, fs: seq<FilterEntry>, os: seq<OptionalItem>, which: seq<nat>, y: Solution)
    requires Decided(fs, which, y.Keys)
    ensures Onward(c, fs, os, which, y) == if PassesEach(c.rules, fs, which, y) then Onward(c, fs, os, [], y) else []
  {
    OnwardScreened(c, fs, os, which, y, y);
    NothingPending(fs, which, y.Keys);
    assert Screens(c.rules, fs, which, y) <==> PassesEach(c.rules, fs, which, y);
  }

  ghost function EachLeft(c: Context, fs: seq<FilterEntry>, os: seq<OptionalItem>): Solution -> seq<Solution> {
    y => LeftJoins(c, fs, [y], os)
  }

  lemma {:induction false} LeftJoinsEach(c: Context, fs: seq<FilterEntry>, xs: seq<Solution>, os: seq<OptionalItem>)
    ensures LeftJoins(c, fs, xs, os) == FlatMap(xs, EachLeft(c, fs, os))
  {
    if xs == [] {
      LeftJoinsNone(c, fs, os);
    } else {
      assert xs == [xs[0]] + xs[1..];
      LeftJoinsAppend(c, fs, [xs[0]], xs[1..], os);
      LeftJoinsEach(c, fs, xs[1..], os);
    }
  }

  // A list of rows carried on, filters and all.
  lemma {:induction false} CarriedSettles(c: Context, fs: seq<FilterEntry>, os: seq<OptionalItem>, which: seq<nat>, shared: set<Var>,
                                          ys: seq<Solution>)
    requires FencedAll(fs, os, shared) && AllBind(ys, shared) && Decided(fs, which, shared)
    ensures Same(FlatMap(ys, Carried(c, fs, os, which)), LeftJoins(c, fs, Select(ys, Passing(c.rules, fs, which)), os))
    decreases TotalSize(Steps(os)), 1
  {
    var p, f, g := Passing(c.rules, fs, which), Carried(c, fs, os, which), EachLeft(c, fs, os);
    forall y | y in ys
      ensures Same(f(y), If(p, g)(y))
    {
      OnwardDecided(c, fs, os, which, y);
      if p(y) {
        OnwardSettles(c, fs, os, shared, y);
      }
    }
    FlatMapSame(ys, ys, f, If(p, g));
    FlatMapSelect(ys, p, If(p, g));
    forall y | y in Select(ys, p)
      ensures If(p, g)(y) == g(y)
    {
      SelectMember(ys, p, y);
    }
    FlatMapEqual(Select(ys, p), If(p, g), g);
    LeftJoinsEach(c, fs, Select(ys, p), os);
  }

  lemma JoinedBind(x: Solution, ys: seq<Solution>, a: set<Var>, b: set<Var>)
    requires a <= x.Keys && AllBind(ys, b)
    ensures AllBind(JoinOne(x, ys), a + b)
  {
    forall t | t in JoinOne(x, ys)
      ensures a + b <= t.Keys
    {
      JoinOneMember(x, ys, t);
    }
  }

  lemma FencedSooner(fs: seq<FilterEntry>, o: OptionalItem, rest: seq<OptionalItem>, shared: set<Var>)
    requires Fenced(fs, o, shared) && FencedAll(fs, rest, shared)
    ensures FencedAll(fs, Optionals(o.items) + rest, shared + CertainAll(Required(o.items)))
    ensures Decided(fs, o.filters, shared + CertainAll(Required(o.items)))
  {
    BareFenced(fs, o.items);
    var os, certain := Optionals(o.items) + rest, CertainAll(Required(o.items));
    forall i | 0 <= i < |os|
      ensures Fenced(fs, os[i], shared + certain)
    {
      if i < |Optionals(o.items)| {
        assert Fenced(fs, Optionals(o.items)[i], certain);
      } else {
        assert Fenced(fs, rest[i - |Optionals(o.items)|], shared);
      }
    }
  }

  // An optional's matches, its own optionals run where the loop runs them: after the row and the filters.
  lemma MatchesSettle(c: Context, fs: seq<FilterEntry>, o: OptionalItem, shared: set<Var>, x: Solution)
    requires Fenced(fs, o, shared) && shared <= x.Keys
    ensures Same(LeftJoins(c, fs, Select(JoinOne(x, Conj(c.view, Required(o.items))), Passing(c.rules, fs, o.filters)), Optionals(o.items)),
                 OptionalMatches(c, fs, o, x))
  {
    var certain := CertainAll(Required(o.items));
    ConjAllBind(c.view, o.items);
    BareFenced(fs, o.items);
    FencedSooner(fs, o, [], shared);
    assert Optionals(o.items) + [] == Optionals(o.items);
    RowsSettle(c, fs, Optionals(o.items), o.filters, certain, shared, Conj(c.view, Required(o.items)), x);
  }

  lemma RowsSettle(c: Context, fs: seq<FilterEntry>, ns: seq<OptionalItem>, which: seq<nat>, certain: set<Var>, shared: set<Var>,
                   k: seq<Solution>, x: Solution)
    requires FencedAll(fs, ns, certain) && FencedAll(fs, ns, shared + certain) && Decided(fs, which, shared + certain)
    requires OwnVars(ns) == {} && AllBind(k, certain) && shared <= x.Keys
    ensures Same(LeftJoins(c, fs, Select(JoinOne(x, k), Passing(c.rules, fs, which)), ns),
                 Select(JoinOne(x, LeftJoins(c, fs, k, ns)), Passing(c.rules, fs, which)))
  {
    var p := Passing(c.rules, fs, which);
    OwnNone(ns);
    JoinedBind(x, k, shared, certain);
    JoinSingle(x, k);
    JoinSingle(x, LeftJoins(c, fs, k, ns));
    LeftJoinsCommuteRight(c, fs, ns, certain, [x], k);
    SelectSame(JoinOne(x, LeftJoins(c, fs, k, ns)), LeftJoins(c, fs, JoinOne(x, k), ns), p);
    FiltersSettled(c.rules, fs, which, shared + certain);
    LeftJoinsFiltered(c, fs, ns, shared + certain, JoinOne(x, k), p);
  }

  lemma {:induction false} OwnNone(os: seq<OptionalItem>)
    requires OwnVars(os) == {}
    ensures forall i :: 0 <= i < |os| ==> os[i].own == {}
  {
    if os != [] {
      assert os[0].own <= OwnVars(os) && OwnVars(os[1..]) <= OwnVars(os);
      OwnNone(os[1..]);
    }
  }

  lemma ConjAllBind(view: View, items: seq<Item>)
    ensures AllBind(Conj(view, Required(items)), CertainAll(Required(items)))
  {
    forall s | s in Conj(view, Required(items))
      ensures CertainAll(Required(items)) <= s.Keys
    {
      RequiredBinds(view, items, s);
    }
  }

  lemma FiltersSettled(r: Rules, fs: seq<FilterEntry>, which: seq<nat>, bound: set<Var>)
    requires Decided(fs, which, bound)
    ensures SettledBy(Passing(r, fs, which), bound)
  {
    var p := Passing(r, fs, which);
    forall a: Solution, m: Solution | bound <= a.Keys && Extends(a, m)
      ensures p(m) == p(a)
    {
      forall i | i in which
        ensures Passes(r, fs[i], m) == Passes(r, fs[i], a)
      {
        PassesLocal(r, fs[i], m, a);
      }
    }
  }

  // The list with the first optional's items in front.
  lemma FrontParts(o: OptionalItem, rest: seq<OptionalItem>)
    ensures var all := o.items + Steps(rest);
            Required(all) == Required(o.items) && Optionals(all) == Optionals(o.items) + rest
    ensures TotalSize(Steps(Optionals(o.items) + rest)) <= TotalSize(o.items) + TotalSize(Steps(rest))
  {
    RequiredAppend(o.items, Steps(rest));
    OptionalsOfSteps(rest);
    assert Required(o.items) + [] == Required(o.items);
    StepsSize(o.items);
    StepsAppend(Optionals(o.items), rest);
    SizeAppend(Steps(Optionals(o.items)), Steps(rest));
  }

  lemma {:induction false} StepsAppend(xs: seq<OptionalItem>, ys: seq<OptionalItem>)
    ensures Steps(xs + ys) == Steps(xs) + Steps(ys)
  {
  }

  lemma {:induction false} InnerSettles(c: Context, fs: seq<FilterEntry>, o: OptionalItem, rest: seq<OptionalItem>, shared: set<Var>, x: Solution)
    requires Fenced(fs, o, shared) && FencedAll(fs, rest, shared) && shared <= x.Keys
    ensures Same(Meaning(c, fs, o.items + Steps(rest), o.filters, [x]), LeftJoins(c, fs, OptionalMatches(c, fs, o, x), rest))
    decreases TotalSize(o.items) + TotalSize(Steps(rest)), 2
  {
    var k, ns, certain, p := Conj(c.view, Required(o.items)), Optionals(o.items), CertainAll(Required(o.items)), Passing(c.rules, fs, o.filters);
    FrontParts(o, rest);
    FencedSooner(fs, o, rest, shared);
    ConjAllBind(c.view, o.items);
    JoinedBind(x, k, shared, certain);
    JoinSingle(x, k);
    CarriedSettles(c, fs, ns + rest, o.filters, shared + certain, JoinOne(x, k));
    LeftJoinsConcat(c, fs, Select(JoinOne(x, k), p), ns, rest);
    MatchesSettle(c, fs, o, shared, x);
    LeftJoinsSame(c, fs, LeftJoins(c, fs, Select(JoinOne(x, k), p), ns), OptionalMatches(c, fs, o, x), rest);
  }

  lemma {:induction false} OnwardSettles(c: Context, fs: seq<FilterEntry>, os: seq<OptionalItem>, shared: set<Var>, x: Solution)
    requires FencedAll(fs, os, shared) && shared <= x.Keys
    ensures Same(Onward(c, fs, os, [], x), LeftJoins(c, fs, [x], os))
    decreases TotalSize(Steps(os)), 0
  {
    if os != [] {
      var o, rest := os[0], os[1..];
      StepsHead(os);
      assert Fenced(fs, o, shared);
      InnerSettles(c, fs, o, rest, shared, x);
      OnwardSettles(c, fs, rest, shared, x);
      FirstOptional(c, fs, os, x);
    }
  }

  lemma FirstOptional(c: Context, fs: seq<FilterEntry>, os: seq<OptionalItem>, x: Solution)
    requires os != []
    requires Same(Meaning(c, fs, os[0].items + Steps(os[1..]), os[0].filters, [x]), LeftJoins(c, fs, OptionalMatches(c, fs, os[0], x), os[1..]))
    requires Same(Onward(c, fs, os[1..], [], x), LeftJoins(c, fs, [x], os[1..]))
    ensures Same(Onward(c, fs, os, [], x), LeftJoins(c, fs, [x], os))
  {
    var o, rest := os[0], os[1..];
    var inner, m := Meaning(c, fs, o.items + Steps(rest), o.filters, [x]), OptionalMatches(c, fs, o, x);
    assert [] + o.filters == o.filters;
    FlatMapOne(x, OptionalFor(c, fs, o));
    LeftJoinsNone(c, fs, rest);
    SameLength(inner, LeftJoins(c, fs, m, rest));
    if m != [] {
      LeftJoinsSome(c, fs, m, rest);
    }
  }

  // A plan whose optionals are fenced and whose filters can be decided: the loop owes the left joins.
  lemma MeaningSettles(c: Context, fs: seq<FilterEntry>, items: seq<Item>, which: seq<nat>)
    requires FencedAll(fs, Optionals(items), CertainAll(Required(items))) && Decided(fs, which, CertainAll(Required(items)))
    ensures Same(Meaning(c, fs, items, which, [map[]]),
                 LeftJoins(c, fs, Select(Conj(c.view, Required(items)), Passing(c.rules, fs, which)), Optionals(items)))
  {
    JoinIdentity(Conj(c.view, Required(items)));
    ConjAllBind(c.view, items);
    CarriedSettles(c, fs, Optionals(items), which, CertainAll(Required(items)), Conj(c.view, Required(items)));
  }
}
