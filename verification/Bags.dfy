/**
 A predicate that is kept folded. Written `forall k {:trigger Unlock(k)} :: Unlock(k) ==> ...`, it says
 nothing of what is inside it until a proof asserts `Unlock(Key)`, and until then it costs the solver
 nothing to carry.
 */
module Locks {
  datatype Lock = Key

  ghost predicate Unlock(k: Lock) {
    true
  }
}

/**
 Sequences read as bags: two sequences are the same bag when they hold the same elements with the
 same multiplicities. `FlatMap` is the one loop every operator of the algebra is built from, so the
 laws here are the laws the join, the union and the left join inherit.
 */
module Bags {

  ghost predicate Same<T>(a: seq<T>, b: seq<T>) {
    multiset(a) == multiset(b)
  }

  function FlatMap<A, B>(xs: seq<A>, f: A -> seq<B>): (r: seq<B>)
  {
    if xs == [] then [] else f(xs[0]) + FlatMap(xs[1..], f)
  }

  function Select<A>(xs: seq<A>, p: A -> bool): (r: seq<A>)
  {
    if xs == [] then []
    else (if p(xs[0]) then [xs[0]] else []) + Select(xs[1..], p)
  }

  lemma Regroup<A>(a: seq<A>, b: seq<A>, c: seq<A>)
    ensures (a + b) + c == a + (b + c)
  {
  }

  lemma {:induction false} FlatMapAppend<A, B>(xs: seq<A>, ys: seq<A>, f: A -> seq<B>)
    ensures FlatMap(xs + ys, f) == FlatMap(xs, f) + FlatMap(ys, f)
  {
    if xs == [] {
      assert xs + ys == ys;
    } else {
      var all := xs + ys;
      assert all[0] == xs[0] && all[1..] == xs[1..] + ys;
      FlatMapAppend(xs[1..], ys, f);
      Regroup(f(xs[0]), FlatMap(xs[1..], f), FlatMap(ys, f));
    }
  }

  lemma FlatMapOne<A, B>(x: A, f: A -> seq<B>)
    ensures FlatMap([x], f) == f(x)
  {
    assert FlatMap([x][1..], f) == [];
  }

  lemma FlatMapSnoc<A, B>(xs: seq<A>, x: A, f: A -> seq<B>)
    ensures FlatMap(xs + [x], f) == FlatMap(xs, f) + f(x)
  {
    FlatMapAppend(xs, [x], f);
    FlatMapOne(x, f);
  }

  lemma {:induction false} FlatMapMember<A, B>(xs: seq<A>, f: A -> seq<B>, y: B)
    ensures y in FlatMap(xs, f) <==> exists x :: x in xs && y in f(x)
  {
    if xs != [] {
      FlatMapMember(xs[1..], f, y);
      assert forall x :: x in xs <==> x == xs[0] || x in xs[1..];
    }
  }

  // A loop whose every turn yields nothing yields nothing, and one whose turns agree agrees.
  lemma {:induction false} FlatMapEqual<A, B>(xs: seq<A>, f: A -> seq<B>, g: A -> seq<B>)
    requires forall x :: x in xs ==> f(x) == g(x)
    ensures FlatMap(xs, f) == FlatMap(xs, g)
  {
    if xs != [] {
      FlatMapEqual(xs[1..], f, g);
    }
  }

  lemma {:induction false} FlatMapNothing<A, B>(xs: seq<A>, f: A -> seq<B>)
    requires forall x :: x in xs ==> f(x) == []
    ensures FlatMap(xs, f) == []
  {
    if xs != [] {
      FlatMapNothing(xs[1..], f);
    }
  }

  // Elements the loop ignores may be dropped before it runs.
  lemma {:induction false} FlatMapSelect<A, B>(xs: seq<A>, p: A -> bool, f: A -> seq<B>)
    requires forall x :: x in xs && !p(x) ==> f(x) == []
    ensures FlatMap(Select(xs, p), f) == FlatMap(xs, f)
  {
    if xs != [] {
      FlatMapSelect(xs[1..], p, f);
      var head := if p(xs[0]) then [xs[0]] else [];
      FlatMapAppend(head, Select(xs[1..], p), f);
      if p(xs[0]) {
        FlatMapOne(xs[0], f);
      }
    }
  }

  // Where an element sits in a bag that has the same contents.
  lemma SameFind<A>(x: A, xs: seq<A>, ys: seq<A>) returns (i: nat)
    requires Same([x] + xs, ys)
    ensures i < |ys| && ys[i] == x
    ensures ys == ys[..i] + [x] + ys[i + 1..]
    ensures Same(xs, ys[..i] + ys[i + 1..])
  {
    assert x in multiset([x] + xs);
    assert x in ys;
    i :| 0 <= i < |ys| && ys[i] == x;
    assert ys == ys[..i] + [x] + ys[i + 1..];
    assert multiset(ys) == multiset(ys[..i]) + multiset{x} + multiset(ys[i + 1..]);
    assert multiset([x] + xs) == multiset{x} + multiset(xs);
    assert multiset(ys[..i] + ys[i + 1..]) == multiset(ys) - multiset{x};
    assert multiset(xs) == multiset([x] + xs) - multiset{x};
  }

  lemma {:induction false} FlatMapSame<A, B>(xs: seq<A>, ys: seq<A>, f: A -> seq<B>, g: A -> seq<B>)
    requires Same(xs, ys)
    requires forall x :: x in xs ==> Same(f(x), g(x))
    ensures Same(FlatMap(xs, f), FlatMap(ys, g))
  {
    if xs == [] {
      SameLength(xs, ys);
    } else {
      assert xs == [xs[0]] + xs[1..];
      var i := SameFind(xs[0], xs[1..], ys);
      FlatMapSame(xs[1..], ys[..i] + ys[i + 1..], f, g);
      FlatMapAppend(ys[..i], ys[i + 1..], g);
      FlatMapAppend(ys[..i] + [xs[0]], ys[i + 1..], g);
      FlatMapSnoc(ys[..i], xs[0], g);
    }
  }

  lemma {:induction false} SelectMember<A>(xs: seq<A>, p: A -> bool, x: A)
    ensures x in Select(xs, p) <==> x in xs && p(x)
  {
    if xs != [] {
      SelectMember(xs[1..], p, x);
      assert xs == [xs[0]] + xs[1..];
    }
  }

  lemma {:induction false} SelectAppend<A>(xs: seq<A>, ys: seq<A>, p: A -> bool)
    ensures Select(xs + ys, p) == Select(xs, p) + Select(ys, p)
  {
    if xs == [] {
      assert xs + ys == ys;
    } else {
      SelectAppend(xs[1..], ys, p);
      assert (xs + ys)[1..] == xs[1..] + ys;
      var head := if p(xs[0]) then [xs[0]] else [];
      assert Select(xs + ys, p) == head + Select((xs + ys)[1..], p);
      assert Select(xs, p) == head + Select(xs[1..], p);
    }
  }

  function Keep<A>(p: A -> bool): A -> seq<A> {
    x => if p(x) then [x] else []
  }

  function Everything<A>(): A -> bool {
    x => true
  }

  lemma {:induction false} SelectIsFlatMap<A>(xs: seq<A>, p: A -> bool)
    ensures Select(xs, p) == FlatMap(xs, Keep(p))
  {
    if xs != [] {
      SelectIsFlatMap(xs[1..], p);
    }
  }

  lemma SelectSame<A>(xs: seq<A>, ys: seq<A>, p: A -> bool)
    requires Same(xs, ys)
    ensures Same(Select(xs, p), Select(ys, p))
  {
    SelectIsFlatMap(xs, p);
    SelectIsFlatMap(ys, p);
    FlatMapSame(xs, ys, Keep(p), Keep(p));
  }

  lemma {:induction false} SelectEqual<A>(xs: seq<A>, p: A -> bool, q: A -> bool)
    requires forall x :: x in xs ==> p(x) == q(x)
    ensures Select(xs, p) == Select(xs, q)
  {
    if xs != [] {
      SelectEqual(xs[1..], p, q);
    }
  }

  lemma {:induction false} SelectEvery<A>(xs: seq<A>, p: A -> bool)
    requires forall x :: x in xs ==> p(x)
    ensures Select(xs, p) == xs
  {
    if xs != [] {
      SelectEvery(xs[1..], p);
    }
  }

  lemma {:induction false} SelectNone<A>(xs: seq<A>, p: A -> bool)
    requires forall x :: x in xs ==> !p(x)
    ensures Select(xs, p) == []
  {
    if xs != [] {
      SelectNone(xs[1..], p);
    }
  }

  // Filtering what a loop yields is filtering what each of its turns yields.
  lemma {:induction false} SelectFlatMap<A, B>(xs: seq<A>, f: A -> seq<B>, p: B -> bool, g: A -> seq<B>)
    requires forall x :: x in xs ==> g(x) == Select(f(x), p)
    ensures Select(FlatMap(xs, f), p) == FlatMap(xs, g)
  {
    if xs != [] {
      SelectFlatMap(xs[1..], f, p, g);
      SelectAppend(f(xs[0]), FlatMap(xs[1..], f), p);
    }
  }

  // --- Exchanging two nested loops -------------------------------------------------------------

  function Row<A, B, C>(r: (A, B) -> seq<C>, a: A): B -> seq<C> {
    b => r(a, b)
  }

  function Column<A, B, C>(r: (A, B) -> seq<C>, b: B): A -> seq<C> {
    a => r(a, b)
  }

  function Rows<A, B, C>(r: (A, B) -> seq<C>, ys: seq<B>): A -> seq<C> {
    a => FlatMap(ys, Row(r, a))
  }

  function Columns<A, B, C>(r: (A, B) -> seq<C>, xs: seq<A>): B -> seq<C> {
    b => FlatMap(xs, Column(r, b))
  }

  lemma {:induction false} ColumnsSplit<A, B, C>(x: A, xs: seq<A>, ys: seq<B>, r: (A, B) -> seq<C>)
    ensures Same(FlatMap(ys, Columns(r, [x] + xs)), FlatMap(ys, Row(r, x)) + FlatMap(ys, Columns(r, xs)))
  {
    if ys != [] {
      ColumnsSplit(x, xs, ys[1..], r);
      assert ([x] + xs)[1..] == xs;
      assert Columns(r, [x] + xs)(ys[0]) == Row(r, x)(ys[0]) + Columns(r, xs)(ys[0]);
    }
  }

  lemma {:induction false} Exchange<A, B, C>(xs: seq<A>, ys: seq<B>, r: (A, B) -> seq<C>)
    ensures Same(FlatMap(xs, Rows(r, ys)), FlatMap(ys, Columns(r, xs)))
  {
    if xs == [] {
      FlatMapNothing(ys, Columns(r, xs));
    } else {
      assert xs == [xs[0]] + xs[1..];
      Exchange(xs[1..], ys, r);
      ColumnsSplit(xs[0], xs[1..], ys, r);
      assert FlatMap(xs, Rows(r, ys)) == FlatMap(ys, Row(r, xs[0])) + FlatMap(xs[1..], Rows(r, ys));
    }
  }

  // --- Listing a finite set, and removing duplicates -------------------------------------------

  ghost function Listing<T(!new)>(s: set<T>): (r: seq<T>)
    ensures multiset(r) == multiset(s)
    ensures forall x :: x in r <==> x in s
  {
    if s == {} then []
    else
      var x :| x in s;
      var rest := Listing(s - {x});
      assert multiset(s) == multiset{x} + multiset(s - {x});
      [x] + rest
  }

  // Keeping the first occurrence of each element, in order.
  function Dedup<T(==)>(xs: seq<T>): (r: seq<T>)
  {
    if xs == [] then []
    else
      var before := Dedup(xs[..|xs| - 1]);
      if xs[|xs| - 1] in before then before else before + [xs[|xs| - 1]]
  }

  lemma {:induction false} DedupSet<T>(xs: seq<T>)
    ensures multiset(Dedup(xs)) == multiset(set x | x in xs)
    ensures forall x :: x in Dedup(xs) <==> x in xs
  {
    if xs != [] {
      var init, last := xs[..|xs| - 1], xs[|xs| - 1];
      DedupSet(init);
      assert xs == init + [last];
      assert forall x :: x in xs <==> x in init || x == last;
      if last in Dedup(init) {
        assert (set x | x in xs) == (set x | x in init);
      } else {
        assert (set x | x in xs) == (set x | x in init) + {last};
        assert multiset(set x | x in xs) == multiset(set x | x in init) + multiset{last};
      }
    } else {
      assert (set x | x in xs) == {};
    }
  }

  lemma DedupSame<T>(xs: seq<T>, ys: seq<T>)
    requires forall x :: x in xs <==> x in ys
    ensures Same(Dedup(xs), Dedup(ys))
  {
    DedupSet(xs);
    DedupSet(ys);
    assert (set x | x in xs) == (set x | x in ys);
  }

  lemma SameMembers<T>(xs: seq<T>, ys: seq<T>, x: T)
    requires Same(xs, ys)
    ensures x in xs <==> x in ys
  {
    assert x in xs <==> x in multiset(xs);
    assert x in ys <==> x in multiset(ys);
  }

  lemma SameLength<T>(xs: seq<T>, ys: seq<T>)
    requires Same(xs, ys)
    ensures |xs| == |ys|
  {
    assert |multiset(xs)| == |xs|;
    assert |multiset(ys)| == |ys|;
  }

  // --- Bags in which nothing is repeated --------------------------------------------------------

  predicate NoRepeats<T(!new, ==)>(xs: seq<T>) {
    forall i, j :: 0 <= i < j < |xs| ==> xs[i] != xs[j]
  }

  lemma SnocMembers<T>(init: seq<T>, last: T)
    ensures (set x | x in init + [last]) == (set x | x in init) + {last}
    ensures multiset(init + [last]) == multiset(init) + multiset{last}
    ensures multiset((set x | x in init) + {last})
         == multiset(set x | x in init) + if last in init then multiset{} else multiset{last}
  {
  }

  lemma NoRepeatsSnoc<T(!new)>(init: seq<T>, last: T)
    ensures NoRepeats(init + [last]) <==> NoRepeats(init) && last !in init
  {
    var xs := init + [last];
    if NoRepeats(xs) {
      forall i, j | 0 <= i < j < |init|
        ensures init[i] != init[j]
      {
        assert xs[i] == init[i] && xs[j] == init[j];
      }
      forall i | 0 <= i < |init|
        ensures init[i] != last
      {
        assert xs[i] == init[i] && xs[|init|] == last;
      }
    }
  }

  lemma DedupNoRepeats<T(!new)>(xs: seq<T>)
    ensures NoRepeats(Dedup(xs)) && forall x :: x in Dedup(xs) <==> x in xs
  {
    DedupSet(xs);
    NoRepeatsIsSet(Dedup(xs));
    assert (set x | x in Dedup(xs)) == (set x | x in xs);
  }

  lemma {:induction false} NoRepeatsIsSet<T(!new)>(xs: seq<T>)
    ensures NoRepeats(xs) <==> multiset(xs) == multiset(set x | x in xs)
  {
    if xs != [] {
      var init, last := xs[..|xs| - 1], xs[|xs| - 1];
      assert xs == init + [last];
      NoRepeatsIsSet(init);
      NoRepeatsSnoc(init, last);
      SnocMembers(init, last);
      SetBag(multiset(init), multiset(set x | x in init), last, last in init);
    }
  }

  lemma SetBag<T>(m: multiset<T>, s: multiset<T>, x: T, again: bool)
    requires x in m <==> again
    requires forall y :: y in s ==> s[y] == 1
    requires x in s <==> again
    ensures (m + multiset{x} == s + if again then multiset{} else multiset{x}) <==> m == s && !again
  {
    if !again && m + multiset{x} == s + multiset{x} {
      assert m == (m + multiset{x}) - multiset{x};
      assert s == (s + multiset{x}) - multiset{x};
    }
    if again {
      assert (m + multiset{x})[x] >= 2 && s[x] == 1;
    }
  }

  lemma NoRepeatsSame<T(!new)>(xs: seq<T>, ys: seq<T>)
    requires NoRepeats(xs) && NoRepeats(ys)
    requires forall x :: x in xs <==> x in ys
    ensures Same(xs, ys)
  {
    NoRepeatsIsSet(xs);
    NoRepeatsIsSet(ys);
    assert (set x | x in xs) == (set x | x in ys);
  }

  lemma NoRepeatsCons<T(!new)>(x: T, xs: seq<T>)
    requires x !in xs && NoRepeats(xs)
    ensures NoRepeats([x] + xs)
  {
  }

  lemma {:induction false} FlatMapNoRepeats<A, B(!new)>(xs: seq<A>, f: A -> seq<B>)
    requires forall i, j :: 0 <= i < j < |xs| ==> xs[i] != xs[j]
    requires forall x :: x in xs ==> |f(x)| <= 1
    requires forall x, y, b :: x in xs && y in xs && b in f(x) && b in f(y) ==> x == y
    ensures NoRepeats(FlatMap(xs, f))
  {
    if xs != [] {
      FlatMapNoRepeats(xs[1..], f);
      forall b | b in f(xs[0])
        ensures b !in FlatMap(xs[1..], f)
      {
        FlatMapMember(xs[1..], f, b);
        assert forall x :: x in xs[1..] ==> x in xs && x != xs[0];
      }
      var head, rest := f(xs[0]), FlatMap(xs[1..], f);
      assert FlatMap(xs, f) == head + rest;
      assert head == [] || head == [head[0]];
      if head == [] {
        assert head + rest == rest;
      } else {
        NoRepeatsCons(head[0], rest);
      }
    }
  }

  lemma ListingNoRepeats<T(!new)>(s: set<T>)
    ensures NoRepeats(Listing(s))
  {
    NoRepeatsIsSet(Listing(s));
    assert (set x | x in Listing(s)) == s;
  }
}
