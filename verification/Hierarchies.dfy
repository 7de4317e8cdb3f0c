/**
 The two RDFS hierarchies and their closure in place (crates/holos-engine/src/entailment.rs,
 `close_transitively`). Entries are replaced one key at a time while later keys still walk the map, so
 the walk crosses closed and unclosed entries alike; cycles included, it ends where the original map leads.
 */
module Hierarchies {
  import opened Rdf

  type Links = map<Term, set<Term>>

  function Next(m: Links, x: Term): set<Term> {
    if x in m then m[x] else {}
  }

  ghost predicate Walk(m: Links, w: seq<Term>) {
    |w| >= 2 && forall i :: 0 <= i < |w| - 1 ==> w[i + 1] in Next(m, w[i])
  }

  // `y` is one step or more above `x`.
  ghost predicate Above(m: Links, x: Term, y: Term) {
    exists w :: Walk(m, w) && w[0] == x && w[|w| - 1] == y
  }

  lemma AboveStep(m: Links, x: Term, y: Term)
    requires y in Next(m, x)
    ensures Above(m, x, y)
  {
    var w := [x, y];
    assert Walk(m, w);
  }

  lemma AboveTwice(m: Links, x: Term, y: Term, z: Term)
    requires Above(m, x, y) && Above(m, y, z)
    ensures Above(m, x, z)
  {
    var v :| Walk(m, v) && v[0] == x && v[|v| - 1] == y;
    var w :| Walk(m, w) && w[0] == y && w[|w| - 1] == z;
    var u := v + w[1..];
    forall i | 0 <= i < |u| - 1
      ensures u[i + 1] in Next(m, u[i])
    {
      if i >= |v| - 1 {
        assert u[i + 1] == w[i + 1 - (|v| - 1)];
        assert u[i] == w[i - (|v| - 1)];
      }
    }
    assert Walk(m, u);
  }

  // What holds one step up and climbs with every link holds all the way up.
  lemma {:induction false} Climb(m: Links, x: Term, y: Term, within: set<Term>)
    requires Above(m, x, y) && Next(m, x) <= within
    requires forall u :: u in within ==> Next(m, u) <= within
    ensures y in within
  {
    var w :| Walk(m, w) && w[0] == x && w[|w| - 1] == y;
    var i := 1;
    while i < |w| - 1
      invariant 1 <= i < |w| && w[i] in within
    {
      assert w[i + 1] in Next(m, w[i]);
      i := i + 1;
    }
  }

  ghost predicate IsClosure(m: Links, closed: Links) {
    closed.Keys == m.Keys && forall k :: k in m ==> EntryClosed(m, closed, k)
  }

  // Everything above the key, the key itself left out even when a cycle leads back to it.
  ghost predicate EntryClosed(m: Links, closed: Links, k: Term)
    requires k in closed
  {
    forall y :: y in closed[k] <==> Above(m, k, y) && y != k
  }

  // Part of the way through: entries closed for the keys done, as they were for the rest.
  ghost predicate Partly(m: Links, now: Links, left: set<Term>) {
    && now.Keys == m.Keys
    && forall k :: k in m ==> if k in left then now[k] == m[k] else EntryClosed(m, now, k)
  }

  lemma PartlySound(m: Links, now: Links, left: set<Term>, x: Term, y: Term)
    requires Partly(m, now, left) && Above(now, x, y)
    ensures Above(m, x, y)
  {
    var w :| Walk(now, w) && w[0] == x && w[|w| - 1] == y;
    var i := 1;
    LinkSound(m, now, left, w[0], w[1]);
    while i < |w| - 1
      invariant 1 <= i < |w| && Above(m, x, w[i])
    {
      LinkSound(m, now, left, w[i], w[i + 1]);
      AboveTwice(m, x, w[i], w[i + 1]);
      i := i + 1;
    }
  }

  lemma LinkSound(m: Links, now: Links, left: set<Term>, x: Term, y: Term)
    requires Partly(m, now, left) && y in Next(now, x)
    ensures Above(m, x, y)
  {
    if x in left {
      AboveStep(m, x, y);
    }
  }

  // The one link a closed entry may have lost is a loop, and a walk that stays where it is gets no further.
  lemma PartlyComplete(m: Links, now: Links, left: set<Term>, x: Term, y: Term)
    requires Partly(m, now, left) && x in left && Above(m, x, y) && y != x
    ensures Above(now, x, y)
  {
    var w :| Walk(m, w) && w[0] == x && w[|w| - 1] == y;
    var i := 0;
    while i < |w| - 1
      invariant 0 <= i < |w| && (w[i] == x || Above(now, x, w[i]))
    {
      assert w[i + 1] in Next(m, w[i]);
      if w[i + 1] != w[i] || w[i] in left {
        LinkKept(m, now, left, w[i], w[i + 1]);
        if w[i] != x {
          AboveTwice(now, x, w[i], w[i + 1]);
        }
      }
      i := i + 1;
    }
  }

  lemma LinkKept(m: Links, now: Links, left: set<Term>, x: Term, y: Term)
    requires Partly(m, now, left) && y in Next(m, x) && (y != x || x in left)
    ensures Above(now, x, y)
  {
    AboveStep(m, x, y);
    AboveStep(now, x, y);
  }

  function Targets(m: Links): set<Term> {
    set k, y | k in m && y in m[k] :: y
  }

  // How far a walk up from `key` has come: what waits on the stack, and what has been reached.
  ghost predicate Walking(m: Links, key: Term, stack: seq<Term>, reached: set<Term>) {
    && (forall y :: y in stack || y in reached ==> Above(m, key, y) && y in Targets(m))
    && (forall y :: y in Next(m, key) ==> y in stack || y in reached)
    && (forall x, y :: x in reached && y in Next(m, x) ==> y in stack || y in reached)
  }

  lemma WalkOn(m: Links, key: Term, rest: seq<Term>, next: Term, further: seq<Term>, reached: set<Term>)
    requires Walking(m, key, rest + [next], reached)
    requires forall y :: y in further <==> y in Next(m, next)
    ensures Walking(m, key, rest + further, reached + {next})
    ensures next in Targets(m)
  {
    assert next in rest + [next];
    forall y | y in Next(m, next)
      ensures Above(m, key, y)
    {
      AboveStep(m, next, y);
      AboveTwice(m, key, next, y);
    }
  }

  lemma WalkSkip(m: Links, key: Term, rest: seq<Term>, next: Term, reached: set<Term>)
    requires Walking(m, key, rest + [next], reached) && next in reached
    ensures Walking(m, key, rest, reached)
  {
    assert forall y :: y in rest + [next] <==> y in rest || y == next;
  }

  lemma WalkStart(m: Links, key: Term, stack: seq<Term>)
    requires forall y :: y in stack <==> y in Next(m, key)
    ensures Walking(m, key, stack, {})
  {
    forall y | y in stack
      ensures Above(m, key, y)
    {
      AboveStep(m, key, y);
    }
  }

  lemma Shrinks<T>(all: set<T>, reached: set<T>, next: T)
    requires next in all && next !in reached
    ensures |all - (reached + {next})| < |all - reached|
  {
    assert (all - (reached + {next})) + {next} == all - reached;
  }

  lemma WalkDone(m: Links, key: Term, reached: set<Term>)
    requires Walking(m, key, [], reached)
    ensures forall y :: y in reached <==> Above(m, key, y)
  {
    forall y | Above(m, key, y)
      ensures y in reached
    {
      Climb(m, key, y, reached);
    }
  }

  class Hierarchy {
    var links: Links

    constructor ()
      ensures links == map[]
    {
      links := map[];
    }

    // `entry(x).or_default().insert(y)`.
    method Add(x: Term, y: Term)
      modifies this
      ensures links == old(links)[x := Next(old(links), x) + {y}]
    {
      links := links[x := Next(links, x) + {y}];
    }

    // One depth-first walk, with a stack and the set it has reached.
    method Reached(key: Term) returns (reached: set<Term>)
      ensures forall y :: y in reached <==> Above(links, key, y)
    {
      var stack := Listed(Next(links, key));
      reached := {};
      WalkStart(links, key, stack);
      ghost var all := Targets(links);
      while stack != []
        invariant Walking(links, key, stack, reached)
        decreases |all - reached|, |stack|
      {
        var next, rest := stack[|stack| - 1], stack[..|stack| - 1];
        assert stack == rest + [next];
        if next in reached {
          WalkSkip(links, key, rest, next, reached);
          stack := rest;
        } else {
          var further := Listed(Next(links, next));
          WalkOn(links, key, rest, next, further, reached);
          Shrinks(all, reached, next);
          stack, reached := rest + further, reached + {next};
        }
      }
      WalkDone(links, key, reached);
    }

    // Every key, in whatever order the map yields them.
    method CloseTransitively()
      modifies this
      ensures IsClosure(old(links), links)
    {
      ghost var m := links;
      var keys := links.Keys;
      while keys != {}
        invariant keys <= m.Keys && Partly(m, links, keys)
        decreases |keys|
      {
        var key :| key in keys;
        var reached := Reached(key);
        forall y
          ensures y in reached - {key} <==> Above(m, key, y) && y != key
        {
          if y in reached {
            PartlySound(m, links, keys, key, y);
          }
          if Above(m, key, y) && y != key {
            PartlyComplete(m, links, keys, key, y);
          }
        }
        links := links[key := reached - {key}];
        keys := keys - {key};
      }
    }
  }

  // A set as a list, in some order.
  method Listed<T(==)>(s: set<T>) returns (xs: seq<T>)
    ensures forall x :: x in xs <==> x in s
  {
    xs := [];
    var left := s;
    while left != {}
      invariant left <= s && forall x :: x in xs <==> x in s - left
      decreases left
    {
      var x :| x in left;
      xs := xs + [x];
      left := left - {x};
    }
  }

  // The closed map, as a function of the original.
  ghost function Closure(m: Links): Links {
    map k | k in m :: set y | y in Targets(m) && Above(m, k, y) && y != k
  }

  lemma AboveTarget(m: Links, x: Term, y: Term)
    requires Above(m, x, y)
    ensures y in Targets(m)
  {
    Climb(m, x, y, Targets(m));
  }

  lemma ClosureIs(m: Links, closed: Links)
    requires IsClosure(m, closed)
    ensures closed == Closure(m)
  {
    forall k | k in m
      ensures closed[k] == Closure(m)[k]
    {
      assert EntryClosed(m, closed, k);
      forall y | y in closed[k]
        ensures y in Closure(m)[k]
      {
        AboveTarget(m, k, y);
      }
    }
  }
}
