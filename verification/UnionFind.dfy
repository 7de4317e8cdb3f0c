/**
 Which patterns of a query hang together (crates/holos-engine/src/admit.rs, `root` and the grouping in
 `estimate_bgp`): a union-find over shared variables, halving paths in place as it looks roots up.
 */
module UnionFind {

  // --- The forest ------------------------------------------------------------------------------------------

  // Parents point within the array and, except from a root to itself, down the ranks: no cycles.
  ghost predicate Forest(parent: seq<nat>, rank: seq<nat>) {
    && |rank| == |parent|
    && forall i :: 0 <= i < |parent| ==> parent[i] < |parent| && (parent[i] != i ==> rank[parent[i]] < rank[i])
  }

  ghost function RootOf(parent: seq<nat>, rank: seq<nat>, i: nat): (r: nat)
    requires Forest(parent, rank) && i < |parent|
    ensures r < |parent| && parent[r] == r
    decreases rank[i]
  {
    if parent[i] == i then i else RootOf(parent, rank, parent[i])
  }

  // Pointing a node at its grandparent leaves every root where it was.
  lemma {:induction false} HalvingKeeps(parent: seq<nat>, rank: seq<nat>, i: nat, j: nat)
    requires Forest(parent, rank) && i < |parent| && j < |parent|
    ensures var halved := parent[i := parent[parent[i]]];
            Forest(halved, rank) && RootOf(halved, rank, j) == RootOf(parent, rank, j)
    decreases rank[j]
  {
    var halved := parent[i := parent[parent[i]]];
    if parent[j] != j {
      HalvingKeeps(parent, rank, i, parent[j]);
      if j == i && parent[parent[j]] != parent[j] {
        HalvingKeeps(parent, rank, i, parent[parent[j]]);
      }
    }
  }

  // The representative of a set, the path to it halved on the way. It is found on every forest, and
  // finding it changes no set.
  method Root(parent: array<nat>, ghost rank: seq<nat>, start: nat) returns (i: nat)
    requires Forest(parent[..], rank) && start < parent.Length
    modifies parent
    ensures Forest(parent[..], rank) && i == RootOf(old(parent[..]), rank, start)
    ensures forall j :: 0 <= j < parent.Length ==> RootOf(parent[..], rank, j) == RootOf(old(parent[..]), rank, j)
  {
    i := start;
    while parent[i] != i
      invariant i < parent.Length && Forest(parent[..], rank)
      invariant RootOf(parent[..], rank, i) == RootOf(old(parent[..]), rank, start)
      invariant forall j :: 0 <= j < parent.Length ==> RootOf(parent[..], rank, j) == RootOf(old(parent[..]), rank, j)
      decreases rank[i]
    {
      ghost var before := parent[..];
      forall j | 0 <= j < |before|
        ensures Forest(before[i := before[before[i]]], rank)
        ensures RootOf(before[i := before[before[i]]], rank, j) == RootOf(before, rank, j)
      {
        HalvingKeeps(before, rank, i, j);
      }
      parent[i] := parent[parent[i]];
      assert parent[..] == before[i := before[before[i]]];
      i := parent[i];
    }
  }

  // --- Joining two sets ------------------------------------------------------------------------------------

  ghost function Raised(parent: seq<nat>, rank: seq<nat>, a: nat, b: nat): (r: seq<nat>)
    requires Forest(parent, rank) && a < |parent| && b < |parent|
    ensures |r| == |rank|
  {
    seq(|rank|, j requires 0 <= j < |rank| => if RootOf(parent, rank, j) == b then rank[j] + rank[a] + 1 else rank[j])
  }

  lemma JoinedForest(parent: seq<nat>, rank: seq<nat>, a: nat, b: nat)
    requires Forest(parent, rank) && a < |parent| && b < |parent| && parent[a] == a && parent[b] == b && a != b
    ensures Forest(parent[b := a], Raised(parent, rank, a, b))
  {
    var joined, raised := parent[b := a], Raised(parent, rank, a, b);
    forall i | 0 <= i < |joined|
      ensures joined[i] < |joined| && (joined[i] != i ==> raised[joined[i]] < raised[i])
    {
      assert RootOf(parent, rank, i) == if parent[i] == i then i else RootOf(parent, rank, parent[i]);
    }
  }

  // The two sets become one, under the first root, and the others stay as they were.
  lemma {:induction false} JoinedRoots(parent: seq<nat>, rank: seq<nat>, a: nat, b: nat, j: nat)
    requires Forest(parent, rank) && a < |parent| && b < |parent| && j < |parent|
    requires parent[a] == a && parent[b] == b && a != b
    ensures Forest(parent[b := a], Raised(parent, rank, a, b))
    ensures RootOf(parent[b := a], Raised(parent, rank, a, b), j)
         == if RootOf(parent, rank, j) == b then a else RootOf(parent, rank, j)
    decreases rank[j]
  {
    JoinedForest(parent, rank, a, b);
    if j != b && parent[j] != j {
      JoinedRoots(parent, rank, a, b, parent[j]);
    }
  }

  // --- Chains ------------------------------------------------------------------------------------------------

  type Pairs = set<(nat, nat)>

  ghost predicate Adjacent(pairs: Pairs, x: nat, y: nat) {
    (x, y) in pairs || (y, x) in pairs
  }

  ghost predicate Chain(pairs: Pairs, w: seq<nat>) {
    w != [] && forall i :: 0 <= i < |w| - 1 ==> Adjacent(pairs, w[i], w[i + 1])
  }

  // A chain of pairs leads from one to the other; from a node to itself, the empty one.
  ghost predicate Chained(pairs: Pairs, x: nat, y: nat) {
    exists w :: Chain(pairs, w) && w[0] == x && w[|w| - 1] == y
  }

  lemma ChainedSelf(pairs: Pairs, x: nat)
    ensures Chained(pairs, x, x)
  {
    assert Chain(pairs, [x]);
  }

  lemma ChainedBack(pairs: Pairs, x: nat, y: nat)
    requires Chained(pairs, x, y)
    ensures Chained(pairs, y, x)
  {
    var w :| Chain(pairs, w) && w[0] == x && w[|w| - 1] == y;
    var v := seq(|w|, i requires 0 <= i < |w| => w[|w| - 1 - i]);
    forall i | 0 <= i < |v| - 1
      ensures Adjacent(pairs, v[i], v[i + 1])
    {
      assert Adjacent(pairs, w[|w| - 2 - i], w[|w| - 2 - i + 1]);
    }
    assert Chain(pairs, v);
  }

  lemma ChainedOn(pairs: Pairs, x: nat, y: nat, z: nat)
    requires Chained(pairs, x, y) && Chained(pairs, y, z)
    ensures Chained(pairs, x, z)
  {
    var v :| Chain(pairs, v) && v[0] == x && v[|v| - 1] == y;
    var w :| Chain(pairs, w) && w[0] == y && w[|w| - 1] == z;
    var u := v + w[1..];
    forall i | 0 <= i < |u| - 1
      ensures Adjacent(pairs, u[i], u[i + 1])
    {
      if i >= |v| - 1 {
        assert u[i] == w[i - (|v| - 1)] && u[i + 1] == w[i - (|v| - 1) + 1];
      }
    }
    assert Chain(pairs, u);
  }

  lemma ChainedMore(pairs: Pairs, more: Pairs, x: nat, y: nat)
    requires Chained(pairs, x, y) && pairs <= more
    ensures Chained(more, x, y)
  {
    var w :| Chain(pairs, w) && w[0] == x && w[|w| - 1] == y;
    assert Chain(more, w);
  }

  // The sets of the forest are the chains of the pairs joined so far.
  ghost predicate Grouped(parent: seq<nat>, rank: seq<nat>, pairs: Pairs) {
    && Forest(parent, rank)
    && (forall p :: p in pairs ==> p.0 < |parent| && p.1 < |parent| && RootOf(parent, rank, p.0) == RootOf(parent, rank, p.1))
    && (forall x :: 0 <= x < |parent| ==> Chained(pairs, x, RootOf(parent, rank, x)))
  }

  lemma GroupedExactly(parent: seq<nat>, rank: seq<nat>, pairs: Pairs, x: nat, y: nat)
    requires Grouped(parent, rank, pairs) && x < |parent| && y < |parent|
    ensures RootOf(parent, rank, x) == RootOf(parent, rank, y) <==> Chained(pairs, x, y)
  {
    if RootOf(parent, rank, x) == RootOf(parent, rank, y) {
      ChainedBack(pairs, y, RootOf(parent, rank, y));
      ChainedOn(pairs, x, RootOf(parent, rank, x), y);
    }
    if Chained(pairs, x, y) {
      var w :| Chain(pairs, w) && w[0] == x && w[|w| - 1] == y;
      var i := 0;
      while i < |w| - 1
        invariant 0 <= i < |w| && w[i] < |parent| && RootOf(parent, rank, w[i]) == RootOf(parent, rank, x)
      {
        assert Adjacent(pairs, w[i], w[i + 1]);
        i := i + 1;
      }
    }
  }

  lemma GroupedJoin(parent: seq<nat>, rank: seq<nat>, pairs: Pairs, a: nat, b: nat) returns (rank': seq<nat>)
    requires Grouped(parent, rank, pairs) && a < |parent| && b < |parent|
    ensures var ra, rb := RootOf(parent, rank, a), RootOf(parent, rank, b);
            Grouped(parent[rb := ra], rank', pairs + {(a, b)})
  {
    var ra, rb, more := RootOf(parent, rank, a), RootOf(parent, rank, b), pairs + {(a, b)};
    forall x | 0 <= x < |parent|
      ensures Chained(more, x, RootOf(parent, rank, x))
    {
      ChainedMore(pairs, more, x, RootOf(parent, rank, x));
    }
    if ra == rb {
      rank' := rank;
      assert parent[rb := ra] == parent;
    } else {
      rank' := Raised(parent, rank, ra, rb);
      JoinedForest(parent, rank, ra, rb);
      var joined := parent[rb := ra];
      forall x | 0 <= x < |parent|
        ensures RootOf(joined, rank', x) == if RootOf(parent, rank, x) == rb then ra else RootOf(parent, rank, x)
      {
        JoinedRoots(parent, rank, ra, rb, x);
      }
      assert Chain(more, [b, a]);
      assert Chained(more, b, a);
      forall x | 0 <= x < |parent|
        ensures Chained(more, x, RootOf(joined, rank', x))
      {
        if RootOf(parent, rank, x) == rb {
          ChainedBack(more, b, rb);
          ChainedOn(more, x, rb, b);
          ChainedOn(more, x, b, a);
          ChainedOn(more, x, a, ra);
        }
      }
    }
  }

  // --- Patterns that share variables -------------------------------------------------------------------------

  predicate Shares(joins: seq<seq<string>>, a: nat, b: nat)
    requires a < |joins| && b < |joins|
  {
    exists v :: v in joins[a] && v in joins[b]
  }

  ghost predicate SharingChain(joins: seq<seq<string>>, w: seq<nat>) {
    && w != [] && (forall i :: 0 <= i < |w| ==> w[i] < |joins|)
    && forall i :: 0 <= i < |w| - 1 ==> Shares(joins, w[i], w[i + 1])
  }

  // A chain of shared variables connects two patterns.
  ghost predicate Connected(joins: seq<seq<string>>, x: nat, y: nat) {
    exists w :: SharingChain(joins, w) && w[0] == x && w[|w| - 1] == y
  }

  ghost predicate PairsUpTo(joins: seq<seq<string>>, pairs: Pairs, a: nat, b: nat) {
    forall x: nat, y: nat :: (x, y) in pairs <==> x < y < |joins| && (x < a || (x == a && y < b)) && Shares(joins, x, y)
  }

  lemma PairsConnect(joins: seq<seq<string>>, pairs: Pairs, x: nat, y: nat)
    requires forall x: nat, y: nat :: (x, y) in pairs <==> x < y < |joins| && Shares(joins, x, y)
    requires x < |joins| && y < |joins|
    ensures Chained(pairs, x, y) <==> Connected(joins, x, y)
  {
    if Chained(pairs, x, y) {
      var w :| Chain(pairs, w) && w[0] == x && w[|w| - 1] == y;
      forall i | 0 <= i < |w|
        ensures w[i] < |joins|
      {
        if i < |w| - 1 {
          assert Adjacent(pairs, w[i], w[i + 1]);
        }
      }
      forall i | 0 <= i < |w| - 1
        ensures Shares(joins, w[i], w[i + 1])
      {
        assert Adjacent(pairs, w[i], w[i + 1]);
      }
      assert SharingChain(joins, w);
    }
    if Connected(joins, x, y) {
      var w :| SharingChain(joins, w) && w[0] == x && w[|w| - 1] == y;
      ChainedSelf(pairs, x);
      var i := 0;
      while i < |w| - 1
        invariant 0 <= i < |w| && Chained(pairs, x, w[i])
      {
        if w[i] == w[i + 1] {
        } else {
          assert Shares(joins, w[i], w[i + 1]) && Shares(joins, w[i + 1], w[i]);
          assert Chain(pairs, [w[i], w[i + 1]]);
          ChainedOn(pairs, x, w[i], w[i + 1]);
        }
        i := i + 1;
      }
    }
  }

  // Every pair of patterns looked at once, those that share a variable joined. Afterwards two patterns have
  // the same root exactly when a chain of shared variables connects them.
  method Group(joins: seq<seq<string>>) returns (parent: array<nat>, ghost rank: seq<nat>)
    ensures parent.Length == |joins| && Forest(parent[..], rank)
    ensures forall x, y :: 0 <= x < |joins| && 0 <= y < |joins| ==>
      (RootOf(parent[..], rank, x) == RootOf(parent[..], rank, y) <==> Connected(joins, x, y))
  {
    parent := new nat[|joins|](i => i);
    rank := seq(|joins|, i => 0);
    ghost var pairs: Pairs := {};
    GroupedAlone(parent[..], rank);
    for a := 0 to |joins|
      invariant Grouped(parent[..], rank, pairs) && PairsUpTo(joins, pairs, a, a + 1)
    {
      for b := a + 1 to |joins|
        invariant Grouped(parent[..], rank, pairs) && PairsUpTo(joins, pairs, a, b)
      {
        if Shares(joins, a, b) {
          rank := Unite(parent, rank, pairs, a, b);
          pairs := pairs + {(a, b)};
        }
      }
    }
    forall x, y | 0 <= x < |joins| && 0 <= y < |joins|
      ensures RootOf(parent[..], rank, x) == RootOf(parent[..], rank, y) <==> Connected(joins, x, y)
    {
      GroupedExactly(parent[..], rank, pairs, x, y);
      PairsConnect(joins, pairs, x, y);
    }
  }

  lemma GroupedAlone(parent: seq<nat>, rank: seq<nat>)
    requires |rank| == |parent| && forall i :: 0 <= i < |parent| ==> parent[i] == i
    ensures Grouped(parent, rank, {})
  {
    forall x | 0 <= x < |parent|
      ensures Chained({}, x, RootOf(parent, rank, x))
    {
      ChainedSelf({}, x);
    }
  }

  method Unite(parent: array<nat>, ghost rank: seq<nat>, ghost pairs: Pairs, a: nat, b: nat) returns (ghost rank': seq<nat>)
    requires Grouped(parent[..], rank, pairs) && a < parent.Length && b < parent.Length
    modifies parent
    ensures Grouped(parent[..], rank', pairs + {(a, b)})
  {
    var ra := Root(parent, rank, a);
    var rb := Root(parent, rank, b);
    assert Grouped(parent[..], rank, pairs);
    rank' := GroupedJoin(parent[..], rank, pairs, a, b);
    ghost var before := parent[..];
    parent[rb] := ra;
    assert parent[..] == before[rb := ra];
  }
}
