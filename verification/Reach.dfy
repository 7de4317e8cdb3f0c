/** Index scans: which quads a key admits. The order they come back in is not promised. */
module Scans {
  import opened Options
  import opened Bags
  import opened Rdf

  datatype GraphKey = DefaultGraph | NamedGraph(g: Term) | AnyNamed

  datatype ScanKey = ScanKey(s: Option<Term>, p: Option<Term>, o: Option<Term>, graph: GraphKey)

  predicate Admits(slot: Option<Term>, t: Term) {
    slot.None? || slot.value == t
  }

  predicate GraphAdmits(k: GraphKey, graph: Option<Term>) {
    match k
    case DefaultGraph => graph.None?
    case NamedGraph(g) => graph == Some(g)
    case AnyNamed => graph.Some?
  }

  predicate Fits(k: ScanKey, q: Quad) {
    Admits(k.s, q.s) && Admits(k.p, q.p) && Admits(k.o, q.o) && GraphAdmits(k.graph, q.graph)
  }

  function Fitting(k: ScanKey): Quad -> bool {
    q => Fits(k, q)
  }

  method Scan(view: View, k: ScanKey) returns (quads: seq<Quad>)
    ensures Same(quads, Select(view.quads, Fitting(k)))
    ensures forall q :: q in quads <==> q in view.quads && Fits(k, q)
  {
    quads := [];
    for i := 0 to |view.quads|
      invariant quads == Select(view.quads[..i], Fitting(k))
    {
      SelectAppend(view.quads[..i], [view.quads[i]], Fitting(k));
      assert view.quads[..i + 1] == view.quads[..i] + [view.quads[i]];
      if Fits(k, view.quads[i]) {
        quads := quads + [view.quads[i]];
      }
    }
    assert view.quads[..|view.quads|] == view.quads;
    forall q
      ensures q in quads <==> q in view.quads && Fits(k, q)
    {
      SelectMember(view.quads, Fitting(k), q);
    }
  }
}

/** The frontier walk behind a closure property path (crates/holos-engine/src/reach.rs). */
module Reach {
  import opened Options
  import opened Bags
  import opened Rdf
  import opened Scans
  import opened Items

  datatype Direction = Forward | Backward

  // Two inversions cancel.
  function DirectionOf(fromSource: bool, inverse: bool): Direction {
    if fromSource == inverse then Backward else Forward
  }

  predicate IncludesSeed(h: Hops) {
    h.AnyNumber? || h.AtMostOne?
  }

  predicate Unbounded(h: Hops) {
    h.AnyNumber? || h.AtLeastOne?
  }

  predicate Allowed(h: Hops, edges: int) {
    match h
    case AnyNumber => true
    case AtLeastOne => edges >= 1
    case AtMostOne => edges <= 1
  }

  datatype Graphwalk = Graphwalk(view: View, graph: Option<Term>, link: Term, direction: Direction)
  {
    predicate Hop(x: Term, y: Term) {
      if direction.Forward? then view.Edge(graph, link, x, y) else view.Edge(graph, link, y, x)
    }

    predicate Walk(w: seq<Term>) {
      |w| >= 1 && forall k :: 0 <= k < |w| - 1 ==> Hop(w[k], w[k + 1])
    }

    // Whether an allowed number of edges joins a seed to y.
    ghost predicate Answers(hops: Hops, seeds: seq<Term>, y: Term) {
      exists w :: Walk(w) && w[0] in seeds && w[|w| - 1] == y && Allowed(hops, |w| - 1)
    }

    // Whether a walk of any length joins a seed to y.
    ghost predicate FromSeed(seeds: seq<Term>, y: Term) {
      exists w :: Walk(w) && w[0] in seeds && w[|w| - 1] == y
    }

    function Key(node: Term): ScanKey {
      var g := if graph.None? then DefaultGraph else NamedGraph(graph.value);
      if direction.Forward? then ScanKey(Some(node), Some(link), None, g)
      else ScanKey(None, Some(link), Some(node), g)
    }

    function FarEnd(q: Quad): Term {
      if direction.Forward? then q.o else q.s
    }

    lemma KeyIsHop(node: Term, q: Quad)
      requires q in view.quads
      ensures Fits(Key(node), q) ==> Hop(node, FarEnd(q))
    {
    }

    lemma HopHasQuad(node: Term, y: Term) returns (q: Quad)
      requires Hop(node, y)
      ensures q in view.quads && Fits(Key(node), q) && FarEnd(q) == y
    {
      q := if direction.Forward? then Quad(node, link, y, graph) else Quad(y, link, node, graph);
    }

    lemma WalkOn(w: seq<Term>, y: Term)
      requires Walk(w) && Hop(w[|w| - 1], y)
      ensures Walk(w + [y])
    {
    }
  }

  // --- What the walk keeps -------------------------------------------------------------------------

  // A node is in `expanded` only at the end of a walk from a seed.
  ghost predicate Grounded(g: Graphwalk, hops: Hops, seeds: seq<Term>, expanded: set<Term>) {
    if Unbounded(hops) then
      forall x {:trigger g.FromSeed(seeds, x)} :: x in expanded ==> g.FromSeed(seeds, x)
    else
      expanded == (set x | x in seeds)
  }

  // Every edge out of a node already expanded has been followed.
  ghost predicate Followed(g: Graphwalk, hops: Hops, done: set<Term>, expanded: set<Term>, emitted: seq<Term>) {
    forall x, y :: x in done && g.Hop(x, y) ==> y in emitted && (Unbounded(hops) ==> y in expanded)
  }

  lemma SeedWalk(g: Graphwalk, hops: Hops, seeds: seq<Term>, x: Term)
    requires x in seeds
    ensures g.Walk([x])
    ensures IncludesSeed(hops) ==> g.Answers(hops, seeds, x)
    ensures g.FromSeed(seeds, x)
  {
    var w := [x];
    assert g.Walk(w) && w[0] in seeds && w[|w| - 1] == x;
  }

  lemma HopAnswers(g: Graphwalk, hops: Hops, seeds: seq<Term>, expanded: set<Term>, x: Term, y: Term)
    requires Grounded(g, hops, seeds, expanded) && x in expanded && g.Hop(x, y)
    ensures g.Answers(hops, seeds, y)
    ensures Unbounded(hops) ==> g.FromSeed(seeds, y)
  {
    var w := [x];
    if Unbounded(hops) {
      assert g.FromSeed(seeds, x);
      w :| g.Walk(w) && w[0] in seeds && w[|w| - 1] == x;
    }
    g.WalkOn(w, y);
    var v := w + [y];
    assert g.Walk(v) && v[0] in seeds && v[|v| - 1] == y;
  }

  // With nothing left to expand, every node of every walk has been reached.
  lemma {:induction false} WalkReached(g: Graphwalk, hops: Hops, seeds: seq<Term>, expanded: set<Term>, emitted: seq<Term>, w: seq<Term>)
    requires Followed(g, hops, expanded, expanded, emitted)
    requires (set x | x in seeds) <= expanded
    requires g.Walk(w) && w[0] in seeds && Allowed(hops, |w| - 1)
    ensures |w| >= 2 ==> w[|w| - 1] in emitted
    ensures Unbounded(hops) || |w| == 1 ==> w[|w| - 1] in expanded
  {
    if |w| >= 2 {
      var v := w[..|w| - 1];
      if Unbounded(hops) && |v| >= 2 {
        WalkReached(g, hops, seeds, expanded, emitted, v);
      } else {
        assert w[|w| - 2] in seeds;
      }
      assert g.Hop(w[|w| - 2], w[|w| - 1]);
    }
  }

  lemma Complete(g: Graphwalk, hops: Hops, seeds: seq<Term>, expanded: set<Term>, emitted: seq<Term>)
    requires Followed(g, hops, expanded, expanded, emitted)
    requires (set x | x in seeds) <= expanded
    requires IncludesSeed(hops) ==> forall x :: x in seeds ==> x in emitted
    ensures forall y :: g.Answers(hops, seeds, y) ==> y in emitted
  {
    forall y | g.Answers(hops, seeds, y)
      ensures y in emitted
    {
      var w :| g.Walk(w) && w[0] in seeds && w[|w| - 1] == y && Allowed(hops, |w| - 1);
      WalkReached(g, hops, seeds, expanded, emitted, w);
    }
  }

  ghost function Universe(g: Graphwalk, seeds: seq<Term>): set<Term> {
    (set x | x in seeds) + (set q | q in g.view.quads :: g.FarEnd(q))
  }

  function AsSet(xs: seq<Term>): set<Term> {
    set x | x in xs
  }

  // What holds of `expanded` and `emitted` between any two hops.
  ghost predicate Sound(g: Graphwalk, hops: Hops, seeds: seq<Term>, stop: Term -> bool, expanded: set<Term>, emitted: seq<Term>) {
    && AsSet(seeds) <= expanded <= Universe(g, seeds)
    && Grounded(g, hops, seeds, expanded)
    && NoRepeats(emitted)
    && (forall y {:trigger g.Answers(hops, seeds, y)} :: y in emitted ==> g.Answers(hops, seeds, y))
    && (forall y :: y in emitted ==> !stop(y))
    && (IncludesSeed(hops) ==> forall x :: x in seeds ==> x in emitted)
  }

  // The walk was ended by its consumer, at the node it had just been offered.
  ghost predicate Stopped(g: Graphwalk, hops: Hops, seeds: seq<Term>, stop: Term -> bool, emitted: seq<Term>) {
    && NoRepeats(emitted)
    && (forall y {:trigger g.Answers(hops, seeds, y)} :: y in emitted ==> g.Answers(hops, seeds, y))
    && emitted != [] && stop(emitted[|emitted| - 1])
    && (forall i :: 0 <= i < |emitted| - 1 ==> !stop(emitted[i]))
  }

  lemma SoundOffer(g: Graphwalk, hops: Hops, seeds: seq<Term>, stop: Term -> bool, expanded: set<Term>, emitted: seq<Term>, x: Term, y: Term)
    requires Sound(g, hops, seeds, stop, expanded, emitted) && x in expanded && g.Hop(x, y) && y !in emitted
    ensures !stop(y) ==> Sound(g, hops, seeds, stop, expanded, emitted + [y])
    ensures stop(y) ==> Stopped(g, hops, seeds, stop, emitted + [y])
  {
    HopAnswers(g, hops, seeds, expanded, x, y);
    var e := emitted + [y];
    assert forall z :: z in e <==> z in emitted || z == y;
    assert forall i :: 0 <= i < |e| - 1 ==> e[i] in emitted;
  }

  lemma SoundExpand(g: Graphwalk, hops: Hops, seeds: seq<Term>, stop: Term -> bool, expanded: set<Term>, emitted: seq<Term>, x: Term, q: Quad)
    requires Sound(g, hops, seeds, stop, expanded, emitted) && x in expanded
    requires q in g.view.quads && g.Hop(x, g.FarEnd(q)) && Unbounded(hops)
    ensures Sound(g, hops, seeds, stop, expanded + {g.FarEnd(q)}, emitted)
  {
    HopAnswers(g, hops, seeds, expanded, x, g.FarEnd(q));
  }

  // Crosses every edge out of one node. `reachedNow` is what it reached and will itself be expanded.
  method Expand(g: Graphwalk, hops: Hops, ghost seeds: seq<Term>, stop: Term -> bool, node: Term,
                before: seq<Term>, known: set<Term>)
    returns (emitted: seq<Term>, expanded: set<Term>, reachedNow: seq<Term>, stopped: bool)
    requires Sound(g, hops, seeds, stop, known, before) && node in known
    ensures stopped ==> Stopped(g, hops, seeds, stop, emitted)
    ensures !stopped ==> Sound(g, hops, seeds, stop, expanded, emitted)
    ensures !stopped ==> before <= emitted && NoRepeats(reachedNow)
    ensures !stopped ==> AsSet(reachedNow) !! known && expanded == known + AsSet(reachedNow)
    ensures !stopped ==> forall y :: g.Hop(node, y) ==> y in emitted && (Unbounded(hops) ==> y in expanded)
  {
    emitted, expanded, reachedNow, stopped := before, known, [], false;
    var quads := Scan(g.view, g.Key(node));
    for j := 0 to |quads|
      invariant Sound(g, hops, seeds, stop, expanded, emitted)
      invariant before <= emitted && NoRepeats(reachedNow)
      invariant AsSet(reachedNow) !! known && expanded == known + AsSet(reachedNow)
      invariant forall k :: 0 <= k < j ==>
        g.FarEnd(quads[k]) in emitted && (Unbounded(hops) ==> g.FarEnd(quads[k]) in expanded)
    {
      var reached := g.FarEnd(quads[j]);
      assert quads[j] in quads;
      g.KeyIsHop(node, quads[j]);
      if reached !in emitted {
        SoundOffer(g, hops, seeds, stop, expanded, emitted, node, reached);
        emitted := emitted + [reached];
        if stop(reached) {
          stopped := true;
          return;
        }
      }
      if Unbounded(hops) && reached !in expanded {
        SoundExpand(g, hops, seeds, stop, expanded, emitted, node, quads[j]);
        AsSetAppend(reachedNow, [reached]);
        expanded := expanded + {reached};
        reachedNow := reachedNow + [reached];
      }
    }
    forall y | g.Hop(node, y)
      ensures y in emitted && (Unbounded(hops) ==> y in expanded)
    {
      var q := g.HopHasQuad(node, y);
      var k :| 0 <= k < |quads| && quads[k] == q;
    }
  }

  // Offers the seeds themselves where no edge is needed.
  method Seed(g: Graphwalk, hops: Hops, seeds: seq<Term>, stop: Term -> bool)
    returns (emitted: seq<Term>, expanded: set<Term>, frontier: seq<Term>, stopped: bool)
    ensures stopped ==> Stopped(g, hops, seeds, stop, emitted)
    ensures !stopped ==> Sound(g, hops, seeds, stop, expanded, emitted)
    ensures !stopped ==> NoRepeats(frontier) && AsSet(frontier) == expanded == AsSet(seeds)
  {
    emitted, expanded, frontier, stopped := [], {}, [], false;
    for i := 0 to |seeds|
      invariant expanded == AsSet(seeds[..i]) == AsSet(frontier) && NoRepeats(frontier)
      invariant NoRepeats(emitted)
      invariant forall y :: y in emitted ==> y in seeds && IncludesSeed(hops) && !stop(y)
      invariant IncludesSeed(hops) ==> forall x :: x in expanded ==> x in emitted
    {
      var seed := seeds[i];
      assert seeds[..i + 1] == seeds[..i] + [seed];
      if seed !in expanded {
        assert AsSet(frontier + [seed]) == AsSet(frontier) + {seed};
        expanded := expanded + {seed};
        frontier := frontier + [seed];
        if IncludesSeed(hops) && seed !in emitted {
          emitted := emitted + [seed];
          if stop(seed) {
            forall y | y in emitted ensures g.Answers(hops, seeds, y) {
              SeedWalk(g, hops, seeds, y);
            }
            stopped := true;
            return;
          }
        }
      }
    }
    assert seeds[..|seeds|] == seeds;
    forall x | x in seeds
      ensures g.FromSeed(seeds, x)
      ensures IncludesSeed(hops) ==> g.Answers(hops, seeds, x)
    {
      SeedWalk(g, hops, seeds, x);
    }
  }

  lemma AsSetAppend(xs: seq<Term>, ys: seq<Term>)
    ensures AsSet(xs + ys) == AsSet(xs) + AsSet(ys)
  {
  }

  /**
   Every node an allowed number of edges away from a seed, each offered once. `stop` is the consumer:
   it sees each node as it is offered and may end the walk there. No node's edges are read twice.
   */
  method Reachable(g: Graphwalk, hops: Hops, seeds: seq<Term>, stop: Term -> bool)
    returns (emitted: seq<Term>, complete: bool, ghost log: seq<Term>)
    ensures NoRepeats(emitted)
    ensures forall y :: y in emitted ==> g.Answers(hops, seeds, y)
    ensures complete ==> forall y :: g.Answers(hops, seeds, y) ==> y in emitted
    ensures complete ==> forall y :: y in emitted ==> !stop(y)
    ensures !complete ==> Stopped(g, hops, seeds, stop, emitted)
    ensures NoRepeats(log)
  {
    var expanded, frontier, stopped;
    emitted, expanded, frontier, stopped := Seed(g, hops, seeds, stop);
    log := [];
    if stopped {
      complete := false;
      return;
    }
    while frontier != []
      invariant Sound(g, hops, seeds, stop, expanded, emitted)
      invariant NoRepeats(frontier) && NoRepeats(log)
      invariant AsSet(log) !! AsSet(frontier) && expanded == AsSet(log) + AsSet(frontier)
      invariant Followed(g, hops, AsSet(log), expanded, emitted)
      decreases Universe(g, seeds) - expanded, |frontier|
    {
      var next: seq<Term> := [];
      ghost var known := expanded;
      for i := 0 to |frontier|
        invariant Sound(g, hops, seeds, stop, expanded, emitted)
        invariant NoRepeats(next) && NoRepeats(log)
        invariant AsSet(log) !! AsSet(frontier[i..])
        invariant AsSet(log) + AsSet(frontier[i..]) == known
        invariant known !! AsSet(next) && expanded == known + AsSet(next)
        invariant Followed(g, hops, AsSet(log), expanded, emitted)
      {
        var node := frontier[i];
        var reachedNow;
        assert frontier[i..] == [node] + frontier[i + 1..];
        AsSetAppend([node], frontier[i + 1..]);
        assert node in AsSet([node]) && node !in AsSet(frontier[i + 1..]);
        emitted, expanded, reachedNow, stopped := Expand(g, hops, seeds, stop, node, emitted, expanded);
        if stopped {
          complete := false;
          return;
        }
        AsSetAppend(next, reachedNow);
        AsSetAppend(log, [node]);
        Joined(next, reachedNow);
        next := next + reachedNow;
        log := log + [node];
      }
      if next == [] {
        assert expanded == known;
      } else {
        assert next[0] in AsSet(next) && next[0] in Universe(g, seeds) - known;
      }
      frontier := next;
    }
    Complete(g, hops, seeds, expanded, emitted);
    complete := true;
  }

  lemma Joined(xs: seq<Term>, ys: seq<Term>)
    requires NoRepeats(xs) && NoRepeats(ys) && AsSet(xs) !! AsSet(ys)
    ensures NoRepeats(xs + ys)
  {
    forall i, j | 0 <= i < j < |xs + ys|
      ensures (xs + ys)[i] != (xs + ys)[j]
    {
      if i < |xs| <= j {
        assert xs[i] in AsSet(xs) && ys[j - |xs|] in AsSet(ys);
      }
    }
  }
}
