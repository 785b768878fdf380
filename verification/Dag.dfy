/**
  Directed graphs as a node set and a set of (parent, child) edges, and the
  acyclicity check of the graph library: peel off the nodes nobody in the graph
  precedes, and repeat.  `IsDagIffNoCycle` ties the check to its meaning.
*/
module Dag {
  type Edge<N> = (N, N)

  function Sources<N(==)>(nodes: set<N>, edges: set<Edge<N>>): set<N> {
    set n | n in nodes && forall p :: p in nodes ==> (p, n) !in edges
  }

  predicate IsDag<N(==)>(nodes: set<N>, edges: set<Edge<N>>)
    decreases |nodes|
  {
    nodes == {} ||
    (var sources := Sources(nodes, edges);
     sources != {} &&
     (Shrinks(nodes, sources); IsDag(nodes - sources, edges)))
  }

  lemma Shrinks<N>(nodes: set<N>, part: set<N>)
    requires part != {} && part <= nodes
    ensures |nodes - part| < |nodes|
  {
    var x :| x in part;
    assert |nodes - part| + |part| == |nodes| by {
      assert nodes == (nodes - part) + part;
      assert (nodes - part) !! part;
    }
    assert |part| > 0;
  }

  /** A walk visits nodes of the graph, each one an edge away from the previous. */
  ghost predicate Walk<N(!new)>(nodes: set<N>, edges: set<Edge<N>>, w: seq<N>) {
    && |w| > 0
    && (forall i :: 0 <= i < |w| ==> w[i] in nodes)
    && (forall i {:trigger w[i]} :: 0 <= i < |w| - 1 ==> (w[i], w[i + 1]) in edges)
  }

  ghost predicate Cycle<N(!new)>(nodes: set<N>, edges: set<Edge<N>>, w: seq<N>) {
    Walk(nodes, edges, w) && |w| > 1 && w[0] == w[|w| - 1]
  }

  /** The round of peeling in which a node goes: smaller for a parent than for its child. */
  ghost function Layer<N(!new)>(nodes: set<N>, edges: set<Edge<N>>, n: N): nat
    requires IsDag(nodes, edges) && n in nodes
    decreases |nodes|
  {
    var sources := Sources(nodes, edges);
    Shrinks(nodes, sources);
    if n in sources then 0 else 1 + Layer(nodes - sources, edges, n)
  }

  lemma {:induction false} ParentsComeFirst<N(!new)>(nodes: set<N>, edges: set<Edge<N>>, p: N, c: N)
    requires IsDag(nodes, edges) && p in nodes && c in nodes && (p, c) in edges
    ensures Layer(nodes, edges, p) < Layer(nodes, edges, c)
    decreases |nodes|
  {
    var sources := Sources(nodes, edges);
    Shrinks(nodes, sources);
    assert c !in sources;
    if p !in sources {
      ParentsComeFirst(nodes - sources, edges, p, c);
    }
  }

  lemma {:induction false} LayerBound<N(!new)>(nodes: set<N>, edges: set<Edge<N>>, n: N)
    requires IsDag(nodes, edges) && n in nodes
    ensures Layer(nodes, edges, n) < |nodes|
    decreases |nodes|
  {
    var sources := Sources(nodes, edges);
    Shrinks(nodes, sources);
    if n !in sources {
      LayerBound(nodes - sources, edges, n);
    }
  }

  /** Any numbering that increases along the edges is enough for the check to pass. */
  ghost predicate Ranked<N(!new)>(nodes: set<N>, edges: set<Edge<N>>, rank: map<N, nat>) {
    && nodes <= rank.Keys
    && (forall p, c :: p in nodes && c in nodes && (p, c) in edges ==> rank[p] < rank[c])
  }

  lemma {:induction false} RankedIsDag<N(!new)>(nodes: set<N>, edges: set<Edge<N>>, rank: map<N, nat>)
    requires Ranked(nodes, edges, rank)
    ensures IsDag(nodes, edges)
    decreases |nodes|
  {
    if nodes != {} {
      var least := LowestRank(nodes, rank);
      var sources := Sources(nodes, edges);
      assert least in sources;
      Shrinks(nodes, sources);
      RankedIsDag(nodes - sources, edges, rank);
    }
  }

  lemma {:induction false} LowestRank<N(!new)>(nodes: set<N>, rank: map<N, nat>) returns (least: N)
    requires nodes != {} && nodes <= rank.Keys
    ensures least in nodes && forall n :: n in nodes ==> rank[least] <= rank[n]
    decreases |nodes|
  {
    var n :| n in nodes;
    if nodes == {n} {
      least := n;
    } else {
      Shrinks(nodes, {n});
      least := LowestRank(nodes - {n}, rank);
      if rank[n] < rank[least] {
        least := n;
      }
    }
  }

  /**
    Growing a graph by new nodes, with new edges only from old nodes into new
    ones, can never close a cycle.
  */
  lemma GrowKeepsDag<N(!new)>(nodes: set<N>, edges: set<Edge<N>>, added: set<N>, grown: set<Edge<N>>)
    requires IsDag(nodes, edges) && nodes !! added
    requires forall p, c :: (p, c) in edges ==> p in nodes && c in nodes
    requires forall p, c :: (p, c) in grown ==> p in nodes && c in added
    ensures IsDag(nodes + added, edges + grown)
  {
    var rank := map n | n in nodes + added ::
      if n in nodes then Layer(nodes, edges, n) else |nodes|;
    forall p, c | p in nodes + added && c in nodes + added && (p, c) in edges + grown
      ensures rank[p] < rank[c]
    {
      if (p, c) in edges {
        ParentsComeFirst(nodes, edges, p, c);
      } else {
        LayerBound(nodes, edges, p);
      }
    }
    RankedIsDag(nodes + added, edges + grown, rank);
  }

  lemma {:induction false} WalksClimb<N(!new)>(nodes: set<N>, edges: set<Edge<N>>, w: seq<N>, i: nat)
    requires IsDag(nodes, edges) && Walk(nodes, edges, w) && i < |w|
    ensures Layer(nodes, edges, w[0]) + i <= Layer(nodes, edges, w[i])
  {
    if i > 0 {
      WalksClimb(nodes, edges, w, i - 1);
      assert (w[i - 1], w[i - 1 + 1]) in edges;
      ParentsComeFirst(nodes, edges, w[i - 1], w[i]);
    }
  }

  /** The check refuses exactly the graphs that hold a cycle. */
  lemma IsDagIffNoCycle<N(!new)>(nodes: set<N>, edges: set<Edge<N>>)
    ensures IsDag(nodes, edges) <==> !exists w :: Cycle(nodes, edges, w)
  {
    if IsDag(nodes, edges) {
      forall w | Cycle(nodes, edges, w)
        ensures false
      {
        WalksClimb(nodes, edges, w, |w| - 1);
      }
    } else {
      var w := FindCycle(nodes, edges);
    }
  }

  lemma {:induction false} FindCycle<N(!new)>(nodes: set<N>, edges: set<Edge<N>>) returns (w: seq<N>)
    requires !IsDag(nodes, edges)
    ensures Cycle(nodes, edges, w)
    decreases |nodes|
  {
    var sources := Sources(nodes, edges);
    if sources == {} {
      var n :| n in nodes;
      w := WalkBack(nodes, edges, [n]);
    } else {
      Shrinks(nodes, sources);
      w := FindCycle(nodes - sources, edges);
    }
  }

  /** Where every node has a predecessor, walking backwards must meet a node again. */
  lemma {:induction false} WalkBack<N(!new)>(nodes: set<N>, edges: set<Edge<N>>, w: seq<N>) returns (cycle: seq<N>)
    requires Sources(nodes, edges) == {} && Walk(nodes, edges, w)
    requires forall i, j :: 0 <= i < j < |w| ==> w[i] != w[j]
    ensures Cycle(nodes, edges, cycle)
    decreases |nodes| - |w|
  {
    DistinctFit(nodes, w);
    assert w[0] !in Sources(nodes, edges);
    var p :| p in nodes && (p, w[0]) in edges;
    var longer := [p] + w;
    assert forall i {:trigger longer[i]} :: 0 < i < |longer| ==> longer[i] == w[i - 1];
    assert Walk(nodes, edges, longer) by {
      forall i {:trigger longer[i]} | 0 <= i < |longer| - 1
        ensures (longer[i], longer[i + 1]) in edges
      {
        if i > 0 {
          assert (w[i - 1], w[i - 1 + 1]) in edges;
        }
      }
    }
    if p in w {
      var k :| 0 <= k < |w| && w[k] == p;
      cycle := longer[..k + 2];
      assert cycle[|cycle| - 1] == w[k];
      forall i {:trigger cycle[i]} | 0 <= i < |cycle| - 1
        ensures (cycle[i], cycle[i + 1]) in edges
      {
        assert longer[i] == cycle[i] && longer[i + 1] == cycle[i + 1];
      }
    } else {
      DistinctFit(nodes, longer);
      cycle := WalkBack(nodes, edges, longer);
    }
  }

  lemma {:induction false} DistinctFit<N>(nodes: set<N>, w: seq<N>)
    requires forall i :: 0 <= i < |w| ==> w[i] in nodes
    requires forall i, j :: 0 <= i < j < |w| ==> w[i] != w[j]
    ensures |w| <= |nodes|
    decreases |w|
  {
    if w != [] {
      var last := w[|w| - 1];
      DistinctFit(nodes - {last}, w[..|w| - 1]);
    }
  }
}
