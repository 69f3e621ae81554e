/** The shape of the graph `create_bayes_net` in tan.py builds: its pair
    loop visits the pairs of vertices in the order of
    `itertools.combinations` and joins each pair by `add_edge_by_id`. The
    state after each pair is described over plain values (the adjacency map
    and the vertices' neighbour maps), with the edge weight a function of
    the two vertex ids; at the end the graph is complete. */
module BayesNet {
  import opened Common
  import opened TanGraph

  /** The weight given to the edge between two ids. */
  type Weight = (string, string) -> real

  /** Pair (k, l), k < l, comes before pair (i, j) in the order of
      `itertools.combinations`. */
  predicate Done(k: nat, l: nat, i: nat, j: nat) {
    k < i || (k == i && l < j)
  }

  /** The adjacency list of vertex k once every pair before (i, j) is joined:
      the earlier vertices joined to it, then the later ones. */
  function AdjAt(vs: seq<Vertex>, k: nat, i: nat, j: nat): seq<Vertex>
    requires k < |vs| && i <= |vs| && i < j && (i < |vs| ==> j <= |vs|)
  {
    if k < i then vs[..k] + vs[k + 1..]
    else if k == i then vs[..i] + vs[i + 1..j]
    else vs[..i] + (if k < j then [vs[i]] else [])
  }

  /** The neighbour maps of the listed vertices, in list order. */
  ghost function Neighborhoods(vs: seq<Vertex>): (nb: seq<map<Vertex, real>>)
    reads set v | v in vs
    ensures |nb| == |vs| && forall k :: 0 <= k < |vs| ==> nb[k] == vs[k].neighbors
  {
    if vs == [] then [] else Neighborhoods(vs[..|vs| - 1]) + [vs[|vs| - 1].neighbors]
  }

  /** Vertex k has the adjacency list AdjAt. */
  predicate AdjOk(vs: seq<Vertex>, adj: map<Vertex, seq<Vertex>>, k: nat, i: nat, j: nat)
    requires k < |vs| && i <= |vs| && i < j && (i < |vs| ==> j <= |vs|)
  {
    vs[k] in adj && adj[vs[k]] == AdjAt(vs, k, i, j)
  }

  /** Vertex k is joined only to other listed vertices. */
  predicate NoStray(vs: seq<Vertex>, nb: seq<map<Vertex, real>>, k: nat)
    requires k < |vs| == |nb|
  {
    forall v :: v in nb[k] ==> v in vs && v != vs[k]
  }

  /** Vertices k < l are joined both ways with weight w(ids) exactly when
      the pair comes before (i, j). */
  predicate PairOk(vs: seq<Vertex>, nb: seq<map<Vertex, real>>, w: Weight, k: nat, l: nat, i: nat, j: nat)
    requires k < l < |vs| == |nb|
  {
    if Done(k, l, i, j) then
      && vs[l] in nb[k] && vs[k] in nb[l]
      && nb[k][vs[l]] == w(vs[k].id, vs[l].id)
      && nb[l][vs[k]] == w(vs[k].id, vs[l].id)
    else
      vs[l] !in nb[k] && vs[k] !in nb[l]
  }

  /** The graph once every pair before (i, j) is joined with weight w. */
  predicate Stage(vs: seq<Vertex>, adj: map<Vertex, seq<Vertex>>, nb: seq<map<Vertex, real>>, w: Weight,
                  i: nat, j: nat)
  {
    && |nb| == |vs| && Distinct(vs) && UniqueIds(vs)
    && i <= |vs| && i < j && (i < |vs| ==> j <= |vs|)
    && (forall k :: 0 <= k < |vs| ==> AdjOk(vs, adj, k, i, j) && NoStray(vs, nb, k))
    && (forall k, l :: 0 <= k < l < |vs| ==> PairOk(vs, nb, w, k, l, i, j))
  }

  /** The adjacency map after `add_edge_by_id(v_i.id, v_j.id, ...)`. */
  function Joined(vs: seq<Vertex>, adj: map<Vertex, seq<Vertex>>, i: nat, j: nat): map<Vertex, seq<Vertex>>
    requires i < |vs| && j < |vs| && vs[i] in adj && vs[j] in adj
  {
    var first := adj[vs[i] := adj[vs[i]] + [vs[j]]];
    first[vs[j] := first[vs[j]] + [vs[i]]]
  }

  /** The neighbour maps after `add_edge_by_id(v_i.id, v_j.id, cost)`. */
  function JoinedNeighborhoods(vs: seq<Vertex>, nb: seq<map<Vertex, real>>, i: nat, j: nat, cost: real)
    : seq<map<Vertex, real>>
    requires i < |nb| && j < |nb| && |vs| == |nb|
  {
    var first := nb[i := nb[i][vs[j] := cost]];
    first[j := first[j][vs[i] := cost]]
  }

  /** Joining pair (i, j) advances the stage to (i, j + 1). */
  lemma {:induction false} StageStep(vs: seq<Vertex>, adj: map<Vertex, seq<Vertex>>, nb: seq<map<Vertex, real>>,
                                     w: Weight, i: nat, j: nat, j': nat, cost: real)
    requires Stage(vs, adj, nb, w, i, j) && j < |vs| && j' == j + 1 && cost == w(vs[i].id, vs[j].id)
    ensures AdjOk(vs, adj, i, i, j) && AdjOk(vs, adj, j, i, j)
    ensures Stage(vs, Joined(vs, adj, i, j), JoinedNeighborhoods(vs, nb, i, j, cost), w, i, j')
  {
    assert AdjOk(vs, adj, i, i, j) && AdjOk(vs, adj, j, i, j);
    var adj', nb' := Joined(vs, adj, i, j), JoinedNeighborhoods(vs, nb, i, j, cost);
    assert vs[i] != vs[j];
    forall k | 0 <= k < |vs|
      ensures AdjOk(vs, adj', k, i, j')
    {
      assert AdjOk(vs, adj, k, i, j);
      if k == i {
        assert vs[i + 1..j + 1] == vs[i + 1..j] + [vs[j]];
      } else if k != j {
        assert vs[k] != vs[i] && vs[k] != vs[j];
      }
    }
    forall k | 0 <= k < |vs|
      ensures NoStray(vs, nb', k)
    {
      assert NoStray(vs, nb, k);
    }
    forall k, l | 0 <= k < l < |vs|
      ensures PairOk(vs, nb', w, k, l, i, j')
    {
      assert PairOk(vs, nb, w, k, l, i, j);
      assert vs[k] != vs[l];
      if k == i || l == i || k == j || l == j {
        assert vs[k] != vs[i] || k == i;
        assert vs[k] != vs[j] || k == j;
        assert vs[l] != vs[i] || l == i;
        assert vs[l] != vs[j] || l == j;
      }
    }
  }

  /** Finishing row i of the pair loop is starting row i + 1. */
  lemma {:induction false} StageAdvance(vs: seq<Vertex>, adj: map<Vertex, seq<Vertex>>, nb: seq<map<Vertex, real>>,
                                        w: Weight, i: nat)
    requires Stage(vs, adj, nb, w, i, |vs|) && i < |vs|
    ensures Stage(vs, adj, nb, w, i + 1, i + 2)
  {
    var i', j' := i + 1, i + 2;
    forall k | 0 <= k < |vs|
      ensures AdjOk(vs, adj, k, i', j')
    {
      assert AdjOk(vs, adj, k, i, |vs|);
      if k > i {
        assert vs[..i] + [vs[i]] == vs[..i + 1];
        if k == i + 1 {
          assert vs[k + 1..k + 1] == [];
        }
      }
    }
    forall k, l | 0 <= k < l < |vs|
      ensures PairOk(vs, nb, w, k, l, i', j')
    {
      assert PairOk(vs, nb, w, k, l, i, |vs|);
    }
  }

  /** The graph once every pair before (i, j) is joined. */
  ghost predicate Linked(g: Graph, w: Weight, i: nat, j: nat)
    reads g, set v | v in g.vlist
  {
    g.Valid() && Stage(g.vlist, g.adjacencyList, Neighborhoods(g.vlist), w, i, j)
  }

  /** The complete graph over the listed vertices: every vertex is adjacent
      to all the others in list order and to nothing else, and the edge
      between k < l weighs w(id k, id l) both ways. */
  ghost predicate Complete(g: Graph, w: Weight)
    reads g, set v | v in g.vlist
  {
    var vs, n := g.vlist, |g.vlist|;
    && g.Valid()
    && (forall k :: 0 <= k < n ==> vs[k] in g.adjacencyList && g.adjacencyList[vs[k]] == vs[..k] + vs[k + 1..])
    && (forall k :: 0 <= k < n ==> vs[k].neighbors.Keys == (set v | v in vs) - {vs[k]})
    && (forall k, l :: 0 <= k < l < n ==>
          && vs[l] in vs[k].neighbors && vs[k] in vs[l].neighbors
          && vs[k].neighbors[vs[l]] == w(vs[k].id, vs[l].id)
          && vs[l].neighbors[vs[k]] == w(vs[k].id, vs[l].id))
  }

  /** Vertices with unique ids, no neighbours and empty adjacency lists
      are the start of the pair loop. */
  lemma EmptyStage(g: Graph, w: Weight)
    requires g.Valid() && UniqueIds(g.vlist)
    requires forall v :: v in g.vlist ==> v.neighbors == map[] && g.adjacencyList[v] == []
    ensures Linked(g, w, 0, 1)
  {
    var vs := g.vlist;
    var nb := Neighborhoods(vs);
    forall k | 0 <= k < |vs|
      ensures AdjOk(vs, g.adjacencyList, k, 0, 1) && NoStray(vs, nb, k)
    {
      if k == 0 {
        assert vs[1..1] == [];
      }
    }
  }

  /** One iteration of the pair loop: `add_edge_by_id(v_i.id, v_j.id, cost)`
      joins pair (i, j) and nothing else; `next` is the pair index after j. */
  method LinkPair(g: Graph, w: Weight, i: nat, j: nat, cost: real) returns (next: nat)
    requires Linked(g, w, i, j) && j < |g.vlist| && cost == w(g.vlist[i].id, g.vlist[j].id)
    modifies g, set v | v in g.vlist
    ensures next == j + 1 && g.vlist == old(g.vlist) && Linked(g, w, i, next)
  {
    var vs := g.vlist;
    next := j + 1;
    ghost var adj, nb := g.adjacencyList, Neighborhoods(vs);
    StageStep(vs, adj, nb, w, i, j, next, cost);
    FindOwnId(vs, i);
    FindOwnId(vs, j);
    var outcome := g.AddEdgeById(vs[i].id, vs[j].id, cost);
    assert outcome.Pass?;
    assert g.adjacencyList == Joined(vs, adj, i, j);
    assert Neighborhoods(vs) == JoinedNeighborhoods(vs, nb, i, j, cost);
  }

  /** Once every pair is visited the graph is complete. */
  lemma {:induction false} LinkedComplete(g: Graph, w: Weight)
    requires Linked(g, w, |g.vlist|, |g.vlist| + 1)
    ensures Complete(g, w)
  {
    var vs, n := g.vlist, |g.vlist|;
    var nb, m := Neighborhoods(vs), n + 1;
    forall k | 0 <= k < n
      ensures vs[k].neighbors.Keys == (set v | v in vs) - {vs[k]}
    {
      assert NoStray(vs, nb, k);
      forall v | v in (set v | v in vs) - {vs[k]}
        ensures v in vs[k].neighbors
      {
        var l :| 0 <= l < n && vs[l] == v;
        if k < l {
          assert PairOk(vs, nb, w, k, l, n, m);
        } else {
          assert PairOk(vs, nb, w, l, k, n, m);
        }
      }
    }
    forall k, l | 0 <= k < l < n
      ensures vs[l] in vs[k].neighbors && vs[k] in vs[l].neighbors
      ensures vs[k].neighbors[vs[l]] == w(vs[k].id, vs[l].id)
      ensures vs[l].neighbors[vs[k]] == w(vs[k].id, vs[l].id)
    {
      assert PairOk(vs, nb, w, k, l, n, m);
    }
    forall k | 0 <= k < n
      ensures vs[k] in g.adjacencyList && g.adjacencyList[vs[k]] == vs[..k] + vs[k + 1..]
    {
      assert AdjOk(vs, g.adjacencyList, k, n, m);
    }
  }

  /** In the complete graph on n vertices every vertex has n - 1 neighbours. */
  lemma CompleteDegree(g: Graph, w: Weight, k: nat)
    requires Complete(g, w) && k < |g.vlist|
    ensures |g.vlist[k].neighbors| == |g.vlist| - 1
  {
    var vs := g.vlist;
    DistinctCard(vs);
    assert vs[k].neighbors.Keys == (set v | v in vs) - {vs[k]};
    assert |vs[k].neighbors.Keys| == |set v | v in vs| - 1;
  }

  /** In the complete graph `get_edge__weight` gives w(id k, id l) from
      either end of the edge between k < l, and raises KeyError for a vertex
      asked about itself: there are no self-loops. */
  lemma CompleteEdgeWeight(g: Graph, w: Weight, k: nat, l: nat)
    requires Complete(g, w) && k < l < |g.vlist|
    ensures g.vlist[k].EdgeWeight(g.vlist[l]) == Ok(w(g.vlist[k].id, g.vlist[l].id))
    ensures g.vlist[l].EdgeWeight(g.vlist[k]) == Ok(w(g.vlist[k].id, g.vlist[l].id))
    ensures g.vlist[k].EdgeWeight(g.vlist[k]) == Err(KeyError(g.vlist[k].id))
  {
    var vs := g.vlist;
    assert vs[k] !in (set v | v in vs) - {vs[k]};
  }

  /** A duplicate-free sequence has as many elements as its set. */
  lemma {:induction false} DistinctCard<T>(s: seq<T>)
    requires Distinct(s)
    ensures |set x | x in s| == |s|
  {
    if s != [] {
      var init := s[..|s| - 1];
      assert Distinct(init);
      DistinctCard(init);
      assert s == init + [s[|s| - 1]];
      assert (set x | x in s) == (set x | x in init) + {s[|s| - 1]};
    }
  }
}
