/** The weighted undirected graph of tan.py: `Vertex` objects keep a map
    from neighbouring vertex to edge weight, and a `Graph` keeps an
    adjacency list per vertex and the list of vertices in insertion order.
    Edges are added by vertex id, in both directions at once. */
module TanGraph {
  import opened Common

  class Vertex {
    /** The vertex id, an attribute name in the Bayes net. */
    const id: string
    /** `neighbors`: neighbouring vertex to edge weight. */
    var neighbors: map<Vertex, real>

    constructor (id: string)
      ensures this.id == id && neighbors == map[]
    {
      this.id := id;
      neighbors := map[];
    }

    /** `add_neighbor(v, weight)`: set (or overwrite) the weight towards v. */
    method AddNeighbor(v: Vertex, weight: real)
      modifies this
      ensures neighbors == old(neighbors)[v := weight]
      ensures EdgeWeight(v) == Ok(weight)
      ensures forall u: Vertex :: old(allocated(u)) && u != v ==> EdgeWeight(u) == old(EdgeWeight(u))
    {
      neighbors := neighbors[v := weight];
    }

    /** `get_edge__weight(v)`: the weight towards v; KeyError when v is not
        a neighbour. */
    function EdgeWeight(v: Vertex): (r: Result<real>)
      reads this
    {
      if v in neighbors then Ok(neighbors[v]) else Err(KeyError(v.id))
    }
  }

  /** The first vertex of `vs` with the given id, as the search of
      `get_vertex_by_id` finds it. */
  function FindById(vs: seq<Vertex>, id: string): (r: Option<Vertex>)
    ensures r.Some? ==> r.value in vs && r.value.id == id
    ensures r.None? <==> forall i :: 0 <= i < |vs| ==> vs[i].id != id
  {
    if vs == [] then None
    else if vs[0].id == id then Some(vs[0])
    else FindById(vs[1..], id)
  }

  /** The search stops at the first vertex carrying the id. */
  lemma {:induction false} FindFirst(vs: seq<Vertex>, id: string, i: nat)
    requires i < |vs| && vs[i].id == id
    requires forall k :: 0 <= k < i ==> vs[k].id != id
    ensures FindById(vs, id) == Some(vs[i])
  {
    if i > 0 {
      FindFirst(vs[1..], id, i - 1);
    }
  }

  /** No two vertices share an id. */
  predicate UniqueIds(vs: seq<Vertex>) {
    forall i, j :: 0 <= i < j < |vs| ==> vs[i].id != vs[j].id
  }

  /** With unique ids, every vertex is found by its own id. */
  lemma FindOwnId(vs: seq<Vertex>, i: nat)
    requires UniqueIds(vs) && i < |vs|
    ensures FindById(vs, vs[i].id) == Some(vs[i])
  {
    FindFirst(vs, vs[i].id, i);
  }

  class Graph {
    /** `adjacency_list`: vertex to the vertices joined to it, in order. */
    var adjacencyList: map<Vertex, seq<Vertex>>
    /** `vlist`: the vertices in the order they were added. */
    var vlist: seq<Vertex>

    /** The adjacency list has an entry for exactly the listed vertices,
        each listed once. */
    ghost predicate Valid()
      reads this
    {
      adjacencyList.Keys == (set v | v in vlist) && Distinct(vlist)
    }

    constructor ()
      ensures Valid() && adjacencyList == map[] && vlist == []
    {
      adjacencyList := map[];
      vlist := [];
    }

    /** `add_vertex(id)`: a fresh vertex with no neighbours and an empty
        adjacency list, appended to the vertex list. */
    method AddVertex(id: string)
      requires Valid()
      modifies this
      ensures Valid()
      ensures |vlist| == |old(vlist)| + 1 && vlist == old(vlist) + [vlist[|old(vlist)|]]
      ensures fresh(vlist[|old(vlist)|])
      ensures vlist[|old(vlist)|].id == id && vlist[|old(vlist)|].neighbors == map[]
      ensures adjacencyList == old(adjacencyList)[vlist[|old(vlist)|] := []]
      ensures forall u :: u in old(vlist) ==> u.neighbors == old(u.neighbors)
    {
      var v := new Vertex(id);
      adjacencyList := adjacencyList[v := []];
      vlist := vlist + [v];
    }

    /** `get_vertex_by_id(id)`: a search through the vertices. */
    method GetVertexById(id: string) returns (r: Option<Vertex>)
      ensures r == FindById(vlist, id)
    {
      for i := 0 to |vlist|
        invariant forall k :: 0 <= k < i ==> vlist[k].id != id
      {
        if vlist[i].id == id {
          FindFirst(vlist, id, i);
          return Some(vlist[i]);
        }
      }
      return None;
    }

    /** `add_edge_by_id(id1, id2, cost)`: raises VertexNotFound, changing
        nothing, when either id is missing; otherwise appends each endpoint
        to the other's adjacency list and sets the weight both ways. */
    method AddEdgeById(id1: string, id2: string, cost: real) returns (outcome: Outcome)
      requires Valid()
      modifies this, set v | v in vlist
      ensures vlist == old(vlist) && Valid()
      ensures outcome.Fail? <==> FindById(vlist, id1).None? || FindById(vlist, id2).None?
      ensures outcome.Fail? ==>
                outcome.error == VertexNotFound && adjacencyList == old(adjacencyList) &&
                forall v :: v in vlist ==> v.neighbors == old(v.neighbors)
      ensures outcome.Pass? ==>
                var v1, v2 := FindById(vlist, id1).value, FindById(vlist, id2).value;
                var first := old(adjacencyList)[v1 := old(adjacencyList)[v1] + [v2]];
                && adjacencyList == first[v2 := first[v2] + [v1]]
                && v1.neighbors == old(v1.neighbors)[v2 := cost]
                && v2.neighbors == old(v2.neighbors)[v1 := cost]
                && (forall v :: v in vlist && v != v1 && v != v2 ==> v.neighbors == old(v.neighbors))
    {
      var found1 := GetVertexById(id1);
      var found2 := GetVertexById(id2);
      if found1.None? || found2.None? {
        return Fail(VertexNotFound);
      }
      Join(found1.value, found2.value, cost);
      return Pass;
    }

    /** The success path of `add_edge_by_id`: each endpoint is appended to
        the other's adjacency list and the weight is set both ways. */
    method Join(v1: Vertex, v2: Vertex, cost: real)
      requires Valid() && v1 in vlist && v2 in vlist
      modifies this, v1, v2
      ensures vlist == old(vlist) && Valid()
      ensures var first := old(adjacencyList)[v1 := old(adjacencyList)[v1] + [v2]];
              adjacencyList == first[v2 := first[v2] + [v1]]
      ensures v1.neighbors == old(v1.neighbors)[v2 := cost]
      ensures v2.neighbors == old(v2.neighbors)[v1 := cost]
    {
      adjacencyList := adjacencyList[v1 := adjacencyList[v1] + [v2]];
      adjacencyList := adjacencyList[v2 := adjacencyList[v2] + [v1]];
      v1.AddNeighbor(v2, cost);
      v2.AddNeighbor(v1, cost);
    }
  }
}
