/** The parts of FaunusVertex and FaunusEdge the codec touches: identifiers, property maps,
    the two edge lists of a vertex, and the endpoints an edge refers to by object identity. */
module Graph {
  import opened Results
  import opened JsonTree
  import opened Long

  datatype Direction = Out | In

  function Flip(d: Direction): Direction {
    if d == Out then In else Out
  }

  /** An edge as a value: the endpoints are reduced to their identifiers. */
  datatype EdgeView = EdgeView(id: I64, edgeLabel: Option<string>, props: Object, outId: I64, inId: I64)

  /** A vertex as a value, with its out-edges and in-edges in list order. */
  datatype VertexView = VertexView(id: I64, props: Object, outE: seq<EdgeView>, inE: seq<EdgeView>)

  class Vertex {
    const id: I64
    var props: Object
    var outEdges: seq<Edge>
    var inEdges: seq<Edge>

    /** `new FaunusVertex(id)`: a vertex with no properties and no edges. */
    constructor (id: I64)
      ensures this.id == id && props == map[] && outEdges == [] && inEdges == []
    {
      this.id := id;
      props := map[];
      outEdges := [];
      inEdges := [];
    }

    /** The edge list for direction `d`. */
    function Edges(d: Direction): seq<Edge>
      reads this
    {
      if d == Out then outEdges else inEdges
    }

    /** `FaunusVertex.addEdge(direction, edge)`: append to the list for that direction. */
    method AddEdge(d: Direction, e: Edge)
      modifies this
      ensures props == old(props)
      ensures Edges(d) == old(Edges(d)) + [e]
      ensures Edges(Flip(d)) == old(Edges(Flip(d)))
    {
      if d == Out {
        outEdges := outEdges + [e];
      } else {
        inEdges := inEdges + [e];
      }
    }

    function View(): VertexView
      reads this
    {
      VertexView(id, props, EdgeViews(outEdges), EdgeViews(inEdges))
    }
  }

  class Edge {
    const id: I64
    const edgeLabel: Option<string>
    const props: Object
    const outV: Vertex
    const inV: Vertex

    /** `new FaunusEdge(id, out, in, label)` with the properties it is given right after. */
    constructor (id: I64, outV: Vertex, inV: Vertex, edgeLabel: Option<string>, props: Object)
      ensures this.id == id && this.outV == outV && this.inV == inV && this.edgeLabel == edgeLabel
      ensures this.props == props
    {
      this.id := id;
      this.outV := outV;
      this.inV := inV;
      this.edgeLabel := edgeLabel;
      this.props := props;
    }

    function View(): EdgeView {
      EdgeView(id, edgeLabel, props, outV.id, inV.id)
    }
  }

  function EdgeViews(es: seq<Edge>): (r: seq<EdgeView>)
    ensures |r| == |es|
    ensures forall k :: 0 <= k < |es| ==> r[k] == es[k].View()
  {
    if es == [] then [] else EdgeViews(es[..|es| - 1]) + [es[|es| - 1].View()]
  }

  lemma EdgeViewsAppend(es: seq<Edge>, e: Edge)
    ensures EdgeViews(es + [e]) == EdgeViews(es) + [e.View()]
  {
    assert (es + [e])[..|es|] == es;
  }

  /** The endpoint of `e` that a record for direction `d` is written for. */
  function Near(e: Edge, d: Direction): Vertex {
    if d == Out then e.outV else e.inV
  }

  /** The other endpoint, which a record only names by identifier. */
  function Far(e: Edge, d: Direction): Vertex {
    if d == Out then e.inV else e.outV
  }

  /** A placeholder vertex: nothing but an identifier. */
  ghost predicate IsStub(s: Vertex)
    reads s
  {
    s.props == map[] && s.outEdges == [] && s.inEdges == []
  }

  /** The far endpoints of a list of edges for direction `d`. */
  function FarOf(es: seq<Edge>, d: Direction): (r: seq<Vertex>)
    ensures |r| == |es|
    ensures forall k :: 0 <= k < |es| ==> r[k] == Far(es[k], d)
  {
    seq(|es|, k requires 0 <= k < |es| => Far(es[k], d))
  }

  /** No two of the given out-edges and in-edges share a far endpoint. */
  ghost predicate DistinctFarEnds(outs: seq<Edge>, ins: seq<Edge>) {
    && (forall i, j :: 0 <= i < j < |outs| ==> outs[i].inV != outs[j].inV)
    && (forall i, j :: 0 <= i < j < |ins| ==> ins[i].outV != ins[j].outV)
    && (forall i, j :: 0 <= i < |outs| && 0 <= j < |ins| ==> outs[i].inV != ins[j].outV)
  }
}
