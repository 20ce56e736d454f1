/** JSONUtility.fromJSON(String) and fromJSONEdges: one record to a vertex with its edges. */
module Decoder {
  import opened Results
  import opened JsonTree
  import opened Long
  import opened Graph
  import opened Identifier
  import opened GraphSON

  const OutE := "outE"
  const InE := "inE"

  /** The keys vertexFromJson is told to skip. */
  const VertexIgnore: set<string> := {OutE, InE, Type}

  /** The key naming the far endpoint of an edge in a record for direction `d`. */
  function FarKey(d: Direction): string {
    if d == Out then InV else OutV
  }

  /** The ignore set handed to edgeFromJSON: the IN branch passes the set it built, the OUT
      branch passes Java null although it also built one. */
  function EdgeIgnore(d: Direction): Option<set<string>> {
    if d == In then Some({Type, InV}) else None
  }

  /** JSONObject.optJSONArray followed by the null test: the slots of the array under `key`, none
      when the key is absent or holds something other than an array. */
  function EdgeSlots(obj: Object, key: string): seq<Json> {
    if key in obj && obj[key].JArr? then obj[key].elems else []
  }

  /** One slot of an edge array.  A slot that is not an object makes optJSONObject return null,
      and reading from it throws. */
  function DecodeEdge(slot: Json, d: Direction, nearId: I64): Result<EdgeView> {
    match slot
    case JObj(e) =>
      var farId := OptLong(e, FarKey(d));
      var (outId, inId) := if d == Out then (nearId, farId) else (farId, nearId);
      Ok(EdgeView(ConvertIdentifier(Opt(e, Id)), LabelOf(e), ElementProps(e, EdgeIgnore(d)), outId, inId))
    case _ => Fail
  }

  /** The slots of one edge array, decoded in index order. */
  function DecodeEdges(slots: seq<Json>, d: Direction, nearId: I64): Result<seq<EdgeView>> {
    Traverse((slot: Json) => DecodeEdge(slot, d, nearId), slots)
  }

  /** The vertex a record decodes to.  `None` stands for a line the JSON tokenizer rejects; a
      line that is valid JSON but not an object is rejected by the JSONObject constructor. */
  function Decode(line: Option<Json>): Result<VertexView> {
    match line
    case Some(JObj(obj)) =>
      var id := ConvertIdentifier(Opt(obj, Id));
      var outs :- DecodeEdges(EdgeSlots(obj, OutE), Out, id);
      var ins :- DecodeEdges(EdgeSlots(obj, InE), In, id);
      Ok(VertexView(id, ElementProps(obj, Some(VertexIgnore)), outs, ins))
    case _ => Fail
  }

  /** Every slot of an edge array is an object. */
  predicate AllObjects(slots: seq<Json>) {
    forall k :: 0 <= k < |slots| ==> slots[k].JObj?
  }

  /** An edge array decodes exactly when every slot is an object, and then to one edge per slot. */
  lemma DecodeEdgesOk(slots: seq<Json>, d: Direction, nearId: I64)
    ensures DecodeEdges(slots, d, nearId).Ok? <==> AllObjects(slots)
    ensures DecodeEdges(slots, d, nearId).Ok? ==> |DecodeEdges(slots, d, nearId).value| == |slots|
  {
    TraverseOk((slot: Json) => DecodeEdge(slot, d, nearId), slots);
  }

  /** The k-th edge of a decoded array is the edge of slot k: the array keeps slot order. */
  lemma DecodeEdgesAt(slots: seq<Json>, d: Direction, nearId: I64, k: nat)
    requires k < |slots| && DecodeEdges(slots, d, nearId).Ok?
    ensures slots[k].JObj? && k < |DecodeEdges(slots, d, nearId).value|
    ensures DecodeEdges(slots, d, nearId).value[k] == DecodeEdge(slots[k], d, nearId).value
  {
    TraverseAt((slot: Json) => DecodeEdge(slot, d, nearId), slots, k);
  }

  /** In a decoded edge the near endpoint carries the record's own identifier and the far one
      the identifier read from `_inV` (out-edges) or `_outV` (in-edges). */
  lemma DecodeEdgeEndpoints(slot: Json, d: Direction, nearId: I64)
    requires slot.JObj?
    ensures DecodeEdge(slot, d, nearId).Ok?
    ensures d == Out ==>
      DecodeEdge(slot, d, nearId).value.outId == nearId && DecodeEdge(slot, d, nearId).value.inId == OptLong(slot.fields, InV)
    ensures d == In ==>
      DecodeEdge(slot, d, nearId).value.inId == nearId && DecodeEdge(slot, d, nearId).value.outId == OptLong(slot.fields, OutV)
  {
  }

  /** The null ignore set of the OUT branch loses nothing: the keys the ignore sets name are
      reserved and never read as properties anyway. */
  lemma EdgeIgnoreHarmless(e: Object)
    ensures ElementProps(e, None) == ElementProps(e, Some({Type, InV}))
    ensures ElementProps(e, None) == ElementProps(e, Some({Type, OutV}))
  {
  }

  /** A record decodes exactly when it is an object and every slot of both edge arrays is an
      object: one bad slot fails the whole record.  The vertex carries the normalised `_id`. */
  lemma DecodeRecord(obj: Object)
    ensures Decode(Some(JObj(obj))).Ok? <==> AllObjects(EdgeSlots(obj, OutE)) && AllObjects(EdgeSlots(obj, InE))
    ensures Decode(Some(JObj(obj))).Ok? ==> Decode(Some(JObj(obj))).value.id == ConvertIdentifier(Opt(obj, Id))
  {
    var id := ConvertIdentifier(Opt(obj, Id));
    DecodeEdgesOk(EdgeSlots(obj, OutE), Out, id);
    DecodeEdgesOk(EdgeSlots(obj, InE), In, id);
  }

  /** A successful decode: `_type` and the edge arrays never become properties; every other
      non-reserved key does, with its value; each direction holds one edge per slot of its
      array and none when the array is absent. */
  lemma DecodeShape(obj: Object)
    requires Decode(Some(JObj(obj))).Ok?
    ensures var v := Decode(Some(JObj(obj))).value;
      && OutE !in v.props && InE !in v.props && Type !in v.props
      && (forall k :: k in obj && k !in Reserved && k !in VertexIgnore ==> k in v.props && v.props[k] == obj[k])
      && (forall k :: k in v.props ==> k in obj && v.props[k] == obj[k])
      && |v.outE| == |EdgeSlots(obj, OutE)| && |v.inE| == |EdgeSlots(obj, InE)|
      && (OutE !in obj ==> v.outE == []) && (InE !in obj ==> v.inE == [])
  {
    var id := ConvertIdentifier(Opt(obj, Id));
    DecodeEdgesOk(EdgeSlots(obj, OutE), Out, id);
    DecodeEdgesOk(EdgeSlots(obj, InE), In, id);
  }

  /** Anything but an object is rejected. */
  lemma DecodeNonObject(line: Option<Json>)
    requires line.None? || !line.value.JObj?
    ensures Decode(line).Fail?
  {
  }

  /** The body of the loop in fromJSONEdges for one object slot: read the far identifier, make a
      stub for it, build the edge with the ignore set of that branch and add it to the vertex. */
  method FromJsonEdge(v: Vertex, edge: Object, d: Direction) returns (faunusEdge: Edge)
    modifies v
    ensures v.props == old(v.props) && v.Edges(Flip(d)) == old(v.Edges(Flip(d)))
    ensures v.Edges(d) == old(v.Edges(d)) + [faunusEdge]
    ensures fresh(faunusEdge) && Near(faunusEdge, d) == v
    ensures fresh(Far(faunusEdge, d)) && IsStub(Far(faunusEdge, d))
    ensures faunusEdge.View() == DecodeEdge(JObj(edge), d, v.id).value
  {
    var ignore := {Type};
    if d == In {
      var outVertexId := OptLong(edge, OutV);
      ignore := ignore + {InV};
      var stub := new Vertex(outVertexId);
      faunusEdge := EdgeFromJson(edge, stub, v, Some(ignore));
      ignore := ignore - {InV};
    } else {
      var inVertexId := OptLong(edge, InV);
      ignore := ignore + {OutV};
      var stub := new Vertex(inVertexId);
      faunusEdge := EdgeFromJson(edge, v, stub, None);
      ignore := ignore - {OutV};
    }
    // edgeFromJSON never returns null, so the edge is always added
    v.AddEdge(d, faunusEdge);
  }

  /** One pass of the loop in fromJSONEdges over object slot `ix`, stated over the loop's
      bookkeeping: `added` holds the edges of the slots before `ix`. */
  method FromJsonSlot(v: Vertex, slots: seq<Json>, ix: nat, d: Direction, ghost added: seq<Edge>)
    returns (faunusEdge: Edge)
    requires ix < |slots| && slots[ix].JObj?
    requires DecodeEdges(slots[..ix], d, v.id) == Ok(EdgeViews(added))
    requires forall e :: e in added ==> Far(e, d) != v && IsStub(Far(e, d))
    modifies v
    ensures v.props == old(v.props) && v.Edges(Flip(d)) == old(v.Edges(Flip(d)))
    ensures v.Edges(d) == old(v.Edges(d)) + [faunusEdge]
    ensures DecodeEdges(slots[..ix + 1], d, v.id) == Ok(EdgeViews(added + [faunusEdge]))
    ensures fresh(faunusEdge) && Near(faunusEdge, d) == v && fresh(Far(faunusEdge, d))
    ensures forall e :: e in added + [faunusEdge] ==> Far(e, d) != v && IsStub(Far(e, d))
  {
    faunusEdge := FromJsonEdge(v, slots[ix].fields, d);
    assert slots[..ix + 1] == slots[..ix] + [slots[ix]];
    TraverseSnoc((slot: Json) => DecodeEdge(slot, d, v.id), slots[..ix], slots[ix]);
    EdgeViewsAppend(added, faunusEdge);
  }

  /** fromJSONEdges: walk the array in index order, build each edge between the vertex and a
      fresh stub for the far endpoint, and append it to the vertex's list for `d`.  Returns false
      where Java throws; edges added before the bad slot stay on the (discarded) vertex.  The
      edges added are `added`; no new stub is one of the vertices in `avoid`. */
  method FromJsonEdges(v: Vertex, slots: seq<Json>, d: Direction, ghost avoid: seq<Vertex>)
    returns (ok: bool, ghost added: seq<Edge>)
    modifies v
    ensures v.props == old(v.props) && v.Edges(Flip(d)) == old(v.Edges(Flip(d)))
    ensures v.Edges(d) == old(v.Edges(d)) + added
    ensures ok <==> DecodeEdges(slots, d, v.id).Ok?
    ensures ok ==> DecodeEdges(slots, d, v.id).value == EdgeViews(added)
    ensures forall e :: e in added ==> fresh(e) && Near(e, d) == v && fresh(Far(e, d))
    ensures forall e :: e in added ==> Far(e, d) != v && IsStub(Far(e, d))
    ensures forall i, j :: 0 <= i < j < |added| ==> Far(added[i], d) != Far(added[j], d)
    ensures forall e :: e in added ==> Far(e, d) !in avoid
  {
    ghost var props, start, other := v.props, v.Edges(d), v.Edges(Flip(d));
    added := [];
    var ix := 0;
    while ix < |slots|
      invariant 0 <= ix <= |slots|
      invariant v.props == props && v.Edges(Flip(d)) == other
      invariant v.Edges(d) == start + added
      invariant DecodeEdges(slots[..ix], d, v.id) == Ok(EdgeViews(added))
      invariant forall e :: e in added ==> fresh(e) && Near(e, d) == v && fresh(Far(e, d))
      invariant forall e :: e in added ==> Far(e, d) != v && IsStub(Far(e, d))
      invariant forall i, j :: 0 <= i < j < |added| ==> Far(added[i], d) != Far(added[j], d)
      invariant forall e :: e in added ==> Far(e, d) !in avoid
    {
      if !slots[ix].JObj? {
        DecodeEdgesOk(slots, d, v.id);
        return false, added;
      }
      var faunusEdge := FromJsonSlot(v, slots, ix, d, added);
      added := added + [faunusEdge];
      ix := ix + 1;
    }
    assert slots[..ix] == slots;
    return true, added;
  }

  /** The two calls of fromJSONEdges in fromJSON(String): out-edges first, then in-edges. */
  method FromJsonEdgeArrays(v: Vertex, obj: Object) returns (ok: bool, ghost outs: seq<Edge>, ghost ins: seq<Edge>)
    requires v.outEdges == [] && v.inEdges == []
    modifies v
    ensures v.props == old(v.props)
    ensures ok <==> DecodeEdges(EdgeSlots(obj, OutE), Out, v.id).Ok? && DecodeEdges(EdgeSlots(obj, InE), In, v.id).Ok?
    ensures ok ==> v.outEdges == outs && v.inEdges == ins
    ensures ok ==> DecodeEdges(EdgeSlots(obj, OutE), Out, v.id).value == EdgeViews(outs)
    ensures ok ==> DecodeEdges(EdgeSlots(obj, InE), In, v.id).value == EdgeViews(ins)
    ensures forall e :: e in outs ==> fresh(e) && e.outV == v && fresh(e.inV) && IsStub(e.inV)
    ensures forall e :: e in ins ==> fresh(e) && e.inV == v && fresh(e.outV) && IsStub(e.outV)
    ensures DistinctFarEnds(outs, ins)
  {
    ok, outs := FromJsonEdges(v, EdgeSlots(obj, OutE), Out, []);
    ins := [];
    if ok {
      ok, ins := FromJsonEdges(v, EdgeSlots(obj, InE), In, FarOf(outs, Out));
    }
  }

  /** fromJSON(String): build the vertex, then its out-edges, then its in-edges. */
  method FromJson(line: Option<Json>) returns (r: Result<Vertex>)
    ensures r.Ok? <==> Decode(line).Ok?
    ensures r.Ok? ==> fresh(r.value) && r.value.View() == Decode(line).value
    ensures r.Ok? ==> forall e :: e in r.value.outEdges ==> fresh(e) && e.outV == r.value && fresh(e.inV) && IsStub(e.inV)
    ensures r.Ok? ==> forall e :: e in r.value.inEdges ==> fresh(e) && e.inV == r.value && fresh(e.outV) && IsStub(e.outV)
    ensures r.Ok? ==> DistinctFarEnds(r.value.outEdges, r.value.inEdges)
  {
    r := Fail;
    if line.None? || !line.value.JObj? {
      DecodeNonObject(line);
      return;
    }
    var json := line.value.fields;
    var vertex := VertexFromJson(json, VertexIgnore);
    var ok, outs, ins := FromJsonEdgeArrays(vertex, json);
    if ok {
      r := Ok(vertex);
    }
  }
}
