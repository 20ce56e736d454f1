/** What survives toJSON followed by fromJSON(String): a vertex whose property names stay clear of
    the GraphSON keys and the edge-array keys, with each edge listed under the vertex it starts or
    ends at, comes back unchanged; and every vertex fromJSON produces is of that kind. */
module RoundTrip {
  import opened Results
  import opened JsonTree
  import opened Long
  import opened Graph
  import opened Identifier
  import opened GraphSON
  import opened Decoder
  import opened Encoder

  /** An edge as it can appear in a record for direction `d` of vertex `nearId`: no property is
      named like a GraphSON key, and the near endpoint is that vertex. */
  predicate EdgeFits(ev: EdgeView, d: Direction, nearId: I64) {
    && (forall k :: k in ev.props ==> k !in Reserved)
    && (if d == Out then ev.outId == nearId else ev.inId == nearId)
  }

  /** A vertex whose properties avoid the GraphSON keys and the ignore set of the decoder, and
      whose edges all fit it. */
  predicate VertexFits(vv: VertexView) {
    && (forall k :: k in vv.props ==> k !in Reserved && k !in VertexIgnore)
    && (forall i :: 0 <= i < |vv.outE| ==> EdgeFits(vv.outE[i], Out, vv.id))
    && (forall i :: 0 <= i < |vv.inE| ==> EdgeFits(vv.inE[i], In, vv.id))
  }

  /** The properties read back from an encoded edge are the edge's own. */
  lemma EdgePropsBack(ev: EdgeView, d: Direction)
    requires forall k :: k in ev.props ==> k !in Reserved
    ensures EncodeEdge(ev, d).Ok? && ElementProps(EncodeEdge(ev, d).value, EdgeIgnore(d)) == ev.props
  {
    EncodeEdgeProps(ev, d);
  }

  /** Decoding an encoded edge in its own direction gives the edge back. */
  lemma EdgeRoundTrip(ev: EdgeView, d: Direction, nearId: I64)
    requires EdgeFits(ev, d, nearId)
    ensures EncodeEdge(ev, d).Ok? && DecodeEdge(JObj(EncodeEdge(ev, d).value), d, nearId) == Ok(ev)
  {
    EncodeEdgeFields(ev, d);
    EdgePropsBack(ev, d);
    var obj := EncodeEdge(ev, d).value;
    ConvertNumber(ev.id);
    assert Opt(obj, Id) == Some(JNum(ev.id));
  }

  /** Slot k of an encoded edge array decodes to edge k. */
  lemma SlotRoundTrip(evs: seq<EdgeView>, d: Direction, nearId: I64, k: nat)
    requires k < |evs| && EdgeFits(evs[k], d, nearId)
    ensures EncodeEdges(evs, d).Ok? && k < |EncodeEdges(evs, d).value|
    ensures DecodeEdge(EncodeEdges(evs, d).value[k], d, nearId) == Ok(evs[k])
  {
    EncodeEdgesAt(evs, d, k);
    EdgeRoundTrip(evs[k], d, nearId);
  }

  /** Decoding an encoded edge array gives the edges back, in order. */
  lemma EdgesRoundTrip(evs: seq<EdgeView>, d: Direction, nearId: I64)
    requires forall i :: 0 <= i < |evs| ==> EdgeFits(evs[i], d, nearId)
    ensures EncodeEdges(evs, d).Ok? && DecodeEdges(EncodeEdges(evs, d).value, d, nearId) == Ok(evs)
  {
    EncodeEdgesOk(evs, d);
    var slots := EncodeEdges(evs, d).value;
    forall k | 0 <= k < |slots|
      ensures DecodeEdge(slots[k], d, nearId) == Ok(evs[k])
    {
      SlotRoundTrip(evs, d, nearId, k);
    }
    assert AllObjects(slots);
    DecodeEdgesOk(slots, d, nearId);
    var back := DecodeEdges(slots, d, nearId).value;
    forall k | 0 <= k < |slots|
      ensures back[k] == evs[k]
    {
      DecodeEdgesAt(slots, d, nearId, k);
    }
    assert back == evs;
  }

  /** The edge-array slots the decoder finds in an encoded vertex are the encoded edges. */
  lemma SlotsBack(vv: VertexView)
    requires VertexFits(vv)
    ensures Encode(vv).Ok? && EncodeEdges(vv.outE, Out).Ok? && EncodeEdges(vv.inE, In).Ok?
    ensures EdgeSlots(Encode(vv).value, OutE) == EncodeEdges(vv.outE, Out).value
    ensures EdgeSlots(Encode(vv).value, InE) == EncodeEdges(vv.inE, In).value
  {
    EncodeEdgeArrays(vv);
    EncodeEdgesOk(vv.outE, Out);
    EncodeEdgesOk(vv.inE, In);
    assert OutE in VertexIgnore && InE in VertexIgnore;
  }

  /** The properties read back from an encoded vertex are the vertex's own. */
  lemma VertexPropsBack(vv: VertexView)
    requires forall k :: k in vv.props ==> k !in Reserved && k !in VertexIgnore
    ensures Encode(vv).Ok? && ElementProps(Encode(vv).value, Some(VertexIgnore)) == vv.props
  {
    EncodeVertexFields(vv);
  }

  /** fromJSON(toJSON(v)) describes v again. */
  lemma RoundTrip(vv: VertexView)
    requires VertexFits(vv)
    ensures Encode(vv).Ok? && Decode(Some(JObj(Encode(vv).value))) == Ok(vv)
  {
    EncodeVertexFields(vv);
    VertexPropsBack(vv);
    SlotsBack(vv);
    EdgesRoundTrip(vv.outE, Out, vv.id);
    EdgesRoundTrip(vv.inE, In, vv.id);
    ConvertNumber(vv.id);
    assert Opt(Encode(vv).value, Id) == Some(JNum(vv.id));
  }

  /** Every edge of a decoded edge array fits the vertex it was decoded for. */
  lemma DecodedEdgesFit(slots: seq<Json>, d: Direction, nearId: I64)
    requires DecodeEdges(slots, d, nearId).Ok?
    ensures forall i :: 0 <= i < |DecodeEdges(slots, d, nearId).value| ==>
      EdgeFits(DecodeEdges(slots, d, nearId).value[i], d, nearId)
  {
    DecodeEdgesOk(slots, d, nearId);
    var evs := DecodeEdges(slots, d, nearId).value;
    forall i | 0 <= i < |evs|
      ensures EdgeFits(evs[i], d, nearId)
    {
      DecodeEdgesAt(slots, d, nearId, i);
      DecodeEdgeEndpoints(slots[i], d, nearId);
    }
  }

  /** Every vertex fromJSON(String) produces fits, so toJSON followed by fromJSON reproduces it. */
  lemma DecodedFits(line: Option<Json>)
    requires Decode(line).Ok?
    ensures VertexFits(Decode(line).value)
    ensures Encode(Decode(line).value).Ok?
    ensures Decode(Some(JObj(Encode(Decode(line).value).value))) == Decode(line)
  {
    DecodeRecord(line.value.fields);
    var obj := line.value.fields;
    var id := ConvertIdentifier(Opt(obj, Id));
    DecodedEdgesFit(EdgeSlots(obj, OutE), Out, id);
    DecodedEdgesFit(EdgeSlots(obj, InE), In, id);
    RoundTrip(Decode(line).value);
  }
}
