/** JSONUtility.toJSON(Vertex): a vertex with its edges to one record. */
module Encoder {
  import opened Results
  import opened JsonTree
  import opened Long
  import opened Graph
  import opened Identifier
  import opened GraphSON
  import opened Decoder

  /** `Long.valueOf(id.toString())` on the value `JSONObject.remove` handed back: Java null
      throws NullPointerException, text that is not a `long` NumberFormatException.  A number is
      read directly; LongValueOfAgrees shows this is what parsing its decimal text gives. */
  function LongValueOf(x: Option<Json>): Result<I64> {
    match x
    case None => Fail
    case Some(JNum(n)) => if InLong(n) then Ok(n) else Fail
    case Some(j) =>
      match ParsedText(j)
      case None => Fail
      case Some(n) => Ok(n)
  }

  /** The key toJSON strips from an edge object in the array for `d`: the near endpoint, which
      is the vertex the record is about. */
  function NearKey(d: Direction): string {
    if d == Out then OutV else InV
  }

  /** One element of an edge array: jsonFromElement of the edge, `_id` removed and put back as a
      `long`, then `_type` and the near endpoint's key removed. */
  function EncodeEdge(ev: EdgeView, d: Direction): Result<Object> {
    var obj := EdgeJson(ev);
    var id :- LongValueOf(Opt(obj, Id));
    Ok((obj - {Id})[Id := JNum(id)] - {Type} - {NearKey(d)})
  }

  /** An edge as an element of the array for `d`. */
  function EdgeElement(ev: EdgeView, d: Direction): Result<Json> {
    var obj :- EncodeEdge(ev, d);
    Ok(JObj(obj))
  }

  /** The edge array for one direction, one object per edge in list order. */
  function EncodeEdges(evs: seq<EdgeView>, d: Direction): Result<seq<Json>> {
    Traverse((ev: EdgeView) => EdgeElement(ev, d), evs)
  }

  /** The `put(key, array)` toJSON does only when the direction has at least one edge. */
  function WithEdges(obj: Object, key: string, evs: seq<EdgeView>, d: Direction): Result<Object> {
    if evs == [] then Ok(obj)
    else
      var arr :- EncodeEdges(evs, d);
      Ok(obj[key := JArr(arr)])
  }

  /** The record toJSON writes for a vertex. */
  function Encode(vv: VertexView): Result<Object> {
    var element := VertexJson(vv.id, vv.props) - {Type};
    var id :- LongValueOf(Opt(element, Id));
    var obj := (element - {Id})[Id := JNum(id)];
    var withOut :- WithEdges(obj, OutE, vv.outE, Out);
    WithEdges(withOut, InE, vv.inE, In)
  }

  /** Long.valueOf succeeds exactly where convertIdentifier does not fall back to -1, and then
      gives the same number. */
  lemma LongValueOfAgrees(x: Option<Json>)
    ensures LongValueOf(x).Ok? <==> x.Some? && ParsedText(x.value).Some?
    ensures LongValueOf(x).Ok? ==> LongValueOf(x).value == ConvertIdentifier(x)
    ensures x.None? ==> LongValueOf(x).Fail?
  {
    if x.Some? && x.value.JNum? {
      ParseShowInt(x.value.num);
    }
  }

  /** A `long` written as a JSON number is read back by Long.valueOf unchanged. */
  lemma LongValueOfNumber(n: I64)
    ensures LongValueOf(Some(JNum(n))) == Ok(n)
  {
  }

  /** Every edge encodes: its identifier is a `long` written as a number. */
  lemma EncodeEdgeOk(ev: EdgeView, d: Direction)
    ensures EncodeEdge(ev, d).Ok?
  {
    LongValueOfNumber(ev.id);
  }

  /** The edge object is the element object without `_type` and the near endpoint. */
  lemma EncodeEdgeObject(ev: EdgeView, d: Direction)
    ensures EncodeEdge(ev, d) == Ok((EdgeJson(ev) - {Type}) - {NearKey(d)})
  {
    LongValueOfNumber(ev.id);
    var obj := EdgeJson(ev);
    assert (obj - {Id})[Id := JNum(ev.id)] == obj;
  }

  /** An edge object: `_type` and the near endpoint are gone, `_id` is the edge's identifier as a
      number, and the far endpoint's identifier and the label are kept. */
  lemma EncodeEdgeFields(ev: EdgeView, d: Direction)
    ensures EncodeEdge(ev, d).Ok?
    ensures var obj := EncodeEdge(ev, d).value;
      && Type !in obj && NearKey(d) !in obj
      && Id in obj && obj[Id] == JNum(ev.id)
      && FarKey(d) in obj && obj[FarKey(d)] == JNum(if d == Out then ev.inId else ev.outId)
      && (ev.edgeLabel.Some? ==> Label in obj && obj[Label] == JStr(ev.edgeLabel.value))
      && (ev.edgeLabel.None? ==> Label !in obj)
  {
    EncodeEdgeObject(ev, d);
  }

  /** An edge object keeps every property whose name is not reserved, and holds no other key. */
  lemma EncodeEdgeProps(ev: EdgeView, d: Direction)
    ensures EncodeEdge(ev, d).Ok?
    ensures var obj := EncodeEdge(ev, d).value;
      && (forall k :: k in ev.props && k !in Reserved ==> k in obj && obj[k] == ev.props[k])
      && (forall k :: k in obj ==> k in Reserved || (k in ev.props && obj[k] == ev.props[k]))
  {
    EncodeEdgeObject(ev, d);
  }

  /** An edge array always encodes, to one element per edge. */
  lemma EncodeEdgesOk(evs: seq<EdgeView>, d: Direction)
    ensures EncodeEdges(evs, d).Ok? && |EncodeEdges(evs, d).value| == |evs|
  {
    var f := (ev: EdgeView) => EdgeElement(ev, d);
    forall k | 0 <= k < |evs|
      ensures f(evs[k]).Ok?
    {
      EncodeEdgeOk(evs[k], d);
    }
    TraverseOk(f, evs);
  }

  /** Element k of an edge array is the object of edge k: the array keeps list order. */
  lemma EncodeEdgesAt(evs: seq<EdgeView>, d: Direction, k: nat)
    requires k < |evs|
    ensures EncodeEdges(evs, d).Ok? && k < |EncodeEdges(evs, d).value| && EncodeEdge(evs[k], d).Ok?
    ensures EncodeEdges(evs, d).value[k] == JObj(EncodeEdge(evs[k], d).value)
  {
    EncodeEdgesOk(evs, d);
    TraverseAt((ev: EdgeView) => EdgeElement(ev, d), evs, k);
  }

  /** The `put` of an edge array replaces what the key held only when there are edges. */
  lemma WithEdgesSpec(obj: Object, key: string, evs: seq<EdgeView>, d: Direction)
    ensures WithEdges(obj, key, evs, d).Ok?
    ensures evs == [] ==> WithEdges(obj, key, evs, d).value == obj
    ensures evs != [] ==> EncodeEdges(evs, d).Ok?
    ensures evs != [] ==> WithEdges(obj, key, evs, d).value == obj[key := JArr(EncodeEdges(evs, d).value)]
  {
    EncodeEdgesOk(evs, d);
  }

  /** toJSON never fails: a vertex identifier is a `long`, and so is every edge identifier. */
  lemma EncodeOk(vv: VertexView)
    ensures Encode(vv).Ok?
  {
    var obj := (VertexJson(vv.id, vv.props) - {Type} - {Id})[Id := JNum(vv.id)];
    WithEdgesSpec(obj, OutE, vv.outE, Out);
    WithEdgesSpec(WithEdges(obj, OutE, vv.outE, Out).value, InE, vv.inE, In);
  }

  /** The record of a vertex has no `_type`, its `_id` is the vertex identifier as a number, and
      every other property keeps its value unless an edge array overwrote it.  It holds no key
      besides `_id`, the properties and the two array keys. */
  lemma EncodeVertexFields(vv: VertexView)
    ensures Encode(vv).Ok?
    ensures var obj := Encode(vv).value;
      && Type !in obj
      && Id in obj && obj[Id] == JNum(vv.id)
      && (forall k :: k in vv.props && k !in {Id, Type, OutE, InE} ==> k in obj && obj[k] == vv.props[k])
      && (forall k :: k in obj ==> k == Id || k == OutE || k == InE || (k in vv.props && obj[k] == vv.props[k]))
  {
    var obj := (VertexJson(vv.id, vv.props) - {Type} - {Id})[Id := JNum(vv.id)];
    WithEdgesSpec(obj, OutE, vv.outE, Out);
    WithEdgesSpec(WithEdges(obj, OutE, vv.outE, Out).value, InE, vv.inE, In);
  }

  /** `outE` holds the out-edge array exactly when there is at least one out-edge, and `inE` the
      in-edge array likewise; a direction without edges leaves its key as the properties had it,
      so a record never holds an empty edge array the vertex did not have as a property. */
  lemma EncodeEdgeArrays(vv: VertexView)
    ensures Encode(vv).Ok? && EncodeEdges(vv.outE, Out).Ok? && EncodeEdges(vv.inE, In).Ok?
    ensures var obj := Encode(vv).value;
      && (vv.outE != [] ==> OutE in obj && obj[OutE] == JArr(EncodeEdges(vv.outE, Out).value))
      && (vv.inE != [] ==> InE in obj && obj[InE] == JArr(EncodeEdges(vv.inE, In).value))
      && (vv.outE == [] ==> (OutE in obj <==> OutE in vv.props) && (OutE in obj ==> obj[OutE] == vv.props[OutE]))
      && (vv.inE == [] ==> (InE in obj <==> InE in vv.props) && (InE in obj ==> obj[InE] == vv.props[InE]))
  {
    EncodeEdgesOk(vv.outE, Out);
    EncodeEdgesOk(vv.inE, In);
    var obj := (VertexJson(vv.id, vv.props) - {Type} - {Id})[Id := JNum(vv.id)];
    WithEdgesSpec(obj, OutE, vv.outE, Out);
    WithEdgesSpec(WithEdges(obj, OutE, vv.outE, Out).value, InE, vv.inE, In);
  }

  /** One edge object, built by removing and putting keys as toJSON does; the OUT and IN
      branches differ only in the endpoint key they remove. */
  method EdgeObject(e: Edge, d: Direction) returns (edgeObject: Object)
    ensures EncodeEdge(e.View(), d) == Ok(edgeObject)
  {
    edgeObject := EdgeJson(e.View());
    var id := Opt(edgeObject, Id);
    edgeObject := edgeObject - {Id};
    var n := LongValueOf(id);
    LongValueOfNumber(e.id);
    edgeObject := edgeObject[Id := JNum(n.value)];
    edgeObject := edgeObject - {Type};
    edgeObject := edgeObject - {NearKey(d)};
  }

  /** The JSONArray of one direction, filled edge by edge. */
  method EdgeArray(edges: seq<Edge>, d: Direction) returns (arr: seq<Json>)
    ensures EncodeEdges(EdgeViews(edges), d) == Ok(arr)
  {
    arr := [];
    var ix := 0;
    while ix < |edges|
      invariant ix <= |edges|
      invariant EncodeEdges(EdgeViews(edges[..ix]), d) == Ok(arr)
    {
      var edgeObject := EdgeObject(edges[ix], d);
      assert edges[..ix + 1] == edges[..ix] + [edges[ix]];
      EdgeViewsAppend(edges[..ix], edges[ix]);
      TraverseSnoc((ev: EdgeView) => EdgeElement(ev, d), EdgeViews(edges[..ix]), edges[ix].View());
      arr := arr + [JObj(edgeObject)];
      ix := ix + 1;
    }
    assert edges[..ix] == edges;
  }

  /** toJSON(vertex): the element object edited in place, then the two edge arrays. */
  method ToJson(v: Vertex) returns (record: Object)
    ensures Encode(v.View()) == Ok(record)
  {
    record := VertexJson(v.id, v.props);
    record := record - {Type};
    var id := Opt(record, Id);
    record := record - {Id};
    var n := LongValueOf(id);
    LongValueOfNumber(v.id);
    record := record[Id := JNum(n.value)];
    ghost var base := record;
    if v.outEdges != [] {
      var outArray := EdgeArray(v.outEdges, Out);
      record := record[OutE := JArr(outArray)];
    }
    ghost var withOut := record;
    if v.inEdges != [] {
      var inArray := EdgeArray(v.inEdges, In);
      record := record[InE := JArr(inArray)];
    }
    WithEdgesSpec(base, OutE, EdgeViews(v.outEdges), Out);
    WithEdgesSpec(withOut, InE, EdgeViews(v.inEdges), In);
  }
}
