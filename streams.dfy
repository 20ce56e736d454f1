/** The line drivers: JSONUtility.fromJSON(InputStream) and generateGraphSON.  Reading and
    writing of text lines is not modelled; a line is what the JSON tokenizer made of it, and a
    record written is the object before it is serialised. */
module Streams {
  import opened Results
  import opened JsonTree
  import opened Graph
  import opened Decoder
  import opened Encoder

  /** The views of a list of vertices, in list order.  This is a second function beside
      Graph.EdgeViews rather than one generic map, because a vertex's fields change in place and
      its view reads the heap, while an edge's fields are fixed once it is built. */
  function Views(vs: seq<Vertex>): (r: seq<VertexView>)
    reads vs
    ensures |r| == |vs|
    ensures forall k :: 0 <= k < |vs| ==> r[k] == vs[k].View()
  {
    if vs == [] then [] else Views(vs[..|vs| - 1]) + [vs[|vs| - 1].View()]
  }

  /** No vertex occurs twice. */
  predicate Distinct(vs: seq<Vertex>) {
    forall i, j :: 0 <= i < j < |vs| ==> vs[i] != vs[j]
  }

  lemma DistinctAppend(vs: seq<Vertex>, v: Vertex)
    requires Distinct(vs) && v !in vs
    ensures Distinct(vs + [v])
  {
  }

  lemma ViewsAppend(vs: seq<Vertex>, v: Vertex)
    ensures Views(vs + [v]) == Views(vs) + [v.View()]
  {
    assert (vs + [v])[..|vs|] == vs;
  }

  /** What fromJSON(InputStream) returns: the vertex of every line in line order, or a failure
      as soon as one line fails. */
  function DecodeAll(lines: seq<Option<Json>>): Result<seq<VertexView>> {
    Traverse(Decode, lines)
  }

  /** The records generateGraphSON writes, one per vertex in iteration order. */
  function EncodeAll(vvs: seq<VertexView>): Result<seq<Object>> {
    Traverse(Encode, vvs)
  }

  /** The stream decodes exactly when every line does, to one vertex per line, vertex k being the
      decoding of line k. */
  lemma DecodeAllSpec(lines: seq<Option<Json>>)
    ensures DecodeAll(lines).Ok? <==> forall k :: 0 <= k < |lines| ==> Decode(lines[k]).Ok?
    ensures DecodeAll(lines).Ok? ==> |DecodeAll(lines).value| == |lines|
    ensures DecodeAll(lines).Ok? ==>
      forall k :: 0 <= k < |lines| ==> DecodeAll(lines).value[k] == Decode(lines[k]).value
  {
    TraverseOk(Decode, lines);
    if DecodeAll(lines).Ok? {
      forall k | 0 <= k < |lines|
        ensures DecodeAll(lines).value[k] == Decode(lines[k]).value
      {
        TraverseAt(Decode, lines, k);
      }
    }
  }

  /** Once a prefix of the lines fails, the stream fails, whatever the later lines hold. */
  lemma DecodeAllPrefixFailure(lines: seq<Option<Json>>, n: nat)
    requires n <= |lines| && DecodeAll(lines[..n]).Fail?
    ensures DecodeAll(lines).Fail?
  {
    TraverseOk(Decode, lines[..n]);
    var k :| 0 <= k < n && Decode(lines[..n][k]).Fail?;
    assert lines[..n][k] == lines[k];
    TraverseOk(Decode, lines);
  }

  /** generateGraphSON writes a record for every vertex, record k being toJSON of vertex k. */
  lemma EncodeAllSpec(vvs: seq<VertexView>)
    ensures EncodeAll(vvs).Ok? && |EncodeAll(vvs).value| == |vvs|
    ensures forall k :: 0 <= k < |vvs| ==> Encode(vvs[k]).Ok? && EncodeAll(vvs).value[k] == Encode(vvs[k]).value
  {
    forall k | 0 <= k < |vvs|
      ensures Encode(vvs[k]).Ok?
    {
      EncodeOk(vvs[k]);
    }
    TraverseOk(Encode, vvs);
    forall k | 0 <= k < |vvs|
      ensures EncodeAll(vvs).value[k] == Encode(vvs[k]).value
    {
      TraverseAt(Encode, vvs, k);
    }
  }

  /** One line of fromJSON(InputStream): the decoded prefix grows by the line's vertex. */
  method FromJsonLine(lines: seq<Option<Json>>, ix: nat, ghost views: seq<VertexView>, ghost prior: seq<Vertex>)
    returns (vertex: Result<Vertex>)
    requires ix < |lines| && DecodeAll(lines[..ix]) == Ok(views)
    ensures vertex.Ok? <==> DecodeAll(lines[..ix + 1]).Ok?
    ensures vertex.Ok? ==> DecodeAll(lines[..ix + 1]) == Ok(views + [vertex.value.View()])
    ensures vertex.Ok? ==> fresh(vertex.value)
    ensures vertex.Ok? ==> vertex.value !in prior && Views(prior + [vertex.value]) == old(Views(prior)) + [vertex.value.View()]
  {
    assert lines[..ix + 1] == lines[..ix] + [lines[ix]];
    TraverseSnoc(Decode, lines[..ix], lines[ix]);
    vertex := FromJson(lines[ix]);
    if vertex.Ok? {
      ViewsAppend(prior, vertex.value);
    }
  }

  /** fromJSON(InputStream): each line is decoded and appended to the list; the first failing
      line ends the call with a failure. */
  method FromJsonLines(lines: seq<Option<Json>>) returns (r: Result<seq<Vertex>>)
    ensures r.Ok? <==> DecodeAll(lines).Ok?
    ensures r.Ok? ==> Views(r.value) == DecodeAll(lines).value
    ensures r.Ok? ==> Distinct(r.value)
    ensures r.Ok? ==> forall v :: v in r.value ==> fresh(v)
  {
    var vertices: seq<Vertex> := [];
    ghost var views: seq<VertexView> := [];
    var ix := 0;
    while ix < |lines|
      invariant ix <= |lines|
      invariant DecodeAll(lines[..ix]) == Ok(views)
      invariant Views(vertices) == views
      invariant Distinct(vertices)
      invariant forall v :: v in vertices ==> fresh(v)
    {
      var vertex := FromJsonLine(lines, ix, views, vertices);
      if vertex.Fail? {
        DecodeAllPrefixFailure(lines, ix + 1);
        return Fail;
      }
      DistinctAppend(vertices, vertex.value);
      vertices := vertices + [vertex.value];
      views := views + [vertex.value.View()];
      ix := ix + 1;
    }
    assert lines[..ix] == lines;
    r := Ok(vertices);
  }

  /** One vertex of generateGraphSON: the written prefix grows by the vertex's record. */
  method GenerateRecord(v: Vertex, ghost views: seq<VertexView>, ix: nat, written: seq<Object>) returns (record: Object)
    requires ix < |views| && views[ix] == v.View() && EncodeAll(views[..ix]) == Ok(written)
    ensures EncodeAll(views[..ix + 1]) == Ok(written + [record])
  {
    assert views[..ix + 1] == views[..ix] + [views[ix]];
    TraverseSnoc(Encode, views[..ix], views[ix]);
    record := ToJson(v);
  }

  /** generateGraphSON: toJSON of every vertex, written in iteration order. */
  method GenerateGraphSON(vertices: seq<Vertex>) returns (written: seq<Object>)
    ensures EncodeAll(Views(vertices)) == Ok(written)
  {
    ghost var views := Views(vertices);
    written := [];
    var ix := 0;
    while ix < |vertices|
      invariant ix <= |vertices|
      invariant EncodeAll(views[..ix]) == Ok(written)
    {
      var record := GenerateRecord(vertices[ix], views, ix, written);
      written := written + [record];
      ix := ix + 1;
    }
    assert views[..ix] == views;
  }
}
