# JSONUtility: the Faunus GraphSON line codec, modelled and proved in Dafny

Faunus stores a graph as text with one JSON object per line. A line holds one vertex with its
identifier (`_id`), its properties, and two arrays of incident edges: `outE` and `inE`. Inside
the array for one direction, an edge object names only the far endpoint (`_inV` for an out-edge,
`_outV` for an in-edge). The near endpoint is the vertex itself. `JSONUtility` converts between
such a record and a `FaunusVertex` holding a property map and two ordered edge lists.

This project models that class in Dafny. JSON is a tree datatype (null, booleans, integers,
strings, arrays and objects), and a Java `long` is the subset type `I64`. A vertex is a `class`
whose `props`, `outEdges` and `inEdges` fields change as the Java object's do, and an edge refers
to its endpoints by object identity.

Each codec method (fromJSON(String), fromJSONEdges, toJSON, the two line drivers, createVertex
and createEdge) is a Dafny method that changes state as the Java code does, with the same loops.
`convertIdentifier`, which only computes a value, is the function `ConvertIdentifier`.
Each method is proved against a functional specification: `Decode` and `DecodeEdges` for the
reader, `Encode` and `EncodeEdges` for the writer, and `DecodeAll` and `EncodeAll` for the line
drivers. The proved properties are stated about those functions:

- The identifier normaliser `convertIdentifier` parses decimal text and falls back to -1 without
  an error.
- Direction matters when reading edges. The decoded vertex is the near endpoint of every edge,
  and each edge gets its own new stub vertex as the far endpoint.
- Edges are kept in array order, and one non-object slot fails the whole record.
- The writer drops `_type` and makes `_id` numeric. It writes an edge array only for a direction
  that has edges, and each edge object lacks the near endpoint's key.
- The line drivers keep line order, and the first failing line aborts the whole read.
- Reading back what was written gives the vertex again. That holds for every vertex the reader
  can produce.

The writer calls `Long.valueOf(id.toString())` on the vertex identifier and on each edge
identifier. That call fails only on text that is not a `long`. Identifiers here are `long`s, so
`EncodeOk` proves toJSON never fails. `Encoder.ToJson` therefore returns the record without a
failure case, while `LongValueOf` still models the failing call.

Files:

- `results.dfy`: Option, Result and `Traverse`, which maps a fallible function over a sequence.
- `json_tree.dfy`: the JSON tree.
- `long.dfy`: Java `long`, `Long.toString` and `Long.parseLong`.
- `graph.dfy`: the vertex and edge classes and their value views.
- `identifier.dfy`: the element factory, including `convertIdentifier`.
- `graphson.dfy`: the assumed behaviour of the Blueprints GraphSON library.
- `decoder.dfy`: `fromJSON(String)` and `fromJSONEdges`.
- `encoder.dfy`: `toJSON`.
- `streams.dfy`: `fromJSON(InputStream)` and `generateGraphSON`.
- `round_trip.dfy`: the round-trip theorems.

The GraphSON library is not part of this model. `graphson.dfy` writes its behaviour down as
explicit definitions, and these are assumptions:

- Reading copies every key that is neither reserved (`_id`, `_type`, `_label`, `_outV`, `_inV`)
  nor in the ignore set.
- A null ignore set filters only the reserved keys.
- Writing an element emits its properties plus `_id` and `_type`. An edge also gets `_outV`,
  `_inV` and `_label`, which override properties of the same name.
- `optLong` yields a number that fits in a `long`, or the value of numeric text that `parseLong`
  accepts. It yields 0 for an absent key and for any other value.

The model follows the code in three places where a reader might expect otherwise (skipping a bad
slot, a line number in the error, symmetric ignore sets):

- An edge-array slot that is not an object makes the whole record fail. It is not skipped.
- A failure carries no line number.
- The OUT branch of `fromJSONEdges` builds an ignore set but passes Java null. `EdgeIgnore` keeps
  that asymmetry, and `EdgeIgnoreHarmless` shows it changes nothing, because the keys involved
  are reserved anyway.

In the table, every source is `src/main/java/com/thinkaurelius/faunus/formats/json/JSONUtility.java`.

## Model

| member | source | states |
|---|---|---|
| Long.ParseLong | src/main/java/com/thinkaurelius/faunus/formats/json/JSONUtility.java:165 | `Long.parseLong`: an optional sign, then one or more ASCII digits whose value fits in a long; any other text throws (None). ParseShowInt, ParseLongRejects and ParseLongRejectsEmpty state its behaviour |
| Long.ShowInt | src/main/java/com/thinkaurelius/faunus/formats/json/JSONUtility.java:165 | the text `id.toString()` gives for a numeric id (`Long.toString`): a minus sign before the digits of a negative number, no leading zeros; ParseShowInt shows parseLong reads it back exactly for the numbers in long range |
| Long.ParseShowInt | src/main/java/com/thinkaurelius/faunus/formats/json/JSONUtility.java:165 | parseLong of the decimal text of n is n exactly when n fits in a long, else it throws |
| Long.ParseLongRejects | src/main/java/com/thinkaurelius/faunus/formats/json/JSONUtility.java:165-167 | text with a character that is neither a digit nor a leading sign is rejected |
| Long.ParseLongRejectsEmpty | src/main/java/com/thinkaurelius/faunus/formats/json/JSONUtility.java:165-167 | the empty text and a lone sign are rejected |
| Identifier.ParsedText | src/main/java/com/thinkaurelius/faunus/formats/json/JSONUtility.java:165 | only a string or a number can have a text that parses as a long |
| Identifier.ConvertIdentifier | src/main/java/com/thinkaurelius/faunus/formats/json/JSONUtility.java:161-171 | null gives -1; a value whose text parses as a long gives that long; any other value gives -1 |
| Identifier.ConvertPlusText | src/main/java/com/thinkaurelius/faunus/formats/json/JSONUtility.java:165 | decimal text with a leading `+` gives its value, as `Long.parseLong` accepts it |
| Identifier.ConvertNumber | src/main/java/com/thinkaurelius/faunus/formats/json/JSONUtility.java:161-171 | a number keeps its value when it fits in 64 bits and becomes -1 otherwise |
| Identifier.ConvertDecimalText | src/main/java/com/thinkaurelius/faunus/formats/json/JSONUtility.java:161-171 | decimal text, signed or not, gives its value when it fits and -1 on overflow |
| Identifier.ConvertNonDecimal | src/main/java/com/thinkaurelius/faunus/formats/json/JSONUtility.java:164-168 | text with a stray character gives -1 and raises no error |
| Identifier.ConvertNonScalar | src/main/java/com/thinkaurelius/faunus/formats/json/JSONUtility.java:163-168 | JSON null, arrays and objects give -1 |
| Identifier.ConvertDecimalExamples | src/main/java/com/thinkaurelius/faunus/formats/json/JSONUtility.java:161-171 | 42, "42", "+42" and "-7" convert to their values |
| Identifier.ConvertFallbackExamples | src/main/java/com/thinkaurelius/faunus/formats/json/JSONUtility.java:161-171 | "abc", "42.0", "" and "-" give -1, so a genuine -1 cannot be told from a missing identifier |
| Identifier.CreateVertex | src/main/java/com/thinkaurelius/faunus/formats/json/JSONUtility.java:157-159 | a new vertex with the normalised identifier, no properties and no edges |
| Identifier.CreateEdge | src/main/java/com/thinkaurelius/faunus/formats/json/JSONUtility.java:148-154 | a new edge with the normalised identifier, the label and exactly the given endpoint objects |
| Graph.Vertex.constructor | src/main/java/com/thinkaurelius/faunus/formats/json/JSONUtility.java:89 | `new FaunusVertex(id)` carries the id and nothing else |
| Graph.Vertex.AddEdge | src/main/java/com/thinkaurelius/faunus/formats/json/JSONUtility.java:98-99 | appends to the list for the given direction and leaves the other list and the properties alone |
| Graph.Edge.constructor | src/main/java/com/thinkaurelius/faunus/formats/json/JSONUtility.java:153 | the edge holds the given identifier, label and endpoint objects |
| GraphSON.ElementProps | src/main/java/com/thinkaurelius/faunus/formats/json/JSONUtility.java:63 | the assumed property reading of `vertexFromJson` and `edgeFromJSON`: every key that is not reserved and not in the ignore set, with its value; a null ignore set filters only the reserved keys |
| GraphSON.LabelOf | src/main/java/com/thinkaurelius/faunus/formats/json/JSONUtility.java:89-94 | the assumed label reading of `edgeFromJSON`: Java null when `_label` is absent, otherwise the text of the value |
| GraphSON.OptLong | src/main/java/com/thinkaurelius/faunus/formats/json/JSONUtility.java:87-92 | `optLong` of `_outV` / `_inV`: an in-range number, or numeric text that parseLong accepts; 0 for an absent key or any other value |
| GraphSON.VertexJson | src/main/java/com/thinkaurelius/faunus/formats/json/JSONUtility.java:107 | the assumed `jsonFromElement` of a vertex: its properties with `_id` and `_type` put over them |
| GraphSON.EdgeJson | src/main/java/com/thinkaurelius/faunus/formats/json/JSONUtility.java:116 | the assumed `jsonFromElement` of an edge: its properties with `_id`, `_type`, `_outV`, `_inV` and `_label` put over them; a null label leaves no `_label` key; also used at line 130 |
| GraphSON.VertexFromJson | src/main/java/com/thinkaurelius/faunus/formats/json/JSONUtility.java:63 | a new vertex: normalised `_id`, and properties that are the non-reserved keys outside the ignore set |
| GraphSON.EdgeFromJson | src/main/java/com/thinkaurelius/faunus/formats/json/JSONUtility.java:89-94 | a new edge between the given vertices, with the normalised `_id`, the label, and the properties after the given (possibly null) ignore set |
| Decoder.EdgeSlots | src/main/java/com/thinkaurelius/faunus/formats/json/JSONUtility.java:65-78 | `optJSONArray` plus the null test of fromJSONEdges: the slots of an array value, and none when the key is absent or holds no array |
| Decoder.EdgeIgnore | src/main/java/com/thinkaurelius/faunus/formats/json/JSONUtility.java:82-95 | the ignore set each branch passes: `_type` and `_inV` for IN, Java null for OUT; EdgeIgnoreHarmless shows both read the same properties |
| Decoder.DecodeEdge | src/main/java/com/thinkaurelius/faunus/formats/json/JSONUtility.java:80-96 | one slot of edges for direction `d`: a non-object slot fails (the NPE at 87/92); otherwise the near end is the record's vertex and the far end is optLong of the far key. DecodeEdgeEndpoints and DecodeEdgesAt state it |
| Decoder.Decode | src/main/java/com/thinkaurelius/faunus/formats/json/JSONUtility.java:55-75 | fromJSON(String) as a value: a line that is not an object fails; otherwise the vertex with the normalised `_id`, the properties outside the ignore set and both decoded edge arrays. DecodeRecord and DecodeShape state it, and FromJson is proved against it |
| Decoder.DecodeEdges | src/main/java/com/thinkaurelius/faunus/formats/json/JSONUtility.java:77-103 | fromJSONEdges as a value: the slots decoded in index order, failing at the first non-object slot; DecodeEdgesOk and DecodeEdgesAt state it, and FromJsonEdges and FromJsonSlot are proved against it |
| Decoder.DecodeEdgesOk | src/main/java/com/thinkaurelius/faunus/formats/json/JSONUtility.java:79-80 | an edge array decodes if and only if every slot is an object, and then to exactly one edge per slot |
| Decoder.DecodeEdgesAt | src/main/java/com/thinkaurelius/faunus/formats/json/JSONUtility.java:79-99 | edge k of a decoded array is the edge of slot k: array order is kept |
| Decoder.DecodeEdgeEndpoints | src/main/java/com/thinkaurelius/faunus/formats/json/JSONUtility.java:86-94 | for IN the in-end is the record's vertex and the out-end is `_outV`; for OUT the roles swap and the far end is `_inV` |
| Decoder.EdgeIgnoreHarmless | src/main/java/com/thinkaurelius/faunus/formats/json/JSONUtility.java:82-95 | the null ignore set of the OUT branch reads the same properties as the sets either branch builds |
| Decoder.DecodeRecord | src/main/java/com/thinkaurelius/faunus/formats/json/JSONUtility.java:55-80 | a record decodes if and only if every slot of both arrays is an object; the vertex gets the normalised `_id` |
| Decoder.DecodeShape | src/main/java/com/thinkaurelius/faunus/formats/json/JSONUtility.java:59-69 | `outE`, `inE` and `_type` never become properties; every other non-reserved key does, with its value; edge counts equal array lengths; an absent array gives no edges |
| Decoder.DecodeNonObject | src/main/java/com/thinkaurelius/faunus/formats/json/JSONUtility.java:57 | a line that is not a JSON object is rejected |
| Decoder.FromJsonEdge | src/main/java/com/thinkaurelius/faunus/formats/json/JSONUtility.java:80-100 | adds exactly one new edge to the list for `d`, whose near end is the vertex itself and whose far end is a new stub; its view is the slot's decoding |
| Decoder.FromJsonSlot | src/main/java/com/thinkaurelius/faunus/formats/json/JSONUtility.java:79-101 | one loop pass: the decoded prefix of the array grows by the new edge, and every far end stays a stub distinct from the vertex |
| Decoder.FromJsonEdges | src/main/java/com/thinkaurelius/faunus/formats/json/JSONUtility.java:77-103 | succeeds exactly when the array decodes; then appends one edge per slot in order, each with its own new stub as far end |
| Decoder.FromJsonEdgeArrays | src/main/java/com/thinkaurelius/faunus/formats/json/JSONUtility.java:65-69 | all `outE` edges, then all `inE` edges; the lists' views are the decoded arrays; no two edges share a far stub |
| Decoder.FromJson | src/main/java/com/thinkaurelius/faunus/formats/json/JSONUtility.java:55-75 | returns a vertex exactly when the record decodes, the new vertex's view being that decoding; the far ends are distinct new stubs |
| Encoder.LongValueOf | src/main/java/com/thinkaurelius/faunus/formats/json/JSONUtility.java:110 | `Long.valueOf(id.toString())` on the removed value: Java null and text that is not a long fail; LongValueOfAgrees relates it to convertIdentifier; also used at lines 118 and 132 |
| Encoder.EncodeEdge | src/main/java/com/thinkaurelius/faunus/formats/json/JSONUtility.java:116-120 | one edge object of the array: jsonFromElement, `_id` put back as a long, `_type` and the near key removed. EncodeEdgeObject, EncodeEdgeFields and EncodeEdgeProps state it; the IN branch at 130-134 is the same with `d` = In |
| Encoder.WithEdges | src/main/java/com/thinkaurelius/faunus/formats/json/JSONUtility.java:112-138 | the edge array of one direction is put only when that direction has an edge; WithEdgesSpec states it |
| Encoder.Encode | src/main/java/com/thinkaurelius/faunus/formats/json/JSONUtility.java:105-144 | toJSON as a value: the vertex object without `_type`, a numeric `_id`, then the out-edge and in-edge arrays. EncodeOk, EncodeVertexFields and EncodeEdgeArrays state it, and ToJson is proved against it |
| Encoder.LongValueOfAgrees | src/main/java/com/thinkaurelius/faunus/formats/json/JSONUtility.java:110 | Long.valueOf of the removed value succeeds exactly where convertIdentifier would not fall back, with the same number; Java null fails |
| Encoder.LongValueOfNumber | src/main/java/com/thinkaurelius/faunus/formats/json/JSONUtility.java:118 | a long written as a number is read back by Long.valueOf unchanged |
| Encoder.EncodeEdgeOk | src/main/java/com/thinkaurelius/faunus/formats/json/JSONUtility.java:116-118 | the per-edge Long.valueOf never fails |
| Encoder.EncodeEdgeObject | src/main/java/com/thinkaurelius/faunus/formats/json/JSONUtility.java:116-120 | an edge object is the element object less `_type` and the near endpoint's key |
| Encoder.EncodeEdgeFields | src/main/java/com/thinkaurelius/faunus/formats/json/JSONUtility.java:116-134 | no `_type`; `_outV` absent for out-edges and `_inV` for in-edges; numeric `_id`; far endpoint id and label kept |
| Encoder.EncodeEdgeProps | src/main/java/com/thinkaurelius/faunus/formats/json/JSONUtility.java:116-120 | every non-reserved property of the edge is kept and no other key appears |
| Encoder.EncodeEdges | src/main/java/com/thinkaurelius/faunus/formats/json/JSONUtility.java:114-122 | the edge-array loop of toJSON as a value: one edge object per edge in list order (the IN loop at 128-136 is the same with `d` = In); EncodeEdgesOk and EncodeEdgesAt state it, and EdgeArray is proved against it |
| Encoder.EncodeEdgesOk | src/main/java/com/thinkaurelius/faunus/formats/json/JSONUtility.java:114-122 | an edge array always encodes, to one object per edge |
| Encoder.EncodeEdgesAt | src/main/java/com/thinkaurelius/faunus/formats/json/JSONUtility.java:115-121 | array element k is the object of edge k: list order is kept |
| Encoder.WithEdgesSpec | src/main/java/com/thinkaurelius/faunus/formats/json/JSONUtility.java:113-124 | the array is put only when there is an edge; otherwise the object is unchanged |
| Encoder.EncodeOk | src/main/java/com/thinkaurelius/faunus/formats/json/JSONUtility.java:105-144 | toJSON never fails |
| Encoder.EncodeVertexFields | src/main/java/com/thinkaurelius/faunus/formats/json/JSONUtility.java:107-110 | no `_type`; `_id` is the vertex id as a number; other properties keep their values; no keys beyond `_id`, the properties and the two array keys |
| Encoder.EncodeEdgeArrays | src/main/java/com/thinkaurelius/faunus/formats/json/JSONUtility.java:112-138 | `outE` (`inE`) holds the encoded array exactly when there is an out-edge (in-edge); an edgeless direction leaves its key as the properties had it |
| Encoder.EdgeObject | src/main/java/com/thinkaurelius/faunus/formats/json/JSONUtility.java:116-120 | the remove/put edits of one edge give exactly the specified edge object; the IN branch at 130-134 is the same with `d` = In |
| Encoder.EdgeArray | src/main/java/com/thinkaurelius/faunus/formats/json/JSONUtility.java:114-122 | the loop builds exactly the encoded array of the edge list |
| Encoder.ToJson | src/main/java/com/thinkaurelius/faunus/formats/json/JSONUtility.java:105-144 | the edited object is exactly the encoding of the vertex's view |
| Streams.DecodeAll | src/main/java/com/thinkaurelius/faunus/formats/json/JSONUtility.java:43-53 | fromJSON(InputStream) as a value: each line decoded in order, failing at the first line that fails; DecodeAllSpec and DecodeAllPrefixFailure state it |
| Streams.EncodeAll | src/main/java/com/thinkaurelius/faunus/formats/json/JSONUtility.java:174-180 | generateGraphSON as a value: toJSON of each vertex in order; EncodeAllSpec states it |
| Streams.DecodeAllSpec | src/main/java/com/thinkaurelius/faunus/formats/json/JSONUtility.java:43-53 | the stream decodes if and only if every line does; then vertex k is line k's decoding |
| Streams.DecodeAllPrefixFailure | src/main/java/com/thinkaurelius/faunus/formats/json/JSONUtility.java:47-48 | once a prefix of lines fails, the whole read fails whatever follows |
| Streams.EncodeAllSpec | src/main/java/com/thinkaurelius/faunus/formats/json/JSONUtility.java:176-178 | one record per vertex in iteration order, record k being toJSON of vertex k |
| Streams.FromJsonLine | src/main/java/com/thinkaurelius/faunus/formats/json/JSONUtility.java:47-48 | one line: the decoded prefix grows by that line's vertex, which is newly allocated |
| Streams.FromJsonLines | src/main/java/com/thinkaurelius/faunus/formats/json/JSONUtility.java:43-53 | succeeds exactly when every line decodes; the list's views are the decodings in line order, one distinct, newly allocated vertex per line |
| Streams.GenerateRecord | src/main/java/com/thinkaurelius/faunus/formats/json/JSONUtility.java:177 | one vertex: the written records grow by its toJSON |
| Streams.GenerateGraphSON | src/main/java/com/thinkaurelius/faunus/formats/json/JSONUtility.java:174-180 | the records written are the encodings of the vertices, in order |
| RoundTrip.EdgeRoundTrip | src/main/java/com/thinkaurelius/faunus/formats/json/JSONUtility.java:86-94 | decoding an encoded edge in its direction, for its near vertex, gives the edge back |
| RoundTrip.EdgesRoundTrip | src/main/java/com/thinkaurelius/faunus/formats/json/JSONUtility.java:77-103 | decoding an encoded edge array gives the edges back in order |
| RoundTrip.RoundTrip | src/main/java/com/thinkaurelius/faunus/formats/json/JSONUtility.java:105-144 | fromJSON(toJSON(v)) has v's view, for a vertex that fits (properties avoid the GraphSON keys, edges listed under their near vertex) |
| RoundTrip.DecodedFits | src/main/java/com/thinkaurelius/faunus/formats/json/JSONUtility.java:55-75 | every decoded vertex fits, so writing it and reading it back gives the same vertex |

## Left out

- Reading and writing text is not modelled: the BufferedReader and BufferedWriter, closing them, and the `"\n"` after each record. A line is the JSON tree the tokenizer made of it, with `None` for text it rejects. A record written is the object before serialisation.
- The JSON tokenizer and serialiser (JSONTokener, JSONObject.toString) are not modelled.
- Numbers are integers only. Floating-point JSON values are not modelled, so `"42.0"` appears only as a string.
- `Long.parseLong` is modelled for ASCII digits only. Other Unicode decimal digits, which Java also accepts, are out.
- `optLong` is reduced to exact values: a number in range, or numeric text parsed by `parseLong`, and 0 otherwise. Jettison's rounding of fractional values is out.
- A label whose value is an array or an object reads as absent. Its text would be Jettison's serialiser output.
- Every Java exception (IOException, JSONException, NumberFormatException, NullPointerException) is the single result `Fail`. toJSON's `catch` of JSONException alone does not matter, because toJSON never fails here.
- An edge is immutable, and its properties are given at construction. GraphSON sets them right after `createEdge`, and nothing in this class changes them later.
- The order of `Graph.getVertices()` is not modelled. generateGraphSON takes the vertices as a sequence.
- FaunusVertex and FaunusEdge internals other than the identifier, properties, label, endpoints and the two edge lists are left out.
- Decoder.FromJsonEdgeArrays: requires both edge lists to be empty. It is called only on the vertex vertexFromJson has just created.
- Encoder.EncodeOk: identifiers are typed as Java `long`s, so the Long.valueOf failure of toJSON (lines 110, 118 and 132) cannot happen here. A Blueprints vertex or edge whose identifier is not a `long` is not modelled. `LongValueOf` still models the failing call.
- Encoder.EncodeVertexFields: states a numeric `_id` for `long` identifiers only, for the same reason.
