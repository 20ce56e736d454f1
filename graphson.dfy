/** The Blueprints GraphSON library is not part of this model.  This module writes down, as plain
    definitions, the behaviour the codec relies on; each is an assumption about that library:
    - reading copies every property key that is not reserved and not in the caller's ignore set
      (a null ignore set filters nothing beyond the reserved keys);
    - a vertex's identifier goes through the factory's createVertex, an edge's identifier, label
      and endpoints through createEdge;
    - writing an element emits its properties, then `_id` and `_type`, and for an edge also
      `_outV`, `_inV` and `_label`, which override properties of the same name. */
module GraphSON {
  import opened Results
  import opened JsonTree
  import opened Long
  import opened Graph
  import opened Identifier

  // GraphSONTokens
  const Id := "_id"
  const Type := "_type"
  const Label := "_label"
  const OutV := "_outV"
  const InV := "_inV"
  const VertexType := "vertex"
  const EdgeType := "edge"

  /** The keys GraphSON never reads as properties. */
  const Reserved: set<string> := {Id, Type, Label, OutV, InV}

  /** The properties read from an element object, after the ignore set. */
  function ElementProps(obj: Object, ignore: Option<set<string>>): Object {
    map k | k in obj && k !in Reserved && (ignore.None? || k !in ignore.value) :: obj[k]
  }

  /** The label read from an edge object: Java null when absent, else the value's text.  The text
      of an array or an object is Jettison's serialiser, which is not modelled; such a label reads
      as absent. */
  function LabelOf(obj: Object): Option<string> {
    if Label !in obj then None
    else
      match obj[Label]
      case JStr(s) => Some(s)
      case JNum(n) => Some(ShowInt(n))
      case JNull => Some("null")
      case JBool(b) => Some(if b then "true" else "false")
      case _ => None
  }

  /** JSONObject.optLong(key): the value as a `long`, or 0 when it is absent or cannot be read as
      one.  Jettison's coercion of fractional numbers and numeric text is reduced to exact values. */
  function OptLong(obj: Object, key: string): I64 {
    if key !in obj then 0
    else
      match obj[key]
      case JNum(n) => if InLong(n) then n else 0
      case JStr(s) => ParseLong(s).GetOr(0)
      case _ => 0
  }

  /** jsonFromElement for a vertex. */
  function VertexJson(id: I64, props: Object): Object {
    props[Id := JNum(id)][Type := JStr(VertexType)]
  }

  /** jsonFromElement for an edge; a null label removes the key, as JSONObject.put(key, null) does. */
  function EdgeJson(e: EdgeView): Object {
    var obj := e.props[Id := JNum(e.id)][Type := JStr(EdgeType)][OutV := JNum(e.outId)][InV := JNum(e.inId)];
    if e.edgeLabel.Some? then obj[Label := JStr(e.edgeLabel.value)] else obj - {Label}
  }

  /** vertexFromJson(json, factory, false, ignore). */
  method VertexFromJson(obj: Object, ignore: set<string>) returns (v: Vertex)
    ensures fresh(v) && v.id == ConvertIdentifier(Opt(obj, Id))
    ensures v.props == ElementProps(obj, Some(ignore)) && v.outEdges == [] && v.inEdges == []
  {
    v := CreateVertex(Opt(obj, Id));
    v.props := ElementProps(obj, Some(ignore));
  }

  /** edgeFromJSON(json, out, in, factory, false, ignore); the ignore set may be Java null. */
  method EdgeFromJson(obj: Object, outV: Vertex, inV: Vertex, ignore: Option<set<string>>) returns (e: Edge)
    ensures fresh(e) && e.outV == outV && e.inV == inV
    ensures e.View() == EdgeView(ConvertIdentifier(Opt(obj, Id)), LabelOf(obj), ElementProps(obj, ignore), outV.id, inV.id)
  {
    e := CreateEdge(Opt(obj, Id), outV, inV, LabelOf(obj), ElementProps(obj, ignore));
  }
}
