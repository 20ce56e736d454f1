/** FaunusElementFactory: the identifier normaliser and the two creation hooks GraphSON calls. */
module Identifier {
  import opened Results
  import opened JsonTree
  import opened Long
  import opened Graph

  /** What `Long.parseLong(j.toString())` gives for a JSON value, `None` where it throws. */
  function ParsedText(j: Json): (r: Option<I64>)
    ensures r.Some? ==> j.JStr? || j.JNum?
  {
    match j
    case JStr(s) => ParseLong(s)
    case JNum(n) => ParseLong(ShowInt(n))
    // JSONObject.NULL writes "null", a boolean "true" or "false"; arrays and objects write text
    // that starts with '[' or '{'.
    // parseLong accepts none of these.
    case _ => None
  }

  /** `convertIdentifier`: the parsed text of the value, or the sentinel -1 when the value is
      Java null or its text is not a `long`.  Never throws. */
  function ConvertIdentifier(id: Option<Json>): (r: I64)
    ensures id.None? ==> r == -1
    ensures r == -1 || (id.Some? && ParsedText(id.value) == Some(r))
    ensures id.Some? && ParsedText(id.value).Some? ==> r == ParsedText(id.value).value
    ensures id.Some? && ParsedText(id.value).None? ==> r == -1
  {
    match id
    case None => -1
    case Some(j) => ParsedText(j).GetOr(-1)
  }

  /** `createVertex`: a vertex carrying the normalised identifier and nothing else. */
  method CreateVertex(id: Option<Json>) returns (v: Vertex)
    ensures fresh(v) && v.id == ConvertIdentifier(id) && IsStub(v)
  {
    v := new Vertex(ConvertIdentifier(id));
  }

  /** `createEdge`: an edge with the normalised identifier between the given vertices, here
      together with the properties GraphSON sets on it right afterwards.  The Java check that both
      endpoints are FaunusVertex objects always passes, by typing. */
  method CreateEdge(id: Option<Json>, outV: Vertex, inV: Vertex, edgeLabel: Option<string>, props: Object)
    returns (e: Edge)
    ensures fresh(e) && e.id == ConvertIdentifier(id) && e.edgeLabel == edgeLabel
    ensures e.outV == outV && e.inV == inV && e.props == props
  {
    e := new Edge(ConvertIdentifier(id), outV, inV, edgeLabel, props);
  }

  /** A number keeps its value exactly when it fits in a `long`; otherwise it becomes -1. */
  lemma ConvertNumber(n: int)
    ensures ConvertIdentifier(Some(JNum(n))) == if InLong(n) then n else -1
  {
    ParseShowInt(n);
  }

  /** The decimal text of a number (with a sign when negative) converts like the number. */
  lemma ConvertDecimalText(n: int)
    ensures ConvertIdentifier(Some(JStr(ShowInt(n)))) == if InLong(n) then n else -1
  {
    ParseShowInt(n);
  }

  /** Decimal text with an explicit plus sign converts to its value as well. */
  lemma ConvertPlusText(n: nat)
    requires n <= MaxLong
    ensures ConvertIdentifier(Some(JStr("+" + ShowNat(n)))) == n
  {
    ShowNatValue(n);
    assert Unsigned("+" + ShowNat(n)) == ShowNat(n);
  }

  /** Text with a character that is neither a digit nor a leading sign becomes -1, silently. */
  lemma ConvertNonDecimal(s: string, i: nat)
    requires i < |s| && !IsDigit(s[i])
    requires i > 0 || !IsSign(s[0])
    ensures ConvertIdentifier(Some(JStr(s))) == -1
  {
    ParseLongRejects(s, i);
  }

  /** Null, booleans, arrays and objects always become -1. */
  lemma ConvertNonScalar(j: Json)
    requires j.JNull? || j.JBool? || j.JArr? || j.JObj?
    ensures ConvertIdentifier(Some(j)) == -1
  {
  }

  /** Decimal texts with and without a sign. */
  lemma ConvertDecimalExamples()
    ensures ConvertIdentifier(Some(JNum(42))) == 42
    ensures ConvertIdentifier(Some(JStr("42"))) == 42
    ensures ConvertIdentifier(Some(JStr("+42"))) == 42
    ensures ConvertIdentifier(Some(JStr("-7"))) == -7
  {
    ConvertNumber(42);
    assert Unsigned("+42") == "42";
    assert Unsigned("-7") == "7";
  }

  /** Malformed texts all become -1, and so alias the genuine identifier -1 and a missing one. */
  lemma ConvertFallbackExamples()
    ensures ConvertIdentifier(Some(JStr("abc"))) == -1
    ensures ConvertIdentifier(Some(JStr("42.0"))) == -1
    ensures ConvertIdentifier(Some(JStr(""))) == -1
    ensures ConvertIdentifier(Some(JStr("-"))) == -1
    ensures ConvertIdentifier(Some(JStr("-1"))) == ConvertIdentifier(None)
  {
    ConvertNonDecimal("abc", 0);
    ConvertNonDecimal("42.0", 2);
    assert Unsigned("-1") == "1";
  }
}
