/** The static `list_servers` tool descriptor that the list-tools handler
    advertises, and what its input schema admits under JSON Schema's
    `type`, `properties`, `maximum` and `required` keywords. */
module Descriptor {
  import opened Json

  datatype PropertySchema = PropertySchema(jsonType: string, description: string, maximum: Option<real>)

  /** `properties` keeps the order of the object literal it models. */
  datatype InputSchema = InputSchema(schemaType: string, properties: seq<(string, PropertySchema)>, required: seq<string>)

  datatype Tool = Tool(name: string, description: string, inputSchema: InputSchema)

  const TOOL_NAME := "list_servers"

  const MAX_COUNT_PER_PAGE: real := 5000.0

  /** The one tool, built once and never changed. Its schema lists no
      required properties (the literal has no `required` entry). */
  const LIST_SERVERS: Tool :=
    Tool(
      TOOL_NAME,
      "List MCP servers with optional filtering",
      InputSchema(
        "object",
        [ ("query", PropertySchema("string", "Search term to filter servers", None)),
          ("count_per_page", PropertySchema("number", "Number of results per page (maximum: 5000)", Some(MAX_COUNT_PER_PAGE))),
          ("offset", PropertySchema("number", "Number of results to skip for pagination", None)) ],
        []))

  /** The reply to a list-tools request: exactly this one descriptor. */
  function ListTools(): (tools: seq<Tool>)
    ensures tools == [LIST_SERVERS]
    ensures |tools| == 1 && tools[0].name == TOOL_NAME
  {
    [LIST_SERVERS]
  }

  /** The sub-schema a schema declares for property `k`, if any: the first
      entry with that name. (An object literal would keep the last one; the
      descriptor's property names are distinct, so the two agree there.) */
  function Lookup(props: seq<(string, PropertySchema)>, k: string): (r: Option<PropertySchema>)
    ensures r.None? <==> forall i :: 0 <= i < |props| ==> props[i].0 != k
    ensures r.Some? ==> exists i :: 0 <= i < |props| && props[i] == (k, r.value) && forall j :: 0 <= j < i ==> props[j].0 != k
    decreases |props|
  {
    if props == [] then None
    else if props[0].0 == k then Some(props[0].1)
    else Lookup(props[1..], k)
  }

  /** JSON Schema on one property value: the declared type, and for numbers
      the inclusive `maximum`. */
  predicate PropertyAdmits(p: PropertySchema, x: Value) {
    && JsonType(x) == p.jsonType
    && (p.maximum.Some? && x.Num? ==> x.n <= p.maximum.value)
  }

  /** JSON Schema `properties`: every declared property that is present
      satisfies its sub-schema; undeclared properties are allowed. */
  predicate PropertiesAdmit(props: seq<(string, PropertySchema)>, v: Value)
    decreases |props|
  {
    props == [] ||
    ((Has(v, props[0].0) ==> PropertyAdmits(props[0].1, Get(v, props[0].0))) && PropertiesAdmit(props[1..], v))
  }

  /** Whether a schema-enforcing caller would consider `v` valid input. */
  predicate Admits(s: InputSchema, v: Value) {
    && JsonType(v) == s.schemaType
    && PropertiesAdmit(s.properties, v)
    && forall i :: 0 <= i < |s.required| ==> Has(v, s.required[i])
  }

  /** The declared property types read with JavaScript's `typeof`, on a
      non-null `typeof`-object, with every bound and `required` dropped. */
  predicate HasDeclaredTypes(s: InputSchema, v: Value) {
    && TypeOf(v) == "object" && v != Null
    && forall i :: 0 <= i < |s.properties| && Has(v, s.properties[i].0) ==>
         TypeOf(Get(v, s.properties[i].0)) == s.properties[i].1.jsonType
  }

  /** Types on which JSON Schema's `type` and JavaScript's `typeof` agree. */
  predicate SharedTypeName(t: string) {
    t in {"string", "number", "boolean", "object"}
  }

  lemma {:induction false} PropertiesAdmitAt(props: seq<(string, PropertySchema)>, v: Value, i: nat)
    requires PropertiesAdmit(props, v)
    requires i < |props| && Has(v, props[i].0)
    ensures PropertyAdmits(props[i].1, Get(v, props[i].0))
    decreases i
  {
    if i > 0 {
      PropertiesAdmitAt(props[1..], v, i - 1);
    }
  }

  /** Whatever an object schema over shared type names admits already has
      the declared `typeof` types: the schema is at least as strict. */
  lemma AdmittedHasDeclaredTypes(s: InputSchema, v: Value)
    requires s.schemaType == "object"
    requires forall i :: 0 <= i < |s.properties| ==> SharedTypeName(s.properties[i].1.jsonType)
    requires Admits(s, v)
    ensures HasDeclaredTypes(s, v)
  {
    forall i | 0 <= i < |s.properties| && Has(v, s.properties[i].0)
      ensures TypeOf(Get(v, s.properties[i].0)) == s.properties[i].1.jsonType
    {
      PropertiesAdmitAt(s.properties, v, i);
    }
  }

  /** What the advertised schema declares: the three optional properties
      with their types, the bound 5000 on `count_per_page` only, and no
      required property. */
  lemma AdvertisedSchema()
    ensures LIST_SERVERS.inputSchema.schemaType == "object"
    ensures LIST_SERVERS.inputSchema.required == []
    ensures Lookup(LIST_SERVERS.inputSchema.properties, "query").Some?
    ensures Lookup(LIST_SERVERS.inputSchema.properties, "query").value.jsonType == "string"
    ensures Lookup(LIST_SERVERS.inputSchema.properties, "query").value.maximum == None
    ensures Lookup(LIST_SERVERS.inputSchema.properties, "count_per_page").Some?
    ensures Lookup(LIST_SERVERS.inputSchema.properties, "count_per_page").value.jsonType == "number"
    ensures Lookup(LIST_SERVERS.inputSchema.properties, "count_per_page").value.maximum == Some(5000.0)
    ensures Lookup(LIST_SERVERS.inputSchema.properties, "offset").Some?
    ensures Lookup(LIST_SERVERS.inputSchema.properties, "offset").value.jsonType == "number"
    ensures Lookup(LIST_SERVERS.inputSchema.properties, "offset").value.maximum == None
    ensures forall i :: 0 <= i < |LIST_SERVERS.inputSchema.properties| ==>
              LIST_SERVERS.inputSchema.properties[i].0 in {"query", "count_per_page", "offset"}
  {
    var props := LIST_SERVERS.inputSchema.properties;
    assert Lookup(props[2..], "offset") == Some(props[2].1);
    assert Lookup(props[1..], "offset") == Lookup(props[2..], "offset");
  }
}
