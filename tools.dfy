/**
 * The tool registry: the metadata table naming each tool, its request model and
 * its description; the normalisation of a generated JSON schema into standard
 * JSON Schema; and the ordered list of tool definitions built from both. The
 * schema a request model generates is an input here (see `GeneratedSchemas`).
 */
module Tools {
  import opened Wrappers
  import opened Json

  datatype Model = ProjectContextModel | AnalyseProjectModel | GetFilesModel

  datatype ToolMetadata = ToolMetadata(name: string, model: Model, description: string)

  /** `TOOL_METADATA`, in its declaration order. */
  const ToolTable: seq<ToolMetadata> := [
    ToolMetadata("ctp-get-context", ProjectContextModel,
      "Generates a comprehensive, context-rich prompt from an entire codebase directory, applying filters and formatting options."),
    ToolMetadata("ctp-analyse-project", AnalyseProjectModel,
      "Provides a detailed statistical analysis of a codebase, including token counts, line counts, and breakdowns by file type."),
    ToolMetadata("ctp-get-files", GetFilesModel,
      "Retrieves the content of a specific list of files from the project, formatted into a prompt.")
  ]

  /** The schema each request model generates before normalisation. */
  datatype GeneratedSchemas = GeneratedSchemas(context: Json, analyse: Json, files: Json) {
    function Of(model: Model): Json {
      match model
      case ProjectContextModel => context
      case AnalyseProjectModel => analyse
      case GetFilesModel => files
    }
  }

  datatype ToolDefinition = ToolDefinition(name: string, description: string, schema: Json)

  /** A schema object whose `properties`, when present, map names to objects. */
  predicate WellFormedSchema(schema: Json) {
    && schema.JObj?
    && match Get(schema.fields, "properties")
       case None => true
       case Some(props) => props.JObj? && AllObjects(props.fields)
  }

  predicate AllObjects(fields: seq<Field>) {
    forall i :: 0 <= i < |fields| ==> fields[i].value.JObj?
  }

  /** A property carrying the non-standard `format: path` marker. */
  predicate IsPathProperty(prop: Json) {
    prop.JObj? && Get(prop.fields, "format") == Some(JStr("path"))
  }

  /** A path property becomes a plain string; any other property is kept as it is. */
  function NormalizedProperty(prop: Json): (r: Json)
    requires prop.JObj?
    ensures r.JObj? && !IsPathProperty(r)
    ensures IsPathProperty(prop) ==>
      && Get(r.fields, "type") == Some(JStr("string"))
      && !Has(r.fields, "format")
      && forall k :: k != "type" && k != "format" ==> Get(r.fields, k) == Get(prop.fields, k)
    ensures !IsPathProperty(prop) ==> r == prop
  {
    if IsPathProperty(prop) then JObj(Delete(Put(prop.fields, "type", JStr("string")), "format")) else prop
  }

  function NormalizedProperties(props: seq<Field>): (r: seq<Field>)
    requires AllObjects(props)
    ensures |r| == |props| && AllObjects(r)
    ensures forall i :: 0 <= i < |props| ==> r[i] == Field(props[i].key, NormalizedProperty(props[i].value))
  {
    seq(|props|, i requires 0 <= i < |props| => Field(props[i].key, NormalizedProperty(props[i].value)))
  }

  /** The specification of `pydantic_to_json_schema`. */
  function NormalizedSchema(schema: Json): Json
    requires WellFormedSchema(schema)
  {
    var top := Delete(Delete(schema.fields, "$defs"), "title");
    match Get(top, "properties")
    case None => JObj(top)
    case Some(props) => JObj(Put(top, "properties", JObj(NormalizedProperties(props.fields))))
  }

  /** `pydantic_to_json_schema`: the generated schema is edited in place and returned. */
  method PydanticToJsonSchema(schema: Json) returns (r: Json)
    requires WellFormedSchema(schema)
    ensures r == NormalizedSchema(schema)
  {
    var fields := schema.fields;
    if Has(fields, "$defs") {
      fields := Delete(fields, "$defs");
    }
    if Has(fields, "title") {
      fields := Delete(fields, "title");
    }
    assert fields == Delete(Delete(schema.fields, "$defs"), "title");
    assert Get(fields, "properties") == Get(schema.fields, "properties");
    var props := Get(fields, "properties");
    if props.Some? {
      var defs := NormalizePropertiesInPlace(props.value.fields);
      fields := Put(fields, "properties", JObj(defs));
    }
    r := JObj(fields);
  }

  /** The loop of `pydantic_to_json_schema` over the property definitions. */
  method NormalizePropertiesInPlace(original: seq<Field>) returns (defs: seq<Field>)
    requires AllObjects(original)
    ensures defs == NormalizedProperties(original)
  {
    defs := original;
    var i := 0;
    while i < |defs|
      invariant 0 <= i <= |defs| == |original|
      invariant forall j :: 0 <= j < i ==> defs[j] == Field(original[j].key, NormalizedProperty(original[j].value))
      invariant forall j :: i <= j < |defs| ==> defs[j] == original[j]
    {
      var propDef := defs[i].value;
      if Get(propDef.fields, "format") == Some(JStr("path")) {
        var updated := Put(propDef.fields, "type", JStr("string"));
        updated := Delete(updated, "format");
        assert JObj(updated) == NormalizedProperty(propDef);
        defs := defs[i := Field(defs[i].key, JObj(updated))];
      } else {
        assert propDef == NormalizedProperty(propDef);
      }
      i := i + 1;
    }
  }

  /** The top level loses `$defs` and `title`; every other key keeps its value and its position. */
  lemma NormalizedTopLevel(schema: Json)
    requires WellFormedSchema(schema)
    ensures var r := NormalizedSchema(schema);
      && r.JObj?
      && !Has(r.fields, "$defs") && !Has(r.fields, "title")
      && Keys(r.fields) == KeysWithout(KeysWithout(Keys(schema.fields), "$defs"), "title")
      && (Has(r.fields, "properties") <==> Has(schema.fields, "properties"))
      && forall k :: k != "$defs" && k != "title" && k != "properties" ==> Get(r.fields, k) == Get(schema.fields, k)
  {
    var top := Delete(Delete(schema.fields, "$defs"), "title");
    NormalizedKeys(schema);
    DeleteKeepsOrder(schema.fields, "$defs");
    DeleteKeepsOrder(Delete(schema.fields, "$defs"), "title");
    assert Get(top, "$defs") == None && Get(top, "title") == None;
    assert Get(top, "properties") == Get(schema.fields, "properties");
    var r := NormalizedSchema(schema);
    assert Get(r.fields, "$defs") == None && Get(r.fields, "title") == None;
  }

  /** Cleaning keeps the keys left after the two deletions, in place. */
  lemma NormalizedKeys(schema: Json)
    requires WellFormedSchema(schema)
    ensures Keys(NormalizedSchema(schema).fields) == Keys(Delete(Delete(schema.fields, "$defs"), "title"))
  {
  }

  /**
   * Property by property: a `format: path` property ends with `type` `"string"` and no
   * `format`, its other keys unchanged; every other property is unchanged.
   */
  lemma NormalizedPropertiesShape(schema: Json)
    requires WellFormedSchema(schema) && Has(schema.fields, "properties")
    ensures var before := Get(schema.fields, "properties").value.fields;
      var after := Get(NormalizedSchema(schema).fields, "properties").value;
      && after.JObj? && |after.fields| == |before|
      && forall i :: 0 <= i < |before| ==>
        && after.fields[i].key == before[i].key
        && (IsPathProperty(before[i].value) ==>
             && Get(after.fields[i].value.fields, "type") == Some(JStr("string"))
             && !Has(after.fields[i].value.fields, "format")
             && forall k :: k != "type" && k != "format" ==>
                  Get(after.fields[i].value.fields, k) == Get(before[i].value.fields, k))
        && (!IsPathProperty(before[i].value) ==> after.fields[i] == before[i])
  {
  }

  /** After normalisation no property is marked `format: path`. */
  lemma NoPathFormatRemains(schema: Json)
    requires WellFormedSchema(schema)
    ensures WellFormedSchema(NormalizedSchema(schema))
    ensures var r := NormalizedSchema(schema);
      Has(r.fields, "properties") ==>
        var props := Get(r.fields, "properties").value.fields;
        forall i :: 0 <= i < |props| ==> !IsPathProperty(props[i].value)
  {
  }

  /** Normalising an already normalised schema changes nothing. */
  lemma NormalizeIdempotent(schema: Json)
    requires WellFormedSchema(schema)
    ensures WellFormedSchema(NormalizedSchema(schema))
    ensures NormalizedSchema(NormalizedSchema(schema)) == NormalizedSchema(schema)
  {
    var once := NormalizedSchema(schema);
    var top := Delete(Delete(schema.fields, "$defs"), "title");
    NormalizedTopLevel(schema);
    assert Delete(once.fields, "$defs") == once.fields;
    assert Delete(Delete(once.fields, "$defs"), "title") == once.fields;
    match Get(top, "properties")
    case None =>
    case Some(props) =>
      var normalized := NormalizedProperties(props.fields);
      assert NormalizedProperties(normalized) == normalized;
      PutSame(top, "properties", JObj(normalized));
  }

  /** `get_tool_definitions`: one entry per row of `TOOL_METADATA`, in order. */
  method GetToolDefinitions(raw: GeneratedSchemas) returns (tools: seq<ToolDefinition>)
    requires forall m: Model :: WellFormedSchema(raw.Of(m))
    ensures |tools| == |ToolTable| == 3
    ensures tools[0].name == "ctp-get-context"
    ensures tools[1].name == "ctp-analyse-project"
    ensures tools[2].name == "ctp-get-files"
    ensures forall i :: 0 <= i < |tools| ==>
      && tools[i].name == ToolTable[i].name
      && tools[i].description == ToolTable[i].description
      && tools[i].schema == NormalizedSchema(raw.Of(ToolTable[i].model))
  {
    tools := [];
    var i := 0;
    while i < |ToolTable|
      invariant 0 <= i <= |ToolTable|
      invariant |tools| == i
      invariant forall j :: 0 <= j < i ==>
        tools[j] == ToolDefinition(ToolTable[j].name, ToolTable[j].description, NormalizedSchema(raw.Of(ToolTable[j].model)))
    {
      var metadata := ToolTable[i];
      var schema := PydanticToJsonSchema(raw.Of(metadata.model));
      tools := tools + [ToolDefinition(metadata.name, metadata.description, schema)];
      i := i + 1;
    }
  }
}
