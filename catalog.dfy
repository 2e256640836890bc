/** The static tool catalog the server advertises: one tool, `read_excel`,
    whose JSON Schema asks for a string `file_path`. */
module Catalog {

  datatype PropertySchema = PropertySchema(jsonType: string, description: string)

  datatype InputSchema = InputSchema(
    jsonType: string,
    properties: seq<(string, PropertySchema)>,
    required: seq<string>)

  datatype Tool = Tool(name: string, description: string, inputSchema: InputSchema)

  const ReadExcel := "read_excel"
  const FilePathKey := "file_path"

  /** The list `handle_list_tools` returns. */
  function ListTools(): seq<Tool> {
    [Tool(
      ReadExcel,
      "Read content from Excel (xlsx) files",
      InputSchema(
        "object",
        [(FilePathKey, PropertySchema("string", "Path to the Excel file"))],
        [FilePathKey]))]
  }

  function ToolNames(tools: seq<Tool>): (names: seq<string>)
    ensures |names| == |tools|
    ensures forall i :: 0 <= i < |tools| ==> names[i] == tools[i].name
  {
    seq(|tools|, i requires 0 <= i < |tools| => tools[i].name)
  }

  /** The declared JSON type of a property, if the schema declares it. */
  function PropertyType(schema: InputSchema, key: string): (t: string)
    decreases |schema.properties|
  {
    if schema.properties == [] then ""
    else if schema.properties[0].0 == key then schema.properties[0].1.jsonType
    else PropertyType(schema.(properties := schema.properties[1..]), key)
  }

  /** Every field a schema requires is one it declares. */
  predicate RequiredDeclared(schema: InputSchema) {
    forall r :: r in schema.required ==>
      exists i :: 0 <= i < |schema.properties| && schema.properties[i].0 == r
  }

  /** The catalog lists one tool, `read_excel`, whose input is an object that
      must carry `file_path`, declared as a string. */
  lemma CatalogContents()
    ensures ToolNames(ListTools()) == [ReadExcel]
    ensures ListTools()[0].inputSchema.jsonType == "object"
    ensures ListTools()[0].inputSchema.required == [FilePathKey]
    ensures PropertyType(ListTools()[0].inputSchema, FilePathKey) == "string"
    ensures RequiredDeclared(ListTools()[0].inputSchema)
  {
    var schema := ListTools()[0].inputSchema;
    assert schema.properties[0].0 == FilePathKey;
  }
}
