/**
 * The parsed OpenAPI document as the source reads it.
 *
 * Every object whose key order is observable (`paths`, a path item's
 * methods, `properties`, `content`, `responses`) is an ordered sequence of
 * entries. Optional text fields are `Option<string>`: JavaScript tests them
 * for truthiness (absent and "" are both false) and renders an absent value
 * inside a template string as "undefined".
 */
module OpenApi {
  import opened Wrappers

  /** A JSON-Schema node as far as the renderers look into it. */
  datatype Schema = Schema(
    typ: Option<string>,               // `type`
    properties: Properties,            // `properties`; an empty object is still present
    required: seq<string>,             // `required`; an absent list behaves as []
    items: Option<Schema>,             // `items`
    enumValues: Option<seq<string>>,   // `enum`, each literal in its string form
    format: Option<string>,            // `format`
    defaultValue: Option<string>,      // `default` in its string form (`null` is "null")
    description: Option<string>)       // `description`

  datatype Properties = Absent | Present(list: seq<Property>)

  datatype Property = Property(name: string, schema: Schema)

  /** An operation parameter; `location` is its `in` field. */
  datatype Parameter = Parameter(
    name: string,
    location: string,
    required: bool,
    description: Option<string>,
    schema: Option<Schema>)

  /** One entry of a `content` map. */
  datatype MediaType = MediaType(schema: Option<Schema>)

  /** `requestBody`; a missing `content` object behaves as an empty one. */
  datatype RequestBody = RequestBody(content: seq<(string, MediaType)>)

  datatype Response = Response(description: Option<string>, content: Option<seq<(string, MediaType)>>)

  /** An operation; a missing `parameters` list behaves as []. */
  datatype Operation = Operation(
    operationId: Option<string>,
    summary: Option<string>,
    description: Option<string>,
    parameters: seq<Parameter>,
    requestBody: Option<RequestBody>,
    responses: Option<seq<(string, Response)>>)

  /** A path item: its operations keyed by lower-case method name, in declaration order. */
  type PathItem = seq<(string, Operation)>

  /** `paths`: path templates with their path items, in declaration order. */
  type Paths = seq<(string, PathItem)>

  datatype Info = Info(title: Option<string>, version: Option<string>, description: Option<string>)

  /** The document root; `servers` holds the server URLs (a missing list behaves as []). */
  datatype Document = Document(
    openapi: Option<string>,
    info: Option<Info>,
    servers: seq<string>,
    paths: Option<Paths>)

  /** JavaScript truthiness of an optional string. */
  predicate Truthy(o: Option<string>)
  {
    o.Some? && o.value != ""
  }

  /** `${o}` in a template string. */
  function Str(o: Option<string>): string
  {
    if o.Some? then o.value else "undefined"
  }

  /** The method order of the operationId search and of the overview listing. */
  const ScanOrder: seq<string> := ["get", "post", "put", "patch", "delete"]
}
