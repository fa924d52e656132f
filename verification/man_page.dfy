/**
 * `generateManPage`: the markdown manual of an API, with NAME,
 * DESCRIPTION, SYNOPSIS, OPERATIONS, EXAMPLES and ENVIRONMENT sections.
 *
 * The source throws a TypeError when it reads a property of `undefined`;
 * here every such read is an `Err` naming what was missing, and the first
 * one met in document order is the result.
 */
module ManPage {
  import opened Wrappers
  import opened Seqs
  import opened Strings
  import opened OpenApi
  import opened SchemaText

  /** What was `undefined` when the renderer read a property of it. */
  datatype ManPageError =
    | MissingInfo       // `doc.info`
    | MissingPaths      // `doc.paths`
    | EmptyContent      // `content[Object.keys(content)[0]]` of a `content` object without entries
    | MissingSchema     // the first media type's `schema`
    | MissingResponses  // a documented operation's `responses`

  /** Texts produced one after the other, stopping at the first failure. */
  function ConcatAll<E>(rs: seq<Result<string, E>>): (r: Result<string, E>)
    ensures r.Err? <==> exists k :: 0 <= k < |rs| && rs[k].Err?
    ensures r.Err? ==> exists k :: 0 <= k < |rs| && rs[k] == r && forall j :: 0 <= j < k ==> rs[j].Ok?
    decreases |rs|
  {
    if rs == [] then Ok("")
    else if rs[0].Err? then rs[0]
    else
      var rest := ConcatAll(rs[1..]);
      assert forall k :: 1 <= k < |rs| ==> rs[k] == rs[1..][k - 1];
      if rest.Err? then rest else Ok(rs[0].value + rest.value)
  }

  /** One more text extends a successful run, or is the first failure. */
  lemma {:induction false} ConcatAllSnoc<E>(rs: seq<Result<string, E>>, x: Result<string, E>)
    ensures ConcatAll(rs + [x]) ==
      if ConcatAll(rs).Err? then ConcatAll(rs)
      else if x.Err? then x
      else Ok(ConcatAll(rs).value + x.value)
    decreases |rs|
  {
    if rs == [] {
      assert rs + [x] == [x] && [x][1..] == [];
      if x.Ok? {
        assert "" + x.value == x.value && x.value + "" == x.value;
      }
    } else {
      assert (rs + [x])[1..] == rs[1..] + [x];
      assert (rs + [x])[0] == rs[0];
      ConcatAllSnoc(rs[1..], x);
      if rs[0].Ok? && ConcatAll(rs[1..]).Ok? && x.Ok? {
        var a, b := rs[0].value, ConcatAll(rs[1..]).value;
        assert a + (b + x.value) == (a + b) + x.value;
      }
    }
  }

  /** A failure is not undone by what follows it. */
  lemma {:induction false} ConcatAllStopsAtError<E>(rs: seq<Result<string, E>>, more: seq<Result<string, E>>)
    requires ConcatAll(rs).Err?
    ensures ConcatAll(rs + more) == ConcatAll(rs)
    decreases |rs|
  {
    assert rs != [];
    if rs[0].Ok? {
      assert (rs + more)[1..] == rs[1..] + more;
      ConcatAllStopsAtError(rs[1..], more);
    }
  }

  /** The first failure, after a successful run, is the result. */
  lemma ConcatAllFirstError<E>(rs: seq<Result<string, E>>, i: nat)
    requires i < |rs| && ConcatAll(rs[..i]).Ok? && rs[i].Err?
    ensures ConcatAll(rs) == rs[i]
  {
    ConcatAllSnoc(rs[..i], rs[i]);
    assert rs[..i + 1] == rs[..i] + [rs[i]];
    ConcatAllStopsAtError(rs[..i + 1], rs[i + 1..]);
    assert rs[..i + 1] + rs[i + 1..] == rs;
  }

  /** One more successful text extends the run. */
  lemma ConcatAllStep<E>(rs: seq<Result<string, E>>, i: nat, acc: string)
    requires i < |rs| && ConcatAll(rs[..i]) == Ok(acc) && rs[i].Ok?
    ensures ConcatAll(rs[..i + 1]) == Ok(acc + rs[i].value)
  {
    ConcatAllSnoc(rs[..i], rs[i]);
    assert rs[..i + 1] == rs[..i] + [rs[i]];
  }

  /** Texts that are all empty give the empty text. */
  lemma {:induction false} ConcatAllEmpty<E>(rs: seq<Result<string, E>>)
    requires forall k :: 0 <= k < |rs| ==> rs[k] == Ok("")
    ensures ConcatAll(rs) == Ok("")
    decreases |rs|
  {
    if rs != [] {
      ConcatAllEmpty(rs[1..]);
      assert "" + "" == "";
    }
  }

  // ---------------------------------------------------------------------
  // Command syntax

  /** `parameters.filter((p) => p.required)`. */
  function RequiredParams(ps: seq<Parameter>): seq<Parameter>
    decreases |ps|
  {
    if ps == [] then [] else (if ps[0].required then [ps[0]] else []) + RequiredParams(ps[1..])
  }

  /** `parameters.filter((p) => !p.required)`. */
  function OptionalParams(ps: seq<Parameter>): seq<Parameter>
    decreases |ps|
  {
    if ps == [] then [] else (if ps[0].required then [] else [ps[0]]) + OptionalParams(ps[1..])
  }

  /** `<name>` for each required parameter. */
  function RequiredTokens(ps: seq<Parameter>): seq<string>
  {
    var rs := RequiredParams(ps);
    seq(|rs|, k requires 0 <= k < |rs| => "<" + rs[k].name + ">")
  }

  /** `[--name]` for each optional parameter. */
  function OptionalTokens(ps: seq<Parameter>): seq<string>
  {
    var os := OptionalParams(ps);
    seq(|os|, k requires 0 <= k < |os| => "[--" + os[k].name + "]")
  }

  /** The fenced command line: the operationId, then required, then optional parameters. */
  function CommandBlock(id: string, ps: seq<Parameter>): string
  {
    var requiredParams := Join(RequiredTokens(ps), " ");
    var optionalParams := Join(OptionalTokens(ps), " ");
    var t1 := "```\n" + id;
    var t2 := if requiredParams != "" then t1 + " " + requiredParams else t1;
    var t3 := if optionalParams != "" then t2 + " " + optionalParams else t2;
    t3 + "\n```\n\n"
  }

  /**
   * The command line lists every parameter exactly once: the required ones
   * and the optional ones split the parameter list between them.
   */
  lemma {:induction false} SynopsisPartition(ps: seq<Parameter>)
    ensures multiset(RequiredParams(ps) + OptionalParams(ps)) == multiset(ps)
    decreases |ps|
  {
    if ps != [] {
      var x, rest := ps[0], ps[1..];
      SynopsisPartition(rest);
      var r, o := RequiredParams(rest), OptionalParams(rest);
      if x.required {
        assert RequiredParams(ps) == [x] + r && OptionalParams(ps) == [] + o;
        PlaceOnOneSide(x, [x], [], r, o, rest);
      } else {
        assert RequiredParams(ps) == [] + r && OptionalParams(ps) == [x] + o;
        PlaceOnOneSide(x, [], [x], r, o, rest);
      }
      assert ps == [x] + rest;
    }
  }

  /** An element placed on one of two sides keeps the two sides a split of the whole. */
  lemma PlaceOnOneSide<T>(x: T, a: seq<T>, b: seq<T>, r: seq<T>, o: seq<T>, rest: seq<T>)
    requires (a == [x] && b == []) || (a == [] && b == [x])
    requires multiset(r + o) == multiset(rest)
    ensures multiset(a + r + (b + o)) == multiset([x] + rest)
  {
  }

  /** Each side of the split holds only parameters of its kind. */
  lemma {:induction false} SynopsisSides(ps: seq<Parameter>)
    ensures forall p :: p in RequiredParams(ps) ==> p.required && p in ps
    ensures forall p :: p in OptionalParams(ps) ==> !p.required && p in ps
    decreases |ps|
  {
    if ps != [] {
      SynopsisSides(ps[1..]);
    }
  }

  /** No parameter is listed as required exactly when none is. */
  lemma {:induction false} NoRequiredParams(ps: seq<Parameter>)
    ensures RequiredParams(ps) == [] <==> forall k :: 0 <= k < |ps| ==> !ps[k].required
    decreases |ps|
  {
    if ps != [] {
      NoRequiredParams(ps[1..]);
      if forall k :: 0 <= k < |ps[1..]| ==> !ps[1..][k].required {
        if !ps[0].required {
          forall k | 0 <= k < |ps| ensures !ps[k].required {
            if k > 0 {
              assert ps[k] == ps[1..][k - 1];
            }
          }
        }
      } else {
        var k :| 0 <= k < |ps[1..]| && ps[1..][k].required;
        assert ps[k + 1].required;
      }
    }
  }

  /** The required part of the command line is there exactly when some parameter is required. */
  lemma RequiredPartShown(ps: seq<Parameter>)
    ensures Join(RequiredTokens(ps), " ") != "" <==> exists k :: 0 <= k < |ps| && ps[k].required
  {
    NoRequiredParams(ps);
    JoinNonEmpty(RequiredTokens(ps), " ");
  }

  // ---------------------------------------------------------------------
  // Parameters, request body, responses

  /** The entry of one parameter under "### Parameters". */
  function ParamText(p: Parameter): string
  {
    var t1 := "* `" + p.name + "` (" + p.location + ")";
    var t2 := t1 + (if p.required then " (Required)" else " (Optional)");
    var t3 := if Truthy(p.description) then t2 + "\n  " + p.description.value else t2;
    var t4 := if p.schema.Some? && p.schema.value.enumValues.Some?
      then t3 + "\n  Allowed values: " + Join(p.schema.value.enumValues.value, ", ") else t3;
    var t5 := if p.schema.Some? && p.schema.value.defaultValue.Some?
      then t4 + "\n  Default: " + p.schema.value.defaultValue.value else t4;
    t5 + "\n\n"
  }

  /** The parameter entries, one after the other. */
  function ParamTexts(ps: seq<Parameter>): seq<string>
  {
    seq(|ps|, k requires 0 <= k < |ps| => ParamText(ps[k]))
  }

  /** "### Parameters" with its entries, or nothing when there are no parameters. */
  function ParametersSection(ps: seq<Parameter>): string
  {
    if |ps| > 0 then "### Parameters\n\n" + Concat(ParamTexts(ps)) else ""
  }

  /** The first media type of a `content` object and its schema. */
  function FirstSchema(content: seq<(string, MediaType)>): Result<(string, Schema), ManPageError>
  {
    if content == [] then Err(EmptyContent)
    else if content[0].1.schema.None? then Err(MissingSchema)
    else Ok((content[0].0, content[0].1.schema.value))
  }

  /** "### Request Body" with the content type and the schema, when there is a request body. */
  function RequestBodySection(rb: Option<RequestBody>): Result<string, ManPageError>
  {
    if rb.None? then Ok("")
    else
      var first := FirstSchema(rb.value.content);
      if first.Err? then Err(first.error)
      else
        var (contentType, schema) := first.value;
        Ok("### Request Body\n\n" + "Content-Type: " + contentType + "\n\n"
           + "Schema:\n```typescript\n" + FormatSchema(schema, 0) + "\n```\n\n")
  }

  /** The schema block of a response, its schema text indented under the bullet. */
  function ResponseSchemaBlock(contentType: string, schema: Schema): string
  {
    "\n  Content-Type: " + contentType + "\n\n"
    + "  Schema:\n  ```typescript\n  " + AddIndent(FormatSchema(schema, 0)) + "\n  ```\n\n"
  }

  /** The bullet of one response, with its schema block when it has content. */
  function ResponseText(code: string, resp: Response): Result<string, ManPageError>
  {
    var head := "* " + code + ": "
      + (if Truthy(resp.description) then resp.description.value else "No description provided") + "\n";
    if resp.content.None? then Ok(head + "\n")
    else
      var first := FirstSchema(resp.content.value);
      if first.Err? then Err(first.error)
      else Ok(head + ResponseSchemaBlock(first.value.0, first.value.1))
  }

  function ResponseTexts(rs: seq<(string, Response)>): seq<Result<string, ManPageError>>
  {
    seq(|rs|, k requires 0 <= k < |rs| => ResponseText(rs[k].0, rs[k].1))
  }

  /**
   * The response schema is shown as the schema one indentation level deep
   * when none of its copied texts holds a line break.
   */
  lemma ResponseSchemaDepth(contentType: string, schema: Schema)
    requires NoBreaks(schema)
    ensures ResponseSchemaBlock(contentType, schema) ==
      "\n  Content-Type: " + contentType + "\n\n"
      + "  Schema:\n  ```typescript\n  " + FormatSchema(schema, 1) + "\n  ```\n\n"
  {
    ShiftSchema(schema, 0);
  }

  // ---------------------------------------------------------------------
  // Operations and the whole page

  /** The source lists an operation only when its operationId is truthy. */
  predicate Documented(op: Operation)
  {
    Truthy(op.operationId)
  }

  /** The text before the request body: heading, summary, description, command, parameters. */
  function OperationHead(op: Operation): string
  {
    var id := Str(op.operationId);
    var t1 := "## " + id + "\n\n";
    var t2 := if Truthy(op.summary) then t1 + op.summary.value + "\n\n" else t1;
    var t3 := if Truthy(op.description) then t2 + op.description.value + "\n\n" else t2;
    t3 + CommandBlock(id, op.parameters) + ParametersSection(op.parameters)
  }

  /** The section of one documented operation. */
  function OperationText(op: Operation): Result<string, ManPageError>
  {
    var body := RequestBodySection(op.requestBody);
    if body.Err? then Err(body.error)
    else if op.responses.None? then Err(MissingResponses)
    else
      var responses := ConcatAll(ResponseTexts(op.responses.value));
      if responses.Err? then Err(responses.error)
      else Ok(OperationHead(op) + body.value + "### Responses\n\n" + responses.value)
  }

  /** What an entry of a path item contributes: its section, or nothing when it is not documented. */
  function OperationEntry(op: Operation): Result<string, ManPageError>
  {
    if Documented(op) then OperationText(op) else Ok("")
  }

  function OperationEntries(item: PathItem): seq<Result<string, ManPageError>>
  {
    seq(|item|, k requires 0 <= k < |item| => OperationEntry(item[k].1))
  }

  function PathItemText(item: PathItem): Result<string, ManPageError>
  {
    ConcatAll(OperationEntries(item))
  }

  function PathTexts(paths: Paths): seq<Result<string, ManPageError>>
  {
    seq(|paths|, k requires 0 <= k < |paths| => PathItemText(paths[k].1))
  }

  /** NAME, DESCRIPTION (when the description is truthy), SYNOPSIS and the OPERATIONS heading. */
  function Prelude(info: Info): string
  {
    var t1 := "# NAME\n\n" + Str(info.title) + " - API Command Line Interface\n\n";
    var t2 := if Truthy(info.description) then t1 + "# DESCRIPTION\n\n" + info.description.value + "\n\n" else t1;
    t2 + "# SYNOPSIS\n\n" + "npx oapis <domain> <operation> [options...]\n\n" + "# OPERATIONS\n\n"
  }

  /** EXAMPLES and ENVIRONMENT. */
  const Trailer: string :=
    "# EXAMPLES\n\n" + "Get help for a specific operation:\n"
    + "```\nnpx oapis example.com help <operationId>\n```\n\n"
    + "# ENVIRONMENT\n\n" + "* `OAPIS_API_KEY`: API key for authentication\n"
    + "* `OAPIS_BASE_URL`: Override the default API base URL\n\n"

  /** `generateManPage(doc)`, with a thrown TypeError as `Err`. */
  function ManPage(doc: Document): Result<string, ManPageError>
  {
    if doc.info.None? then Err(MissingInfo)
    else if doc.paths.None? then Err(MissingPaths)
    else
      var ops := ConcatAll(PathTexts(doc.paths.value));
      if ops.Err? then Err(ops.error)
      else Ok(Prelude(doc.info.value) + ops.value + Trailer)
  }

  // ---------------------------------------------------------------------
  // When the page can be produced

  /** `content[Object.keys(content)[0]].schema` can be read. */
  predicate Readable(content: seq<(string, MediaType)>)
  {
    content != [] && content[0].1.schema.Some?
  }

  /** Every property read of an operation's section finds a value. */
  predicate Renderable(op: Operation)
  {
    (op.requestBody.Some? ==> Readable(op.requestBody.value.content))
    && op.responses.Some?
    && forall k :: 0 <= k < |op.responses.value| && op.responses.value[k].1.content.Some? ==>
         Readable(op.responses.value[k].1.content.value)
  }

  lemma OperationTextOk(op: Operation)
    ensures OperationText(op).Ok? <==> Renderable(op)
  {
    if op.responses.Some? {
      var rs := op.responses.value;
      var texts := ResponseTexts(rs);
      assert forall k :: 0 <= k < |rs| ==>
        (texts[k].Err? <==> rs[k].1.content.Some? && !Readable(rs[k].1.content.value));
    }
  }

  /**
   * The page is produced exactly when the document has `info` and `paths`
   * and every documented operation has `responses` and readable schemas
   * behind its request body and responses.
   */
  lemma ManPageSucceeds(doc: Document)
    ensures ManPage(doc).Ok? <==>
      doc.info.Some? && doc.paths.Some? &&
      forall p, m ::
        (0 <= p < |doc.paths.value| && 0 <= m < |doc.paths.value[p].1| && Documented(doc.paths.value[p].1[m].1))
        ==> Renderable(doc.paths.value[p].1[m].1)
  {
    if doc.info.Some? && doc.paths.Some? {
      var paths := doc.paths.value;
      forall p, m | 0 <= p < |paths| && 0 <= m < |paths[p].1|
        ensures OperationEntries(paths[p].1)[m].Ok? <==> !Documented(paths[p].1[m].1) || Renderable(paths[p].1[m].1)
      {
        OperationTextOk(paths[p].1[m].1);
      }
      assert forall p :: 0 <= p < |paths| ==>
        (PathTexts(paths)[p].Ok? <==> forall m :: 0 <= m < |paths[p].1| ==> OperationEntries(paths[p].1)[m].Ok?);
    }
  }

  /** A document without documented operations gets the page with an empty OPERATIONS section. */
  lemma NothingDocumented(doc: Document)
    requires doc.info.Some? && doc.paths.Some?
    requires forall p, m :: 0 <= p < |doc.paths.value| && 0 <= m < |doc.paths.value[p].1| ==>
      !Documented(doc.paths.value[p].1[m].1)
    ensures ManPage(doc) == Ok(Prelude(doc.info.value) + Trailer)
  {
    var paths := doc.paths.value;
    forall p | 0 <= p < |paths|
      ensures PathTexts(paths)[p] == Ok("")
    {
      ConcatAllEmpty(OperationEntries(paths[p].1));
    }
    ConcatAllEmpty(PathTexts(paths));
    assert Prelude(doc.info.value) + "" == Prelude(doc.info.value);
  }

  // ---------------------------------------------------------------------
  // The rendering loops

  /** The loop over `operation.parameters`. */
  method RenderParameters(ps: seq<Parameter>) returns (text: string)
    ensures text == ParametersSection(ps)
  {
    text := "";
    if |ps| > 0 {
      text := "### Parameters\n\n";
      ghost var texts := ParamTexts(ps);
      var i := 0;
      while i < |ps|
        invariant 0 <= i <= |ps|
        invariant text == "### Parameters\n\n" + Concat(texts[..i])
      {
        var entry := ParamText(ps[i]);
        assert entry == texts[i];
        ConcatSnoc(texts[..i], entry);
        PrefixSnoc(texts, i);
        text := text + entry;
        i := i + 1;
      }
      assert texts[..|ps|] == texts;
    }
  }

  /** The section of one documented operation, with the loop over its responses. */
  method RenderOperation(op: Operation) returns (r: Result<string, ManPageError>)
    ensures r == OperationText(op)
  {
    var id := Str(op.operationId);
    var out := "## " + id + "\n\n";
    if Truthy(op.summary) {
      out := out + op.summary.value + "\n\n";
    }
    if Truthy(op.description) {
      out := out + op.description.value + "\n\n";
    }
    out := out + CommandBlock(id, op.parameters);
    var params := RenderParameters(op.parameters);
    out := out + params;
    assert out == OperationHead(op);
    if op.requestBody.Some? {
      var first := FirstSchema(op.requestBody.value.content);
      if first.Err? {
        return Err(first.error);
      }
      var schemaText := RenderSchema(first.value.1, 0);
      out := out + ("### Request Body\n\n" + "Content-Type: " + first.value.0 + "\n\n"
                    + "Schema:\n```typescript\n" + schemaText + "\n```\n\n");
    }
    assert out == OperationHead(op) + RequestBodySection(op.requestBody).value;
    if op.responses.None? {
      return Err(MissingResponses);
    }
    var responses := op.responses.value;
    ghost var texts := ResponseTexts(responses);
    var list := "";
    var i := 0;
    while i < |responses|
      invariant 0 <= i <= |responses|
      invariant ConcatAll(texts[..i]) == Ok(list)
    {
      var t := ResponseText(responses[i].0, responses[i].1);
      if t.Err? {
        ConcatAllFirstError(texts, i);
        return Err(t.error);
      }
      ConcatAllStep(texts, i, list);
      list := list + t.value;
      i := i + 1;
    }
    assert texts[..|responses|] == texts;
    r := Ok(out + "### Responses\n\n" + list);
  }

  /** The loop over the entries of one path item, skipping entries without a truthy operationId. */
  method RenderPathItem(item: PathItem) returns (r: Result<string, ManPageError>)
    ensures r == PathItemText(item)
  {
    ghost var entries := OperationEntries(item);
    var itemText := "";
    var j := 0;
    while j < |item|
      invariant 0 <= j <= |item|
      invariant ConcatAll(entries[..j]) == Ok(itemText)
    {
      var op := item[j].1;
      var t: Result<string, ManPageError> := Ok("");
      if Documented(op) {
        t := RenderOperation(op);
      }
      assert t == entries[j];
      if t.Err? {
        ConcatAllFirstError(entries, j);
        return Err(t.error);
      }
      ConcatAllStep(entries, j, itemText);
      itemText := itemText + t.value;
      j := j + 1;
    }
    assert entries[..|item|] == entries;
    r := Ok(itemText);
  }

  /** `generateManPage`: the prelude, the loop over the paths and the trailer. */
  method GenerateManPage(doc: Document) returns (r: Result<string, ManPageError>)
    ensures r == ManPage(doc)
  {
    if doc.info.None? {
      return Err(MissingInfo);
    }
    var info := doc.info.value;
    var manPage := "# NAME\n\n" + Str(info.title) + " - API Command Line Interface\n\n";
    if Truthy(info.description) {
      manPage := manPage + "# DESCRIPTION\n\n" + info.description.value + "\n\n";
    }
    manPage := manPage + "# SYNOPSIS\n\n" + "npx oapis <domain> <operation> [options...]\n\n" + "# OPERATIONS\n\n";
    if doc.paths.None? {
      return Err(MissingPaths);
    }
    var paths := doc.paths.value;
    ghost var pathTexts := PathTexts(paths);
    var ops := "";
    var i := 0;
    while i < |paths|
      invariant 0 <= i <= |paths|
      invariant ConcatAll(pathTexts[..i]) == Ok(ops)
    {
      var t := RenderPathItem(paths[i].1);
      assert t == pathTexts[i];
      if t.Err? {
        ConcatAllFirstError(pathTexts, i);
        return Err(t.error);
      }
      ConcatAllStep(pathTexts, i, ops);
      ops := ops + t.value;
      i := i + 1;
    }
    assert pathTexts[..|paths|] == pathTexts;
    r := Ok(manPage + ops + Trailer);
  }
}
