# oapis: a Dafny model of the OpenAPI lookup and documentation core

oapis serves an OpenAPI document in several forms. A request path has the
form `/[type]/[hostname]/[idOrRoute]`. The handler finds the API
description of `hostname`, may cut the document down to one route, and then
returns one of these:

- a plain-text overview;
- a markdown manual page;
- the operation the route designates, located by an exact path, an
  `operationId` or a path template.

This project models that core and proves properties of it.

| file | module | what it models |
|---|---|---|
| `wrappers.dfy` | `Wrappers` | `Option` and `Result` |
| `seqs.dfy` | `Seqs` | JavaScript objects as ordered entries, property access, `find`, `flatMap` |
| `strings.dfy` | `Strings` | `join`, `split`, `"  ".repeat(n)`, the `"\n"` → `"\n  "` replacement, ASCII `toUpperCase` |
| `openapi.dfy` | `OpenApi` | the parsed document, truthiness of optional text, `${undefined}` |
| `path_template.dfy` | `PathTemplate` | `convertPathToRegex` and the anchored `RegExp.test` |
| `locator.dfy` | `Locator` | `matchOperation` and its three tiers |
| `router.dfy` | `Router` | the request-path split and kind whitelist, `getOpenAPISubset`, the 404 diagnostics |
| `schema_text.dfy` | `SchemaText` | `formatSchema` |
| `man_page.dfy` | `ManPage` | `generateManPage` |
| `overview.dfy` | `Overview` | `generateOverview` of slop.ts and its older variant in main.ts |

Modelling choices:

- **Key order.** Every JavaScript object whose key order can be observed is
  an ordered sequence of `(key, value)` entries, and `obj[key]` reads the
  first entry with that key. This covers `paths`, a path item, `properties`,
  `content` and `responses`.
- **Path items.** A path item is an ordered sequence of its operations, not
  a record of five fields. `generateManPage` walks `Object.entries(pathItem)`,
  so every key and its order show in the page.
- **Truthiness.** Optional text is `Option<string>`. `Truthy` is JavaScript's
  test: absent and `""` are both false. `Str` renders an absent value inside
  a template string as `undefined`.
- **Errors.** The man page reads properties of `undefined` in several
  places, and each of these throws a TypeError in the source. Each is an
  `Err` of `ManPage.ManPageError`. The first error in document order is the
  result.
- **Loops.** The rendering functions build their text with `+=` and `push`
  inside loops. They are methods with loop invariants. Each is proved equal
  to a function, and the properties are lemmas about those functions.
- **Both overviews.** The slop.ts overview and the main.ts variant are both
  modelled. The variant starts with its introduction. Its item lines lack the
  space after the operationId (`Overview.VariantsDifferBySpace`).
- **Endpoint count.** The number in the slop.ts introduction is the number of
  lines before the introduction is prepended. That is the item lines plus the
  two or three lines of the info block (`Overview.EndpointCount`).
- **Naming mismatch.** main.ts imports `generateApiDocs` from `./summary.js`,
  but summary.ts exports `generateManPage`. The model treats the manual-page
  renderer of summary.ts as what the `summary` type serves.
- **Template escaping.** main.ts:175 escapes only "/", so a "." left in a
  template is the regular-expression wildcard. `PathTemplate.TokensAsWritten`
  is that expression; `PathTemplate.Tokens` is the corrected one, in which
  "." matches only itself. The difference is recorded under Findings.
- **Templates in the locator.** `Locator.MatchOperation` takes the atom a
  "." becomes as a parameter: `AnyChar` gives the source's locator and
  `Lit('.')` the corrected one. Every lemma about the locator holds for
  both, and the two agree on documents whose templates hold no "."
  (`Locator.DotFreeTemplatesLocateAlike`).

## Model

| member | source | states |
|---|---|---|
| Seqs.Lookup | main.ts:116 | `obj[key]` is absent exactly when no entry has the key, and otherwise is the value of an entry with that key |
| Seqs.FirstIndex | main.ts:130-135 | `find`: the position returned satisfies the predicate, no earlier element does, and \|xs\| means none does |
| Strings.Split | main.ts:304 | `split` yields at least one piece and no piece holds the separator |
| Strings.JoinSplit | main.ts:304-305 | joining the pieces of a split with the separator gives the original text back |
| Strings.SplitJoin | main.ts:439-442 | splitting the join of separator-free pieces gives the pieces back |
| Strings.SplitFirstPiece | slop.ts:17 | `split("/")[0]` is the text before the first "/", or all of it when there is none |
| Strings.JoinNonEmpty | slop.ts:51-56 | non-empty pieces join to "" only when there are none |
| Strings.Indent | summary.ts:4 | `"  ".repeat(n)` is 2n spaces |
| Strings.AddIndentSingleLine | summary.ts:161-163 | the `"\n"` → `"\n  "` replacement leaves text without line breaks unchanged |
| Strings.AddIndentConcat | summary.ts:161-163 | the replacement distributes over concatenation |
| PathTemplate.PlaceholderLength | main.ts:177 | a `\{([^}]+)\}` match at the head of a text covers "{", a non-empty name free of "}", and "}" |
| PathTemplate.CloseIndex | main.ts:177 | the search for the "}" ending a placeholder finds the first "}" from the given position |
| PathTemplate.TokensOfPlainText | main.ts:171-183 | with "." read literally, a template without "{" becomes the literal expression of its own text |
| PathTemplate.TokensHaveNoWildcard | main.ts:171-183 | the corrected expression never holds the any-character atom |
| PathTemplate.PlaceholderAtStart | main.ts:177 | a placeholder `{name}` at the head of a text is matched as exactly "{", the name and "}" |
| PathTemplate.TokensOfOnePlaceholder | main.ts:173-180 | with "." read literally, the template "u{name}w" becomes the literals of u, one `([^/]+)` group and the literals of w |
| PathTemplate.TokensOfLeadingPlaceholder | main.ts:173-180 | with "." read literally, a template opening with `{name}` becomes one group followed by the literals of the rest |
| PathTemplate.TokensOfLiteralPrefix | main.ts:173-180 | with "." read literally, text without "{" at the front of a template contributes its literal characters and changes nothing after it |
| PathTemplate.OpenBraceJoinsPlaceholder | main.ts:177 | a "{" left open before a placeholder is taken into that placeholder, since `[^}]+` also matches "{" and "/" |
| PathTemplate.ScanIgnoresPlaceholder | main.ts:177 | the expression after a prefix depends only on the text following the placeholder, not on the placeholder itself |
| PathTemplate.PlaceholderNameIrrelevant | main.ts:177 | templates that differ only in one placeholder's name give the same expression, whatever surrounds it |
| PathTemplate.LitsMatchExactly | main.ts:179-182 | an anchored literal expression matches its own text and nothing else |
| PathTemplate.ParamThenLits | main.ts:177-182 | a group followed by literal w matches exactly the paths that are a non-empty "/"-free run followed by w |
| PathTemplate.LitsThen | main.ts:175-182 | literals u followed by any expression match exactly the paths that start with u and whose remainder the expression matches |
| PathTemplate.PlaceholderMatchesOneSegment | main.ts:177-182 | literals u, a group and literals w match a path exactly when it is longer than u and w together, starts with u, ends with w, and holds no "/" in between |
| PathTemplate.OnePlaceholderTemplate | main.ts:171-183 | with "." read literally, "u{name}w" accepts a path exactly when it starts with u, ends with w, and between them is one non-empty segment free of "/", whatever the name |
| PathTemplate.OnePlaceholderTemplateAsWritten | main.ts:171-183 | the expression as written gives the same one-segment answer for "u{name}w" when u and w hold no "." (the name may) |
| PathTemplate.LeadingPlaceholder | main.ts:177 | a placeholder at the head of a template becomes one `([^/]+)` group followed by the expression of the rest, whatever the rest holds and whichever reading of "." |
| PathTemplate.ScanOfPlainPrefix | main.ts:173-180 | text without "{" in front of a template contributes its own expression and leaves the expression of the rest unchanged |
| PathTemplate.ParamThen | main.ts:177-182 | a group followed by any expression matches exactly the paths that open with a non-empty "/"-free run after which the expression matches |
| PathTemplate.EachPlaceholderOneSegment | main.ts:171-183 | a template of literal texts and any number of placeholders accepts exactly the paths made of those texts with one non-empty "/"-free segment in place of each placeholder; with "." read literally for every template, and as written when the literal texts hold no "." |
| PathTemplate.TwoPlaceholderRoute | main.ts:171-183 | with "." read literally, "/users/{id}/posts/{postId}" accepts exactly "/users/" + a + "/posts/" + b for segments a and b |
| PathTemplate.PlainTemplateAsWritten | main.ts:171-183 | the expression as written for a template without placeholders accepts exactly the paths of the same length in which every "." of the template faces a character other than a line terminator and every other character faces itself |
| PathTemplate.PlainTemplateMatchesOnlyItself | main.ts:171-183 | with "." read literally, a template without placeholders matches its own text and nothing else |
| PathTemplate.MatchPreservesSlashes | main.ts:175-177 | without the wildcard, a matched path has exactly as many "/" as the expression has literal "/" |
| PathTemplate.SameTemplateSameSegments | main.ts:171-183 | with "." read literally, all paths that one template matches have the same number of segments |
| PathTemplate.Matches | main.ts:164-166 | `pattern.test(pathname)` on an anchored expression: every atom consumes at least one character, so a match is at least as long as the expression |
| PathTemplate.TokensAsWritten | main.ts:171-183 | `convertPathToRegex` as written: on a template without "." it is the corrected expression |
| PathTemplate.DotFreeScan | main.ts:171-183 | what "." becomes is the only difference: on a template without "." the choice of atom changes nothing |
| PathTemplate.UnescapedDotMatchesAnyCharacter | main.ts:173-182 | the expression as written lets "/a.b" match "/axb" and "/a/b", and the corrected one rejects both |
| Locator.MatchOperation | main.ts:110-169 | for either reading of ".": nothing is found without `paths`; anything found is declared in the document under its path key and upper-cased method; an exact path with `get` wins |
| Locator.IdMethodNone | main.ts:130-135 | a path item with no operation carrying the id yields no method |
| Locator.OperationIdTier | main.ts:125-144 | without a direct `get`, the first path holding the id wins, with its first such method in get, post, put, patch, delete order, under its template key |
| Locator.TemplateTier | main.ts:146-168 | for either reading of ".": otherwise the first template that defines a method and accepts the path wins, with its first method in get, post, delete, patch, put order |
| Locator.NotFound | main.ts:110-169 | for either reading of ".": nothing is found exactly when `paths` is missing or no tier applies |
| Locator.LocateByOperationId | main.ts:125-144 | "/getUser" finds the `get` operation of "/users/{id}" whose operationId is "getUser", as GET under "/users/{id}" |
| Locator.DotTemplateLocatesOtherPath | main.ts:146-168 | the source's locator answers "/axb" with the `get` operation of the template "/a.b"; with "." read literally nothing is found |
| Locator.DotFreeTemplatesLocateAlike | main.ts:110-183 | on a document whose templates hold no ".", the source's locator and the corrected one give the same answer |
| Router.ParseRequestPath | main.ts:304-326 | an accepted path has a known kind and a non-empty host name free of "/"; a refused one gets the 400 format hint |
| Router.RequestPathRoundTrip | main.ts:304-305 | kind, host name and route put back together give the request path, plus the query string when there is a route |
| Router.RequestPathAccepted | main.ts:307-326 | every known kind with a non-empty host name is accepted, with an empty route when nothing follows |
| Router.RequestPathWithRoute | main.ts:304-305 | text after the host name becomes the route "/" + rest + query string |
| Router.OpenApiSubset | main.ts:229-248 | an empty route or missing `paths` keeps the document; otherwise every other field is kept and `paths` holds only the first entry whose key or `get.operationId` is the route, or nothing |
| Router.IdsInMembership | main.ts:417-425 | an id is listed for a path item exactly when one of the listed methods' operations carries it and it is not empty |
| Router.OperationIdsMembership | main.ts:415-427 | the id list holds an id exactly when some path's get, post, delete, put or patch operation carries it and it is not empty |
| Router.OperationIdsAppend | main.ts:415-427 | the id list goes path by path |
| Router.BulletsSplit | main.ts:439 | bulleted entries without line breaks come back one `- x` line each |
| Router.FixedLinesAreSingle | main.ts:436-441 | the fixed lines of the 404 text hold no line break |
| Router.NotFoundTextLines | main.ts:436-442 | the 404 text splits into its fixed lines and the lines of the id and route blocks |
| Router.NotFoundLines | main.ts:434-444 | the 404 text reads line by line: header, padding, the id bullets, a blank line, the route bullets in key order |
| SchemaText.RenderSchema | summary.ts:3-55 | the rendering loop produces `FormatSchema(s, indent)` |
| SchemaText.RenderObject | summary.ts:7-38 | an object with properties is "{\n", one line per property in order, then the indentation and "}" |
| SchemaText.RenderPropertyLine | summary.ts:10-36 | the loop body produces the property line: indentation, name, marker, comment, type text, ",\n" |
| SchemaText.RenderPropertyBody | summary.ts:17-35 | the loop body produces the type text of a property |
| SchemaText.PropertyAsSchema | summary.ts:17-52 | a nested object or array property is its schema rendered one level deeper; a scalar property is the top-level scalar text plus ` = default` |
| SchemaText.RequiredMarked | summary.ts:10-11 | a property line carries " (Required)" exactly when `required` lists the property |
| SchemaText.ShiftDescription | summary.ts:13-15 | the description comment indented once more is the comment one level deeper |
| SchemaText.ShiftBody | summary.ts:17-35 | a property's type text indented once more is its text one level deeper |
| SchemaText.ShiftLine | summary.ts:10-36 | a property line indented once more is the line one level deeper, its leading two spaces moved to the end |
| SchemaText.ShiftProperties | summary.ts:9-37 | the property lines shift as one block |
| SchemaText.ShiftSchema | summary.ts:3-55 | indenting every line but the first of a schema text by two spaces gives the schema's text one level deeper |
| ManPage.ConcatAll | summary.ts:77-168 | the sections in order fail exactly when one fails, and then with the first failure |
| ManPage.SynopsisPartition | summary.ts:95-112 | the required and the optional parameters of the command line together are the parameter list, each once |
| ManPage.SynopsisSides | summary.ts:95-108 | the required side holds only required parameters and the optional side only optional ones |
| ManPage.NoRequiredParams | summary.ts:95-102 | no parameter is listed as required exactly when none is |
| ManPage.RequiredPartShown | summary.ts:95-102 | the required part of the command line shows exactly when some parameter is required |
| ManPage.ResponseSchemaDepth | summary.ts:156-163 | a response schema is shown as the schema rendered one indentation level deep |
| ManPage.OperationTextOk | summary.ts:137-167 | an operation's section is produced exactly when it has `responses` and readable first schemas behind its request body and responses |
| ManPage.ManPageSucceeds | summary.ts:57-182 | the page is produced exactly when `info` and `paths` exist and every documented operation can be rendered |
| ManPage.NothingDocumented | summary.ts:77-79 | without documented operations the page is the prelude and the trailer |
| ManPage.RenderParameters | summary.ts:117-134 | the parameter loop produces "### Parameters" and the entries, or nothing for no parameters |
| ManPage.RenderOperation | summary.ts:81-167 | the section of one operation, with the response loop, or the first missing value |
| ManPage.RenderPathItem | summary.ts:78-168 | the loop over a path item's entries, skipping those without a truthy operationId, stops at the first failure |
| ManPage.GenerateManPage | summary.ts:57-182 | the loops over paths and entries produce `ManPage(doc)`: prelude, sections, trailer, or the first missing value |
| Overview.ItemsOfSnoc | slop.ts:38-65 | one more path adds its items at the end |
| Overview.CollectItems | slop.ts:37-66 | the path loop collects the items of every path, none without `paths` |
| Overview.CollectPathItems | slop.ts:39-64 | the method loop collects the items of the defined operations in get, post, put, patch, delete order |
| Overview.InfoLines | slop.ts:22-28 | no lines without `info`; otherwise two or three lines ending in a blank one, three exactly when the description is truthy |
| Overview.CollectInfo | slop.ts:22-28 | the pushes of the title block produce `InfoLines` |
| Overview.SlopItemLines | slop.ts:71-77 | one line per item |
| Overview.MainItemLines | main.ts:82-88 | one line per item |
| Overview.NatToString | slop.ts:82 | the count is written in decimal: the digits denote exactly the count, and there is a leading "0" only for zero |
| Overview.ServerOriginCases | slop.ts:10-19 | no servers give ""; a first server URL that parses gives its origin; one that does not gives its text up to the first "/" |
| Overview.GenerateSlopOverview | slop.ts:3-87 | the pushes, count and `unshift`s produce the joined `SlopLines` |
| Overview.GenerateMainOverview | main.ts:9-91 | the pushes produce the joined `MainLines`, with the introduction first |
| Overview.MethodItemMembership | slop.ts:41-63 | a method contributes an item exactly when its operation is defined, and that item is the operation's |
| Overview.PathItemsMembership | slop.ts:41-64 | an item of a path is the item of a defined operation under one of the methods |
| Overview.ItemsMembership | slop.ts:37-66 | an item is listed exactly when it is the item of a defined operation under get, post, put, patch or delete of some path |
| Overview.ItemsAppend | slop.ts:38-65 | the listing goes path by path |
| Overview.PathItemsInScanOrder | slop.ts:39-43 | within a path, the items come in the order get, post, put, patch, delete |
| Overview.QueryParamsMembership | slop.ts:51-53 | a parameter enters the query string exactly when its `in` is "query" |
| Overview.QueryStringEmpty | slop.ts:51-56 | the query string is empty exactly when there is no query parameter |
| Overview.QueryStringEntries | slop.ts:51-56 | a non-empty query string is "?" and the `name=type` entries, which split back at "&" |
| Overview.EndpointCount | slop.ts:79-84 | the output starts with a blank line and the introduction; its count is the item lines plus the info block's lines |
| Overview.VariantsDifferBySpace | slop.ts:71-77 | the slop.ts line is the main.ts line with a space after the operationId |

## Left out

- Network and I/O are not modelled:
  - `searchOpenapi`, the remote fetch of the document;
  - `convertSwaggerToOpenapi`;
  - the strip-types calls;
  - `Response` objects, CORS headers and `console.log`.
- `dereferenceSync`, YAML and JSON parsing, `deref`, `generateTypeScript` and
  `getOperations` are foreign code. generateTypescript.ts, deref.ts and
  getOperations.ts are not part of this model.
- URL parsing is not modelled:
  - the locator takes `url.pathname` as given;
  - the request split takes the pathname and `url.search`;
  - `getServerOrigin` takes the origin that `new URL` would yield as a parameter (`None` when the URL does not parse).
- `isLong` is a parameter. The 50000-character test on `JSON.stringify(items)` is not modelled.
- The per-operation `serverOrigin` in the overview loop is computed but never used. It is left out.
- The `sampleDoc` example literal in summary.ts is left out.
- JavaScript lists integer-like object keys, such as response codes, in
  numeric order. The model takes the entry order as given.
- Duplicate keys are not represented. A lookup takes the first entry, which
  agrees with JavaScript for the unique keys of a parsed document.
- Non-operation path-item keys (`parameters`, `summary`, `servers`) are not
  represented.
- OpenAPI 3.1 type arrays are not modelled. A schema's `type` is one
  optional text.
- `enum` and `default` values are taken in their string form.
- PathTemplate.Tokens, PathTemplate.TokensAsWritten: regular-expression metacharacters other than "/" and "." (`^ $ \ * + ? ( ) [ ] |`) are read as literal characters in both; only the meaning of "." is modelled both ways.
- Strings.ToUpper: upper-cases ASCII letters only. It is applied only to the lower-case method names.
- Router.OperationIdsMembership: the diagnostics read `Object.values(paths)` with no guard, and a document without `paths` throws there. The model states the lists for a given `paths` and does not model that error.
- Overview.SlopItemLines: its own contract states only one line per item. The line format is stated by `Overview.VariantsDifferBySpace`, and the whole text by `Overview.GenerateSlopOverview`.
- Overview.MainItemLines: its own contract states only one line per item. The whole text is stated by `Overview.GenerateMainOverview`.

## Findings

| source | as written | input that shows it | evidently intended | confidence | as-written member | corrected member |
|---|---|---|---|---|---|---|
| main.ts:171-183 | only "/" is escaped, so a "." in a template stays the regular-expression wildcard | template "/a.b" matches "/axb" and also "/a/b", a path with one more segment | a template's literal text matches only itself, and a placeholder is exactly one segment | medium, not executed | PathTemplate.TokensAsWritten, PathTemplate.UnescapedDotMatchesAnyCharacter | PathTemplate.Tokens, PathTemplate.PlainTemplateMatchesOnlyItself |
