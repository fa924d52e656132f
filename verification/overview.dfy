/**
 * `generateOverview`: a plain-text listing of an API, one line per
 * (path, method) pair, preceded by the API's title block.
 *
 * slop.ts holds the served version; main.ts:9-91 holds an older variant
 * that differs in its introduction and in the missing space after the
 * operationId. Both are modelled; `isLong` (the source's 50000-character
 * test on the serialised items) and the origin that URL parsing yields
 * for the first server are parameters.
 */
module Overview {
  import opened Wrappers
  import opened Seqs
  import opened Strings
  import opened OpenApi

  /** One listed operation. */
  datatype Item = Item(operationId: string, pathPart: string, summaryPart: string)

  // ---------------------------------------------------------------------
  // Items

  /** The `in: "query"` parameters, in order. */
  function QueryParams(ps: seq<Parameter>): seq<Parameter>
    decreases |ps|
  {
    if ps == [] then [] else (if ps[0].location == "query" then [ps[0]] else []) + QueryParams(ps[1..])
  }

  /** `name=type`, with the name standing in for a missing or empty schema type. */
  function QueryEntry(p: Parameter): string
  {
    p.name + "=" + (if p.schema.Some? && Truthy(p.schema.value.typ) then p.schema.value.typ.value else p.name)
  }

  function QueryEntries(ps: seq<Parameter>): seq<string>
  {
    var qs := QueryParams(ps);
    seq(|qs|, k requires 0 <= k < |qs| => QueryEntry(qs[k]))
  }

  /** `?a=x&b=y`, or nothing when the joined entries are empty. */
  function QueryString(ps: seq<Parameter>): string
  {
    var queryParams := Join(QueryEntries(ps), "&");
    if queryParams != "" then "?" + queryParams else ""
  }

  /** The item of the operation `op` under `httpMethod` of the path template `path`. */
  function MakeItem(path: string, httpMethod: string, op: Operation): Item
  {
    Item(
      if Truthy(op.operationId) then op.operationId.value else "",
      ToUpper(httpMethod) + " " + path + QueryString(op.parameters),
      if Truthy(op.summary) then " - " + op.summary.value else "")
  }

  /** The item of the operation under `m`, if it is defined. */
  function MethodItem(path: string, item: PathItem, m: string): seq<Item>
  {
    var op := Lookup(item, m);
    if op.Some? then [MakeItem(path, m, op.value)] else []
  }

  /** The items of one path item for the methods `methods`, in that order. */
  function PathItems(path: string, item: PathItem, methods: seq<string>): seq<Item>
  {
    FlatMap(methods, m => MethodItem(path, item, m))
  }

  /** The items of all paths: path by path, then get, post, put, patch, delete. */
  function ItemsOf(paths: Paths): seq<Item>
  {
    FlatMap(paths, (e: (string, PathItem)) => PathItems(e.0, e.1, ScanOrder))
  }

  /** One more path contributes its items at the end. */
  lemma ItemsOfSnoc(paths: Paths, e: (string, PathItem))
    ensures ItemsOf(paths + [e]) == ItemsOf(paths) + PathItems(e.0, e.1, ScanOrder)
  {
    FlatMapSnoc(paths, e, (e: (string, PathItem)) => PathItems(e.0, e.1, ScanOrder));
  }

  /** The loop over the paths, when the document has any. */
  method CollectItems(openapi: Document) returns (items: seq<Item>)
    ensures items == AllItems(openapi)
  {
    items := [];
    if openapi.paths.Some? {
      var paths := openapi.paths.value;
      var i := 0;
      while i < |paths|
        invariant 0 <= i <= |paths|
        invariant items == ItemsOf(paths[..i])
      {
        var found := CollectPathItems(paths[i].0, paths[i].1);
        PrefixSnoc(paths, i);
        ItemsOfSnoc(paths[..i], paths[i]);
        items := items + found;
        i := i + 1;
      }
      assert paths[..i] == paths;
    }
  }

  /** The loop over get, post, put, patch, delete of one path item, skipping absent operations. */
  method CollectPathItems(path: string, pathItem: PathItem) returns (found: seq<Item>)
    ensures found == PathItems(path, pathItem, ScanOrder)
  {
    var methods := ScanOrder;
    found := [];
    var j := 0;
    while j < |methods|
      invariant 0 <= j <= |methods|
      invariant found == PathItems(path, pathItem, methods[..j])
    {
      var operation := Lookup(pathItem, methods[j]);
      PrefixSnoc(methods, j);
      FlatMapSnoc(methods[..j], methods[j], m => MethodItem(path, pathItem, m));
      if operation.Some? {
        found := found + [MakeItem(path, methods[j], operation.value)];
      }
      j := j + 1;
    }
    assert methods[..j] == methods;
  }

  // ---------------------------------------------------------------------
  // Lines

  /** `getServerOrigin(undefined, servers)`: the origin of the first server URL, given as `parsed` when it parses. */
  function ServerOrigin(servers: seq<string>, parsed: Option<string>): string
  {
    if servers == [] then ""
    else if parsed.Some? then parsed.value
    else Split(servers[0], '/')[0]
  }

  /**
   * No servers give no origin; a first server URL that parses gives its
   * origin; one that does not gives its text up to the first "/".
   */
  lemma ServerOriginCases(servers: seq<string>, parsed: Option<string>)
    ensures servers == [] ==> ServerOrigin(servers, parsed) == ""
    ensures servers != [] && parsed.Some? ==> ServerOrigin(servers, parsed) == parsed.value
    ensures servers != [] && parsed.None? ==>
      var r := ServerOrigin(servers, parsed);
      r <= servers[0] && '/' !in r && (|r| < |servers[0]| ==> servers[0][|r|] == '/')
  {
    if servers != [] {
      SplitFirstPiece(servers[0], '/');
    }
  }

  /** The title line, the description when truthy, and a blank line; nothing without `info`. */
  function InfoLines(info: Option<Info>, origin: string): (r: seq<string>)
    ensures info.None? ==> r == []
    ensures info.Some? ==> 2 <= |r| <= 3 && r[|r| - 1] == ""
    ensures info.Some? ==> (|r| == 3 <==> Truthy(info.value.description))
  {
    if info.None? then []
    else
      var i := info.value;
      [Str(i.title) + " v" + Str(i.version) + " - " + origin]
      + (if Truthy(i.description) then [i.description.value] else [])
      + [""]
  }

  /** The item line of slop.ts; `isLong` drops the method, path and query string. */
  function SlopLine(it: Item, isLong: bool): string
  {
    if isLong then "- " + it.operationId + " " + it.summaryPart
    else "- " + it.operationId + " " + it.pathPart + it.summaryPart
  }

  /** The item line of the main.ts variant: no space after the operationId. */
  function MainLine(it: Item, isLong: bool): string
  {
    if isLong then "- " + it.operationId + it.summaryPart
    else "- " + it.operationId + it.pathPart + it.summaryPart
  }

  /** `items.map(...)` with the slop.ts line format. */
  function SlopItemLines(items: seq<Item>, isLong: bool): (r: seq<string>)
    ensures |r| == |items|
  {
    seq(|items|, k requires 0 <= k < |items| => SlopLine(items[k], isLong))
  }

  /** `items.map(...)` with the main.ts line format. */
  function MainItemLines(items: seq<Item>, isLong: bool): (r: seq<string>)
    ensures |r| == |items|
  {
    seq(|items|, k requires 0 <= k < |items| => MainLine(items[k], isLong))
  }

  /** The number a string of decimal digits denotes. */
  function DigitsValue(s: string): nat
    requires forall k :: 0 <= k < |s| ==> '0' <= s[k] <= '9'
  {
    if s == [] then 0
    else 10 * DigitsValue(s[..|s| - 1]) + (s[|s| - 1] as int - '0' as int)
  }

  /** `String(n)`: the decimal digits of `n`, without leading zeros. */
  function NatToString(n: nat): (r: string)
    ensures |r| >= 1
    ensures forall k :: 0 <= k < |r| ==> '0' <= r[k] <= '9'
    ensures DigitsValue(r) == n
    ensures r[0] == '0' <==> n == 0
  {
    var d := ['0' + (n % 10) as char];
    if n < 10 then d else NatToString(n / 10) + d
  }

  function SlopIntro(hostname: string, endpointCount: nat): string
  {
    "Below is an overview of the " + hostname + " openapi in simple language. This API contains "
    + NatToString(endpointCount)
    + " endpoints. For more detailed information of an endpoint, visit https://oapis.org/summary/"
    + hostname + "/[idOrRoute]"
  }

  function MainIntro(hostname: string): string
  {
    "Below is an overview of the " + hostname
    + " openapi in simple language. For more detailed information of an endpoint, visit https://oapis.org/summary/"
    + hostname + "/[idOrRoute]"
  }

  function AllItems(doc: Document): seq<Item>
  {
    if doc.paths.Some? then ItemsOf(doc.paths.value) else []
  }

  /** The lines of the slop.ts overview before they are joined with "\n". */
  function SlopLines(hostname: string, doc: Document, parsedOrigin: Option<string>, isLong: bool): seq<string>
  {
    var items := AllItems(doc);
    var body := InfoLines(doc.info, ServerOrigin(doc.servers, parsedOrigin))
      + SlopItemLines(items, isLong);
    [""] + ([SlopIntro(hostname, |body|)] + body)
  }

  /** The lines of the main.ts overview before they are joined with "\n". */
  function MainLines(hostname: string, doc: Document, parsedOrigin: Option<string>, isLong: bool): seq<string>
  {
    var items := AllItems(doc);
    [MainIntro(hostname), ""]
    + InfoLines(doc.info, ServerOrigin(doc.servers, parsedOrigin))
    + MainItemLines(items, isLong)
  }

  /** The pushes of the title block: title line, truthy description, blank line. */
  method CollectInfo(info: Option<Info>, serverOrigin: string) returns (lines: seq<string>)
    ensures lines == InfoLines(info, serverOrigin)
  {
    lines := [];
    if info.Some? {
      var i := info.value;
      lines := lines + [Str(i.title) + " v" + Str(i.version) + " - " + serverOrigin];
      if Truthy(i.description) {
        lines := lines + [i.description.value];
      }
      lines := lines + [""];
    }
  }

  /** slop.ts `generateOverview`: push the info block and the item lines, count them, then prepend the introduction. */
  method GenerateSlopOverview(hostname: string, openapi: Document, parsedOrigin: Option<string>, isLong: bool)
    returns (text: string)
    ensures text == Join(SlopLines(hostname, openapi, parsedOrigin, isLong), "\n")
  {
    var output := CollectInfo(openapi.info, ServerOrigin(openapi.servers, parsedOrigin));
    var items := CollectItems(openapi);
    output := output + SlopItemLines(items, isLong);
    var endpointCount := |output|;
    var intro := SlopIntro(hostname, endpointCount);
    output := [intro] + output;
    output := [""] + output;
    text := Join(output, "\n");
  }

  /** main.ts `generateOverview`: the introduction first, then the info block and the item lines. */
  method GenerateMainOverview(hostname: string, openapi: Document, parsedOrigin: Option<string>, isLong: bool)
    returns (text: string)
    ensures text == Join(MainLines(hostname, openapi, parsedOrigin, isLong), "\n")
  {
    var output := [MainIntro(hostname), ""];
    var info := CollectInfo(openapi.info, ServerOrigin(openapi.servers, parsedOrigin));
    output := output + info;
    var items := CollectItems(openapi);
    output := output + MainItemLines(items, isLong);
    assert output == MainLines(hostname, openapi, parsedOrigin, isLong);
    text := Join(output, "\n");
  }

  // ---------------------------------------------------------------------
  // Properties

  /** The operation of `item` under `m` is defined and listed as `it`. */
  predicate ListedAs(path: string, item: PathItem, m: string, it: Item)
  {
    Lookup(item, m).Some? && it == MakeItem(path, m, Lookup(item, m).value)
  }

  lemma MethodItemMembership(path: string, item: PathItem, m: string, it: Item)
    ensures it in MethodItem(path, item, m) <==> ListedAs(path, item, m, it)
  {
  }

  /** An item of a path item is the item of a defined operation under one of `methods`. */
  lemma PathItemsMembership(path: string, item: PathItem, methods: seq<string>, it: Item)
    ensures it in PathItems(path, item, methods) <==> exists m :: m in methods && ListedAs(path, item, m, it)
  {
    var f := m => MethodItem(path, item, m);
    FlatMapMembership(methods, f, it);
    if it in PathItems(path, item, methods) {
      var k :| 0 <= k < |methods| && it in f(methods[k]);
      MethodItemMembership(path, item, methods[k], it);
    }
    if exists m :: m in methods && ListedAs(path, item, m, it) {
      var m :| m in methods && ListedAs(path, item, m, it);
      var k :| 0 <= k < |methods| && methods[k] == m;
      MethodItemMembership(path, item, m, it);
      assert it in f(methods[k]);
    }
  }

  /**
   * An item is listed exactly when it is the item of a defined operation
   * under get, post, put, patch or delete of some path.
   */
  lemma ItemsMembership(paths: Paths, it: Item)
    ensures it in ItemsOf(paths) <==>
      exists p, m :: 0 <= p < |paths| && m in ScanOrder && ListedAs(paths[p].0, paths[p].1, m, it)
  {
    var f := (e: (string, PathItem)) => PathItems(e.0, e.1, ScanOrder);
    FlatMapMembership(paths, f, it);
    if it in ItemsOf(paths) {
      var p :| 0 <= p < |paths| && it in f(paths[p]);
      PathItemsMembership(paths[p].0, paths[p].1, ScanOrder, it);
    }
    if exists p, m :: 0 <= p < |paths| && m in ScanOrder && ListedAs(paths[p].0, paths[p].1, m, it) {
      var p, m :| 0 <= p < |paths| && m in ScanOrder && ListedAs(paths[p].0, paths[p].1, m, it);
      PathItemsMembership(paths[p].0, paths[p].1, ScanOrder, it);
      assert it in f(paths[p]);
    }
  }

  /** The listing goes path by path: the items of consecutive path lists follow each other. */
  lemma ItemsAppend(a: Paths, b: Paths)
    ensures ItemsOf(a + b) == ItemsOf(a) + ItemsOf(b)
  {
    FlatMapAppend(a, b, (e: (string, PathItem)) => PathItems(e.0, e.1, ScanOrder));
  }

  /** Within a path, the operations are listed in the order get, post, put, patch, delete. */
  lemma PathItemsInScanOrder(path: string, item: PathItem)
    ensures PathItems(path, item, ScanOrder) ==
      MethodItem(path, item, "get") + MethodItem(path, item, "post") + MethodItem(path, item, "put")
      + MethodItem(path, item, "patch") + MethodItem(path, item, "delete")
  {
    FlatMapFive("get", "post", "put", "patch", "delete", m => MethodItem(path, item, m));
  }

  /** A parameter enters the query string exactly when it is a query parameter. */
  lemma {:induction false} QueryParamsMembership(ps: seq<Parameter>, p: Parameter)
    ensures p in QueryParams(ps) <==> p in ps && p.location == "query"
    decreases |ps|
  {
    if ps != [] {
      QueryParamsMembership(ps[1..], p);
      assert ps == [ps[0]] + ps[1..];
    }
  }

  /** The query string is empty exactly when the operation has no query parameter. */
  lemma QueryStringEmpty(ps: seq<Parameter>)
    ensures QueryString(ps) == "" <==> forall k :: 0 <= k < |ps| ==> ps[k].location != "query"
  {
    var entries := QueryEntries(ps);
    forall k | 0 <= k < |entries|
      ensures entries[k] != ""
    {
      assert '=' in entries[k];
    }
    JoinNonEmpty(entries, "&");
    if exists k :: 0 <= k < |ps| && ps[k].location == "query" {
      var k :| 0 <= k < |ps| && ps[k].location == "query";
      QueryParamsMembership(ps, ps[k]);
    } else if QueryParams(ps) != [] {
      QueryParamsMembership(ps, QueryParams(ps)[0]);
    }
  }

  /**
   * A non-empty query string is "?" followed by the query entries, which
   * come back one by one when split at "&" (given no name or type holds one).
   */
  lemma QueryStringEntries(ps: seq<Parameter>)
    requires QueryString(ps) != ""
    requires forall k :: 0 <= k < |QueryEntries(ps)| ==> '&' !in QueryEntries(ps)[k]
    ensures QueryString(ps)[0] == '?'
    ensures Split(QueryString(ps)[1..], '&') == QueryEntries(ps)
  {
    var entries := QueryEntries(ps);
    assert entries != [];
    assert QueryString(ps)[1..] == Join(entries, "&");
    SplitJoin(entries, '&');
  }

  /**
   * The endpoint count in the introduction is the number of lines after
   * it: the item lines plus the two or three lines of the info block.
   */
  lemma EndpointCount(hostname: string, doc: Document, parsedOrigin: Option<string>, isLong: bool)
    ensures var lines := SlopLines(hostname, doc, parsedOrigin, isLong);
      |lines| >= 2 && lines[0] == "" && lines[1] == SlopIntro(hostname, |lines| - 2)
      && |lines| - 2 == |AllItems(doc)|
         + (if doc.info.None? then 0 else if Truthy(doc.info.value.description) then 3 else 2)
  {
    var items := AllItems(doc);
    var info := InfoLines(doc.info, ServerOrigin(doc.servers, parsedOrigin));
    var body := info + SlopItemLines(items, isLong);
    var intro := SlopIntro(hostname, |body|);
    assert SlopLines(hostname, doc, parsedOrigin, isLong) == [""] + ([intro] + body);
    PrependTwo("", intro, body);
  }

  lemma PrependTwo<T>(a: T, b: T, xs: seq<T>)
    ensures var ys := [a] + ([b] + xs);
      |ys| == |xs| + 2 && ys[0] == a && ys[1] == b
  {
  }

  /** The slop.ts line is the main.ts line with a space after the operationId. */
  lemma VariantsDifferBySpace(it: Item, isLong: bool)
    ensures SlopLine(it, isLong) == "- " + it.operationId + " " + MainLine(it, isLong)[2 + |it.operationId|..]
  {
    var pre := "- " + it.operationId;
    var rest := if isLong then it.summaryPart else it.pathPart + it.summaryPart;
    assert MainLine(it, isLong) == pre + rest;
    assert SlopLine(it, isLong) == pre + " " + rest;
    assert (pre + rest)[|pre|..] == rest;
  }
}
