/**
 * The request handling around the locator: splitting the request path into
 * kind, host name and route, cutting the document down to one route, and
 * the diagnostic text of an unknown operation.
 */
module Router {
  import opened Wrappers
  import opened Seqs
  import opened Strings
  import opened OpenApi

  /** The kinds of output the handler serves. */
  const Kinds: seq<string> :=
    ["request", "response", "summary", "openapi", "ts", "cjs", "esm", "operations", "overview", "slop"]

  /** The text of the 400 response to a request path the handler refuses. */
  const FormatHint: string := "Please use the format /[type]/[hostname]/[idOrRoute]"

  /** What a request path designates: `/[type]/[hostname]/[idOrRoute]`. */
  datatype Target = Target(kind: string, hostname: string, route: string)

  /**
   * Splits `url.pathname` (with `url.search` appended to a non-empty route)
   * and refuses an unknown kind or an empty host name.
   */
  function ParseRequestPath(pathname: string, search: string): (r: Result<Target, string>)
    ensures r.Ok? ==> r.value.kind in Kinds && r.value.hostname != "" && '/' !in r.value.hostname
    ensures r.Err? ==> r.error == FormatHint
  {
    var parts := Split(pathname, '/')[1..];
    var rest := if |parts| > 2 then parts[2..] else [];
    var route := if |rest| > 0 then "/" + Join(rest, "/") + search else "";
    if |parts| < 2 || parts[0] !in Kinds || parts[1] == "" then Err(FormatHint)
    else Ok(Target(parts[0], parts[1], route))
  }

  /**
   * An accepted request path is recovered from its parts: without a route
   * it is "/kind/hostname", with one it is "/kind/hostname" + route minus
   * the query string.
   */
  lemma RequestPathRoundTrip(pathname: string, search: string)
    requires pathname != [] && pathname[0] == '/'
    requires ParseRequestPath(pathname, search).Ok?
    ensures var t := ParseRequestPath(pathname, search).value;
      if t.route == "" then pathname == "/" + t.kind + "/" + t.hostname
      else pathname + search == "/" + t.kind + "/" + t.hostname + t.route
  {
    var all := Split(pathname, '/');
    var parts := all[1..];
    var t := ParseRequestPath(pathname, search).value;
    JoinSplit(pathname, '/');
    assert all[0] == "" && |parts| >= 2;
    assert t.kind == parts[0] && t.hostname == parts[1];
    JoinCons(all, "/");
    JoinCons(parts, "/");
    if |parts| == 2 {
      assert Join(parts[1..], "/") == parts[1];
      Regroup3(all[0], "/", parts[0], parts[1]);
    } else {
      JoinCons(parts[1..], "/");
      assert parts[1..][1..] == parts[2..];
      var rest := Join(parts[2..], "/");
      assert t.route == "/" + rest + search;
      Regroup4(all[0], "/", parts[0], parts[1], rest, search);
    }
  }

  /** `[e, a, b].join(s)` with an empty `e`, regrouped. */
  lemma Regroup3<T>(e: seq<T>, s: seq<T>, a: seq<T>, b: seq<T>)
    requires e == []
    ensures e + s + (a + s + b) == s + a + s + b
  {
  }

  /** `[e, a, b, r].join(s)` with an empty `e` and `q` appended, regrouped. */
  lemma Regroup4<T>(e: seq<T>, s: seq<T>, a: seq<T>, b: seq<T>, r: seq<T>, q: seq<T>)
    requires e == []
    ensures e + s + (a + s + (b + s + r)) + q == s + a + s + b + (s + r + q)
  {
  }

  lemma KindsHaveNoSlash()
    ensures forall k :: k in Kinds ==> '/' !in k
  {
  }

  /** A path made of a kind and a host name free of '/', then `suffix`, splits at both slashes. */
  lemma SplitRequestPrefix(kind: string, hostname: string, suffix: seq<string>, t: string)
    requires '/' !in kind && '/' !in hostname
    requires Split(t, '/') == [hostname] + suffix
    ensures Split("/" + kind + "/" + t, '/') == ["", kind, hostname] + suffix
  {
    SplitWithoutSeparator(kind, '/');
    SplitAtSeparator(kind, t, '/');
    SplitAtSeparator("", kind + "/" + t, '/');
    LeadSeparator("", "/", kind, t);
  }

  lemma LeadSeparator<T>(e: seq<T>, s: seq<T>, k: seq<T>, t: seq<T>)
    requires e == []
    ensures s + k + s + t == e + s + (k + s + t)
  {
  }

  /**
   * Conversely, every known kind with a non-empty host name is accepted,
   * with an empty route when nothing follows.
   */
  lemma RequestPathAccepted(kind: string, hostname: string, search: string)
    requires kind in Kinds && hostname != "" && '/' !in hostname
    ensures ParseRequestPath("/" + kind + "/" + hostname, search) == Ok(Target(kind, hostname, ""))
  {
    KindsHaveNoSlash();
    SplitWithoutSeparator(hostname, '/');
    SplitRequestPrefix(kind, hostname, [], hostname);
  }

  /**
   * ... and with the rest of the path plus the query string as the route
   * when something follows the host name.
   */
  lemma RequestPathWithRoute(kind: string, hostname: string, tail: string, search: string)
    requires kind in Kinds && hostname != "" && '/' !in hostname
    ensures ParseRequestPath("/" + kind + "/" + hostname + "/" + tail, search)
            == Ok(Target(kind, hostname, "/" + tail + search))
  {
    KindsHaveNoSlash();
    SplitWithoutSeparator(hostname, '/');
    SplitAtSeparator(hostname, tail, '/');
    SplitRequestPrefix(kind, hostname, Split(tail, '/'), hostname + "/" + tail);
    assert "/" + kind + "/" + hostname + "/" + tail == "/" + kind + "/" + (hostname + "/" + tail);
    JoinSplit(tail, '/');
  }

  // ---------------------------------------------------------------------
  // getOpenAPISubset

  /** A path entry the route designates: by its key, or by its `get` operation's operationId. */
  predicate Selects(e: (string, PathItem), route: string)
  {
    e.0 == route || (var g := Lookup(e.1, "get"); g.Some? && g.value.operationId == Some(route))
  }

  /**
   * `getOpenAPISubset`: with an empty route or no `paths` the document is
   * returned as it is; otherwise it keeps every other field and its `paths`
   * hold only the first entry the route designates, if any.
   */
  method OpenApiSubset(doc: Document, route: string) returns (r: Document)
    ensures route == "" || doc.paths.None? ==> r == doc
    ensures route != "" && doc.paths.Some? ==>
      r == doc.(paths := r.paths) && r.paths.Some? && |r.paths.value| <= 1
    ensures route != "" && doc.paths.Some? ==>
      (r.paths.value == [] <==> forall k :: 0 <= k < |doc.paths.value| ==> !Selects(doc.paths.value[k], route))
    ensures route != "" && doc.paths.Some? && r.paths.value != [] ==>
      exists i :: 0 <= i < |doc.paths.value| && r.paths.value == [doc.paths.value[i]] &&
        Selects(doc.paths.value[i], route) &&
        forall k :: 0 <= k < i ==> !Selects(doc.paths.value[k], route)
  {
    if route == "" || doc.paths.None? {
      return doc;
    }
    var paths := doc.paths.value;
    var matching: Paths := [];
    var i := 0;
    while i < |paths|
      invariant 0 <= i <= |paths|
      invariant matching == []
      invariant forall k :: 0 <= k < i ==> !Selects(paths[k], route)
    {
      if Selects(paths[i], route) {
        matching := [paths[i]];
        break;
      }
      i := i + 1;
    }
    r := doc.(paths := Some(matching));
  }

  // ---------------------------------------------------------------------
  // Diagnostics of an unknown operation

  /** The method order of the diagnostic id list. */
  const DiagnosticOrder: seq<string> := ["get", "post", "delete", "put", "patch"]

  /** The present, non-empty operationIds of `item` among the methods `order`, in that order. */
  function IdsIn(item: PathItem, order: seq<string>): seq<string>
    decreases |order|
  {
    if order == [] then []
    else
      var op := Lookup(item, order[0]);
      (if op.Some? && Truthy(op.value.operationId) then [op.value.operationId.value] else [])
      + IdsIn(item, order[1..])
  }

  /** The id list: path by path, the present, non-empty operationIds in DiagnosticOrder. */
  function OperationIds(paths: Paths): seq<string>
    decreases |paths|
  {
    if paths == [] then [] else IdsIn(paths[0].1, DiagnosticOrder) + OperationIds(paths[1..])
  }

  /** `"- " + x` for every entry. */
  function BulletLines(xs: seq<string>): (r: seq<string>)
    ensures |r| == |xs|
  {
    seq(|xs|, k requires 0 <= k < |xs| => "- " + xs[k])
  }

  /** `xs.map((x) => "- " + x).join("\n")`. */
  function Bullets(xs: seq<string>): string
  {
    Join(BulletLines(xs), "\n")
  }

  /** The fixed lines of the 404 text (the header is written in pieces to keep its character facts small). */
  const NotFoundHeader: string :=
    "Operation wasn't found. " + "Please specify a operation " + "using an operationId or route"
  const Padding: string := "          "
  const IdsTitle: string := "The available IDs are: "
  const RoutesTitle: string := "The routes are:"

  /** The 404 text around an id block and a route block. */
  function NotFoundText(ids: string, routes: string): string
  {
    NotFoundHeader + "\n" + Padding + "\n" + IdsTitle + "\n" + ids + "\n" + "\n" + RoutesTitle + "\n" + routes
  }

  /** The 404 text listing the known operationIds and path templates. */
  function NotFoundMessage(paths: Paths): string
  {
    NotFoundText(Bullets(OperationIds(paths)), Bullets(Keys(paths)))
  }

  /** The operation of `item` under method `m` has operationId `x`. */
  predicate Carries(item: PathItem, m: string, x: string)
  {
    var op := Lookup(item, m);
    op.Some? && op.value.operationId == Some(x)
  }

  /** An id lies in the list of `IdsIn` exactly when a listed method's operation carries it and it is not empty. */
  lemma {:induction false} IdsInMembership(item: PathItem, order: seq<string>, x: string)
    ensures x in IdsIn(item, order) <==> x != "" && exists m :: m in order && Carries(item, m, x)
    decreases |order|
  {
    if order != [] {
      IdsInMembership(item, order[1..], x);
      var op := Lookup(item, order[0]);
      var head := if op.Some? && Truthy(op.value.operationId) then [op.value.operationId.value] else [];
      assert IdsIn(item, order) == head + IdsIn(item, order[1..]);
      if x in head {
        assert Carries(item, order[0], x);
      }
      if x != "" && exists m :: m in order && Carries(item, m, x) {
        var m :| m in order && Carries(item, m, x);
        if m == order[0] {
          assert x in head;
        } else {
          assert m in order[1..];
        }
      }
    }
  }

  /** Some path's operation under one of the diagnostic methods carries `x`. */
  predicate Declared(paths: Paths, x: string)
  {
    exists p, m :: 0 <= p < |paths| && m in DiagnosticOrder && Carries(paths[p].1, m, x)
  }

  /**
   * The id list holds an id exactly when some path's get, post, delete, put
   * or patch operation carries it and it is not empty.
   */
  lemma {:induction false} OperationIdsMembership(paths: Paths, x: string)
    ensures x in OperationIds(paths) <==> x != "" && Declared(paths, x)
    decreases |paths|
  {
    if paths != [] {
      IdsInMembership(paths[0].1, DiagnosticOrder, x);
      OperationIdsMembership(paths[1..], x);
      if Declared(paths[1..], x) {
        var p, m :| 0 <= p < |paths[1..]| && m in DiagnosticOrder && Carries(paths[1..][p].1, m, x);
        assert paths[1..][p] == paths[p + 1];
        assert Declared(paths, x);
      }
      if Declared(paths, x) {
        var p, m :| 0 <= p < |paths| && m in DiagnosticOrder && Carries(paths[p].1, m, x);
        if p > 0 {
          assert paths[1..][p - 1] == paths[p];
          assert Declared(paths[1..], x);
        }
      }
    }
  }

  /** The id list of consecutive path lists is the concatenation of theirs: the order is path by path. */
  lemma {:induction false} OperationIdsAppend(a: Paths, b: Paths)
    ensures OperationIds(a + b) == OperationIds(a) + OperationIds(b)
    decreases |a|
  {
    if a == [] {
      assert a + b == b;
    } else {
      assert (a + b)[1..] == a[1..] + b;
      OperationIdsAppend(a[1..], b);
    }
  }

  /** The lines of a bullet list: one "- x" per entry, or a single empty line for no entries. */
  function BulletBlock(xs: seq<string>): seq<string>
  {
    if xs == [] then [""] else BulletLines(xs)
  }

  /** Entries without line breaks come back one per line. */
  lemma BulletsSplit(xs: seq<string>)
    requires forall k :: 0 <= k < |xs| ==> '\n' !in xs[k]
    ensures Split(Bullets(xs), '\n') == BulletBlock(xs)
  {
    if xs != [] {
      var ls := BulletLines(xs);
      forall k | 0 <= k < |ls|
        ensures '\n' !in ls[k]
      {
        assert ls[k] == "- " + xs[k];
      }
      SplitJoin(ls, '\n');
    }
  }

  /**
   * When no operationId or path key holds a line break, the 404 text reads
   * line by line: the header, the id bullets and the route bullets, each
   * list in its own order.
   */
  lemma NotFoundLines(paths: Paths)
    requires forall k :: 0 <= k < |paths| ==> '\n' !in paths[k].0
    requires forall x :: x in OperationIds(paths) ==> '\n' !in x
    ensures Split(NotFoundMessage(paths), '\n') ==
      [NotFoundHeader, Padding, IdsTitle] + BulletBlock(OperationIds(paths))
      + ["", RoutesTitle] + BulletBlock(Keys(paths))
  {
    var ids, keys := OperationIds(paths), Keys(paths);
    assert forall k :: 0 <= k < |ids| ==> '\n' !in ids[k] by {
      forall k | 0 <= k < |ids| ensures '\n' !in ids[k] {
        assert ids[k] in ids;
      }
    }
    BulletsSplit(ids);
    assert forall k :: 0 <= k < |keys| ==> '\n' !in keys[k];
    BulletsSplit(keys);
    NotFoundTextLines(Bullets(ids), Bullets(keys));
  }

  /** The fixed lines hold no line break. */
  lemma FixedLinesAreSingle()
    ensures '\n' !in NotFoundHeader && '\n' !in Padding && '\n' !in IdsTitle && '\n' !in RoutesTitle
  {
    HeaderIsSingle();
    assert '\n' !in Padding;
    assert '\n' !in IdsTitle;
    assert '\n' !in RoutesTitle;
  }

  lemma HeaderIsSingle()
    ensures '\n' !in NotFoundHeader
  {
    var a, b, c := "Operation wasn't found. ", "Please specify a operation ", "using an operationId or route";
    SingleLine1(a);
    SingleLine2(b);
    SingleLine3(c);
    assert NotFoundHeader == a + b + c;
  }

  lemma SingleLine1(a: string)
    requires a == "Operation wasn't found. "
    ensures '\n' !in a
  {
  }

  lemma SingleLine2(b: string)
    requires b == "Please specify a operation "
    ensures '\n' !in b
  {
  }

  lemma SingleLine3(c: string)
    requires c == "using an operationId or route"
    ensures '\n' !in c
  {
  }

  /** The 404 text splits into its fixed lines and the lines of its two blocks. */
  lemma NotFoundTextLines(ids: string, routes: string)
    ensures Split(NotFoundText(ids, routes), '\n') ==
      [NotFoundHeader, Padding, IdsTitle] + Split(ids, '\n') + ["", RoutesTitle] + Split(routes, '\n')
  {
    FixedLinesAreSingle();
    var s4 := "\n" + (RoutesTitle + "\n" + routes);
    var s3 := ids + "\n" + s4;
    var s2 := IdsTitle + "\n" + s3;
    var s1 := Padding + "\n" + s2;
    assert NotFoundText(ids, routes) == NotFoundHeader + "\n" + s1;
    TwoLines(RoutesTitle, routes);
    TwoLines("", RoutesTitle + "\n" + routes);
    assert "" + "\n" + (RoutesTitle + "\n" + routes) == s4;
    SplitAtSeparator(ids, s4, '\n');
    TwoLines(IdsTitle, s3);
    TwoLines(Padding, s2);
    TwoLines(NotFoundHeader, s1);
    Regroup(NotFoundHeader, Padding, IdsTitle, Split(ids, '\n'), "", RoutesTitle, Split(routes, '\n'));
  }

  lemma Regroup<T>(a: T, b: T, c: T, l: seq<T>, d: T, e: T, m: seq<T>)
    ensures [a] + ([b] + ([c] + (l + ([d] + ([e] + m))))) == [a, b, c] + l + [d, e] + m
  {
  }

  /** Splitting at a line break placed after a single line. */
  lemma TwoLines(a: string, b: string)
    requires '\n' !in a
    ensures Split(a + "\n" + b, '\n') == [a] + Split(b, '\n')
  {
    SplitWithoutSeparator(a, '\n');
    SplitAtSeparator(a, b, '\n');
  }
}
