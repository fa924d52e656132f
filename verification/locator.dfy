/**
 * `matchOperation`: finds the operation a request path designates, trying
 * in turn an exact path with a `get` operation, an `operationId` equal to
 * the path without its first character, and the path templates.
 */
module Locator {
  import opened Wrappers
  import opened Seqs
  import opened Strings
  import opened OpenApi
  import opened PathTemplate

  /** The method order of the template search. */
  const PatternOrder: seq<string> := ["get", "post", "delete", "patch", "put"]

  /** The located operation, the path key it sits under and its upper-case method. */
  datatype Match = Match(operation: Operation, originalPath: string, httpMethod: string)

  /** `s.slice(1)`. */
  function DropFirst(s: string): string
  {
    if s == [] then s else s[1..]
  }

  /** Tier 1: `paths[pathname]?.get`. */
  function DirectGet(paths: Paths, pathname: string): Option<Operation>
  {
    match Lookup(paths, pathname)
    case None => None
    case Some(item) => Lookup(item, "get")
  }

  /** The `m` operation of `item` exists and has operationId `id`. */
  predicate HasId(item: PathItem, m: string, id: string)
  {
    var op := Lookup(item, m);
    op.Some? && op.value.operationId == Some(id)
  }

  /** Position in ScanOrder of the first method of `item` whose operationId is `id`. */
  function IdMethod(item: PathItem, id: string): nat
  {
    FirstIndex(ScanOrder, m => HasId(item, m, id))
  }

  /** Position of the first path entry with an operation whose operationId is `id`. */
  function IdPath(paths: Paths, id: string): nat
  {
    FirstIndex(paths, (e: (string, PathItem)) => IdMethod(e.1, id) < |ScanOrder|)
  }

  /** Position in PatternOrder of the first method `item` defines. */
  function PatternMethod(item: PathItem): nat
  {
    FirstIndex(PatternOrder, m => Lookup(item, m).Some?)
  }

  /**
   * A template entry that defines some method and whose pattern accepts
   * `pathname`; `dot` is the atom a "." of the template becomes.
   */
  predicate PatternHit(e: (string, PathItem), pathname: string, dot: Token)
  {
    PatternMethod(e.1) < |PatternOrder| && Matches(Scan(e.0, dot), pathname)
  }

  /** Position of the first template entry that is a pattern hit. */
  function PatternPath(paths: Paths, pathname: string, dot: Token): nat
  {
    FirstIndex(paths, (e: (string, PathItem)) => PatternHit(e, pathname, dot))
  }

  /** The document's `paths` declare `op` as method `m` of the path key `path`. */
  predicate Declares(paths: Paths, path: string, m: string, op: Operation)
  {
    exists i :: 0 <= i < |paths| && paths[i].0 == path && Lookup(paths[i].1, m) == Some(op)
  }

  /**
   * `matchOperation(openapi, url)` with `url.pathname` given. With `dot`
   * set to `AnyChar` the templates are tested as the source tests them;
   * with `Lit('.')` a "." in a template matches only itself. Whatever it
   * returns is an operation the document declares, under its own path key
   * and method; an exact path with a `get` operation always wins.
   */
  function MatchOperation(doc: Document, pathname: string, dot: Token): (r: Option<Match>)
    ensures doc.paths.None? ==> r.None?
    ensures r.Some? ==> exists m :: m in ScanOrder && ToUpper(m) == r.value.httpMethod &&
                          Declares(doc.paths.value, r.value.originalPath, m, r.value.operation)
    ensures doc.paths.Some? && DirectGet(doc.paths.value, pathname).Some? ==>
              r == Some(Match(DirectGet(doc.paths.value, pathname).value, pathname, "GET"))
  {
    if doc.paths.None? then None
    else
      var paths := doc.paths.value;
      var direct := DirectGet(paths, pathname);
      if direct.Some? then
        var item := Lookup(paths, pathname).value;
        assert "get" in ScanOrder && ToUpper("get") == "GET";
        assert Declares(paths, pathname, "get", direct.value);
        Some(Match(direct.value, pathname, "GET"))
      else
        var id := DropFirst(pathname);
        var i := IdPath(paths, id);
        if i < |paths| then
          var m := ScanOrder[IdMethod(paths[i].1, id)];
          var op := Lookup(paths[i].1, m).value;
          assert Declares(paths, paths[i].0, m, op);
          Some(Match(op, paths[i].0, ToUpper(m)))
        else
          var k := PatternPath(paths, pathname, dot);
          if k < |paths| then
            var m := PatternOrder[PatternMethod(paths[k].1)];
            var op := Lookup(paths[k].1, m).value;
            assert m in ScanOrder;
            assert Declares(paths, paths[k].0, m, op);
            Some(Match(op, paths[k].0, ToUpper(m)))
          else None
  }

  /** A path item none of whose operations carries `id` has no operationId match. */
  lemma IdMethodNone(item: PathItem, id: string)
    requires forall m :: m in ScanOrder ==> !HasId(item, m, id)
    ensures IdMethod(item, id) == |ScanOrder|
  {
  }

  /**
   * Tier 2: without a direct `get` match, the first path in declaration
   * order holding an operation whose operationId is the pathname minus its
   * first character wins, with the first such method in ScanOrder.
   */
  lemma OperationIdTier(doc: Document, pathname: string, dot: Token, i: nat, j: nat)
    requires doc.paths.Some? && DirectGet(doc.paths.value, pathname).None?
    requires i < |doc.paths.value| && j < |ScanOrder|
    requires HasId(doc.paths.value[i].1, ScanOrder[j], DropFirst(pathname))
    requires forall k :: 0 <= k < j ==> !HasId(doc.paths.value[i].1, ScanOrder[k], DropFirst(pathname))
    requires forall p, m :: 0 <= p < i && m in ScanOrder ==> !HasId(doc.paths.value[p].1, m, DropFirst(pathname))
    ensures MatchOperation(doc, pathname, dot) ==
      Some(Match(Lookup(doc.paths.value[i].1, ScanOrder[j]).value, doc.paths.value[i].0, ToUpper(ScanOrder[j])))
  {
    var paths, id := doc.paths.value, DropFirst(pathname);
    assert IdMethod(paths[i].1, id) == j;
    forall p | 0 <= p < i
      ensures IdMethod(paths[p].1, id) == |ScanOrder|
    {
      IdMethodNone(paths[p].1, id);
    }
    assert IdPath(paths, id) == i;
  }

  /**
   * Tier 3: when neither a direct `get` nor an operationId matches, the
   * first template in declaration order that defines a method and whose
   * pattern accepts the pathname wins, with its first method in
   * PatternOrder.
   */
  lemma TemplateTier(doc: Document, pathname: string, dot: Token, i: nat, j: nat)
    requires doc.paths.Some? && DirectGet(doc.paths.value, pathname).None?
    requires forall p, m :: 0 <= p < |doc.paths.value| && m in ScanOrder ==>
               !HasId(doc.paths.value[p].1, m, DropFirst(pathname))
    requires i < |doc.paths.value| && j < |PatternOrder|
    requires Lookup(doc.paths.value[i].1, PatternOrder[j]).Some?
    requires forall k :: 0 <= k < j ==> Lookup(doc.paths.value[i].1, PatternOrder[k]).None?
    requires Matches(Scan(doc.paths.value[i].0, dot), pathname)
    requires forall p :: 0 <= p < i ==> !PatternHit(doc.paths.value[p], pathname, dot)
    ensures MatchOperation(doc, pathname, dot) ==
      Some(Match(Lookup(doc.paths.value[i].1, PatternOrder[j]).value, doc.paths.value[i].0, ToUpper(PatternOrder[j])))
  {
    var paths, id := doc.paths.value, DropFirst(pathname);
    forall p | 0 <= p < |paths|
      ensures IdMethod(paths[p].1, id) == |ScanOrder|
    {
      IdMethodNone(paths[p].1, id);
    }
    assert IdPath(paths, id) == |paths|;
    assert PatternMethod(paths[i].1) == j;
    assert PatternPath(paths, pathname, dot) == i;
  }

  /**
   * Nothing is found exactly when the document has no `paths`, or no tier
   * matches: no direct `get`, no operationId, and no template that defines
   * a method and accepts the pathname.
   */
  lemma NotFound(doc: Document, pathname: string, dot: Token)
    ensures MatchOperation(doc, pathname, dot).None? <==>
      (doc.paths.None? ||
       (DirectGet(doc.paths.value, pathname).None? &&
        (forall p, m :: 0 <= p < |doc.paths.value| && m in ScanOrder ==>
           !HasId(doc.paths.value[p].1, m, DropFirst(pathname))) &&
        (forall p :: 0 <= p < |doc.paths.value| ==> !PatternHit(doc.paths.value[p], pathname, dot))))
  {
    if doc.paths.Some? && DirectGet(doc.paths.value, pathname).None? {
      var paths, id := doc.paths.value, DropFirst(pathname);
      var q := IdPath(paths, id);
      if q < |paths| {
        var r := IdMethod(paths[q].1, id);
        assert HasId(paths[q].1, ScanOrder[r], id);
      } else {
        forall p, m | 0 <= p < |paths| && m in ScanOrder
          ensures !HasId(paths[p].1, m, id)
        {
          var r := IdMethod(paths[p].1, id);
          assert r == |ScanOrder|;
          var k :| 0 <= k < |ScanOrder| && ScanOrder[k] == m;
        }
      }
    }
  }

  /**
   * A document with the single template "/users/{id}" whose `get` operation
   * has operationId "getUser": the request path "/getUser" finds it by its
   * operationId, under its template and as GET.
   */
  lemma LocateByOperationId(op: Operation, dot: Token)
    requires op.operationId == Some("getUser")
    ensures MatchOperation(Document(None, None, [], Some([("/users/{id}", [("get", op)])])), "/getUser", dot)
            == Some(Match(op, "/users/{id}", "GET"))
  {
    var doc := Document(None, None, [], Some([("/users/{id}", [("get", op)])]));
    assert "/users/{id}" != "/getUser";
    assert DropFirst("/getUser") == "getUser";
    assert ToUpper("get") == "GET";
    OperationIdTier(doc, "/getUser", dot, 0, 0);
  }

  /**
   * The source's locator finds the `get` operation of the template "/a.b"
   * for the request path "/axb"; with "." read literally nothing is found.
   */
  lemma DotTemplateLocatesOtherPath(op: Operation)
    requires op.operationId.None?
    ensures MatchOperation(Document(None, None, [], Some([("/a.b", [("get", op)])])), "/axb", AnyChar)
            == Some(Match(op, "/a.b", "GET"))
    ensures MatchOperation(Document(None, None, [], Some([("/a.b", [("get", op)])])), "/axb", Lit('.')).None?
  {
    var doc := Document(None, None, [], Some([("/a.b", [("get", op)])]));
    var paths := doc.paths.value;
    assert "/a.b" != "/axb";
    assert DirectGet(paths, "/axb").None?;
    assert !HasId(paths[0].1, "get", DropFirst("/axb"));
    assert forall m :: m in ScanOrder ==> !HasId(paths[0].1, m, DropFirst("/axb"));
    assert ToUpper("get") == "GET";
    UnescapedDotMatchesAnyCharacter();
    TemplateTier(doc, "/axb", AnyChar, 0, 0);
    NotFound(doc, "/axb", Lit('.'));
  }

  /**
   * Templates without "." are tested alike by the source's expression and
   * the corrected one, so on such documents both locators agree.
   */
  lemma DotFreeTemplatesLocateAlike(doc: Document, pathname: string)
    requires doc.paths.Some? ==> forall p :: 0 <= p < |doc.paths.value| ==> '.' !in doc.paths.value[p].0
    ensures MatchOperation(doc, pathname, AnyChar) == MatchOperation(doc, pathname, Lit('.'))
  {
    if doc.paths.Some? {
      var paths := doc.paths.value;
      forall p | 0 <= p < |paths|
        ensures PatternHit(paths[p], pathname, AnyChar) == PatternHit(paths[p], pathname, Lit('.'))
      {
        DotFreeScan(paths[p].0, AnyChar, Lit('.'));
      }
      FirstIndexAgree(paths, (e: (string, PathItem)) => PatternHit(e, pathname, AnyChar),
                             (e: (string, PathItem)) => PatternHit(e, pathname, Lit('.')));
    }
  }
}
