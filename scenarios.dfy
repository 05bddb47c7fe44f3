/** The "import with query" fixture: an entry module `/t/entry.ts` imports
    `./fixture?x=1` and `./fixture?x=2`, and both must load `/t/fixture.ts`
    while keeping their own query. The lemmas hold on every platform that
    answers the calls these imports make the way Node and esbuild answer them
    on a POSIX system. */
module Scenarios {
  import opened Common
  import opened Extensions
  import opened Host
  import opened Specifiers
  import opened Resolution

  const Entry := "file:///t/entry.ts"

  function FileUrlAt(pathname: string, search: Search): Url {
    Url("file:", Some(""), pathname, search, "")
  }

  /** The answers Node and esbuild give to the calls made while resolving the
      import `specifier`, whose query is `q`, from the entry module. */
  predicate AnswersLikeNode(p: Platform, specifier: string, q: Search) {
    && p.parseUrl(specifier, None) == None
    && p.parseUrl(specifier, Some(Entry)) == Some(FileUrlAt("/t/fixture", q))
    && p.fileUrlToPath(FileUrlAt("/t/fixture", q)) == Some("/t/fixture")
    && p.parseUrl(Entry, None) == Some(FileUrlAt("/t/entry.ts", ""))
    && p.fileUrlToPath(FileUrlAt("/t/entry.ts", "")) == Some("/t/entry.ts")
    && p.dirname("/t/entry.ts") == "/t"
    && p.build("/t/fixture", "/t") == Some(["/t/fixture.ts"])
    && p.encodePath("/t/fixture.ts") == "/t/fixture.ts"
  }

  /** The two imports of the fixture, each with its query. */
  predicate FixtureImport(specifier: string, q: Search) {
    || (specifier == "./fixture?x=1" && q == "?x=1")
    || (specifier == "./fixture?x=2" && q == "?x=2")
  }

  /** A string-literal fact with no counterpart in the loader: it keeps the
      scenario proofs below small. A specifier not starting with `h` is not a
      network URL. */
  lemma NotHttp(s: string)
    requires |s| > 0 && s[0] != 'h'
    ensures !IsHttp(s)
  {
  }

  /** The import is relative and names `/t/fixture`, keeping the query apart. */
  lemma FixtureSpecifier(p: Platform, specifier: string, q: Search)
    requires FixtureImport(specifier, q) && AnswersLikeNode(p, specifier, q)
    ensures TsCompatSpecifier(p, Some(Entry), specifier) == Ok(TsCompat("/t/fixture", q))
  {
  }

  /** String-literal facts with no counterpart in the loader: the URLs the
      fixture resolves to, spelled out once so the scenario proofs below stay small. */
  lemma FixtureHref()
    ensures "file://" + "/t/fixture.ts" == "file:///t/fixture.ts"
    ensures "file:///t/fixture.ts" + "?x=1" == "file:///t/fixture.ts?x=1"
    ensures "file:///t/fixture.ts" + "?x=2" == "file:///t/fixture.ts?x=2"
  {
  }

  /** One import of the fixture resolves to the compiled file with its own query. */
  lemma FixtureImportResolves(p: Platform, specifier: string, q: Search)
    requires FixtureImport(specifier, q) && AnswersLikeNode(p, specifier, q)
    ensures ResolveBase(p, specifier, Some(Entry)) == Resolved("file:///t/fixture.ts" + q, ModuleFormat)
  {
    FixtureSpecifier(p, specifier, q);
    assert FileUrlStringToPath(p, Some(Entry)) == Ok("/t/entry.ts");
    assert Captured(p, "/t/fixture", "/t") == Ok(Some("/t/fixture.ts"));
    NotHttp(specifier);
    NotHttp(Entry);
    assert EndsWith("/t/fixture.ts", OwnedExtensions[0].0);
    TableExtensionIsMatched("/t/fixture.ts", 0);
    FixtureHref();
    FoundPathKeepsQuery(p, specifier, Some(Entry), "/t/fixture.ts");
  }

  /** The two imports reach the same file and differ only in their query. */
  lemma QueryFixtureResolves(p: Platform)
    requires AnswersLikeNode(p, "./fixture?x=1", "?x=1") && AnswersLikeNode(p, "./fixture?x=2", "?x=2")
    ensures ResolveBase(p, "./fixture?x=1", Some(Entry)) == Resolved("file:///t/fixture.ts?x=1", ModuleFormat)
    ensures ResolveBase(p, "./fixture?x=2", Some(Entry)) == Resolved("file:///t/fixture.ts?x=2", ModuleFormat)
  {
    FixtureImportResolves(p, "./fixture?x=1", "?x=1");
    FixtureImportResolves(p, "./fixture?x=2", "?x=2");
    FixtureHref();
  }
}
