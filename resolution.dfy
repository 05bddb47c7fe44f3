/** `esbuildResolve` and `resolveBase`: from an import specifier and the URL of
    the importing module to the URL and format the host runtime should use, or
    to a hand-off to the runtime's own `defaultResolve`. */
module Resolution {
  import opened Common
  import opened Extensions
  import opened Host
  import opened Specifiers

  /** What `resolveBase` settles on: `{ url, format }`, a call of
      `defaultResolve(specifier, context, defaultResolve)` with the context
      passed on unchanged, or a rejected promise. */
  datatype Resolution =
    | Resolved(url: string, format: string)
    | Delegated(specifier: string)
    | Rejected(error: Error)

  /** The value left in `result` once the callbacks have run: undefined when
      `onLoad` never ran, the path of its last call otherwise. */
  function LastLoad(loads: seq<string>): Option<string> {
    if loads == [] then None else Some(loads[|loads| - 1])
  }

  /** `esbuildResolve(id, dir)` as a value: a build that rejects rejects the
      resolution; otherwise the captured path. */
  function Captured(p: Platform, id: string, dir: string): (r: Fallible<Option<string>>)
    ensures r.Threw? <==> p.build(id, dir).None?
    ensures r.Threw? ==> r.error == BuildFailed
    ensures r.Ok? ==> (r.value.None? <==> p.build(id, dir).value == [])
    ensures r.Ok? && r.value.Some? ==>
      var loads := p.build(id, dir).value;
      r.value.value == loads[|loads| - 1]
  {
    match p.build(id, dir)
    case None => Threw(BuildFailed)
    case Some(loads) => Ok(LastLoad(loads))
  }

  /** `esbuildResolve(id, dir)`: the plugin's `onLoad` callback assigns the path
      it is called with to the local `result`, once per module esbuild loads.
      The build's entry imports only `id` and every loaded module is given empty
      contents, so in practice there is one call. This method is the imperative
      rendering of `Captured`, the form the rest of the model uses. */
  method EsbuildResolve(p: Platform, id: string, dir: string) returns (r: Fallible<Option<string>>)
    ensures r == Captured(p, id, dir)
    ensures r.Ok? && r.value.Some? ==> p.build(id, dir).Some? && r.value.value in p.build(id, dir).value
  {
    var outcome := p.build(id, dir);
    if outcome.None? {
      return Threw(BuildFailed);
    }
    var loads := outcome.value;
    var result: Option<string> := None;
    for i := 0 to |loads|
      invariant result == LastLoad(loads[..i])
    {
      result := Some(loads[i]);
    }
    assert loads[..|loads|] == loads;
    r := Ok(result);
  }

  /** Lines 107-124 of `resolveBase`: the URL it goes on with, if any. A valid
      URL is taken as it is; otherwise esbuild resolves the TypeScript-compatible
      specifier from the parent's directory, and a non-empty path it finds becomes
      a `file:` URL that gets the specifier's query back. */
  function Locate(p: Platform, specifier: string, parent: Option<string>): (r: Fallible<Option<Url>>)
    ensures IsValidUrl(p, specifier) ==> r == Ok(Some(p.parseUrl(specifier, None).value))
    ensures !IsValidUrl(p, specifier) && r.Ok? ==>
      && TsCompatSpecifier(p, parent, specifier).Ok? && FileUrlStringToPath(p, parent).Ok?
      && var parsed := TsCompatSpecifier(p, parent, specifier).value;
         var c := Captured(p, parsed.tsSpecifier, p.dirname(FileUrlStringToPath(p, parent).value));
         c.Ok? && (r.value.Some? <==> c.value.Some? && c.value.value != "")
         && (r.value.Some? ==>
               r.value.value == Url("file:", Some(""), p.encodePath(c.value.value), parsed.search, ""))
    ensures !IsValidUrl(p, specifier) && r.Threw? ==>
      || TsCompatSpecifier(p, parent, specifier).Threw?
      || FileUrlStringToPath(p, parent).Threw?
      || p.build(TsCompatSpecifier(p, parent, specifier).value.tsSpecifier,
                 p.dirname(FileUrlStringToPath(p, parent).value)).None?
  {
    if IsValidUrl(p, specifier) then
      Ok(Some(p.parseUrl(specifier, None).value))
    else
      match TsCompatSpecifier(p, parent, specifier)
      case Threw(e) => Threw(e)
      case Ok(parsed) =>
        match FileUrlStringToPath(p, parent)
        case Threw(e) => Threw(e)
        case Ok(parentPath) =>
          match Captured(p, parsed.tsSpecifier, p.dirname(parentPath))
          case Threw(e) => Threw(e)
          case Ok(path) =>
            if path.Some? && path.value != "" then
              Ok(Some(PathToFileUrl(p, path.value).(search := parsed.search)))
            else
              Ok(None)
  }

  /** Lines 126-138 of `resolveBase`: an owned URL is answered with format
      'module', any other URL is handed to `defaultResolve` as its `href`, and
      without a URL the original specifier is handed over unchanged. */
  function Route(found: Option<Url>, specifier: string): (r: Resolution)
    ensures r.Resolved? <==> found.Some? && IsOwned(found.value.pathname)
    ensures r.Resolved? ==> r == Resolved(Href(found.value), ModuleFormat)
    ensures found.Some? && !IsOwned(found.value.pathname) ==> r == Delegated(Href(found.value))
    ensures found.None? ==> r == Delegated(specifier)
  {
    match found
    case None => Delegated(specifier)
    case Some(url) =>
      if IsOwned(url.pathname) then Resolved(Href(url), ModuleFormat)
      else Delegated(Href(url))
  }

  /** `resolveBase(specifier, { parentURL }, defaultResolve)`. */
  function ResolveBase(p: Platform, specifier: string, parent: Option<string>): (r: Resolution)
    ensures r.Resolved? ==> r.format == ModuleFormat
    ensures IsHttp(specifier) || IsHttpParent(parent) ==> !r.Delegated?
    ensures r.Delegated? && !IsValidUrl(p, specifier) && r.specifier != specifier ==> StartsWith(r.specifier, "file://")
    ensures IsHttp(specifier) || IsHttpParent(parent) ==>
      (r.Rejected? <==> p.parseUrl(specifier, parent).None?)
    ensures !IsHttp(specifier) && !IsHttpParent(parent) ==>
      (r.Rejected? <==> Locate(p, specifier, parent).Threw?)
    ensures r.Rejected? && !IsHttp(specifier) && !IsHttpParent(parent) ==>
      r.error == Locate(p, specifier, parent).error
  {
    if IsHttp(specifier) || IsHttpParent(parent) then
      match p.parseUrl(specifier, parent)
      case None => Rejected(InvalidUrl)
      case Some(url) => Resolved(Href(url), ModuleFormat)
    else
      match Locate(p, specifier, parent)
      case Threw(e) => Rejected(e)
      case Ok(found) => Route(found, specifier)
  }

  /** A network specifier or a network parent is answered by joining the two,
      with format 'module', whatever the extension. */
  lemma HttpWins(p: Platform, specifier: string, parent: Option<string>)
    requires IsHttp(specifier) || IsHttpParent(parent)
    ensures p.parseUrl(specifier, parent).Some? ==>
      ResolveBase(p, specifier, parent) == Resolved(Href(p.parseUrl(specifier, parent).value), ModuleFormat)
    ensures p.parseUrl(specifier, parent).None? ==> ResolveBase(p, specifier, parent) == Rejected(InvalidUrl)
  {
  }

  /** No other branch runs for a network specifier or parent: the answer does
      not depend on esbuild, the file system or the path conversions. */
  lemma HttpConsultsOnlyUrlParser(p: Platform, q: Platform, specifier: string, parent: Option<string>)
    requires IsHttp(specifier) || IsHttpParent(parent)
    requires p.parseUrl == q.parseUrl
    ensures ResolveBase(p, specifier, parent) == ResolveBase(q, specifier, parent)
  {
  }

  /** A specifier that is already a valid URL is used as it is: owned URLs are
      answered, every other one (`data:`, `node:`, a `.js` file) goes to the
      default resolver, and esbuild is never asked. */
  lemma ValidUrlUsedAsIs(p: Platform, q: Platform, specifier: string, parent: Option<string>)
    requires !IsHttp(specifier) && !IsHttpParent(parent)
    requires IsValidUrl(p, specifier)
    requires p.parseUrl == q.parseUrl
    ensures var u := p.parseUrl(specifier, None).value;
      ResolveBase(p, specifier, parent) ==
        if IsOwned(u.pathname) then Resolved(Href(u), ModuleFormat) else Delegated(Href(u))
    ensures ResolveBase(p, specifier, parent) == ResolveBase(q, specifier, parent)
  {
  }

  /** A URL found through esbuild carries the query string of the original
      specifier: the URL is `file://` + the path + that query. For a relative
      specifier the query is the one of the specifier joined to its parent; a
      bare specifier has none. */
  lemma FoundPathKeepsQuery(p: Platform, specifier: string, parent: Option<string>, path: string)
    requires !IsHttp(specifier) && !IsHttpParent(parent) && !IsValidUrl(p, specifier)
    requires TsCompatSpecifier(p, parent, specifier).Ok? && FileUrlStringToPath(p, parent).Ok?
    requires Captured(p, TsCompatSpecifier(p, parent, specifier).value.tsSpecifier,
                      p.dirname(FileUrlStringToPath(p, parent).value)) == Ok(Some(path))
    requires path != ""
    ensures var search := TsCompatSpecifier(p, parent, specifier).value.search;
      var href := "file://" + p.encodePath(path) + search;
      ResolveBase(p, specifier, parent) ==
        if IsOwned(p.encodePath(path)) then Resolved(href, ModuleFormat) else Delegated(href)
    ensures IsRelative(specifier) ==>
      TsCompatSpecifier(p, parent, specifier).value.search == p.parseUrl(specifier, parent).value.search
    ensures !IsRelative(specifier) ==> TsCompatSpecifier(p, parent, specifier).value.search == ""
  {
  }

  /** When esbuild finds nothing (or an empty path), the original specifier is
      handed to the default resolver unchanged. */
  lemma NotFoundDelegatesSpecifier(p: Platform, specifier: string, parent: Option<string>)
    requires !IsHttp(specifier) && !IsHttpParent(parent) && !IsValidUrl(p, specifier)
    requires TsCompatSpecifier(p, parent, specifier).Ok? && FileUrlStringToPath(p, parent).Ok?
    requires var c := Captured(p, TsCompatSpecifier(p, parent, specifier).value.tsSpecifier,
                               p.dirname(FileUrlStringToPath(p, parent).value));
      c == Ok(None) || c == Ok(Some(""))
    ensures ResolveBase(p, specifier, parent) == Delegated(specifier)
  {
  }

  /** Format 'module' is given, outside the network branch, only to URLs whose
      path name the extension pattern accepts. */
  lemma ResolvedOnlyWhenOwned(p: Platform, specifier: string, parent: Option<string>)
    requires !IsHttp(specifier) && !IsHttpParent(parent)
    requires ResolveBase(p, specifier, parent).Resolved?
    ensures Locate(p, specifier, parent).Ok? && Locate(p, specifier, parent).value.Some?
    ensures var u := Locate(p, specifier, parent).value.value;
      IsOwned(u.pathname) && ResolveBase(p, specifier, parent).url == Href(u)
  {
  }
}
