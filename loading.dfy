/** The load-side hooks: `loadBase` (Node 16.12 and later) and `getFormatBase`,
    `getSourceBase`, `transformSourceBase` (earlier versions), with
    `esbuildTransformSync`, which compiles an owned file. Every hook looks at a
    network URL first, then at an owned extension, and hands anything else to
    the host's default hook. */
module Loading {
  import opened Common
  import opened Extensions
  import opened Host
  import opened NetworkCache

  /** A module's text: the promise of a network request, or esbuild's output. */
  datatype Source = Fetched(promise: Token) | Compiled(code: string)

  /** What a load-side hook settles on: an object with a `format` and/or a
      `source`, a call of the host's default hook with `arg` as its first
      argument and the context unchanged, or a rejection. */
  datatype HookResult =
    | Handled(format: Option<string>, source: Option<Source>)
    | Delegated(arg: string)
    | Failed(error: Error)

  /** The `sourcemap` option: an inline map and a separate one. */
  const SourceMapMode := "both"

  /** The options `esbuildTransformSync` passes to `transformSync` for a file
      whose URL path name is `pathname`. */
  function EsbuildOptions(p: Platform, filename: string, pathname: string, format: Option<string>): (o: TransformOptions)
    requires IsOwned(pathname)
    ensures EndsWithExtensionFor(pathname, o.loader)
    ensures o.format == Esm <==> format == Some(ModuleFormat)
    ensures o.sourcefile == filename && o.sourcemap == SourceMapMode && o.target == p.node
  {
    var loader := ExtensionLoader(pathname).value;
    ExtensionLoaderMatchesTable(pathname, loader);
    TransformOptions(filename, SourceMapMode, loader, p.node, EsbuildFormat(format))
  }

  /** `esbuildTransformSync(rawSource, filename, url, format)`: the compiled
      code, or the error `transformSync` throws. Its warnings go to the console. */
  function EsbuildTransformSync(p: Platform, raw: string, filename: string, pathname: string, format: Option<string>): (r: Fallible<string>)
    requires IsOwned(pathname)
    ensures r.Ok? <==> p.transform(raw, EsbuildOptions(p, filename, pathname, format)).Some?
    ensures r.Ok? ==> p.transform(raw, EsbuildOptions(p, filename, pathname, format)) == Some(r.value)
    ensures r.Threw? ==> r.error == TransformFailed
  {
    match p.transform(raw, EsbuildOptions(p, filename, pathname, format))
    case None => Threw(TransformFailed)
    case Some(js) => Ok(js)
  }

  /** `filename` in `loadBase` and `transformSourceBase`: the URL itself on
      Windows, its file path elsewhere. */
  function SourceFile(p: Platform, url: string): (r: Fallible<string>)
    ensures p.isWindows ==> r == Ok(url)
    ensures !p.isWindows && r.Ok? ==> IsValidUrl(p, url) && p.fileUrlToPath(p.parseUrl(url, None).value) == Some(r.value)
    ensures !p.isWindows && r.Threw? ==> !IsValidUrl(p, url) || p.fileUrlToPath(p.parseUrl(url, None).value).None?
  {
    if p.isWindows then Ok(url) else FileUrlStringToPath(p, Some(url))
  }

  /** Lines 149-165 of `loadBase`: an owned file is read and compiled and
      declared 'module'; any other URL goes to `defaultLoad`. */
  function LoadLocal(p: Platform, url: string, format: Option<string>): (r: HookResult)
    ensures !IsValidUrl(p, url) ==> r == Failed(InvalidUrl)
    ensures IsValidUrl(p, url) ==>
      var u := p.parseUrl(url, None).value;
      IsOwned(u.pathname) && SourceFile(p, url).Ok? && p.readFile(u).Some?
      && p.transform(p.readFile(u).value, EsbuildOptions(p, SourceFile(p, url).value, u.pathname, format)).Some?
      ==> r.Handled?
    ensures r.Delegated? <==> IsValidUrl(p, url) && !IsOwned(p.parseUrl(url, None).value.pathname)
    ensures r.Delegated? ==> r.arg == url
    ensures r.Handled? ==>
      && IsValidUrl(p, url)
      && var u := p.parseUrl(url, None).value;
      && IsOwned(u.pathname) && SourceFile(p, url).Ok? && p.readFile(u).Some?
      && r.format == Some(ModuleFormat) && r.source.Some? && r.source.value.Compiled?
      && p.transform(p.readFile(u).value, EsbuildOptions(p, SourceFile(p, url).value, u.pathname, format))
         == Some(r.source.value.code)
  {
    match p.parseUrl(url, None)
    case None => Failed(InvalidUrl)
    case Some(u) =>
      if !IsOwned(u.pathname) then Delegated(url)
      else
        match SourceFile(p, url)
        case Threw(e) => Failed(e)
        case Ok(filename) =>
          match p.readFile(u)
          case None => Failed(ReadFailed)
          case Some(raw) =>
            match EsbuildTransformSync(p, raw, filename, u.pathname, format)
            case Threw(e) => Failed(e)
            case Ok(js) => Handled(Some(ModuleFormat), Some(Compiled(js)))
  }

  /** `loadBase(url, { format }, defaultLoad)`. */
  method LoadBase(cache: NetworkModuleCache, p: Platform, url: string, format: Option<string>) returns (r: HookResult)
    requires cache.Valid()
    modifies cache
    ensures cache.Valid()
    ensures IsHttp(url) ==> url in cache.entries && r == Handled(Some(ModuleFormat), Some(Fetched(cache.entries[url])))
    ensures IsHttp(url) && url in old(cache.entries) ==> unchanged(cache)
    ensures IsHttp(url) && url !in old(cache.entries) ==>
      cache.entries == old(cache.entries)[url := cache.entries[url]] && cache.started == old(cache.started) + 1
    ensures !IsHttp(url) ==> unchanged(cache) && r == LoadLocal(p, url, format)
  {
    if IsHttp(url) {
      var promise := cache.Fetch(url);
      return Handled(Some(ModuleFormat), Some(Fetched(promise)));
    }
    r := LoadLocal(p, url, format);
  }

  /** `getFormatBase(url, context, defaultGetFormat)`: network URLs and owned
      files are 'module'; the URL is parsed only when it is not a network URL. */
  function GetFormatBase(p: Platform, url: string): (r: HookResult)
    ensures IsHttp(url) ==> r == Handled(Some(ModuleFormat), None)
    ensures r.Handled? ==> r == Handled(Some(ModuleFormat), None)
    ensures r.Handled? <==> IsHttp(url) || (IsValidUrl(p, url) && IsOwned(p.parseUrl(url, None).value.pathname))
    ensures r.Delegated? <==> !IsHttp(url) && IsValidUrl(p, url) && !IsOwned(p.parseUrl(url, None).value.pathname)
    ensures r.Delegated? ==> r.arg == url
  {
    if IsHttp(url) then Handled(Some(ModuleFormat), None)
    else
      match p.parseUrl(url, None)
      case None => Failed(InvalidUrl)
      case Some(u) =>
        if IsOwned(u.pathname) then Handled(Some(ModuleFormat), None) else Delegated(url)
  }

  /** `getSourceBase(url, context, defaultGetSource)`: only network URLs are
      answered, with the cached promise; everything else goes to the default. */
  method GetSourceBase(cache: NetworkModuleCache, url: string) returns (r: HookResult)
    requires cache.Valid()
    modifies cache
    ensures cache.Valid()
    ensures r.Handled? <==> IsHttp(url)
    ensures IsHttp(url) ==> url in cache.entries && r == Handled(None, Some(Fetched(cache.entries[url])))
    ensures IsHttp(url) && url in old(cache.entries) ==> unchanged(cache)
    ensures IsHttp(url) && url !in old(cache.entries) ==>
      cache.entries == old(cache.entries)[url := cache.entries[url]] && cache.started == old(cache.started) + 1
    ensures !IsHttp(url) ==> unchanged(cache) && r == Delegated(url)
  {
    if IsHttp(url) {
      var promise := cache.Fetch(url);
      return Handled(None, Some(Fetched(promise)));
    }
    r := Delegated(url);
  }

  /** Lines 195-207 of `transformSourceBase`: the given text of an owned file is
      compiled (the answer carries no format); anything else goes to
      `defaultTransformSource` with the text unchanged. */
  function TransformLocal(p: Platform, source: string, url: string, format: Option<string>): (r: HookResult)
    ensures !IsValidUrl(p, url) ==> r == Failed(InvalidUrl)
    ensures IsValidUrl(p, url) ==>
      var u := p.parseUrl(url, None).value;
      IsOwned(u.pathname) && SourceFile(p, url).Ok?
      && p.transform(source, EsbuildOptions(p, SourceFile(p, url).value, u.pathname, format)).Some?
      ==> r.Handled?
    ensures r.Delegated? <==> IsValidUrl(p, url) && !IsOwned(p.parseUrl(url, None).value.pathname)
    ensures r.Delegated? ==> r.arg == source
    ensures r.Handled? ==>
      && IsValidUrl(p, url)
      && var u := p.parseUrl(url, None).value;
      && IsOwned(u.pathname) && SourceFile(p, url).Ok?
      && r.format == None && r.source.Some? && r.source.value.Compiled?
      && p.transform(source, EsbuildOptions(p, SourceFile(p, url).value, u.pathname, format))
         == Some(r.source.value.code)
  {
    match p.parseUrl(url, None)
    case None => Failed(InvalidUrl)
    case Some(u) =>
      if !IsOwned(u.pathname) then Delegated(source)
      else
        match SourceFile(p, url)
        case Threw(e) => Failed(e)
        case Ok(filename) =>
          match EsbuildTransformSync(p, source, filename, u.pathname, format)
          case Threw(e) => Failed(e)
          case Ok(js) => Handled(None, Some(Compiled(js)))
  }

  /** `transformSourceBase(source, { url, format }, defaultTransformSource)`: a
      network URL is answered with the cached promise (the given text is not
      used) and format 'module'. */
  method TransformSourceBase(cache: NetworkModuleCache, p: Platform, source: string, url: string, format: Option<string>)
    returns (r: HookResult)
    requires cache.Valid()
    modifies cache
    ensures cache.Valid()
    ensures IsHttp(url) ==> url in cache.entries && r == Handled(Some(ModuleFormat), Some(Fetched(cache.entries[url])))
    ensures IsHttp(url) && url in old(cache.entries) ==> unchanged(cache)
    ensures IsHttp(url) && url !in old(cache.entries) ==>
      cache.entries == old(cache.entries)[url := cache.entries[url]] && cache.started == old(cache.started) + 1
    ensures !IsHttp(url) ==> unchanged(cache) && r == TransformLocal(p, source, url, format)
  {
    if IsHttp(url) {
      var promise := cache.Fetch(url);
      return Handled(Some(ModuleFormat), Some(Fetched(promise)));
    }
    r := TransformLocal(p, source, url, format);
  }

  /** For a local file, the two hook protocols give the same answer: `load`
      declares 'module' and compiles the file's text exactly when `getFormat`
      declares 'module' and `transformSource`, given that text, compiles it to
      the same code; and they delegate the same URLs. */
  lemma LegacyTriadAgreesWithLoad(p: Platform, url: string, format: Option<string>, text: string)
    requires !IsHttp(url) && IsValidUrl(p, url)
    requires p.readFile(p.parseUrl(url, None).value) == Some(text)
    ensures LoadLocal(p, url, format).Handled? <==>
      GetFormatBase(p, url).Handled? && TransformLocal(p, text, url, format).Handled?
    ensures LoadLocal(p, url, format).Handled? ==>
      && GetFormatBase(p, url).format == LoadLocal(p, url, format).format
      && TransformLocal(p, text, url, format).source == LoadLocal(p, url, format).source
    ensures LoadLocal(p, url, format).Delegated? <==> GetFormatBase(p, url).Delegated?
    ensures LoadLocal(p, url, format).Delegated? <==> TransformLocal(p, text, url, format).Delegated?
  {
  }
}
