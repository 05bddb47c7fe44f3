/** What the loader receives from its surroundings: WHATWG URLs, the `url` and
    `path` helpers of Node, esbuild's `build` and `transformSync`, `fs`, the
    platform flag and the running Node version. Each foreign call is a field of
    `Platform`, so every property proved below holds whatever those calls do. */
module Host {
  import opened Common
  import opened Extensions
  import opened Versions

  /** The value of a URL's `search` getter: empty, or a query starting with '?'. */
  type Search = s: string | s == "" || s[0] == '?' witness ""

  /** The components of a WHATWG URL that the loader reads or writes. `host` is
      None for URLs without an authority (`data:`, `node:`); user, password and
      port are folded into `host`. */
  datatype Url = Url(protocol: string, host: Option<string>, pathname: string, search: Search, hash: string)

  /** `url.href`: the serialisation of the components. */
  function Href(u: Url): string {
    u.protocol + (if u.host.Some? then "//" + u.host.value else "") + u.pathname + u.search + u.hash
  }

  /** The options object that `esbuildTransformSync` hands to `transformSync`. */
  datatype TransformOptions = TransformOptions(
    sourcefile: string,
    sourcemap: string,
    loader: Loader,
    target: Version,
    format: OutputFormat)

  /** The foreign calls, each returning None where the call throws.
      - parseUrl(input, base): `new URL(input, base)`;
      - fileUrlToPath(u): `fileURLToPath(u)`;
      - encodePath(path): the `pathname` of `pathToFileURL(path)`;
      - dirname(path): `path.dirname`;
      - build(id, dir): esbuild's `build` of the entry `import "<id>"` in `dir`,
        giving the paths handed to the plugin's `onLoad` callback in order;
      - readFile(u): `fs.readFileSync(u, 'utf8')`;
      - transform(code, options): the `code` of esbuild's `transformSync`;
      - isWindows: `process.platform === 'win32'`;
      - node: `process.versions.node`. */
  datatype Platform = Platform(
    parseUrl: (string, Option<string>) -> Option<Url>,
    fileUrlToPath: Url -> Option<string>,
    encodePath: string -> string,
    dirname: string -> string,
    build: (string, string) -> Option<seq<string>>,
    readFile: Url -> Option<string>,
    transform: (string, TransformOptions) -> Option<string>,
    isWindows: bool,
    node: Version)

  /** `isValidURL(s)`: `new URL(s)` does not throw. */
  predicate IsValidUrl(p: Platform, s: string): (r: bool)
    ensures r <==> p.parseUrl(s, None) != None
  {
    p.parseUrl(s, None).Some?
  }

  /** `pathToFileURL(path)`: a `file:` URL with an empty host and no query or
      fragment (the conversion escapes '?' and '#'). */
  function PathToFileUrl(p: Platform, path: string): (u: Url)
    ensures Href(u) == "file://" + p.encodePath(path)
    ensures u.search == "" && u.hash == ""
  {
    Url("file:", Some(""), p.encodePath(path), "", "")
  }

  /** `fileURLToPath(s)` on a string or `undefined`: a string is parsed as a URL
      first; `undefined` is refused. */
  function FileUrlStringToPath(p: Platform, s: Option<string>): (r: Fallible<string>)
    ensures r.Ok? <==> s.Some? && IsValidUrl(p, s.value) && p.fileUrlToPath(p.parseUrl(s.value, None).value).Some?
  {
    match s
    case None => Threw(NotAFilePath)
    case Some(str) =>
      match p.parseUrl(str, None)
      case None => Threw(InvalidUrl)
      case Some(u) =>
        match p.fileUrlToPath(u)
        case None => Threw(NotAFilePath)
        case Some(path) => Ok(path)
  }
}
