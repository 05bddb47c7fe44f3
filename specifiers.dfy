/** `getTsCompatSpecifier`: turning an import specifier into the id that
    esbuild's resolver is asked for, plus the query string to put back on the
    URL it finds. */
module Specifiers {
  import opened Common
  import opened Host

  /** A specifier starting with `./` or `../` is a relative import. */
  predicate IsRelative(specifier: string): (r: bool)
    ensures r <==> (|specifier| >= 2 && specifier[0] == '.'
                    && (specifier[1] == '/' || (|specifier| >= 3 && specifier[1] == '.' && specifier[2] == '/')))
  {
    StartsWith(specifier, "./") || StartsWith(specifier, "../")
  }

  /** `path.replace(/\.tsx?$/, '')`: one trailing `.ts` or `.tsx` is removed;
      `.mts` and every other ending are kept. */
  function StripTsExtension(path: string): (r: string)
    ensures |r| <= |path| && path[..|r|] == r
    ensures path[|r|..] == "" || path[|r|..] == ".ts" || path[|r|..] == ".tsx"
    ensures r == path <==> !EndsWith(path, ".ts") && !EndsWith(path, ".tsx")
  {
    if EndsWith(path, ".tsx") then path[..|path| - 4]
    else if EndsWith(path, ".ts") then path[..|path| - 3]
    else path
  }

  /** The result of `getTsCompatSpecifier`. */
  datatype TsCompat = TsCompat(tsSpecifier: string, search: Search)

  /** `getTsCompatSpecifier(parentURL, specifier)`. A relative specifier is
      joined to the parent URL and converted to a file path, which loses the
      query; the query is returned apart. Anything else is passed through with
      no query. The join and the conversion may throw. */
  function TsCompatSpecifier(p: Platform, parent: Option<string>, specifier: string): (r: Fallible<TsCompat>)
    ensures !IsRelative(specifier) ==> r == Ok(TsCompat(specifier, ""))
    ensures IsRelative(specifier) && r.Ok? ==>
      && p.parseUrl(specifier, parent).Some?
      && r.value.search == p.parseUrl(specifier, parent).value.search
      && p.fileUrlToPath(p.parseUrl(specifier, parent).value).Some?
      && r.value.tsSpecifier == StripTsExtension(p.fileUrlToPath(p.parseUrl(specifier, parent).value).value)
    ensures IsRelative(specifier) && r.Threw? ==>
      p.parseUrl(specifier, parent).None? || p.fileUrlToPath(p.parseUrl(specifier, parent).value).None?
  {
    if IsRelative(specifier) then
      match p.parseUrl(specifier, parent)
      case None => Threw(InvalidUrl)
      case Some(url) =>
        match p.fileUrlToPath(url)
        case None => Threw(NotAFilePath)
        case Some(path) => Ok(TsCompat(StripTsExtension(path), url.search))
    else
      Ok(TsCompat(specifier, ""))
  }
}
