/** The two patterns of loader.mjs: `httpRegex` (which specifiers and URLs are
    network modules) and `extensionsRegex` (which paths the loader compiles
    itself), together with the esbuild loader mode and output format they select. */
module Extensions {
  import opened Common

  /** The esbuild `loader` modes: the capture group of `extensionsRegex`. */
  datatype Loader = Ts | Tsx | Json

  function LoaderName(l: Loader): string {
    match l
    case Ts => "ts"
    case Tsx => "tsx"
    case Json => "json"
  }

  /** `httpRegex.test(s)` for the pattern `^https?:\/\/`. */
  predicate IsHttp(s: string): (r: bool)
    ensures r <==> (|s| >= 7 && s[..4] == "http"
                    && (s[4..7] == "://" || (|s| >= 8 && s[4] == 's' && s[5..8] == "://")))
  {
    StartsWith(s, "http://") || StartsWith(s, "https://")
  }

  /** `httpRegex.test(parentURL)`: an absent parent is turned into the string
      "undefined", which never matches. */
  predicate IsHttpParent(parent: Option<string>): (r: bool)
    ensures parent.None? ==> !r
    ensures parent.Some? ==> (r <==> IsHttp(parent.value))
  {
    parent.Some? && IsHttp(parent.value)
  }

  /** Index of the last '.' in `s`, if any. */
  function LastDot(s: string): (r: Option<nat>)
    ensures r.Some? ==> r.value < |s| && s[r.value] == '.'
    ensures r.Some? ==> forall k :: r.value < k < |s| ==> s[k] != '.'
    ensures r.None? ==> forall k :: 0 <= k < |s| ==> s[k] != '.'
  {
    if |s| == 0 then None
    else if s[|s| - 1] == '.' then Some(|s| - 1)
    else LastDot(s[..|s| - 1])
  }

  /** What follows the final dot, matched against `m?(tsx?|json)$`; the result
      is the capture group, with the optional `m` dropped. */
  function TailLoader(tail: string): Option<Loader> {
    var core := if |tail| > 0 && tail[0] == 'm' then tail[1..] else tail;
    if core == "ts" then Some(Ts)
    else if core == "tsx" then Some(Tsx)
    else if core == "json" then Some(Json)
    else None
  }

  /** `path.match(extensionsRegex)[1]`, or None when `extensionsRegex` does not
      match. A match starts at a dot and the rest of it holds no dot, so only
      the last dot of the path can start one. */
  function ExtensionLoader(path: string): (r: Option<Loader>)
    ensures r.Some? ==> EndsWith(path, LoaderName(r.value))
  {
    match LastDot(path)
    case None => None
    case Some(i) => TailLoader(path[i + 1..])
  }

  /** `extensionsRegex.test(path)`: the loader compiles this path itself. */
  predicate IsOwned(path: string): (r: bool)
    ensures r <==> exists l :: EndsWithExtensionFor(path, l)
  {
    MatchedIffTableExtension(path);
    ExtensionLoader(path).Some?
  }

  /** The extensions the pattern accepts, each with the loader mode it yields. */
  const OwnedExtensions: seq<(string, Loader)> :=
    [(".ts", Ts), (".tsx", Tsx), (".json", Json), (".mts", Ts), (".mtsx", Tsx), (".mjson", Json)]

  /** `path` ends in one of the accepted extensions whose loader mode is `l`. */
  predicate EndsWithExtensionFor(path: string, l: Loader) {
    exists k :: 0 <= k < |OwnedExtensions| && OwnedExtensions[k].1 == l && EndsWith(path, OwnedExtensions[k].0)
  }

  /** Each table entry is a dot followed by dot-free text that the tail matcher maps
      to the entry's loader. */
  lemma OwnedExtensionShape(k: nat)
    requires k < |OwnedExtensions|
    ensures var e := OwnedExtensions[k].0;
      && |e| >= 2 && e[0] == '.'
      && (forall q :: 1 <= q < |e| ==> e[q] != '.')
      && TailLoader(e[1..]) == Some(OwnedExtensions[k].1)
  {
  }

  /** A tail the matcher accepts is the tail of exactly one table entry. */
  lemma TailInTable(tail: string, l: Loader)
    requires TailLoader(tail) == Some(l)
    ensures exists k :: 0 <= k < |OwnedExtensions| && OwnedExtensions[k] == ("." + tail, l)
  {
    if |tail| > 0 && tail[0] == 'm' {
      var core := tail[1..];
      assert tail == "m" + core;
      if core == "ts" {
        assert l == Ts && "." + tail == ".mts";
        assert OwnedExtensions[3] == ("." + tail, l);
      } else if core == "tsx" {
        assert l == Tsx && "." + tail == ".mtsx";
        assert OwnedExtensions[4] == ("." + tail, l);
      } else {
        assert l == Json && core == "json" && "." + tail == ".mjson";
        assert OwnedExtensions[5] == ("." + tail, l);
      }
    } else {
      if tail == "ts" {
        assert l == Ts && "." + tail == ".ts";
        assert OwnedExtensions[0] == ("." + tail, l);
      } else if tail == "tsx" {
        assert l == Tsx && "." + tail == ".tsx";
        assert OwnedExtensions[1] == ("." + tail, l);
      } else {
        assert l == Json && tail == "json" && "." + tail == ".json";
        assert OwnedExtensions[2] == ("." + tail, l);
      }
    }
  }

  /** A path the pattern accepts ends in the table extension of its loader mode. */
  lemma MatchedPathEndsWithExtension(path: string, l: Loader)
    requires ExtensionLoader(path) == Some(l)
    ensures EndsWithExtensionFor(path, l)
  {
    var i := LastDot(path).value;
    var tail := path[i + 1..];
    TailInTable(tail, l);
    var k :| 0 <= k < |OwnedExtensions| && OwnedExtensions[k] == ("." + tail, l);
    var e := OwnedExtensions[k].0;
    assert path[i..] == e by {
      assert path[i..] == [path[i]] + tail;
    }
    assert |path| - |e| == i;
    assert EndsWith(path, e);
  }

  /** A path that ends in a table extension is accepted with that entry's mode:
      the extension's dot is the last dot of the path. */
  lemma TableExtensionIsMatched(path: string, k: nat)
    requires k < |OwnedExtensions| && EndsWith(path, OwnedExtensions[k].0)
    ensures ExtensionLoader(path) == Some(OwnedExtensions[k].1)
  {
    var e := OwnedExtensions[k].0;
    OwnedExtensionShape(k);
    var j := |path| - |e|;
    assert path[j..] == e;
    assert path[j] == '.';
    forall q | j < q < |path| ensures path[q] != '.' {
      assert path[q] == e[q - j];
    }
    var d := LastDot(path);
    assert d.Some? && d.value == j;
    assert path[j + 1..] == e[1..];
  }

  /** The pattern accepts a path exactly when the path ends in `.ts`, `.tsx`,
      `.json` or one of those with an `m` after the dot, and the loader mode is
      the one that extension names. */
  lemma {:induction false} ExtensionLoaderMatchesTable(path: string, l: Loader)
    ensures ExtensionLoader(path) == Some(l) <==> EndsWithExtensionFor(path, l)
  {
    if ExtensionLoader(path) == Some(l) {
      MatchedPathEndsWithExtension(path, l);
    }
    if EndsWithExtensionFor(path, l) {
      var k :| 0 <= k < |OwnedExtensions| && OwnedExtensions[k].1 == l && EndsWith(path, OwnedExtensions[k].0);
      TableExtensionIsMatched(path, k);
    }
  }

  /** The pattern matches a path exactly when it ends in one of the six accepted extensions. */
  lemma MatchedIffTableExtension(path: string)
    ensures ExtensionLoader(path).Some? <==> exists l :: EndsWithExtensionFor(path, l)
  {
    if ExtensionLoader(path).Some? {
      ExtensionLoaderMatchesTable(path, ExtensionLoader(path).value);
    }
    if exists l :: EndsWithExtensionFor(path, l) {
      var l :| EndsWithExtensionFor(path, l);
      ExtensionLoaderMatchesTable(path, l);
    }
  }

  /** The esbuild output formats. */
  datatype OutputFormat = Esm | Cjs

  /** The format string that marks an ES module. */
  const ModuleFormat := "module"

  /** `format === 'module' ? 'esm' : 'cjs'`, with an absent format as None. */
  function EsbuildFormat(format: Option<string>): (r: OutputFormat)
    ensures r == Esm <==> format == Some(ModuleFormat)
    ensures r == Cjs <==> format != Some(ModuleFormat)
  {
    if format == Some(ModuleFormat) then Esm else Cjs
  }
}
