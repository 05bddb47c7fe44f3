# esbuild-node-loader, modelled in Dafny

This project models `loader.mjs`, a Node ES-module loader. The loader lets
`node` run TypeScript and JSON modules directly. It hooks module resolution and
loading, compiles owned files with esbuild, and fetches `http(s)` modules
through a per-process cache. The model covers the loader's own decisions:

- which paths it owns (`extensionsRegex`) and which URLs are network modules (`httpRegex`);
- which esbuild loader mode and output format a file gets;
- how a specifier is split into an esbuild id and a query string (`getTsCompatSpecifier`);
- the precedence of `resolveBase`;
- the decision tables of `loadBase`, `getFormatBase`, `transformSourceBase` and `getSourceBase`;
- the network module cache (`fetchNetworkModule`);
- the choice of exported hooks from the Node version.

Almost every call into code outside `loader.mjs` is a field of the
`Host.Platform` datatype, so each property holds whatever those calls return.
These are `new URL`, `fileURLToPath`, `pathToFileURL`, `path.dirname`, esbuild's
`build` and `transformSync`, `fs.readFileSync`, the platform flag and the Node
version. There are two exceptions. The `fetch` request of `node-fetch` is an
opaque `Token`, numbered by the `started` counter of
`NetworkCache.NetworkModuleCache`. The `semver.satisfies(…, '>=16.12.0')` test is
written out as `Versions.AtLeast`.
A call that throws returns `None` and becomes a rejection (`Threw`, `Rejected`,
`Failed`). `isValidURL` is not an oracle: it is "`new URL(s)` does not throw",
as in the source.

Modules: `Common` (Option, errors, prefix/suffix), `Extensions`, `Versions`,
`Host`, `Specifiers`, `Resolution`, `Scenarios`, `NetworkCache`, `Loading`,
`Hooks`.

## Model

| member | source | states |
|---|---|---|
| `Extensions.IsHttp` | loader.mjs:9 | a string matches `^https?://` exactly when it starts with `http`, then an optional `s`, then `://` |
| `Extensions.IsHttpParent` | loader.mjs:100 | an absent parent never matches; a given one matches exactly when it is a network URL |
| `Extensions.LastDot` | loader.mjs:10 | the result is the index of a dot with no dot after it, or None when the path has no dot |
| `Extensions.ExtensionLoader` | loader.mjs:46 | the captured loader mode's name (`ts`, `tsx`, `json`) is a suffix of the path |
| `Extensions.MatchedPathEndsWithExtension` | loader.mjs:10 | a path the pattern accepts ends in the table extension for its loader mode |
| `Extensions.TableExtensionIsMatched` | loader.mjs:10 | a path ending in `.ts`, `.tsx`, `.json`, `.mts`, `.mtsx` or `.mjson` is accepted with that extension's mode |
| `Extensions.ExtensionLoaderMatchesTable` | loader.mjs:10 | the pattern yields mode `l` exactly when the path ends in an extension for `l`, with or without the `m` |
| `Extensions.MatchedIffTableExtension` | loader.mjs:10 | the pattern matches a path exactly when the path ends in one of the six accepted extensions |
| `Extensions.IsOwned` | loader.mjs:128 | the `extensionsRegex.test` in `resolveBase`, `loadBase`, `getFormatBase` and `transformSourceBase` holds exactly when the path ends in one of the six accepted extensions |
| `Extensions.EsbuildFormat` | loader.mjs:48 | output is `esm` exactly when the format is `'module'`, and `cjs` for every other value, including an absent one |
| `Host.IsValidUrl` | loader.mjs:83-93 | a string is a valid URL exactly when `new URL` with no base accepts it |
| `Versions.AtLeast` | loader.mjs:240 | `>=` on release triples: the first component that differs decides, and equal versions satisfy it |
| `Host.PathToFileUrl` | loader.mjs:121 | the URL of a path is `file://` plus the encoded path, with no query and no fragment |
| `Host.FileUrlStringToPath` | loader.mjs:119 | the conversion succeeds exactly when a parent is given, parses as a URL and converts to a path |
| `Specifiers.IsRelative` | loader.mjs:65 | a specifier is relative exactly when it starts with `./` or `../` |
| `Specifiers.StripTsExtension` | loader.mjs:68 | the result is a prefix of the path, the removed part is `""`, `.ts` or `.tsx`, and nothing is removed exactly when the path ends in neither |
| `Specifiers.TsCompatSpecifier` | loader.mjs:61-81 | a bare specifier is returned unchanged with an empty search; a relative one keeps the joined URL's query, and its id is exactly `StripTsExtension` of that URL's file path; it fails only when the join or the conversion throws |
| `Resolution.Captured` | loader.mjs:12-36 | the build rejects exactly when `build` throws; otherwise no path is captured exactly when `onLoad` was never called, and a captured path is the last one passed to `onLoad` |
| `Resolution.EsbuildResolve` | loader.mjs:12-36 | the captured path is the last one passed to `onLoad` and is one of them; a build that rejects rejects |
| `Resolution.Locate` | loader.mjs:107-124 | a valid URL specifier is parsed as is; otherwise a URL is found exactly when esbuild captures a non-empty path, and it is the `file:` URL of that path carrying the specifier's query; a rejection comes from the join, the parent's conversion or the build |
| `Resolution.Route` | loader.mjs:126-138 | format `'module'` exactly for an owned URL; another URL is delegated as its `href`; with no URL the specifier is delegated unchanged |
| `Resolution.ResolveBase` | loader.mjs:95-139 | answers always carry format `'module'`; a network specifier or parent is never delegated; a rewritten delegation outside the URL branch is a `file://` URL; the hook rejects exactly when the network join throws or, outside the network branch, when the join with the parent, the parent's conversion to a path or the build throws, with that error |
| `Resolution.HttpWins` | loader.mjs:100-105 | a network specifier or parent gives the joined URL with format `'module'`, or a rejection when the join throws |
| `Resolution.HttpConsultsOnlyUrlParser` | loader.mjs:100-105 | in that case the answer depends on the URL parser alone, so no other branch runs |
| `Resolution.ValidUrlUsedAsIs` | loader.mjs:109-136 | a valid URL specifier is answered or delegated as its own `href`, without consulting esbuild |
| `Resolution.FoundPathKeepsQuery` | loader.mjs:118-123 | a path found by esbuild resolves to `file://` + path + the specifier's query; the query is the joined URL's for a relative specifier and empty for a bare one |
| `Resolution.NotFoundDelegatesSpecifier` | loader.mjs:119-138 | when esbuild captures no path, or an empty one, the original specifier is delegated unchanged |
| `Resolution.ResolvedOnlyWhenOwned` | loader.mjs:126-133 | outside the network branch, an answer comes from a located URL whose path name is owned |
| `Scenarios.FixtureImportResolves` | test/entry.ts:83-90 | on a platform that answers like Node, `./fixture?x=1` (or `?x=2`) resolves to `file:///t/fixture.ts` with its own query |
| `Scenarios.QueryFixtureResolves` | test/entry.ts:83-90 | both imports of the fixture reach the same file and differ only in their query |
| `NetworkCache.DistinctLogSize` | loader.mjs:222-234 | a log without repeated URLs has as many entries as distinct URLs |
| `NetworkCache.NetworkModuleCache.constructor` | loader.mjs:220 | the cache starts empty, with no request started |
| `NetworkCache.NetworkModuleCache.Fetch` | loader.mjs:222-234 | afterwards the URL is cached and its stored promise returned; a hit changes nothing; a miss adds only that URL and starts exactly one request |
| `NetworkCache.NetworkModuleCache.OneRequestPerUrl` | loader.mjs:222-234 | the number of requests started equals the number of cached URLs |
| `NetworkCache.FetchTwice` | loader.mjs:222-234 | two fetches of one URL return the same promise and start at most one request, and no other entry changes |
| `Loading.EsbuildOptions` | loader.mjs:43-49 | the loader mode matches the file's extension, the format is `esm` exactly for `'module'`, and the source map is `both` with the Node version as target |
| `Loading.EsbuildTransformSync` | loader.mjs:38-59 | the compiled code is what `transformSync` returns for those options; the call fails, as `TransformFailed`, exactly when `transformSync` throws |
| `Loading.SourceFile` | loader.mjs:152-153 | the file name is the URL itself on Windows; elsewhere it is the URL's file path, and it fails only when the URL does not parse or has no file path |
| `Loading.LoadLocal` | loader.mjs:149-165 | an invalid URL fails; an owned file is read and compiled with those options and declared `'module'`, and is answered whenever the file name, the read and the compile all succeed; exactly the non-owned URLs go to `defaultLoad` unchanged |
| `Loading.LoadBase` | loader.mjs:141-166 | a network URL is answered with its cached promise and format `'module'` before any extension test; otherwise the cache is untouched |
| `Loading.GetFormatBase` | loader.mjs:168-183 | format `'module'` exactly for network URLs and owned files; a network URL is answered without being parsed; other URLs are delegated unchanged |
| `Loading.GetSourceBase` | loader.mjs:210-218 | only network URLs are answered, with the cached promise; every other URL is delegated |
| `Loading.TransformLocal` | loader.mjs:195-207 | an invalid URL fails; an owned file's given text is compiled, the answer has no format, and it is answered whenever the file name and the compile succeed; other sources are delegated unchanged |
| `Loading.TransformSourceBase` | loader.mjs:185-208 | a network URL is answered with its cached promise and format `'module'` before any extension test |
| `Loading.LegacyTriadAgreesWithLoad` | loader.mjs:149-207 | for a local file, `load` and the legacy `getFormat` plus `transformSource` agree on format, code and which URLs are delegated |
| `Hooks.SelectHooks` | loader.mjs:238-252 | `resolve` is always `resolveBase`; exactly one configuration is exported; `load` alone exactly when Node `>= 16.12.0` |

## Left out

- esbuild's `build` and `transformSync`: foreign code. Their results are inputs: `build` gives the paths handed to `onLoad`, `transformSync` gives the code or throws.
- Console output of esbuild warnings (loader.mjs:51-56): I/O. The source map that `transformSync` returns is unused by the callers and is not modelled.
- `fs.readFileSync` and the network request: I/O. A request is an opaque `Token` numbered by the order in which requests started.
- Promises and async interleaving: the cache is modelled sequentially. Single-flight under concurrency becomes "at most one request per URL". A rejected fetch stays cached, as in the source, because entries are never removed.
- WHATWG URL parsing and serialisation, percent-encoding, `fileURLToPath`/`pathToFileURL` internals and the Windows file name rules: platform internals, represented by the `Platform` oracles. `Href` keeps only protocol, authority, path, query and fragment. Credentials and port are folded into the host.
- `url.search = s` is modelled as replacing the query with `s`. This is exact only for values read from another URL's `search` getter, which is the only way the loader uses it.
- `isValidURL` rethrowing errors that are not a `TypeError`: `new URL` throws only `TypeError`.
- `semver` itself: versions are (major, minor, patch) triples. Pre-release and build tags are not modelled.
- loader.mjs has no path-alias table or extension prober: alias and extension resolution happen inside esbuild's `build`, so they are part of the `build` oracle.
- `esbuildResolve` keeps the path of the last `onLoad` call, because the callback overwrites `result`. The build's entry module imports only the specifier, and every loaded module gets empty contents, so at most one call happens in practice. The model follows the code.
- The "resolving twice gives the same URL" property holds by construction, because every hook is a function of its inputs and the oracles.
