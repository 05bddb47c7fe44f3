/** The exported hooks: `resolve` always, then either `load` alone (Node
    16.12.0 and later) or the legacy `getFormat`, `transformSource` and
    `getSource`, chosen once from the running Node version. */
module Hooks {
  import opened Common
  import opened Versions

  /** The functions of the loader that can be bound to an export. */
  datatype Hook = ResolveBaseHook | LoadBaseHook | GetFormatBaseHook | TransformSourceBaseHook | GetSourceBaseHook

  /** The module's exports; None is an export left `undefined`. */
  datatype Exports = Exports(
    resolve: Hook,
    load: Option<Hook>,
    getFormat: Option<Hook>,
    transformSource: Option<Hook>,
    getSource: Option<Hook>)

  /** The first Node version with the unified `load` hook. */
  const UnifiedLoadSince := Version(16, 12, 0)

  /** The two configurations a process can have. */
  const UnifiedLoad := Exports(ResolveBaseHook, Some(LoadBaseHook), None, None, None)
  const LegacyTriad := Exports(ResolveBaseHook, None, Some(GetFormatBaseHook), Some(TransformSourceBaseHook), Some(GetSourceBaseHook))

  /** The module-level `let` bindings assigned in the version test, then exported. */
  method SelectHooks(node: Version) returns (e: Exports)
    ensures e.resolve == ResolveBaseHook
    ensures e == UnifiedLoad || e == LegacyTriad
    ensures e == UnifiedLoad <==> AtLeast(node, UnifiedLoadSince)
    ensures e.load.Some? <==> e.getFormat.None?
  {
    var load, getFormat, transformSource, getSource := None, None, None, None;
    if AtLeast(node, UnifiedLoadSince) {
      load := Some(LoadBaseHook);
    } else {
      getFormat := Some(GetFormatBaseHook);
      transformSource := Some(TransformSourceBaseHook);
      getSource := Some(GetSourceBaseHook);
    }
    e := Exports(ResolveBaseHook, load, getFormat, transformSource, getSource);
  }
}
