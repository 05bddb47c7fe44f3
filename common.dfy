/** Shared vocabulary: optional values, the exceptions the loader lets escape,
    and prefix/suffix tests on strings. */
module Common {

  datatype Option<+T> = None | Some(value: T)

  /** The exceptions that escape the loader's hooks (their promises reject with them). */
  datatype Error =
    | InvalidUrl       // `new URL(...)` threw a TypeError
    | NotAFilePath     // `fileURLToPath` refused its argument
    | BuildFailed      // esbuild's `build` rejected
    | ReadFailed       // `fs.readFileSync` threw
    | TransformFailed  // esbuild's `transformSync` threw

  /** The outcome of a step that may throw. */
  datatype Fallible<+T> = Ok(value: T) | Threw(error: Error)

  /** `s.startsWith(prefix)` */
  predicate StartsWith(s: string, prefix: string) {
    |prefix| <= |s| && s[..|prefix|] == prefix
  }

  /** `s.endsWith(suffix)` */
  predicate EndsWith(s: string, suffix: string) {
    |suffix| <= |s| && s[|s| - |suffix|..] == suffix
  }
}
