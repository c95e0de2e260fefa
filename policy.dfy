/** The `config` package as the output sink consumes it. Its rule matching is
    not part of this model: `allowed` is an arbitrary classifier. */
module Policy {
  import opened Wrappers
  import opened Licenses

  /** The three classification states of `Config.Allowed`. */
  datatype State = StateAllowed | StateDenied | StateUnknown

  /** A loaded policy: the classifier, the per-module override map, the base
      directory of override files and the path of the running executable. */
  datatype Config = Config(
    allowed: Option<License> -> State,
    override: map<string, string>,
    overridePath: string,
    execPath: string)
  {
    /** `Override[path]` with Go's map semantics: a missing key reads as "". */
    function OverrideFor(path: string): (dir: string)
      ensures path !in override ==> dir == ""
      ensures path in override ==> dir == override[path]
    {
      if path in override then override[path] else ""
    }
  }

  /** What Finish needs of the classifier: it dereferences the license as soon
      as the classification is Allowed, so a nil license must never be allowed. */
  predicate NilNotAllowed(config: Option<Config>)
  {
    config.Some? ==> config.value.allowed(None) != StateAllowed
  }
}
