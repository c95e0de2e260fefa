/** Worked examples of Finish on concrete modules, licenses and paths. */
module FinishScenarios {
  import opened Wrappers
  import opened Licenses
  import opened Modules
  import opened Policy
  import opened Paths
  import opened FinishSpec

  /** An executable at `/opt/bin/golicense` puts the artifact of
      `github.com/x/y` at `/opt/bin/License/github.com/x/y/LICENSE`. */
  lemma ArtifactOfAbsoluteExec()
    ensures ArtifactFile("/opt/bin/golicense", "github.com/x/y") == "/opt/bin/License/github.com/x/y/LICENSE"
  {
    ExecDirOfAbsolutePath();
  }

  /** An executable named without a directory puts artifacts below
      `License/` in the working directory. */
  lemma ArtifactOfBareExec()
    ensures ArtifactFile("golicense", "github.com/x/w") == "License/github.com/x/w/LICENSE"
  {
  }

  /** The override of `github.com/x/w` is read from
      `<OverridePath>/github.com/x/w/LICENSE`. */
  lemma OverrideFileOf(c: Config)
    requires c.overridePath == "overrides"
    ensures OverrideFile(c, "github.com/x/w") == "overrides/github.com/x/w/LICENSE"
  {
  }

  /** Module `github.com/x/y` with MIT allowed and no override: the detected
      text "MIT TEXT" is written to the module's artifact. */
  lemma ScenarioAllowedWritten(c: Config, env: Env)
    requires c.allowed(Some(License("MIT", "MIT", "MIT TEXT"))) == StateAllowed
    requires c.allowed(None) != StateAllowed
    requires "github.com/x/y" !in c.override
    requires env.writable(ArtifactFile(c.execPath, "github.com/x/y"))
    ensures Decide(Some(c), Module("github.com/x/y"), Some(License("MIT", "MIT", "MIT TEXT")), env)
      == Written(ArtifactFile(c.execPath, "github.com/x/y"), "MIT TEXT")
  {
  }

  /** Module `github.com/x/z` whose GPL-3.0 license the policy denies: Finish
      aborts, whatever the file system holds. */
  lemma ScenarioDenied(c: Config, env: Env)
    requires c.allowed(Some(License("GPL-3.0", "GPL-3.0", "GPL TEXT"))) == StateDenied
    requires c.allowed(None) != StateAllowed
    ensures Decide(Some(c), Module("github.com/x/z"), Some(License("GPL-3.0", "GPL-3.0", "GPL TEXT")), env)
      == AbortPolicy(StateDenied)
  {
  }

  /** Module `github.com/x/w` with an override file holding "OVERRIDE TEXT":
      that text is written, not the detected one. */
  lemma ScenarioOverrideWritten(c: Config, env: Env)
    requires c.allowed(Some(License("MIT", "", "MIT TEXT"))) == StateAllowed
    requires c.allowed(None) != StateAllowed
    requires "github.com/x/w" in c.override && c.override["github.com/x/w"] == "approved"
    requires env.read(OverrideFile(c, "github.com/x/w")) == Read("OVERRIDE TEXT")
    requires env.writable(ArtifactFile(c.execPath, "github.com/x/w"))
    ensures Decide(Some(c), Module("github.com/x/w"), Some(License("MIT", "", "MIT TEXT")), env)
      == Written(ArtifactFile(c.execPath, "github.com/x/w"), "OVERRIDE TEXT")
  {
  }

  /** The same override entry with the file missing falls back to the
      detected text and still writes it. */
  lemma ScenarioOverrideMissingFallsBack(c: Config, env: Env)
    requires c.allowed(Some(License("MIT", "", "MIT TEXT"))) == StateAllowed
    requires c.allowed(None) != StateAllowed
    requires "github.com/x/w" in c.override && c.override["github.com/x/w"] == "approved"
    requires env.read(OverrideFile(c, "github.com/x/w")) == NotFound
    requires env.writable(ArtifactFile(c.execPath, "github.com/x/w"))
    ensures Decide(Some(c), Module("github.com/x/w"), Some(License("MIT", "", "MIT TEXT")), env)
      == Written(ArtifactFile(c.execPath, "github.com/x/w"), "MIT TEXT")
  {
  }
}
