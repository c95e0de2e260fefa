/** What `FileOutput.Finish` decides for one module, as functions of its
    inputs: the outcome of the call and the license as it stands afterwards
    (Finish overwrites `l.Text` in place when an override file is read). */
module FinishSpec {
  import opened Wrappers
  import opened Licenses
  import opened Modules
  import opened Policy
  import opened Paths

  /** The result of opening and reading one file. */
  datatype ReadResult = NotFound | ReadFailed | Read(contents: string)

  /** The file system as Finish sees it: what reading a path yields, and
      whether the artifact directory and file at a path can be created and
      written completely. */
  datatype Env = Env(read: string -> ReadResult, writable: string -> bool)

  /** How Finish ends. Every outcome but `Written` stands for a process exit
      or panic in place of a return. */
  datatype Outcome =
    | AbortNoConfig               // no config: exit(1)
    | AbortPolicy(state: State)   // Denied or Unknown: exit(1)
    | AbortWrite(path: string)    // MkdirAll/Create/Copy/Close failed: panic
    | AbortMissing                // empty license text: exit(1)
    | Written(path: string, text: string)

  /** The override step applied to a license: a clean read replaces the text
      and nothing else; a missing or unreadable file leaves it as it was. */
  function ApplyOverride(l: License, r: ReadResult): (l': License)
    ensures l'.name == l.name && l'.spdx == l.spdx
    ensures r.Read? ==> l'.text == r.contents
    ensures !r.Read? ==> l' == l
  {
    match r
    case Read(contents) => l.(text := contents)
    case _ => l
  }

  /** The license after the classification and override steps. */
  function Resolve(config: Option<Config>, m: Module, l: Option<License>, env: Env): (r: Option<License>)
    requires NilNotAllowed(config)
    ensures config.Some? && config.value.allowed(l) == StateAllowed ==> r.Some?
  {
    if config.None? || config.value.allowed(l) != StateAllowed then l
    else if config.value.OverrideFor(m.path) == "" then l
    else Some(ApplyOverride(l.value, env.read(OverrideFile(config.value, m.path))))
  }

  /** The outcome of Finish, in the order of its checks: a missing config
      aborts first, a failing classification next, and only an allowed
      license reaches the write or the "Missing Licence" abort. */
  function Decide(config: Option<Config>, m: Module, l: Option<License>, env: Env): (o: Outcome)
    requires NilNotAllowed(config)
    ensures o == AbortNoConfig <==> config.None?
    ensures o.AbortPolicy? <==> config.Some? && config.value.allowed(l) != StateAllowed
    ensures o.AbortPolicy? ==> o.state == config.value.allowed(l)
    ensures (o.Written? || o.AbortWrite? || o == AbortMissing) ==>
      config.Some? && config.value.allowed(l) == StateAllowed && l.Some?
    ensures o.Written? ==> o.path == ArtifactFile(config.value.execPath, m.path) && o.text != ""
    ensures o.AbortWrite? ==> o.path == ArtifactFile(config.value.execPath, m.path)
  {
    if config.None? then AbortNoConfig
    else if config.value.allowed(l) != StateAllowed then AbortPolicy(config.value.allowed(l))
    else
      var text := Resolve(config, m, l, env).value.text;
      if |text| == 0 then AbortMissing
      else
        var file := ArtifactFile(config.value.execPath, m.path);
        if env.writable(file) then Written(file, text) else AbortWrite(file)
  }

  /** Without a config Finish aborts first, whatever the license and files. */
  lemma NoConfigAborts(m: Module, l: Option<License>, env: Env)
    ensures Decide(None, m, l, env) == AbortNoConfig
    ensures Resolve(None, m, l, env) == l
  {
  }

  /** A Denied or Unknown classification aborts with that state before any
      override is read or anything is written; the license is untouched. */
  lemma PolicyFailureAborts(c: Config, m: Module, l: Option<License>, env: Env)
    requires NilNotAllowed(Some(c))
    requires c.allowed(l) != StateAllowed
    ensures Decide(Some(c), m, l, env) == AbortPolicy(c.allowed(l))
    ensures c.allowed(l) == StateDenied || c.allowed(l) == StateUnknown
    ensures Resolve(Some(c), m, l, env) == l
  {
  }

  /** A nil license always takes the policy-failure path. */
  lemma NilLicenseAborts(c: Config, m: Module, env: Env)
    requires NilNotAllowed(Some(c))
    ensures Decide(Some(c), m, None, env).AbortPolicy?
  {
  }

  /** With no override entry for the module, or an empty one, the text
      considered for writing is the detected text, whatever the file system
      holds. */
  lemma NoOverrideKeepsText(c: Config, m: Module, l: Option<License>, env: Env)
    requires NilNotAllowed(Some(c))
    requires c.OverrideFor(m.path) == ""
    ensures Resolve(Some(c), m, l, env) == l
  {
  }

  /** With a non-empty override entry, a clean read of the override file
      replaces the text only; a missing or unreadable file keeps the detected
      license. */
  lemma OverrideApplied(c: Config, m: Module, l: License, env: Env)
    requires NilNotAllowed(Some(c))
    requires c.allowed(Some(l)) == StateAllowed
    requires c.OverrideFor(m.path) != ""
    ensures var r := env.read(c.overridePath + "/" + m.path + "/LICENSE");
      Resolve(Some(c), m, Some(l), env) ==
        if r.Read? then Some(License(l.name, l.spdx, r.contents)) else Some(l)
  {
    assert OverrideFile(c, m.path) == c.overridePath + "/" + m.path + "/LICENSE";
  }

  /** Reading the override file twice with the same result changes nothing
      more than reading it once. */
  lemma {:induction false} OverrideIdempotent(l: License, r: ReadResult)
    ensures ApplyOverride(ApplyOverride(l, r), r) == ApplyOverride(l, r)
  {
  }

  /** The only file Finish reads is the module's override file, and the only
      file whose writability matters is the module's artifact file. */
  lemma FinishReadsOnlyOverrideFile(config: Option<Config>, m: Module, l: Option<License>, e1: Env, e2: Env)
    requires NilNotAllowed(config)
    requires config.Some? ==>
      && e1.read(OverrideFile(config.value, m.path)) == e2.read(OverrideFile(config.value, m.path))
      && e1.writable(ArtifactFile(config.value.execPath, m.path)) == e2.writable(ArtifactFile(config.value.execPath, m.path))
    ensures Resolve(config, m, l, e1) == Resolve(config, m, l, e2)
    ensures Decide(config, m, l, e1) == Decide(config, m, l, e2)
  {
  }

  /** Finish writes an artifact exactly when there is a config, the license
      is allowed, the final text is non-empty and the file can be written;
      the artifact is then `Dir(ExecPath) + "License/" + m.Path + "/LICENSE"`
      and holds the final text exactly. */
  lemma WrittenIff(config: Option<Config>, m: Module, l: Option<License>, env: Env)
    requires NilNotAllowed(config)
    ensures Decide(config, m, l, env).Written? <==>
      && config.Some?
      && config.value.allowed(l) == StateAllowed
      && |Resolve(config, m, l, env).value.text| > 0
      && env.writable(Dir(config.value.execPath) + "License/" + m.path + "/LICENSE")
    ensures Decide(config, m, l, env).Written? ==>
      && Decide(config, m, l, env).path == Dir(config.value.execPath) + "License/" + m.path + "/LICENSE"
      && Decide(config, m, l, env).text == Resolve(config, m, l, env).value.text
  {
    if config.Some? {
      assert ArtifactFile(config.value.execPath, m.path)
        == Dir(config.value.execPath) + "License/" + m.path + "/LICENSE";
    }
  }

  /** Finish aborts with "Missing Licence" exactly when the license is allowed
      but its final text is empty. */
  lemma MissingIff(config: Option<Config>, m: Module, l: Option<License>, env: Env)
    requires NilNotAllowed(config)
    ensures Decide(config, m, l, env) == AbortMissing <==>
      && config.Some?
      && config.value.allowed(l) == StateAllowed
      && Resolve(config, m, l, env).value.text == ""
  {
  }

  /** The written outcome, once its conditions are known. */
  lemma DecideWritten(c: Config, m: Module, l: Option<License>, env: Env, text: string)
    requires NilNotAllowed(Some(c))
    requires c.allowed(l) == StateAllowed
    requires Resolve(Some(c), m, l, env) == Some(License(l.value.name, l.value.spdx, text))
    requires text != ""
    requires env.writable(ArtifactFile(c.execPath, m.path))
    ensures Decide(Some(c), m, l, env) == Written(ArtifactFile(c.execPath, m.path), text)
  {
  }

  /** The override step through the module's override file. */
  lemma ResolveByOverride(c: Config, m: Module, l: Option<License>, env: Env)
    requires NilNotAllowed(Some(c))
    requires c.allowed(l) == StateAllowed
    requires m.path in c.override && c.override[m.path] != ""
    ensures Resolve(Some(c), m, l, env) == Some(ApplyOverride(l.value, env.read(OverrideFile(c, m.path))))
  {
  }
}
