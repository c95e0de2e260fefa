/** `FileOutput`: the per-module result sink. It initialises its alignment
    width once, and for each finished module classifies the license, applies
    an override and writes the license text to an artifact file. */
module OutputFile {
  import opened Wrappers
  import opened Licenses
  import opened Modules
  import opened Policy
  import opened Paths
  import opened Padding
  import opened FinishSpec

  class FileOutput {
    /** The configuration, if any (`Config`). */
    const config: Option<Config>
    /** The full list of modules given in advance (`Modules`). */
    const modules: seq<Module>

    /** `modules`: the map `init` allocates when it is still nil. */
    var moduleNames: Option<map<string, string>>
    /** `moduleMax`: the width module paths are padded to. */
    var moduleMax: nat
    /** `exitCode`: never assigned after construction. */
    var exitCode: int
    /** Whether the `sync.Once` guarding `init` has fired. */
    var initialized: bool
    /** How many times the body of `init` has run. */
    ghost var initRuns: nat

    /** `init` runs exactly when the once-guard fires, at most once, and
        leaves the width of the longest module path behind; before that the
        fields hold their zero values. */
    ghost predicate Valid()
      reads this
    {
      && initRuns == (if initialized then 1 else 0)
      && exitCode == 0
      && (!initialized ==> moduleMax == 0 && moduleNames.None?)
      && (initialized ==> moduleMax == MaxPathLen(modules) && moduleNames == Some(map[]))
    }

    /** `&FileOutput{Config: config, Modules: modules}`. */
    constructor (config: Option<Config>, modules: seq<Module>)
      ensures Valid() && !initialized
      ensures this.config == config && this.modules == modules
    {
      this.config := config;
      this.modules := modules;
      moduleNames := None;
      moduleMax := 0;
      exitCode := 0;
      initialized := false;
      initRuns := 0;
    }

    /** The recorded exit status, which stays 0: nothing assigns it. */
    function ExitCode(): (code: int)
      reads this
      requires Valid()
      ensures code == 0
    {
      exitCode
    }

    /** The body of `init`: allocate the map if it is nil, then raise
        `moduleMax` to the length of every longer module path. */
    method Init()
      modifies this`moduleNames, this`moduleMax, this`initRuns
      ensures moduleMax == Max(old(moduleMax), MaxPathLen(modules))
      ensures moduleNames == if old(moduleNames).None? then Some(map[]) else old(moduleNames)
      ensures initRuns == old(initRuns) + 1
    {
      if moduleNames.None? {
        moduleNames := Some(map[]);
      }
      var i := 0;
      while i < |modules|
        invariant 0 <= i <= |modules|
        invariant moduleMax == Max(old(moduleMax), MaxPathLen(modules[..i]))
        invariant moduleNames == if old(moduleNames).None? then Some(map[]) else old(moduleNames)
        invariant initRuns == old(initRuns)
      {
        assert modules[..i + 1][..i] == modules[..i];
        var v := |modules[i].path|;
        if v > moduleMax {
          moduleMax := v;
        }
        i := i + 1;
      }
      assert modules[..i] == modules;
      initRuns := initRuns + 1;
    }

    /** `o.once.Do(o.init)`: runs `init` on the first call only. */
    method Once()
      requires Valid()
      modifies this`moduleNames, this`moduleMax, this`initRuns, this`initialized
      ensures Valid() && initialized
      ensures old(initialized) ==> unchanged(this)
    {
      if !initialized {
        Init();
        initialized := true;
      }
    }

    /** `Start`: triggers the one-time initialisation and nothing else. */
    method Start(m: Module)
      requires Valid()
      modifies this`moduleNames, this`moduleMax, this`initRuns, this`initialized
      ensures Valid() && initialized
      ensures old(initialized) ==> unchanged(this)
    {
      Once();
    }

    /** `Update`: triggers the one-time initialisation and nothing else; the
        status and message are not used. */
    method Update(m: Module, status: int, msg: string)
      requires Valid()
      modifies this`moduleNames, this`moduleMax, this`initRuns, this`initialized
      ensures Valid() && initialized
      ensures old(initialized) ==> unchanged(this)
    {
      Once();
    }

    /** `Finish`: initialise once, then run the checks in order. The outcome
        replaces the process exit or panic of each failing step; `final` is
        the license as the call leaves it, its text overwritten when an
        override file was read. The resolution error `err` is never read:
        the `err` of the override step is a fresh variable of its own. */
    method Finish(m: Module, l: Option<License>, err: Option<string>, env: Env) returns (outcome: Outcome, final: Option<License>)
      requires Valid()
      requires NilNotAllowed(config)
      modifies this`moduleNames, this`moduleMax, this`initRuns, this`initialized
      ensures Valid() && initialized
      ensures old(initialized) ==> unchanged(this)
      ensures outcome == Decide(config, m, l, env)
      ensures final == Resolve(config, m, l, env)
    {
      Once();
      final := l;
      if config.None? {
        outcome := AbortNoConfig;
        return;
      }
      var cfg := config.value;
      var state := cfg.allowed(l);
      if state != StateAllowed {
        outcome := AbortPolicy(state);
        return;
      }
      if cfg.OverrideFor(m.path) != "" {
        var overridePath := cfg.overridePath + "/" + m.path + "/" + "LICENSE";
        match env.read(overridePath)
        case Read(contents) =>
          final := Some(final.value.(text := contents));
        case ReadFailed =>
        case NotFound =>
      }
      if |final.value.text| > 0 {
        var dir := Dir(cfg.execPath) + "License/" + m.path + "/";
        var file := dir + "LICENSE";
        if env.writable(file) {
          outcome := Written(file, final.value.text);
        } else {
          outcome := AbortWrite(file);
        }
      } else {
        outcome := AbortMissing;
      }
    }

    /** `Close`: returns a nil error and changes nothing. */
    method Close() returns (err: Option<string>)
      ensures err == None
    {
      err := None;
    }

    /** `paddedModule`: initialise once, then pad the path to `moduleMax`;
        `None` where the negative repeat count would panic. */
    method PaddedModule(m: Module) returns (r: Option<string>)
      requires Valid()
      modifies this`moduleNames, this`moduleMax, this`initRuns, this`initialized
      ensures Valid() && initialized
      ensures old(initialized) ==> unchanged(this)
      ensures r == Pad(m.path, MaxPathLen(modules))
    {
      Once();
      r := Pad(m.path, moduleMax);
    }
  }

  /** A driver's run over one module: every lifecycle call goes through the
      once-guard, yet `init` has run exactly once at the end. */
  method RunModule(o: FileOutput, m: Module, l: Option<License>, env: Env) returns (outcome: Outcome)
    requires o.Valid() && NilNotAllowed(o.config)
    modifies o
    ensures o.Valid() && o.initialized && o.initRuns == 1
    ensures o.moduleMax == MaxPathLen(o.modules)
    ensures outcome == Decide(o.config, m, l, env)
  {
    o.Start(m);
    o.Update(m, 0, "");
    o.Update(m, 1, "");
    var final;
    outcome, final := o.Finish(m, l, None, env);
    var err := o.Close();
  }
}
