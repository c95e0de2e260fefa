# golicense file output sink, modelled in Dafny

This project models `FileOutput`, the per-module result sink of golicense
(`output_file.go`), together with the `License` record it consumes
(`license/license.go`).

A driver calls `Start`, `Update` and `Finish` for each resolved module and
`Close` once at the end. The first of these calls runs `init` behind a
`sync.Once`. `init` computes the length of the longest module path, which is
used to pad module names.

`Finish` runs a strictly ordered decision procedure:

1. A missing config aborts.
2. A license classified Denied or Unknown aborts.
3. If the policy's override entry for the module path is non-empty, the
   override file `OverridePath/<module>/LICENSE` is read. The entry's value
   is not used beyond that test. A clean read replaces the license text and
   nothing else.
4. A non-empty text is written to `<dir of ExecPath>License/<module>/LICENSE`.
   An empty text aborts with "Missing Licence".

Modules and files:

- `license.dfy` (`Licenses`): the `License` record and `String` (`Render`).
- `policy.dfy` (`Policy`): the three classification states and the `Config`
  fields the sink reads. The classifier `Config.Allowed` is an arbitrary
  function, because the config package is not part of this model.
- `gomodule.dfy` (`Modules`): a module, known by its path.
- `paths.dfy` (`Paths`): the directory half of `path.Split`, and the override
  and artifact file paths.
- `padding.dfy` (`Padding`): the width `init` computes and `paddedModule`'s
  padding.
- `finish_spec.dfy` (`FinishSpec`): `Finish` as functions. `Decide` gives the
  outcome and `Resolve` gives the license as `Finish` leaves it. Lemmas state
  each step's guarantees.
- `finish_scenarios.dfy` (`FinishScenarios`): `Finish` on concrete modules.
- `output_file.dfy` (`OutputFile`): the `FileOutput` class. Its methods are
  proved against the functions above.

Process exits and panics become values of `Outcome`: `AbortNoConfig`,
`AbortPolicy(state)`, `AbortWrite(path)` and `AbortMissing`. A successful
write is `Written(path, text)`.

The file system is a parameter, `Env`:

- `read` gives the result of opening and reading a path: `NotFound`,
  `ReadFailed` or `Read(contents)`.
- `writable` says whether the artifact at a path can be created and written.

A nil `*License` is `None`. `Finish` overwrites `l.Text` in place; here it
returns the resulting license as `final` instead.

`sync.Once` is the `initialized` flag. The ghost counter `initRuns` counts how
often the body of `init` has run. The class invariant `Valid` ties the counter
to the flag, so `init` runs at most once. `Valid` also fixes `moduleMax` to
the longest path once initialised, and `exitCode` to 0 throughout.

## Model

| member | source | states |
|---|---|---|
| Licenses.Render | license/license.go:12-18 | a nil license renders as `<license not found or detected>`, a non-nil one as exactly its name; see also RenderIgnoresSpdxAndText and RenderDistinguishesNil |
| Licenses.RenderIgnoresSpdxAndText | license/license.go:12-18 | the rendering does not depend on the SPDX id or the text |
| Licenses.RenderDistinguishesNil | license/license.go:12-18 | a detected license renders like "not found" only if its name is the placeholder itself |
| Policy.Config.OverrideFor | output_file.go:72 | looking up a module in the override map gives its entry, or "" for a missing key (Go map semantics) |
| Paths.LastSlash | output_file.go:94 | the result is -1 or the index of a '/', and no '/' follows it (the split point of `path.Split`) |
| Paths.Dir | output_file.go:94 | the directory half of `path.Split` is a prefix of the path, is empty or ends in '/', and leaves no '/' behind it |
| Paths.DirUnique | output_file.go:94 | those three properties determine the directory half uniquely |
| Paths.ExecDirOfAbsolutePath | output_file.go:94 | `/opt/bin/golicense` splits to the directory `/opt/bin/` |
| Paths.ExecDirOfBareName | output_file.go:94 | a path without '/' has an empty directory half |
| Paths.OverrideFile | output_file.go:73 | the override file path starts with `OverridePath + "/"` and ends with the module path and `/LICENSE`; the override entry's value plays no part; see also OverrideFileInjective and FinishScenarios.OverrideFileOf |
| Paths.ArtifactDir | output_file.go:94-95 | the artifact directory starts with the executable's directory and `License/`, and ends with the module path and a '/' |
| Paths.ArtifactFile | output_file.go:94-101 | the artifact file is `LICENSE` inside the artifact directory, hence below `License/` in the executable's directory; see also ArtifactFileInjective and FinishScenarios.ArtifactOfAbsoluteExec |
| Paths.ArtifactFileInjective | output_file.go:94-95 | different module paths give different artifact path strings |
| Paths.OverrideFileInjective | output_file.go:73 | different module paths give different override path strings |
| Padding.Spaces | output_file.go:139 | `strings.Repeat(" ", n)` yields exactly n spaces |
| Padding.Pad | output_file.go:134-139 | width 0 gives the path unchanged; otherwise the path followed only by spaces, of total length equal to the width, or a panic (None) when the path is longer than the width |
| Padding.MaxPathLen | output_file.go:147-152 | the width is 0 for no modules; no module path is longer, and for a non-empty list some module path is exactly this long (the maximum); see also AllModulesAligned and FileOutput.Init |
| Padding.AllModulesAligned | output_file.go:131-152 | every module of the list pads without panicking, and to the common width when it is not 0 |
| FinishSpec.ApplyOverride | output_file.go:74-84 | a clean read sets the text to the file's contents and keeps name and SPDX; a missing or unreadable file leaves the license unchanged |
| FinishSpec.Resolve | output_file.go:62-85 | whenever the license is allowed, there is a license to write (nil is never allowed) |
| FinishSpec.Decide | output_file.go:57-117 | the outcome of Finish: AbortNoConfig exactly when there is no config; AbortPolicy, with the classifier's state, exactly when the license is not allowed; a write, a write failure or "Missing Licence" only for an allowed, non-nil license; a written or failed artifact is at `ArtifactFile`, and a written text is non-empty; see also WrittenIff, MissingIff, NoConfigAborts, PolicyFailureAborts and FinishReadsOnlyOverrideFile |
| FinishSpec.NoConfigAborts | output_file.go:57-60 | without a config the outcome is AbortNoConfig and the license is untouched, whatever the license and files |
| FinishSpec.PolicyFailureAborts | output_file.go:62-69 | a Denied or Unknown license aborts with that state, independently of the file system, and the license is unchanged |
| FinishSpec.NilLicenseAborts | output_file.go:62-69 | a nil license always takes the policy-failure path |
| FinishSpec.NoOverrideKeepsText | output_file.go:72 | with no override entry, or an empty one, the license considered for writing is the detected one |
| FinishSpec.OverrideApplied | output_file.go:72-85 | with a non-empty override entry, a clean read of `OverridePath + "/" + m.Path + "/LICENSE"` replaces only the text; otherwise the license is kept |
| FinishSpec.ResolveByOverride | output_file.go:72-85 | with a non-empty override entry the license is the override applied to the read of the module's override file |
| FinishSpec.OverrideIdempotent | output_file.go:74-84 | applying the same override read twice gives the same license as applying it once |
| FinishSpec.FinishReadsOnlyOverrideFile | output_file.go:72-112 | the outcome and the final license depend on the file system only through the module's override file and artifact file |
| FinishSpec.WrittenIff | output_file.go:93-112 | an artifact is written iff there is a config, the license is allowed, the final text is non-empty and the file is writable; its path is `Dir(ExecPath) + "License/" + m.Path + "/LICENSE"` and its content is the final text |
| FinishSpec.MissingIff | output_file.go:93-117 | the outcome is "Missing Licence" iff the license is allowed and its final text is empty |
| FinishSpec.DecideWritten | output_file.go:93-112 | an allowed license with non-empty final text and a writable artifact file is written there with that text |
| FinishScenarios.ArtifactOfAbsoluteExec | output_file.go:94-95 | an executable at `/opt/bin/golicense` puts `github.com/x/y`'s artifact at `/opt/bin/License/github.com/x/y/LICENSE` |
| FinishScenarios.ArtifactOfBareExec | output_file.go:94-95 | a bare executable name puts artifacts at `License/<module>/LICENSE` |
| FinishScenarios.OverrideFileOf | output_file.go:73 | the override of `github.com/x/w` is read from `<OverridePath>/github.com/x/w/LICENSE` |
| FinishScenarios.ScenarioAllowedWritten | output_file.go:62-112 | allowed MIT with no override writes the detected text "MIT TEXT" |
| FinishScenarios.ScenarioDenied | output_file.go:62-69 | a denied GPL-3.0 license aborts with state Denied |
| FinishScenarios.ScenarioOverrideWritten | output_file.go:72-112 | an override file holding "OVERRIDE TEXT" is written instead of the detected text |
| FinishScenarios.ScenarioOverrideMissingFallsBack | output_file.go:72-112 | a missing override file falls back to the detected text, which is still written |
| OutputFile.FileOutput.constructor | output_file.go:18-35 | a new sink is uninitialised, with zero width, nil map and exit code 0 |
| OutputFile.FileOutput.ExitCode | output_file.go:37-39 | the exit code is always 0, since no method assigns it |
| OutputFile.FileOutput.Init | output_file.go:142-154 | allocates the map when nil, and raises `moduleMax` to the longest module path |
| OutputFile.FileOutput.Once | output_file.go:43 | the first call runs `init`; later calls change nothing; `init` runs at most once |
| OutputFile.FileOutput.Start | output_file.go:42-45 | only triggers the one-time initialisation |
| OutputFile.FileOutput.Update | output_file.go:48-51 | only triggers the one-time initialisation |
| OutputFile.FileOutput.Finish | output_file.go:54-120 | initialises once; its outcome is `Decide` and the license it leaves is `Resolve`; the resolution error parameter is unused |
| OutputFile.FileOutput.Close | output_file.go:123-128 | returns a nil error and changes nothing |
| OutputFile.FileOutput.PaddedModule | output_file.go:131-140 | initialises once, then pads the path to the longest module path (`Pad`) |
| OutputFile.RunModule | output_file.go:41-128 | a module driven through Start, two Updates, Finish and Close runs `init` exactly once and ends with `Decide`'s outcome |

## Left out

- File-system I/O (`os.Open`, `ioutil.ReadAll`, `os.MkdirAll`, `os.Create`, `io.Copy`, `fh.Close`) is replaced by the `Env` parameter. A successful write is recorded as `Written(path, text)`.
- `Env` is keyed on raw path strings. Path normalisation (a doubled '/', `.` and `..`) and case-insensitive file systems are not modelled. So `ArtifactFileInjective` and `OverrideFileInjective` speak of path strings: two modules whose paths differ only in case may still share one artifact file on such a file system.
- The four write-step panics are collapsed into one `writable` answer for the artifact file, giving `AbortWrite(path)`.
- Process exit, `panic` and console printing are replaced by `Outcome` values. The diagnostic messages are not modelled.
- `sync.Once` and `sync.Mutex` are not modelled as concurrency. The model is sequential: an `initialized` flag, and a `Close` that takes no lock.
- `config.Config.Allowed` is an arbitrary function. The config package is not part of this model. Its rule matching, and whether it classifies a nil license as Unknown, are not modelled. `Finish` requires that nil is never allowed, because the source dereferences the license after an Allowed classification.
- `module.Module` is reduced to its path. Its version and `String` only feed diagnostics.
- The `Update` status type comes from a file that is not part of this model. It is an `int` and is unused.
- FileOutput.Finish: the `err error` parameter is kept as `err` but never read, as in the source; the `err` of the override step is a fresh variable of its own.
- FileOutput.Finish: `l.Text` is overwritten in place through the caller's pointer. The model returns the resulting license as `final` instead, so aliasing of that license with other holders is not captured.
- The commented-out base64 printing and the unused `lineMax` field are not modelled. The `modules` map is modelled only as allocated and empty, since nothing fills it.
- `Config` and `Modules` are exported fields that a caller could change between calls. Here they are fixed at construction.
- Padding.Pad: lengths are counted in characters; Go's `len` counts UTF-8 bytes. The two agree on ASCII module paths only.
