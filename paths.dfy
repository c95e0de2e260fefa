/** Paths the output sink derives: Go's `path.Split`, the override file it
    reads and the artifact file it writes. */
module Paths {
  import opened Policy

  /** Index of the last '/' in `p`, or -1 when there is none
      (`strings.LastIndex(p, "/")`). */
  function LastSlash(p: string): (i: int)
    ensures -1 <= i < |p|
    ensures 0 <= i ==> p[i] == '/'
    ensures forall j :: i < j < |p| ==> p[j] != '/'
  {
    if |p| == 0 then -1
    else if p[|p| - 1] == '/' then |p| - 1
    else LastSlash(p[..|p| - 1])
  }

  /** The directory half of `path.Split(p)`: `p` up to and including its
      last '/', or "" when `p` has no '/'. */
  function Dir(p: string): (d: string)
    ensures |d| <= |p| && d == p[..|d|]
    ensures d == [] || d[|d| - 1] == '/'
    ensures forall j :: |d| <= j < |p| ==> p[j] != '/'
  {
    p[..LastSlash(p) + 1]
  }

  /** The three properties of `Dir` determine it: no other prefix ends in
      '/' (or is empty) and leaves no '/' behind it. */
  lemma DirUnique(p: string, k: nat)
    requires k <= |p|
    requires k == 0 || p[k - 1] == '/'
    requires forall j :: k <= j < |p| ==> p[j] != '/'
    ensures Dir(p) == p[..k]
  {
  }

  /** The override file Finish opens: `OverridePath + "/" + m.Path + "/" + "LICENSE"`.
      It lies below the override base directory and is named after the
      module path; the directory the override entry names plays no part. */
  function OverrideFile(c: Config, modulePath: string): (f: string)
    ensures var prefix := c.overridePath + "/";
      |prefix| <= |f| && f[..|prefix|] == prefix
    ensures var suffix := modulePath + "/LICENSE";
      |suffix| <= |f| && f[|f| - |suffix|..] == suffix
  {
    c.overridePath + "/" + modulePath + "/" + "LICENSE"
  }

  /** The directory Finish creates for a module's artifact: below
      `License/` in the executable's directory, ending in the module path and
      a '/'. */
  function ArtifactDir(execPath: string, modulePath: string): (d: string)
    ensures var prefix := Dir(execPath) + "License/";
      |prefix| <= |d| && d[..|prefix|] == prefix
    ensures var suffix := modulePath + "/";
      |suffix| <= |d| && d[|d| - |suffix|..] == suffix
  {
    Dir(execPath) + "License/" + modulePath + "/"
  }

  /** The artifact file Finish writes: `LICENSE` inside the module's
      artifact directory, hence below `License/` in the executable's
      directory. */
  function ArtifactFile(execPath: string, modulePath: string): (f: string)
    ensures var dir := ArtifactDir(execPath, modulePath);
      |dir| <= |f| && f[..|dir|] == dir && f[|dir|..] == "LICENSE"
    ensures var prefix := Dir(execPath) + "License/";
      |prefix| <= |f| && f[..|prefix|] == prefix
  {
    ArtifactDir(execPath, modulePath) + "LICENSE"
  }

  /** A common prefix and suffix can be cancelled from both sides. */
  lemma CancelAround(a: string, x: string, y: string, b: string)
    requires a + x + b == a + y + b
    ensures x == y
  {
    var s := a + x + b;
    assert |x| == |y|;
    assert x == s[|a|..|a| + |x|];
    assert y == (a + y + b)[|a|..|a| + |y|];
  }

  /** Different module paths give different artifact path strings. (Two
      different strings may still name one file, e.g. on a case-insensitive
      file system or through a doubled '/'.) */
  lemma {:induction false} ArtifactFileInjective(execPath: string, p1: string, p2: string)
    requires ArtifactFile(execPath, p1) == ArtifactFile(execPath, p2)
    ensures p1 == p2
  {
    var a := Dir(execPath) + "License/";
    var b := "/" + "LICENSE";
    assert ArtifactFile(execPath, p1) == a + p1 + b;
    assert ArtifactFile(execPath, p2) == a + p2 + b;
    CancelAround(a, p1, p2, b);
  }

  /** Different module paths give different override path strings. */
  lemma {:induction false} OverrideFileInjective(c: Config, p1: string, p2: string)
    requires OverrideFile(c, p1) == OverrideFile(c, p2)
    ensures p1 == p2
  {
    var a := c.overridePath + "/";
    var b := "/" + "LICENSE";
    assert OverrideFile(c, p1) == a + p1 + b;
    assert OverrideFile(c, p2) == a + p2 + b;
    CancelAround(a, p1, p2, b);
  }

  /** `/opt/bin/golicense` lies in `/opt/bin/`. */
  lemma ExecDirOfAbsolutePath()
    ensures Dir("/opt/bin/golicense") == "/opt/bin/"
  {
    var p := "/opt/bin/golicense";
    assert p[8] == '/';
    assert forall j :: 9 <= j < |p| ==> p[j] != '/';
    DirUnique(p, 9);
  }

  /** A bare executable name has an empty directory. */
  lemma ExecDirOfBareName()
    ensures Dir("golicense") == ""
  {
  }
}
