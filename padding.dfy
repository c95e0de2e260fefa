/** Alignment of module paths: the width `init` computes and the padding
    `paddedModule` applies. Lengths are counted in characters. */
module Padding {
  import opened Wrappers
  import opened Modules

  /** `strings.Repeat(" ", n)` for a non-negative count. */
  function Spaces(n: nat): (s: string)
    ensures |s| == n
    ensures forall i :: 0 <= i < n ==> s[i] == ' '
  {
    if n == 0 then [] else Spaces(n - 1) + [' ']
  }

  function Max(a: nat, b: nat): nat
  {
    if a < b then b else a
  }

  /** The longest module path, or 0 for no modules; folded from the front as
      the `init` loop visits `Modules`. No module path is longer, and for a
      non-empty list some module path is exactly this long. */
  function MaxPathLen(mods: seq<Module>): (width: nat)
    ensures mods == [] ==> width == 0
    ensures forall i :: 0 <= i < |mods| ==> |mods[i].path| <= width
    ensures mods != [] ==> exists i :: 0 <= i < |mods| && |mods[i].path| == width
  {
    if mods == [] then 0
    else
      var front := mods[..|mods| - 1];
      assert forall i :: 0 <= i < |front| ==> front[i] == mods[i];
      Max(MaxPathLen(front), |mods[|mods| - 1].path|)
  }

  /** `paddedModule` once the width is known: the path itself when the width
      is 0; otherwise the path followed by spaces up to the width, or `None`
      where `strings.Repeat` would panic on a negative count. */
  function Pad(path: string, width: nat): (r: Option<string>)
    ensures width == 0 ==> r == Some(path)
    ensures width > 0 ==> (r.Some? <==> |path| <= width)
    ensures r.Some? && width > 0 ==>
      && |r.value| == width
      && r.value[..|path|] == path
      && forall i :: |path| <= i < width ==> r.value[i] == ' '
  {
    if width == 0 then Some(path)
    else if |path| > width then None
    else Some(path + Spaces(width - |path|))
  }

  /** Every module of the list pads without panicking, and all of them to the
      same width whenever that width is not 0. */
  lemma AllModulesAligned(mods: seq<Module>, i: nat)
    requires i < |mods|
    ensures Pad(mods[i].path, MaxPathLen(mods)).Some?
    ensures MaxPathLen(mods) > 0 ==> |Pad(mods[i].path, MaxPathLen(mods)).value| == MaxPathLen(mods)
  {
  }
}
