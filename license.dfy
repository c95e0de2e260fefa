/** The `license` package: the record a detector produces for one module. */
module Licenses {
  import opened Wrappers

  /** A software license: a human-friendly name such as "MIT License", its
      SPDX identifier (empty when unknown) and its full text (empty when none
      was found). A nil `*License` is `None` wherever one may occur. */
  datatype License = License(name: string, spdx: string, text: string)

  /** What `String` renders for a nil license. */
  const NotFound: string := "<license not found or detected>"

  /** `(*License).String`: the placeholder for nil, the name otherwise.
      As a function it cannot fail and cannot change its argument. */
  function Render(l: Option<License>): (s: string)
    ensures l.None? ==> s == "<license not found or detected>"
    ensures l.Some? ==> s == l.value.name
  {
    match l
    case None => NotFound
    case Some(lic) => lic.name
  }

  /** Only the name is rendered: SPDX id and text do not matter. */
  lemma RenderIgnoresSpdxAndText(l: License, spdx: string, text: string)
    ensures Render(Some(l.(spdx := spdx, text := text))) == Render(Some(l))
  {
  }

  /** A detected license renders differently from "not found" unless its name
      happens to be the placeholder itself. */
  lemma RenderDistinguishesNil(l: License)
    ensures Render(Some(l)) == Render(None) <==> l.name == NotFound
  {
  }
}
