/**
 * The four processor families of `ga` (index.js:59-67): the processor name is
 * lower-cased and must be one of less, sass, terser, uglify; the family then
 * fixes the source extension, the output extension and the default source
 * container folder.
 */
module Families {
  import opened Wrappers
  import opened Utils

  datatype Family = Less | Sass | Terser | Uglify

  /** The processor name as `ga` compares it. */
  function Name(f: Family): string {
    match f
    case Less => "less"
    case Sass => "sass"
    case Terser => "terser"
    case Uglify => "uglify"
  }

  const FamilyNames: seq<string> := ["less", "sass", "terser", "uglify"]
  const ScriptNames: seq<string> := ["terser", "uglify"]

  predicate IsScript(f: Family) {
    f == Terser || f == Uglify
  }

  /** The family named by `processorType` after lower-casing, or None (`ga` then returns null). */
  function FamilyOf(processorType: string): (r: Option<Family>)
    ensures r.Some? <==> LowerAscii(processorType) in FamilyNames
    ensures r.Some? ==> Name(r.value) == LowerAscii(processorType)
  {
    var name := LowerAscii(processorType);
    if name == "less" then Some(Less)
    else if name == "sass" then Some(Sass)
    else if name == "terser" then Some(Terser)
    else if name == "uglify" then Some(Uglify)
    else None
  }

  /** Each family's own name selects that family, whatever the case it is written in. */
  lemma FamilyOfName(f: Family, spelled: string)
    requires LowerAscii(spelled) == Name(f)
    ensures FamilyOf(spelled) == Some(f)
  {
  }

  lemma FamilyOfOwnName(f: Family)
    ensures FamilyOf(Name(f)) == Some(f)
  {
    LowerAsciiFixes(Name(f));
  }

  /** Source extension, index.js:65, written as the source tests the lower-cased name. */
  function SrcExt(f: Family): string {
    if Name(f) in ScriptNames then "js" else if Name(f) == "less" then "less" else "scss"
  }

  /** Output extension, index.js:66. */
  function DistExt(f: Family): string {
    if Name(f) in ScriptNames then "js" else "css"
  }

  /** Default source sub-folder under `./src/`, index.js:67. */
  function Container(f: Family): string {
    if Name(f) in ScriptNames then "js" else Name(f)
  }

  /**
   * The per-family table: script families read and write `js` from `src/js`;
   * less reads `.less`, sass reads `.scss`, both write `css` and keep their
   * sources under their own name. The source extension is `js` exactly for the
   * script families, which is the test `generateSrcOutput` branches on.
   */
  lemma ExtensionTable(f: Family)
    ensures SrcExt(f) == "js" <==> IsScript(f)
    ensures SrcExt(f) == (match f case Less => "less" case Sass => "scss" case _ => "js")
    ensures DistExt(f) == (if IsScript(f) then "js" else "css")
    ensures Container(f) == (if IsScript(f) then "js" else Name(f))
  {
  }
}
