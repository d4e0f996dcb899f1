/** Paths as component sequences, on a platform without drive prefixes. Two spellings with the same
    components are the same path, which is how path sets compare them. */
module Paths {
  // Components are names or "..", plus a leading "." that only a relative path can keep.
  datatype Path = Path(absolute: bool, components: seq<string>)

  function Split(text: string): (parts: seq<string>)
    ensures |parts| > 0
    ensures forall p | p in parts :: '/' !in p
  {
    if text == "" then [""]
    else
      var rest := Split(text[1..]);
      if text[0] == '/' then [""] + rest else [[text[0]] + rest[0]] + rest[1..]
  }

  function DropSeparators(parts: seq<string>): (r: seq<string>)
    ensures forall p | p in r :: p in parts && p != "" && p != "."
  {
    if parts == [] then []
    else if parts[0] == "" || parts[0] == "." then DropSeparators(parts[1..])
    else [parts[0]] + DropSeparators(parts[1..])
  }

  function Parse(text: string): (p: Path)
    ensures forall c | c in p.components :: c != "" && '/' !in c
    ensures p.absolute ==> "." !in p.components
  {
    var parts := Split(text);
    var absolute := text != "" && text[0] == '/';
    Path(absolute, (if !absolute && parts[0] == "." then ["."] else []) + DropSeparators(parts))
  }

  function Join(base: Path, p: Path): (r: Path)
    ensures base.absolute ==> r.absolute
  {
    if p.absolute || base == Path(false, []) then p
    else if p.components != [] && p.components[0] == "." then Path(base.absolute, base.components + p.components[1..])
    else Path(base.absolute, base.components + p.components)
  }

  // No "." and no "..": every component is a real name.
  predicate Clean(p: Path) {
    forall c | c in p.components :: c != "." && c != ".."
  }

  predicate HasPrefix(root: Path, p: Path) {
    root.absolute == p.absolute && root.components <= p.components
  }
}
