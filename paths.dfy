/**
  Filesystem paths as `std::path::Path` sees them: the sequence of components
  that `Path::components` yields. Only what the JSON adapter uses is modelled:
  `parent`, `join`, `strip_prefix` and the text a path converts to.
 */
module Paths {
  import opened Results

  /** A path component: the root directory, or a normal name such as `zed`. */
  datatype Component = RootDir | Normal(name: string)

  datatype Path = Path(components: seq<Component>)

  /** A path is well formed when the root, if present, is its first component. */
  predicate WellFormed(p: Path) {
    forall i :: 0 < i < |p.components| ==> p.components[i].Normal?
  }

  /** The number of normal components, i.e. how deep the path reaches below the root. */
  function Depth(cs: seq<Component>): nat {
    if cs == [] then 0 else Depth(cs[..|cs| - 1]) + (if cs[|cs| - 1].Normal? then 1 else 0)
  }

  /**
    `Path::parent`: drop the last component if it is a name; the root and the
    empty path have no parent.
   */
  function Parent(p: Path): (r: Option<Path>)
    ensures r.Some? <==> |p.components| > 0 && p.components[|p.components| - 1].Normal?
    ensures r.Some? ==> r.value.components + [p.components[|p.components| - 1]] == p.components
  {
    var n := |p.components|;
    if n > 0 && p.components[n - 1].Normal? then Some(Path(p.components[..n - 1])) else None
  }

  /** `Path::join`: a path that starts at the root replaces the base; otherwise it is appended. */
  function Join(base: Path, rel: Path): (r: Path)
    ensures IsRooted(rel) ==> r == rel
    ensures !IsRooted(rel) ==> |r.components| == |base.components| + |rel.components|
    ensures !IsRooted(rel) ==> r.components[..|base.components|] == base.components
    ensures !IsRooted(rel) ==> r.components[|base.components|..] == rel.components
  {
    if IsRooted(rel) then rel else Path(base.components + rel.components)
  }

  predicate IsRooted(p: Path) {
    |p.components| > 0 && p.components[0].RootDir?
  }

  /** `Path::strip_prefix`: succeeds exactly when `base` is a component-wise prefix of `p`. */
  function StripPrefix(p: Path, base: Path): (r: Option<Path>)
    ensures r.Some? <==> base.components <= p.components
    ensures r.Some? ==> base.components + r.value.components == p.components
  {
    if base.components <= p.components then Some(Path(p.components[|base.components|..])) else None
  }

  /** The text a path converts to (`OsString::from`, or serde's string form of a path). */
  function Render(p: Path): string {
    if IsRooted(p) then "/" + JoinNames(p.components[1..]) else JoinNames(p.components)
  }

  function ComponentText(c: Component): string {
    match c
    case RootDir => "/"
    case Normal(name) => name
  }

  /** Component texts separated by `/`. */
  function JoinNames(cs: seq<Component>): string
    decreases |cs|
  {
    if cs == [] then ""
    else if |cs| == 1 then ComponentText(cs[0])
    else ComponentText(cs[0]) + "/" + JoinNames(cs[1..])
  }
}
