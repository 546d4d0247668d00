/** The part of `java.nio.file.Path` (Unix file system) that the file
    mappers use: a path is absolute or relative and holds a sequence of
    names; the root is the absolute path with no names and the empty path
    is the relative path with no names. */
module Paths {
  import opened Wrappers

  datatype Path = Path(absolute: bool, names: seq<string>)

  const Root: Path := Path(true, [])
  const EmptyPath: Path := Path(false, [])

  /** `Paths.get(first, more...)` for names without separators. */
  function Get(names: seq<string>): (p: Path)
    ensures !p.absolute && p.names == names
  {
    Path(false, names)
  }

  /** `String.valueOf(p.getFileName())`: the last name; the empty path is its
      own file name, and the root has none, so string concatenation prints
      `null`. */
  function FileNameString(p: Path): (s: string)
    ensures p.names != [] ==> s == p.names[|p.names| - 1]
    ensures p == EmptyPath ==> s == ""
    ensures p == Root ==> s == "null"
  {
    if p.names != [] then p.names[|p.names| - 1]
    else if p.absolute then "null"
    else ""
  }

  /** `getParent()`: none for the root, the empty path and a relative path
      of one name; the root for an absolute path of one name; otherwise the
      path without its last name. */
  function GetParent(p: Path): (r: Option<Path>)
    ensures r.Some? <==> |p.names| >= 2 || (p.absolute && |p.names| == 1)
    ensures r.Some? ==> r.value.absolute == p.absolute && r.value.names == p.names[..|p.names| - 1]
  {
    if |p.names| == 0 then None
    else if |p.names| == 1 then (if p.absolute then Some(Root) else None)
    else Some(Path(p.absolute, p.names[..|p.names| - 1]))
  }

  /** `resolve(other)`: an absolute `other` replaces the path, an empty
      `other` leaves it, and otherwise the names of `other` are appended. */
  function Resolve(p: Path, other: Path): (r: Path)
    ensures other.absolute ==> r == other
    ensures !other.absolute ==> r.absolute == p.absolute && r.names == p.names + other.names
  {
    if other.absolute then other
    else if other.names == [] then p
    else if p == EmptyPath then other
    else Path(p.absolute, p.names + other.names)
  }

  /** `resolveSibling(other)`: `other` resolved against the parent, or
      `other` itself when there is no parent. */
  function ResolveSibling(p: Path, other: Path): (r: Path)
    ensures GetParent(p).None? ==> r == other
    ensures GetParent(p).Some? ==> r == Resolve(GetParent(p).value, other)
  {
    match GetParent(p)
    case None => other
    case Some(parent) => Resolve(parent, other)
  }

  /** Replacing the file name of a path by itself gives the path back:
      `p.resolveSibling(p.getFileName()) == p` for every path with a name. */
  lemma ResolveSiblingOwnName(p: Path)
    requires p.names != []
    ensures ResolveSibling(p, Get([FileNameString(p)])) == p
  {
    var n := |p.names|;
    assert p.names == p.names[..n - 1] + [p.names[n - 1]];
  }

  /** A path with the same parent as `p` and the single relative name
      `name` as its file name. */
  lemma {:induction false} ResolveSiblingName(p: Path, name: string)
    ensures var r := ResolveSibling(p, Get([name]));
            r.names != [] && FileNameString(r) == name
            && GetParent(r) == GetParent(p)
  {
    var r := ResolveSibling(p, Get([name]));
    match GetParent(p)
    case None =>
    case Some(parent) =>
      assert r.names[..|r.names| - 1] == parent.names;
  }
}
