/**
 * Filesystem paths as lists of segments. `Render` spells a path the way
 * System.IO.Path.Combine does on Windows, joining the segments with a
 * backslash; the empty list is the empty string.
 */
module Paths {
  import opened Text

  type Path = seq<string>

  const Separator: char := '\\'

  function Render(p: Path): string {
    Join(p, Separator)
  }

  /** Path.GetDirectoryName: every segment but the last. */
  function Parent(p: Path): (r: Path)
    ensures p != [] ==> r + [p[|p| - 1]] == p
  {
    if p == [] then [] else p[..|p| - 1]
  }

  /** Path.GetFileName: the last segment. */
  function FileName(p: Path): string {
    if p == [] then "" else p[|p| - 1]
  }

  /** The name up to, and without, its last '.' (the whole name when it has none). */
  function StripExtension(name: string): (r: string)
    ensures |r| <= |name| && r == name[..|r|]
    ensures '.' !in name ==> r == name
    ensures '.' in name ==> |r| < |name| && name[|r|] == '.' && '.' !in name[|r| + 1..]
    decreases |name|
  {
    if name == [] then []
    else if name[|name| - 1] == '.' then name[..|name| - 1]
    else if '.' in name[..|name| - 1] then StripExtension(name[..|name| - 1])
    else name
  }

  /** Path.GetFileNameWithoutExtension. */
  function NameWithoutExtension(p: Path): string {
    StripExtension(FileName(p))
  }

  /** Path.Combine(p, name): an empty name adds no segment. */
  function Combine(p: Path, name: string): Path {
    if name == "" then p else p + [name]
  }

  /** `p` lies strictly beneath the directory `root`. */
  predicate Under(p: Path, root: Path) {
    |root| < |p| && p[..|root|] == root
  }

  /** `p` is `root` itself or lies beneath it. */
  predicate AtOrUnder(p: Path, root: Path) {
    |root| <= |p| && p[..|root|] == root
  }

  /** The non-empty prefixes of `p`: the directories Directory.CreateDirectory(p) makes exist. */
  function Ancestry(p: Path): (r: set<Path>)
    ensures p != [] ==> p in r
    ensures forall q :: q in r ==> q != [] && |q| <= |p| && p[..|q|] == q
  {
    assert p != [] ==> p[..|p|] == p;
    set k | 1 <= k <= |p| :: p[..k]
  }

  /** Every non-empty prefix of `p` is among the directories Directory.CreateDirectory(p) makes. */
  lemma PrefixInAncestry(p: Path, k: int)
    requires 1 <= k <= |p|
    ensures p[..k] in Ancestry(p)
  {
  }

  /** A path outside `root` has its parent outside `root` too. */
  lemma ParentOutside(p: Path, root: Path)
    requires p != [] && !AtOrUnder(p, root)
    ensures !AtOrUnder(Parent(p), root)
  {
    if |root| <= |Parent(p)| {
      assert Parent(p)[..|root|] == p[..|root|];
    }
  }
}
