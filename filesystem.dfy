/**
 * The filesystem the pipeline works on: a set of directory paths and a set
 * of file paths. `DiskState` is its value; `Disk` is the mutable store the
 * imperative code changes through System.IO-like operations.
 */
module FileSystem {
  import opened Paths

  datatype DiskState = DiskState(dirs: set<Path>, files: set<Path>)

  /** Directory.CreateDirectory(p): p and every ancestor of it now exist. */
  function Created(d: DiskState, p: Path): (r: DiskState)
    ensures p != [] ==> p in r.dirs
    ensures r.files == d.files && d.dirs <= r.dirs
  {
    DiskState(d.dirs + Ancestry(p), d.files)
  }

  /** Directory.Delete(p, recursive: true): p and everything beneath it are gone. */
  function DeleteTree(d: DiskState, p: Path): (r: DiskState)
    ensures forall x :: x in r.dirs <==> x in d.dirs && !AtOrUnder(x, p)
    ensures forall x :: x in r.files <==> x in d.files && !AtOrUnder(x, p)
  {
    DiskState(set x | x in d.dirs && !AtOrUnder(x, p), set x | x in d.files && !AtOrUnder(x, p))
  }

  /** What an external program adds to the disk. */
  function Grow(d: DiskState, e: DiskState): (r: DiskState)
    ensures r.dirs == d.dirs + e.dirs && r.files == d.files + e.files
  {
    DiskState(d.dirs + e.dirs, d.files + e.files)
  }

  /**
   * As on a real drive, every directory and file below a root lies in a
   * directory that exists.
   */
  predicate WellFormed(d: DiskState) {
    && (forall p :: p in d.dirs && |p| > 1 ==> Parent(p) in d.dirs)
    && (forall p :: p in d.files && |p| > 1 ==> Parent(p) in d.dirs)
  }

  /** Directory.CreateDirectory makes the missing ancestors too, so the disk stays well formed. */
  lemma CreatedWellFormed(d: DiskState, p: Path)
    requires WellFormed(d)
    ensures WellFormed(Created(d, p))
  {
    forall q | q in Ancestry(p) && |q| > 1 ensures Parent(q) in Ancestry(p) {
      assert Parent(q) == p[..|q| - 1];
      PrefixInAncestry(p, |q| - 1);
    }
  }

  /** Deleting a whole tree leaves no entry without its directory. */
  lemma DeleteTreeWellFormed(d: DiskState, root: Path)
    requires WellFormed(d)
    ensures WellFormed(DeleteTree(d, root))
  {
    var r := DeleteTree(d, root);
    forall q | q in r.dirs && |q| > 1 ensures Parent(q) in r.dirs {
      ParentOutside(q, root);
    }
    forall q | q in r.files && |q| > 1 ensures Parent(q) in r.dirs {
      ParentOutside(q, root);
    }
  }

  /** What a program adds, when it is itself well formed, keeps the disk well formed. */
  lemma GrowWellFormed(d: DiskState, e: DiskState)
    requires WellFormed(d) && WellFormed(e)
    ensures WellFormed(Grow(d, e))
  {
  }

  /** Nothing lies beneath a directory that does not exist. */
  lemma {:induction false} NothingUnderMissing(d: DiskState, root: Path, p: Path)
    requires WellFormed(d) && root != [] && root !in d.dirs
    requires p in d.dirs || p in d.files
    ensures !Under(p, root)
    decreases |p|
  {
    if Under(p, root) {
      var q := Parent(p);
      assert q[..|root|] == p[..|root|];
      if |q| > |root| {
        NothingUnderMissing(d, root, q);
      }
    }
  }

  /** Deleting a tree twice is deleting it once. */
  lemma DeleteTreeIdempotent(d: DiskState, p: Path)
    ensures DeleteTree(DeleteTree(d, p), p) == DeleteTree(d, p)
  {
  }

  class Disk {
    var dirs: set<Path>
    var files: set<Path>

    function State(): DiskState
      reads this
    {
      DiskState(dirs, files)
    }

    constructor (initial: DiskState)
      ensures State() == initial
    {
      dirs := initial.dirs;
      files := initial.files;
    }

    method CreateDirectory(p: Path)
      modifies this
      ensures State() == Created(old(State()), p)
    {
      dirs := dirs + Ancestry(p);
    }

    /** Directory.Delete(p, true); the directory must exist (otherwise it throws). */
    method DeleteDirectory(p: Path)
      requires p in dirs
      modifies this
      ensures State() == DeleteTree(old(State()), p)
    {
      dirs := set x | x in dirs && !AtOrUnder(x, p);
      files := set x | x in files && !AtOrUnder(x, p);
    }

    /** File.Delete(p); deleting a missing file is not an error. */
    method DeleteFile(p: Path)
      modifies this
      ensures dirs == old(dirs) && files == old(files) - {p}
    {
      files := files - {p};
    }

    /** Writes (creates or overwrites) the file p. */
    method WriteFile(p: Path)
      modifies this
      ensures dirs == old(dirs) && files == old(files) + {p}
    {
      files := files + {p};
    }

    /** Leaves the disk as `next`: what code outside the model did to it. */
    method Become(next: DiskState)
      modifies this
      ensures State() == next
    {
      dirs := next.dirs;
      files := next.files;
    }

    /** Applies what an external program created. */
    method Apply(e: DiskState)
      modifies this
      ensures State() == Grow(old(State()), e)
    {
      dirs := dirs + e.dirs;
      files := files + e.files;
    }
  }
}
