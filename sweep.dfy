/**
 * The cleanup sweeps: delete every file beneath an output root that is an
 * intermediate artifact of one kind, and report how many were found.
 * Forge.Modules.XMB and ERADEF enumerate `*.xmb` / `*.eradef` below the
 * root; FONTS enumerates every file and keeps those whose full path ends
 * in `.ttf` or `.ttc` (case-sensitive).
 */
module Sweep {
  import opened Text
  import opened Paths
  import opened FileSystem

  datatype Artifact = Xmb | EraDef | Font

  predicate Matches(a: Artifact, p: Path) {
    match a
    case Xmb => EndsWith(FileName(p), ".xmb")
    case EraDef => EndsWith(FileName(p), ".eradef")
    case Font => EndsWith(Render(p), ".ttf") || EndsWith(Render(p), ".ttc")
  }

  /** Directory.EnumerateFiles(root, pattern, SearchOption.AllDirectories), as a set. */
  function Targets(files: set<Path>, root: Path, a: Artifact): (r: set<Path>)
    ensures forall p :: p in r <==> p in files && Under(p, root) && Matches(a, p)
  {
    set p | p in files && Under(p, root) && Matches(a, p)
  }

  /** The files left once the targets are deleted. */
  function Remaining(files: set<Path>, root: Path, a: Artifact): (r: set<Path>)
    ensures forall p :: p in r <==> p in files && !(Under(p, root) && Matches(a, p))
    ensures Targets(r, root, a) == {}
    ensures r + Targets(files, root, a) == files
  {
    files - Targets(files, root, a)
  }

  /** A second sweep of the same tree finds and removes nothing. */
  lemma SweepIdempotent(files: set<Path>, root: Path, a: Artifact)
    ensures |Targets(Remaining(files, root, a), root, a)| == 0
    ensures Remaining(Remaining(files, root, a), root, a) == Remaining(files, root, a)
  {
  }

  /** Sweeps of two kinds give the same tree in either order. */
  lemma SweepsCommute(files: set<Path>, root: Path, a: Artifact, b: Artifact)
    ensures Remaining(Remaining(files, root, a), root, b) == Remaining(Remaining(files, root, b), root, a)
  {
  }

  /** The xmb and eradef sweeps never pick the same file. */
  lemma XmbEraDefDisjoint(p: Path)
    ensures !(Matches(Xmb, p) && Matches(EraDef, p))
  {
    var n := FileName(p);
    if Matches(Xmb, p) {
      assert n[|n| - 1] == ".xmb"[3] == 'b';
      if |n| >= 7 {
        assert n[|n| - 7..][6] == n[|n| - 1];
      }
    }
  }

  /** The font test is on the exact characters: an upper-case extension is kept. */
  lemma FontMatchIsCaseSensitive()
    ensures Matches(Font, ["out", "A.ttf"]) && Matches(Font, ["out", "A.ttc"])
    ensures !Matches(Font, ["out", "A.TTF"])
  {
    assert Render(["out", "A.ttf"]) == "out\\A.ttf";
    assert Render(["out", "A.ttc"]) == "out\\A.ttc";
    assert Render(["out", "A.TTF"]) == "out\\A.TTF";
  }

  /**
   * Enumerates the matches, then deletes them one by one; returns the
   * number enumerated before deleting (the count the source logs).
   * The root must exist: enumerating a missing directory throws.
   */
  method RemoveMatching(disk: Disk, root: Path, a: Artifact) returns (removed: nat)
    requires root in disk.dirs
    modifies disk
    ensures disk.dirs == old(disk.dirs)
    ensures disk.files == Remaining(old(disk.files), root, a)
    ensures removed == |Targets(old(disk.files), root, a)|
  {
    var targets := Targets(disk.files, root, a);
    removed := |targets|;
    var pending := targets;
    while pending != {}
      invariant pending <= targets
      invariant disk.dirs == old(disk.dirs)
      invariant disk.files == old(disk.files) - (targets - pending)
      decreases pending
    {
      var p :| p in pending;
      disk.DeleteFile(p);
      pending := pending - {p};
    }
  }
}

/** Forge.Modules.XMB */
module Xmb {
  import opened Paths
  import opened FileSystem
  import Sweep

  /** Deletes every `*.xmb` file beneath `directoryPath`; returns how many there were. */
  method RemoveAll(disk: Disk, directoryPath: Path) returns (fileCount: nat)
    requires directoryPath in disk.dirs
    modifies disk
    ensures disk.dirs == old(disk.dirs)
    ensures disk.files == Sweep.Remaining(old(disk.files), directoryPath, Sweep.Xmb)
    ensures fileCount == |Sweep.Targets(old(disk.files), directoryPath, Sweep.Xmb)|
  {
    fileCount := Sweep.RemoveMatching(disk, directoryPath, Sweep.Xmb);
  }
}

/** Forge.Modules.ERADEF */
module EraDef {
  import opened Paths
  import opened FileSystem
  import Sweep

  /** Deletes every `*.eradef` file beneath `directoryPath`; returns how many there were. */
  method RemoveAll(disk: Disk, directoryPath: Path) returns (fileCount: nat)
    requires directoryPath in disk.dirs
    modifies disk
    ensures disk.dirs == old(disk.dirs)
    ensures disk.files == Sweep.Remaining(old(disk.files), directoryPath, Sweep.EraDef)
    ensures fileCount == |Sweep.Targets(old(disk.files), directoryPath, Sweep.EraDef)|
  {
    fileCount := Sweep.RemoveMatching(disk, directoryPath, Sweep.EraDef);
  }
}

/** Forge.Modules.FONTS */
module Fonts {
  import opened Paths
  import opened FileSystem
  import Sweep

  /** Deletes every file beneath `directoryPath` whose path ends in `.ttf` or `.ttc`. */
  method RemoveAllFonts(disk: Disk, directoryPath: Path) returns (fileCount: nat)
    requires directoryPath in disk.dirs
    modifies disk
    ensures disk.dirs == old(disk.dirs)
    ensures disk.files == Sweep.Remaining(old(disk.files), directoryPath, Sweep.Font)
    ensures fileCount == |Sweep.Targets(old(disk.files), directoryPath, Sweep.Font)|
  {
    fileCount := Sweep.RemoveMatching(disk, directoryPath, Sweep.Font);
  }
}
