/**
 * The two earlier decompilers (Core/Decompiler.cs and Runtime/Decompiler.cs).
 * They differ only in where the tool is looked for; both walk the files in
 * order, and every file uses the one shared temp directory `<output>/temp`:
 * decrypt into it, stop (leaving it in place) when `<name>.era.bin` did not
 * appear, otherwise expand and delete the whole temp directory. There is
 * no progress object, no disk-space check and no cleanup sweep.
 */
module LegacyDecompiler {
  import opened Paths
  import opened FileSystem
  import opened PhxToolHandler
  import opened Events
  import opened FileProcessor
  import Batches

  /** `<tempDir>/<name>.era.bin` in the shared temp directory. */
  function SharedIntermediate(outputPath: Path, file: Path): Path {
    TempRoot(outputPath) + [NameWithoutExtension(file) + ".era.bin"]
  }

  /** The decrypt command: the file's directory in, the shared temp directory out. */
  function SharedDecryptArguments(file: Path, outputPath: Path): string {
    BuildArguments("decrypt", NameWithoutExtension(file), Render(Parent(file)), Render(TempRoot(outputPath)))
  }

  /** The expand command: it reads `<tempDir>/<name>`, written with a forward slash, and writes to the output root. */
  function SharedExpandArguments(file: Path, outputPath: Path): string {
    var name := NameWithoutExtension(file);
    BuildArguments("expand", name, Render(TempRoot(outputPath)) + "/" + name, Render(outputPath))
  }

  /** The disk right after the decrypt call, the shared temp directory made first if it was missing. */
  function SharedAfterDecrypt(d: DiskState, effect: ToolEffect, toolPath: Path, file: Path, outputPath: Path): DiskState {
    var prepared := if TempRoot(outputPath) in d.dirs then d else Created(d, TempRoot(outputPath));
    Grow(prepared, effect(Invocation(toolPath, SharedDecryptArguments(file, outputPath))))
  }

  /**
   * What ProcessEraFile does for one file: a missing intermediate ends it
   * after the decrypt run with the temp directory still there; otherwise
   * the expand run follows and the whole temp directory is deleted.
   */
  function SharedStage(d: DiskState, effect: ToolEffect, toolPath: Path, file: Path, outputPath: Path): (r: StageResult)
    ensures 1 <= |r.calls| <= 2
    ensures r.calls[0] == Invocation(toolPath, SharedDecryptArguments(file, outputPath))
    ensures |r.calls| == 2 <==> SharedIntermediate(outputPath, file) in SharedAfterDecrypt(d, effect, toolPath, file, outputPath).files
    ensures |r.calls| == 2 ==> r.calls[1] == Invocation(toolPath, SharedExpandArguments(file, outputPath))
  {
    var decrypt := Invocation(toolPath, SharedDecryptArguments(file, outputPath));
    var d2 := SharedAfterDecrypt(d, effect, toolPath, file, outputPath);
    if SharedIntermediate(outputPath, file) !in d2.files then StageResult(d2, [decrypt])
    else
      var expand := Invocation(toolPath, SharedExpandArguments(file, outputPath));
      StageResult(DeleteTree(Grow(d2, effect(expand)), TempRoot(outputPath)), [decrypt, expand])
  }

  /**
   * What one file leaves on disk: after a failed decrypt the disk as the
   * decrypt run left it, temp directory included; after an expand nothing
   * of the temp directory; and never a loss outside it.
   */
  lemma SharedStageDisk(d: DiskState, effect: ToolEffect, toolPath: Path, file: Path, outputPath: Path)
    ensures var r := SharedStage(d, effect, toolPath, file, outputPath);
      && (|r.calls| == 1 ==> r.disk == SharedAfterDecrypt(d, effect, toolPath, file, outputPath) && TempRoot(outputPath) in r.disk.dirs)
      && (|r.calls| == 2 ==> forall x :: x in r.disk.dirs ==> !AtOrUnder(x, TempRoot(outputPath)))
      && (|r.calls| == 2 ==> forall x :: x in r.disk.files ==> !AtOrUnder(x, TempRoot(outputPath)))
      && (forall x :: x in d.dirs && !AtOrUnder(x, TempRoot(outputPath)) ==> x in r.disk.dirs)
      && (forall x :: x in d.files && !AtOrUnder(x, TempRoot(outputPath)) ==> x in r.disk.files)
  {
  }

  /** ProcessEraFile(file, outputPath) of either legacy decompiler, the tool path passed in. */
  method ProcessEraFile(disk: Disk, effect: ToolEffect, toolPath: Path, file: Path, outputPath: Path)
    returns (calls: seq<ToolCall>)
    modifies disk
    ensures StageResult(disk.State(), calls) == SharedStage(old(disk.State()), effect, toolPath, file, outputPath)
  {
    var fileNameWithoutExt := NameWithoutExtension(file);
    var tempDir := outputPath + ["temp"];
    if tempDir !in disk.dirs {
      disk.CreateDirectory(tempDir);
    }
    var decrypt := RunPhxTool(disk, effect, toolPath,
      BuildArguments("decrypt", fileNameWithoutExt, Render(Parent(file)), Render(tempDir)));
    calls := [decrypt];
    assert disk.State() == SharedAfterDecrypt(old(disk.State()), effect, toolPath, file, outputPath);
    var decryptedFile := tempDir + [fileNameWithoutExt + ".era.bin"];
    if decryptedFile !in disk.files {
      return;
    }
    var expand := ExpandAndClear(disk, effect, toolPath, file, outputPath);
    calls := calls + [expand];
  }

  /** The second half of ProcessEraFile: run expand, then delete the whole shared temp directory. */
  method ExpandAndClear(disk: Disk, effect: ToolEffect, toolPath: Path, file: Path, outputPath: Path) returns (expand: ToolCall)
    requires TempRoot(outputPath) in disk.dirs
    modifies disk
    ensures expand == Invocation(toolPath, SharedExpandArguments(file, outputPath))
    ensures disk.State() == DeleteTree(Grow(old(disk.State()), effect(expand)), TempRoot(outputPath))
  {
    var fileNameWithoutExt := NameWithoutExtension(file);
    var tempDir := outputPath + ["temp"];
    expand := RunPhxTool(disk, effect, toolPath,
      BuildArguments("expand", fileNameWithoutExt, Render(tempDir) + "/" + fileNameWithoutExt, Render(outputPath)));
    disk.DeleteDirectory(tempDir);
  }

  /** The guard: a non-empty tool path naming an existing file. */
  predicate ToolAvailable(d: DiskState, toolPath: Path) {
    toolPath != [] && toolPath in d.files
  }

  /** The files processed one after another, each recorded with the tool runs it made. */
  function RunFiles(d: DiskState, effect: ToolEffect, toolPath: Path, files: seq<Path>, outputPath: Path): Batch
    decreases |files|
  {
    if files == [] then Batch(d, [])
    else
      var n := |files| - 1;
      var before := RunFiles(d, effect, toolPath, files[..n], outputPath);
      var s := SharedStage(before.disk, effect, toolPath, files[n], outputPath);
      Batch(s.disk, before.events + [EraProcessed(files[n], s.calls)])
  }

  /** FromEra(files, outputPath) with the tool at `toolPath`: the guard, the output directory, then the loop. */
  function Session(d: DiskState, effect: ToolEffect, toolPath: Path, files: seq<Path>, outputPath: Path): Batch {
    if !ToolAvailable(d, toolPath) then Batch(d, [])
    else RunFiles(Batches.WithOutput(d, outputPath), effect, toolPath, files, outputPath)
  }

  /** Without the tool nothing happens: no directory, no tool run, no file. */
  lemma ToolGuard(d: DiskState, effect: ToolEffect, toolPath: Path, files: seq<Path>, outputPath: Path)
    requires !ToolAvailable(d, toolPath)
    ensures Session(d, effect, toolPath, files, outputPath) == Batch(d, [])
  {
  }

  /**
   * The record of one file: it names the file, begins with its decrypt run
   * into the shared temp directory, and its second run, when there is one,
   * is its expand run.
   */
  predicate Recorded(e: Event, file: Path, toolPath: Path, outputPath: Path) {
    && e.EraProcessed? && e.file == file
    && 1 <= |e.calls| <= 2
    && e.calls[0] == Invocation(toolPath, SharedDecryptArguments(file, outputPath))
    && (|e.calls| == 2 ==> e.calls[1] == Invocation(toolPath, SharedExpandArguments(file, outputPath)))
  }

  /** One stage is recorded with the runs it made. */
  lemma StageRecorded(d: DiskState, effect: ToolEffect, toolPath: Path, file: Path, outputPath: Path)
    ensures Recorded(EraProcessed(file, SharedStage(d, effect, toolPath, file, outputPath).calls), file, toolPath, outputPath)
  {
  }

  /** The loop's trace over one more file: the earlier records, then that file's. */
  lemma RunFilesLast(d: DiskState, effect: ToolEffect, toolPath: Path, files: seq<Path>, outputPath: Path)
    requires files != []
    ensures var events := RunFiles(d, effect, toolPath, files, outputPath).events;
      var n := |files| - 1;
      && events[..|events| - 1] == RunFiles(d, effect, toolPath, files[..n], outputPath).events
      && Recorded(events[|events| - 1], files[n], toolPath, outputPath)
  {
    var n := |files| - 1;
    StageRecorded(RunFiles(d, effect, toolPath, files[..n], outputPath).disk, effect, toolPath, files[n], outputPath);
  }

  /** A trace over all but the last file, then the last file's record, processed every file in order. */
  lemma FileAppended(before: seq<Event>, last: Event, files: seq<Path>)
    requires files != [] && ProcessedFiles(before) == files[..|files| - 1]
    requires last.EraProcessed? && last.file == files[|files| - 1]
    ensures ProcessedFiles(before + [last]) == files
  {
    ProjectAppend(before, [last], FileOf);
    ProjectSingle(last, FileOf);
    assert files[..|files| - 1] + [files[|files| - 1]] == files;
  }

  /** Every file is processed once, in input order. */
  lemma {:induction false} RunFilesInOrder(d: DiskState, effect: ToolEffect, toolPath: Path, files: seq<Path>, outputPath: Path)
    ensures var events := RunFiles(d, effect, toolPath, files, outputPath).events;
      ProcessedFiles(events) == files && |events| == |files|
    decreases |files|
  {
    if files != [] {
      var n := |files| - 1;
      var events := RunFiles(d, effect, toolPath, files, outputPath).events;
      var before := RunFiles(d, effect, toolPath, files[..n], outputPath).events;
      RunFilesInOrder(d, effect, toolPath, files[..n], outputPath);
      RunFilesLast(d, effect, toolPath, files, outputPath);
      var last := events[|events| - 1];
      assert events == before + [last];
      FileAppended(before, last, files);
    }
  }

  /** Records of a prefix, then a record of the last file: every file is recorded. */
  lemma RecordsExtend(before: seq<Event>, events: seq<Event>, files: seq<Path>, toolPath: Path, outputPath: Path)
    requires |files| >= 1 && |events| == |files| && events[..|events| - 1] == before
    requires forall k :: 0 <= k < |before| ==> Recorded(before[k], files[..|before|][k], toolPath, outputPath)
    requires Recorded(events[|events| - 1], files[|files| - 1], toolPath, outputPath)
    ensures forall k :: 0 <= k < |files| ==> Recorded(events[k], files[k], toolPath, outputPath)
  {
    forall k | 0 <= k < |before|
      ensures Recorded(events[k], files[k], toolPath, outputPath)
    {
      assert events[k] == before[k] && files[k] == files[..|before|][k];
    }
  }

  /** Every file of the loop is recorded with the runs that file made. */
  lemma {:induction false} RunFilesCalls(d: DiskState, effect: ToolEffect, toolPath: Path, files: seq<Path>, outputPath: Path)
    ensures var events := RunFiles(d, effect, toolPath, files, outputPath).events;
      && |events| == |files|
      && forall k :: 0 <= k < |files| ==> Recorded(events[k], files[k], toolPath, outputPath)
    decreases |files|
  {
    if files != [] {
      var n := |files| - 1;
      var events := RunFiles(d, effect, toolPath, files, outputPath).events;
      var before := RunFiles(d, effect, toolPath, files[..n], outputPath).events;
      RunFilesCalls(d, effect, toolPath, files[..n], outputPath);
      RunFilesLast(d, effect, toolPath, files, outputPath);
      RecordsExtend(before, events, files, toolPath, outputPath);
    }
  }

  /** Nothing outside the shared temp directory is ever deleted. */
  lemma {:induction false} RunFilesKeepsOutside(d: DiskState, effect: ToolEffect, toolPath: Path, files: seq<Path>, outputPath: Path)
    ensures var r := RunFiles(d, effect, toolPath, files, outputPath).disk;
      && (forall x :: x in d.dirs && !AtOrUnder(x, TempRoot(outputPath)) ==> x in r.dirs)
      && (forall x :: x in d.files && !AtOrUnder(x, TempRoot(outputPath)) ==> x in r.files)
    decreases |files|
  {
    if files != [] {
      var n := |files| - 1;
      RunFilesKeepsOutside(d, effect, toolPath, files[..n], outputPath);
      SharedStageDisk(RunFiles(d, effect, toolPath, files[..n], outputPath).disk, effect, toolPath, files[n], outputPath);
    }
  }

  /**
   * Because the early return skips the deletion, a run over at least one
   * file ends with the temp directory in place exactly when the last file
   * found no intermediate; one that expanded leaves nothing of it.
   */
  lemma TempLeftByLastFile(d: DiskState, effect: ToolEffect, toolPath: Path, files: seq<Path>, outputPath: Path)
    requires files != []
    ensures var r := RunFiles(d, effect, toolPath, files, outputPath);
      && |r.events| == |files| && r.events[|files| - 1].EraProcessed?
      && (TempRoot(outputPath) in r.disk.dirs <==> |r.events[|files| - 1].calls| == 1)
  {
    RunFilesCalls(d, effect, toolPath, files, outputPath);
    var n := |files| - 1;
    var before := RunFiles(d, effect, toolPath, files[..n], outputPath);
    var s := SharedStage(before.disk, effect, toolPath, files[n], outputPath);
    SharedStageDisk(before.disk, effect, toolPath, files[n], outputPath);
    if |s.calls| == 2 {
      assert AtOrUnder(TempRoot(outputPath), TempRoot(outputPath));
    }
  }

  /** A run past the guard leaves the output directory in place. */
  lemma OutputKept(d: DiskState, effect: ToolEffect, toolPath: Path, files: seq<Path>, outputPath: Path)
    requires ToolAvailable(d, toolPath) && outputPath != []
    ensures outputPath in Session(d, effect, toolPath, files, outputPath).disk.dirs
  {
    RunFilesKeepsOutside(Batches.WithOutput(d, outputPath), effect, toolPath, files, outputPath);
    assert !AtOrUnder(outputPath, TempRoot(outputPath));
  }

  /** The loop of FromEra, after the guard and the output directory. */
  method ProcessFiles(disk: Disk, effect: ToolEffect, toolPath: Path, files: seq<Path>, outputPath: Path)
    returns (events: seq<Event>)
    modifies disk
    ensures Batch(disk.State(), events) == RunFiles(old(disk.State()), effect, toolPath, files, outputPath)
  {
    ghost var start := disk.State();
    events := [];
    for i := 0 to |files|
      invariant RunFiles(start, effect, toolPath, files[..i], outputPath) == Batch(disk.State(), events)
    {
      assert files[..i + 1][..i] == files[..i];
      var calls := ProcessEraFile(disk, effect, toolPath, files[i], outputPath);
      events := events + [EraProcessed(files[i], calls)];
    }
    assert files[..|files|] == files;
  }

  /** FromEra(files, outputPath) with the tool at `toolPath`. */
  method FromEra(disk: Disk, effect: ToolEffect, toolPath: Path, files: seq<Path>, outputPath: Path)
    returns (events: seq<Event>)
    modifies disk
    ensures Batch(disk.State(), events) == Session(old(disk.State()), effect, toolPath, files, outputPath)
  {
    if toolPath == [] || toolPath !in disk.files {
      return [];
    }
    if outputPath !in disk.dirs {
      disk.CreateDirectory(outputPath);
    }
    events := ProcessFiles(disk, effect, toolPath, files, outputPath);
  }

  /** Core/Decompiler.cs: the tool is always the copy inside the project's assets. */
  method CoreFromEra(disk: Disk, effect: ToolEffect, dataPath: Path, files: seq<Path>, outputPath: Path)
    returns (events: seq<Event>)
    modifies disk
    ensures Batch(disk.State(), events) == Session(old(disk.State()), effect, AssetToolPath(dataPath), files, outputPath)
  {
    events := FromEra(disk, effect, AssetToolPath(dataPath), files, outputPath);
  }

  /**
   * Runtime/Decompiler.cs: the tool path is chosen once, when the class is
   * loaded, from the files that existed then (`filesAtLoad`): the asset
   * copy, else the package copy, else the empty path.
   */
  method RuntimeFromEra(disk: Disk, effect: ToolEffect, dataPath: Path, filesAtLoad: set<Path>, files: seq<Path>, outputPath: Path)
    returns (events: seq<Event>)
    requires |dataPath| >= 2
    modifies disk
    ensures Batch(disk.State(), events) == Session(old(disk.State()), effect, GetToolPath(dataPath, filesAtLoad), files, outputPath)
  {
    events := FromEra(disk, effect, GetToolPath(dataPath, filesAtLoad), files, outputPath);
  }
}
