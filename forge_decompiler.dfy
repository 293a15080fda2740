/**
 * The Forge decompiler (Forge.Decompiler/Decompiler.cs): make the output
 * directory, check the disk space, hand every file to the file processor
 * (all at once, awaited together), delete the temp root, run the sweeps
 * and the DDX conversion the settings ask for, always remove the fonts,
 * and complete the progress. There is no tool guard in this version.
 * `Session` says what a whole run does; `FromEra` does it.
 */
module ForgeDecompiler {
  import opened Paths
  import opened FileSystem
  import opened Progress
  import opened Events
  import opened FileProcessor
  import Batches
  import DiskSpaceChecker
  import ForgeConfig
  import Sweep
  import Xmb
  import EraDef
  import Fonts
  import Text

  const SessionTitle := "Decompiling ERA's"

  /**
   * What FromEra reads from the machine: what the file processor does to
   * the disk for each file (and the tool runs it makes), the processor
   * count, file sizes and free space.
   */
  datatype Host = Host(
    stage: Batches.FileStage,
    processorCount: Batches.ProcessorCount,
    sizeOf: Path -> nat,
    availableSpace: int)

  datatype Outcome = InsufficientSpace | Finished

  datatype Run = Run(outcome: Outcome, disk: DiskState, events: seq<Event>)

  /** maxParallelism: 1 when parallel processing is off, else the configured count, else half the processors. */
  function MaxParallelism(settings: ForgeConfig.ConfigValues, processorCount: Batches.ProcessorCount): int {
    if !settings.enableParallelProcessing then 1
    else if settings.parallelThreads > 0 then settings.parallelThreads
    else processorCount / 2
  }

  /**
   * The value is never negative (a machine has at least one processor),
   * and it is 0 exactly when parallel processing is on with no configured
   * count on a single processor: nothing clamps it to 1.
   */
  lemma MaxParallelismZero(settings: ForgeConfig.ConfigValues, processorCount: Batches.ProcessorCount)
    ensures MaxParallelism(settings, processorCount) >= 0
    ensures MaxParallelism(settings, processorCount) == 0
        <==> settings.enableParallelProcessing && settings.parallelThreads <= 0 && processorCount == 1
  {
  }

  /** ProcessFileAsync's report: UpdateBatch(maxParallelism, the file's name, 1), whatever the position. */
  function SubmittedReport(maxParallelism: int): Batches.FileReport {
    (k: nat, f: Path) => UpdateBatch(maxParallelism, FileName(f), 1)
  }

  /** The cleanup steps the settings switch on, in the order FromEra runs them. */
  function OptionalSteps(settings: ForgeConfig.ConfigValues): seq<CleanupStep> {
    (if settings.cleanUpXmb then [SweepOf(Sweep.Xmb)] else [])
      + (if settings.cleanUpEraDef then [SweepOf(Sweep.EraDef)] else [])
      + (if settings.convertToDds then [ConvertDdx] else [])
  }

  /** Every cleanup step of a run: the optional ones, then the font sweep, which always runs. */
  function CleanupSteps(settings: ForgeConfig.ConfigValues): seq<CleanupStep> {
    OptionalSteps(settings) + [SweepOf(Sweep.Font)]
  }

  predicate EnoughSpace(host: Host, files: seq<Path>) {
    DiskSpaceChecker.HasSufficientDiskSpace(DiskSpaceChecker.Sizes(files, host.sizeOf), host.availableSpace)
  }

  /** Index 1 is never 0, so every report is defined whatever maxParallelism is. */
  lemma SubmittedReportUpdates(maxParallelism: int)
    ensures Batches.Updates(SubmittedReport(maxParallelism))
  {
  }

  /**
   * What FromEra(files, outputPath) does, from the disk it starts on; the
   * files are reported in `completionOrder`, the order their tasks finish.
   */
  function Session(d: DiskState, host: Host, settings: ForgeConfig.ConfigValues, files: seq<Path>, outputPath: Path,
                   completionOrder: seq<Path>): (r: Run)
    ensures AllDefined(ProgressCalls(r.events))
  {
    var prepared := Batches.WithOutput(d, outputPath);
    if !EnoughSpace(host, files) then
      ProjectSingle(Reported(Complete), ProgressOf);
      Run(InsufficientSpace, prepared, [Reported(Complete)])
    else
      var stage := host.stage;
      var report := SubmittedReport(MaxParallelism(settings, host.processorCount));
      var p := Batches.Pipeline(prepared, stage, completionOrder, report, CleanupSteps(settings), outputPath, SessionTitle);
      SubmittedReportUpdates(MaxParallelism(settings, host.processorCount));
      Batches.PipelineProgress(Initial, prepared, stage, completionOrder, report, CleanupSteps(settings), outputPath, SessionTitle);
      Run(Finished, p.disk, p.events)
  }

  /**
   * Too little space ends the run once the output directory is made:
   * Complete is the only progress call (Initialize never happens) and no
   * file is processed.
   */
  lemma SpaceGuard(d: DiskState, host: Host, settings: ForgeConfig.ConfigValues, files: seq<Path>, outputPath: Path, completionOrder: seq<Path>)
    ensures var r := Session(d, host, settings, files, outputPath, completionOrder);
      && (r.outcome == InsufficientSpace <==> !EnoughSpace(host, files))
      && (r.outcome == InsufficientSpace ==>
            && ProgressCalls(r.events) == [Complete] && ProcessedFiles(r.events) == []
            && r.disk == Batches.WithOutput(d, outputPath))
  {
    ProjectSingle(Reported(Complete), ProgressOf);
    ProjectSingle(Reported(Complete), FileOf);
  }

  /** A finished run is the pipeline over the completion order. */
  lemma FinishedUnfold(d: DiskState, host: Host, settings: ForgeConfig.ConfigValues, files: seq<Path>, outputPath: Path, completionOrder: seq<Path>)
    requires Session(d, host, settings, files, outputPath, completionOrder).outcome == Finished
    ensures EnoughSpace(host, files)
    ensures var r := Session(d, host, settings, files, outputPath, completionOrder);
      var p := Batches.Pipeline(Batches.WithOutput(d, outputPath), host.stage, completionOrder,
                                SubmittedReport(MaxParallelism(settings, host.processorCount)), CleanupSteps(settings),
                                outputPath, SessionTitle);
      r.events == p.events && r.disk == p.disk
  {
  }

  /** A finished run hands every input file to the file processor exactly once. */
  lemma FinishedFiles(d: DiskState, host: Host, settings: ForgeConfig.ConfigValues, files: seq<Path>, outputPath: Path, completionOrder: seq<Path>)
    requires multiset(completionOrder) == multiset(files)
    requires Session(d, host, settings, files, outputPath, completionOrder).outcome == Finished
    ensures var r := Session(d, host, settings, files, outputPath, completionOrder);
      ProcessedFiles(r.events) == completionOrder && multiset(ProcessedFiles(r.events)) == multiset(files)
  {
    FinishedUnfold(d, host, settings, files, outputPath, completionOrder);
    Batches.PipelineFiles(Batches.WithOutput(d, outputPath), host.stage, completionOrder,
                          SubmittedReport(MaxParallelism(settings, host.processorCount)), CleanupSteps(settings),
                          outputPath, SessionTitle);
  }

  /** A finished run reports Initialize, one report per file as it finishes, then Complete. */
  lemma FinishedReports(d: DiskState, host: Host, settings: ForgeConfig.ConfigValues, files: seq<Path>, outputPath: Path, completionOrder: seq<Path>)
    requires Session(d, host, settings, files, outputPath, completionOrder).outcome == Finished
    ensures ProgressCalls(Session(d, host, settings, files, outputPath, completionOrder).events)
         == [Initialize(SessionTitle)] + Batches.Reports(completionOrder, SubmittedReport(MaxParallelism(settings, host.processorCount))) + [Complete]
  {
    FinishedUnfold(d, host, settings, files, outputPath, completionOrder);
    Batches.PipelineCalls(Batches.WithOutput(d, outputPath), host.stage, completionOrder,
                          SubmittedReport(MaxParallelism(settings, host.processorCount)), CleanupSteps(settings),
                          outputPath, SessionTitle);
  }

  /**
   * Every report passes index 1 and total maxParallelism, not a running
   * count and not the number of files.
   */
  lemma SubmittedReports(order: seq<Path>, maxParallelism: int)
    ensures var calls := [Initialize(SessionTitle)] + Batches.Reports(order, SubmittedReport(maxParallelism)) + [Complete];
      && |calls| == |order| + 2
      && calls[0] == Initialize(SessionTitle) && calls[|order| + 1] == Complete
      && forall k :: 0 <= k < |order| ==> calls[k + 1] == UpdateBatch(maxParallelism, FileName(order[k]), 1)
  {
    var reports := Batches.Reports(order, SubmittedReport(maxParallelism));
    var calls := [Initialize(SessionTitle)] + reports + [Complete];
    forall k | 0 <= k < |order| ensures calls[k + 1] == UpdateBatch(maxParallelism, FileName(order[k]), 1) {
      assert calls[k + 1] == reports[k];
    }
  }

  /**
   * So the bar never moves past its first position: after any number of
   * reports on an active progress, the fraction is the one index 1 of
   * maxParallelism gives, and the description reads "(2/maxParallelism)".
   */
  lemma ProgressNeverAdvances(s: ProgressState, order: seq<Path>, maxParallelism: int, k: nat)
    requires s.active && k < |order|
    ensures var reports := Batches.Reports(order, SubmittedReport(maxParallelism));
      && AllDefined(reports[..k + 1])
      && Replay(s, reports[..k + 1]).progress == BatchFraction(maxParallelism, 1)
      && Replay(s, reports[..k + 1]).description
         == "Processing " + FileName(order[k]) + " (" + Text.IntToString(2) + "/" + Text.IntToString(maxParallelism) + ")..."
  {
    var reports := Batches.Reports(order, SubmittedReport(maxParallelism));
    var u := reports[k];
    assert reports[..k + 1] == reports[..k] + [u];
    Batches.UpdatesKeepActive(s, reports[..k]);
    assert AllDefined([u]) && [u][1..] == [];
    ReplayAppend(s, reports[..k], [u]);
  }

  /**
   * A finished run sweeps xmb iff asked, eradef iff asked, converts DDX iff
   * asked, and always removes the fonts, in that order; the temp root goes
   * after the last file and before the first of these, and Complete comes
   * last.
   */
  lemma FinishedCleanup(d: DiskState, host: Host, settings: ForgeConfig.ConfigValues, files: seq<Path>, outputPath: Path, completionOrder: seq<Path>)
    requires Session(d, host, settings, files, outputPath, completionOrder).outcome == Finished
    ensures var r := Session(d, host, settings, files, outputPath, completionOrder);
      && CleanupRun(r.events)
         == (if settings.cleanUpXmb then [SweepOf(Sweep.Xmb)] else []) + (if settings.cleanUpEraDef then [SweepOf(Sweep.EraDef)] else [])
            + (if settings.convertToDds then [ConvertDdx] else []) + [SweepOf(Sweep.Font)]
      && FilesThenCleanup(r.events)
  {
    FinishedUnfold(d, host, settings, files, outputPath, completionOrder);
    Batches.PipelineCleanup(Batches.WithOutput(d, outputPath), host.stage, completionOrder,
                            SubmittedReport(MaxParallelism(settings, host.processorCount)), CleanupSteps(settings),
                            outputPath, SessionTitle);
  }

  /** A finished run leaves the progress inactive at 0 with the session title, whatever it started from. */
  lemma FinishedProgress(s: ProgressState, d: DiskState, host: Host, settings: ForgeConfig.ConfigValues, files: seq<Path>, outputPath: Path,
                         completionOrder: seq<Path>)
    requires Session(d, host, settings, files, outputPath, completionOrder).outcome == Finished
    ensures var f := Replay(s, ProgressCalls(Session(d, host, settings, files, outputPath, completionOrder).events));
      !f.active && f.progress == 0.0 && f.title == SessionTitle
  {
    FinishedUnfold(d, host, settings, files, outputPath, completionOrder);
    SubmittedReportUpdates(MaxParallelism(settings, host.processorCount));
    Batches.PipelineProgress(s, Batches.WithOutput(d, outputPath), host.stage, completionOrder,
                             SubmittedReport(MaxParallelism(settings, host.processorCount)), CleanupSteps(settings),
                             outputPath, SessionTitle);
  }

  /**
   * What a finished run leaves on disk: the output directory, no temp
   * root, no font file beneath the output root, no xmb or eradef file when
   * that sweep is asked for, and every file and directory that was there
   * outside the temp root, unless a sweep targets it; provided the file
   * processor deletes nothing outside the temp root. On a well-formed disk,
   * with a processor that keeps it so, nothing at all is left of the temp
   * root.
   */
  lemma FinishedDisk(d: DiskState, host: Host, settings: ForgeConfig.ConfigValues, files: seq<Path>, outputPath: Path, completionOrder: seq<Path>)
    requires outputPath != [] && Batches.KeepsOutside(host.stage, TempRoot(outputPath))
    requires Session(d, host, settings, files, outputPath, completionOrder).outcome == Finished
    ensures var r := Session(d, host, settings, files, outputPath, completionOrder).disk;
      && outputPath in r.dirs && TempRoot(outputPath) !in r.dirs
      && Sweep.Targets(r.files, outputPath, Sweep.Font) == {}
      && (settings.cleanUpXmb ==> Sweep.Targets(r.files, outputPath, Sweep.Xmb) == {})
      && (settings.cleanUpEraDef ==> Sweep.Targets(r.files, outputPath, Sweep.EraDef) == {})
      && (forall p :: p in d.files && !AtOrUnder(p, TempRoot(outputPath)) && !Batches.SweptBy(CleanupSteps(settings), outputPath, p)
            ==> p in r.files)
      && (forall x :: x in d.dirs && !AtOrUnder(x, TempRoot(outputPath)) ==> x in r.dirs)
      && (WellFormed(d) && Batches.KeepsWellFormed(host.stage) ==> WellFormed(r) && Batches.NoTempLeft(r, outputPath))
  {
    FinishedUnfold(d, host, settings, files, outputPath, completionOrder);
    if WellFormed(d) {
      Batches.WithOutputWellFormed(d, outputPath);
    }
    Batches.PipelineDisk(Batches.WithOutput(d, outputPath), host.stage, completionOrder,
                         SubmittedReport(MaxParallelism(settings, host.processorCount)), CleanupSteps(settings),
                         outputPath, SessionTitle);
    assert !AtOrUnder(outputPath, TempRoot(outputPath));
    assert SweepOf(Sweep.Font) in CleanupSteps(settings);
    assert settings.cleanUpXmb ==> SweepOf(Sweep.Xmb) in CleanupSteps(settings);
    assert settings.cleanUpEraDef ==> SweepOf(Sweep.EraDef) in CleanupSteps(settings);
  }

  /** ProcessFileAsync: the file processor runs on the file, then UpdateBatch(maxParallelism, its name, 1). */
  method ProcessFileAsync(disk: Disk, progress: TaskProgress, stage: Batches.FileStage, file: Path, maxParallelism: int)
    returns (events: seq<Event>)
    requires progress.Valid()
    modifies disk, progress
    ensures var s := stage(old(disk.State()), file);
      && disk.State() == s.disk
      && events == [EraProcessed(file, s.calls), Reported(UpdateBatch(maxParallelism, FileName(file), 1))]
    ensures progress.Valid() && progress.State() == BatchUpdated(old(progress.State()), maxParallelism, FileName(file), 1)
  {
    var processed := stage(disk.State(), file);
    disk.Become(processed.disk);
    var currentFileName := FileName(file);
    progress.UpdateBatch(maxParallelism, currentFileName, 1);
    events := [EraProcessed(file, processed.calls), Reported(UpdateBatch(maxParallelism, currentFileName, 1))];
  }

  /**
   * ProcessFilesSequentially (never called by FromEra): each file in turn,
   * then UpdateBatch with the running count out of the number of files.
   */
  method ProcessFilesSequentially(disk: Disk, progress: TaskProgress, stage: Batches.FileStage, files: seq<Path>)
    returns (events: seq<Event>)
    requires progress.Valid()
    modifies disk, progress
    ensures var b := Batches.ProcessInOrder(old(disk.State()), stage, files, Batches.CountReport(|files|));
      disk.State() == b.disk && events == b.events
    ensures progress.Valid() && AllDefined(ProgressCalls(events))
    ensures progress.State() == Replay(old(progress.State()), ProgressCalls(events))
  {
    ghost var start := progress.State();
    ghost var report := Batches.CountReport(|files|);
    var processedFilesCount := 0;
    events := [];
    for i := 0 to |files|
      invariant processedFilesCount == i
      invariant Batches.ProcessInOrder(old(disk.State()), stage, files[..i], report) == Batch(disk.State(), events)
      invariant progress.Valid() && AllDefined(ProgressCalls(events))
      invariant progress.State() == Replay(start, ProgressCalls(events))
    {
      var processed := stage(disk.State(), files[i]);
      disk.Become(processed.disk);
      processedFilesCount := processedFilesCount + 1;
      var currentFileName := FileName(files[i]);
      progress.UpdateBatch(|files|, currentFileName, processedFilesCount);
      var step := [EraProcessed(files[i], processed.calls), Reported(UpdateBatch(|files|, currentFileName, processedFilesCount))];
      ReportAfterStage(start, events, step[0], step[1].call);
      Batches.BatchSnoc(old(disk.State()), stage, files[..i], files[i], report);
      assert files[..i] + [files[i]] == files[..i + 1];
      events := events + step;
    }
    assert files[..|files|] == files;
  }

  /**
   * The tasks FromEra starts and awaits together, one per file, taken in
   * the order they finish.
   */
  method AwaitAll(disk: Disk, progress: TaskProgress, stage: Batches.FileStage, completionOrder: seq<Path>, maxParallelism: int)
    returns (events: seq<Event>)
    requires progress.Valid()
    modifies disk, progress
    ensures var b := Batches.ProcessInOrder(old(disk.State()), stage, completionOrder, SubmittedReport(maxParallelism));
      disk.State() == b.disk && events == b.events
    ensures progress.Valid() && AllDefined(ProgressCalls(events))
    ensures progress.State() == Replay(old(progress.State()), ProgressCalls(events))
  {
    ghost var start := progress.State();
    ghost var report := SubmittedReport(maxParallelism);
    events := [];
    for i := 0 to |completionOrder|
      invariant Batches.ProcessInOrder(old(disk.State()), stage, completionOrder[..i], report) == Batch(disk.State(), events)
      invariant progress.Valid() && AllDefined(ProgressCalls(events))
      invariant progress.State() == Replay(start, ProgressCalls(events))
    {
      var step := ProcessFileAsync(disk, progress, stage, completionOrder[i], maxParallelism);
      ReportAfterStage(start, events, step[0], step[1].call);
      Batches.BatchSnoc(old(disk.State()), stage, completionOrder[..i], completionOrder[i], report);
      assert completionOrder[..i] + [completionOrder[i]] == completionOrder[..i + 1];
      events := events + step;
    }
    assert completionOrder[..|completionOrder|] == completionOrder;
  }

  /**
   * FromEra(files, outputPath) with the loaded settings: does what
   * `Session` says, and the progress ends where its calls lead.
   */
  method FromEra(disk: Disk, progress: TaskProgress, host: Host, settings: ForgeConfig.ConfigValues, files: seq<Path>,
                 outputPath: Path, completionOrder: seq<Path>)
    returns (outcome: Outcome, events: seq<Event>)
    requires progress.Valid() && outputPath != [] && multiset(completionOrder) == multiset(files)
    requires Batches.KeepsOutside(host.stage, TempRoot(outputPath))
    modifies disk, progress
    ensures var r := Session(old(disk.State()), host, settings, files, outputPath, completionOrder);
      outcome == r.outcome && disk.State() == r.disk && events == r.events
    ensures progress.Valid() && progress.State() == Replay(old(progress.State()), ProgressCalls(events))
  {
    ghost var d0 := disk.State();
    ghost var s0 := progress.State();
    if outputPath !in disk.dirs {
      disk.CreateDirectory(outputPath);
    }
    ghost var prepared := disk.State();
    assert prepared == Batches.WithOutput(d0, outputPath);
    if !DiskSpaceChecker.HasSufficientDiskSpace(DiskSpaceChecker.Sizes(files, host.sizeOf), host.availableSpace) {
      progress.Complete();
      ReplayOne(s0, Complete);
      return InsufficientSpace, [Reported(Complete)];
    }
    progress.Initialize(SessionTitle);
    ReplayOne(s0, Initialize(SessionTitle));
    var init := [Reported(Initialize(SessionTitle))];
    var maxParallelism := MaxParallelism(settings, host.processorCount);
    var batch := AwaitAll(disk, progress, host.stage, completionOrder, maxParallelism);
    ghost var afterBatch := disk.State();
    Batches.BatchKeepsOutside(prepared, host.stage, completionOrder, SubmittedReport(maxParallelism), TempRoot(outputPath));
    assert !AtOrUnder(outputPath, TempRoot(outputPath));
    var cleanup := CleanUp(disk, progress, settings, outputPath);
    events := init + batch + cleanup;
    outcome := Finished;
    SessionFinished(d0, host, settings, files, outputPath, completionOrder, Batch(afterBatch, batch), Batch(disk.State(), cleanup));
    Batches.CleanupTrace(afterBatch, CleanupSteps(settings), outputPath);
    ReplayThree(s0, init, batch, cleanup);
  }

  /**
   * The end of FromEra once every task has finished: DeleteTempFolders,
   * the optional steps, the font sweep, then Complete.
   */
  method CleanUp(disk: Disk, progress: TaskProgress, settings: ForgeConfig.ConfigValues, outputPath: Path)
    returns (cleanup: seq<Event>)
    requires progress.Valid() && outputPath in disk.dirs
    modifies disk, progress
    ensures Batch(disk.State(), cleanup) == Batches.Cleanup(old(disk.State()), CleanupSteps(settings), outputPath)
    ensures progress.Valid() && progress.State() == Completed(old(progress.State()))
  {
    assert !AtOrUnder(outputPath, TempRoot(outputPath));
    DeleteTempFolders(disk, outputPath);
    ghost var afterTemp := disk.State();
    var swept := OptionalCleanUp(disk, settings, outputPath);
    var n := Fonts.RemoveAllFonts(disk, outputPath);
    Batches.RunStepsSnoc(afterTemp, outputPath, OptionalSteps(settings), SweepOf(Sweep.Font));
    swept := swept + [Swept(Sweep.Font, n)];
    progress.Complete();
    cleanup := [TempFoldersRemoved] + swept + [Reported(Complete)];
  }

  /**
   * The sweeps and the DDX conversion the settings switch on, in order.
   * DDX.ConvertAll computes a .dds name per file and discards it, so it
   * changes nothing.
   */
  method OptionalCleanUp(disk: Disk, settings: ForgeConfig.ConfigValues, outputPath: Path)
    returns (swept: seq<Event>)
    requires outputPath in disk.dirs
    modifies disk
    ensures Batch(disk.State(), swept) == Batches.RunSteps(old(disk.State()), outputPath, OptionalSteps(settings))
    ensures outputPath in disk.dirs
  {
    ghost var start := disk.State();
    ghost var done: seq<CleanupStep> := [];
    swept := [];
    if settings.cleanUpXmb {
      var n := Xmb.RemoveAll(disk, outputPath);
      Batches.RunStepsSnoc(start, outputPath, done, SweepOf(Sweep.Xmb));
      swept := swept + [Swept(Sweep.Xmb, n)];
      done := done + [SweepOf(Sweep.Xmb)];
    }
    assert Batch(disk.State(), swept) == Batches.RunSteps(start, outputPath, done);
    if settings.cleanUpEraDef {
      var n := EraDef.RemoveAll(disk, outputPath);
      Batches.RunStepsSnoc(start, outputPath, done, SweepOf(Sweep.EraDef));
      swept := swept + [Swept(Sweep.EraDef, n)];
      done := done + [SweepOf(Sweep.EraDef)];
    }
    assert Batch(disk.State(), swept) == Batches.RunSteps(start, outputPath, done);
    if settings.convertToDds {
      Batches.RunStepsSnoc(start, outputPath, done, ConvertDdx);
      swept := swept + [DdxConverted];
      done := done + [ConvertDdx];
    }
    assert done == OptionalSteps(settings);
  }

  /** With enough space, a run is Initialize, the tasks in completion order, then the cleanup. */
  lemma SessionFinished(d: DiskState, host: Host, settings: ForgeConfig.ConfigValues, files: seq<Path>, outputPath: Path,
                        completionOrder: seq<Path>, batch: Batch, cleanup: Batch)
    requires EnoughSpace(host, files)
    requires batch == Batches.ProcessInOrder(Batches.WithOutput(d, outputPath), host.stage, completionOrder,
                                             SubmittedReport(MaxParallelism(settings, host.processorCount)))
    requires cleanup == Batches.Cleanup(batch.disk, CleanupSteps(settings), outputPath)
    ensures Session(d, host, settings, files, outputPath, completionOrder)
         == Run(Finished, cleanup.disk, [Reported(Initialize(SessionTitle))] + batch.events + cleanup.events)
  {
  }
}
