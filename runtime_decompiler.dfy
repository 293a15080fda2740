/**
 * The runtime decompiler (Runtime/Decompiler/Decompiler.cs): check the
 * tool, make the output directory, check the disk space, then process
 * every file (one after another, or through Parallel.ForEach), delete the
 * temp root, run the sweeps the settings ask for and complete the
 * progress. `Session` says what a whole run does; `FromEra` does it.
 */
module RuntimeDecompiler {
  import opened Wrappers
  import opened Paths
  import opened FileSystem
  import opened PhxToolHandler
  import opened Progress
  import opened Events
  import opened FileProcessor
  import Batches
  import Text
  import DiskSpaceChecker
  import RuntimeConfig
  import Sweep
  import Xmb
  import EraDef

  const SessionTitle := "Decompiling ERA's"

  /** What FromEra reads from the machine: the tool, what running it creates, processors, sizes and free space. */
  datatype Host = Host(
    toolPath: Path,
    effect: ToolEffect,
    processorCount: Batches.ProcessorCount,
    sizeOf: Path -> nat,
    availableSpace: int)

  /**
   * How a run ends. DegreeRejected: Parallel.ForEach was asked for a
   * maximum degree of 0, which the ParallelOptions setter refuses by
   * throwing; the exception ends the run after Initialize.
   */
  datatype Outcome = ToolMissing | InsufficientSpace | DegreeRejected | Finished

  datatype Run = Run(outcome: Outcome, disk: DiskState, events: seq<Event>)

  /** The degree ProcessFilesInParallel asks for: the configured count, else half the processors, not clamped. */
  function ParallelDegree(parallelThreads: int, processorCount: Batches.ProcessorCount): int {
    if parallelThreads > 0 then parallelThreads else processorCount / 2
  }

  /** With no configured count, a single-processor machine asks for degree 0. */
  lemma DegreeZeroOnOneProcessor(parallelThreads: int)
    requires parallelThreads <= 0
    ensures ParallelDegree(parallelThreads, 1) == 0
  {
  }

  /** A configuration created by LoadConfig has a positive count, so it never asks for degree 0. */
  lemma SavedDefaultsNeverRejected(processorCount: int, laterProcessorCount: Batches.ProcessorCount)
    ensures ParallelDegree(RuntimeConfig.Loaded(None, processorCount).parallelThreads, laterProcessorCount) >= 1
  {
  }

  /** The tool guard: an empty tool path or a missing tool file ends the run before anything else. */
  predicate ToolAvailable(d: DiskState, toolPath: Path) {
    toolPath != [] && toolPath in d.files
  }

  predicate EnoughSpace(host: Host, files: seq<Path>) {
    DiskSpaceChecker.HasSufficientDiskSpace(DiskSpaceChecker.Sizes(files, host.sizeOf), host.availableSpace)
  }

  /** Parallel mode with a computed degree of 0, which ParallelOptions refuses. */
  predicate Rejects(host: Host, settings: RuntimeConfig.ConfigValues) {
    settings.enableParallelProcessing && ParallelDegree(settings.parallelThreads, host.processorCount) == 0
  }

  /** The order the files are processed in: input order, or the order Parallel.ForEach finished them. */
  function ProcessingOrder(settings: RuntimeConfig.ConfigValues, files: seq<Path>, completionOrder: seq<Path>): seq<Path> {
    if settings.enableParallelProcessing then completionOrder else files
  }

  /** ProcessEraFile(ToolPath, file, outputPath) as a per-file stage. */
  function EraStage(effect: ToolEffect, toolPath: Path, outputPath: Path): Batches.FileStage {
    (d: DiskState, f: Path) => Stage(d, effect, toolPath, f, outputPath)
  }

  /** The sweeps the settings switch on, in the order FromEra runs them. */
  function CleanupSteps(settings: RuntimeConfig.ConfigValues): seq<CleanupStep> {
    (if settings.cleanUpXmb then [SweepOf(Sweep.Xmb)] else [])
      + (if settings.cleanUpEraDef then [SweepOf(Sweep.EraDef)] else [])
  }

  /** A stage deletes only inside its own temp directory, which lies in the temp root. */
  lemma EraStageKeepsOutside(effect: ToolEffect, toolPath: Path, outputPath: Path)
    ensures Batches.KeepsOutside(EraStage(effect, toolPath, outputPath), TempRoot(outputPath))
  {
    forall d: DiskState, f: Path, x: Path
      ensures x in d.dirs && !AtOrUnder(x, TempRoot(outputPath)) ==> x in EraStage(effect, toolPath, outputPath)(d, f).disk.dirs
      ensures x in d.files && !AtOrUnder(x, TempRoot(outputPath)) ==> x in EraStage(effect, toolPath, outputPath)(d, f).disk.files
    {
      var tempDir := TempDir(outputPath, f);
      StageDisk(d, effect, toolPath, f, outputPath);
      if AtOrUnder(x, tempDir) {
        assert x[..|TempRoot(outputPath)|] == tempDir[..|TempRoot(outputPath)|];
      }
    }
  }

  /** A tool that keeps the disk well formed gives stages that keep it well formed. */
  lemma EraStageKeepsWellFormed(effect: ToolEffect, toolPath: Path, outputPath: Path)
    requires EffectWellFormed(effect)
    ensures Batches.KeepsWellFormed(EraStage(effect, toolPath, outputPath))
  {
    forall d: DiskState, f: Path | WellFormed(d)
      ensures WellFormed(EraStage(effect, toolPath, outputPath)(d, f).disk)
    {
      StageWellFormed(d, effect, toolPath, f, outputPath);
    }
  }

  /** What FromEra(files, outputPath) does, from the disk it starts on. */
  function Session(d: DiskState, host: Host, settings: RuntimeConfig.ConfigValues, files: seq<Path>, outputPath: Path,
                   completionOrder: seq<Path>): (r: Run)
    ensures AllDefined(ProgressCalls(r.events))
  {
    if !ToolAvailable(d, host.toolPath) then Run(ToolMissing, d, [])
    else
      var prepared := Batches.WithOutput(d, outputPath);
      if !EnoughSpace(host, files) then
        ProjectSingle(Reported(Complete), ProgressOf);
        Run(InsufficientSpace, prepared, [Reported(Complete)])
      else if Rejects(host, settings) then
        ProjectSingle(Reported(Initialize(SessionTitle)), ProgressOf);
        Run(DegreeRejected, prepared, [Reported(Initialize(SessionTitle))])
      else
        var order := ProcessingOrder(settings, files, completionOrder);
        var stage := EraStage(host.effect, host.toolPath, outputPath);
        var p := Batches.Pipeline(prepared, stage, order, Batches.CountReport(|files|), CleanupSteps(settings), outputPath, SessionTitle);
        Batches.CountReportUpdates(|files|);
        Batches.PipelineProgress(Initial, prepared, stage, order, Batches.CountReport(|files|), CleanupSteps(settings), outputPath, SessionTitle);
        Run(Finished, p.disk, p.events)
  }

  /** The tool guard comes first: without the tool nothing is created, processed or reported. */
  lemma ToolGuard(d: DiskState, host: Host, settings: RuntimeConfig.ConfigValues, files: seq<Path>, outputPath: Path, completionOrder: seq<Path>)
    ensures var r := Session(d, host, settings, files, outputPath, completionOrder);
      && (r.outcome == ToolMissing <==> !ToolAvailable(d, host.toolPath))
      && (r.outcome == ToolMissing ==> r.disk == d && r.events == [])
  {
  }

  /**
   * With the tool present, too little space ends the run after the output
   * directory is made: Complete is the only progress call (Initialize never
   * happens) and no file is processed.
   */
  lemma SpaceGuard(d: DiskState, host: Host, settings: RuntimeConfig.ConfigValues, files: seq<Path>, outputPath: Path, completionOrder: seq<Path>)
    requires ToolAvailable(d, host.toolPath)
    ensures var r := Session(d, host, settings, files, outputPath, completionOrder);
      && (r.outcome == InsufficientSpace <==> !EnoughSpace(host, files))
      && (r.outcome == InsufficientSpace ==>
            && ProgressCalls(r.events) == [Complete] && ProcessedFiles(r.events) == []
            && r.disk == Batches.WithOutput(d, outputPath))
  {
    ProjectSingle(Reported(Complete), ProgressOf);
    ProjectSingle(Reported(Complete), FileOf);
  }

  /**
   * Past both guards, parallel mode with degree 0 ends the run right after
   * Initialize: no file is processed, the temp root is not deleted, no sweep
   * runs and the progress is left active.
   */
  lemma DegreeGuard(s: ProgressState, d: DiskState, host: Host, settings: RuntimeConfig.ConfigValues, files: seq<Path>, outputPath: Path,
                    completionOrder: seq<Path>)
    requires ToolAvailable(d, host.toolPath) && EnoughSpace(host, files)
    ensures var r := Session(d, host, settings, files, outputPath, completionOrder);
      && (r.outcome == DegreeRejected <==> Rejects(host, settings))
      && (r.outcome == DegreeRejected ==>
            && ProgressCalls(r.events) == [Initialize(SessionTitle)] && ProcessedFiles(r.events) == []
            && CleanupRun(r.events) == [] && r.disk == Batches.WithOutput(d, outputPath)
            && Replay(s, ProgressCalls(r.events)).active)
  {
    var init := Reported(Initialize(SessionTitle));
    ProjectSingle(init, ProgressOf);
    ProjectSingle(init, FileOf);
    ProjectSingle(init, StepOfEvent);
    assert [Initialize(SessionTitle)][1..] == [];
  }

  /** A finished run passed all three guards and is the pipeline over the processing order. */
  lemma FinishedUnfold(d: DiskState, host: Host, settings: RuntimeConfig.ConfigValues, files: seq<Path>, outputPath: Path, completionOrder: seq<Path>)
    requires Session(d, host, settings, files, outputPath, completionOrder).outcome == Finished
    ensures ToolAvailable(d, host.toolPath) && EnoughSpace(host, files) && !Rejects(host, settings)
    ensures var r := Session(d, host, settings, files, outputPath, completionOrder);
      var p := Batches.Pipeline(Batches.WithOutput(d, outputPath), EraStage(host.effect, host.toolPath, outputPath),
                                ProcessingOrder(settings, files, completionOrder), Batches.CountReport(|files|), CleanupSteps(settings),
                                outputPath, SessionTitle);
      r.events == p.events && r.disk == p.disk
  {
  }

  /**
   * A finished run processed every file exactly once, in input order when
   * sequential and in completion order when parallel.
   */
  lemma FinishedFiles(d: DiskState, host: Host, settings: RuntimeConfig.ConfigValues, files: seq<Path>, outputPath: Path, completionOrder: seq<Path>)
    requires multiset(completionOrder) == multiset(files)
    requires Session(d, host, settings, files, outputPath, completionOrder).outcome == Finished
    ensures var r := Session(d, host, settings, files, outputPath, completionOrder);
      && ProcessedFiles(r.events) == ProcessingOrder(settings, files, completionOrder)
      && multiset(ProcessedFiles(r.events)) == multiset(files)
      && (!settings.enableParallelProcessing ==> ProcessedFiles(r.events) == files)
  {
    FinishedUnfold(d, host, settings, files, outputPath, completionOrder);
    Batches.PipelineFiles(Batches.WithOutput(d, outputPath), EraStage(host.effect, host.toolPath, outputPath),
                          ProcessingOrder(settings, files, completionOrder), Batches.CountReport(|files|), CleanupSteps(settings),
                          outputPath, SessionTitle);
  }

  /** A finished run reports Initialize, one report per file in processing order, then Complete. */
  lemma FinishedReports(d: DiskState, host: Host, settings: RuntimeConfig.ConfigValues, files: seq<Path>, outputPath: Path, completionOrder: seq<Path>)
    requires Session(d, host, settings, files, outputPath, completionOrder).outcome == Finished
    ensures ProgressCalls(Session(d, host, settings, files, outputPath, completionOrder).events)
         == [Initialize(SessionTitle)] + Batches.Reports(ProcessingOrder(settings, files, completionOrder), Batches.CountReport(|files|)) + [Complete]
  {
    FinishedUnfold(d, host, settings, files, outputPath, completionOrder);
    Batches.PipelineCalls(Batches.WithOutput(d, outputPath), EraStage(host.effect, host.toolPath, outputPath),
                          ProcessingOrder(settings, files, completionOrder), Batches.CountReport(|files|), CleanupSteps(settings),
                          outputPath, SessionTitle);
  }

  /**
   * The reports of a run over n files, in any order of those files: the
   * k-th processed file reports UpdateBatch(n, its name, k) for k = 1..n,
   * between Initialize and Complete.
   */
  lemma CountedReports(files: seq<Path>, order: seq<Path>)
    requires multiset(order) == multiset(files)
    ensures var calls := [Initialize(SessionTitle)] + Batches.Reports(order, Batches.CountReport(|files|)) + [Complete];
      && |calls| == |files| + 2
      && calls[0] == Initialize(SessionTitle) && calls[|files| + 1] == Complete
      && forall k :: 0 <= k < |files| ==> calls[k + 1] == UpdateBatch(|files|, FileName(order[k]), k + 1)
  {
    assert |order| == |multiset(order)| == |multiset(files)| == |files|;
    var reports := Batches.Reports(order, Batches.CountReport(|files|));
    var calls := [Initialize(SessionTitle)] + reports + [Complete];
    forall k | 0 <= k < |files| ensures calls[k + 1] == UpdateBatch(|files|, FileName(order[k]), k + 1) {
      assert calls[k + 1] == reports[k];
    }
  }

  /**
   * A finished run sweeps xmb iff the settings ask for it, then eradef iff
   * they ask for it, and nothing else; it deletes the temp root after the
   * last file and before the first sweep, and Complete comes last.
   */
  lemma FinishedCleanup(d: DiskState, host: Host, settings: RuntimeConfig.ConfigValues, files: seq<Path>, outputPath: Path, completionOrder: seq<Path>)
    requires Session(d, host, settings, files, outputPath, completionOrder).outcome == Finished
    ensures var r := Session(d, host, settings, files, outputPath, completionOrder);
      && CleanupRun(r.events)
         == (if settings.cleanUpXmb then [SweepOf(Sweep.Xmb)] else []) + (if settings.cleanUpEraDef then [SweepOf(Sweep.EraDef)] else [])
      && FilesThenCleanup(r.events)
  {
    FinishedUnfold(d, host, settings, files, outputPath, completionOrder);
    Batches.PipelineCleanup(Batches.WithOutput(d, outputPath), EraStage(host.effect, host.toolPath, outputPath),
                            ProcessingOrder(settings, files, completionOrder), Batches.CountReport(|files|), CleanupSteps(settings),
                            outputPath, SessionTitle);
  }

  /** A finished run leaves the progress inactive at 0 with the session title, whatever it started from. */
  lemma FinishedProgress(s: ProgressState, d: DiskState, host: Host, settings: RuntimeConfig.ConfigValues, files: seq<Path>, outputPath: Path,
                         completionOrder: seq<Path>)
    requires Session(d, host, settings, files, outputPath, completionOrder).outcome == Finished
    ensures var f := Replay(s, ProgressCalls(Session(d, host, settings, files, outputPath, completionOrder).events));
      !f.active && f.progress == 0.0 && f.title == SessionTitle
  {
    FinishedUnfold(d, host, settings, files, outputPath, completionOrder);
    Batches.CountReportUpdates(|files|);
    Batches.PipelineProgress(s, Batches.WithOutput(d, outputPath), EraStage(host.effect, host.toolPath, outputPath),
                             ProcessingOrder(settings, files, completionOrder), Batches.CountReport(|files|), CleanupSteps(settings),
                             outputPath, SessionTitle);
  }

  /**
   * What a finished run leaves on disk: the output directory, no temp
   * root, no xmb or eradef file beneath the output root when the settings
   * ask for that sweep, and every file and directory that was there
   * outside the temp root, unless a sweep targets it. On a well-formed
   * disk, with a tool whose runs keep it so, nothing at all is left of the
   * temp root.
   */
  lemma FinishedDisk(d: DiskState, host: Host, settings: RuntimeConfig.ConfigValues, files: seq<Path>, outputPath: Path, completionOrder: seq<Path>)
    requires outputPath != []
    requires Session(d, host, settings, files, outputPath, completionOrder).outcome == Finished
    ensures var r := Session(d, host, settings, files, outputPath, completionOrder).disk;
      && outputPath in r.dirs && TempRoot(outputPath) !in r.dirs
      && (settings.cleanUpXmb ==> Sweep.Targets(r.files, outputPath, Sweep.Xmb) == {})
      && (settings.cleanUpEraDef ==> Sweep.Targets(r.files, outputPath, Sweep.EraDef) == {})
      && (forall p :: p in d.files && !AtOrUnder(p, TempRoot(outputPath)) && !Batches.SweptBy(CleanupSteps(settings), outputPath, p)
            ==> p in r.files)
      && (forall x :: x in d.dirs && !AtOrUnder(x, TempRoot(outputPath)) ==> x in r.dirs)
      && (WellFormed(d) && EffectWellFormed(host.effect) ==> WellFormed(r) && Batches.NoTempLeft(r, outputPath))
  {
    var prepared := Batches.WithOutput(d, outputPath);
    FinishedUnfold(d, host, settings, files, outputPath, completionOrder);
    EraStageKeepsOutside(host.effect, host.toolPath, outputPath);
    if WellFormed(d) && EffectWellFormed(host.effect) {
      Batches.WithOutputWellFormed(d, outputPath);
      EraStageKeepsWellFormed(host.effect, host.toolPath, outputPath);
    }
    Batches.PipelineDisk(prepared, EraStage(host.effect, host.toolPath, outputPath),
                         ProcessingOrder(settings, files, completionOrder), Batches.CountReport(|files|), CleanupSteps(settings),
                         outputPath, SessionTitle);
    assert !AtOrUnder(outputPath, TempRoot(outputPath));
    assert settings.cleanUpXmb ==> SweepOf(Sweep.Xmb) in CleanupSteps(settings);
    assert settings.cleanUpEraDef ==> SweepOf(Sweep.EraDef) in CleanupSteps(settings);
  }

  /**
   * The count each report passes is already 1-based, and the description
   * adds one more: the report after the k-th file reads "(k+1/n)", and the
   * last one "(n+1/n)".
   */
  lemma ReportDescriptionOvershoots(s: ProgressState, order: seq<Path>, k: nat)
    requires s.active && k < |order|
    ensures var reports := Batches.Reports(order, Batches.CountReport(|order|));
      && AllDefined(reports[..k + 1])
      && Replay(s, reports[..k + 1]).description
         == "Processing " + FileName(order[k]) + " (" + Text.IntToString(k + 2) + "/" + Text.IntToString(|order|) + ")..."
  {
    var reports := Batches.Reports(order, Batches.CountReport(|order|));
    var u := reports[k];
    assert reports[..k + 1] == reports[..k] + [u];
    Batches.UpdatesKeepActive(s, reports[..k]);
    assert AllDefined([u]) && [u][1..] == [];
    ReplayAppend(s, reports[..k], [u]);
  }

  /** ProcessEraFile(toolPath, file, outputPath), as one application of the batch's stage. */
  method StageFile(disk: Disk, effect: ToolEffect, toolPath: Path, file: Path, outputPath: Path) returns (calls: seq<ToolCall>)
    modifies disk
    ensures StageResult(disk.State(), calls) == EraStage(effect, toolPath, outputPath)(old(disk.State()), file)
  {
    calls := ProcessEraFile(disk, effect, toolPath, file, outputPath);
  }

  /**
   * The file at position i, processed after the first i: the batch over
   * the first i files grows into the batch over the first i + 1, whose
   * last report carries the running count i + 1.
   */
  method StageInBatch(disk: Disk, effect: ToolEffect, toolPath: Path, files: seq<Path>, outputPath: Path,
                      i: nat, ghost initial: DiskState, ghost events: seq<Event>)
    returns (calls: seq<ToolCall>)
    requires i < |files|
    requires Batches.ProcessInOrder(initial, EraStage(effect, toolPath, outputPath), files[..i], Batches.CountReport(|files|))
          == Batch(disk.State(), events)
    modifies disk
    ensures Batches.ProcessInOrder(initial, EraStage(effect, toolPath, outputPath), files[..i + 1], Batches.CountReport(|files|))
         == Batch(disk.State(), events + [EraProcessed(files[i], calls), Reported(UpdateBatch(|files|, FileName(files[i]), i + 1))])
  {
    calls := StageFile(disk, effect, toolPath, files[i], outputPath);
    assert files[..i + 1][..i] == files[..i] && files[..i + 1][i] == files[i];
  }

  /** One turn of the sequential loop: process the file at position i, then report the running count i + 1. */
  method SequentialStep(disk: Disk, progress: TaskProgress, effect: ToolEffect, toolPath: Path, files: seq<Path>, outputPath: Path,
                        i: nat, ghost start: ProgressState, ghost initial: DiskState, events: seq<Event>)
    returns (events': seq<Event>)
    requires i < |files|
    requires Batches.ProcessInOrder(initial, EraStage(effect, toolPath, outputPath), files[..i], Batches.CountReport(|files|))
          == Batch(disk.State(), events)
    requires progress.Valid() && AllDefined(ProgressCalls(events)) && progress.State() == Replay(start, ProgressCalls(events))
    modifies disk, progress
    ensures Batches.ProcessInOrder(initial, EraStage(effect, toolPath, outputPath), files[..i + 1], Batches.CountReport(|files|))
         == Batch(disk.State(), events')
    ensures progress.Valid() && AllDefined(ProgressCalls(events')) && progress.State() == Replay(start, ProgressCalls(events'))
  {
    var calls := StageInBatch(disk, effect, toolPath, files, outputPath, i, initial, events);
    events' := ReportStep(progress, files, i, calls, start, events);
  }

  /** The second half of a sequential turn: UpdateBatch with the running count i + 1, recorded after the file's tool runs. */
  method ReportStep(progress: TaskProgress, files: seq<Path>, i: nat, calls: seq<ToolCall>, ghost start: ProgressState, events: seq<Event>)
    returns (events': seq<Event>)
    requires i < |files|
    requires progress.Valid() && AllDefined(ProgressCalls(events)) && progress.State() == Replay(start, ProgressCalls(events))
    modifies progress
    ensures events' == events + [EraProcessed(files[i], calls), Reported(UpdateBatch(|files|, FileName(files[i]), i + 1))]
    ensures progress.Valid() && AllDefined(ProgressCalls(events')) && progress.State() == Replay(start, ProgressCalls(events'))
  {
    var currentFileName := FileName(files[i]);
    progress.UpdateBatch(|files|, currentFileName, i + 1);
    var step := [EraProcessed(files[i], calls), Reported(UpdateBatch(|files|, currentFileName, i + 1))];
    ReportAfterStage(start, events, step[0], step[1].call);
    events' := events + step;
  }

  /** ProcessFilesSequentially: each file in turn, then its UpdateBatch with the running count. */
  method ProcessFilesSequentially(disk: Disk, progress: TaskProgress, effect: ToolEffect, toolPath: Path, files: seq<Path>, outputPath: Path)
    returns (events: seq<Event>)
    requires progress.Valid()
    modifies disk, progress
    ensures var b := Batches.ProcessInOrder(old(disk.State()), EraStage(effect, toolPath, outputPath), files, Batches.CountReport(|files|));
      disk.State() == b.disk && events == b.events
    ensures progress.Valid() && AllDefined(ProgressCalls(events))
    ensures progress.State() == Replay(old(progress.State()), ProgressCalls(events))
  {
    ghost var start := progress.State();
    ghost var initial := disk.State();
    var processedFilesCount := 0;
    events := [];
    for i := 0 to |files|
      invariant processedFilesCount == i
      invariant Batches.ProcessInOrder(initial, EraStage(effect, toolPath, outputPath), files[..i], Batches.CountReport(|files|))
             == Batch(disk.State(), events)
      invariant progress.Valid() && AllDefined(ProgressCalls(events))
      invariant progress.State() == Replay(start, ProgressCalls(events))
    {
      events := SequentialStep(disk, progress, effect, toolPath, files, outputPath, i, start, initial, events);
      processedFilesCount := processedFilesCount + 1;
    }
    assert files[..|files|] == files;
  }

  /**
   * ProcessFilesInParallel: the degree is checked when the options are
   * built, before any file; a degree of 0 is refused. Otherwise every file
   * is processed once and the shared counter reports 1..n in the order the
   * files finish, which is `completionOrder`.
   */
  method ProcessFilesInParallel(disk: Disk, progress: TaskProgress, effect: ToolEffect, toolPath: Path, parallelThreads: int,
                                processorCount: Batches.ProcessorCount, files: seq<Path>, outputPath: Path, completionOrder: seq<Path>)
    returns (rejected: bool, events: seq<Event>)
    requires progress.Valid() && multiset(completionOrder) == multiset(files)
    modifies disk, progress
    ensures rejected <==> ParallelDegree(parallelThreads, processorCount) == 0
    ensures rejected ==> disk.State() == old(disk.State()) && progress.State() == old(progress.State()) && events == []
    ensures !rejected ==>
      var b := Batches.ProcessInOrder(old(disk.State()), EraStage(effect, toolPath, outputPath), completionOrder, Batches.CountReport(|files|));
      disk.State() == b.disk && events == b.events
    ensures progress.Valid() && AllDefined(ProgressCalls(events))
    ensures progress.State() == Replay(old(progress.State()), ProgressCalls(events))
  {
    var degree := ParallelDegree(parallelThreads, processorCount);
    if degree == 0 {
      return true, [];
    }
    assert |completionOrder| == |multiset(completionOrder)| == |multiset(files)| == |files|;
    rejected := false;
    events := ProcessFilesSequentially(disk, progress, effect, toolPath, completionOrder, outputPath);
  }

  /**
   * FromEra(files, outputPath) with the loaded settings and the host's
   * tool: does what `Session` says, and the progress ends where its calls
   * lead.
   */
  method FromEra(disk: Disk, progress: TaskProgress, host: Host, settings: RuntimeConfig.ConfigValues, files: seq<Path>,
                 outputPath: Path, completionOrder: seq<Path>)
    returns (outcome: Outcome, events: seq<Event>)
    requires progress.Valid() && outputPath != [] && multiset(completionOrder) == multiset(files)
    modifies disk, progress
    ensures var r := Session(old(disk.State()), host, settings, files, outputPath, completionOrder);
      outcome == r.outcome && disk.State() == r.disk && events == r.events
    ensures progress.Valid() && progress.State() == Replay(old(progress.State()), ProgressCalls(events))
  {
    ghost var d0 := disk.State();
    ghost var s0 := progress.State();
    if host.toolPath == [] || host.toolPath !in disk.files {
      return ToolMissing, [];
    }
    if outputPath !in disk.dirs {
      disk.CreateDirectory(outputPath);
    }
    ghost var prepared := disk.State();
    assert prepared == Batches.WithOutput(d0, outputPath);
    if !DiskSpaceChecker.HasSufficientDiskSpace(DiskSpaceChecker.Sizes(files, host.sizeOf), host.availableSpace) {
      progress.Complete();
      ReplayOne(s0, Complete);
      return InsufficientSpace, [Reported(Complete)];
    }
    progress.Initialize(SessionTitle);
    ReplayOne(s0, Initialize(SessionTitle));
    var init := [Reported(Initialize(SessionTitle))];
    var batch: seq<Event>;
    if settings.enableParallelProcessing {
      var rejected;
      rejected, batch := ProcessFilesInParallel(disk, progress, host.effect, host.toolPath, settings.parallelThreads,
                                                host.processorCount, files, outputPath, completionOrder);
      if rejected {
        return DegreeRejected, init;
      }
    } else {
      batch := ProcessFilesSequentially(disk, progress, host.effect, host.toolPath, files, outputPath);
    }
    ghost var afterBatch := disk.State();
    ghost var order := ProcessingOrder(settings, files, completionOrder);
    assert Batches.ProcessInOrder(prepared, EraStage(host.effect, host.toolPath, outputPath), order, Batches.CountReport(|files|))
        == Batch(afterBatch, batch);
    OutputSurvivesBatch(prepared, host, order, |files|, outputPath);
    var cleanup := CleanUp(disk, progress, settings, outputPath);
    events := init + batch + cleanup;
    outcome := Finished;
    SessionFinished(d0, host, settings, files, outputPath, completionOrder, Batch(afterBatch, batch), Batch(disk.State(), cleanup));
    Batches.CleanupTrace(afterBatch, CleanupSteps(settings), outputPath);
    ReplayThree(s0, init, batch, cleanup);
  }

  /**
   * The end of FromEra once every file is processed: DeleteTempFolders,
   * the xmb and eradef sweeps the settings switch on, then Complete.
   */
  method CleanUp(disk: Disk, progress: TaskProgress, settings: RuntimeConfig.ConfigValues, outputPath: Path)
    returns (cleanup: seq<Event>)
    requires progress.Valid() && outputPath in disk.dirs
    modifies disk, progress
    ensures Batch(disk.State(), cleanup) == Batches.Cleanup(old(disk.State()), CleanupSteps(settings), outputPath)
    ensures progress.Valid() && progress.State() == Completed(old(progress.State()))
  {
    assert !AtOrUnder(outputPath, TempRoot(outputPath));
    DeleteTempFolders(disk, outputPath);
    ghost var afterTemp := disk.State();
    ghost var done: seq<CleanupStep> := [];
    var swept: seq<Event> := [];
    if settings.cleanUpXmb {
      var n := Xmb.RemoveAll(disk, outputPath);
      Batches.RunStepsSnoc(afterTemp, outputPath, done, SweepOf(Sweep.Xmb));
      swept := swept + [Swept(Sweep.Xmb, n)];
      done := done + [SweepOf(Sweep.Xmb)];
    }
    if settings.cleanUpEraDef {
      var n := EraDef.RemoveAll(disk, outputPath);
      Batches.RunStepsSnoc(afterTemp, outputPath, done, SweepOf(Sweep.EraDef));
      swept := swept + [Swept(Sweep.EraDef, n)];
      done := done + [SweepOf(Sweep.EraDef)];
    }
    assert done == CleanupSteps(settings);
    progress.Complete();
    cleanup := [TempFoldersRemoved] + swept + [Reported(Complete)];
  }

  /** The output directory, made before the batch, is still there after it. */
  lemma OutputSurvivesBatch(prepared: DiskState, host: Host, order: seq<Path>, total: int, outputPath: Path)
    requires outputPath in prepared.dirs
    ensures outputPath in Batches.ProcessInOrder(prepared, EraStage(host.effect, host.toolPath, outputPath), order, Batches.CountReport(total)).disk.dirs
  {
    EraStageKeepsOutside(host.effect, host.toolPath, outputPath);
    Batches.BatchKeepsOutside(prepared, EraStage(host.effect, host.toolPath, outputPath), order, Batches.CountReport(total), TempRoot(outputPath));
    assert !AtOrUnder(outputPath, TempRoot(outputPath));
  }

  /** Past the three guards, a run is Initialize, the batch over the processing order, then the cleanup. */
  lemma SessionFinished(d: DiskState, host: Host, settings: RuntimeConfig.ConfigValues, files: seq<Path>, outputPath: Path,
                        completionOrder: seq<Path>, batch: Batch, cleanup: Batch)
    requires ToolAvailable(d, host.toolPath) && EnoughSpace(host, files) && !Rejects(host, settings)
    requires batch == Batches.ProcessInOrder(Batches.WithOutput(d, outputPath), EraStage(host.effect, host.toolPath, outputPath),
                                             ProcessingOrder(settings, files, completionOrder), Batches.CountReport(|files|))
    requires cleanup == Batches.Cleanup(batch.disk, CleanupSteps(settings), outputPath)
    ensures Session(d, host, settings, files, outputPath, completionOrder)
         == Run(Finished, cleanup.disk, [Reported(Initialize(SessionTitle))] + batch.events + cleanup.events)
  {
  }
}
