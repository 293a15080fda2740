/**
 * The shape both decompilers share once their guards have passed:
 * Initialize, every file in turn (a per-file stage followed by its
 * UpdateBatch report), DeleteTempFolders, the cleanup steps the settings
 * ask for, then Complete. The per-file stage and the report are
 * parameters, so what is proved here holds for the runtime decompiler
 * (FileProcessor.Stage) and for the Forge decompiler alike.
 */
module Batches {
  import opened Paths
  import opened FileSystem
  import opened Progress
  import opened Events
  import opened FileProcessor
  import Sweep

  /** What processing one file does to the disk, and the tool runs it makes. */
  type FileStage = (DiskState, Path) -> StageResult

  /** The progress call made after the file at position k (from 0) of a batch. */
  type FileReport = (nat, Path) -> ProgressCall

  /** The output directory made if it was missing. */
  function WithOutput(d: DiskState, outputPath: Path): (r: DiskState)
    ensures outputPath != [] ==> outputPath in r.dirs
    ensures r.files == d.files && d.dirs <= r.dirs
  {
    if outputPath in d.dirs then d else Created(d, outputPath)
  }

  /** Environment.ProcessorCount, which is never below 1. */
  type ProcessorCount = n: int | n >= 1 witness 1

  /** The report after the file at position k: UpdateBatch(total, its name, k + 1), the running count. */
  function CountReport(total: int): FileReport {
    (k: nat, f: Path) => UpdateBatch(total, FileName(f), k + 1)
  }

  /** Every count is at least 1, so every report is defined whatever the total. */
  lemma CountReportUpdates(total: int)
    ensures Updates(CountReport(total))
  {
  }

  /** The files of `order` processed one after another, each followed by its report. */
  function ProcessInOrder(d: DiskState, stage: FileStage, order: seq<Path>, report: FileReport): Batch
    decreases |order|
  {
    if order == [] then Batch(d, [])
    else
      var n := |order| - 1;
      var before := ProcessInOrder(d, stage, order[..n], report);
      var s := stage(before.disk, order[n]);
      Batch(s.disk, before.events + [EraProcessed(order[n], s.calls), Reported(report(n, order[n]))])
  }

  /** One more file after a batch: its stage runs on what the batch left, and its report follows. */
  lemma BatchSnoc(d: DiskState, stage: FileStage, order: seq<Path>, f: Path, report: FileReport)
    ensures var before := ProcessInOrder(d, stage, order, report);
      var s := stage(before.disk, f);
      ProcessInOrder(d, stage, order + [f], report)
        == Batch(s.disk, before.events + [EraProcessed(f, s.calls), Reported(report(|order|, f))])
  {
    assert (order + [f])[..|order|] == order;
  }

  /** The reports of a batch over `order`, in order. */
  function Reports(order: seq<Path>, report: FileReport): (r: seq<ProgressCall>)
    ensures |r| == |order|
    ensures forall k :: 0 <= k < |order| ==> r[k] == report(k, order[k])
  {
    seq(|order|, k requires 0 <= k < |order| => report(k, order[k]))
  }

  lemma ReportsSnoc(order: seq<Path>, report: FileReport)
    requires order != []
    ensures Reports(order, report) == Reports(order[..|order| - 1], report) + [report(|order| - 1, order[|order| - 1])]
  {
    var n := |order| - 1;
    var r := Reports(order[..n], report) + [report(n, order[n])];
    forall k | 0 <= k < |order| ensures r[k] == Reports(order, report)[k] {
      if k < n { assert r[k] == Reports(order[..n], report)[k]; }
    }
  }

  /** A batch holds only per-file stages and progress reports. */
  lemma {:induction false} BatchIsFileWork(d: DiskState, stage: FileStage, order: seq<Path>, report: FileReport)
    ensures OnlyFileWork(ProcessInOrder(d, stage, order, report).events)
    decreases |order|
  {
    if order != [] {
      var n := |order| - 1;
      var before := ProcessInOrder(d, stage, order[..n], report);
      var s := stage(before.disk, order[n]);
      var step := [EraProcessed(order[n], s.calls), Reported(report(n, order[n]))];
      BatchIsFileWork(d, stage, order[..n], report);
      forall i | 0 <= i < |before.events + step|
        ensures (before.events + step)[i].Reported? || (before.events + step)[i].EraProcessed?
      {
        if i < |before.events| { assert (before.events + step)[i] == before.events[i]; }
      }
    }
  }

  /** A batch processes exactly the files of `order`, each once and in that order. */
  lemma {:induction false} BatchFiles(d: DiskState, stage: FileStage, order: seq<Path>, report: FileReport)
    ensures ProcessedFiles(ProcessInOrder(d, stage, order, report).events) == order
    decreases |order|
  {
    if order != [] {
      var n := |order| - 1;
      var before := ProcessInOrder(d, stage, order[..n], report);
      var s := stage(before.disk, order[n]);
      var step := [EraProcessed(order[n], s.calls), Reported(report(n, order[n]))];
      BatchFiles(d, stage, order[..n], report);
      ProjectAppend(before.events, step, FileOf);
      ProjectPair(step[0], step[1], FileOf);
      assert order[..n] + [order[n]] == order;
    }
  }

  /** The progress calls of a batch are its reports, one per file, in order. */
  lemma {:induction false} BatchReports(d: DiskState, stage: FileStage, order: seq<Path>, report: FileReport)
    ensures ProgressCalls(ProcessInOrder(d, stage, order, report).events) == Reports(order, report)
    decreases |order|
  {
    if order != [] {
      var n := |order| - 1;
      var before := ProcessInOrder(d, stage, order[..n], report);
      var s := stage(before.disk, order[n]);
      var step := [EraProcessed(order[n], s.calls), Reported(report(n, order[n]))];
      BatchReports(d, stage, order[..n], report);
      ProjectAppend(before.events, step, ProgressOf);
      ProjectPair(step[0], step[1], ProgressOf);
      ReportsSnoc(order, report);
    }
  }

  /** The stage deletes nothing outside `root`. */
  ghost predicate KeepsOutside(stage: FileStage, root: Path) {
    forall d: DiskState, f: Path, x: Path ::
      && (x in d.dirs && !AtOrUnder(x, root) ==> x in stage(d, f).disk.dirs)
      && (x in d.files && !AtOrUnder(x, root) ==> x in stage(d, f).disk.files)
  }

  /** A batch of stages that keep everything outside `root` keeps everything outside `root`. */
  lemma {:induction false} BatchKeepsOutside(d: DiskState, stage: FileStage, order: seq<Path>, report: FileReport, root: Path)
    requires KeepsOutside(stage, root)
    ensures var r := ProcessInOrder(d, stage, order, report).disk;
      && (forall x :: x in d.dirs && !AtOrUnder(x, root) ==> x in r.dirs)
      && (forall x :: x in d.files && !AtOrUnder(x, root) ==> x in r.files)
    decreases |order|
  {
    if order != [] {
      BatchKeepsOutside(d, stage, order[..|order| - 1], report, root);
    }
  }

  /** The stage keeps a well-formed disk well formed. */
  ghost predicate KeepsWellFormed(stage: FileStage) {
    forall d: DiskState, f: Path :: WellFormed(d) ==> WellFormed(stage(d, f).disk)
  }

  /** A batch of stages that keep the disk well formed keeps it well formed. */
  lemma {:induction false} BatchWellFormed(d: DiskState, stage: FileStage, order: seq<Path>, report: FileReport)
    requires WellFormed(d) && KeepsWellFormed(stage)
    ensures WellFormed(ProcessInOrder(d, stage, order, report).disk)
    decreases |order|
  {
    if order != [] {
      BatchWellFormed(d, stage, order[..|order| - 1], report);
    }
  }

  /** Making the output directory keeps the disk well formed. */
  lemma WithOutputWellFormed(d: DiskState, outputPath: Path)
    requires WellFormed(d)
    ensures WellFormed(WithOutput(d, outputPath))
  {
    CreatedWellFormed(d, outputPath);
  }

  /** The cleanup steps beneath `root`, in order; DDX conversion changes nothing on the modelled disk. */
  function RunSteps(d: DiskState, root: Path, steps: seq<CleanupStep>): Batch
    decreases |steps|
  {
    if steps == [] then Batch(d, [])
    else
      var first := StepOf(d, root, steps[0]);
      var rest := RunSteps(first.disk, root, steps[1..]);
      Batch(rest.disk, first.events + rest.events)
  }

  /** One cleanup step: a sweep, or the DDX conversion, which changes nothing on the modelled disk. */
  function StepOf(d: DiskState, root: Path, step: CleanupStep): Batch {
    if step.SweepOf? then SweepStep(d, root, step.artifact) else Batch(d, [DdxConverted])
  }

  /** Running one more step after the others is running it on what they left. */
  lemma {:induction false} RunStepsSnoc(d: DiskState, root: Path, steps: seq<CleanupStep>, step: CleanupStep)
    ensures var b := RunSteps(d, root, steps);
      RunSteps(d, root, steps + [step]) == Batch(StepOf(b.disk, root, step).disk, b.events + StepOf(b.disk, root, step).events)
    decreases |steps|
  {
    if steps == [] {
      assert [step][1..] == [];
    } else {
      assert (steps + [step])[1..] == steps[1..] + [step];
      RunStepsSnoc(StepOf(d, root, steps[0]).disk, root, steps[1..], step);
    }
  }

  /** A file one of the steps deletes: beneath `root` and matching a swept pattern. */
  predicate SweptBy(steps: seq<CleanupStep>, root: Path, p: Path) {
    exists a :: SweepOf(a) in steps && Under(p, root) && Sweep.Matches(a, p)
  }

  /** The steps log one event each, in order: the trace says which steps ran. */
  lemma {:induction false} StepsTrace(d: DiskState, root: Path, steps: seq<CleanupStep>)
    ensures var r := RunSteps(d, root, steps);
      && |r.events| == |steps| && OnlyCleanupWork(r.events)
      && CleanupRun(r.events) == steps
    decreases |steps|
  {
    if steps != [] {
      var first := StepOf(d, root, steps[0]);
      var rest := RunSteps(first.disk, root, steps[1..]);
      StepsTrace(first.disk, root, steps[1..]);
      StepOfTrace(d, root, steps[0]);
      ProjectAppend(first.events, rest.events, StepOfEvent);
      CleanupWorkAppend(first.events, rest.events);
      assert steps == [steps[0]] + steps[1..];
    }
  }

  /** One step logs one event, a sweep or the DDX conversion, naming that step. */
  lemma StepOfTrace(d: DiskState, root: Path, step: CleanupStep)
    ensures var e := StepOf(d, root, step).events;
      |e| == 1 && OnlyCleanupWork(e) && CleanupRun(e) == [step]
  {
    var e := StepOf(d, root, step).events;
    ProjectSingle(e[0], StepOfEvent);
    assert e == [e[0]];
  }

  /**
   * The steps keep every directory and delete exactly the files they
   * target; no file any sweep targets is left.
   */
  lemma {:induction false} StepsDisk(d: DiskState, root: Path, steps: seq<CleanupStep>)
    ensures var r := RunSteps(d, root, steps).disk;
      && r.dirs == d.dirs
      && (forall p :: p in r.files <==> p in d.files && !SweptBy(steps, root, p))
      && (forall a :: SweepOf(a) in steps ==> Sweep.Targets(r.files, root, a) == {})
    decreases |steps|
  {
    if steps != [] {
      var first := StepOf(d, root, steps[0]);
      StepsDisk(first.disk, root, steps[1..]);
      var r := RunSteps(d, root, steps).disk;
      forall p ensures p in r.files <==> p in d.files && !SweptBy(steps, root, p) {
        if SweptBy(steps[1..], root, p) {
          var a :| SweepOf(a) in steps[1..] && Under(p, root) && Sweep.Matches(a, p);
          assert SweepOf(a) in steps;
        }
        if steps[0].SweepOf? && Under(p, root) && Sweep.Matches(steps[0].artifact, p) {
          assert SweptBy(steps, root, p);
        }
      }
      forall a | SweepOf(a) in steps ensures Sweep.Targets(r.files, root, a) == {} {
        forall p | p in r.files ensures !(Under(p, root) && Sweep.Matches(a, p)) { }
      }
    }
  }

  /** DeleteTempFolders, the cleanup steps beneath the output root, then Complete. */
  function Cleanup(d: DiskState, steps: seq<CleanupStep>, outputPath: Path): Batch {
    var swept := RunSteps(TempFoldersDeleted(d, outputPath), outputPath, steps);
    Batch(swept.disk, [TempFoldersRemoved] + swept.events + [Reported(Complete)])
  }

  /** The cleanup trace: the temp-root deletion, one event per step, then Complete. */
  lemma CleanupTrace(d: DiskState, steps: seq<CleanupStep>, outputPath: Path)
    ensures var c := Cleanup(d, steps, outputPath).events;
      && ProgressCalls(c) == [Complete] && ProcessedFiles(c) == []
      && CleanupRun(c) == steps
      && |c| == |steps| + 2 && c[0] == TempFoldersRemoved && c[|c| - 1] == Reported(Complete)
      && OnlyCleanupWork(c[1..|c| - 1])
  {
    var swept := RunSteps(TempFoldersDeleted(d, outputPath), outputPath, steps);
    var c := Cleanup(d, steps, outputPath).events;
    StepsTrace(TempFoldersDeleted(d, outputPath), outputPath, steps);
    NothingButCleanup(swept.events);
    assert c[1..|c| - 1] == swept.events;
    ProjectAround(swept.events, ProgressOf);
    ProjectAround(swept.events, FileOf);
    ProjectAround(swept.events, StepOfEvent);
  }

  /** What `pick` takes from a cleanup trace: the two ends around the middle. */
  lemma ProjectAround<T>(middle: seq<Event>, pick: Event -> seq<T>)
    ensures Project([TempFoldersRemoved] + middle + [Reported(Complete)], pick)
         == pick(TempFoldersRemoved) + Project(middle, pick) + pick(Reported(Complete))
  {
    ProjectAppend([TempFoldersRemoved] + middle, [Reported(Complete)], pick);
    ProjectAppend([TempFoldersRemoved], middle, pick);
    ProjectSingle(TempFoldersRemoved, pick);
    ProjectSingle(Reported(Complete), pick);
  }

  /** x lies in the temp root and DeleteTempFolders finds that root, so deletes it. */
  predicate InTempRoot(d: DiskState, outputPath: Path, x: Path) {
    TempRoot(outputPath) in d.dirs && AtOrUnder(x, TempRoot(outputPath))
  }

  /**
   * After the cleanup the temp root is gone and no target of a requested
   * sweep is left; a file stays exactly when it lay outside the temp root
   * and no sweep targets it, a directory exactly when it lay outside the
   * temp root.
   */
  lemma CleanupDisk(d: DiskState, steps: seq<CleanupStep>, outputPath: Path)
    ensures var r := Cleanup(d, steps, outputPath).disk;
      && TempRoot(outputPath) !in r.dirs
      && (forall a :: SweepOf(a) in steps ==> Sweep.Targets(r.files, outputPath, a) == {})
      && (forall p :: p in r.files <==> p in d.files && !InTempRoot(d, outputPath, p) && !SweptBy(steps, outputPath, p))
      && (forall x :: x in r.dirs <==> x in d.dirs && !InTempRoot(d, outputPath, x))
  {
    StepsDisk(TempFoldersDeleted(d, outputPath), outputPath, steps);
  }

  /** Nothing is left of the temp root: no directory at or beneath it, no file beneath it. */
  predicate NoTempLeft(d: DiskState, outputPath: Path) {
    && (forall x :: x in d.dirs ==> !AtOrUnder(x, TempRoot(outputPath)))
    && (forall p :: p in d.files ==> !Under(p, TempRoot(outputPath)))
  }

  /**
   * On a well-formed disk the cleanup leaves nothing of the temp root, and
   * the disk stays well formed: the sweeps delete files only.
   */
  lemma CleanupClearsTemp(d: DiskState, steps: seq<CleanupStep>, outputPath: Path)
    requires WellFormed(d)
    ensures var r := Cleanup(d, steps, outputPath).disk;
      WellFormed(r) && NoTempLeft(r, outputPath)
  {
    TempFoldersCleared(d, outputPath);
    StepsDisk(TempFoldersDeleted(d, outputPath), outputPath, steps);
  }

  /** Initialize(title), the batch, then the cleanup: a whole run past the guards. */
  function Pipeline(d: DiskState, stage: FileStage, order: seq<Path>, report: FileReport, steps: seq<CleanupStep>,
                    outputPath: Path, title: string): Batch
  {
    var batch := ProcessInOrder(d, stage, order, report);
    var cleanup := Cleanup(batch.disk, steps, outputPath);
    Batch(cleanup.disk, [Reported(Initialize(title))] + batch.events + cleanup.events)
  }

  /** A run past the guards processes exactly the files of `order`, once each and in that order. */
  lemma PipelineFiles(d: DiskState, stage: FileStage, order: seq<Path>, report: FileReport, steps: seq<CleanupStep>,
                      outputPath: Path, title: string)
    ensures ProcessedFiles(Pipeline(d, stage, order, report, steps, outputPath, title).events) == order
  {
    var batch := ProcessInOrder(d, stage, order, report);
    var cleanup := Cleanup(batch.disk, steps, outputPath);
    var init := Reported(Initialize(title));
    BatchFiles(d, stage, order, report);
    CleanupTrace(batch.disk, steps, outputPath);
    ProjectSingle(init, FileOf);
    ProjectAppend([init] + batch.events, cleanup.events, FileOf);
    ProjectAppend([init], batch.events, FileOf);
  }

  /** The progress calls of a run past the guards: Initialize, one report per file, Complete. */
  lemma PipelineCalls(d: DiskState, stage: FileStage, order: seq<Path>, report: FileReport, steps: seq<CleanupStep>,
                      outputPath: Path, title: string)
    ensures ProgressCalls(Pipeline(d, stage, order, report, steps, outputPath, title).events)
         == [Initialize(title)] + Reports(order, report) + [Complete]
  {
    var batch := ProcessInOrder(d, stage, order, report);
    var cleanup := Cleanup(batch.disk, steps, outputPath);
    var init := Reported(Initialize(title));
    BatchReports(d, stage, order, report);
    CleanupTrace(batch.disk, steps, outputPath);
    ProjectSingle(init, ProgressOf);
    ProjectAppend([init] + batch.events, cleanup.events, ProgressOf);
    ProjectAppend([init], batch.events, ProgressOf);
  }

  /**
   * A run past the guards runs exactly the requested cleanup steps, in
   * order, and deletes the temp root after the last file and before the first
   * cleanup step; Complete comes last.
   */
  lemma PipelineCleanup(d: DiskState, stage: FileStage, order: seq<Path>, report: FileReport, steps: seq<CleanupStep>,
                        outputPath: Path, title: string)
    ensures var events := Pipeline(d, stage, order, report, steps, outputPath, title).events;
      CleanupRun(events) == steps && FilesThenCleanup(events)
  {
    var batch := ProcessInOrder(d, stage, order, report);
    var cleanup := Cleanup(batch.disk, steps, outputPath).events;
    var init := Reported(Initialize(title));
    BatchIsFileWork(d, stage, order, report);
    CleanupTrace(batch.disk, steps, outputPath);
    NoCleanupInFileWork(batch.events);
    ProjectSingle(init, StepOfEvent);
    ProjectAppend([init] + batch.events, cleanup, StepOfEvent);
    ProjectAppend([init], batch.events, StepOfEvent);
    WorkThenCleanup(init, batch.events, cleanup);
  }

  /** Initialize, file work, then a cleanup trace: the finished-run shape. */
  lemma WorkThenCleanup(init: Event, work: seq<Event>, cleanup: seq<Event>)
    requires init.Reported? && OnlyFileWork(work)
    requires |cleanup| >= 2 && cleanup[0] == TempFoldersRemoved && cleanup[|cleanup| - 1] == Reported(Complete)
    requires OnlyCleanupWork(cleanup[1..|cleanup| - 1])
    ensures FilesThenCleanup([init] + work + cleanup)
  {
    var head := [init] + work;
    var events := head + cleanup;
    assert OnlyFileWork(head) by {
      forall i | 0 < i < |head| ensures head[i] == work[i - 1] { }
    }
    var k := |head|;
    assert events[k] == TempFoldersRemoved;
    assert events[..k] == head;
    assert events[k + 1..|events| - 1] == cleanup[1..|cleanup| - 1];
  }

  /**
   * What a run past the guards leaves on disk, when no stage deletes
   * anything outside the temp root: the temp root is gone, no target of a
   * requested sweep is left, and every file and directory outside the temp
   * root survives unless a sweep targets it. When the disk starts well
   * formed and the stages keep it so, nothing at all is left of the temp
   * root.
   */
  lemma PipelineDisk(d: DiskState, stage: FileStage, order: seq<Path>, report: FileReport, steps: seq<CleanupStep>,
                     outputPath: Path, title: string)
    requires KeepsOutside(stage, TempRoot(outputPath))
    ensures var r := Pipeline(d, stage, order, report, steps, outputPath, title).disk;
      && TempRoot(outputPath) !in r.dirs
      && (forall a :: SweepOf(a) in steps ==> Sweep.Targets(r.files, outputPath, a) == {})
      && (forall p :: p in r.files ==> !SweptBy(steps, outputPath, p))
      && (forall p :: p in d.files && !AtOrUnder(p, TempRoot(outputPath)) && !SweptBy(steps, outputPath, p) ==> p in r.files)
      && (forall x :: x in d.dirs && !AtOrUnder(x, TempRoot(outputPath)) ==> x in r.dirs)
      && (WellFormed(d) && KeepsWellFormed(stage) ==> WellFormed(r) && NoTempLeft(r, outputPath))
  {
    var batch := ProcessInOrder(d, stage, order, report);
    BatchKeepsOutside(d, stage, order, report, TempRoot(outputPath));
    CleanupDisk(batch.disk, steps, outputPath);
    if WellFormed(d) && KeepsWellFormed(stage) {
      BatchWellFormed(d, stage, order, report);
      CleanupClearsTemp(batch.disk, steps, outputPath);
    }
  }

  /** Every report is a defined UpdateBatch. */
  ghost predicate Updates(report: FileReport) {
    forall k: nat, f: Path :: report(k, f).UpdateBatch? && Defined(report(k, f))
  }

  /** UpdateBatch calls keep an active progress active and its title unchanged. */
  lemma {:induction false} UpdatesKeepActive(s: ProgressState, calls: seq<ProgressCall>)
    requires s.active
    requires forall i :: 0 <= i < |calls| ==> calls[i].UpdateBatch? && Defined(calls[i])
    ensures AllDefined(calls)
    ensures Replay(s, calls).active && Replay(s, calls).title == s.title
    decreases |calls|
  {
    if calls != [] {
      assert forall i :: 0 <= i < |calls[1..]| ==> calls[1..][i] == calls[i + 1];
      UpdatesKeepActive(Apply(s, calls[0]), calls[1..]);
    }
  }

  /**
   * A run past the guards leaves the progress inactive at 0 with the run's
   * title, whatever state it started in.
   */
  lemma PipelineProgress(s: ProgressState, d: DiskState, stage: FileStage, order: seq<Path>, report: FileReport,
                         steps: seq<CleanupStep>, outputPath: Path, title: string)
    requires Updates(report)
    ensures var calls := ProgressCalls(Pipeline(d, stage, order, report, steps, outputPath, title).events);
      && AllDefined(calls)
      && !Replay(s, calls).active && Replay(s, calls).progress == 0.0 && Replay(s, calls).title == title
  {
    var reports := Reports(order, report);
    PipelineCalls(d, stage, order, report, steps, outputPath, title);
    UpdatesKeepActive(Initialized(s, title), reports);
    assert AllDefined([Initialize(title)]) && AllDefined([Complete]);
    ReplayAppend(s, [Initialize(title)], reports);
    ReplayAppend(s, [Initialize(title)] + reports, [Complete]);
    assert [Initialize(title)][1..] == [] && [Complete][1..] == [];
  }
}
