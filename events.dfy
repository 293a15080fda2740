/**
 * What a decompilation run does, in the order it does it: progress calls,
 * per-file stages, the temp-root deletion and the cleanup sweeps. The
 * decompilers return such a trace; the properties of a run are stated
 * over it.
 */
module Events {
  import opened Paths
  import opened FileSystem
  import opened PhxToolHandler
  import opened Progress
  import Sweep

  datatype Event =
    | Reported(call: ProgressCall)                   // a TaskProgress call
    | EraProcessed(file: Path, calls: seq<ToolCall>) // a per-file stage and the tool runs it made (none recorded when not modelled)
    | TempFoldersRemoved                             // FileProcessor.DeleteTempFolders
    | Swept(artifact: Sweep.Artifact, removed: nat)  // a cleanup sweep and the count it logs
    | DdxConverted                                   // DDX.ConvertAll, which changes nothing

  /** The concatenation of what `pick` takes from each event, in trace order. */
  function Project<T>(events: seq<Event>, pick: Event -> seq<T>): seq<T> {
    if events == [] then [] else pick(events[0]) + Project(events[1..], pick)
  }

  lemma {:induction false} ProjectAppend<T>(a: seq<Event>, b: seq<Event>, pick: Event -> seq<T>)
    ensures Project(a + b, pick) == Project(a, pick) + Project(b, pick)
  {
    if a == [] {
      assert a + b == b;
    } else {
      assert (a + b)[1..] == a[1..] + b;
      ProjectAppend(a[1..], b, pick);
    }
  }

  lemma ProjectSingle<T>(e: Event, pick: Event -> seq<T>)
    ensures Project([e], pick) == pick(e)
  {
    assert [e][1..] == [];
    assert pick(e) + [] == pick(e);
  }

  lemma ProjectPair<T>(a: Event, b: Event, pick: Event -> seq<T>)
    ensures Project([a, b], pick) == pick(a) + pick(b)
  {
    assert [a, b][1..] == [b] && [b][1..] == [];
    assert Project([b], pick) == pick(b) + Project([], pick);
    assert pick(b) + [] == pick(b);
  }

  function ProgressOf(e: Event): seq<ProgressCall> {
    if e.Reported? then [e.call] else []
  }

  function FileOf(e: Event): seq<Path> {
    if e.EraProcessed? then [e.file] else []
  }

  /** A cleanup step after DeleteTempFolders: a sweep of one artifact kind, or DDX.ConvertAll. */
  datatype CleanupStep = SweepOf(artifact: Sweep.Artifact) | ConvertDdx

  function StepOfEvent(e: Event): seq<CleanupStep> {
    if e.Swept? then [SweepOf(e.artifact)] else if e.DdxConverted? then [ConvertDdx] else []
  }

  /** The TaskProgress calls of a trace, in order. */
  function ProgressCalls(events: seq<Event>): seq<ProgressCall> {
    Project(events, ProgressOf)
  }

  /** The files a trace processed, in order. */
  function ProcessedFiles(events: seq<Event>): seq<Path> {
    Project(events, FileOf)
  }

  /** The cleanup steps a trace ran, in order. */
  function CleanupRun(events: seq<Event>): seq<CleanupStep> {
    Project(events, StepOfEvent)
  }

  /** Every event of the trace is a progress call or a per-file stage. */
  predicate OnlyFileWork(events: seq<Event>) {
    forall i :: 0 <= i < |events| ==> events[i].Reported? || events[i].EraProcessed?
  }

  lemma {:induction false} NoCleanupInFileWork(events: seq<Event>)
    requires OnlyFileWork(events)
    ensures CleanupRun(events) == []
  {
    if events != [] {
      assert OnlyFileWork(events[1..]) by {
        forall i | 0 <= i < |events[1..]| ensures events[1..][i] == events[i + 1] { }
      }
      NoCleanupInFileWork(events[1..]);
    }
  }

  lemma {:induction false} NothingButCleanup(events: seq<Event>)
    requires OnlyCleanupWork(events)
    ensures ProgressCalls(events) == [] && ProcessedFiles(events) == []
  {
    if events != [] {
      assert OnlyCleanupWork(events[1..]) by {
        forall i | 0 <= i < |events[1..]| ensures events[1..][i] == events[i + 1] { }
      }
      NothingButCleanup(events[1..]);
    }
  }

  /** The progress calls of a trace extended by `more` replay as the old trace followed by those of `more`. */
  lemma ReplayExtended(s: ProgressState, events: seq<Event>, more: seq<Event>)
    requires AllDefined(ProgressCalls(events)) && AllDefined(ProgressCalls(more))
    ensures ProgressCalls(events + more) == ProgressCalls(events) + ProgressCalls(more)
    ensures AllDefined(ProgressCalls(events + more))
    ensures Replay(s, ProgressCalls(events + more)) == Replay(Replay(s, ProgressCalls(events)), ProgressCalls(more))
  {
    ProjectAppend(events, more, ProgressOf);
    ReplayAppend(s, ProgressCalls(events), ProgressCalls(more));
  }

  /** A file stage followed by its report moves the replayed progress by that one report. */
  lemma ReportAfterStage(s: ProgressState, events: seq<Event>, stage: Event, u: ProgressCall)
    requires AllDefined(ProgressCalls(events)) && Defined(u) && stage.EraProcessed?
    ensures AllDefined(ProgressCalls(events + [stage, Reported(u)]))
    ensures Replay(s, ProgressCalls(events + [stage, Reported(u)])) == Apply(Replay(s, ProgressCalls(events)), u)
  {
    ProjectPair(stage, Reported(u), ProgressOf);
    assert [u][1..] == [];
    ReplayExtended(s, events, [stage, Reported(u)]);
  }

  /** A single progress call, as a trace, replays as that call. */
  lemma ReplayOne(s: ProgressState, c: ProgressCall)
    requires Defined(c)
    ensures AllDefined(ProgressCalls([Reported(c)])) && Replay(s, ProgressCalls([Reported(c)])) == Apply(s, c)
  {
    ProjectSingle(Reported(c), ProgressOf);
    assert [c][1..] == [];
  }

  /** Initialize, the reports, then the cleanup's single Complete, replayed in turn. */
  lemma ReplayThree(s: ProgressState, init: seq<Event>, batch: seq<Event>, cleanup: seq<Event>)
    requires AllDefined(ProgressCalls(init)) && AllDefined(ProgressCalls(batch)) && ProgressCalls(cleanup) == [Complete]
    ensures AllDefined(ProgressCalls(init + batch + cleanup))
    ensures Replay(s, ProgressCalls(init + batch + cleanup)) == Completed(Replay(Replay(s, ProgressCalls(init)), ProgressCalls(batch)))
  {
    assert AllDefined([Complete]) && [Complete][1..] == [];
    ReplayExtended(s, init, batch);
    ReplayExtended(s, init + batch, cleanup);
  }

  /** A disk together with the trace that produced it. */
  datatype Batch = Batch(disk: DiskState, events: seq<Event>)

  /** One sweep of `a` beneath `root`: the disk without the matches, and the count it logs. */
  function SweepStep(d: DiskState, root: Path, a: Sweep.Artifact): (r: Batch)
    ensures r.disk.dirs == d.dirs && Sweep.Targets(r.disk.files, root, a) == {}
    ensures r.disk.files + Sweep.Targets(d.files, root, a) == d.files
    ensures r.events == [Swept(a, |Sweep.Targets(d.files, root, a)|)]
  {
    Batch(DiskState(d.dirs, Sweep.Remaining(d.files, root, a)), [Swept(a, |Sweep.Targets(d.files, root, a)|)])
  }

  /** Every event of the trace is a cleanup step: a sweep or the DDX conversion. */
  predicate OnlyCleanupWork(events: seq<Event>) {
    forall i :: 0 <= i < |events| ==> events[i].Swept? || events[i].DdxConverted?
  }

  /** Two traces of cleanup steps make one. */
  lemma CleanupWorkAppend(a: seq<Event>, b: seq<Event>)
    requires OnlyCleanupWork(a) && OnlyCleanupWork(b)
    ensures OnlyCleanupWork(a + b)
  {
    forall i | 0 <= i < |a + b| ensures (a + b)[i].Swept? || (a + b)[i].DdxConverted? {
      if i >= |a| {
        assert (a + b)[i] == b[i - |a|];
      }
    }
  }

  /**
   * The shape of a finished run: file work and progress first, then the
   * temp-root deletion, then only cleanup steps, and Complete last.
   */
  predicate FilesThenCleanup(events: seq<Event>) {
    && |events| >= 2
    && events[|events| - 1] == Reported(Complete)
    && exists k :: 0 <= k < |events| - 1 && events[k] == TempFoldersRemoved && OnlyFileWork(events[..k])
         && OnlyCleanupWork(events[k + 1..|events| - 1])
  }
}
