# Forge ERA decompilation, modelled in Dafny

Forge is a Unity package for Age of Empires modding. Its decompiler takes
`.era` archive files and unpacks them into a project's output directory.
It runs the external `PhxTool.exe` twice per file: `decrypt` writes
`<name>.era.bin` into a temp directory, and `expand` unpacks that file into
the output root. Around this per-file work the decompiler:

- checks that the tool exists;
- creates the output directory;
- checks the free space (at least twice the input size);
- drives a process-wide progress bar (`TaskProgress`);
- processes the files one after another or in parallel;
- deletes the temp root;
- sweeps intermediate artifacts (`*.xmb`, `*.eradef`, and in the editor package also fonts);
- reads its switches from a configuration file, which is created with defaults on first load.

The repository keeps several generations of this pipeline side by side, and all of them are modelled:

- the runtime package: `Runtime/Decompiler/*`;
- the editor package, whose tool ships as embedded resources: `Forge.Decompiler/*`;
- two earlier single-file decompilers that share one temp directory: `Core/Decompiler.cs` and `Runtime/Decompiler.cs`.

How the model is built:

- **Disk.** The filesystem is a set of directory paths and a set of file paths. `FileSystem.Disk` is the mutable store the methods change. A disk is well formed (`FileSystem.WellFormed`) when every entry below a root lies in a directory that exists; the operations keep it so, and the claims that nothing is left beneath the temp root rest on it.
- **The external tool.** What a run of the tool creates is a function of its command line (`ToolEffect`), supplied by the caller.
- **Traces.** Each decompiler returns a trace of `Events`: progress calls, per-file stages with the tool runs they made, the temp-root deletion and the sweeps. Each has a `Session` function saying what a whole run does, and a `FromEra` method proved to do exactly that.
- **Shared shape.** `Batches` proves the shape both current decompilers share once for any per-file stage: Initialize, files, DeleteTempFolders, cleanup steps, Complete.
- **Progress bar.** The `TaskProgress` class holds the four static fields. Its methods are proved to perform the pure transitions of `Progress`, and the end state of a run is its trace's progress calls replayed.

## Model

| member | source | states |
|---|---|---|
| Progress.Clamp01 | Runtime/Utilities/TaskProgress.cs:36 | result lies in [0, 1]; values inside are kept, values below give 0, values above give 1 |
| Progress.BatchFraction | Runtime/Utilities/TaskProgress.cs:50 | the batch fraction is in [0, 1]; it is index/total for 0 <= index <= total, 1 at or past the total; with total 0 it is 1 exactly when index is positive (±infinity clamped) |
| Progress.InitializeEffect | Runtime/Utilities/TaskProgress.cs:18-24 | Initialize activates, sets the title, resets the fraction to 0 and keeps the old description |
| Progress.InactiveUpdatesIgnored | Runtime/Utilities/TaskProgress.cs:31-53 | while inactive, Update and UpdateBatch leave the state unchanged |
| Progress.ActiveUpdate | Runtime/Utilities/TaskProgress.cs:31-38 | an active Update stores the description, keeps the bar active and the fraction in [0, 1] |
| Progress.ActiveBatchUpdate | Runtime/Utilities/TaskProgress.cs:46-53 | an active UpdateBatch with positive total shows the clamped ratio and "Processing name (index+1/total)...", keeping title and activity |
| Progress.CompleteEffect | Runtime/Utilities/TaskProgress.cs:58-65 | Complete always leaves the bar inactive, resets the fraction only when it was active, is a no-op when inactive, and is idempotent |
| Progress.HandleErrorEffect | Runtime/Utilities/TaskProgress.cs:98-106 | HandleError only clears the active flag; fraction, title and description stay |
| Progress.ReplayAppend | Runtime/Utilities/TaskProgress.cs:9-12 | the static state after two call sequences is the state after the first, then the second |
| Progress.ReplayInRange | Runtime/Utilities/TaskProgress.cs:31-53 | no sequence of calls moves the fraction out of [0, 1] |
| Progress.InactiveAfterComplete | Runtime/Utilities/TaskProgress.cs:58-65 | after Complete, any calls other than Initialize leave the bar inactive |
| Progress.StaysInactive | Runtime/Utilities/TaskProgress.cs:31-65 | without Initialize an inactive bar never changes |
| Progress.TaskProgress.constructor | Runtime/Utilities/TaskProgress.cs:9-12 | the initial fields: title "Progress", empty description, 0, inactive |
| Progress.TaskProgress.Initialize | Runtime/Utilities/TaskProgress.cs:18-24 | the fields after the call are the Initialize transition of the fields before |
| Progress.TaskProgress.Update | Runtime/Utilities/TaskProgress.cs:31-38 | the fields after the call are the Update transition (ignored while inactive) |
| Progress.TaskProgress.UpdateBatch | Runtime/Utilities/TaskProgress.cs:46-53 | the fields after the call are the UpdateBatch transition: clamped fraction and 1-based counter text |
| Progress.TaskProgress.Complete | Runtime/Utilities/TaskProgress.cs:58-65 | the fields after the call are the Complete transition |
| Progress.TaskProgress.HandleError | Runtime/Utilities/TaskProgress.cs:98-106 | the fields after the call are the HandleError transition |
| Progress.TaskProgress.Perform | Runtime/Utilities/TaskProgress.cs:18-65 | any recorded progress call performed on the fields is its transition |
| Paths.Parent | Runtime/Decompiler/FileProcessor.cs:26 | Path.GetDirectoryName: the parent plus the file name gives back the path |
| Paths.StripExtension | Runtime/Decompiler/FileProcessor.cs:20 | Path.GetFileNameWithoutExtension: a prefix of the name ending just before its last '.', the whole name when it has none |
| FileSystem.DeleteTree | Runtime/Decompiler/FileProcessor.cs:31 | recursive Directory.Delete removes exactly the directory and everything beneath it |
| FileSystem.DeleteTreeIdempotent | Runtime/Decompiler/FileProcessor.cs:42-47 | deleting a tree twice is deleting it once |
| FileSystem.CreatedWellFormed | Runtime/Decompiler/FileProcessor.cs:23-24 | Directory.CreateDirectory makes every missing ancestor, so no entry is left without its directory |
| FileSystem.DeleteTreeWellFormed | Runtime/Decompiler/FileProcessor.cs:31 | a recursive delete leaves no entry without its directory |
| FileSystem.NothingUnderMissing | Runtime/Decompiler/FileProcessor.cs:45 | on a well-formed disk nothing lies beneath a directory that does not exist |
| DiskSpaceChecker.Sizes | Forge.Utilities/DiskSpaceChecker.cs:20 | one size per input file, in input order |
| DiskSpaceChecker.SumAppend | Forge.Utilities/DiskSpaceChecker.cs:20 | the total of a concatenation is the sum of the totals |
| DiskSpaceChecker.Boundary | Forge.Utilities/DiskSpaceChecker.cs:21-26 | free space of exactly twice the total passes, one byte less fails |
| DiskSpaceChecker.EmptyIsSufficient | Forge.Utilities/DiskSpaceChecker.cs:18-27 | no input files pass with any non-negative free space |
| DiskSpaceChecker.MonotoneInSpace | Forge.Utilities/DiskSpaceChecker.cs:26 | more free space never turns a pass into a failure |
| DiskSpaceChecker.MonotoneInFiles | Forge.Utilities/DiskSpaceChecker.cs:20-26 | adding a file anywhere never turns a failure into a pass |
| DiskSpaceChecker.SumPermutation | Forge.Utilities/DiskSpaceChecker.cs:22 | any reordering of the files (equal multisets of sizes) has the same total size |
| DiskSpaceChecker.OrderIrrelevant | Forge.Utilities/DiskSpaceChecker.cs:20-26 | the verdict depends only on which files are given: two lists that are permutations of each other get the same verdict |
| Sweep.Targets | Runtime/Decompiler/Modules/XMB.cs:21 | the enumerated files are exactly the existing files strictly beneath the root that match the artifact's pattern |
| Sweep.Remaining | Runtime/Decompiler/Modules/XMB.cs:26 | after deleting the targets no target is left, and remaining plus targets is the old file set |
| Sweep.SweepIdempotent | Runtime/Decompiler/Modules/XMB.cs:19-29 | a second sweep finds zero files and changes nothing |
| Sweep.SweepsCommute | Forge.Decompiler/Decompiler.cs:57-66 | the xmb, eradef and font sweeps give the same tree in any order |
| Sweep.XmbEraDefDisjoint | Runtime/Decompiler/Modules/ERADEF.cs:21 | no file is both an xmb and an eradef target |
| Sweep.FontMatchIsCaseSensitive | Forge.Decompiler/Modules/FONTS.cs:24 | the font filter is a case-sensitive suffix test: ".ttf"/".ttc" match, ".TTF" does not |
| Sweep.RemoveMatching | Runtime/Decompiler/Modules/XMB.cs:19-29 | deletes exactly the targets, keeps every directory, returns the count enumerated before deleting |
| Xmb.RemoveAll | Runtime/Decompiler/Modules/XMB.cs:19-29 | deletes every *.xmb beneath the directory and nothing else; returns their number |
| EraDef.RemoveAll | Runtime/Decompiler/Modules/ERADEF.cs:19-29 | deletes every *.eradef beneath the directory and nothing else; returns their number |
| Fonts.RemoveAllFonts | Forge.Decompiler/Modules/FONTS.cs:21-33 | deletes every file beneath the directory whose path ends in .ttf or .ttc, nothing else; returns their number |
| Events.SweepStep | Runtime/Decompiler/Modules/XMB.cs:21-28 | a sweep keeps directories, leaves no target, and logs the number of targets it found |
| ConfigStore.Store.Write | Runtime/Decompiler/DecompilationConfig.cs:45-48 | after saving, the directory exists and the file holds the configuration |
| ConfigStore.Store.EnsureDirectory | Runtime/Decompiler/DecompilationConfig.cs:28-29 | the directory exists afterwards and the file is untouched |
| RuntimeConfig.DefaultThreadCount | Runtime/Decompiler/DecompilationConfig.cs:56-59 | the default thread count is at least 1 and at least half the processors, and is one of the two |
| RuntimeConfig.Loaded | Runtime/Decompiler/DecompilationConfig.cs:26-38 | a stored configuration is returned as is; without one, the defaults with the default thread count (>= 1) |
| RuntimeConfig.LoadTwice | Runtime/Decompiler/DecompilationConfig.cs:26-38 | loading after a load returns the same configuration whatever the processor count is then |
| RuntimeConfig.DecompilationConfig.constructor | Runtime/Decompiler/DecompilationConfig.cs:17-20 | a new configuration has every switch on and thread count 0 |
| RuntimeConfig.DecompilationConfig.SaveConfig | Runtime/Decompiler/DecompilationConfig.cs:43-50 | the store holds exactly this configuration afterwards |
| RuntimeConfig.LoadConfig | Runtime/Decompiler/DecompilationConfig.cs:26-38 | returns a fresh configuration equal to Loaded of what was stored; the store then holds it, and an existing file is not rewritten |
| ForgeConfig.Loaded | Forge.Decompiler/DecompilationConfig.cs:35-47 | a stored configuration is returned as is; without one, the defaults (DDS conversion on) with the same default thread count as the runtime package (lines 65-68) |
| ForgeConfig.LoadTwice | Forge.Decompiler/DecompilationConfig.cs:35-47 | loading after a load returns the same configuration |
| ForgeConfig.DecompilationConfig.constructor | Forge.Decompiler/DecompilationConfig.cs:16-29 | a new configuration has all four switches on and thread count 0 |
| ForgeConfig.DecompilationConfig.Save | Forge.Decompiler/DecompilationConfig.cs:52-59 | the store holds exactly this configuration afterwards |
| ForgeConfig.Load | Forge.Decompiler/DecompilationConfig.cs:35-47 | returns a fresh configuration equal to Loaded of what was stored; the store then holds it, and an existing file is not rewritten |
| FileProcessor.BuildArgumentsReadBack | Runtime/Decompiler/FileProcessor.cs:57-60 | the command line reads back as exactly the six intended arguments (--env, --tool, --mode, --path, --name, --out) when the names hold no space or quote |
| FileProcessor.ExpandIsBuildArguments | Runtime/Decompiler/FileProcessor.cs:69-72 | the expand command is the general command with mode "expand" and path `Path.Combine(tempDir, name)`: `<tempDir>\<name>`, or `<tempDir>` itself for an empty name |
| FileProcessor.TempDir | Runtime/Decompiler/FileProcessor.cs:20-21 | each file's temp directory is at or beneath the temp root and strictly beneath the output root; it is the temp root itself exactly when the name without extension is empty (Path.Combine drops an empty segment) |
| FileProcessor.EmptyNameSharesTempRoot | Runtime/Decompiler/FileProcessor.cs:20-33 | for a file named `.era`, decrypt writes into `<output>\temp`, the expected output is `<output>\temp\.era.bin`, and a decrypt that produces nothing deletes the whole temp root |
| FileProcessor.Prepared | Runtime/Decompiler/FileProcessor.cs:23-24 | before decrypting, the file's temp directory exists; no file changes and no directory is lost |
| FileProcessor.Stage | Runtime/Decompiler/FileProcessor.cs:18-36 | decrypt runs first with the file's own temp directory as output; expand runs as the second call exactly when `<name>.era.bin` appeared there |
| FileProcessor.StageWellFormed | Runtime/Decompiler/FileProcessor.cs:18-36 | with a tool whose runs keep the disk well formed, processing a file keeps it well formed |
| FileProcessor.StageDisk | Runtime/Decompiler/FileProcessor.cs:18-36 | when expand runs the file's temp directory is kept; when it does not, nothing at or under that temp directory remains (the whole temp root, for an empty name); nothing outside it is deleted |
| FileProcessor.StageUsesToolPath | Runtime/Decompiler/FileProcessor.cs:26-35 | both runs use the caller's tool path and run in the tool's directory |
| FileProcessor.DecryptCallReadBack | Runtime/Decompiler/FileProcessor.cs:26 | the decrypt run reads the file's directory and writes into the file's temp directory |
| FileProcessor.ExpandCallReadBack | Runtime/Decompiler/FileProcessor.cs:35 | the expand run reads `Path.Combine(tempDir, name)` and writes into the output root |
| FileProcessor.ProcessEraFile | Runtime/Decompiler/FileProcessor.cs:18-36 | changes the disk and makes the tool runs that Stage describes |
| FileProcessor.TempFoldersDeleted | Runtime/Decompiler/FileProcessor.cs:42-47 | the temp root is deleted when it exists, otherwise nothing changes; it is absent afterwards and nothing outside it is lost |
| FileProcessor.TempFoldersCleared | Runtime/Decompiler/FileProcessor.cs:42-47 | on a well-formed disk, afterwards no directory is at or beneath the temp root and no file beneath it, whether or not the root existed |
| FileProcessor.DeleteTempFoldersIdempotent | Runtime/Decompiler/FileProcessor.cs:42-47 | a second DeleteTempFolders changes nothing |
| FileProcessor.DeleteTempFolders | Runtime/Decompiler/FileProcessor.cs:42-47 | the disk afterwards is TempFoldersDeleted of the disk before |
| PhxToolHandler.GetToolPath | Runtime/Decompiler/PhxToolHandler.cs:17-28 | the asset copy if it exists, else the package copy if it exists, else empty; a non-empty result exists |
| PhxToolHandler.CandidatesDiffer | Runtime/Decompiler/PhxToolHandler.cs:19-22 | the asset and package candidates are different paths, so the preference order matters |
| PhxToolHandler.Invocation | Runtime/Decompiler/PhxToolHandler.cs:38-47 | the process starts the given tool with the arguments verbatim, in the tool's own directory |
| PhxToolHandler.RunPhxTool | Runtime/Decompiler/PhxToolHandler.cs:36-53 | records that invocation and adds what the tool creates to the disk |
| Batches.WithOutput | Runtime/Decompiler/Decompiler.cs:33-37 | the output directory exists afterwards; files unchanged, no directory lost |
| Batches.CountReportUpdates | Runtime/Decompiler/Decompiler.cs:82-85 | every running-count report is a defined UpdateBatch (the count is never 0) |
| Batches.Reports | Runtime/Decompiler/Decompiler.cs:103-106 | one report per file of the batch, the k-th for the k-th file |
| Batches.BatchFiles | Runtime/Decompiler/Decompiler.cs:99-107 | a batch processes exactly the files of its order, each once, in that order |
| Batches.BatchReports | Runtime/Decompiler/Decompiler.cs:99-107 | the progress calls of a batch are its reports, one per file, in order |
| Batches.BatchKeepsOutside | Runtime/Decompiler/Decompiler.cs:99-107 | a batch of stages that keep everything outside the temp root keeps it too |
| Batches.StepsTrace | Runtime/Decompiler/Decompiler.cs:56-60 | each cleanup step runs once, in order, and logs one event |
| Batches.StepsDisk | Runtime/Decompiler/Decompiler.cs:56-60 | the sweeps keep every directory and delete exactly the files they target |
| Batches.CleanupTrace | Runtime/Decompiler/Decompiler.cs:54-62 | the end of a run is the temp-root deletion, one event per step, then Complete |
| Batches.CleanupDisk | Runtime/Decompiler/Decompiler.cs:54-62 | afterwards the temp root is gone and no requested target is left; a file stays exactly when it was outside the temp root and untargeted |
| Batches.PipelineFiles | Runtime/Decompiler/Decompiler.cs:47-62 | a run past the guards processes exactly the files of its order, once each |
| Batches.PipelineCalls | Runtime/Decompiler/Decompiler.cs:47-62 | its progress calls are Initialize, one report per file, Complete |
| Batches.PipelineCleanup | Runtime/Decompiler/Decompiler.cs:54-62 | it runs exactly the requested cleanup steps; the temp root goes after the last file and before the first sweep; Complete is last |
| Batches.BatchWellFormed | Runtime/Decompiler/Decompiler.cs:47-52 | stages that keep the disk well formed keep it so over a whole batch |
| Batches.CleanupClearsTemp | Runtime/Decompiler/Decompiler.cs:54-62 | on a well-formed disk the cleanup leaves nothing at or beneath the temp root, and the disk stays well formed |
| Batches.PipelineDisk | Runtime/Decompiler/Decompiler.cs:47-62 | no temp root and no requested target is left; everything outside the temp root survives unless a sweep targets it; from a well-formed disk, with stages that keep it so, nothing is left beneath the temp root |
| Batches.UpdatesKeepActive | Runtime/Utilities/TaskProgress.cs:46-53 | UpdateBatch calls keep an active bar active with its title |
| Batches.PipelineProgress | Runtime/Decompiler/Decompiler.cs:47-62 | whatever state the bar starts in, a run past the guards leaves it inactive at 0 with the run's title |
| RuntimeDecompiler.DegreeZeroOnOneProcessor | Runtime/Decompiler/Decompiler.cs:73 | with no configured count, a single-processor machine asks Parallel.ForEach for degree 0 |
| RuntimeDecompiler.SavedDefaultsNeverRejected | Runtime/Decompiler/Decompiler.cs:73 | a configuration created by LoadConfig never asks for degree 0, on any machine |
| RuntimeDecompiler.EraStageKeepsOutside | Runtime/Decompiler/FileProcessor.cs:18-36 | a per-file stage deletes nothing outside the temp root |
| RuntimeDecompiler.Session | Runtime/Decompiler/Decompiler.cs:23-64 | every progress call a run makes is defined |
| RuntimeDecompiler.ToolGuard | Runtime/Decompiler/Decompiler.cs:27-31 | the run stops first exactly when the tool path is empty or missing, and then touches nothing and reports nothing |
| RuntimeDecompiler.SpaceGuard | Runtime/Decompiler/Decompiler.cs:39-44 | with the tool present, the run stops exactly when space is short, after making the output directory, with Complete as its only progress call and no file processed |
| RuntimeDecompiler.DegreeGuard | Runtime/Decompiler/Decompiler.cs:47-52 | past both guards, parallel mode with degree 0 stops after Initialize: no file, no cleanup, and the bar stays active |
| RuntimeDecompiler.FinishedUnfold | Runtime/Decompiler/Decompiler.cs:23-64 | a finished run passed the three guards and is the shared pipeline over its processing order |
| RuntimeDecompiler.FinishedFiles | Runtime/Decompiler/Decompiler.cs:49-52 | a finished run processes every file once: in input order when sequential, in completion order when parallel |
| RuntimeDecompiler.FinishedReports | Runtime/Decompiler/Decompiler.cs:47-62 | a finished run reports Initialize, one running-count report per processed file, then Complete |
| RuntimeDecompiler.CountedReports | Runtime/Decompiler/Decompiler.cs:80-85 | in any finishing order, the k-th processed file reports UpdateBatch(n, its name, k) |
| RuntimeDecompiler.FinishedCleanup | Runtime/Decompiler/Decompiler.cs:54-62 | xmb is swept iff asked, then eradef iff asked; the temp root goes first and Complete last |
| RuntimeDecompiler.FinishedProgress | Runtime/Decompiler/Decompiler.cs:47-62 | a finished run leaves the bar inactive at 0 with the title "Decompiling ERA's" |
| RuntimeDecompiler.EraStageKeepsWellFormed | Runtime/Decompiler/FileProcessor.cs:18-36 | with a tool whose runs keep the disk well formed, every per-file stage keeps it well formed |
| RuntimeDecompiler.FinishedDisk | Runtime/Decompiler/Decompiler.cs:33-60 | the output directory exists, the temp root is gone, requested sweeps left no target, and everything outside the temp root survives unless swept; from a well-formed disk nothing is left beneath the temp root |
| RuntimeDecompiler.ReportDescriptionOvershoots | Runtime/Decompiler/Decompiler.cs:82-85 | since UpdateBatch adds 1 to an already 1-based count, the report after the k-th file reads "(k+1/n)" and the last one "(n+1/n)" |
| RuntimeDecompiler.ProcessFilesSequentially | Runtime/Decompiler/Decompiler.cs:95-108 | processes the files in input order, each followed by its running-count report, and the bar replays those reports |
| RuntimeDecompiler.ProcessFilesInParallel | Runtime/Decompiler/Decompiler.cs:71-88 | refused before any file exactly when the degree is 0; otherwise the batch over the completion order with the shared counter |
| RuntimeDecompiler.FromEra | Runtime/Decompiler/Decompiler.cs:23-64 | outcome, disk and trace are those of Session; the bar ends at the replay of the trace's progress calls |
| RuntimeDecompiler.CleanUp | Runtime/Decompiler/Decompiler.cs:54-62 | the disk and events are the shared cleanup of the requested sweeps; the bar is completed |
| ForgeDecompiler.MaxParallelismZero | Forge.Decompiler/Decompiler.cs:47-49 | maxParallelism is never negative, and is 0 exactly in parallel mode with no configured count on one processor (nothing clamps it) |
| ForgeDecompiler.SubmittedReportUpdates | Forge.Decompiler/Decompiler.cs:85 | each task's report (index 1) is defined whatever maxParallelism is |
| ForgeDecompiler.Session | Forge.Decompiler/Decompiler.cs:23-73 | every progress call a run makes is defined |
| ForgeDecompiler.SpaceGuard | Forge.Decompiler/Decompiler.cs:33-38 | the run stops exactly when space is short, after making the output directory, with Complete as its only progress call and no file processed |
| ForgeDecompiler.FinishedFiles | Forge.Decompiler/Decompiler.cs:52-53 | a finished run hands every input file to the file processor exactly once |
| ForgeDecompiler.FinishedReports | Forge.Decompiler/Decompiler.cs:44-68 | a finished run reports Initialize, one report per task as it finishes, then Complete |
| ForgeDecompiler.SubmittedReports | Forge.Decompiler/Decompiler.cs:81-86 | every report passes index 1 and total maxParallelism, not a running count or the file count |
| ForgeDecompiler.ProgressNeverAdvances | Forge.Decompiler/Decompiler.cs:81-86 | after any number of reports the fraction is still that of 1/maxParallelism and the text reads "(2/maxParallelism)" |
| ForgeDecompiler.FinishedCleanup | Forge.Decompiler/Decompiler.cs:55-68 | xmb iff asked, eradef iff asked, DDX iff asked, then always fonts; the temp root goes first and Complete last |
| ForgeDecompiler.FinishedProgress | Forge.Decompiler/Decompiler.cs:44-68 | a finished run leaves the bar inactive at 0 with the title "Decompiling ERA's" |
| ForgeDecompiler.FinishedDisk | Forge.Decompiler/Decompiler.cs:27-66 | for a file processor that deletes nothing outside the temp root: the output directory exists, no temp root and no font file is left, requested sweeps left no target, everything else outside the temp root survives; from a well-formed disk, with a processor that keeps it so, nothing is left beneath the temp root |
| ForgeDecompiler.ProcessFileAsync | Forge.Decompiler/Decompiler.cs:81-86 | the disk becomes what the file processor makes of it, its tool runs are recorded, then UpdateBatch(maxParallelism, its name, 1) is applied to the bar |
| ForgeDecompiler.ProcessFilesSequentially | Forge.Decompiler/Decompiler.cs:93-106 | processes the files in input order, each followed by its running-count report |
| ForgeDecompiler.AwaitAll | Forge.Decompiler/Decompiler.cs:52-53 | the tasks, taken in the order they finish, are the batch over that order with the index-1 reports |
| ForgeDecompiler.FromEra | Forge.Decompiler/Decompiler.cs:23-73 | outcome, disk and trace are those of Session; the bar ends at the replay of the trace's progress calls |
| ForgeDecompiler.CleanUp | Forge.Decompiler/Decompiler.cs:55-68 | the disk and events are the shared cleanup of the optional steps followed by the font sweep; the bar is completed |
| ForgeDecompiler.OptionalCleanUp | Forge.Decompiler/Decompiler.cs:57-64 | runs the xmb sweep, eradef sweep and DDX conversion that the settings ask for, in that order, keeping the output directory |
| ForgePhxToolHandler.ResourceFileNameStrips | Forge.Decompiler/PhxToolHandler.cs:45 | dropping the first two dot-separated segments gives back the rest of the resource name |
| ForgePhxToolHandler.ResourceFileNameShort | Forge.Decompiler/PhxToolHandler.cs:45 | a name with at most one dot maps to the empty file name |
| ForgePhxToolHandler.ToolResourceName | Forge.Decompiler/PhxToolHandler.cs:43-45 | the resource "Forge.Tools.PhxTool.exe" is a binary and is written as PhxTool.exe |
| ForgePhxToolHandler.CopyAllWrites | Forge.Decompiler/PhxToolHandler.cs:41-60 | the copy loop throws exactly when a binary resource with a stream has an empty name; otherwise it writes one file per extracted resource and nothing else |
| ForgePhxToolHandler.Extract | Forge.Decompiler/PhxToolHandler.cs:25-80 | the returned path is empty or the tool path, and a returned tool path exists |
| ForgePhxToolHandler.ExtractPresent | Forge.Decompiler/PhxToolHandler.cs:27-28 | an already extracted tool is returned without writing anything |
| ForgePhxToolHandler.ExtractFinds | Forge.Decompiler/PhxToolHandler.cs:33-75 | otherwise the tool path is returned exactly when nothing throws and some extracted resource is named PhxTool.exe; extraction only adds |
| ForgePhxToolHandler.ExtractPhxTool | Forge.Decompiler/PhxToolHandler.cs:25-80 | the disk afterwards and the returned path are those Extract gives |
| ForgePhxToolHandler.RunOnce | Forge.Decompiler/PhxToolHandler.cs:86-107 | no process starts exactly when extraction gives no tool; otherwise the extracted tool starts on the arguments in the extraction directory |
| ForgePhxToolHandler.RunPhxToolAsync | Forge.Decompiler/PhxToolHandler.cs:86-149 | the disk afterwards and the process started are those RunOnce gives |
| ForgePhxToolHandler.RunAll | Forge.Decompiler/PhxToolHandler.cs:163-176 | at most one process per argument string |
| ForgePhxToolHandler.RunAllStartsEach | Forge.Decompiler/PhxToolHandler.cs:163-176 | once the tool is extracted, every argument string is run exactly once, in order, by that tool |
| ForgePhxToolHandler.RunMultiplePhxToolsAsync | Forge.Decompiler/PhxToolHandler.cs:156-177 | a degree below 1 is rejected before anything runs; otherwise the runs are those of every argument string in lock order |
| LegacyDecompiler.SharedStage | Core/Decompiler.cs:35-57 | decrypt into the shared temp runs first; expand runs as the second call exactly when `<name>.era.bin` appeared there |
| LegacyDecompiler.SharedStageDisk | Core/Decompiler.cs:35-57 | without `<name>.era.bin` the run stops with the shared temp directory left in place; after expand nothing under the shared temp remains; nothing outside it is deleted |
| LegacyDecompiler.StageRecorded | Core/Decompiler.cs:35-57 | one file's trace entry names that file and its decrypt (and any expand) run |
| LegacyDecompiler.RunFilesLast | Core/Decompiler.cs:23-30 | the loop over one more file extends the earlier trace by exactly that file's record |
| LegacyDecompiler.ProcessEraFile | Core/Decompiler.cs:35-57 | changes the disk and makes the tool runs that SharedStage describes |
| LegacyDecompiler.ToolGuard | Core/Decompiler.cs:17-18 | without the tool nothing happens: no directory, no run, no file |
| LegacyDecompiler.RunFilesInOrder | Core/Decompiler.cs:23-30 | every file is processed once, in input order |
| LegacyDecompiler.RunFilesCalls | Core/Decompiler.cs:23-57 | each file is recorded with its decrypt run into the shared temp and, when there is a second run, its expand run |
| LegacyDecompiler.RunFilesKeepsOutside | Core/Decompiler.cs:35-57 | nothing outside the shared temp directory is ever deleted |
| LegacyDecompiler.TempLeftByLastFile | Core/Decompiler.cs:48-56 | the temp directory remains after the run exactly when the last file found no intermediate |
| LegacyDecompiler.OutputKept | Core/Decompiler.cs:20-21 | a run past the guard leaves the output directory in place |
| LegacyDecompiler.ProcessFiles | Core/Decompiler.cs:23-30 | the loop's disk and trace are RunFiles over the files |
| LegacyDecompiler.FromEra | Core/Decompiler.cs:15-33 | the disk and trace are those of Session: the guard, the output directory, then the loop |
| LegacyDecompiler.CoreFromEra | Core/Decompiler.cs:13-33 | a run with the tool fixed to the asset copy |
| LegacyDecompiler.RuntimeFromEra | Runtime/Decompiler.cs:5-48 | a run with the tool chosen once at class load by GetToolPath: asset copy, else package copy, else none |

## Left out

- Forge.Decompiler/FileProcessor.cs is not part of this model. The Forge decompiler's per-file work is therefore a caller-supplied stage (`Host.stage`): any change to the disk, with the tool runs it makes. Nothing is assumed of it except where a lemma says so.
- ForgeDecompiler.FromEra and ForgeDecompiler.FinishedDisk: require that the unseen Forge file processor deletes nothing outside `<output>/temp`. The sweeps enumerate the output directory, so it must survive the batch; without the processor's source this is an assumption, not a proved fact.
- The Forge versions of FileProcessor.DeleteTempFolders, XMB.RemoveAll, ERADEF.RemoveAll and TaskProgress, which Forge.Decompiler/Decompiler.cs:36-68 calls, are not part of this model. The Forge decompiler is modelled with the runtime package's versions of them: Runtime/Decompiler/FileProcessor.cs:42-47, Runtime/Decompiler/Modules/XMB.cs, Runtime/Decompiler/Modules/ERADEF.cs and Runtime/Utilities/TaskProgress.cs.
- PhxToolHandler.GetToolPath: requires the data path to have at least two segments, because `Directory.GetParent` returning null at a drive root is not modelled.
- FileProcessor.BuildArgumentsReadBack: the argument reader it is proved against (`CommandLine.Arguments`) splits on spaces and strips quotes, but leaves out the Windows rule that backslashes before a quote escape it. Under that rule a quoted path ending in `\` does not read back: the directory of a file at a drive root (`D:\`) gives `--path="D:\"`, whose closing quote is escaped. The read-back lemmas hold for the simplified reader only.
- Disk claims that nothing remains beneath the temp root assume a well-formed disk (`FileSystem.WellFormed`) and a tool or file processor that keeps it so. A disk that holds a file whose directory is missing is not a state a real drive reaches.
- The tool's own behaviour (what decrypt and expand write) is a parameter: the tool only adds files and directories. Exit codes and standard output are not modelled, and a failed `Process.Start` is not modelled.
- Concurrency: `Parallel.ForEach`, `Task.WhenAll`, the semaphores and `Interlocked.Increment` are modelled by one sequential order. That order is a permutation of the inputs, supplied by the caller (`completionOrder`, `order`). Interleavings inside a file's processing and races between tasks are not modelled.
- The parallel deletes inside the sweeps (degree 4) are modelled as deleting the enumerated set.
- Logging (`Logger.Log`, `Debug.Log`) is not modelled; the sweeps return the count they would log.
- UI effects are not modelled: `EditorUtility.DisplayProgressBar`, `ClearProgressBar`, `EditorApplication.delayCall`, `EditorPrefs`, `AssetDatabase` editing and refresh. The display calls the legacy decompilers make (they have no TaskProgress) are also left out.
- `CustomAssetImporter` in Forge.Decompiler/Decompiler.cs is not part of this model.
- Progress.BatchFraction: requires that total and index are not both 0; the source's 0/0 gives NaN, and NaN is not modelled. Floats are modelled as exact reals.
- DiskSpaceChecker.HasSufficientDiskSpace: sizes and free space are unbounded integers, so `long` overflow of the total or of twice the total is not modelled. File sizes and the drive's free space are inputs.
- Sweep.RemoveMatching: requires the root to exist. Enumerating a missing directory throws, and that exception is not modelled.
- Sweep.Matches, ForgePhxToolHandler.IsBinaryResource and Text.EndsWith: the one-argument `String.EndsWith(string)` the source calls compares with the current culture. It is modelled as exact comparison of characters. Both are case-sensitive, but the culture comparison skips ignorable code points (a path ending in `.ttf` followed by a soft hyphen passes the font filter), and the model does not.
- Sweep.Matches uses the final name segment for `*.xmb` / `*.eradef`. The Windows wildcard quirks (three-letter extension matching, 8.3 names) and case-insensitive matching are not modelled.
- RuntimeDecompiler.FromEra: requires a non-empty output path. `Directory.CreateDirectory("")` throws, and that exception is not modelled.
- ForgeDecompiler.FromEra: requires a non-empty output path, for the same reason.
- LegacyDecompiler.RuntimeFromEra: requires the data path to have a parent, because `Directory.GetParent` returning null is not modelled. The static tool path, fixed when the class loads, is the `filesAtLoad` parameter.
- Exceptions are modelled only for the two cases that change the outcome:
  - the refused parallel degree (`DegreeRejected`);
  - the extraction of a resource with an empty file name (`Faulty`).
  Other I/O exceptions are not modelled, such as access denied or a locked file.
- `DDX.ConvertAll` computes a `.dds` name per file and discards it, so it is modelled as a step that changes nothing.
- The configuration file formats (YAML in the runtime package, XML in the editor package) are not modelled. The store holds the values, and a malformed file is not modelled.
- `Path.GetTempPath()` and `Application.dataPath` are parameters.
- Resource names containing path separators are not distinguished from plain names.
- Path rendering uses `\` and does not normalise `..`, duplicate separators or drive roots.
- The project management, import and window code (ProjectManager, ProjectWindow, ImportWindow, Project) is not part of this model. It only calls the decompilers.
