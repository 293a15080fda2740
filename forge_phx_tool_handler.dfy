/**
 * The Forge copy of the tool handler (Forge.Decompiler/PhxToolHandler.cs):
 * the tool ships as embedded resources of the assembly, which
 * ExtractPhxToolAsync writes into `<temp>/PhxTool` the first time it is
 * needed; RunPhxToolAsync runs the extracted tool once, and
 * RunMultiplePhxToolsAsync runs it once per argument string. The system
 * temp directory is a parameter; the locks serialise every run, so the
 * runs are taken one after another in the order they get the lock.
 */
module ForgePhxToolHandler {
  import opened Wrappers
  import opened Paths
  import opened FileSystem
  import opened Text
  import PhxToolHandler

  /** An embedded resource: its manifest name, and whether GetManifestResourceStream returns a stream. */
  datatype Resource = Resource(name: string, hasStream: bool)

  /** `<temp>/PhxTool`. */
  function TempDirectory(tempPath: Path): Path {
    tempPath + ["PhxTool"]
  }

  /** `<temp>/PhxTool/PhxTool.exe`. */
  function ToolPath(tempPath: Path): Path {
    TempDirectory(tempPath) + ["PhxTool.exe"]
  }

  /** Only executables and libraries are extracted (a case-sensitive suffix test on the exact characters). */
  predicate IsBinaryResource(name: string) {
    EndsWith(name, ".exe") || EndsWith(name, ".dll")
  }

  /** The file name of a resource: its `.`-separated segments after the first two, joined with `.` again. */
  function ResourceFileName(name: string): string {
    var segments := Split(name, '.');
    if |segments| <= 2 then "" else Join(segments[2..], '.')
  }

  /** Dropping a namespace and a folder segment gives back the rest of the name unchanged. */
  lemma ResourceFileNameStrips(a: string, b: string, rest: string)
    requires '.' !in a && '.' !in b
    ensures ResourceFileName(a + "." + b + "." + rest) == rest
  {
    var name := a + "." + b + "." + rest;
    assert name == a + ['.'] + (b + ['.'] + rest);
    SplitFirst(a, '.', b + ['.'] + rest);
    SplitFirst(b, '.', rest);
    var segments := Split(name, '.');
    assert segments == [a, b] + Split(rest, '.');
    assert segments[2..] == Split(rest, '.');
    JoinSplit(rest, '.');
  }

  /** A name with at most one `.` has at most two segments, and maps to the empty name. */
  lemma ResourceFileNameShort(name: string)
    requires Count(name, '.') <= 1
    ensures ResourceFileName(name) == ""
  {
  }

  /** The tool's own resource, under its namespace and folder, is written as PhxTool.exe. */
  lemma ToolResourceName()
    ensures IsBinaryResource("Forge.Tools.PhxTool.exe")
    ensures ResourceFileName("Forge.Tools.PhxTool.exe") == "PhxTool.exe"
  {
    var rest := "PhxTool.exe";
    var name := "Forge" + "." + "Tools" + "." + rest;
    assert name == "Forge.Tools.PhxTool.exe";
    ResourceFileNameStrips("Forge", "Tools", rest);
    assert name[|name| - 4..] == rest[|rest| - 4..];
  }

  /** A resource whose contents are copied to a file. */
  predicate Extracts(r: Resource) {
    IsBinaryResource(r.name) && r.hasStream && ResourceFileName(r.name) != ""
  }

  /**
   * A resource that makes the extraction throw: with an empty file name the
   * target is the temp directory itself, which cannot be opened as a file.
   */
  predicate Faulty(r: Resource) {
    IsBinaryResource(r.name) && r.hasStream && ResourceFileName(r.name) == ""
  }

  /** What the copy loop leaves: the disk, and whether it stopped on an exception. */
  datatype Copy = Copy(disk: DiskState, failed: bool)

  /** The extraction loop over the resources from `rs` on, writing into `dir`. */
  function CopyAll(d: DiskState, dir: Path, rs: seq<Resource>): Copy
    decreases |rs|
  {
    if rs == [] then Copy(d, false)
    else if Faulty(rs[0]) then Copy(d, true)
    else if Extracts(rs[0]) then
      CopyAll(DiskState(d.dirs, d.files + {dir + [ResourceFileName(rs[0].name)]}), dir, rs[1..])
    else CopyAll(d, dir, rs[1..])
  }

  /** The files a copy loop that does not fail writes. */
  function WrittenFiles(dir: Path, rs: seq<Resource>): set<Path> {
    set r | r in rs && Extracts(r) :: dir + [ResourceFileName(r.name)]
  }

  /**
   * The loop fails exactly when some resource is faulty. When none is, it
   * writes one file per extracted resource, skipping the ones without a
   * stream and the ones that are not binaries, and changes nothing else.
   */
  lemma {:induction false} CopyAllWrites(d: DiskState, dir: Path, rs: seq<Resource>)
    ensures var c := CopyAll(d, dir, rs);
      && (c.failed <==> exists r :: r in rs && Faulty(r))
      && c.disk.dirs == d.dirs && d.files <= c.disk.files
      && (!c.failed ==> c.disk.files == d.files + WrittenFiles(dir, rs))
    decreases |rs|
  {
    if rs != [] {
      var next := if Extracts(rs[0]) then DiskState(d.dirs, d.files + {dir + [ResourceFileName(rs[0].name)]}) else d;
      CopyAllWrites(next, dir, rs[1..]);
      assert rs == [rs[0]] + rs[1..];
      assert forall r :: r in rs <==> r == rs[0] || r in rs[1..];
      if !Faulty(rs[0]) && !CopyAll(d, dir, rs).failed {
        assert WrittenFiles(dir, rs)
            == (if Extracts(rs[0]) then {dir + [ResourceFileName(rs[0].name)]} else {}) + WrittenFiles(dir, rs[1..]);
      }
    }
  }

  /** The result of ExtractPhxToolAsync: the disk it leaves, and the tool path returned ([] is the empty string). */
  datatype Extraction = Extraction(disk: DiskState, toolPath: Path)

  /**
   * ExtractPhxToolAsync: the tool path straight away when the tool is
   * already there; otherwise make the directory, copy the resources, and
   * return the tool path if the tool file now exists, else the empty path;
   * an exception while copying also gives the empty path.
   */
  function Extract(d: DiskState, tempPath: Path, resources: seq<Resource>): (r: Extraction)
    ensures r.toolPath == [] || r.toolPath == ToolPath(tempPath)
    ensures r.toolPath != [] ==> r.toolPath in r.disk.files
  {
    if ToolPath(tempPath) in d.files then Extraction(d, ToolPath(tempPath))
    else
      var c := CopyAll(Created(d, TempDirectory(tempPath)), TempDirectory(tempPath), resources);
      if c.failed || ToolPath(tempPath) !in c.disk.files then Extraction(c.disk, [])
      else Extraction(c.disk, ToolPath(tempPath))
  }

  /** When the tool is already extracted, it is returned and nothing is written. */
  lemma ExtractPresent(d: DiskState, tempPath: Path, resources: seq<Resource>)
    requires ToolPath(tempPath) in d.files
    ensures Extract(d, tempPath, resources) == Extraction(d, ToolPath(tempPath))
  {
  }

  /**
   * Otherwise extraction returns the tool path exactly when no resource
   * makes the copy throw and one of the extracted resources is named
   * PhxTool.exe; it only ever adds files and directories.
   */
  lemma ExtractFinds(d: DiskState, tempPath: Path, resources: seq<Resource>)
    requires ToolPath(tempPath) !in d.files
    ensures var r := Extract(d, tempPath, resources);
      && d.files <= r.disk.files && d.dirs <= r.disk.dirs && TempDirectory(tempPath) in r.disk.dirs
      && (r.toolPath == ToolPath(tempPath)
          <==> (forall x :: x in resources ==> !Faulty(x))
               && exists x :: x in resources && Extracts(x) && ResourceFileName(x.name) == "PhxTool.exe")
  {
    var dir := TempDirectory(tempPath);
    var start := Created(d, dir);
    CopyAllWrites(start, dir, resources);
    var c := CopyAll(start, dir, resources);
    if !c.failed {
      assert ToolPath(tempPath) in c.disk.files
          <==> exists x :: x in resources && Extracts(x) && dir + [ResourceFileName(x.name)] == dir + ["PhxTool.exe"];
      forall x | x in resources
        ensures dir + [ResourceFileName(x.name)] == dir + ["PhxTool.exe"] <==> ResourceFileName(x.name) == "PhxTool.exe"
      {
        if dir + [ResourceFileName(x.name)] == dir + ["PhxTool.exe"] {
          assert (dir + [ResourceFileName(x.name)])[|dir|] == ResourceFileName(x.name);
        }
      }
    }
  }

  /** ExtractPhxToolAsync, with the resources of the executing assembly as a parameter. */
  method ExtractPhxTool(disk: Disk, tempPath: Path, resources: seq<Resource>) returns (toolPath: Path)
    modifies disk
    ensures Extraction(disk.State(), toolPath) == Extract(old(disk.State()), tempPath, resources)
  {
    var tool := ToolPath(tempPath);
    if tool in disk.files {
      return tool;
    }
    var directory := TempDirectory(tempPath);
    disk.CreateDirectory(directory);
    ghost var start := disk.State();
    for i := 0 to |resources|
      invariant CopyAll(disk.State(), directory, resources[i..]) == CopyAll(start, directory, resources)
    {
      var resource := resources[i];
      assert resources[i..][1..] == resources[i + 1..];
      if EndsWith(resource.name, ".exe") || EndsWith(resource.name, ".dll") {
        var fileName := ResourceFileName(resource.name);
        if !resource.hasStream {
          continue;
        }
        if fileName == "" {
          return [];
        }
        disk.WriteFile(directory + [fileName]);
      }
    }
    assert resources[|resources|..] == [];
    if tool !in disk.files {
      return [];
    }
    return tool;
  }

  /** One RunPhxToolAsync: the disk afterwards and the process started, if any. */
  datatype ToolRun = ToolRun(disk: DiskState, call: Option<PhxToolHandler.ToolCall>)

  /**
   * RunPhxToolAsync(arguments): extract the tool; with no tool, start
   * nothing; otherwise start it on the arguments verbatim in the
   * extraction directory. The exit code is not returned.
   */
  function RunOnce(d: DiskState, effect: PhxToolHandler.ToolEffect, tempPath: Path, resources: seq<Resource>,
                   arguments: string): (r: ToolRun)
    ensures Extract(d, tempPath, resources).toolPath == [] <==> r.call == None
    ensures r.call.Some? ==> r.call.value == PhxToolHandler.ToolCall(ToolPath(tempPath), arguments, TempDirectory(tempPath))
  {
    var e := Extract(d, tempPath, resources);
    if e.toolPath == [] then ToolRun(e.disk, None)
    else
      var call := PhxToolHandler.Invocation(e.toolPath, arguments);
      ToolRun(Grow(e.disk, effect(call)), Some(call))
  }

  /** RunPhxToolAsync. */
  method RunPhxToolAsync(disk: Disk, effect: PhxToolHandler.ToolEffect, tempPath: Path, resources: seq<Resource>,
                         arguments: string)
    returns (call: Option<PhxToolHandler.ToolCall>)
    modifies disk
    ensures ToolRun(disk.State(), call) == RunOnce(old(disk.State()), effect, tempPath, resources, arguments)
  {
    var toolPath := ExtractPhxTool(disk, tempPath, resources);
    if toolPath == [] {
      return None;
    }
    var started := PhxToolHandler.RunPhxTool(disk, effect, toolPath, arguments);
    return Some(started);
  }

  /** The runs of the argument strings in `order`, one after another; the processes started. */
  function RunAll(d: DiskState, effect: PhxToolHandler.ToolEffect, tempPath: Path, resources: seq<Resource>,
                  order: seq<string>): (r: (DiskState, seq<PhxToolHandler.ToolCall>))
    ensures |r.1| <= |order|
    decreases |order|
  {
    if order == [] then (d, [])
    else
      var before := RunAll(d, effect, tempPath, resources, order[..|order| - 1]);
      var run := RunOnce(before.0, effect, tempPath, resources, order[|order| - 1]);
      (run.disk, before.1 + (if run.call.Some? then [run.call.value] else []))
  }

  /** The runs of the first i + 1 strings: those of the first i, then string i on what they left. */
  lemma RunAllStep(d: DiskState, effect: PhxToolHandler.ToolEffect, tempPath: Path, resources: seq<Resource>,
                   order: seq<string>, i: nat)
    requires i < |order|
    ensures var before := RunAll(d, effect, tempPath, resources, order[..i]);
      var run := RunOnce(before.0, effect, tempPath, resources, order[i]);
      RunAll(d, effect, tempPath, resources, order[..i + 1]) == (run.disk, before.1 + (if run.call.Some? then [run.call.value] else []))
  {
    assert order[..i + 1][..i] == order[..i];
  }

  /**
   * Once the tool is there it stays there, so every argument string is run
   * exactly once, in the order given, by the same extracted tool.
   */
  lemma {:induction false} RunAllStartsEach(d: DiskState, effect: PhxToolHandler.ToolEffect, tempPath: Path,
                                            resources: seq<Resource>, order: seq<string>)
    requires ToolPath(tempPath) in d.files
    ensures var r := RunAll(d, effect, tempPath, resources, order);
      && ToolPath(tempPath) in r.0.files
      && |r.1| == |order|
      && forall k :: 0 <= k < |order| ==> r.1[k] == PhxToolHandler.ToolCall(ToolPath(tempPath), order[k], TempDirectory(tempPath))
    decreases |order|
  {
    if order != [] {
      var prefix := order[..|order| - 1];
      RunAllStartsEach(d, effect, tempPath, resources, prefix);
      var before := RunAll(d, effect, tempPath, resources, prefix);
      ExtractPresent(before.0, tempPath, resources);
    }
  }

  /** RunMultiplePhxToolsAsync: either rejected before anything runs, or the processes started. */
  datatype MultiRun = DegreeRejected | Ran(calls: seq<PhxToolHandler.ToolCall>)

  /**
   * RunMultiplePhxToolsAsync(argumentsList, maxDegreeOfParallelism): a
   * degree below 1 throws before anything runs; otherwise every argument
   * string is handed to RunPhxToolAsync once. The global execution lock
   * lets one run at a time whatever the degree, so `order`, a permutation
   * of the list, is the order the runs take the lock.
   */
  method RunMultiplePhxToolsAsync(disk: Disk, effect: PhxToolHandler.ToolEffect, tempPath: Path, resources: seq<Resource>,
                                  argumentsList: seq<string>, maxDegreeOfParallelism: int, order: seq<string>)
    returns (outcome: MultiRun)
    requires multiset(order) == multiset(argumentsList)
    modifies disk
    ensures maxDegreeOfParallelism < 1 ==> outcome == DegreeRejected && disk.State() == old(disk.State())
    ensures maxDegreeOfParallelism >= 1 ==>
      var r := RunAll(old(disk.State()), effect, tempPath, resources, order);
      outcome == Ran(r.1) && disk.State() == r.0
  {
    if maxDegreeOfParallelism < 1 {
      return DegreeRejected;
    }
    ghost var start := disk.State();
    var calls: seq<PhxToolHandler.ToolCall> := [];
    for i := 0 to |order|
      invariant RunAll(start, effect, tempPath, resources, order[..i]) == (disk.State(), calls)
    {
      RunAllStep(start, effect, tempPath, resources, order, i);
      ghost var before := disk.State();
      assert before == RunAll(start, effect, tempPath, resources, order[..i]).0;
      var call := RunPhxToolAsync(disk, effect, tempPath, resources, order[i]);
      ghost var run := RunOnce(before, effect, tempPath, resources, order[i]);
      assert disk.State() == run.disk && call == run.call;
      if call.Some? {
        calls := calls + [call.value];
      }
      assert RunAll(start, effect, tempPath, resources, order[..i + 1]).1 == calls;
    }
    assert order[..|order|] == order;
    return Ran(calls);
  }
}
