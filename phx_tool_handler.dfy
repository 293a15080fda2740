/**
 * Locating and running the PhxTool executable (Runtime/Decompiler/PhxToolHandler.cs).
 * A run of the tool is recorded as a `ToolCall`; what the run does to the
 * disk is a `ToolEffect`, supplied from outside the model, because the
 * decrypt/expand transformation itself lives behind the process boundary.
 */
module PhxToolHandler {
  import opened Paths
  import opened FileSystem

  /** One start of the external process. */
  datatype ToolCall = ToolCall(tool: Path, arguments: string, workingDirectory: Path)

  /** The files and directories a run of the tool creates. */
  type ToolEffect = ToolCall -> DiskState

  /** Every run of the tool creates files and directories only inside directories it creates or that exist. */
  ghost predicate EffectWellFormed(effect: ToolEffect) {
    forall c :: WellFormed(effect(c))
  }

  const ToolRelativePath: Path := ["com.kuru.forge", "Tools", "PhxTool", "PhxTool.exe"]

  /** `<dataPath>/com.kuru.forge/Tools/PhxTool/PhxTool.exe`, the local-development copy. */
  function AssetToolPath(dataPath: Path): Path {
    dataPath + ToolRelativePath
  }

  /** `<parent of dataPath>/Library/PackageCache/com.kuru.forge/Tools/PhxTool/PhxTool.exe`, the installed package copy. */
  function PackageToolPath(dataPath: Path): Path {
    Parent(dataPath) + ["Library", "PackageCache"] + ToolRelativePath
  }

  /**
   * GetToolPath: the asset copy when it exists, else the package copy when
   * that exists, else the empty path (the empty string of the source).
   * `dataPath` has a parent directory (Directory.GetParent is not null).
   */
  function GetToolPath(dataPath: Path, files: set<Path>): (r: Path)
    requires |dataPath| >= 2
    ensures AssetToolPath(dataPath) in files ==> r == AssetToolPath(dataPath)
    ensures AssetToolPath(dataPath) !in files && PackageToolPath(dataPath) in files ==> r == PackageToolPath(dataPath)
    ensures r == [] <==> AssetToolPath(dataPath) !in files && PackageToolPath(dataPath) !in files
    ensures r != [] ==> r in files
  {
    var assetPath := AssetToolPath(dataPath);
    var packagePath := PackageToolPath(dataPath);
    if assetPath in files then assetPath
    else if packagePath in files then packagePath
    else []
  }

  /** The two candidates are different files, so the preference order matters. */
  lemma CandidatesDiffer(dataPath: Path)
    requires |dataPath| >= 2
    ensures AssetToolPath(dataPath) != PackageToolPath(dataPath)
  {
    assert |AssetToolPath(dataPath)| + 1 == |PackageToolPath(dataPath)|;
  }

  /**
   * RunPhxTool: starts the tool with the arguments verbatim and the tool's
   * own directory as working directory, and waits for it to exit.
   */
  function Invocation(toolPath: Path, arguments: string): (c: ToolCall)
    ensures c.tool == toolPath && c.arguments == arguments
    ensures toolPath != [] ==> c.workingDirectory + [FileName(toolPath)] == toolPath
  {
    ToolCall(toolPath, arguments, Parent(toolPath))
  }

  method RunPhxTool(disk: Disk, effect: ToolEffect, toolPath: Path, arguments: string) returns (call: ToolCall)
    modifies disk
    ensures call == Invocation(toolPath, arguments)
    ensures disk.State() == Grow(old(disk.State()), effect(call))
  {
    call := ToolCall(toolPath, arguments, Parent(toolPath));
    disk.Apply(effect(call));
  }
}
