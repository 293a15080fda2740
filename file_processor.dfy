/**
 * The per-file stage (Runtime/Decompiler/FileProcessor.cs): make the
 * file's own temp directory `<output>/temp/<name>`, run the tool to
 * decrypt, and run it to expand only if `<name>.era.bin` appeared;
 * otherwise delete the temp directory. Also the deletion of the whole
 * temp root and the two argument builders.
 */
module FileProcessor {
  import opened Text
  import opened Paths
  import opened FileSystem
  import opened CommandLine
  import opened PhxToolHandler

  /** BuildArguments: the command line of one tool run. */
  function BuildArguments(mode: string, fileName: string, filePath: string, outputPath: string): string {
    "--env=phx --tool=era --mode=" + mode + " --path=\"" + filePath + "\" --name=" + fileName + " --out=\"" + outputPath + "\""
  }

  /** BuildExpandArguments: the expand command, reading `<tempDir>\<name>` (just `<tempDir>` for an empty name). */
  function BuildExpandArguments(fileNameWithoutExt: string, tempDir: Path, outputPath: Path): string {
    "--env=phx --tool=era --mode=expand --path=\"" + Render(Combine(tempDir, fileNameWithoutExt))
      + "\" --name=" + fileNameWithoutExt + " --out=\"" + Render(outputPath) + "\""
  }

  /** The six arguments the tool reads; the two paths are quoted, the mode and the name are not. */
  function ExpectedArguments(mode: string, fileName: string, filePath: string, outputPath: string): seq<string> {
    ["--env=phx", "--tool=era", "--mode=" + mode, "--path=" + filePath, "--name=" + fileName, "--out=" + outputPath]
  }

  /**
   * The argument string reads back as exactly the six intended arguments,
   * provided the unquoted fields hold no space or quote and the quoted
   * paths hold no quote.
   */
  lemma BuildArgumentsReadBack(mode: string, fileName: string, filePath: string, outputPath: string)
    requires Plain(mode) && Plain(fileName) && '"' !in filePath && '"' !in outputPath
    ensures Arguments(BuildArguments(mode, fileName, filePath, outputPath))
         == ExpectedArguments(mode, fileName, filePath, outputPath)
  {
    var tail5 := "--out=" + "\"" + outputPath + "\"";
    var tail4 := "--name=" + fileName + " " + tail5;
    var tail3 := "--path=" + "\"" + filePath + "\"" + " " + tail4;
    var tail2 := "--mode=" + mode + " " + tail3;
    var tail1 := "--tool=era" + " " + tail2;
    ShapeOfArguments(mode, fileName, filePath, outputPath);
    PlainWord("--env=phx", tail1);
    PlainWord("--tool=era", tail2);
    PlainWord("--mode=" + mode, tail3);
    QuotedWord("--path=", filePath, tail4);
    PlainWord("--name=" + fileName, tail5);
    QuotedWord("--out=", outputPath, "");
  }

  /** BuildArguments regrouped as the words the command-line reader sees. */
  lemma ShapeOfArguments(mode: string, fileName: string, filePath: string, outputPath: string)
    ensures BuildArguments(mode, fileName, filePath, outputPath)
         == "--env=phx" + " " + ("--tool=era" + " " + ("--mode=" + mode + " " + ("--path=" + "\"" + filePath + "\"" + " "
            + ("--name=" + fileName + " " + ("--out=" + "\"" + outputPath + "\"")))))
  {
    var t5 := "--out=" + "\"" + outputPath + "\"";
    var t4 := "--name=" + fileName + " " + t5;
    var t3 := "--path=" + "\"" + filePath + "\"" + " " + t4;
    var s5 := " --out=\"" + outputPath + "\"";
    var s4 := "\" --name=" + fileName + s5;
    var s3 := " --path=\"" + filePath + s4;
    TailShape(fileName, outputPath, t5, t4, s5, s4);
    MiddleShape(filePath, t4, t3, s4, s3);
    HeadShape(mode, t3, s3);
    RightNested(mode, fileName, filePath, outputPath);
  }

  lemma TailShape(fileName: string, outputPath: string, t5: string, t4: string, s5: string, s4: string)
    requires t5 == "--out=" + "\"" + outputPath + "\"" && t4 == "--name=" + fileName + " " + t5
    requires s5 == " --out=\"" + outputPath + "\"" && s4 == "\" --name=" + fileName + s5
    ensures s5 == " " + t5 && s4 == "\"" + " " + t4
  {
    assert " --out=\"" == " " + "--out=" + "\"";
    assert "\" --name=" == "\"" + " " + "--name=";
  }

  lemma MiddleShape(filePath: string, t4: string, t3: string, s4: string, s3: string)
    requires t3 == "--path=" + "\"" + filePath + "\"" + " " + t4
    requires s4 == "\"" + " " + t4 && s3 == " --path=\"" + filePath + s4
    ensures s3 == " " + t3
  {
    assert " --path=\"" == " " + "--path=" + "\"";
  }

  lemma HeadShape(mode: string, t3: string, s3: string)
    requires s3 == " " + t3
    ensures "--env=phx --tool=era --mode=" + mode + s3
         == "--env=phx" + " " + ("--tool=era" + " " + ("--mode=" + mode + " " + t3))
  {
    assert "--env=phx --tool=era --mode=" == "--env=phx" + " " + "--tool=era" + " " + "--mode=";
  }

  lemma RightNested(mode: string, fileName: string, filePath: string, outputPath: string)
    ensures BuildArguments(mode, fileName, filePath, outputPath)
         == "--env=phx --tool=era --mode=" + mode + (" --path=\"" + filePath + ("\" --name=" + fileName + (" --out=\"" + outputPath + "\"")))
  {
  }

  /** The expand command has the same shape as any other command. */
  lemma ExpandIsBuildArguments(name: string, tempDir: Path, outputPath: Path)
    ensures BuildExpandArguments(name, tempDir, outputPath)
         == BuildArguments("expand", name, Render(Combine(tempDir, name)), Render(outputPath))
  {
    var head := "--env=phx --tool=era --mode=";
    assert "--env=phx --tool=era --mode=expand --path=\"" == head + "expand" + " --path=\"";
  }

  /** `<output>/temp`, shared by all files of a batch. */
  function TempRoot(outputPath: Path): Path {
    outputPath + ["temp"]
  }

  /**
   * `<output>/temp/<file name without extension>`. Path.Combine drops an
   * empty name, so a file named just `.era` gets the temp root itself.
   */
  function TempDir(outputPath: Path, file: Path): (r: Path)
    ensures AtOrUnder(r, TempRoot(outputPath)) && Under(r, outputPath)
    ensures r == TempRoot(outputPath) <==> NameWithoutExtension(file) == ""
  {
    Combine(TempRoot(outputPath), NameWithoutExtension(file))
  }

  /** `<tempDir>/<name>.era.bin`, the file decrypt is expected to produce. */
  function IntermediatePath(outputPath: Path, file: Path): Path {
    TempDir(outputPath, file) + [NameWithoutExtension(file) + ".era.bin"]
  }

  function DecryptArguments(file: Path, outputPath: Path): string {
    BuildArguments("decrypt", NameWithoutExtension(file), Render(Parent(file)), Render(TempDir(outputPath, file)))
  }

  function ExpandArguments(file: Path, outputPath: Path): string {
    BuildExpandArguments(NameWithoutExtension(file), TempDir(outputPath, file), outputPath)
  }

  /** The disk before the decrypt call: the temp directory made if it was missing. */
  function Prepared(d: DiskState, file: Path, outputPath: Path): (r: DiskState)
    ensures TempDir(outputPath, file) in r.dirs
    ensures r.files == d.files && d.dirs <= r.dirs
  {
    var tempDir := TempDir(outputPath, file);
    if tempDir in d.dirs then d else Created(d, tempDir)
  }

  /** The disk right after the decrypt call. */
  function AfterDecrypt(d: DiskState, effect: ToolEffect, toolPath: Path, file: Path, outputPath: Path): DiskState {
    Grow(Prepared(d, file, outputPath), effect(Invocation(toolPath, DecryptArguments(file, outputPath))))
  }

  datatype StageResult = StageResult(disk: DiskState, calls: seq<ToolCall>)

  /** What ProcessEraFile does to the disk and which tool runs it makes. */
  function Stage(d: DiskState, effect: ToolEffect, toolPath: Path, file: Path, outputPath: Path): (r: StageResult)
    ensures 1 <= |r.calls| <= 2
    ensures r.calls[0] == Invocation(toolPath, DecryptArguments(file, outputPath))
    ensures |r.calls| == 2 <==> IntermediatePath(outputPath, file) in AfterDecrypt(d, effect, toolPath, file, outputPath).files
    ensures |r.calls| == 2 ==> r.calls[1] == Invocation(toolPath, ExpandArguments(file, outputPath))
  {
    var tempDir := TempDir(outputPath, file);
    var decrypt := Invocation(toolPath, DecryptArguments(file, outputPath));
    var d2 := AfterDecrypt(d, effect, toolPath, file, outputPath);
    if IntermediatePath(outputPath, file) !in d2.files then
      StageResult(DeleteTree(d2, tempDir), [decrypt])
    else
      var expand := Invocation(toolPath, ExpandArguments(file, outputPath));
      StageResult(Grow(d2, effect(expand)), [decrypt, expand])
  }

  /**
   * What one file leaves on disk: after an expand, its temp directory is
   * still there; after a failed decrypt, nothing of it is; and nothing
   * outside it is ever lost.
   */
  lemma StageDisk(d: DiskState, effect: ToolEffect, toolPath: Path, file: Path, outputPath: Path)
    ensures var r := Stage(d, effect, toolPath, file, outputPath);
      && (|r.calls| == 2 ==> TempDir(outputPath, file) in r.disk.dirs)
      && (|r.calls| == 1 ==> forall x :: x in r.disk.dirs ==> !AtOrUnder(x, TempDir(outputPath, file)))
      && (|r.calls| == 1 ==> forall x :: x in r.disk.files ==> !AtOrUnder(x, TempDir(outputPath, file)))
      && (forall x :: x in d.dirs && !AtOrUnder(x, TempDir(outputPath, file)) ==> x in r.disk.dirs)
      && (forall x :: x in d.files && !AtOrUnder(x, TempDir(outputPath, file)) ==> x in r.disk.files)
  {
  }

  /**
   * A file named just `.era` has the temp root itself as its temp
   * directory: decrypt writes into `<output>\temp`, and when it produces
   * no `.era.bin` the whole temp root is deleted, with the temp
   * directories of all other files in it.
   */
  lemma EmptyNameSharesTempRoot(d: DiskState, effect: ToolEffect, toolPath: Path, file: Path, outputPath: Path)
    requires NameWithoutExtension(file) == ""
    ensures DecryptArguments(file, outputPath) == BuildArguments("decrypt", "", Render(Parent(file)), Render(TempRoot(outputPath)))
    ensures IntermediatePath(outputPath, file) == TempRoot(outputPath) + [".era.bin"]
    ensures var r := Stage(d, effect, toolPath, file, outputPath);
      |r.calls| == 1 ==>
        && (forall x :: x in r.disk.dirs ==> !AtOrUnder(x, TempRoot(outputPath)))
        && (forall x :: x in r.disk.files ==> !AtOrUnder(x, TempRoot(outputPath)))
  {
    assert NameWithoutExtension(file) + ".era.bin" == ".era.bin";
    StageDisk(d, effect, toolPath, file, outputPath);
  }

  /** A tool that keeps the disk well formed gives a stage that keeps it well formed. */
  lemma StageWellFormed(d: DiskState, effect: ToolEffect, toolPath: Path, file: Path, outputPath: Path)
    requires WellFormed(d) && EffectWellFormed(effect)
    ensures WellFormed(Stage(d, effect, toolPath, file, outputPath).disk)
  {
    var tempDir := TempDir(outputPath, file);
    var pre := Prepared(d, file, outputPath);
    assert WellFormed(pre) by {
      if tempDir !in d.dirs {
        CreatedWellFormed(d, tempDir);
      }
    }
    var d2 := AfterDecrypt(d, effect, toolPath, file, outputPath);
    GrowWellFormed(pre, effect(Invocation(toolPath, DecryptArguments(file, outputPath))));
    if IntermediatePath(outputPath, file) !in d2.files {
      DeleteTreeWellFormed(d2, tempDir);
    } else {
      GrowWellFormed(d2, effect(Invocation(toolPath, ExpandArguments(file, outputPath))));
    }
  }

  /** Both runs use the caller's tool path unchanged and run in the tool's directory. */
  lemma StageUsesToolPath(d: DiskState, effect: ToolEffect, toolPath: Path, file: Path, outputPath: Path)
    ensures forall c :: c in Stage(d, effect, toolPath, file, outputPath).calls ==>
      c.tool == toolPath && c.workingDirectory == Parent(toolPath)
  {
  }

  /** The decrypt run reads the file's directory and writes into the file's temp directory. */
  lemma DecryptCallReadBack(file: Path, outputPath: Path)
    requires Plain(NameWithoutExtension(file))
    requires '"' !in Render(Parent(file)) && '"' !in Render(TempDir(outputPath, file))
    ensures Arguments(DecryptArguments(file, outputPath))
         == ExpectedArguments("decrypt", NameWithoutExtension(file), Render(Parent(file)), Render(TempDir(outputPath, file)))
  {
    var tempDir := Render(TempDir(outputPath, file));
    BuildArgumentsReadBack("decrypt", NameWithoutExtension(file), Render(Parent(file)), tempDir);
  }

  /** The expand run reads `Path.Combine(tempDir, name)` and writes into the output root. */
  lemma ExpandCallReadBack(file: Path, outputPath: Path)
    requires Plain(NameWithoutExtension(file))
    requires '"' !in Render(Combine(TempDir(outputPath, file), NameWithoutExtension(file))) && '"' !in Render(outputPath)
    ensures Arguments(ExpandArguments(file, outputPath))
         == ExpectedArguments("expand", NameWithoutExtension(file),
                              Render(Combine(TempDir(outputPath, file), NameWithoutExtension(file))), Render(outputPath))
  {
    var name := NameWithoutExtension(file);
    ExpandIsBuildArguments(name, TempDir(outputPath, file), outputPath);
    BuildArgumentsReadBack("expand", name, Render(Combine(TempDir(outputPath, file), name)), Render(outputPath));
  }

  /** ProcessEraFile(toolPath, file, outputPath) */
  method ProcessEraFile(disk: Disk, effect: ToolEffect, toolPath: Path, file: Path, outputPath: Path)
    returns (calls: seq<ToolCall>)
    modifies disk
    ensures StageResult(disk.State(), calls) == Stage(old(disk.State()), effect, toolPath, file, outputPath)
  {
    var fileNameWithoutExt := NameWithoutExtension(file);
    var tempDir := Combine(outputPath + ["temp"], fileNameWithoutExt);
    var decrypt := PrepareAndDecrypt(disk, effect, toolPath, file, outputPath);
    calls := [decrypt];

    var decryptedFile := tempDir + [fileNameWithoutExt + ".era.bin"];
    if decryptedFile !in disk.files {
      disk.DeleteDirectory(tempDir);
      return;
    }

    var expand := RunPhxTool(disk, effect, toolPath, BuildExpandArguments(fileNameWithoutExt, tempDir, outputPath));
    calls := calls + [expand];
  }

  /** The first half of ProcessEraFile: make the file's temp directory if missing, then run decrypt into it. */
  method PrepareAndDecrypt(disk: Disk, effect: ToolEffect, toolPath: Path, file: Path, outputPath: Path)
    returns (decrypt: ToolCall)
    modifies disk
    ensures decrypt == Invocation(toolPath, DecryptArguments(file, outputPath))
    ensures disk.State() == AfterDecrypt(old(disk.State()), effect, toolPath, file, outputPath)
    ensures TempDir(outputPath, file) in disk.dirs
  {
    var fileNameWithoutExt := NameWithoutExtension(file);
    var tempDir := Combine(outputPath + ["temp"], fileNameWithoutExt);

    if tempDir !in disk.dirs {
      disk.CreateDirectory(tempDir);
    }
    assert disk.State() == Prepared(old(disk.State()), file, outputPath);

    decrypt := RunPhxTool(disk, effect, toolPath,
      BuildArguments("decrypt", fileNameWithoutExt, Render(Parent(file)), Render(tempDir)));
  }

  /** The disk after DeleteTempFolders: the temp root removed if it exists. */
  function TempFoldersDeleted(d: DiskState, outputPath: Path): (r: DiskState)
    ensures TempRoot(outputPath) in d.dirs ==> r == DeleteTree(d, TempRoot(outputPath))
    ensures TempRoot(outputPath) !in d.dirs ==> r == d
    ensures TempRoot(outputPath) !in r.dirs
    ensures r.dirs <= d.dirs && r.files <= d.files
    ensures forall x :: x in d.dirs && !AtOrUnder(x, TempRoot(outputPath)) ==> x in r.dirs
    ensures forall x :: x in d.files && !AtOrUnder(x, TempRoot(outputPath)) ==> x in r.files
  {
    var tempRoot := TempRoot(outputPath);
    if tempRoot in d.dirs then DeleteTree(d, tempRoot) else d
  }

  /**
   * On a well-formed disk DeleteTempFolders leaves nothing beneath the temp
   * root: when the root is missing nothing can lie beneath it. (A file
   * named like the root is no directory, so Directory.Exists misses it and
   * it stays.)
   */
  lemma TempFoldersCleared(d: DiskState, outputPath: Path)
    requires WellFormed(d)
    ensures var r := TempFoldersDeleted(d, outputPath);
      && WellFormed(r)
      && (forall x :: x in r.dirs ==> !AtOrUnder(x, TempRoot(outputPath)))
      && (forall p :: p in r.files ==> !Under(p, TempRoot(outputPath)))
  {
    var r := TempFoldersDeleted(d, outputPath);
    var root := TempRoot(outputPath);
    if root in d.dirs {
      DeleteTreeWellFormed(d, root);
    } else {
      forall x | x in r.dirs ensures !AtOrUnder(x, root) {
        NothingUnderMissing(d, root, x);
        if |x| == |root| {
          assert x == x[..|root|];
        }
      }
      forall p | p in r.files ensures !Under(p, root) {
        NothingUnderMissing(d, root, p);
      }
    }
  }

  /** A second DeleteTempFolders finds nothing to do. */
  lemma DeleteTempFoldersIdempotent(d: DiskState, outputPath: Path)
    ensures TempFoldersDeleted(TempFoldersDeleted(d, outputPath), outputPath) == TempFoldersDeleted(d, outputPath)
  {
  }

  /** DeleteTempFolders(outputPath) */
  method DeleteTempFolders(disk: Disk, outputPath: Path)
    modifies disk
    ensures disk.State() == TempFoldersDeleted(old(disk.State()), outputPath)
  {
    var tempRoot := outputPath + ["temp"];
    if tempRoot in disk.dirs {
      disk.DeleteDirectory(tempRoot);
    }
  }
}
