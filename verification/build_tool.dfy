/** The build-tool plugin: for each target it declares one generation step to
    the host's build graph, with the Swift files as inputs and the generated
    file as the only output, so that the host reruns the generator exactly
    when a Swift file of the target changes. */
module BuildTool {
  import opened Wrappers
  import opened Paths
  import opened Joining
  import opened FileList
  import opened Host

  /** A build command as the host receives it (`Command.buildCommand`). */
  datatype Command = BuildCommand(
    displayName: string,
    executable: Path,
    arguments: seq<string>,
    inputFiles: seq<Path>,
    outputFiles: seq<Path>)

  /** `createBuildCommand`: the declaration for one file list.  The arguments
      are the configuration, the comma-joined Swift files and the output path;
      the inputs are exactly the joined Swift files and the one output is the
      third argument. */
  function CreateBuildCommand(tool: Path, config: Path, sourceFiles: seq<Path>,
                              workDirectory: Path): (c: Command)
    ensures c.executable == tool
    ensures |c.arguments| == 3 && c.arguments[0] == config
    ensures c.outputFiles == [OutputPath(workDirectory)]
    ensures c.arguments[2] == c.outputFiles[0]
    ensures c.displayName == "Generating " + c.outputFiles[0]
    ensures c.inputFiles == SwiftFiles(sourceFiles)
    ensures c.arguments[1] == Join(c.inputFiles, Comma)
  {
    var outputPath := OutputPath(workDirectory);
    BuildCommand(
      "Generating " + outputPath,
      tool,
      [config, SwiftFilesJoined(sourceFiles), outputPath],
      SwiftFiles(sourceFiles),
      [outputPath])
  }

  /** The declared inputs are exactly the Swift files of the list: every
      Swift file is declared (no stale output) and nothing else is (no
      needless rerun). */
  lemma InputsAreExactlySwiftFiles(tool: Path, config: Path, sourceFiles: seq<Path>,
                                   workDirectory: Path, p: Path)
    ensures p in CreateBuildCommand(tool, config, sourceFiles, workDirectory).inputFiles
            <==> p in sourceFiles && IsSwiftFile(p)
  {
    SwiftFilesMembership(sourceFiles, p);
  }

  /** The inputs are the list the second argument serialises: reading that
      argument back gives the declared inputs, whenever no path holds a comma. */
  lemma InputsMatchFileListArgument(tool: Path, config: Path, sourceFiles: seq<Path>,
                                    workDirectory: Path)
    requires forall i :: 0 <= i < |sourceFiles| ==> Comma !in sourceFiles[i]
    ensures var c := CreateBuildCommand(tool, config, sourceFiles, workDirectory);
            DecodeFileList(c.arguments[1]) == c.inputFiles
  {
    SwiftFilesAreJoinable(sourceFiles);
    FileListRoundTrip(SwiftFiles(sourceFiles));
  }

  /** Two file lists get the same declaration exactly when they hold the same
      Swift files in the same order: non-Swift files never matter. */
  lemma DeclarationDependsOnlyOnSwiftFiles(tool: Path, config: Path, a: seq<Path>,
                                           b: seq<Path>, workDirectory: Path)
    ensures CreateBuildCommand(tool, config, a, workDirectory)
            == CreateBuildCommand(tool, config, b, workDirectory)
            <==> SwiftFiles(a) == SwiftFiles(b)
  {
  }

  /** Adding a non-Swift file to a target leaves its declaration unchanged;
      adding a Swift file declares it as one more input, last. */
  lemma AddingFile(tool: Path, config: Path, sourceFiles: seq<Path>, workDirectory: Path,
                   p: Path)
    ensures !IsSwiftFile(p) ==>
              CreateBuildCommand(tool, config, sourceFiles + [p], workDirectory)
              == CreateBuildCommand(tool, config, sourceFiles, workDirectory)
    ensures IsSwiftFile(p) ==>
              CreateBuildCommand(tool, config, sourceFiles + [p], workDirectory).inputFiles
              == CreateBuildCommand(tool, config, sourceFiles, workDirectory).inputFiles + [p]
  {
    SwiftFilesAppend(sourceFiles, p);
  }

  /** `createBuildCommands` for a package target.  A target without a source
      module gets no command, before the generator is even looked up; else a
      missing generator is an error; else there is exactly one command, for
      the target's files and the package's configuration. */
  function CreateBuildCommands(context: PackageContext, target: Target): (r: Result<seq<Command>, PluginError>)
    ensures target.sourceModule.None? ==> r == Success([])
    ensures target.sourceModule.Some? && ToolName !in context.tools ==>
              r == Failure(ToolNotFound(ToolName))
    ensures target.sourceModule.Some? && ToolName in context.tools ==>
              && r.Success? && |r.value| == 1
              && r.value[0].executable == context.tools[ToolName]
              && |r.value[0].arguments| == 3
              && r.value[0].arguments[0] == ConfigFile(context.packageDirectory)
              && r.value[0].inputFiles == SwiftFiles(target.sourceModule.value)
              && r.value[0].outputFiles == [OutputPath(context.pluginWorkDirectory)]
    ensures target.sourceModule.Some? && ToolName in context.tools ==>
              r == Success([CreateBuildCommand(context.tools[ToolName], ConfigFile(context.packageDirectory),
                                               target.sourceModule.value, context.pluginWorkDirectory)])
  {
    var configFile := ConfigFile(context.packageDirectory);
    match target.sourceModule
    case None => Success([])
    case Some(sourceFiles) =>
      match Tool(context.tools, ToolName)
      case Failure(e) => Failure(e)
      case Success(tool) =>
        Success([CreateBuildCommand(tool, configFile, sourceFiles, context.pluginWorkDirectory)])
  }

  /** `createBuildCommands` for an Xcode target: the generator is looked up
      first, and every target gets exactly one command. */
  function XcodeCreateBuildCommands(context: XcodeContext, target: XcodeTarget): (r: Result<seq<Command>, PluginError>)
    ensures r.Success? <==> ToolName in context.tools
    ensures r.Failure? ==> r.error == ToolNotFound(ToolName)
    ensures r.Success? ==>
              && |r.value| == 1
              && |r.value[0].arguments| == 3
              && r.value[0].arguments[0] == ConfigFile(context.projectDirectory)
              && r.value[0].inputFiles == SwiftFiles(target.inputFiles)
              && r.value[0].outputFiles == [OutputPath(context.pluginWorkDirectory)]
    ensures r.Success? ==>
              r.value == [CreateBuildCommand(context.tools[ToolName], ConfigFile(context.projectDirectory),
                                             target.inputFiles, context.pluginWorkDirectory)]
  {
    match Tool(context.tools, ToolName)
    case Failure(e) => Failure(e)
    case Success(tool) =>
      var configFile := ConfigFile(context.projectDirectory);
      Success([CreateBuildCommand(tool, configFile, target.inputFiles, context.pluginWorkDirectory)])
  }

  /** The Xcode variant is the package variant with the source-module guard
      removed: on a target that has files both declare the same commands. */
  lemma XcodeIsPackageWithoutGuard(context: XcodeContext, target: XcodeTarget,
                                   packageTargets: seq<Target>)
    ensures XcodeCreateBuildCommands(context, target)
            == CreateBuildCommands(
                 PackageContext(context.projectDirectory, context.pluginWorkDirectory,
                                packageTargets, context.tools),
                 Target(target.displayName, Some(target.inputFiles)))
  {
  }
}
