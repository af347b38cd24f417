/** What the plugin host hands the plugins: the package (or Xcode project)
    directory, a private work directory, the targets with their files, and a
    tool resolver.  Also the fixed names both plugins share. */
module Host {
  import opened Wrappers
  import opened Paths

  /** The pattern configuration, looked up in the package or project directory. */
  const ConfigurationFileName: string := "AutoCodePatterns.yml"

  /** The generated file, written into the plugin work directory. */
  const GeneratedFileName: string := "AutoCodePatterns.Code.swift"

  /** The name under which the generator executable is resolved. */
  const ToolName: string := "Transformer"

  /** A package target; `sourceModule` holds the file list of a source-module
      target and is `None` for targets without one (binary or system targets). */
  datatype Target = Target(name: string, sourceModule: Option<seq<Path>>)

  /** The context of a package plugin.  `tools` maps the tool names the host
      can resolve to their executables. */
  datatype PackageContext = PackageContext(
    packageDirectory: Path,
    pluginWorkDirectory: Path,
    targets: seq<Target>,
    tools: map<string, Path>)

  /** An Xcode target: its input files always exist. */
  datatype XcodeTarget = XcodeTarget(displayName: string, inputFiles: seq<Path>)

  /** The context of a plugin running inside an Xcode project. */
  datatype XcodeContext = XcodeContext(
    projectDirectory: Path,
    pluginWorkDirectory: Path,
    targets: seq<XcodeTarget>,
    tools: map<string, Path>)

  /** Why a plugin run stops: the generator could not be resolved, or the
      process could not be started (with the host's reason). */
  datatype PluginError = ToolNotFound(name: string) | LaunchFailed(reason: string)

  /** `context.tool(named:)`: the executable the host resolves for `name`,
      or the error it throws when it has none. */
  function Tool(tools: map<string, Path>, name: string): (r: Result<Path, PluginError>)
    ensures r.Success? <==> name in tools
    ensures r.Success? ==> r.value == tools[name]
    ensures r.Failure? ==> r.error == ToolNotFound(name)
  {
    if name in tools then Success(tools[name]) else Failure(ToolNotFound(name))
  }

  /** The configuration file of a package or project directory. */
  function ConfigFile(directory: Path): Path {
    Appending(directory, ConfigurationFileName)
  }

  /** The generated file inside a work directory. */
  function OutputPath(workDirectory: Path): Path {
    Appending(workDirectory, GeneratedFileName)
  }

  /** The generated file keeps its name inside the work directory. */
  lemma OutputKeepsName(workDirectory: Path)
    ensures LastComponent(OutputPath(workDirectory)) == GeneratedFileName
  {
    AppendingKeepsName(workDirectory, GeneratedFileName);
  }

  /** The generated file is itself a Swift file, so the host compiles it,
      whatever the work directory. */
  lemma OutputIsSwiftFile(workDirectory: Path)
    ensures IsSwiftFile(OutputPath(workDirectory))
  {
    assert '/' !in GeneratedFileName;
    assert IsSwiftFile(GeneratedFileName) by {
      SuffixMakesSwiftExtension(GeneratedFileName);
    }
    AppendingKeepsSwift(workDirectory, GeneratedFileName);
  }

  /** The configuration file is not a Swift file, so it never reaches the
      generator's file list. */
  lemma ConfigIsNotSwiftFile(directory: Path)
    ensures LastComponent(ConfigFile(directory)) == ConfigurationFileName
    ensures !IsSwiftFile(ConfigFile(directory))
  {
    AppendingKeepsName(directory, ConfigurationFileName);
    AppendingKeepsSwift(directory, ConfigurationFileName);
  }
}
