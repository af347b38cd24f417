# SwiftCodePatterns plugins, modelled in Dafny

SwiftCodePatterns generates Swift code from patterns described in a YAML file,
`AutoCodePatterns.yml`, that sits in the package (or Xcode project) directory.
Two Swift package plugins hand that work to an external generator, the
`Transformer` tool:

- the **build-tool plugin** declares one build command per target that has a
  source module (every target, in an Xcode project). The command runs the
  generator with three arguments: the configuration path, the target's Swift
  files joined by commas, and `AutoCodePatterns.Code.swift` inside the
  plugin work directory. It also declares those Swift files as the command's
  inputs and the generated file as its one output;
- the **command plugin** runs the same generator directly, once per eligible
  target, in target order. It stops at the first target whose process cannot
  be started. It does not look at the exit status, and it never reads its
  command-line arguments.

The model is split into these modules:

- `Paths`: paths as strings, their last component and extension, and joining
  a directory with a name.
- `Joining`: joining with a separator, and the split that reads a joined list
  back.
- `Filtering`: order-preserving filtering, in generic form.
- `FileList`: `FileList.swiftFiles` in both of its forms: the list of paths,
  and the comma-joined string.
- `Host`: what the plugin host provides, namely contexts, targets and tool
  resolution.
- `BuildTool`: the build-tool plugin.
- `CommandPlugin`: the command plugin. Starting a process is a `Launcher`
  parameter here.

Every command run uses the same output path in the same work directory, so
each target's generated file replaces the previous one (`SharedConfigAndOutput`).

## Model

| member | source | states |
|---|---|---|
| Paths.Extension | Plugins/CodePatternBuildTool/main.swift:55 | the extension is absent exactly when the last path component has no `.`; otherwise it is the `.`- and `/`-free text that ends the path right after a `.` |
| Paths.IsSwiftFile | Plugins/CodePatternBuildTool/main.swift:55 | a path passes the `extension == "swift"` test exactly when it ends with `.swift` |
| Paths.CaseSensitive | Plugins/CodePatternBuildTool/main.swift:55 | a path ending in any six characters other than `.swift` (for example `.SWIFT`) fails the test, so the comparison is case-sensitive |
| Paths.AppendingKeepsName | Plugins/CodePatternBuildTool/main.swift:10 | appending a `/`-free name to a directory gives a path whose last component and extension are those of the name |
| Paths.AppendingKeepsSwift | Plugins/CodePatternBuildTool/main.swift:40 | whether a path built by appending a name is a Swift file is decided by the name alone |
| Joining.Join | Plugins/CodePatternCommand/main.swift:57 | a non-empty joined list is as long as its parts plus one separator between each pair, and starts with its first part |
| Joining.SplitJoin | Plugins/CodePatternCommand/main.swift:57 | splitting the join of a non-empty, separator-free list at the separator gives back the list |
| Joining.JoinSplit | Plugins/CodePatternCommand/main.swift:57 | joining the pieces of any split gives back the string |
| Joining.FileListRoundTrip | Plugins/CodePatternCommand/main.swift:57 | a comma-joined list of non-empty, comma-free paths reads back as the same list, including the empty list |
| Joining.EmptyListIsAmbiguous | Plugins/CodePatternCommand/main.swift:57 | the empty list and the list holding one empty path join to the same argument, so the latter does not read back as itself |
| FileList.SwiftFiles | Plugins/CodePatternBuildTool/main.swift:52-56 | the Swift files form an order-preserving subsequence of the file list, and each of them is a Swift file |
| FileList.SwiftFilesCounts | Plugins/CodePatternBuildTool/main.swift:52-56 | every occurrence of a Swift file in the list is kept, as often as it occurs |
| FileList.SwiftFilesMembership | Plugins/CodePatternBuildTool/main.swift:53-56 | a path is among the Swift files exactly when it is in the list and is a Swift file |
| FileList.SwiftFilesUnique | Plugins/CodePatternBuildTool/main.swift:53-56 | any ordered subsequence of Swift files that keeps every Swift file's multiplicity equals the filter's result |
| FileList.SwiftFilesConcat | Plugins/CodePatternBuildTool/main.swift:53-56 | the Swift files of two lists put together are the Swift files of each, in the same order |
| FileList.SwiftFilesIdempotent | Plugins/CodePatternBuildTool/main.swift:53-56 | filtering the Swift files again changes nothing |
| FileList.SwiftFilesAppend | Plugins/CodePatternBuildTool/main.swift:53-56 | appending a Swift file appends it to the result; appending any other file leaves the result unchanged |
| FileList.SwiftFilesJoined | Plugins/CodePatternCommand/main.swift:52-58 | the comma-joined Swift files are empty exactly when the list holds no Swift file, and otherwise begin with the first Swift file |
| FileList.SwiftFilesJoinedRoundTrip | Plugins/CodePatternCommand/main.swift:52-58 | when no path holds a comma, the comma-joined Swift files read back as the Swift files in order, and the string is empty exactly when there are none |
| FileList.MixedListExample | Plugins/CodePatternBuildTool/main.swift:53-56 | of a Swift file, a non-Swift file and another Swift file, the two Swift files are kept, in order |
| FileList.MixedListJoinedExample | Plugins/CodePatternCommand/main.swift:53-58 | the same list joins to the first Swift file, a comma and the second one |
| Host.Tool | Plugins/CodePatternBuildTool/main.swift:12 | the tool lookup succeeds exactly when the host knows the name, and gives the known executable; otherwise the error names the tool |
| Host.OutputIsSwiftFile | Plugins/CodePatternBuildTool/main.swift:40 | the generated file is a Swift file whatever the work directory, so the host compiles it |
| Host.OutputKeepsName | Plugins/CodePatternBuildTool/main.swift:40 | the output path, whatever the work directory, has `AutoCodePatterns.Code.swift` as its last component |
| Host.ConfigIsNotSwiftFile | Plugins/CodePatternBuildTool/main.swift:10 | the configuration path ends in `AutoCodePatterns.yml` and is not a Swift file |
| BuildTool.CreateBuildCommand | Plugins/CodePatternBuildTool/main.swift:36-49 | the command runs the given tool with three arguments: configuration, comma-joined inputs, and output. The inputs are the Swift files of the list. The one output is the generated file in the work directory, and the display name is "Generating " followed by that path |
| BuildTool.InputsAreExactlySwiftFiles | Plugins/CodePatternBuildTool/main.swift:46 | a path is a declared input exactly when it is a Swift file of the target |
| BuildTool.InputsMatchFileListArgument | Plugins/CodePatternBuildTool/main.swift:44-46 | with comma-free paths, the file-list argument reads back as exactly the declared inputs |
| BuildTool.DeclarationDependsOnlyOnSwiftFiles | Plugins/CodePatternBuildTool/main.swift:43-47 | two file lists give the same command exactly when their Swift files are the same, in the same order |
| BuildTool.AddingFile | Plugins/CodePatternBuildTool/main.swift:46 | adding a Swift file to a target adds it as the last input; adding any other file leaves the command unchanged |
| BuildTool.CreateBuildCommands | Plugins/CodePatternBuildTool/main.swift:9-17 | a target without a source module gets no commands, even when the tool is missing. Otherwise a missing tool is the error. Otherwise the result is the one-element list holding the build command for the resolved tool, the package's configuration, the target's files and the work directory |
| BuildTool.XcodeCreateBuildCommands | Plugins/CodePatternBuildTool/main.swift:24-31 | an Xcode target gets, when the tool resolves, the one-element list holding the build command for that tool, the project's configuration, the target's input files and the work directory; otherwise the tool error |
| BuildTool.XcodeIsPackageWithoutGuard | Plugins/CodePatternBuildTool/main.swift:23-31 | the Xcode variant equals the package variant applied to a target that always has a source module |
| CommandPlugin.ToolArgumentsCarryFileList | Plugins/CodePatternCommand/main.swift:46 | with comma-free paths, the second argument reads back as the target's Swift files |
| CommandPlugin.SameArgumentsAsBuildTool | Plugins/CodePatternCommand/main.swift:44-46 | the command plugin passes the generator the same three arguments that the build command declares |
| CommandPlugin.ToolArguments | Plugins/CodePatternCommand/main.swift:44-46 | the generator gets three arguments: the configuration path first and the output path in the work directory last |
| CommandPlugin.Eligible | Plugins/CodePatternCommand/main.swift:12-13 | the targets run are an order-preserving subsequence of the package's targets, each with a source module |
| CommandPlugin.EligibleMembership | Plugins/CodePatternCommand/main.swift:12-13 | a target is run exactly when it is one of the package's targets and has a source module |
| CommandPlugin.InvocationFor | Plugins/CodePatternCommand/main.swift:44-47 | the process started for a target has the executable and arguments of the build command declared for the same files |
| CommandPlugin.InvocationsFollowTargets | Plugins/CodePatternCommand/main.swift:12-18 | for targets that all have a source module, the trace has one invocation per target, in target order, each built from that target's files |
| CommandPlugin.InvocationsShareConfigAndOutput | Plugins/CodePatternCommand/main.swift:10-17 | every invocation runs the resolved tool with the shared configuration and the shared output path |
| CommandPlugin.InvocationsUnroll | Plugins/CodePatternCommand/main.swift:12-13 | a target without a source module adds nothing to the trace; one with a module adds its invocation first |
| CommandPlugin.LaunchInOrder | Plugins/CodePatternCommand/main.swift:40-49 | the tried invocations are a prefix of the trace, all of it when the run passes |
| CommandPlugin.LaunchInOrderOutcome | Plugins/CodePatternCommand/main.swift:40-49 | counting attempts from the first, every tried invocation but the last started; the run passes exactly when every invocation starts at its attempt; a failed run ends at the invocation whose start failed and carries that attempt's reason |
| CommandPlugin.ExitStatusIgnored | Plugins/CodePatternCommand/main.swift:47-48 | two launchers that fail at the same attempts for the same reasons give the same run, whatever exit statuses they report |
| CommandPlugin.RepeatedInvocationCanFail | Plugins/CodePatternCommand/main.swift:47 | each start is a fresh attempt: an invocation that started once can fail when it is started again, and the run then fails with the second attempt's reason |
| CommandPlugin.RunTargets | Plugins/CodePatternCommand/main.swift:12-18 | the target loop is the in-order launch of the reference trace |
| CommandPlugin.SkipsTargetsWithoutModule | Plugins/CodePatternCommand/main.swift:13 | the run over all targets equals the run over the targets that have a source module |
| CommandPlugin.PerformCommand | Plugins/CodePatternCommand/main.swift:9-19 | a tool lookup failure ends the command before any target is tried; otherwise the command is the in-order launch of the package's trace |
| CommandPlugin.SharedConfigAndOutput | Plugins/CodePatternCommand/main.swift:11-17 | every tried invocation uses the package's configuration and the same output file |
| CommandPlugin.ArgumentsIgnored | Plugins/CodePatternCommand/main.swift:9 | the command-line arguments never change the run |
| CommandPlugin.StopsAtFailingTarget | Plugins/CodePatternCommand/main.swift:12-18 | of three eligible targets where the second cannot start (attempt 1), two are tried, the third never is, and the error is the second's reason |
| CommandPlugin.NonzeroExitDoesNotStop | Plugins/CodePatternCommand/main.swift:47-48 | a target whose process exits with status 1 does not stop the run: all three targets are tried and the run passes |
| CommandPlugin.ThreeInvocations | Plugins/CodePatternCommand/main.swift:12-18 | three eligible targets give their three invocations, in order |
| CommandPlugin.XcodeRunTargets | Plugins/CodePatternCommand/main.swift:29-34 | the Xcode loop is the in-order launch of one invocation per target |
| CommandPlugin.XcodePerformCommand | Plugins/CodePatternCommand/main.swift:26-35 | a tool lookup failure ends the command before any target is tried; otherwise every target of the project is launched in order |
| CommandPlugin.XcodeIsPackageWithoutGuard | Plugins/CodePatternCommand/main.swift:25-36 | the Xcode loop equals the package loop run over the same targets, each seen as having a source module |

## Left out

- `Package.swift` (the manifest that declares the plugins and their tool dependency) is not part of this model: it holds no behaviour.
- Starting the process (`URL(fileURLWithPath:)`, `Process.run`, `waitUntilExit`) is host I/O. It is the `Launcher` parameter: given the number of starts attempted before and the invocation, it either starts the process, with some exit status, or fails with a reason. The attempt number stands for the host's changing state, so equal invocations need not behave alike.
- `context.tool(named:)` is modelled as a lookup in a map from tool names to executables. How the host builds and caches tools is left out.
- The generator itself (`Transformer`) and the contents of `AutoCodePatterns.yml` are outside the plugins and are not modelled.
- `async`/`throws` plumbing is modelled by the `Result` and `Outcome` values. The host's concurrency is not modelled.
- File lists carry only paths. The file types the host attaches to them are never read by the plugins, so they are left out.
- `PackagePlugin.Path` is not visible here. Its `appending` is modelled as `directory + "/" + name` and its `extension` as the text after the last `.` of the last `/`-separated component. Special cases of the real type (a root directory `/`, a trailing `/`, a component that is only a dot prefix such as `.swift`) may differ. A component ending in `.` has the empty extension here (`foo.` gives `""`), where the real type reports none; neither is `swift`, so the file filter is unaffected. Paths here are sequences of Unicode scalars, while Swift strings compare grapheme clusters: a scalar that combines with the following `.` (for example U+0600 in `a\u{600}.swift`) hides the `.` from Swift, which then sees no extension, while the model sees a Swift file.
- The sibling command plugin in `Plugins/Code Patterns Command/main.swift`, which filters Xcode targets by `--target` arguments, is not part of this model. The modelled command plugin reads no arguments (`CommandPlugin.ArgumentsIgnored`).
- A generator process that exits with a nonzero status does not fail the command: the code never looks at the status (`CommandPlugin.NonzeroExitDoesNotStop`).
- `Joining.Split` and `Joining.DecodeFileList` are not in the source. They are the reading a consumer of the comma-joined argument would apply, and they are used to state the round trip.
- Joining.FileListRoundTrip: holds only for non-empty, comma-free paths. A path containing a comma cannot be told apart from two paths, and an empty list joins to the same string as a list holding one empty path (`Joining.EmptyListIsAmbiguous`).
