/** The command plugin: on demand, it runs the generator once for every
    target that has a source module, in target order, and stops at the first
    target whose generator process cannot be started.

    Starting a process is the host's business; here it is the `Launcher`
    parameter, which either starts the invocation (and reports the exit
    status the process eventually had) or fails with a reason. */
module CommandPlugin {
  import opened Wrappers
  import opened Paths
  import opened Joining
  import opened FileList
  import opened Host
  import opened Filtering
  import BuildTool

  /** One start of the generator: its executable and positional arguments. */
  datatype Invocation = Invocation(executable: Path, arguments: seq<string>)

  /** Starts an invocation: the exit status of the finished process, or the
      reason it could not be started.  The first argument counts the starts
      this command has attempted before, so the same invocation may start at
      one attempt and fail at a later one, as the state of the host changes. */
  type Launcher = (nat, Invocation) -> Result<int, string>

  /** A command run: the invocations tried, in order, and how the run ended. */
  datatype Run = Run(attempted: seq<Invocation>, outcome: Outcome<PluginError>)

  /** The arguments `run` passes for one file list: configuration, Swift
      files joined by commas, output path. */
  function ToolArguments(config: Path, sourceFiles: seq<Path>, workDirectory: Path): (args: seq<string>)
    ensures |args| == 3
    ensures args[0] == config
    ensures args[2] == OutputPath(workDirectory)
  {
    [config, SwiftFilesJoined(sourceFiles), OutputPath(workDirectory)]
  }

  /** The file-list argument reads back as the Swift files of the list, in
      order, whenever no path holds a comma. */
  lemma ToolArgumentsCarryFileList(config: Path, sourceFiles: seq<Path>, workDirectory: Path)
    requires forall i :: 0 <= i < |sourceFiles| ==> Comma !in sourceFiles[i]
    ensures DecodeFileList(ToolArguments(config, sourceFiles, workDirectory)[1]) == SwiftFiles(sourceFiles)
  {
    SwiftFilesJoinedRoundTrip(sourceFiles);
  }

  /** Both plugins hand the generator the same three arguments for the same
      configuration, files and work directory. */
  lemma SameArgumentsAsBuildTool(tool: Path, config: Path, sourceFiles: seq<Path>,
                                 workDirectory: Path)
    ensures ToolArguments(config, sourceFiles, workDirectory)
            == BuildTool.CreateBuildCommand(tool, config, sourceFiles, workDirectory).arguments
  {
  }

  /** A target the command plugin runs the generator for. */
  predicate HasSourceModule(t: Target) {
    t.sourceModule.Some?
  }

  /** The targets that have a source module, in target order. */
  function Eligible(targets: seq<Target>): (r: seq<Target>)
    ensures IsSubsequence(r, targets)
    ensures forall i :: 0 <= i < |r| ==> r[i].sourceModule.Some?
  {
    Filter(targets, HasSourceModule)
  }

  /** A target is eligible exactly when it is one of the targets and has a
      source module: none with a module is dropped. */
  lemma EligibleMembership(targets: seq<Target>, t: Target)
    ensures t in Eligible(targets) <==> t in targets && t.sourceModule.Some?
  {
    FilterMembership(targets, HasSourceModule, t);
  }

  /** The invocation for one target that has a source module: the
      executable and arguments of the build command the build-tool plugin
      declares for the same files. */
  function InvocationFor(tool: Path, config: Path, workDirectory: Path, t: Target): (r: Invocation)
    requires t.sourceModule.Some?
    ensures var c := BuildTool.CreateBuildCommand(tool, config, t.sourceModule.value, workDirectory);
            r.executable == c.executable && r.arguments == c.arguments
  {
    Invocation(tool, ToolArguments(config, t.sourceModule.value, workDirectory))
  }

  /** One invocation per target, in order, for targets that all have a
      source module. */
  function InvocationsOf(tool: Path, config: Path, workDirectory: Path, targets: seq<Target>): (r: seq<Invocation>)
    requires forall i :: 0 <= i < |targets| ==> targets[i].sourceModule.Some?
    ensures |r| == |targets|
    decreases |targets|
  {
    if |targets| == 0 then []
    else [InvocationFor(tool, config, workDirectory, targets[0])]
         + InvocationsOf(tool, config, workDirectory, targets[1..])
  }

  /** Reference trace of a run in which every start succeeds: one invocation
      per target that has a source module, in target order. */
  function Invocations(tool: Path, config: Path, workDirectory: Path, targets: seq<Target>): seq<Invocation> {
    InvocationsOf(tool, config, workDirectory, Eligible(targets))
  }

  /** The reference trace holds exactly one invocation per target with a
      source module, and each one is built from that target's files. */
  lemma {:induction false} InvocationsFollowTargets(tool: Path, config: Path, workDirectory: Path,
                                                    targets: seq<Target>)
    requires forall i :: 0 <= i < |targets| ==> targets[i].sourceModule.Some?
    ensures var r := InvocationsOf(tool, config, workDirectory, targets);
            forall i :: 0 <= i < |r| ==>
              r[i] == InvocationFor(tool, config, workDirectory, targets[i])
    decreases |targets|
  {
    if |targets| > 0 {
      InvocationsFollowTargets(tool, config, workDirectory, targets[1..]);
    }
  }

  /** Every invocation of a trace runs the resolved tool with the shared
      configuration and the shared output path. */
  lemma {:induction false} InvocationsShareConfigAndOutput(tool: Path, config: Path, workDirectory: Path,
                                                           targets: seq<Target>)
    requires forall i :: 0 <= i < |targets| ==> targets[i].sourceModule.Some?
    ensures forall inv :: inv in InvocationsOf(tool, config, workDirectory, targets) ==>
              && inv.executable == tool
              && |inv.arguments| == 3
              && inv.arguments[0] == config
              && inv.arguments[2] == OutputPath(workDirectory)
    decreases |targets|
  {
    if |targets| > 0 {
      InvocationsShareConfigAndOutput(tool, config, workDirectory, targets[1..]);
    }
  }

  /** The reference trace unrolled by one target: a target with a source
      module contributes its invocation first, one without contributes nothing. */
  lemma InvocationsUnroll(tool: Path, config: Path, workDirectory: Path, targets: seq<Target>)
    requires |targets| > 0
    ensures targets[0].sourceModule.None? ==>
              Invocations(tool, config, workDirectory, targets)
              == Invocations(tool, config, workDirectory, targets[1..])
    ensures targets[0].sourceModule.Some? ==>
              Invocations(tool, config, workDirectory, targets)
              == [InvocationFor(tool, config, workDirectory, targets[0])]
                 + Invocations(tool, config, workDirectory, targets[1..])
  {
    FilterUnroll(targets, HasSourceModule);
    if targets[0].sourceModule.Some? {
      var e := Eligible(targets);
      assert e[0] == targets[0];
      assert e[1..] == Eligible(targets[1..]);
    }
  }

  /** Start the invocations one after the other, stopping at the first that
      cannot be started; the exit status of a started process is not looked
      at.  `first` counts the starts attempted before.  The tried invocations
      are a prefix of `invocations`, all of them when the run passes; which
      starts succeeded is `LaunchInOrderOutcome`. */
  function LaunchInOrder(invocations: seq<Invocation>, launch: Launcher, first: nat): (r: Run)
    ensures r.attempted <= invocations
    ensures r.outcome.Pass? ==> r.attempted == invocations
    decreases |invocations|
  {
    if |invocations| == 0 then
      Run([], Pass)
    else
      var inv := invocations[0];
      match launch(first, inv)
      case Failure(reason) =>
        Run([inv], Fail(LaunchFailed(reason)))
      case Success(_) =>
        var rest := LaunchInOrder(invocations[1..], launch, first + 1);
        assert invocations == [inv] + invocations[1..];
        Run([inv] + rest.attempted, rest.outcome)
  }

  /** What a launch run of `invocations` from attempt `first` reports: the
      tried invocations are a prefix, every tried one but the last started,
      the run passes exactly when every invocation starts and then tried them
      all, and a failed run ends at the invocation that could not be started,
      carrying its reason. */
  predicate LaunchReport(r: Run, invocations: seq<Invocation>, launch: Launcher, first: nat) {
    && r.attempted <= invocations
    && (forall i :: 0 <= i < |r.attempted| - 1 ==> launch(first + i, r.attempted[i]).Success?)
    && (r.outcome.Pass? <==> AllStart(invocations, launch, first))
    && (r.outcome.Pass? ==> r.attempted == invocations)
    && (r.outcome.Fail? ==>
          && |r.attempted| > 0
          && launch(first + |r.attempted| - 1, r.attempted[|r.attempted| - 1]).Failure?
          && r.outcome.error
             == LaunchFailed(launch(first + |r.attempted| - 1, r.attempted[|r.attempted| - 1]).error))
  }

  /** `LaunchInOrder` reports its run as `LaunchReport` describes. */
  lemma {:induction false} LaunchInOrderOutcome(invocations: seq<Invocation>, launch: Launcher, first: nat)
    ensures LaunchReport(LaunchInOrder(invocations, launch, first), invocations, launch, first)
    decreases |invocations|
  {
    if |invocations| > 0 {
      var inv := invocations[0];
      if launch(first, inv).Success? {
        var tail := invocations[1..];
        LaunchInOrderOutcome(tail, launch, first + 1);
        var rest := LaunchInOrder(tail, launch, first + 1);
        assert invocations == [inv] + tail;
        StartedThenRest(inv, tail, launch, first, rest);
      } else {
        AllStartUnroll(invocations, launch, first);
      }
    }
  }

  /** The step of `LaunchInOrder` after a successful start: the run of the
      remaining invocations, with the started one put in front, reports the
      whole run. */
  lemma StartedThenRest(inv: Invocation, tail: seq<Invocation>, launch: Launcher, first: nat, rest: Run)
    requires launch(first, inv).Success?
    requires LaunchReport(rest, tail, launch, first + 1)
    ensures LaunchReport(Run([inv] + rest.attempted, rest.outcome), [inv] + tail, launch, first)
  {
    var r := Run([inv] + rest.attempted, rest.outcome);
    forall i | 0 <= i < |r.attempted| - 1
      ensures launch(first + i, r.attempted[i]).Success?
    {
      if i > 0 {
        assert r.attempted[i] == rest.attempted[i - 1];
      }
    }
    AllStartUnroll([inv] + tail, launch, first);
    assert ([inv] + tail)[1..] == tail;
    if r.outcome.Fail? {
      assert r.attempted[|r.attempted| - 1] == rest.attempted[|rest.attempted| - 1];
    }
  }

  /** Every invocation starts, the first at attempt `first`. */
  predicate AllStart(invocations: seq<Invocation>, launch: Launcher, first: nat) {
    forall i :: 0 <= i < |invocations| ==> launch(first + i, invocations[i]).Success?
  }

  /** All invocations start exactly when the first does and the rest do, one
      attempt later. */
  lemma AllStartUnroll(invocations: seq<Invocation>, launch: Launcher, first: nat)
    requires |invocations| > 0
    ensures AllStart(invocations, launch, first)
            <==> launch(first, invocations[0]).Success? && AllStart(invocations[1..], launch, first + 1)
  {
    if launch(first, invocations[0]).Success? && AllStart(invocations[1..], launch, first + 1) {
      forall i | 0 < i < |invocations|
        ensures launch(first + i, invocations[i]).Success?
      {
        assert invocations[i] == invocations[1..][i - 1];
      }
    }
    if AllStart(invocations, launch, first) {
      forall j | 0 <= j < |invocations| - 1
        ensures launch(first + 1 + j, invocations[1..][j]).Success?
      {
        assert invocations[1..][j] == invocations[j + 1];
      }
    }
  }

  /** Only whether a start fails, and why, matters: two launchers that agree
      on that at every attempt give the same run, whatever exit statuses
      they report. */
  lemma {:induction false} ExitStatusIgnored(invocations: seq<Invocation>, launch: Launcher,
                                             other: Launcher, first: nat)
    requires forall k, inv :: launch(k, inv).Failure? <==> other(k, inv).Failure?
    requires forall k, inv :: launch(k, inv).Failure? ==> launch(k, inv).error == other(k, inv).error
    ensures LaunchInOrder(invocations, launch, first) == LaunchInOrder(invocations, other, first)
    decreases |invocations|
  {
    if |invocations| > 0 {
      ExitStatusIgnored(invocations[1..], launch, other, first + 1);
    }
  }

  /** The same invocation can start at one attempt and fail at the next: the
      run then tries it twice and fails with the second attempt's reason. */
  lemma RepeatedInvocationCanFail(x: Invocation, launch: Launcher)
    requires launch(0, x).Success? && launch(1, x).Failure?
    ensures LaunchInOrder([x, x], launch, 0) == Run([x, x], Fail(LaunchFailed(launch(1, x).error)))
  {
    assert [x, x][1..] == [x];
  }

  /** The loop of `performCommand`: walk the targets in order, skip those
      without a source module, and start the generator for the others until a
      start fails.  It amounts to starting the reference trace in order. */
  function RunTargets(tool: Path, config: Path, workDirectory: Path, targets: seq<Target>,
                      launch: Launcher, first: nat): (r: Run)
    ensures r == LaunchInOrder(Invocations(tool, config, workDirectory, targets), launch, first)
    decreases |targets|
  {
    if |targets| == 0 then
      Run([], Pass)
    else
      InvocationsUnroll(tool, config, workDirectory, targets);
      var t := targets[0];
      match t.sourceModule
      case None =>
        RunTargets(tool, config, workDirectory, targets[1..], launch, first)
      case Some(sourceFiles) =>
        var inv := InvocationFor(tool, config, workDirectory, t);
        match launch(first, inv)
        case Failure(reason) =>
          Run([inv], Fail(LaunchFailed(reason)))
        case Success(_) =>
          var rest := RunTargets(tool, config, workDirectory, targets[1..], launch, first + 1);
          assert ([inv] + Invocations(tool, config, workDirectory, targets[1..]))[1..]
                 == Invocations(tool, config, workDirectory, targets[1..]);
          Run([inv] + rest.attempted, rest.outcome)
  }

  /** Skipping is all a target without a source module causes: the run over
      all targets is the run over those with a source module. */
  lemma SkipsTargetsWithoutModule(tool: Path, config: Path, workDirectory: Path,
                                  targets: seq<Target>, launch: Launcher, first: nat)
    ensures RunTargets(tool, config, workDirectory, targets, launch, first)
            == RunTargets(tool, config, workDirectory, Eligible(targets), launch, first)
  {
    FilterIdempotent(targets, HasSourceModule);
  }

  /** `performCommand` for a package: resolve the generator (a failure stops
      the command before any target is tried), then run every target with
      the package's configuration and the one work directory.  The
      command-line `arguments` are not read. */
  function PerformCommand(context: PackageContext, arguments: seq<string>, launch: Launcher): (r: Run)
    ensures ToolName !in context.tools ==> r == Run([], Fail(ToolNotFound(ToolName)))
    ensures ToolName in context.tools ==>
              r == LaunchInOrder(Invocations(context.tools[ToolName], ConfigFile(context.packageDirectory),
                                             context.pluginWorkDirectory, context.targets), launch, 0)
  {
    match Tool(context.tools, ToolName)
    case Failure(e) => Run([], Fail(e))
    case Success(tool) =>
      RunTargets(tool, ConfigFile(context.packageDirectory), context.pluginWorkDirectory,
                 context.targets, launch, 0)
  }

  /** Every invocation a command run tries uses the package's configuration
      and writes the same output file: the work directory is shared by all
      targets. */
  lemma SharedConfigAndOutput(context: PackageContext, arguments: seq<string>, launch: Launcher)
    ensures var r := PerformCommand(context, arguments, launch);
            forall i :: 0 <= i < |r.attempted| ==>
              && |r.attempted[i].arguments| == 3
              && r.attempted[i].arguments[0] == ConfigFile(context.packageDirectory)
              && r.attempted[i].arguments[2] == OutputPath(context.pluginWorkDirectory)
  {
    if ToolName in context.tools {
      var r := PerformCommand(context, arguments, launch);
      var full := Invocations(context.tools[ToolName], ConfigFile(context.packageDirectory),
                              context.pluginWorkDirectory, context.targets);
      InvocationsShareConfigAndOutput(context.tools[ToolName], ConfigFile(context.packageDirectory),
                                      context.pluginWorkDirectory, Eligible(context.targets));
      forall i | 0 <= i < |r.attempted|
        ensures r.attempted[i] in full
      {
        assert r.attempted[i] == full[i];
      }
    }
  }

  /** The command-line arguments never change what a command run does. */
  lemma ArgumentsIgnored(context: PackageContext, arguments: seq<string>, others: seq<string>,
                         launch: Launcher)
    ensures PerformCommand(context, arguments, launch) == PerformCommand(context, others, launch)
  {
  }

  /** Three targets with source modules, of which the second cannot be
      started: the first two are tried, the third never is, and the command
      fails with the second's reason. */
  lemma StopsAtFailingTarget(tool: Path, config: Path, workDirectory: Path,
                             a: Target, b: Target, c: Target, launch: Launcher)
    requires a.sourceModule.Some? && b.sourceModule.Some? && c.sourceModule.Some?
    requires launch(0, InvocationFor(tool, config, workDirectory, a)).Success?
    requires launch(1, InvocationFor(tool, config, workDirectory, b)).Failure?
    ensures var r := RunTargets(tool, config, workDirectory, [a, b, c], launch, 0);
            && r.attempted == [InvocationFor(tool, config, workDirectory, a),
                               InvocationFor(tool, config, workDirectory, b)]
            && r.outcome == Fail(LaunchFailed(launch(1, InvocationFor(tool, config, workDirectory, b)).error))
  {
    ThreeInvocations(tool, config, workDirectory, a, b, c);
    SecondOfThreeFails(InvocationFor(tool, config, workDirectory, a),
                       InvocationFor(tool, config, workDirectory, b),
                       InvocationFor(tool, config, workDirectory, c), launch);
  }

  /** Starting three invocations of which the second fails tries two. */
  lemma SecondOfThreeFails(x: Invocation, y: Invocation, z: Invocation, launch: Launcher)
    requires launch(0, x).Success? && launch(1, y).Failure?
    ensures LaunchInOrder([x, y, z], launch, 0) == Run([x, y], Fail(LaunchFailed(launch(1, y).error)))
  {
    assert [x, y, z][1..] == [y, z];
  }

  /** Three targets with source modules that all start: all three are tried
      and the command passes, even when the second process exits with status 1. */
  lemma NonzeroExitDoesNotStop(tool: Path, config: Path, workDirectory: Path,
                               a: Target, b: Target, c: Target, launch: Launcher)
    requires a.sourceModule.Some? && b.sourceModule.Some? && c.sourceModule.Some?
    requires launch(0, InvocationFor(tool, config, workDirectory, a)).Success?
    requires launch(1, InvocationFor(tool, config, workDirectory, b)) == Success(1)
    requires launch(2, InvocationFor(tool, config, workDirectory, c)).Success?
    ensures var r := RunTargets(tool, config, workDirectory, [a, b, c], launch, 0);
            && r.attempted == Invocations(tool, config, workDirectory, [a, b, c])
            && |r.attempted| == 3
            && r.outcome == Pass
  {
    ThreeInvocations(tool, config, workDirectory, a, b, c);
    ThreeStart(InvocationFor(tool, config, workDirectory, a),
               InvocationFor(tool, config, workDirectory, b),
               InvocationFor(tool, config, workDirectory, c), launch);
  }

  /** Starting three invocations that all start tries them all and passes. */
  lemma ThreeStart(x: Invocation, y: Invocation, z: Invocation, launch: Launcher)
    requires launch(0, x).Success? && launch(1, y).Success? && launch(2, z).Success?
    ensures LaunchInOrder([x, y, z], launch, 0) == Run([x, y, z], Pass)
  {
    assert [z][1..] == [];
    assert LaunchInOrder([z], launch, 2) == Run([z], Pass);
    assert [y, z][1..] == [z];
    assert LaunchInOrder([y, z], launch, 1) == Run([y, z], Pass);
    assert [x, y, z][1..] == [y, z];
  }

  /** The reference trace of three targets with source modules. */
  lemma ThreeInvocations(tool: Path, config: Path, workDirectory: Path, a: Target, b: Target, c: Target)
    requires a.sourceModule.Some? && b.sourceModule.Some? && c.sourceModule.Some?
    ensures Invocations(tool, config, workDirectory, [a, b, c])
            == [InvocationFor(tool, config, workDirectory, a),
                InvocationFor(tool, config, workDirectory, b),
                InvocationFor(tool, config, workDirectory, c)]
  {
    EligibleThree(a, b, c);
    InvocationsFollowTargets(tool, config, workDirectory, [a, b, c]);
    var r := InvocationsOf(tool, config, workDirectory, [a, b, c]);
    assert |r| == 3;
    assert r[0] == InvocationFor(tool, config, workDirectory, a);
    assert r[1] == InvocationFor(tool, config, workDirectory, b);
    assert r[2] == InvocationFor(tool, config, workDirectory, c);
  }

  /** Three targets with source modules are all eligible. */
  lemma EligibleThree(a: Target, b: Target, c: Target)
    requires a.sourceModule.Some? && b.sourceModule.Some? && c.sourceModule.Some?
    ensures Eligible([a, b, c]) == [a, b, c]
  {
    FilterKeepsThree(a, b, c, HasSourceModule);
  }

  /** The Xcode targets seen as package targets that all have a source module. */
  function AsPackageTargets(targets: seq<XcodeTarget>): (r: seq<Target>)
    ensures |r| == |targets|
    ensures forall i :: 0 <= i < |r| ==> r[i].sourceModule == Some(targets[i].inputFiles)
    decreases |targets|
  {
    if |targets| == 0 then []
    else [Target(targets[0].displayName, Some(targets[0].inputFiles))] + AsPackageTargets(targets[1..])
  }

  /** Reference trace of an Xcode run in which every start succeeds: one
      invocation per target, in target order. */
  function XcodeInvocations(tool: Path, config: Path, workDirectory: Path,
                            targets: seq<XcodeTarget>): seq<Invocation> {
    InvocationsOf(tool, config, workDirectory, AsPackageTargets(targets))
  }

  /** The loop of the Xcode `performCommand`: every target is tried, in
      order, until a start fails. */
  function XcodeRunTargets(tool: Path, config: Path, workDirectory: Path, targets: seq<XcodeTarget>,
                           launch: Launcher, first: nat): (r: Run)
    ensures r == LaunchInOrder(XcodeInvocations(tool, config, workDirectory, targets), launch, first)
    decreases |targets|
  {
    if |targets| == 0 then
      Run([], Pass)
    else
      var inv := Invocation(tool, ToolArguments(config, targets[0].inputFiles, workDirectory));
      assert AsPackageTargets(targets)[1..] == AsPackageTargets(targets[1..]);
      match launch(first, inv)
      case Failure(reason) =>
        Run([inv], Fail(LaunchFailed(reason)))
      case Success(_) =>
        var rest := XcodeRunTargets(tool, config, workDirectory, targets[1..], launch, first + 1);
        Run([inv] + rest.attempted, rest.outcome)
  }

  /** `performCommand` inside an Xcode project: resolve the generator, then
      run every target with the project's configuration.  The arguments are
      not read, so there is no selection of targets by name. */
  function XcodePerformCommand(context: XcodeContext, arguments: seq<string>, launch: Launcher): (r: Run)
    ensures ToolName !in context.tools ==> r == Run([], Fail(ToolNotFound(ToolName)))
    ensures ToolName in context.tools ==>
              r == LaunchInOrder(XcodeInvocations(context.tools[ToolName], ConfigFile(context.projectDirectory),
                                                  context.pluginWorkDirectory, context.targets), launch, 0)
  {
    match Tool(context.tools, ToolName)
    case Failure(e) => Run([], Fail(e))
    case Success(tool) =>
      XcodeRunTargets(tool, ConfigFile(context.projectDirectory), context.pluginWorkDirectory,
                      context.targets, launch, 0)
  }

  /** The Xcode loop is the package loop with the source-module guard removed:
      on the same files it tries the same invocations with the same outcome. */
  lemma XcodeIsPackageWithoutGuard(tool: Path, config: Path, workDirectory: Path,
                                   targets: seq<XcodeTarget>, launch: Launcher, first: nat)
    ensures XcodeRunTargets(tool, config, workDirectory, targets, launch, first)
            == RunTargets(tool, config, workDirectory, AsPackageTargets(targets), launch, first)
  {
    FilterKeepsAll(AsPackageTargets(targets), HasSourceModule);
  }
}
