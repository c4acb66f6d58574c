/**
 * The host's sequences of calls across the two providers, which share the static `Meadow`
 * slot and the static logger.
 */
module Scenarios {
  import opened Common
  import opened DeviceCalls
  import opened DeviceSlot
  import opened Logging
  import opened Deploy
  import opened DebugLaunch

  /**
   * Deploy then commit: the logger ends up connected to the debug pane, and the pane
   * announces the launch, exactly when the "App" project was deployed without a fatal error.
   */
  method DeployThenCommit(
    provider: DeployProvider, assemblyName: string, folder: string,
    outputPane: PaneWriter, debugPane: PaneWriter, env: DeviceEnv)
    returns (outcome: Outcome)
    requires provider.meadow.Valid()
    requires outputPane != debugPane
    modifies provider, provider.meadow, provider.logger, outputPane, debugPane
    ensures provider.meadow.Valid()
    ensures |provider.logger.events| > 0
    ensures provider.logger.events[|provider.logger.events| - 1] == ConnectPane(debugPane) <==>
      assemblyName == AppAssemblyName && FatalError(env).None?
    ensures assemblyName == AppAssemblyName && FatalError(env).None? ==>
      debugPane.activated && debugPane.written == [LaunchingApplication]
    ensures !(assemblyName == AppAssemblyName && FatalError(env).None?) ==> unchanged(debugPane)
  {
    var calls;
    outcome, calls := provider.DeployAsync(assemblyName, folder, outputPane, env);
    ghost var afterDeploy := provider.logger.events;
    provider.Commit(debugPane);
    if !provider.appDeployed {
      assert outcome.Threw? ==> afterDeploy[|afterDeploy| - 1] == Log(ResetHint);
    }
  }

  /**
   * The best-effort OS step only ever adds a log line: two deploys whose outside worlds
   * differ only in what the OS-version query and the download answer end the same way,
   * leave `appDeployed` the same and write the same lines to the output pane.
   */
  method OsStepOnlyLogs(
    provider: DeployProvider, assemblyName: string, folder: string, outputPane: PaneWriter,
    env: DeviceEnv, osVersion: Option<string>, downloadOk: bool)
    returns (first: Outcome, second: Outcome, deployedFirst: bool)
    requires provider.meadow.Valid()
    modifies provider, provider.meadow, provider.logger, outputPane
    ensures provider.meadow.Valid()
    ensures first == second && provider.appDeployed == deployedFirst
    ensures outputPane.written == old(outputPane.written) + FailureLines(first) + FailureLines(second)
  {
    var calls;
    first, calls := provider.DeployAsync(assemblyName, folder, outputPane, env);
    deployedFirst := provider.appDeployed;
    second, calls := provider.DeployAsync(assemblyName, folder, outputPane,
                                          env.(osVersion := osVersion, downloadOk := downloadOk));
  }

  /**
   * Deploy then debug: every step keeps at most one live helper, and when both find the
   * device the helper the deploy installed is disposed and the debug session runs over a
   * helper created after it, which is the only live one.
   */
  method DeployThenDebug(
    provider: DeployProvider, launcher: MeadowDebuggerLaunchProvider, folder: string,
    outputPane: PaneWriter, env: DeviceEnv, profile: LaunchProfile, deviceFoundForDebug: bool)
    returns (targets: seq<DebugLaunchSettings>)
    requires provider.meadow == launcher.meadow && provider.meadow.Valid()
    modifies provider, provider.meadow, provider.logger, outputPane, launcher
    ensures launcher.meadow.Valid() && |launcher.meadow.Live()| <= 1
    ensures env.deviceFound && deviceFoundForDebug ==>
      var deployed := old(launcher.meadow.created);
      deployed in launcher.meadow.disposed &&
      |targets| == 1 && targets[0].session.helper == deployed + 1 &&
      launcher.meadow.Live() == {deployed + 1}
  {
    var outcome, deployCalls := provider.DeployAsync(AppAssemblyName, folder, outputPane, env);
    ghost var afterDeploy := launcher.meadow.created;
    var debugCalls;
    targets, debugCalls := launcher.QueryDebugTargetsAsync({}, profile, deviceFoundForDebug);
    ExclusiveAtMostOneLive(launcher.meadow.current, launcher.meadow.disposed, launcher.meadow.created);
    if env.deviceFound && deviceFoundForDebug {
      assert targets[0].session == SessionFor(profile, afterDeploy);
    }
  }
}
