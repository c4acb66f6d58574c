/**
 * The deploy provider: the host calls `DeployAsync` for every project of the solution, then
 * `Commit` (or `Rollback`). Only the project whose assembly is named "App" is deployed.
 *
 * What the device, the device lookup, the OS download service and the transfer answer is a
 * parameter (`DeviceEnv`); the calls the provider makes on them are returned, in order, as a
 * list of `ExternalCall`s. The static `Meadow` slot and the static logger are objects shared
 * with the rest of the extension.
 */
module Deploy {
  import opened Common
  import opened DeviceCalls
  import opened DeviceSlot
  import opened Logging

  const AppAssemblyName: string := "App"
  const AppFileName: string := "App.dll"
  const NoDeviceMessage: string :=
    "A device has not been selected. Please attach a device, then select it from the Device list."
  const OsDownloadFailed: string := "OS download failed, make sure you have an active internet connection"
  const ResetHint: string := "Reset Meadow and try again."
  /** `Environment.NewLine` on Windows. */
  const NewLine: string := "\r\n"
  const LaunchingApplication: string := " Launching application..." + NewLine
  const RollingBack: string := "Rolling Back"

  function DeployFailed(message: string): string
  {
    "Deploy failed: " + message
  }

  datatype TransferResult = TransferOk | TransferFailed(message: string)

  /**
   * The answers of the outside world during one deploy: whether a device is found, the OS
   * version the device reports (`None` when the query throws or times out), whether the OS
   * download succeeds, and how the application transfer ends.
   */
  datatype DeviceEnv = DeviceEnv(
    deviceFound: bool,
    osVersion: Option<string>,
    downloadOk: bool,
    transfer: TransferResult)

  /** The best-effort OS step fails when the version query or the download throws. */
  predicate OsStepFailed(env: DeviceEnv)
  {
    env.osVersion.None? || !env.downloadOk
  }

  /** The exception that ends a deploy of "App", if any: no device, or a failed transfer. */
  function FatalError(env: DeviceEnv): Option<string>
  {
    if !env.deviceFound then Some(NoDeviceMessage)
    else if env.transfer.TransferFailed? then Some(env.transfer.message)
    else None
  }

  /** The best-effort OS step never decides whether a deploy fails. */
  lemma OsStepNeverFatal(env: DeviceEnv, osVersion: Option<string>, downloadOk: bool)
    ensures FatalError(env.(osVersion := osVersion, downloadOk := downloadOk)) == FatalError(env)
    ensures FatalError(env).None? <==> env.deviceFound && env.transfer.TransferOk?
  {
  }

  /** The two lines written on a fatal failure, to the output pane and again to the logger. */
  function FailureLines(outcome: Outcome): (lines: seq<string>)
    ensures outcome.Returned? <==> lines == []
  {
    if outcome.Threw? then [DeployFailed(outcome.message), ResetHint] else []
  }

  function AsLog(lines: seq<string>): (events: seq<LogEvent>)
    ensures |events| == |lines|
    ensures forall i :: 0 <= i < |lines| ==> events[i] == Log(lines[i])
  {
    if lines == [] then [] else [Log(lines[0])] + AsLog(lines[1..])
  }

  /** The calls the best-effort OS step makes: the version query, then the download only if the query answered. */
  function OsStepCalls(helper: HelperId, env: DeviceEnv): seq<ExternalCall>
  {
    [QueryOSVersion(helper)] + (if env.osVersion.Some? then [DownloadOS(env.osVersion.value)] else [])
  }

  /**
   * The calls `DeployAppAsync` makes when the slot held `held` and the next helper to be
   * created is `next`: dispose the old helper, look the device up, and if found create a
   * helper, run the OS step on it and transfer `<folder>/App.dll` with verification.
   */
  function DeployAppCalls(held: Option<HelperId>, next: HelperId, folder: string, env: DeviceEnv): seq<ExternalCall>
  {
    DisposeCalls(held) + [FindDevice] +
    (if env.deviceFound
     then [CreateHelper(next)] + OsStepCalls(next, env) + [TransferApp(next, Combine(folder, AppFileName), true)]
     else [])
  }

  /**
   * The order of the calls: the old helper is disposed before the device lookup; the transfer
   * is attempted whenever a device is found, whatever the OS step did; a download is attempted
   * only right after a version query that answered.
   */
  lemma DeployAppCallOrder(held: Option<HelperId>, next: HelperId, folder: string, env: DeviceEnv)
    ensures var calls := DeployAppCalls(held, next, folder, env);
      var k := |DisposeCalls(held)|;
      k < |calls| && calls[k] == FindDevice &&
      (forall i :: 0 <= i < k ==> calls[i] == DisposeHelper(held.value)) &&
      (TransferApp(next, Combine(folder, AppFileName), true) in calls <==> env.deviceFound) &&
      (forall i :: 0 <= i < |calls| && calls[i].DownloadOS? ==>
         0 < i && calls[i - 1] == QueryOSVersion(next) && env.osVersion == Some(calls[i].version))
  {
  }

  /** What the best-effort OS step writes to the logger. */
  function OsStepLog(env: DeviceEnv): seq<LogEvent>
  {
    if env.deviceFound && OsStepFailed(env) then [Log(OsDownloadFailed)] else []
  }

  class DeployProvider {
    var appDeployed: bool
    /** The static `DeployProvider.Meadow` slot. */
    const meadow: HelperSlot
    /** The static logger. */
    const logger: OutputLogger

    constructor (meadow: HelperSlot, logger: OutputLogger)
      ensures this.meadow == meadow && this.logger == logger && !appDeployed
    {
      this.meadow := meadow;
      this.logger := logger;
      appDeployed := false;
    }

    /**
     * `DeployAsync`: re-points the logger at the host's writer and clears `appDeployed`, then,
     * for the "App" assembly only, deploys the output folder. A fatal failure clears
     * `appDeployed`, is logged in two lines and is raised again.
     */
    method DeployAsync(assemblyName: string, folder: string, outputPane: PaneWriter, env: DeviceEnv)
      returns (outcome: Outcome, calls: seq<ExternalCall>)
      requires meadow.Valid()
      modifies this`appDeployed, meadow, logger, outputPane`written
      ensures meadow.Valid()
      ensures appDeployed <==> assemblyName == AppAssemblyName && outcome == Returned
      ensures outcome.Threw? <==> assemblyName == AppAssemblyName && FatalError(env).Some?
      ensures outcome.Threw? ==> outcome.message == FatalError(env).value
      ensures assemblyName != AppAssemblyName ==>
        outcome == Returned && calls == [] && unchanged(meadow, outputPane) &&
        logger.events == old(logger.events) + [DisconnectPane, ConnectTextWriter(outputPane)]
      ensures assemblyName == AppAssemblyName ==>
        calls == DeployAppCalls(old(meadow.current), old(meadow.created), folder, env) &&
        outputPane.written == old(outputPane.written) + FailureLines(outcome) &&
        logger.events == old(logger.events) + [DisconnectPane, ConnectTextWriter(outputPane)] + OsStepLog(env)
                         + AsLog(FailureLines(outcome)) &&
        meadow.disposed == old(meadow.disposed) + Held(old(meadow.current)) &&
        (env.deviceFound ==>
           meadow.current == Some(old(meadow.created)) && meadow.created == old(meadow.created) + 1 &&
           meadow.Live() == {old(meadow.created)}) &&
        (!env.deviceFound ==>
           meadow.current == old(meadow.current) && meadow.created == old(meadow.created) &&
           meadow.Live() == {} && (meadow.current.Some? ==> meadow.Stale()))
    {
      logger.Record(DisconnectPane);
      logger.Record(ConnectTextWriter(outputPane));
      appDeployed := false;
      calls := [];
      outcome := Returned;

      if assemblyName != AppAssemblyName {
        return;
      }

      appDeployed := true;
      outcome, calls := DeployAppAsync(folder, outputPane, env);
      if outcome.Threw? {
        appDeployed := false;
        logger.Record(Log(DeployFailed(outcome.message)));
        logger.Record(Log(ResetHint));
      }
    }

    /**
     * `DeployAppAsync`: disposes the helper in the slot, looks the device up (no device is
     * fatal), installs a new helper, runs the best-effort OS step and transfers `App.dll`.
     * A fatal failure clears `appDeployed` and writes two lines to the output pane.
     */
    method DeployAppAsync(folder: string, outputPane: PaneWriter, env: DeviceEnv)
      returns (outcome: Outcome, calls: seq<ExternalCall>)
      requires meadow.Valid()
      modifies this`appDeployed, meadow, logger, outputPane`written
      ensures meadow.Valid()
      ensures outcome == (if FatalError(env).Some? then Threw(FatalError(env).value) else Returned)
      ensures appDeployed == (old(appDeployed) && outcome == Returned)
      ensures calls == DeployAppCalls(old(meadow.current), old(meadow.created), folder, env)
      ensures outputPane.written == old(outputPane.written) + FailureLines(outcome)
      ensures logger.events == old(logger.events) + OsStepLog(env)
      ensures meadow.disposed == old(meadow.disposed) + Held(old(meadow.current))
      ensures env.deviceFound ==>
        meadow.current == Some(old(meadow.created)) && meadow.created == old(meadow.created) + 1 &&
        meadow.Live() == {old(meadow.created)}
      ensures !env.deviceFound ==>
        meadow.current == old(meadow.current) && meadow.created == old(meadow.created) &&
        meadow.Live() == {} && (meadow.current.Some? ==> meadow.Stale())
    {
      calls := meadow.DisposeCurrent();
      calls := calls + [FindDevice];
      if !env.deviceFound {
        appDeployed := false;
        outcome := Threw(NoDeviceMessage);
      } else {
        var helper, created := meadow.Install();
        calls := calls + created;

        calls := calls + [QueryOSVersion(helper)];
        match env.osVersion {
          case None =>
            logger.Record(Log(OsDownloadFailed));
          case Some(version) =>
            calls := calls + [DownloadOS(version)];
            if !env.downloadOk {
              logger.Record(Log(OsDownloadFailed));
            }
        }

        calls := calls + [TransferApp(helper, Combine(folder, AppFileName), true)];
        match env.transfer {
          case TransferOk =>
            outcome := Returned;
          case TransferFailed(message) =>
            outcome := Threw(message);
        }
      }

      if outcome.Threw? {
        appDeployed := false;
        outputPane.Write(DeployFailed(outcome.message));
        outputPane.Write(ResetHint);
      }
    }

    function IsDeploySupported(): (supported: bool)
      ensures supported
    {
      true
    }

    /**
     * `Commit`: only after a deploy that ran and succeeded, clears and activates the debug
     * pane, announces the launch there and moves the logger from the text writer to the pane.
     */
    method Commit(debugPane: PaneWriter)
      modifies logger, debugPane
      ensures !appDeployed ==> unchanged(logger, debugPane)
      ensures appDeployed ==>
        debugPane.activated && debugPane.written == [LaunchingApplication] &&
        logger.events == old(logger.events) + [DisconnectTextWriter, ConnectPane(debugPane)]
    {
      if !appDeployed {
        return;
      }
      debugPane.Activate();
      debugPane.Clear();
      debugPane.Write(LaunchingApplication);
      logger.Record(DisconnectTextWriter);
      logger.Record(ConnectPane(debugPane));
    }

    /** `Rollback`: writes a note to the console and changes nothing. */
    method Rollback() returns (console: string)
      ensures console == RollingBack
    {
      console := RollingBack;
    }
  }
}
