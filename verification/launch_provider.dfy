/**
 * The debug launch provider: asked for debug targets, it replaces the device helper in the
 * shared `Meadow` slot, builds one soft-debugger session on a fixed loopback port and keeps
 * it, and starts the kept session once the host has launched the debug engine.
 *
 * Whether the device lookup finds a device is a parameter; the session objects of the debug
 * engine are reduced to the values the provider hands them.
 */
module DebugLaunch {
  import opened Common
  import opened DeviceCalls
  import opened DeviceSlot

  /** The loopback TCP port the soft debugger connects to. */
  const DebugPort: nat := 55898

  datatype IPAddress = IPv4(a: nat, b: nat, c: nat, d: nat)

  const Loopback: IPAddress := IPv4(127, 0, 0, 1)

  /** Timeouts in milliseconds; a socket timeout of 0 means no timeout. */
  datatype DebuggingOptions = DebuggingOptions(
    evaluationTimeout: nat,
    memberEvaluationTimeout: nat,
    modificationTimeout: nat,
    socketTimeout: nat)

  const Options: DebuggingOptions := DebuggingOptions(10000, 15000, 10000, 0)

  datatype ConnectArgs = SoftDebuggerConnectArgs(appName: string, address: IPAddress, port: nat)

  datatype StartInfo = StartInfo(args: ConnectArgs, options: DebuggingOptions)

  /** A debugger session bound to the device helper it debugs through. */
  datatype DebuggerSession = DebuggerSession(helper: HelperId, startInfo: StartInfo)

  datatype LaunchFlag = NoDebug | OtherFlag(name: string)

  datatype LaunchProfile = LaunchProfile(name: string)

  /** The launch settings handed to the host: the launch options and the marshalled session. */
  datatype DebugLaunchSettings = MonoDebugLaunchSettings(launchOptions: set<LaunchFlag>, session: DebuggerSession)

  /** The session built for a profile over a helper: loopback, the fixed port, the fixed options. */
  function SessionFor(profile: LaunchProfile, helper: HelperId): (s: DebuggerSession)
    ensures s.helper == helper && s.startInfo.args.appName == profile.name
    ensures s.startInfo.args.address == IPv4(127, 0, 0, 1) && s.startInfo.args.port == 55898
    ensures s.startInfo.options.evaluationTimeout == 10000
    ensures s.startInfo.options.memberEvaluationTimeout == 15000
    ensures s.startInfo.options.modificationTimeout == 10000
    ensures s.startInfo.options.socketTimeout == 0
  {
    DebuggerSession(helper, StartInfo(SoftDebuggerConnectArgs(profile.name, Loopback, DebugPort), Options))
  }

  class MeadowDebuggerLaunchProvider {
    /** The session kept between `QueryDebugTargetsAsync` and `OnAfterLaunchAsync`. */
    var vsSession: Option<DebuggerSession>
    /** The static `DeployProvider.Meadow` slot. */
    const meadow: HelperSlot

    constructor (meadow: HelperSlot)
      ensures this.meadow == meadow && vsSession == None
    {
      this.meadow := meadow;
      vsSession := None;
    }

    function SupportsProfile(profile: LaunchProfile): (supported: bool)
      ensures supported
    {
      true
    }

    /**
     * `QueryDebugTargetsAsync`: a launch without debugging yields no target and forgets the
     * kept session without touching the slot. Otherwise the helper in the slot is disposed
     * and the device looked up; if found, a new helper is installed and exactly one target is
     * returned, carrying the session that is also kept; if not, no target is returned and the
     * slot is left pointing at the disposed helper.
     */
    method QueryDebugTargetsAsync(launchOptions: set<LaunchFlag>, profile: LaunchProfile, deviceFound: bool)
      returns (targets: seq<DebugLaunchSettings>, calls: seq<ExternalCall>)
      requires meadow.Valid()
      modifies this`vsSession, meadow
      ensures meadow.Valid()
      ensures |targets| <= 1
      ensures |targets| == 1 <==> NoDebug !in launchOptions && deviceFound
      ensures vsSession.Some? <==> |targets| == 1
      ensures NoDebug in launchOptions ==> calls == [] && unchanged(meadow)
      ensures NoDebug !in launchOptions ==>
        meadow.disposed == old(meadow.disposed) + Held(old(meadow.current)) &&
        calls == DisposeCalls(old(meadow.current)) + [FindDevice] +
                 (if deviceFound then [CreateHelper(old(meadow.created))] else [])
      ensures NoDebug !in launchOptions && deviceFound ==>
        meadow.current == Some(old(meadow.created)) && meadow.created == old(meadow.created) + 1 &&
        meadow.Live() == {old(meadow.created)} &&
        vsSession == Some(SessionFor(profile, old(meadow.created))) &&
        targets == [MonoDebugLaunchSettings(launchOptions, vsSession.value)]
      ensures NoDebug !in launchOptions && !deviceFound ==>
        meadow.current == old(meadow.current) && meadow.created == old(meadow.created) &&
        meadow.Live() == {} && (meadow.current.Some? ==> meadow.Stale())
    {
      if NoDebug in launchOptions {
        vsSession := None;
        return [], [];
      }

      calls := meadow.DisposeCurrent();
      calls := calls + [FindDevice];

      if deviceFound {
        var helper, created := meadow.Install();
        calls := calls + created;
        var session := SessionFor(profile, helper);
        vsSession := Some(session);
        targets := [MonoDebugLaunchSettings(launchOptions, session)];
      } else {
        vsSession := None;
        targets := [];
      }
    }

    /** `OnBeforeLaunchAsync`: returns a completed task and does nothing else. */
    method OnBeforeLaunchAsync(launchOptions: set<LaunchFlag>, profile: LaunchProfile) returns (completed: Outcome)
      ensures completed == Returned
    {
      completed := Returned;
    }

    /** `OnAfterLaunchAsync`: starts the kept session, if there is one; `started` is the session started. */
    method OnAfterLaunchAsync(launchOptions: set<LaunchFlag>, profile: LaunchProfile)
      returns (started: Option<DebuggerSession>)
      ensures started == vsSession
    {
      started := None;
      if vsSession.Some? {
        started := vsSession;
      }
    }

    /** `StartDebugger`: the host starts the engine itself, so this only reports success. */
    function StartDebugger(session: DebuggerSession, startInfo: StartInfo): (ok: bool)
      ensures ok
    {
      true
    }
  }
}
