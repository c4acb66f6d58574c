# Meadow Visual Studio extension: device selection, deploy and debug launch

A Dafny model of the three rule sets underneath the Meadow extension for Visual Studio:

- **Device selection** (`MeadowPackage.cs`): the device drop-down's handlers. A query for the
  current value picks the only serial port (and persists it as `DeviceTarget`), or, with
  several ports, the stored `DeviceTarget` if it names one of them ignoring case, or nothing
  with no ports. Setting a value persists a listed port, ignores the `"No Devices Found"`
  sentinel and rejects anything else. The list handler offers the ports, or the sentinel alone.
- **Deploy** (`DeployProvider.cs`): only the `"App"` assembly is deployed. The helper in the
  shared `Meadow` slot is disposed, the device looked up (no device is fatal), a new helper
  installed, the OS version queried and the matching OS downloaded on a best-effort basis
  (failures logged and swallowed), and `App.dll` transferred. A fatal failure clears
  `appDeployed`, writes two lines to the output pane, logs them again, and is raised again.
  `Commit` moves the logger from the text writer to the debug pane only after a deploy that ran.
- **Debug launch** (`MeadowDebuggerLaunchProvider.cs`): without `NoDebug`, the helper in the
  same shared slot is disposed and, if a device is found, replaced; exactly one launch
  setting is returned for a soft-debugger session on loopback port 55898, and the session is
  kept and started after the host launches the engine.

The shared slot is the class `DeviceSlot.HelperSlot`: helpers are numbered by creation, the
slot holds at most one, and a set records the disposed ones. Its invariant `Exclusive` says
that every created helper other than the one in the slot is disposed, so at most one helper
is ever live; `Install` may only overwrite a disposed helper, and both providers prove that
they dispose before they install. The model also states the weakness of the code: on the
"no device" paths the slot keeps pointing at the helper it just disposed (`Stale`).

The outside world is a parameter: the port list, whether a device is found, the OS version
the device reports, whether the download and the transfer succeed. The calls made on it are
returned as an ordered list of `ExternalCall`s. The logger is modelled by the order of the
calls made on it, and output panes by the chunks written to them.

Files: `common.dfy` (Option, Outcome), `output_logger.dfy` (logger and pane writer),
`device_calls.dfy` (the calls made on the outside world), `device_slot.dfy` (the shared slot), `meadow_package.dfy`, `deploy_provider.dfy`,
`launch_provider.dfy`, `scenarios.dfy` (host call sequences across both providers).

Behaviours of the code that the model keeps, though a reader might expect otherwise:
- a failed transfer does not dispose the freshly installed helper; it stays live in the slot
  (`DeployProvider.cs:99-109`);
- when no device is found, neither provider clears the slot, so it holds a disposed helper
  (`DeployProvider.cs:74-81`, `MeadowDebuggerLaunchProvider.cs:64-88`);
- the list handler silently ignores event arguments of the wrong kind, while the combo
  handler raises "EventArgs Required" (`MeadowPackage.cs:150-154`, `:157-185`).

## Model

| member | source | states |
|---|---|---|
| MeadowPackage.IsValueInPortList | VS_Meadow_Extension/VS_Meadow_Extension.Shared/MeadowPackage.cs:187-200 | the early-exit scan answers true iff some port equals the choice ignoring case |
| MeadowPackage.InPortListIgnoresOrder | VS_Meadow_Extension/VS_Meadow_Extension.Shared/MeadowPackage.cs:187-200 | the answer is the same for any reordering of the port list: it does not depend on where the match sits |
| MeadowPackage.InPortListIgnoresCase | VS_Meadow_Extension/VS_Meadow_Extension.Shared/MeadowPackage.cs:192 | two choices that differ only in letter case get the same answer |
| MeadowPackage.OfferedValuesAccepted | VS_Meadow_Extension/VS_Meadow_Extension.Shared/MeadowPackage.cs:171-178 | every value the drop-down offers, chosen against the same port list, is a listed port or the sentinel with no ports, so choosing it never raises "Invalid Device Selected" |
| MeadowPackage.OnMeadowDeviceListCombo | VS_Meadow_Extension/VS_Meadow_Extension.Shared/MeadowPackage.cs:93-155 | wrong event arguments raise "EventArgs Required"; a query (which takes precedence over a set) with one port returns it and saves it, with several returns the stored target if it matches a port ignoring case else "", without saving, and with none writes nothing; a set saves a listed choice, ignores "No Devices Found", raises "Invalid Device Selected" otherwise, and a non-string in-value does nothing |
| MeadowPackage.OnMeadowDeviceListComboGetList | VS_Meadow_Extension/VS_Meadow_Extension.Shared/MeadowPackage.cs:157-185 | a non-null in-value raises "InParam Invalid"; a missing out-value address raises "OutParam Required"; otherwise it writes the port list unchanged, or exactly ["No Devices Found"] when there is none; other event arguments are ignored |
| DeviceSlot.HelperSlot.constructor | VS_Meadow_Extension/VS_Meadow_Extension.Shared/DeployProvider.cs:27 | the static slot starts null with no helper created, which satisfies the exclusivity invariant |
| DeviceSlot.HelperSlot.DisposeCurrent | VS_Meadow_Extension/VS_Meadow_Extension.Shared/DeployProvider.cs:74 | `Meadow?.Dispose()` disposes the helper in the slot if any, leaves it in the slot (stale), and afterwards no helper is live |
| DeviceSlot.HelperSlot.Install | VS_Meadow_Extension/VS_Meadow_Extension.Shared/DeployProvider.cs:83 | a new helper may replace only a disposed one; it goes into the slot and is then the only live helper |
| DeviceSlot.ExclusiveAtMostOneLive | VS_Meadow_Extension/VS_Meadow_Extension.Shared/DeployProvider.cs:74-83 | under the slot invariant at most one helper is live, and it is the one in the slot |
| DeviceSlot.DisposeKeepsExclusive | VS_Meadow_Extension/VS_Meadow_Extension.Shared/DeployProvider.cs:74 | disposing the helper in the slot keeps the invariant and leaves no live helper |
| DeviceSlot.InstallKeepsExclusive | VS_Meadow_Extension/VS_Meadow_Extension.Shared/DeployProvider.cs:83 | installing after disposal keeps the invariant, with the new helper the only live one |
| Deploy.OsStepNeverFatal | VS_Meadow_Extension/VS_Meadow_Extension.Shared/DeployProvider.cs:86-101 | whatever the OS-version query and the download answer, the deploy fails exactly when no device is found or the transfer fails |
| Deploy.DeployAppCallOrder | VS_Meadow_Extension/VS_Meadow_Extension.Shared/DeployProvider.cs:74-101 | the old helper is disposed before the device lookup; `<folder>/App.dll` is transferred with verification whenever a device is found; a download happens only right after a version query that answered, for that version |
| Deploy.DeployProvider.constructor | VS_Meadow_Extension/VS_Meadow_Extension.Shared/DeployProvider.cs:27-29 | a provider starts with `appDeployed` false and shares the static slot and logger |
| Deploy.DeployProvider.DeployAsync | VS_Meadow_Extension/VS_Meadow_Extension.Shared/DeployProvider.cs:37-68 | the logger is first disconnected from the pane and connected to the writer it was handed; the output pane's activation is untouched; a name other than "App" returns with `appDeployed` false and the slot and pane untouched; for "App", `appDeployed` ends true iff no exception, a fatal failure writes "Deploy failed: <msg>" and "Reset Meadow and try again." to the pane and logs the same two lines, and is raised with its message; the slot keeps the exclusivity invariant |
| Deploy.DeployProvider.DeployAppAsync | VS_Meadow_Extension/VS_Meadow_Extension.Shared/DeployProvider.cs:70-110 | disposes the old helper, fails with the "A device has not been selected…" message when no device is found (slot left stale), otherwise installs a fresh helper as the only live one; an OS-step failure is logged once and swallowed; a fatal failure clears `appDeployed` and writes the two lines to the pane |
| Deploy.DeployProvider.IsDeploySupported | VS_Meadow_Extension/VS_Meadow_Extension.Shared/DeployProvider.cs:112-115 | deploy is always supported |
| Deploy.DeployProvider.Commit | VS_Meadow_Extension/VS_Meadow_Extension.Shared/DeployProvider.cs:117-135 | does nothing unless `appDeployed`; otherwise activates and clears the debug pane, writes " Launching application...", then disconnects the text writer and connects that pane, in that order |
| Deploy.DeployProvider.Rollback | VS_Meadow_Extension/VS_Meadow_Extension.Shared/DeployProvider.cs:137-140 | writes "Rolling Back" to the console and changes no state |
| DebugLaunch.SessionFor | VS_Meadow_Extension/VS_Meadow_Extension.Shared/MeadowDebuggerLaunchProvider.cs:72-78 | the session debugs through the given helper on loopback 127.0.0.1 port 55898, named after the profile, with the options of lines 27-33: evaluation 10000, member evaluation 15000, modification 10000, socket 0 |
| DebugLaunch.MeadowDebuggerLaunchProvider.constructor | VS_Meadow_Extension/VS_Meadow_Extension.Shared/MeadowDebuggerLaunchProvider.cs:38 | a provider starts with no kept session and shares the static slot |
| DebugLaunch.MeadowDebuggerLaunchProvider.SupportsProfile | VS_Meadow_Extension/VS_Meadow_Extension.Shared/MeadowDebuggerLaunchProvider.cs:46 | every profile is supported |
| DebugLaunch.MeadowDebuggerLaunchProvider.QueryDebugTargetsAsync | VS_Meadow_Extension/VS_Meadow_Extension.Shared/MeadowDebuggerLaunchProvider.cs:56-89 | with NoDebug: no target, no session, slot untouched; otherwise the old helper is disposed before the lookup; found: a fresh helper is the only live one, the session over it is kept and exactly one target carrying it is returned; not found: no target, no session, slot still holds the disposed helper; at most one target, and a session is kept iff one is returned |
| DebugLaunch.MeadowDebuggerLaunchProvider.OnBeforeLaunchAsync | VS_Meadow_Extension/VS_Meadow_Extension.Shared/MeadowDebuggerLaunchProvider.cs:91 | returns a completed task and changes nothing |
| DebugLaunch.MeadowDebuggerLaunchProvider.OnAfterLaunchAsync | VS_Meadow_Extension/VS_Meadow_Extension.Shared/MeadowDebuggerLaunchProvider.cs:93-97 | starts exactly the kept session, and nothing when none is kept |
| DebugLaunch.MeadowDebuggerLaunchProvider.StartDebugger | VS_Meadow_Extension/VS_Meadow_Extension.Shared/MeadowDebuggerLaunchProvider.cs:99-103 | always reports success and changes nothing |
| Scenarios.DeployThenCommit | VS_Meadow_Extension/VS_Meadow_Extension.Shared/DeployProvider.cs:117-120 | after a deploy and a commit, the logger ends connected to the debug pane and the pane announces the launch exactly when "App" was deployed without a fatal error |
| Scenarios.OsStepOnlyLogs | VS_Meadow_Extension/VS_Meadow_Extension.Shared/DeployProvider.cs:86-97 | two deploys whose outside worlds differ only in the OS-version query and the download end alike, leave `appDeployed` alike and write the same lines to the output pane: the OS step's failure is swallowed |
| Scenarios.DeployThenDebug | VS_Meadow_Extension/VS_Meadow_Extension.Shared/MeadowDebuggerLaunchProvider.cs:64-70 | across a deploy and a debug launch on the shared slot at most one helper is live; when both find the device, the deploy's helper is disposed and the session runs over the newer helper, the only live one |

## Left out

- Culture-sensitive comparison (`CurrentCultureIgnoreCase`): modelled as ASCII case folding.
- `Marshal.GetNativeVariantForObject` and the `IntPtr` out-value address: modelled as an optional out-value in the handler's result.
- Package registration, `InitializeAsync` command wiring, `GuidList`, `PkgCmdIDList` and the assembly attributes: host plumbing with no logic.
- Async execution and threading (`SwitchToMainThreadAsync`, `ConfigureAwait`, `async void Commit`): every call is modelled as sequential; the code has no locking around the shared slot, and interleavings are not modelled.
- Project property lookups and `Path.Combine`: the assembly name and the output folder are parameters, and a combined path is kept as the pair of its parts.
- The 30-second timeout and the cancellation token: they only reach external code; a timeout or cancellation appears as a failed version query or a failed transfer.
- Exceptions raised by the device lookup, by `Dispose`, by creating a `MeadowDeviceHelper` (`DeployProvider.cs:83`, `MeadowDebuggerLaunchProvider.cs:70`), by the property lookups, by the host's output window, or by building the debugger session (`VsHierarchy` calls `vsHierarchies.Single()`, `MeadowDebuggerLaunchProvider.cs:44`, `:75`; such an exception would leave the new helper installed and the previous session kept): not modelled; the device lookup answers found or not found.
- Internals of `MeadowDeviceHelper`, `DownloadManager`, `OutputLogger`, `VsOutputPaneLogger` and the settings file: the logger is modelled only by the order of the calls the providers make on it, and lines the helpers log themselves are not recorded.
- `MeadowSettings`: only `DeviceTarget` and whether it was saved are modelled; loading the file and its other settings are not.
- The project handle passed to the debug session's start info (`VsHierarchy.GetProject()`), the output-pane logger given to the session, and the session's behaviour once started.
