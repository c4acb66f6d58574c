/**
 * The calls the deploy and debug-launch providers make on the outside world: the device
 * helper (`MeadowDeviceHelper`), the device lookup and the OS download service. A device
 * helper is identified by its creation number.
 */
module DeviceCalls {

  type HelperId = nat

  /** A path built by `Path.Combine(folder, file)`; how the two parts are joined is not modelled. */
  datatype FilePath = Combine(folder: string, file: string)

  /** The calls made on the device helper, the device lookup and the OS download service, in order. */
  datatype ExternalCall =
    | DisposeHelper(helper: HelperId)
    | FindDevice
    | CreateHelper(helper: HelperId)
    | QueryOSVersion(helper: HelperId)
    | DownloadOS(version: string)
    | TransferApp(helper: HelperId, path: FilePath, verify: bool)
}
