/** Small value types shared by the device-selection, deploy and debug-launch models. */
module Common {

  /** A value that may be absent: a null reference or an out-value that was never written. */
  datatype Option<T> = None | Some(value: T)

  /** How a host-called operation ends: it returns normally, or it raises an exception with a message. */
  datatype Outcome = Returned | Threw(message: string)
}
