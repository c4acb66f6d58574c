/**
 * The device-selection combo box of the Meadow package: the handler that reports or changes
 * the selected serial port, the handler that lists the ports, and the case-insensitive
 * membership test they share.
 *
 * The live port list (`MeadowDeviceManager.GetSerialPorts`) is a parameter. The persisted
 * settings file is the class `MeadowSettings`; marshalling into the host's out-value address is
 * modelled as an optional out-value in the handler's result.
 */
module MeadowPackage {
  import opened Common

  /** The sentinel offered in the drop-down when no port is attached. */
  const NoDevicesFound: string := "No Devices Found"

  const InvalidDeviceSelected: string := "Invalid Device Selected"
  const EventArgsRequired: string := "EventArgs Required"
  const InParamInvalid: string := "InParam Invalid"
  const OutParamRequired: string := "OutParam Required"

  /** An object the host passes as the in-value of a command: a string or something else. */
  datatype Variant = Text(text: string) | OtherObject

  /**
   * The event arguments of a command. For `OleMenuCmdEventArgs`, `inValue` is `None` when
   * the in-value is null and `outValueRequested` is true when the out-value address is non-null.
   */
  datatype EventArgs =
    | OleMenuCmdEventArgs(inValue: Option<Variant>, outValueRequested: bool)
    | OtherEventArgs

  /** How a command handler ends: normally, with the value it wrote to the out-value address if any, or with an exception. */
  datatype HandlerResult<T> = Done(outValue: Option<T>) | Raised(message: string)

  /** The persisted settings file, reduced to the selected device. */
  class MeadowSettings {
    var deviceTarget: string
    /** How many times the settings have been written back to disk. */
    var saveCount: nat

    constructor (deviceTarget: string)
      ensures this.deviceTarget == deviceTarget && saveCount == 0
    {
      this.deviceTarget := deviceTarget;
      saveCount := 0;
    }

    /** Sets `DeviceTarget` and calls `Save()`. */
    method SaveDeviceTarget(target: string)
      modifies this
      ensures deviceTarget == target && saveCount == old(saveCount) + 1
    {
      deviceTarget := target;
      saveCount := saveCount + 1;
    }
  }

  // Case-insensitive comparison. The culture-aware comparison of the host is modelled by
  // folding ASCII upper-case letters to lower case.

  function LowerAscii(c: char): char
  {
    if 'A' <= c <= 'Z' then (c as int - 'A' as int + 'a' as int) as char else c
  }

  function Fold(s: string): string
  {
    seq(|s|, i requires 0 <= i < |s| => LowerAscii(s[i]))
  }

  predicate SameIgnoringCase(a: string, b: string)
  {
    Fold(a) == Fold(b)
  }

  /** Some port equals the choice, ignoring case. */
  predicate InPortList(ports: seq<string>, choice: string)
  {
    exists i :: 0 <= i < |ports| && SameIgnoringCase(ports[i], choice)
  }

  /** `IsValueInPortList`: a scan of the port list that stops at the first match. */
  method IsValueInPortList(portList: seq<string>, newChoice: string) returns (validInput: bool)
    ensures validInput <==> InPortList(portList, newChoice)
  {
    validInput := false;
    var i := 0;
    while i < |portList|
      invariant 0 <= i <= |portList|
      invariant !validInput
      invariant forall j :: 0 <= j < i ==> !SameIgnoringCase(portList[j], newChoice)
    {
      if SameIgnoringCase(portList[i], newChoice) {
        validInput := true;
        break;
      }
      i := i + 1;
    }
  }

  /** Membership carries over to any list that contains every port of the first. */
  lemma InPortListMonotone(a: seq<string>, b: seq<string>, choice: string)
    requires forall p :: p in a ==> p in b
    ensures InPortList(a, choice) ==> InPortList(b, choice)
  {
    if InPortList(a, choice) {
      var i :| 0 <= i < |a| && SameIgnoringCase(a[i], choice);
      assert a[i] in b;
      var j :| 0 <= j < |b| && b[j] == a[i];
    }
  }

  /** The answer does not depend on where in the list the match sits. */
  lemma InPortListIgnoresOrder(a: seq<string>, b: seq<string>, choice: string)
    requires multiset(a) == multiset(b)
    ensures InPortList(a, choice) <==> InPortList(b, choice)
  {
    forall p | p in a ensures p in b {
      assert p in multiset(a);
    }
    forall p | p in b ensures p in a {
      assert p in multiset(b);
    }
    InPortListMonotone(a, b, choice);
    InPortListMonotone(b, a, choice);
  }

  /** The answer does not depend on the case in which the choice is written. */
  lemma InPortListIgnoresCase(ports: seq<string>, a: string, b: string)
    requires SameIgnoringCase(a, b)
    ensures InPortList(ports, a) <==> InPortList(ports, b)
  {
  }

  /** The values the drop-down offers for a port list. */
  function OfferedValues(ports: seq<string>): seq<string>
  {
    if |ports| > 0 then ports else [NoDevicesFound]
  }

  /**
   * Every value the drop-down offers is accepted when chosen against the same port list:
   * it is a port, or it is the sentinel and no port is attached.
   */
  lemma OfferedValuesAccepted(ports: seq<string>, choice: string)
    requires choice in OfferedValues(ports)
    ensures InPortList(ports, choice) || (ports == [] && choice == NoDevicesFound)
  {
  }

  /** True when the host asks for the current value (the out-value address is non-null). */
  predicate IsQuery(e: EventArgs)
  {
    e.OleMenuCmdEventArgs? && e.outValueRequested
  }

  /** The string the host passes as the newly chosen value, when it asks to set one. */
  function NewChoice(e: EventArgs): Option<string>
  {
    if e.OleMenuCmdEventArgs? && !e.outValueRequested && e.inValue.Some? && e.inValue.value.Text?
    then Some(e.inValue.value.text)
    else None
  }

  /**
   * `OnMeadowDeviceListCombo`. A query reports the selected port: the only port (which is then
   * persisted), or with several ports the stored preference if it names one of them (else the
   * empty string), or nothing at all with no ports. Setting a value persists it if it is a
   * port, ignores the sentinel and rejects anything else.
   */
  method OnMeadowDeviceListCombo(e: EventArgs, portList: seq<string>, settings: MeadowSettings)
    returns (r: HandlerResult<string>)
    modifies settings
    ensures e.OtherEventArgs? ==> r == Raised(EventArgsRequired) && unchanged(settings)
    ensures IsQuery(e) && |portList| == 0 ==> r == Done(None) && unchanged(settings)
    ensures IsQuery(e) && |portList| == 1 ==>
      r == Done(Some(portList[0])) &&
      settings.deviceTarget == portList[0] && settings.saveCount == old(settings.saveCount) + 1
    ensures IsQuery(e) && |portList| >= 2 ==>
      unchanged(settings) &&
      (InPortList(portList, settings.deviceTarget) ==> r == Done(Some(settings.deviceTarget))) &&
      (!InPortList(portList, settings.deviceTarget) ==> r == Done(Some("")))
    ensures NewChoice(e).Some? && InPortList(portList, NewChoice(e).value) ==>
      r == Done(None) &&
      settings.deviceTarget == NewChoice(e).value && settings.saveCount == old(settings.saveCount) + 1
    ensures NewChoice(e).Some? && !InPortList(portList, NewChoice(e).value) ==>
      unchanged(settings) &&
      r == (if NewChoice(e).value == NoDevicesFound then Done(None) else Raised(InvalidDeviceSelected))
    ensures e.OleMenuCmdEventArgs? && !IsQuery(e) && NewChoice(e).None? ==>
      r == Done(None) && unchanged(settings)
  {
    if e.OleMenuCmdEventArgs? {
      if e.outValueRequested {
        r := Done(None);
        if |portList| > 0 {
          var deviceTarget := "";
          if |portList| == 1 {
            deviceTarget := portList[0];
            settings.SaveDeviceTarget(portList[0]);
          } else {
            var valueInPortList := IsValueInPortList(portList, settings.deviceTarget);
            if valueInPortList {
              deviceTarget := settings.deviceTarget;
            }
          }
          r := Done(Some(deviceTarget));
        }
      } else if e.inValue.Some? && e.inValue.value.Text? {
        var newChoice := e.inValue.value.text;
        var valueInPortList := IsValueInPortList(portList, newChoice);
        if valueInPortList {
          settings.SaveDeviceTarget(newChoice);
          r := Done(None);
        } else if newChoice != NoDevicesFound {
          r := Raised(InvalidDeviceSelected);
        } else {
          r := Done(None);
        }
      } else {
        r := Done(None);
      }
    } else {
      r := Raised(EventArgsRequired);
    }
  }

  /**
   * `OnMeadowDeviceListComboGetList`: writes the values the drop-down offers, the port list or
   * the sentinel alone, and raises when an in-value is given or no out-value address is. Event
   * arguments of another kind are ignored.
   */
  method OnMeadowDeviceListComboGetList(e: EventArgs, portList: seq<string>)
    returns (r: HandlerResult<seq<string>>)
    ensures e.OtherEventArgs? ==> r == Done(None)
    ensures e.OleMenuCmdEventArgs? && e.inValue.Some? ==> r == Raised(InParamInvalid)
    ensures e.OleMenuCmdEventArgs? && e.inValue.None? && !e.outValueRequested ==>
      r == Raised(OutParamRequired)
    ensures e.OleMenuCmdEventArgs? && e.inValue.None? && e.outValueRequested ==>
      r.Done? && r.outValue.Some? && |r.outValue.value| >= 1 &&
      (|portList| > 0 ==> r.outValue.value == portList) &&
      (|portList| == 0 ==> r.outValue.value == [NoDevicesFound])
    ensures r.Done? && r.outValue.Some? ==> r.outValue.value == OfferedValues(portList)
  {
    r := Done(None);
    if e.OleMenuCmdEventArgs? {
      if e.inValue.Some? {
        r := Raised(InParamInvalid);
      } else if e.outValueRequested {
        if |portList| > 0 {
          r := Done(Some(portList));
        } else {
          r := Done(Some([NoDevicesFound]));
        }
      } else {
        r := Raised(OutParamRequired);
      }
    }
  }
}
