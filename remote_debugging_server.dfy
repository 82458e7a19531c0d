/**
 * `RemoteDebuggingServer`: whether remote debugging may run, and on which
 * port it is started, from the local-state policy, whether the user-data
 * directory is the default one, and the `--remote-debugging-port` switch
 * (`""` when absent). Starting the server is recorded as the port it listens
 * on; the desktop build (Windows, macOS, Linux) is modelled.
 */
module RemoteDebuggingServer {
  import opened Wrappers
  import NC = NumberConversions

  datatype NotStartedReason = NotRequested | DisabledByPolicy | DisabledByDefaultUserDataDir

  /** `GetInstance`'s result: an instance with the server listening on `port`, or the reason there is none. */
  datatype Outcome = Started(port: nat) | NotStarted(reason: NotStartedReason)

  /** The end of the accepted port range (exclusive). */
  const PortLimit: nat := 65535

  /**
   * `IsRemoteDebuggingAllowed`: the policy is checked first; then a default
   * user-data directory, or one not known to be non-default, forbids it.
   */
  function IsRemoteDebuggingAllowed(isDefaultUserDataDir: Option<bool>, policyAllows: bool): (r: Option<NotStartedReason>)
    ensures r == None <==> policyAllows && isDefaultUserDataDir == Some(false)
    ensures !policyAllows ==> r == Some(DisabledByPolicy)
    ensures policyAllows && r != None ==> r == Some(DisabledByDefaultUserDataDir)
  {
    if !policyAllows then Some(DisabledByPolicy)
    else if isDefaultUserDataDir.None? || isDefaultUserDataDir.value then Some(DisabledByDefaultUserDataDir)
    else None
  }

  /** The port the switch asks for: a parsable `int` in `[0, 65535)`. */
  function RequestedPort(portSwitch: string): (r: Option<nat>)
    ensures r.Some? <==> NC.StringToInt(portSwitch).Some? && 0 <= NC.StringToInt(portSwitch).value < PortLimit
    ensures r.Some? ==> r.value == NC.StringToInt(portSwitch).value && r.value < PortLimit
  {
    var parsed := NC.StringToInt(portSwitch);
    if parsed.Some? && parsed.value >= 0 && parsed.value < PortLimit then Some(parsed.value) else None
  }

  /** `GetInstance`: refuse when not allowed; start the server when a valid port was asked for; otherwise report it was not requested. */
  method GetInstance(isDefaultUserDataDir: Option<bool>, policyAllows: bool, portSwitch: string) returns (r: Outcome)
    ensures IsRemoteDebuggingAllowed(isDefaultUserDataDir, policyAllows).Some? ==>
            r == NotStarted(IsRemoteDebuggingAllowed(isDefaultUserDataDir, policyAllows).value)
    ensures IsRemoteDebuggingAllowed(isDefaultUserDataDir, policyAllows).None? && RequestedPort(portSwitch).Some? ==>
            r == Started(RequestedPort(portSwitch).value)
    ensures IsRemoteDebuggingAllowed(isDefaultUserDataDir, policyAllows).None? && RequestedPort(portSwitch).None? ==>
            r == NotStarted(NotRequested)
    ensures r.Started? ==> policyAllows && isDefaultUserDataDir == Some(false) && r.port < PortLimit
  {
    var refusal := IsRemoteDebuggingAllowed(isDefaultUserDataDir, policyAllows);
    if refusal.Some? {
      return NotStarted(refusal.value);
    }
    var beingDebugged := false;
    var port := 0;
    var parsed := NC.StringToInt(portSwitch);
    if parsed.Some? && parsed.value >= 0 && parsed.value < PortLimit {
      beingDebugged := true;
      port := parsed.value;
    }
    if beingDebugged {
      return Started(port);
    }
    r := NotStarted(NotRequested);
  }

  /** Every port below 65535, written in decimal, is accepted as itself. */
  lemma DecimalPortAccepted(p: nat)
    requires p < PortLimit
    ensures RequestedPort(NC.DecimalString(p)) == Some(p)
  {
    NC.StringToIntOfDecimal(p);
  }

  /** Port 65535, although a valid TCP port, is refused. */
  lemma LastPortRefused()
    ensures RequestedPort(NC.DecimalString(65535)) == None
  {
    NC.StringToIntOfDecimal(65535);
  }

  /** A missing switch requests nothing. */
  lemma AbsentSwitchNotRequested()
    ensures RequestedPort("") == None
  {
  }
}
