/**
 * The connection settings store (contexts/connection-context.tsx): a
 * configuration for reaching the pentest machine (ssh, api, docker or local),
 * a pure validity check, and the disconnected / connecting / connected status.
 */
module ConnectionContext {
  import opened Wrappers

  datatype ConnectionMethod = Ssh | Api | Docker | Local

  datatype ConnectionStatus = Disconnected | Connecting | Connected | Error

  datatype ConnectionConfig = ConnectionConfig(
    connectionMethod: ConnectionMethod,
    host: string,
    port: int,
    username: string,
    password: string,
    sshKey: string,
    useSshKey: bool,
    dockerImage: string,
    apiKey: string,
    timeout: int,
    rememberCredentials: bool)

  /** A partial configuration: the fields an update supplies. */
  datatype ConfigUpdate = ConfigUpdate(
    connectionMethod: Option<ConnectionMethod>,
    host: Option<string>,
    port: Option<int>,
    username: Option<string>,
    password: Option<string>,
    sshKey: Option<string>,
    useSshKey: Option<bool>,
    dockerImage: Option<string>,
    apiKey: Option<string>,
    timeout: Option<int>,
    rememberCredentials: Option<bool>)

  const DefaultConfig := ConnectionConfig(
    Ssh, "localhost", 22, "kali", "", "", false, "kalilinux/kali-rolling", "", 30, false)

  /**
   * `isConfigValid`: the fields the chosen method needs are non-empty.
   * ssh needs host, username and the chosen credential (the key when
   * `useSshKey`, the password otherwise); api needs host and api key; docker
   * needs an image; local needs nothing.
   */
  predicate IsConfigValid(c: ConnectionConfig)
    ensures c.connectionMethod == Ssh ==> (IsConfigValid(c) <==>
      c.host != "" && c.username != "" && (if c.useSshKey then c.sshKey != "" else c.password != ""))
    ensures c.connectionMethod == Api ==> (IsConfigValid(c) <==> c.host != "" && c.apiKey != "")
    ensures c.connectionMethod == Docker ==> (IsConfigValid(c) <==> c.dockerImage != "")
    ensures c.connectionMethod == Local ==> IsConfigValid(c)
  {
    match c.connectionMethod
    case Ssh =>
      !(c.host == "" || c.username == "")
      && !(!c.useSshKey && c.password == "")
      && !(c.useSshKey && c.sshKey == "")
    case Api => !(c.host == "" || c.apiKey == "")
    case Docker => c.dockerImage != ""
    case Local => true
  }

  /** `{ ...c, ...u }`. */
  function ApplyUpdate(c: ConnectionConfig, u: ConfigUpdate): ConnectionConfig
  {
    ConnectionConfig(
      u.connectionMethod.GetOr(c.connectionMethod),
      u.host.GetOr(c.host),
      u.port.GetOr(c.port),
      u.username.GetOr(c.username),
      u.password.GetOr(c.password),
      u.sshKey.GetOr(c.sshKey),
      u.useSshKey.GetOr(c.useSshKey),
      u.dockerImage.GetOr(c.dockerImage),
      u.apiKey.GetOr(c.apiKey),
      u.timeout.GetOr(c.timeout),
      u.rememberCredentials.GetOr(c.rememberCredentials))
  }

  /**
   * An update that supplies none of the fields the current method checks
   * leaves validity as it was; in particular the default configuration is
   * not valid until a password (or a key) is supplied.
   */
  lemma ValidityOnlyDependsOnMethodFields(c: ConnectionConfig, u: ConfigUpdate)
    requires u.connectionMethod.None? && u.host.None? && u.username.None? && u.password.None?
    requires u.sshKey.None? && u.useSshKey.None? && u.dockerImage.None? && u.apiKey.None?
    ensures IsConfigValid(ApplyUpdate(c, u)) == IsConfigValid(c)
    ensures !IsConfigValid(DefaultConfig)
    ensures IsConfigValid(ApplyUpdate(DefaultConfig, u.(password := Some("p"))))
  {
  }

  /** The provider component's state. */
  class ConnectionStore {
    var config: ConnectionConfig
    var status: ConnectionStatus
    /** Every status the store has shown, oldest first. */
    ghost var statusTrace: seq<ConnectionStatus>

    constructor (initial: ConnectionConfig)
      ensures config == initial && status == Disconnected && statusTrace == [Disconnected]
    {
      config := initial;
      status := Disconnected;
      statusTrace := [Disconnected];
    }

    ghost predicate Valid()
      reads this
    {
      statusTrace != [] && statusTrace[|statusTrace| - 1] == status
    }

    method UpdateConfig(u: ConfigUpdate)
      modifies this
      ensures config == ApplyUpdate(old(config), u)
      ensures status == old(status) && statusTrace == old(statusTrace)
    {
      config := ApplyUpdate(config, u);
    }

    /**
     * `connect`: refused, with the status unchanged, on an invalid
     * configuration; otherwise the status passes through connecting to
     * connected.
     */
    method Connect() returns (ok: bool)
      requires Valid()
      modifies this
      ensures Valid()
      ensures config == old(config)
      ensures ok == IsConfigValid(config)
      ensures !ok ==> status == old(status) && statusTrace == old(statusTrace)
      ensures ok ==> status == Connected && statusTrace == old(statusTrace) + [Connecting, Connected]
    {
      if !IsConfigValid(config) {
        return false;
      }
      status := Connecting;
      statusTrace := statusTrace + [Connecting];
      status := Connected;
      statusTrace := statusTrace + [Connected];
      ok := true;
    }

    method Disconnect()
      requires Valid()
      modifies this
      ensures Valid()
      ensures status == Disconnected && config == old(config)
      ensures statusTrace == old(statusTrace) + [Disconnected]
    {
      status := Disconnected;
      statusTrace := statusTrace + [Disconnected];
    }

    /** `testConnection`: reports validity and never touches the status. */
    method TestConnection() returns (ok: bool)
      ensures ok == IsConfigValid(config)
    {
      ok := IsConfigValid(config);
    }

    method ResetConfig()
      modifies this
      ensures config == DefaultConfig
      ensures status == old(status) && statusTrace == old(statusTrace)
    {
      config := DefaultConfig;
    }
  }
}
