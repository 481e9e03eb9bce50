/**
 * The daemon's message records as the launcher sees them. Only the fields the
 * launcher reads or writes are kept. Records that the launcher replaces
 * wholesale are values; the service configuration, whose members the launcher
 * sets one by one, is a class in module Launcher.
 */
module Proto {

  /** Login state reported by the daemon; NoLogin is the message's default. */
  datatype UserStatus = NoLogin | Pending | LoggedIn

  datatype User = User(status: UserStatus)

  /** What `new User()` yields. */
  const DefaultUser := User(NoLogin)

  /** One server node of the account; `acceptNew` says whether new tunnels may be created on it. */
  datatype Node = Node(id: int, name: string, acceptNew: bool)

  /** A forwarding rule as the daemon reports it. `state` is the daemon's lifecycle code. */
  datatype Tunnel = Tunnel(
    id: int,
    node: int,
    name: string,
    tunnelType: string,
    description: string,
    state: int,
    enabled: bool,
    note: string)

  /** What `new Tunnel()` yields: every field at its default. */
  const EmptyTunnel := Tunnel(0, 0, "", "", "", 0, false, "")

  datatype TunnelAction = Create | Update | Delete

  /** A tunnel mutation request sent to the daemon. */
  datatype TunnelUpdate = TunnelUpdate(action: TunnelAction, tunnel: Tunnel)

  /** Snapshot of the daemon's updater. */
  datatype UpdateStatus = UpdateStatus(
    updateManagerRunning: bool,
    updateAvailable: bool,
    updateReadyDir: string,
    downloadCurrent: int,
    downloadTotal: int,
    note: string)
}
