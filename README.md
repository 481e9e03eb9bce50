# SakuraFrp launcher client state, modelled in Dafny

The SakuraFrp launcher is a desktop front end for a privileged background
process (the daemon, or the installed SakuraFrp service) that runs the frpc
tunnels. The launcher talks to the daemon over a local gRPC channel on a named
pipe. It keeps client-side state on top of that connection. This project models
that state and proves what it promises:

- `Launcher` (`SakuraLibrary/Model/LauncherModel.cs`) covers the session facade.
  This is the connection flag, driven by the node-list stream and by session
  failures. It also holds the user's login state and its derived flags
  (`LoggedIn`, `LoggingIn`, `TokenEditable`, the masked token), the login/logout
  request, and the guarded setters of the service configuration
  (`BypassProxy`, `EnableTLS`, `RemoteManagement`, `CheckUpdate`). Last come the
  update banner and the guards of a working-mode switch.
- `CreateTunnel` (`SakuraLibrary/Model/CreateTunnelModel.cs`) covers the
  create-tunnel dialog. Each line of `netstat -ano` is split on whitespace and
  classified: listening TCP sockets and wildcard UDP sockets on IPv4 addresses
  are kept. The line is split into protocol, address, port and PID. A
  per-reload cache maps each PID to its process name. The module also holds the
  `Loading` re-entry guard and the filter that lists only the nodes accepting
  new tunnels.
- `Tunnels` (`SakuraLibrary/Model/TunnelModel.cs`) covers one tunnel's view.
  It reads its projections from the daemon's tunnel record, upper-cases the
  type, and resolves the node name with a fallback. It also has the `Enabled`
  toggle: the toggle sends an update request and leaves the local record alone.
- `LegacyLauncher` (`LegacyLauncher/Model/LauncherViewModel.cs`) covers the
  WinForms window model. A daemon log entry becomes a log-box line: alerts are
  dropped, the level gets a one-letter prefix, and a timestamp is put in front
  of the text when the entry's level value is nonzero. This module also maps the launcher settings to and from the
  stored application settings, including the one-time settings upgrade.
- `Proto` holds the daemon's message records, and `Wrappers` holds `Option`.

Objects whose fields the source sets in place are classes: `LauncherModel`,
`ServiceConfig`, `CreateTunnelModel`, `TunnelModel`, `LogEntry` and
`LauncherViewModel`. Their setters are methods with `modifies` frames. Records
the daemon pushes and the launcher replaces wholesale are datatypes: `User`,
`Node`, `Tunnel` and `UpdateStatus`. Anything outside the process is a
parameter of the operation:

- the daemon's answer to a call (`rpcFails`);
- the user's answer to a prompt (`confirmed`);
- the PID-to-process-name lookup (`lookup`);
- the timestamp formatter (`stamp`);
- the previous version's settings (`previous`).

## Model

| member | source | states |
|---|---|---|
| `Launcher.LauncherModel.constructor` | SakuraLibrary/Model/LauncherModel.cs:165-214 | Initial state: not connected, default (NoLogin) user, no nodes, empty token, no login under way, no configuration, no update snapshot, not switching mode |
| `Launcher.LauncherModel.OnNodesPushed` | SakuraLibrary/Model/LauncherModel.cs:88-96 | A node-list push replaces `Nodes` with exactly the pushed nodes, in order, with nothing left over; afterwards `Connected` holds |
| `Launcher.LauncherModel.OnSessionFailed` | SakuraLibrary/Model/LauncherModel.cs:99-103 | A failed session iteration leaves `Connected` false |
| `Launcher.LauncherModel.OnEvent` | SakuraLibrary/Model/LauncherModel.cs:80-105 | The session loop's reaction to one event moves `Connected` exactly as `ConnectedAfter` does for that event, so the trace lemmas below describe the class; a user push stores the user, a node push stores the nodes, and nothing else changes them |
| `Launcher.FailureDisconnectsUntilNodes` | SakuraLibrary/Model/LauncherModel.cs:80-105 | Over any sequence of stream messages and failures, the launcher reads as disconnected after a failure until the next node-list push |
| `Launcher.NodesConnectUntilFailure` | SakuraLibrary/Model/LauncherModel.cs:80-105 | After a node-list push the launcher reads as connected until the next session failure |
| `Launcher.OtherMessagesKeepConnected` | SakuraLibrary/Model/LauncherModel.cs:84-87 | User-status and log messages never change `Connected` |
| `Launcher.LauncherModel.SetUserInfo` | SakuraLibrary/Model/LauncherModel.cs:168-180 | Assigning null stores a default user whose status is NoLogin, so `UserInfo` is never absent; any other value is stored as given |
| `Launcher.LauncherModel.TokenEditable` | SakuraLibrary/Model/LauncherModel.cs:206-214 | Defined as `!LoggingIn && !LoggedIn`; the contract shows this holds exactly when no local login is under way and the daemon reports NoLogin |
| `Launcher.LauncherModel.UserToken` | SakuraLibrary/Model/LauncherModel.cs:202-204 | Whenever the daemon reports NoLogin it reads as the stored token, whether or not a local login is under way (so in particular whenever the token is editable); while Pending or LoggedIn it reads as the 16-asterisk mask |
| `Launcher.LauncherModel.SetUserToken` | SakuraLibrary/Model/LauncherModel.cs:203-204 | Writing the token changes only the stored token; it reads back as written under NoLogin and as the mask otherwise |
| `Launcher.LauncherModel.LoginOrLogout` | SakuraLibrary/Model/LauncherModel.cs:216-234 | Sends Logout iff `LoggedIn` held at entry, otherwise Login with the token field's value at entry; `LoggingIn` holds (the token is not editable) while the call is outstanding; the local login flag is false on exit whether the call succeeded or threw |
| `Launcher.LauncherModel.SetConfig` | SakuraLibrary/Model/LauncherModel.cs:255-260 | Stores the configuration object (possibly null) |
| `Launcher.LauncherModel.SetBypassProxy` | SakuraLibrary/Model/LauncherModel.cs:262-275 | With a configuration, stores the flag and changes no other configuration field, the remote-management key included, so `CanEnableRemoteManagement` survives; the getter then reads the flag, and reads false without a configuration |
| `Launcher.LauncherModel.SetEnableTLS` | SakuraLibrary/Model/LauncherModel.cs:315-328 | With a configuration, stores the force-TLS flag and changes no other configuration field, the remote-management key included, so `CanEnableRemoteManagement` survives; the getter reads false without a configuration |
| `Launcher.LauncherModel.SetRemoteManagement` | SakuraLibrary/Model/LauncherModel.cs:294-313 | Switching off always takes effect. Switching on takes effect only with a non-empty key; otherwise the old value stays. Whenever `CanEnableRemoteManagement` (logged in, a configuration, a non-empty key) held before, switching on succeeds. Without a configuration nothing is stored and the getter reads false |
| `Launcher.LauncherModel.SetUpdate` | SakuraLibrary/Model/LauncherModel.cs:330-331 | Stores the updater snapshot (possibly absent) |
| `Launcher.LauncherModel.HaveUpdate` | SakuraLibrary/Model/LauncherModel.cs:333-334 | An update is offered only with a snapshot, and then the update banner is shown |
| `Launcher.LauncherModel.Banner` | SakuraLibrary/Model/LauncherModel.cs:336-351 | The update text is non-empty iff a snapshot reports an available update; it is the "ready" text iff an update is available and the ready directory is non-empty, and the download text iff an update is available and the ready directory is empty |
| `Launcher.LauncherModel.SetCheckUpdate` | SakuraLibrary/Model/LauncherModel.cs:353-370 | With a configuration, writes `UpdateInterval` 86400 for on and -1 for off, leaving the other configuration fields, the remote-management key included, alone, so `CanEnableRemoteManagement` survives. Switching off also drops the update snapshot, so `CheckUpdate` and `HaveUpdate` both read false afterwards |
| `Launcher.LauncherModel.SwitchWorkingMode` | SakuraLibrary/Model/LauncherModel.cs:413-431 | A no-op while a switch is under way. While logging in or logged in it reports "log out first" and leaves `SwitchingMode` false. A declined confirmation also leaves it false. The switch starts (and sets `SwitchingMode`) iff none was under way, the token was editable and the user confirmed |
| `CreateTunnel.Tokens` | SakuraLibrary/Model/CreateTunnelModel.cs:118 | Every token is non-empty and contains no whitespace |
| `CreateTunnel.TokensKeepVisibleText` | SakuraLibrary/Model/CreateTunnelModel.cs:118 | The tokens, concatenated, are the line with all whitespace removed |
| `CreateTunnel.SolidIsOneToken` | SakuraLibrary/Model/CreateTunnelModel.cs:118 | A non-empty whitespace-free word is exactly one token |
| `CreateTunnel.TokensSeparate` | SakuraLibrary/Model/CreateTunnelModel.cs:118 | A whitespace character splits the tokens: `Tokens(a + ws + b) == Tokens(a) + Tokens(b)` |
| `CreateTunnel.Classify` | SakuraLibrary/Model/CreateTunnelModel.cs:119-140 | A line is kept iff it has at least 3 tokens, its address does not start with '[', and it is either UDP with at least 4 tokens and remote `*:*` or TCP with at least 5 tokens and state `LISTENING`; the protocol and address are tokens 0 and 1, the PID is token 3 (UDP) or 4 (TCP) |
| `CreateTunnel.SplitOn` | SakuraLibrary/Model/CreateTunnelModel.cs:152 | `Split(':')` yields at least one segment and no segment contains ':' |
| `CreateTunnel.SplitThenJoin` | SakuraLibrary/Model/CreateTunnelModel.cs:152 | Joining the segments with ':' gives back the address token |
| `CreateTunnel.JoinThenSplit` | SakuraLibrary/Model/CreateTunnelModel.cs:152 | Splitting a ':'-join of ':'-free segments gives back the segments |
| `CreateTunnel.SecondSegmentIffSeparator` | SakuraLibrary/Model/CreateTunnelModel.cs:152-157 | There is a second segment (the port) iff the token contains ':' |
| `CreateTunnel.ParseEndpoint` | SakuraLibrary/Model/CreateTunnelModel.cs:152-157 | Address is the part before the first ':' and port the part up to the next ':' or the end; a token without ':' is the index-out-of-range failure |
| `CreateTunnel.Remember` | SakuraLibrary/Model/CreateTunnelModel.cs:142-150 | A PID already cached is not looked up and the cache is unchanged; a new PID gets the looked-up name, or "[拒绝访问]" when the lookup fails; no existing entry changes |
| `CreateTunnel.AcceptingNodes` | SakuraLibrary/Model/CreateTunnelModel.cs:176 | A node is listed iff it is one of the launcher's nodes and accepts new tunnels |
| `CreateTunnel.AcceptingNodesOfConcat` | SakuraLibrary/Model/CreateTunnelModel.cs:176 | The filter distributes over concatenation, so it keeps the launcher's order |
| `CreateTunnel.AcceptingNodesKeepsAll` | SakuraLibrary/Model/CreateTunnelModel.cs:176 | When every node accepts new tunnels, the list is the launcher's list |
| `CreateTunnel.CreateTunnelModel.constructor` | SakuraLibrary/Model/CreateTunnelModel.cs:45-50 | Starts with the filtered launcher nodes, not loading, an empty listening list |
| `CreateTunnel.CreateTunnelModel.LauncherNodesChanged` | SakuraLibrary/Model/CreateTunnelModel.cs:176 | `Nodes` becomes exactly the launcher's nodes that accept new tunnels |
| `CreateTunnel.CreateTunnelModel.ReloadListening` | SakuraLibrary/Model/CreateTunnelModel.cs:99-113 | Does nothing while `Loading`; otherwise sets `Loading`, empties `Listening` and starts a fresh process-name cache |
| `CreateTunnel.CreateTunnelModel.OnOutputData` | SakuraLibrary/Model/CreateTunnelModel.cs:114-161 | A null or rejected line changes nothing. An accepted line updates the cache as `Remember` says. It then appends one row with the protocol, address, port, PID and the cached name, or fails as index-out-of-range when the address has no ':' |
| `CreateTunnel.CreateTunnelModel.OnNetstatFinished` | SakuraLibrary/Model/CreateTunnelModel.cs:164-173 | `Loading` drops once netstat has finished |
| `Tunnels.Upper` | SakuraLibrary/Model/TunnelModel.cs:25 | Upper-casing keeps the length, maps every character through ASCII upper-casing and leaves no lower-case letter |
| `Tunnels.UpperIdempotent` | SakuraLibrary/Model/TunnelModel.cs:25 | Upper-casing twice equals upper-casing once |
| `Tunnels.TunnelModel.Type` | SakuraLibrary/Model/TunnelModel.cs:24-25 | The shown type is the record's type with every ASCII letter upper-cased, character by character; it is already upper case |
| `Tunnels.ProjectionsDependOnlyOnProto` | SakuraLibrary/Model/TunnelModel.cs:12-52 | `Id`, `Node`, `Name`, `Type`, `Description`, `State`, `Enabled`, `Note` and `NoteEmpty` read only the record: equal records give equal values (each also reads only `proto` by its frame) |
| `Tunnels.TunnelModel.SetEnabled` | SakuraLibrary/Model/TunnelModel.cs:33-46 | Emits exactly one Update request whose tunnel carries this tunnel's id and the new flag and nothing else; the local record is not modified; a failure of the synchronous daemon call reaches the caller |
| `Tunnels.TunnelModel.SetNodeName` | SakuraLibrary/Model/TunnelModel.cs:54-64 | The node name is the table's entry for the tunnel's node when there is a table holding it, and "未知节点" otherwise |
| `Tunnels.TunnelModel.constructor` | SakuraLibrary/Model/TunnelModel.cs:57-62 | Stores the record and resolves the node name; without a table the name is "未知节点" |
| `LegacyLauncher.LevelPrefix` | LegacyLauncher/Model/LauncherViewModel.cs:57-76 | The level column is "D ", "W ", "E ", "F " exactly for Debug, Warn, Error, Fatal, and "I " exactly for every other value, Info included |
| `LegacyLauncher.ParseFormattedLine` | LegacyLauncher/Model/LauncherViewModel.cs:81 | A log line built from a space-free source reads back into the source, the level letter and the text |
| `LegacyLauncher.Upgraded` | LegacyLauncher/Model/LauncherViewModel.cs:37-43 | After start-up no upgrade is pending. Without a pending upgrade the settings are untouched. With one, the previous version's values are taken over when they exist, with the flag cleared, and otherwise the stored values are kept with the flag cleared |
| `LegacyLauncher.UpgradeRunsOnce` | LegacyLauncher/Model/LauncherViewModel.cs:37-43 | A second start-up does not upgrade again |
| `LegacyLauncher.LoadedMode` | LegacyLauncher/Model/LauncherViewModel.cs:46 | The loaded notification mode is 0 or 1 |
| `LegacyLauncher.SaveThenLoad` | LegacyLauncher/Model/LauncherViewModel.cs:84-97 | Saving then loading maps mode 0 to 0 and every other mode to 1; text wrapping round-trips; the upgrade flag is untouched |
| `LegacyLauncher.LoadThenSave` | LegacyLauncher/Model/LauncherViewModel.cs:45-46 | Loading then saving leaves the stored settings unchanged |
| `LegacyLauncher.LauncherViewModel.constructor` | LegacyLauncher/Model/LauncherViewModel.cs:21-47 | Builds a fresh launcher model, runs a pending upgrade once, and loads text wrapping and the notification mode (1 iff "suppress info") from the settings |
| `LegacyLauncher.LauncherViewModel.Save` | LegacyLauncher/Model/LauncherViewModel.cs:84-97 | Writes "suppress info" as `NotificationMode != 0` and the wrapping flag; nothing else in the settings changes |
| `LegacyLauncher.LauncherViewModel.Log` | LegacyLauncher/Model/LauncherViewModel.cs:51-82 | An Alert entry yields no line and is not modified. Otherwise only the entry's text changes: the timestamp is put in front iff the level value is nonzero. The line `Source + " " + prefix + Data + NewLine` is appended to the log box |
| `LegacyLauncher.LauncherViewModel.ClearLog` | LegacyLauncher/Model/LauncherViewModel.cs:49 | Empties the log box |

## Left out

- The gRPC channel, the named-pipe connect callback, the static HTTP/2 switches and the concurrent `Task.WaitAll` of the three streams are not modelled (I/O and concurrency). Only each message's effect and a failure's effect are modelled; `ConnectedAfter` folds those effects over a sequence of events.
- The 500 ms reconnect wait, the stop event, `AsyncManager` and `Start`/`Stop`/`Running` are not modelled (timing and threading).
- `Dispatcher.Invoke`/`BeginInvoke`, the thread-pool work items and `DispatcherWrapper` are not modelled. Neither are the `Set`/`SafeSet`/`RaisePropertyChanged` notifications and the `SourceBinding` dependencies. `ModelBase` is not part of this model. Setters are plain assignments, and rows queued with `BeginInvoke` are appended in arrival order.
- The `LauncherModel` constructor's daemon start (`DaemonHost`, `Daemon.Start`) and its `forceDaemon` argument are not modelled. `IsDaemon` and `WorkingMode` are not modelled either: `DaemonHost` is not part of this model.
- `Launcher.LauncherModel.SwitchWorkingMode` models only the guards and the prompt. The background work after the switch starts is not modelled: `Daemon.Stop`, `InstallService`, the result callback, the process exit and the final reset of `SwitchingMode`. These are OS and process control. The callback's message text is reduced to an outcome.
- `ConfirmUpdate` is not modelled (process launch with elevation, remote-session check, process exit). Neither is the empty `RequestUpdateCheck`.
- `Launcher.LauncherModel.Banner` tells only which update text is shown; the MiB figures are not modelled (float division and rounding).
- `PushServiceConfig` has a commented-out body and does nothing. The setters therefore push nothing. `RequestCreate` (its request is commented out) and `Pipe_ServerPush` are not modelled either.
- `RequestReloadTunnelsAsync`, `RequestDeleteTunnelAsync` and the `Tunnels` collection are not modelled. The first two are single RPC calls with no client-side logic, and no modelled code changes `Tunnels`.
- Inside `LoginOrLogout` and the `Enabled` setter (`Tunnels.TunnelModel.SetEnabled`), the daemon call is the `rpcFails` parameter. Stream updates that may arrive while the call is outstanding are not modelled.
- `NodeModel` is not part of this model. A pushed node is stored as its `Id`, `Name` and `AcceptNew` fields. The pushed map's values are given as a sequence in the map's iteration order.
- Launching `netstat.exe`, `WaitForExit`/`Kill`, `int.Parse` and `Process.GetProcessById` are not modelled. The PID lookup is the `lookup` parameter, and the end of netstat is `OnNetstatFinished`. The index-out-of-range failure of a port-less address shows up as an outcome; the exception's effect on the UI thread is not modelled.
- The create-tunnel form fields (`Type`, `TunnelName`, `RemotePort`, `LocalPort`, `LocalAddress`, `Note`, `Creating`) are not modelled: they are plain notified properties. The finaliser that unsubscribes from node changes is not modelled either.
- `Tunnels.TunnelModel.Type`: upper-cases ASCII letters only; culture-sensitive `ToUpper` is not modelled.
- The daemon's message schema is not part of this model. The numeric values of the log level and category enums are therefore the `LogCodes` parameter. Message strings are taken to be never null, as protobuf strings are, so `IsNullOrEmpty` is modelled as the empty test.
- `Utils.ParseTimestamp` and date formatting are not modelled: the formatted timestamp is the `stamp` parameter.
- Settings persistence to disk (`settings.Save()`, `Settings.Upgrade()`'s storage) is not modelled. The previous version's values are the `previous` parameter. `Save`'s re-dispatch onto the UI thread, the message-box handlers and the window wiring are not modelled either.
- `LauncherViewModel` derives from `LauncherModel` in the source. Here it holds a `LauncherModel`, and `NotificationMode`/`LogTextWrapping` are that model's fields.
- `SakuraLibrary/Consts.cs` is not modelled: it holds only constants and an environment-dependent path.
