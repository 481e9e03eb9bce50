/**
 * The launcher's session state kept on top of the daemon connection: the
 * connection flag, the user's login state, the node list pushed by the daemon,
 * the service configuration switches, the updater snapshot and the
 * working-mode switch guard.
 */
module Launcher {
  import opened Wrappers
  import opened Proto

  /** What the token field shows once a login has started or completed: sixteen asterisks. */
  const TokenMask := "****************"

  /** UpdateInterval written when update checks are switched on: one day, in seconds. */
  const DailyUpdateCheck := 86400

  /** UpdateInterval written when update checks are switched off. */
  const UpdateCheckOff := -1

  /** The login request or logout request that LoginOrLogout sends to the daemon. */
  datatype AuthCall = Login(token: string) | Logout

  /** How SwitchWorkingMode ended; only Switching hands over to the daemon host. */
  datatype SwitchOutcome = AlreadySwitching | MustLogOutFirst | Declined | Switching

  /** Which update text is shown; the MiB figures of a download are not modelled. */
  datatype UpdateBanner = NoBanner | ReadyToInstall | Downloading

  /** One thing the session loop of `Run` reacts to: a message on one of the three streams, or a failed session. */
  datatype SessionEvent = UserPushed(user: User) | LogPushed | NodesPushed(pushed: seq<Node>) | SessionFailed

  /** The daemon's service configuration; the launcher sets its members in place. */
  class ServiceConfig {
    var bypassProxy: bool
    var remoteManagement: bool
    var remoteManagementKey: string
    var frpcForceTls: bool
    var updateInterval: int

    constructor (bypassProxy: bool, remoteManagement: bool, remoteManagementKey: string, frpcForceTls: bool, updateInterval: int)
      ensures this.bypassProxy == bypassProxy && this.remoteManagement == remoteManagement
      ensures this.remoteManagementKey == remoteManagementKey && this.frpcForceTls == frpcForceTls
      ensures this.updateInterval == updateInterval
    {
      this.bypassProxy := bypassProxy;
      this.remoteManagement := remoteManagement;
      this.remoteManagementKey := remoteManagementKey;
      this.frpcForceTls := frpcForceTls;
      this.updateInterval := updateInterval;
    }
  }

  /** Whether `Connected` holds after the session loop has reacted to `trace`, starting from `initial`. */
  function ConnectedAfter(initial: bool, trace: seq<SessionEvent>): bool
    decreases |trace|
  {
    if trace == [] then initial
    else
      match trace[|trace| - 1]
      case NodesPushed(_) => true
      case SessionFailed => false
      case _ => ConnectedAfter(initial, trace[..|trace| - 1])
  }

  /** After a failed session the launcher reads as disconnected until a node list arrives again. */
  lemma {:induction false} FailureDisconnectsUntilNodes(initial: bool, trace: seq<SessionEvent>, i: nat)
    requires i < |trace| && trace[i].SessionFailed?
    requires forall j :: i < j < |trace| ==> !trace[j].NodesPushed?
    ensures !ConnectedAfter(initial, trace)
  {
    var last := |trace| - 1;
    if i < last {
      assert !trace[last].NodesPushed?;
      FailureDisconnectsUntilNodes(initial, trace[..last], i);
    }
  }

  /** After a node list arrives the launcher reads as connected until a session fails. */
  lemma {:induction false} NodesConnectUntilFailure(initial: bool, trace: seq<SessionEvent>, i: nat)
    requires i < |trace| && trace[i].NodesPushed?
    requires forall j :: i < j < |trace| ==> !trace[j].SessionFailed?
    ensures ConnectedAfter(initial, trace)
  {
    var last := |trace| - 1;
    if i < last {
      assert !trace[last].SessionFailed?;
      NodesConnectUntilFailure(initial, trace[..last], i);
    }
  }

  /** User-status and log messages never change `Connected`. */
  lemma {:induction false} OtherMessagesKeepConnected(initial: bool, trace: seq<SessionEvent>)
    requires forall j :: 0 <= j < |trace| ==> trace[j].UserPushed? || trace[j].LogPushed?
    ensures ConnectedAfter(initial, trace) == initial
  {
    if trace != [] {
      OtherMessagesKeepConnected(initial, trace[..|trace| - 1]);
    }
  }

  class LauncherModel {
    var connected: bool
    var userInfo: User
    var nodes: seq<Node>
    var userToken: string
    var loggingIn: bool
    var notificationMode: int
    var logTextWrapping: bool
    var config: ServiceConfig?
    var update: Option<UpdateStatus>
    var switchingMode: bool

    /** The field initialisers; starting the daemon and the session loop is not modelled. */
    constructor ()
      ensures !connected && userInfo == DefaultUser && nodes == [] && userToken == "" && !loggingIn
      ensures notificationMode == 0 && !logTextWrapping
      ensures config == null && update == None && !switchingMode
    {
      connected := false;
      userInfo := DefaultUser;
      nodes := [];
      userToken := "";
      loggingIn := false;
      notificationMode := 0;
      logTextWrapping := false;
      config := null;
      update := None;
      switchingMode := false;
    }

    // ---- Session loop: per-message and failure effects ----

    /** A node-list push: the collection is cleared and refilled, then the launcher reads as connected. */
    method OnNodesPushed(pushed: seq<Node>)
      modifies this`nodes, this`connected
      ensures nodes == pushed && connected
    {
      nodes := [];
      for i := 0 to |pushed|
        invariant nodes == pushed[..i]
      {
        nodes := nodes + [pushed[i]];
      }
      connected := true;
    }

    /** A failed session iteration. */
    method OnSessionFailed()
      modifies this`connected
      ensures !connected
    {
      connected := false;
    }

    /**
     * The session loop's reaction to one event: a user push assigns UserInfo,
     * a log message leaves this state alone, a node-list push refills the nodes,
     * a failed session disconnects.
     */
    method OnEvent(e: SessionEvent)
      modifies this`nodes, this`connected, this`userInfo
      ensures connected == ConnectedAfter(old(connected), [e])
      ensures userInfo == if e.UserPushed? then e.user else old(userInfo)
      ensures nodes == if e.NodesPushed? then e.pushed else old(nodes)
    {
      match e
      case UserPushed(u) => SetUserInfo(Some(u));
      case LogPushed =>
      case NodesPushed(pushed) => OnNodesPushed(pushed);
      case SessionFailed => OnSessionFailed();
    }

    // ---- User status ----

    /** Assigning UserInfo; a null value is replaced by a default user, so UserInfo is never absent. */
    method SetUserInfo(value: Option<User>)
      modifies this`userInfo
      ensures userInfo == value.GetOr(DefaultUser)
      ensures value.None? ==> userInfo.status == NoLogin
    {
      userInfo := value.GetOr(DefaultUser);
    }

    function LoggedIn(): bool
      reads this
    {
      userInfo.status.LoggedIn?
    }

    function LoggingIn(): bool
      reads this
    {
      loggingIn || userInfo.status.Pending?
    }

    /** The token can be edited exactly when no login is under way and the daemon reports NoLogin. */
    function TokenEditable(): (r: bool)
      reads this
      ensures r <==> !loggingIn && userInfo.status == NoLogin
    {
      !LoggingIn() && !LoggedIn()
    }

    /** The token field: the stored token while the daemon reports NoLogin, the mask otherwise. */
    function UserToken(): (r: string)
      reads this
      ensures userInfo.status == NoLogin ==> r == userToken
      ensures TokenEditable() ==> r == userToken
      ensures LoggedIn() || userInfo.status == Pending ==> r == TokenMask && |r| == 16
    {
      if userInfo.status != NoLogin then TokenMask else userToken
    }

    /** Writing the token field stores the text and changes nothing else; it reads back only while NoLogin. */
    method SetUserToken(token: string)
      modifies this`userToken
      ensures userToken == token
      ensures UserToken() == if userInfo.status == NoLogin then token else TokenMask
    {
      userToken := token;
    }

    /**
     * Logs out when logged in, otherwise logs in with the token field's text.
     * `rpcFails` stands for the daemon call throwing; `busyDuringCall` reports
     * what the launcher shows while the call is outstanding.
     */
    method LoginOrLogout(rpcFails: bool) returns (call: AuthCall, busyDuringCall: bool, raised: bool)
      modifies this`loggingIn
      ensures call == if old(LoggedIn()) then Logout else Login(old(UserToken()))
      ensures busyDuringCall && raised == rpcFails
      ensures !loggingIn
    {
      loggingIn := true;
      if LoggedIn() {
        call := Logout;
      } else {
        call := Login(UserToken());
      }
      busyDuringCall := LoggingIn() && !TokenEditable();
      raised := rpcFails;
      loggingIn := false;
    }

    // ---- Service configuration ----

    method SetConfig(c: ServiceConfig?)
      modifies this`config
      ensures config == c
    {
      config := c;
    }

    function BypassProxy(): bool
      reads this, config
    {
      config != null && config.bypassProxy
    }

    /** Stores the flag when a configuration is present; the configuration push itself is inert. */
    method SetBypassProxy(value: bool)
      modifies config
      ensures config != null ==> config.bypassProxy == value
      ensures config != null ==> config.remoteManagement == old(config.remoteManagement)
      ensures config != null ==> config.frpcForceTls == old(config.frpcForceTls)
      ensures config != null ==> config.updateInterval == old(config.updateInterval)
      ensures config != null ==> config.remoteManagementKey == old(config.remoteManagementKey)
      ensures BypassProxy() <==> config != null && value
      ensures config != null && old(CanEnableRemoteManagement()) ==> CanEnableRemoteManagement()
    {
      if config != null {
        config.bypassProxy := value;
      }
    }

    function EnableTLS(): bool
      reads this, config
    {
      config != null && config.frpcForceTls
    }

    method SetEnableTLS(value: bool)
      modifies config
      ensures config != null ==> config.frpcForceTls == value
      ensures config != null ==> config.bypassProxy == old(config.bypassProxy)
      ensures config != null ==> config.remoteManagement == old(config.remoteManagement)
      ensures config != null ==> config.updateInterval == old(config.updateInterval)
      ensures config != null ==> config.remoteManagementKey == old(config.remoteManagementKey)
      ensures EnableTLS() <==> config != null && value
      ensures config != null && old(CanEnableRemoteManagement()) ==> CanEnableRemoteManagement()
    {
      if config != null {
        config.frpcForceTls := value;
      }
    }

    function RemoteManagement(): bool
      reads this, config
    {
      config != null && config.remoteManagement
    }

    function CanEnableRemoteManagement(): bool
      reads this, config
    {
      LoggedIn() && config != null && config.remoteManagementKey != ""
    }

    /** Switching off always takes effect; switching on only with a remote-management key. */
    method SetRemoteManagement(value: bool)
      modifies config
      ensures config != null ==>
                config.remoteManagement == if !value || config.remoteManagementKey != "" then value else old(config.remoteManagement)
      ensures config != null ==> config.bypassProxy == old(config.bypassProxy)
      ensures config != null ==> config.frpcForceTls == old(config.frpcForceTls)
      ensures config != null ==> config.updateInterval == old(config.updateInterval)
      ensures config != null ==> config.remoteManagementKey == old(config.remoteManagementKey)
      ensures !value ==> !RemoteManagement()
      ensures value && old(CanEnableRemoteManagement()) ==> RemoteManagement()
      ensures config == null ==> !RemoteManagement()
    {
      if config != null {
        if !value || config.remoteManagementKey != "" {
          config.remoteManagement := value;
        }
      }
    }

    // ---- Updates ----

    method SetUpdate(u: Option<UpdateStatus>)
      modifies this`update
      ensures update == u
    {
      update := u;
    }

    /** An update is offered only while the updater runs and has found one; the banner is then shown. */
    function HaveUpdate(): (r: bool)
      reads this
      ensures r ==> update.Some? && Banner() != NoBanner
    {
      update.Some? && update.value.updateManagerRunning && update.value.updateAvailable
    }

    /** Which update text is shown. */
    function Banner(): (b: UpdateBanner)
      reads this
      ensures b != NoBanner <==> update.Some? && update.value.updateAvailable
      ensures b == ReadyToInstall <==> update.Some? && update.value.updateAvailable && update.value.updateReadyDir != ""
      ensures b == Downloading <==> update.Some? && update.value.updateAvailable && update.value.updateReadyDir == ""
    {
      if update.None? || !update.value.updateAvailable then NoBanner
      else if update.value.updateReadyDir != "" then ReadyToInstall
      else Downloading
    }

    function CheckUpdate(): bool
      reads this, config
    {
      config != null && config.updateInterval != UpdateCheckOff && update.Some? && update.value.updateManagerRunning
    }

    /** Switching checks on writes a daily interval; switching them off writes -1 and drops the updater snapshot. */
    method SetCheckUpdate(value: bool)
      modifies this`update, config
      ensures config != null ==> config.updateInterval == if value then DailyUpdateCheck else UpdateCheckOff
      ensures config != null ==> config.bypassProxy == old(config.bypassProxy)
      ensures config != null ==> config.remoteManagement == old(config.remoteManagement)
      ensures config != null ==> config.frpcForceTls == old(config.frpcForceTls)
      ensures config != null ==> config.remoteManagementKey == old(config.remoteManagementKey)
      ensures update == if value then old(update) else None
      ensures !value ==> !CheckUpdate() && !HaveUpdate()
      ensures config != null && old(CanEnableRemoteManagement()) ==> CanEnableRemoteManagement()
      ensures value ==> (CheckUpdate() <==> config != null && update.Some? && update.value.updateManagerRunning)
    {
      if config != null {
        config.updateInterval := if value then DailyUpdateCheck else UpdateCheckOff;
      }
      if !value {
        update := None;
      }
    }

    // ---- Working mode ----

    /**
     * The guards of a working-mode switch. `confirmed` is the user's answer to
     * the confirmation prompt, which is asked only when both guards pass.
     * Stopping the daemon and installing or removing the service happen only
     * after the outcome Switching.
     */
    method SwitchWorkingMode(confirmed: bool) returns (outcome: SwitchOutcome)
      modifies this`switchingMode
      ensures old(switchingMode) ==> outcome == AlreadySwitching && switchingMode
      ensures !old(switchingMode) && old(LoggingIn() || LoggedIn()) ==> outcome == MustLogOutFirst && !switchingMode
      ensures !old(switchingMode) && !old(LoggingIn() || LoggedIn()) ==>
        outcome == (if confirmed then Switching else Declined) && switchingMode == confirmed
      ensures outcome == Switching <==> !old(switchingMode) && old(TokenEditable()) && confirmed
    {
      if switchingMode {
        return AlreadySwitching;
      }
      if LoggingIn() || LoggedIn() {
        return MustLogOutFirst;
      }
      if !confirmed {
        return Declined;
      }
      switchingMode := true;
      outcome := Switching;
    }
  }
}
