/** Start-up and lifecycle of the runtime's HTTP server (server/index.ts):
    validation of the socket-activation variables handed over by the service
    manager (the `sd_listen_fds` convention), the listen address, the count of
    requests in flight, the idle timer that ends a socket-activated server, and
    graceful shutdown. Timers and the server's own close are events: a method per
    callback, called when the event loop would run it. */
module Lifecycle {
  import opened Common
  import opened Numeric
  import opened Env

  /** The first file descriptor a service manager passes (SD_LISTEN_FDS_START). */
  const ListenFdsStart: nat := 3

  datatype StartupError =
    | ListenPidMismatch(listenPid: Option<int>, pid: int)
    | TooManySockets(listenFds: int)

  /** Start-up validation of LISTEN_PID and LISTEN_FDS (`None` is `NaN`) against
      the process id; the result says whether socket activation is on. */
  function SocketActivation(listenPid: Option<int>, listenFds: Option<int>, pid: int): (r: Result<bool, StartupError>)
    ensures listenPid != Some(0) && listenPid != Some(pid) ==> r == Err(ListenPidMismatch(listenPid, pid))
    ensures (listenPid == Some(0) || listenPid == Some(pid)) && listenFds.Some? && listenFds.value > 1
      ==> r == Err(TooManySockets(listenFds.value))
    ensures r.Ok? <==> (listenPid == Some(0) || listenPid == Some(pid)) && !(listenFds.Some? && listenFds.value > 1)
    ensures r.Ok? ==> (r.value <==> listenPid == Some(pid) && listenFds == Some(1))
  {
    if listenPid != Some(0) && listenPid != Some(pid) then Err(ListenPidMismatch(listenPid, pid))
    else if listenFds.Some? && listenFds.value > 1 then Err(TooManySockets(listenFds.value))
    else Ok(listenPid == Some(pid) && listenFds == Some(1))
  }

  /** Variables meant for another process (a different LISTEN_PID) stop start-up,
      even when LISTEN_FDS is fine. */
  lemma ForeignListenPidRejected(other: int, pid: int, listenFds: Option<int>)
    requires other != 0 && other != pid
    ensures SocketActivation(Some(other), listenFds, pid).Err?
  {
  }

  /** Without the service manager's variables the server starts without socket
      activation. */
  lemma NoVariablesNoActivation(pid: int)
    ensures SocketActivation(ParseInt("0"), ParseInt("0"), pid) == Ok(false)
  {
    ParseIntDecimalString(0, []);
    assert DecimalString(0) + [] == "0";
  }

  datatype ServerConfig = ServerConfig(
    socketPath: Option<string>,
    host: string,
    port: Option<string>,
    shutdownTimeout: Option<int>,
    idleTimeout: Option<int>,
    socketActivation: bool)

  /** PORT's fallback: "3000" when SOCKET_PATH is unset or empty, `false` otherwise. */
  function PortFallback(socketPath: Option<string>): (f: Option<string>)
    ensures f.Some? <==> !Truthy(socketPath)
    ensures f.Some? ==> f.value == "3000"
  {
    if Truthy(socketPath) then None else Some("3000")
  }

  /** The server's configuration at start-up, or the start-up error. */
  function LoadServerConfig(e: Environment, prefix: string, pid: int): (r: Result<ServerConfig, StartupError>)
    ensures var activation := SocketActivation(
        ParseInt(EnvOr(e, prefix, "LISTEN_PID", "0")), ParseInt(EnvOr(e, prefix, "LISTEN_FDS", "0")), pid);
      && (r.Err? <==> activation.Err?)
      && (r.Err? ==> r.error == activation.error)
      && (r.Ok? ==> r.value.socketActivation == activation.value)
    ensures r.Ok? ==> r.value.socketPath == EnvOpt(e, prefix, "SOCKET_PATH")
    ensures r.Ok? ==> r.value.host == EnvOr(e, prefix, "HOST", "0.0.0.0")
    ensures r.Ok? ==> r.value.shutdownTimeout == ParseInt(EnvOr(e, prefix, "SHUTDOWN_TIMEOUT", "30"))
    ensures r.Ok? ==> r.value.idleTimeout == ParseInt(EnvOr(e, prefix, "IDLE_TIMEOUT", "0"))
    ensures r.Ok? ==> r.value.port == match Lookup(e, prefix, "PORT", PortFallback(r.value.socketPath))
                                      case Found(v) => Some(v)
                                      case Fallback(f) => f
  {
    var socketPath := EnvOpt(e, prefix, "SOCKET_PATH");
    var port := match Lookup(e, prefix, "PORT", PortFallback(socketPath))
                case Found(v) => Some(v)
                case Fallback(f) => f;
    var activation := SocketActivation(
      ParseInt(EnvOr(e, prefix, "LISTEN_PID", "0")), ParseInt(EnvOr(e, prefix, "LISTEN_FDS", "0")), pid);
    match activation
    case Err(error) => Err(error)
    case Ok(on) => Ok(ServerConfig(
      socketPath,
      EnvOr(e, prefix, "HOST", "0.0.0.0"),
      port,
      ParseInt(EnvOr(e, prefix, "SHUTDOWN_TIMEOUT", "30")),
      ParseInt(EnvOr(e, prefix, "IDLE_TIMEOUT", "0")),
      on))
  }

  /** The port defaults to 3000 exactly when neither PORT nor a non-empty
      SOCKET_PATH is set. */
  lemma PortDefault(e: Environment, prefix: string, pid: int)
    requires LoadServerConfig(e, prefix, pid).Ok?
    requires EnvOpt(e, prefix, "PORT").None?
    ensures var cfg := LoadServerConfig(e, prefix, pid).value;
      cfg.port == if Truthy(cfg.socketPath) then None else Some("3000")
  {
  }

  /** With nothing set, the server listens on 0.0.0.0:3000, waits 30 seconds for
      connections at shutdown and never shuts down when idle. */
  lemma DefaultServerConfig(prefix: string, pid: int)
    ensures LoadServerConfig(map[], prefix, pid)
         == Ok(ServerConfig(None, "0.0.0.0", Some("3000"), Some(30), Some(0), false))
  {
    var e: Environment := map[];
    assert DecimalString(0) == "0" && DecimalString(30) == "30";
    ParseIntDecimalString(0, []);
    ParseIntDecimalString(30, []);
    assert DecimalString(0) + [] == "0" && DecimalString(30) + [] == "30";
    assert EnvOr(e, prefix, "LISTEN_PID", "0") == "0" && EnvOr(e, prefix, "LISTEN_FDS", "0") == "0";
    assert EnvOr(e, prefix, "SHUTDOWN_TIMEOUT", "30") == "30" && EnvOr(e, prefix, "IDLE_TIMEOUT", "0") == "0";
    assert EnvOpt(e, prefix, "SOCKET_PATH") == None;
  }

  /** Where the server listens. */
  datatype ListenTarget =
    | FileDescriptor(fd: nat)
    | Address(path: Option<string>, host: string, port: Option<string>)

  /** Under socket activation the server takes the inherited descriptor 3;
      otherwise it binds the configured path or host and port. */
  function ListenOn(cfg: ServerConfig): (t: ListenTarget)
    ensures t.FileDescriptor? <==> cfg.socketActivation
    ensures t.FileDescriptor? ==> t.fd == ListenFdsStart
    ensures t.Address? ==> t == Address(cfg.socketPath, cfg.host, cfg.port)
  {
    if cfg.socketActivation then FileDescriptor(ListenFdsStart)
    else Address(cfg.socketPath, cfg.host, cfg.port)
  }

  /** With the service manager's variables set for this process and one socket,
      the server listens on descriptor 3. */
  lemma ActivatedServerListensOnFd3(e: Environment, prefix: string, pid: nat)
    requires "LISTEN_PID" in e && e["LISTEN_PID"] == Some(DecimalString(pid))
    requires "LISTEN_FDS" in e && e["LISTEN_FDS"] == Some("1")
    ensures LoadServerConfig(e, prefix, pid).Ok?
    ensures ListenOn(LoadServerConfig(e, prefix, pid).value) == FileDescriptor(3)
  {
    ParseIntDecimalString(pid, []);
    assert DecimalString(pid) + [] == DecimalString(pid);
    ParseIntDecimalString(1, []);
    assert DecimalString(1) + [] == "1";
  }

  // ---------------------------------------------------------------------------
  // Request counting, idle timer and graceful shutdown
  // ---------------------------------------------------------------------------

  /** A timer handle: never set (or reset to `undefined`), pending, cleared
      before it fired, or fired. Only `Unset` is falsy. */
  datatype Timer = Unset | Pending | Cleared | Fired

  /** `clearTimeout(t)`: a pending timer is cancelled; the handle stays set. */
  function Clear(t: Timer): (c: Timer)
    ensures c != Pending
    ensures (c == Unset) == (t == Unset)
  {
    if t == Pending then Cleared else t
  }

  /** What triggered a shutdown. */
  datatype Reason = SigInt | SigTerm | Idle

  /** The observable effects of the lifecycle, in order. */
  datatype Effect =
    | CloseIdleConnections
    | StopListening
    | CloseAllConnections
    | ShutdownEvent(reason: Reason)

  /** The number of `server.close` calls among the effects. */
  function StopCount(effects: seq<Effect>): nat {
    if effects == [] then 0
    else StopCount(effects[..|effects| - 1]) + (if effects[|effects| - 1] == StopListening then 1 else 0)
  }

  /** The number of shutdown events emitted among the effects. */
  function EventCount(effects: seq<Effect>): nat {
    if effects == [] then 0
    else EventCount(effects[..|effects| - 1]) + (if effects[|effects| - 1].ShutdownEvent? then 1 else 0)
  }

  lemma CountsAppend(effects: seq<Effect>, more: seq<Effect>)
    ensures StopCount(effects + more) == StopCount(effects) + StopCount(more)
    ensures EventCount(effects + more) == EventCount(effects) + EventCount(more)
  {
    if more != [] {
      var front := more[..|more| - 1];
      assert (effects + more)[..|effects + more| - 1] == effects + front;
      CountsAppend(effects, front);
    } else {
      assert effects + more == effects;
    }
  }

  /** An idle timeout is in force when it is a non-zero number (`0` and `NaN` are falsy). */
  predicate IdleEnabled(idleTimeout: Option<int>) {
    idleTimeout.Some? && idleTimeout.value != 0
  }

  /** The module-level state of server/index.ts. */
  class Server {
    const socketActivation: bool
    const idleTimeout: Option<int>

    var requests: int
    var shutdownTimer: Timer
    var idleTimer: Timer
    /** The reason captured by a `server.close` callback that has not run yet. */
    var pendingClose: Option<Reason>
    var effects: seq<Effect>

    /** Requests started and requests closed so far. */
    ghost var started: nat
    ghost var closed: nat
    /** The reason of the first shutdown, the only one that takes effect. */
    ghost var reason: Option<Reason>

    ghost predicate Valid()
      reads this
    {
      // the counter is requests started minus requests closed
      && closed <= started && requests == started - closed
      // an idle timer only exists while nothing is in flight, under activation
      && (idleTimer != Unset ==> requests == 0 && socketActivation && IdleEnabled(idleTimeout))
      // the shutdown timer is set exactly once shutdown has begun
      && (shutdownTimer == Unset <==> reason.None?)
      && StopCount(effects) == (if reason.Some? then 1 else 0)
      && (pendingClose.Some? ==> pendingClose == reason)
      // the shutdown event is emitted at most once, with the first reason
      && EventCount(effects) + (if pendingClose.Some? then 1 else 0) <= 1
      && (reason.None? ==> EventCount(effects) == 0)
      && (forall i :: 0 <= i < |effects| && effects[i].ShutdownEvent? ==> Some(effects[i].reason) == reason)
    }

    constructor (socketActivation: bool, idleTimeout: Option<int>)
      ensures Valid()
      ensures this.socketActivation == socketActivation && this.idleTimeout == idleTimeout
      ensures requests == 0 && shutdownTimer == Unset && idleTimer == Unset
      ensures pendingClose.None? && effects == [] && reason.None?
    {
      this.socketActivation := socketActivation;
      this.idleTimeout := idleTimeout;
      requests, shutdownTimer, idleTimer, pendingClose, effects := 0, Unset, Unset, None, [];
      started, closed, reason := 0, 0, None;
    }

    /** The server's `request` handler: one more request in flight; under socket
        activation any idle timer is cancelled and its handle reset. */
    method OnRequest()
      requires Valid()
      modifies this
      ensures Valid()
      ensures requests == old(requests) + 1 && started == old(started) + 1 && closed == old(closed)
      ensures idleTimer == Unset
      ensures shutdownTimer == old(shutdownTimer) && pendingClose == old(pendingClose)
      ensures effects == old(effects) && reason == old(reason)
    {
      requests := requests + 1;
      started := started + 1;
      if socketActivation && idleTimer != Unset {
        idleTimer := Unset;
      }
    }

    /** A request's `close` handler: one request fewer in flight; during shutdown
        idle connections are closed again; the idle timer is armed when nothing is
        left in flight under socket activation with an idle timeout. */
    method OnRequestClosed()
      requires Valid()
      requires closed < started
      modifies this
      ensures Valid()
      ensures requests == old(requests) - 1 && closed == old(closed) + 1 && started == old(started)
      ensures old(idleTimer) == Unset
      ensures idleTimer == if requests == 0 && socketActivation && IdleEnabled(idleTimeout) then Pending else Unset
      ensures effects == old(effects) + if shutdownTimer != Unset then [CloseIdleConnections] else []
      ensures shutdownTimer == old(shutdownTimer) && pendingClose == old(pendingClose) && reason == old(reason)
    {
      requests := requests - 1;
      closed := closed + 1;
      if shutdownTimer != Unset {
        CountsAppend(effects, [CloseIdleConnections]);
        effects := effects + [CloseIdleConnections];
      }
      if requests == 0 && socketActivation && IdleEnabled(idleTimeout) {
        idleTimer := Pending;
      }
    }

    /** `graceful_shutdown(reason)`: a no-op once the shutdown timer handle is
        set; otherwise idle connections are closed, the server stops listening
        (its close callback keeps `why`) and the shutdown timer is armed. */
    method GracefulShutdown(why: Reason)
      requires Valid()
      modifies this
      ensures Valid()
      ensures old(shutdownTimer) != Unset ==>
        && shutdownTimer == old(shutdownTimer) && effects == old(effects)
        && pendingClose == old(pendingClose) && reason == old(reason)
      ensures old(shutdownTimer) == Unset ==>
        && shutdownTimer == Pending && pendingClose == Some(why) && reason == Some(why)
        && effects == old(effects) + [CloseIdleConnections, StopListening]
      ensures requests == old(requests) && idleTimer == old(idleTimer)
      ensures started == old(started) && closed == old(closed)
    {
      if shutdownTimer != Unset {
        return;
      }
      CountsAppend(effects, [CloseIdleConnections, StopListening]);
      assert [CloseIdleConnections, StopListening][..1] == [CloseIdleConnections];
      effects := effects + [CloseIdleConnections, StopListening];
      pendingClose := Some(why);
      reason := Some(why);
      shutdownTimer := Pending;
    }

    /** The callback of `server.close`: on an error (the server was already
        closed) nothing happens; otherwise both timers are cleared and the
        shutdown event carries the reason of the shutdown that closed the server. */
    method OnServerClosed(error: bool)
      requires Valid()
      requires pendingClose.Some?
      modifies this
      ensures Valid()
      ensures pendingClose.None?
      ensures error ==> shutdownTimer == old(shutdownTimer) && idleTimer == old(idleTimer) && effects == old(effects)
      ensures !error ==>
        && shutdownTimer == Clear(old(shutdownTimer)) && idleTimer == Clear(old(idleTimer))
        && effects == old(effects) + [ShutdownEvent(old(pendingClose).value)]
        && Some(old(pendingClose).value) == reason
      ensures requests == old(requests) && reason == old(reason)
      ensures started == old(started) && closed == old(closed)
    {
      var why := pendingClose.value;
      pendingClose := None;
      if error {
        return;
      }
      if shutdownTimer != Unset {
        shutdownTimer := Clear(shutdownTimer);
      }
      if idleTimer != Unset {
        idleTimer := Clear(idleTimer);
      }
      CountsAppend(effects, [ShutdownEvent(why)]);
      assert [ShutdownEvent(why)][..0] == [];
      effects := effects + [ShutdownEvent(why)];
    }

    /** The shutdown timer fires: every remaining connection is closed. */
    method OnShutdownTimer()
      requires Valid()
      requires shutdownTimer == Pending
      modifies this
      ensures Valid()
      ensures shutdownTimer == Fired && effects == old(effects) + [CloseAllConnections]
      ensures idleTimer == old(idleTimer) && requests == old(requests)
      ensures pendingClose == old(pendingClose) && reason == old(reason)
      ensures started == old(started) && closed == old(closed)
    {
      CountsAppend(effects, [CloseAllConnections]);
      assert [CloseAllConnections][..0] == [];
      effects := effects + [CloseAllConnections];
      shutdownTimer := Fired;
    }

    /** The idle timer fires: a graceful shutdown for reason `Idle`. */
    method OnIdleTimer()
      requires Valid()
      requires idleTimer == Pending
      modifies this
      ensures Valid()
      ensures idleTimer == Fired && requests == old(requests) == 0
      ensures old(shutdownTimer) == Unset ==>
        && shutdownTimer == Pending && pendingClose == Some(Idle) && reason == Some(Idle)
        && effects == old(effects) + [CloseIdleConnections, StopListening]
      ensures old(shutdownTimer) != Unset ==>
        && shutdownTimer == old(shutdownTimer) && effects == old(effects)
        && pendingClose == old(pendingClose) && reason == old(reason)
      ensures started == old(started) && closed == old(closed)
    {
      idleTimer := Fired;
      GracefulShutdown(Idle);
    }
  }

  /** A client of the lifecycle: a second signal after the first changes nothing,
      and the close callback reports the first signal's reason. */
  method SecondSignalIsIgnored()
  {
    var s := new Server(true, Some(60));
    s.OnRequest();
    s.GracefulShutdown(SigTerm);
    var before := s.effects;
    s.GracefulShutdown(SigInt);
    assert s.effects == before;
    s.OnRequestClosed();
    assert s.effects == before + [CloseIdleConnections];
    assert s.idleTimer == Pending;
    s.OnServerClosed(false);
    assert s.effects[|s.effects| - 1] == ShutdownEvent(SigTerm);
    assert s.idleTimer == Cleared && s.shutdownTimer == Cleared;
  }
}
