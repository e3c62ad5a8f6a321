/**
 * The player agent (birdbox.js): the two module-level slots `mpvProcess` and
 * `reconnectTimer`, the `start`/`stop` branches of the message handler, and
 * the `open`/`close`/`error` handlers with `scheduleReconnect`.
 *
 * Processes and timers are opaque handles. A ghost log records every
 * process spawned and killed; a ghost set records the timers that are
 * scheduled and have neither fired nor been cleared; a ghost connection
 * state records where the socket made by the last `connect()` stands.
 */
module Player {
  import opened Common

  /** A child process returned by `spawn`. */
  type Process = nat
  /** A timer returned by `setTimeout`. */
  type Timer = nat

  /** A decoded message from the relay server: its `type`, `action` and `video` fields. */
  datatype Command = Command(kind: string, action: string, video: string)

  const RECONNECT_DELAY_MS: nat := 30000

  // ---------------------------------------------------------------------
  // Spawn arguments
  // ---------------------------------------------------------------------

  /** The file played for a video id. */
  function VideoPath(video: string): string {
    "videos/" + video + ".mp4"
  }

  /** The video id a played file stands for, if it has the form `videos/<video>.mp4`. */
  function VideoOfPath(path: string): (r: Option<string>)
    ensures r.Some? ==> VideoPath(r.value) == path
  {
    if |path| >= 11 && path[..7] == "videos/" && path[|path| - 4..] == ".mp4"
    then
      var video := path[7..|path| - 4];
      assert VideoPath(video) == path[..7] + video + path[|path| - 4..];
      Some(video)
    else None
  }

  /** The video id can be read back from the file path. */
  lemma VideoPathRoundTrip(video: string)
    ensures VideoOfPath(VideoPath(video)) == Some(video)
  {
    var path := VideoPath(video);
    assert path[..7] == "videos/" && path[|path| - 4..] == ".mp4";
    assert path[7..|path| - 4] == video;
  }

  /**
   * The `spawn` call of the `start` branch: `mpv` with the file alone, or in
   * the `prod` environment full screen on the DRM video output.
   */
  function MpvInvocation(environment: string, video: string): (inv: Invocation)
    ensures inv.executable == "mpv"
    ensures |inv.args| > 0 && VideoOfPath(inv.args[|inv.args| - 1]) == Some(video)
    ensures environment != "prod" ==> |inv.args| == 1
    ensures environment == "prod" ==> inv.args[..|inv.args| - 1] == ["--fs", "--vo=drm"]
  {
    VideoPathRoundTrip(video);
    if environment != "prod" then Invocation("mpv", [VideoPath(video)])
    else Invocation("mpv", ["--fs", "--vo=drm", VideoPath(video)])
  }

  // ---------------------------------------------------------------------
  // Agent state
  // ---------------------------------------------------------------------

  /** What happened to a child process. */
  datatype ProcessEvent = Spawned(process: Process, invocation: Invocation) | Killed(process: Process)

  /** A scheduled `setTimeout` call. */
  datatype Timeout = Timeout(handle: Timer, delayMs: nat)

  /** The state of the socket made by the last `connect()`. */
  datatype Connection = Connecting | Connected | Disconnected

  datatype AgentState = AgentState(
    mpvProcess: Option<Process>,
    reconnectTimer: Option<Timer>,
    log: seq<ProcessEvent>,      // every spawn and kill, in order
    pending: set<Timeout>,       // timers scheduled that have neither fired nor been cleared
    connection: Connection)

  /** The agent after the `connect()` call at module load. */
  const Initial := AgentState(None, None, [], {}, Connecting)

  /** The processes ever spawned. */
  function SpawnedSet(log: seq<ProcessEvent>): set<Process> {
    if log == [] then {}
    else SpawnedSet(log[..|log| - 1]) + (if log[|log| - 1].Spawned? then {log[|log| - 1].process} else {})
  }

  /** The processes ever killed. */
  function KilledSet(log: seq<ProcessEvent>): set<Process> {
    if log == [] then {}
    else KilledSet(log[..|log| - 1]) + (if log[|log| - 1].Killed? then {log[|log| - 1].process} else {})
  }

  /** The processes spawned and not killed. */
  function Live(log: seq<ProcessEvent>): set<Process> {
    SpawnedSet(log) - KilledSet(log)
  }

  lemma LogAppend(log: seq<ProcessEvent>, e: ProcessEvent)
    ensures SpawnedSet(log + [e]) == SpawnedSet(log) + (if e.Spawned? then {e.process} else {})
    ensures KilledSet(log + [e]) == KilledSet(log) + (if e.Killed? then {e.process} else {})
  {
    assert (log + [e])[..|log|] == log;
  }

  /**
   * Only processes that were spawned are killed, and the one process held in
   * `mpvProcess` is the only one spawned and not killed.
   */
  ghost predicate ProcessInvariant(s: AgentState) {
    && KilledSet(s.log) <= SpawnedSet(s.log)
    && Live(s.log) == Held(s.mpvProcess)
  }

  /** A handle `spawn` has not returned before. */
  predicate FreshProcess(s: AgentState, child: Process) {
    child !in SpawnedSet(s.log)
  }

  // ---------------------------------------------------------------------
  // The message handler
  // ---------------------------------------------------------------------

  /** The `stop` branch, also the first half of `start`: kill and clear a held process. */
  function Stop(s: AgentState): (r: AgentState)
    ensures r.mpvProcess == None
    ensures r.reconnectTimer == s.reconnectTimer && r.pending == s.pending && r.connection == s.connection
  {
    match s.mpvProcess
    case Some(p) => s.(mpvProcess := None, log := s.log + [Killed(p)])
    case None => s
  }

  /** The `start` branch: kill any held process, then spawn `mpv` and hold the new process. */
  function Start(s: AgentState, environment: string, video: string, child: Process): (r: AgentState)
    ensures r.mpvProcess == Some(child)
    ensures |r.log| > 0 && r.log[|r.log| - 1] == Spawned(child, MpvInvocation(environment, video))
    ensures r.reconnectTimer == s.reconnectTimer && r.pending == s.pending && r.connection == s.connection
  {
    var k := Stop(s);
    k.(mpvProcess := Some(child), log := k.log + [Spawned(child, MpvInvocation(environment, video))])
  }

  predicate IsStart(cmd: Command) {
    cmd.kind == "command" && cmd.action == "start"
  }

  /**
   * The `message` handler on a decoded command. `child` is the handle the
   * `spawn` of a `start` returns; other messages ignore it.
   */
  function HandleMessage(s: AgentState, cmd: Command, environment: string, child: Process): (r: AgentState)
    requires IsStart(cmd) ==> FreshProcess(s, child)
    ensures r.reconnectTimer == s.reconnectTimer && r.pending == s.pending && r.connection == s.connection
  {
    if cmd.kind != "command" then s
    else if cmd.action == "start" then Start(s, environment, cmd.video, child)
    else if cmd.action == "stop" then Stop(s)
    else s
  }

  /** `stop` keeps the invariant, and afterwards no process is live. */
  lemma StopKeepsInvariant(s: AgentState)
    requires ProcessInvariant(s)
    ensures ProcessInvariant(Stop(s))
    ensures Live(Stop(s).log) == {}
    ensures KilledSet(Stop(s).log) == KilledSet(s.log) + Held(s.mpvProcess)
  {
    if s.mpvProcess.Some? {
      LogAppend(s.log, Killed(s.mpvProcess.value));
    }
  }

  /** A second `stop` does nothing. */
  lemma StopIdempotent(s: AgentState)
    ensures Stop(Stop(s)) == Stop(s)
  {
  }

  /** `start` kills the held process first, and afterwards the new child is the only live process. */
  lemma StartKeepsInvariant(s: AgentState, environment: string, video: string, child: Process)
    requires ProcessInvariant(s) && FreshProcess(s, child)
    ensures ProcessInvariant(Start(s, environment, video, child))
    ensures Live(Start(s, environment, video, child).log) == {child}
    ensures KilledSet(Start(s, environment, video, child).log) == KilledSet(s.log) + Held(s.mpvProcess)
  {
    var k := Stop(s);
    StopKeepsInvariant(s);
    LogAppend(k.log, Spawned(child, MpvInvocation(environment, video)));
  }

  /** Every message keeps the process invariant. */
  lemma HandleMessageKeepsInvariant(s: AgentState, cmd: Command, environment: string, child: Process)
    requires ProcessInvariant(s)
    requires IsStart(cmd) ==> FreshProcess(s, child)
    ensures ProcessInvariant(HandleMessage(s, cmd, environment, child))
  {
    if IsStart(cmd) {
      StartKeepsInvariant(s, environment, cmd.video, child);
    } else if cmd.kind == "command" && cmd.action == "stop" {
      StopKeepsInvariant(s);
    }
  }

  /** A message that is not a command, or a command other than `start`/`stop`, changes nothing. */
  lemma OtherMessagesChangeNothing(s: AgentState, cmd: Command, environment: string, child: Process)
    requires cmd.kind != "command" || (cmd.action != "start" && cmd.action != "stop")
    ensures HandleMessage(s, cmd, environment, child) == s
  {
  }

  // ---------------------------------------------------------------------
  // The connection handlers
  // ---------------------------------------------------------------------

  /** `scheduleReconnect`: schedule `connect` after 30 s unless a timer is already held. */
  function AfterSchedule(s: AgentState, timer: Timer): (r: AgentState)
    ensures r.reconnectTimer.Some?
    ensures s.reconnectTimer.Some? ==> r == s
    ensures s.reconnectTimer.None? ==>
      r.reconnectTimer == Some(timer) && r.pending == s.pending + {Timeout(timer, RECONNECT_DELAY_MS)}
    ensures r.mpvProcess == s.mpvProcess && r.log == s.log && r.connection == s.connection
  {
    if s.reconnectTimer.Some? then s
    else s.(reconnectTimer := Some(timer), pending := s.pending + {Timeout(timer, RECONNECT_DELAY_MS)})
  }

  /** The `close` handler; `timer` is the handle a `setTimeout` call would return. */
  function AfterClose(s: AgentState, timer: Timer): (r: AgentState)
    ensures r.connection == Disconnected && r.reconnectTimer.Some?
  {
    AfterSchedule(s.(connection := Disconnected), timer)
  }

  /** The `open` handler: clear a held timer (cancelling it if it is still pending) and empty the slot. */
  function AfterOpen(s: AgentState): (r: AgentState)
    ensures r.connection == Connected && r.reconnectTimer == None
    ensures r.mpvProcess == s.mpvProcess && r.log == s.log
    ensures r.pending <= s.pending
  {
    var c := s.(connection := Connected);
    match s.reconnectTimer
    case Some(t) => c.(reconnectTimer := None, pending := set x | x in s.pending && x.handle != t)
    case None => c
  }

  /** A pending timer fires and calls `connect`; the `reconnectTimer` slot is left as it is. */
  function AfterFire(s: AgentState, timeout: Timeout): (r: AgentState)
    ensures r.connection == Connecting && r.pending == s.pending - {timeout}
    ensures r.reconnectTimer == s.reconnectTimer && r.mpvProcess == s.mpvProcess && r.log == s.log
  {
    s.(pending := s.pending - {timeout}, connection := Connecting)
  }

  /** The same with the slot cleared, as the debounce evidently intends. */
  function AfterFireCorrected(s: AgentState, timeout: Timeout): (r: AgentState)
    ensures r.connection == Connecting && r.reconnectTimer == None
    ensures r.pending == s.pending - {timeout} && r.mpvProcess == s.mpvProcess && r.log == s.log
  {
    AfterFire(s, timeout).(reconnectTimer := None)
  }

  /** A timer is held exactly while one `connect` is pending for it, with the 30 s delay, or after it fired. */
  predicate OnePending(s: AgentState) {
    s.pending == {} || (s.reconnectTimer.Some? && s.pending == {Timeout(s.reconnectTimer.value, RECONNECT_DELAY_MS)})
  }

  /** A burst of `close` events. */
  function Closes(s: AgentState, timers: seq<Timer>): AgentState
    decreases |timers|
  {
    if timers == [] then s else Closes(AfterClose(s, timers[0]), timers[1..])
  }

  /** However many `close` events arrive, only the first schedules a timer. */
  lemma {:induction false} CloseBurstSchedulesOnce(s: AgentState, timers: seq<Timer>)
    requires s.reconnectTimer == None && timers != []
    ensures Closes(s, timers).reconnectTimer == Some(timers[0])
    ensures Closes(s, timers).pending == s.pending + {Timeout(timers[0], RECONNECT_DELAY_MS)}
    ensures Closes(s, timers).connection == Disconnected
  {
    ClosesWhileHeld(AfterClose(s, timers[0]), timers[1..]);
  }

  lemma {:induction false} ClosesWhileHeld(s: AgentState, timers: seq<Timer>)
    requires s.reconnectTimer.Some? && s.connection == Disconnected
    ensures Closes(s, timers) == s
    decreases |timers|
  {
    if timers != [] {
      assert AfterClose(s, timers[0]) == s;
      ClosesWhileHeld(s, timers[1..]);
    }
  }

  // ---------------------------------------------------------------------
  // Runs of the agent
  // ---------------------------------------------------------------------

  /**
   * What can happen to the agent. `Close` and `Error` carry the handle the
   * `setTimeout` in `scheduleReconnect` would return; `Error` calls
   * `ws.close()`, whose `close` event runs the `close` handler.
   */
  datatype Event =
    | Message(cmd: Command, environment: string, child: Process)
    | Open
    | Close(timer: Timer)
    | Error(timer: Timer)
    | Fire(timeout: Timeout)

  /**
   * When the event can happen: messages arrive on an open socket, a socket
   * being opened opens, a socket not yet closed closes or fails, and a
   * pending timer fires.
   */
  predicate Enabled(s: AgentState, e: Event) {
    match e
    case Message(cmd, _, child) => s.connection == Connected && (IsStart(cmd) ==> FreshProcess(s, child))
    case Open => s.connection == Connecting
    case Close(_) => s.connection != Disconnected
    case Error(_) => s.connection != Disconnected
    case Fire(timeout) => timeout in s.pending
  }

  function Step(s: AgentState, e: Event): AgentState
    requires Enabled(s, e)
  {
    match e
    case Message(cmd, environment, child) => HandleMessage(s, cmd, environment, child)
    case Open => AfterOpen(s)
    case Close(timer) => AfterClose(s, timer)
    case Error(timer) => AfterClose(s, timer)
    case Fire(timeout) => AfterFire(s, timeout)
  }

  function StepCorrected(s: AgentState, e: Event): AgentState
    requires Enabled(s, e)
  {
    match e
    case Fire(timeout) => AfterFireCorrected(s, timeout)
    case _ => Step(s, e)
  }

  /** The agent after the events that can happen, in order; an event that cannot happen is not delivered. */
  function Run(s: AgentState, events: seq<Event>): AgentState
    decreases |events|
  {
    if events == [] then s
    else Run(if Enabled(s, events[0]) then Step(s, events[0]) else s, events[1..])
  }

  function RunCorrected(s: AgentState, events: seq<Event>): AgentState
    decreases |events|
  {
    if events == [] then s
    else RunCorrected(if Enabled(s, events[0]) then StepCorrected(s, events[0]) else s, events[1..])
  }

  /** Only timer and socket events touch the timer; only messages touch the process slot and the log. */
  lemma StepFrames(s: AgentState, e: Event)
    requires Enabled(s, e)
    ensures e.Message? ==> Step(s, e).reconnectTimer == s.reconnectTimer && Step(s, e).pending == s.pending
    ensures !e.Message? ==> Step(s, e).mpvProcess == s.mpvProcess && Step(s, e).log == s.log
  {
  }

  /** Only `open` empties the timer slot. */
  lemma OnlyOpenClearsTimer(s: AgentState, e: Event)
    requires Enabled(s, e)
    requires s.reconnectTimer.Some? && Step(s, e).reconnectTimer == None
    ensures e.Open?
  {
  }

  /** Every event keeps at most one pending reconnect, with the 30 s delay. */
  lemma StepKeepsOnePending(s: AgentState, e: Event)
    requires OnePending(s) && Enabled(s, e)
    ensures OnePending(Step(s, e))
  {
    if e.Open? && s.reconnectTimer.Some? {
      var t := s.reconnectTimer.value;
      assert Step(s, e).pending == {} by {
        forall x | x in s.pending ensures x.handle == t { }
      }
    }
  }

  /** Every event keeps the process invariant. */
  lemma StepKeepsProcessInvariant(s: AgentState, e: Event)
    requires ProcessInvariant(s) && Enabled(s, e)
    ensures ProcessInvariant(Step(s, e))
  {
    if e.Message? {
      HandleMessageKeepsInvariant(s, e.cmd, e.environment, e.child);
    }
  }

  /** Both invariants hold in every state a run reaches from the start. */
  lemma {:induction false} RunKeepsInvariants(s: AgentState, events: seq<Event>)
    requires ProcessInvariant(s) && OnePending(s)
    ensures ProcessInvariant(Run(s, events)) && OnePending(Run(s, events))
    decreases |events|
  {
    if events != [] {
      if Enabled(s, events[0]) {
        StepKeepsProcessInvariant(s, events[0]);
        StepKeepsOnePending(s, events[0]);
        RunKeepsInvariants(Step(s, events[0]), events[1..]);
      } else {
        RunKeepsInvariants(s, events[1..]);
      }
    }
  }

  /** Disconnected with no reconnect pending: nothing can happen any more. */
  predicate Stalled(s: AgentState) {
    s.connection == Disconnected && s.pending == {}
  }

  /** A stalled agent stays stalled, whatever events follow. */
  lemma {:induction false} StalledIsFinal(s: AgentState, events: seq<Event>)
    requires Stalled(s)
    ensures Run(s, events) == s
    decreases |events|
  {
    if events != [] {
      assert !Enabled(s, events[0]);
      StalledIsFinal(s, events[1..]);
    }
  }

  /**
   * As written: the connection drops, the reconnect timer fires, the new
   * connection attempt fails, and the agent never tries again.
   */
  lemma RetryFailureStalls()
    ensures Stalled(Run(Initial, [Close(1), Fire(Timeout(1, RECONNECT_DELAY_MS)), Close(2)]))
    ensures Run(Initial, [Close(1), Fire(Timeout(1, RECONNECT_DELAY_MS)), Close(2)]).reconnectTimer == Some(1)
  {
    var s1 := AfterClose(Initial, 1);
    assert s1 == AgentState(None, Some(1), [], {Timeout(1, RECONNECT_DELAY_MS)}, Disconnected);
    var s2 := AfterFire(s1, Timeout(1, RECONNECT_DELAY_MS));
    assert s2 == AgentState(None, Some(1), [], {}, Connecting);
    var s3 := AfterClose(s2, 2);
    assert s3 == AgentState(None, Some(1), [], {}, Disconnected);
    var events := [Close(1), Fire(Timeout(1, RECONNECT_DELAY_MS)), Close(2)];
    assert events[1..] == [Fire(Timeout(1, RECONNECT_DELAY_MS)), Close(2)];
    assert events[1..][1..] == [Close(2)];
    assert Run(Initial, events) == Run(s1, events[1..]);
    assert Run(s1, events[1..]) == Run(s2, events[1..][1..]);
  }

  /** With the slot cleared on firing: a timer is held exactly while disconnected, and it is the one pending. */
  predicate Recovering(s: AgentState) {
    && (s.connection == Disconnected <==> s.reconnectTimer.Some?)
    && s.pending == (if s.reconnectTimer.Some? then {Timeout(s.reconnectTimer.value, RECONNECT_DELAY_MS)} else {})
  }

  lemma StepCorrectedKeepsRecovering(s: AgentState, e: Event)
    requires Recovering(s) && Enabled(s, e)
    ensures Recovering(StepCorrected(s, e))
  {
  }

  /** A recovering agent is never stalled. */
  lemma RecoveringNeverStalls(s: AgentState)
    requires Recovering(s)
    ensures !Stalled(s)
  {
    if s.connection == Disconnected {
      assert Timeout(s.reconnectTimer.value, RECONNECT_DELAY_MS) in s.pending;
    }
  }

  /** With the correction, no run from the start ever stalls. */
  lemma {:induction false} CorrectedNeverStalls(s: AgentState, events: seq<Event>)
    requires Recovering(s)
    ensures Recovering(RunCorrected(s, events)) && !Stalled(RunCorrected(s, events))
    decreases |events|
  {
    if events == [] {
      RecoveringNeverStalls(s);
    } else if Enabled(s, events[0]) {
      StepCorrectedKeepsRecovering(s, events[0]);
      CorrectedNeverStalls(StepCorrected(s, events[0]), events[1..]);
    } else {
      CorrectedNeverStalls(s, events[1..]);
    }
  }

  // ---------------------------------------------------------------------
  // The agent as the source holds it
  // ---------------------------------------------------------------------

  /**
   * The module-level slots of birdbox.js, with the ghost history beside them.
   * The timer callback comes twice: as birdbox.js:74 writes it
   * (OnFireAsWritten) and with the slot emptied (OnFire).
   */
  class Agent {
    var mpvProcess: Option<Process>
    var reconnectTimer: Option<Timer>
    ghost var log: seq<ProcessEvent>
    ghost var pending: set<Timeout>
    ghost var connection: Connection

    ghost function View(): AgentState
      reads this
    {
      AgentState(mpvProcess, reconnectTimer, log, pending, connection)
    }

    ghost predicate Valid()
      reads this
    {
      ProcessInvariant(View()) && OnePending(View())
    }

    /** Module load: both slots null, and `connect()` opens the first socket. */
    constructor ()
      ensures View() == Initial && Valid()
    {
      mpvProcess := None;
      reconnectTimer := None;
      log := [];
      pending := {};
      connection := Connecting;
    }

    /** The `message` handler; a `spawn` in the `start` branch returns `child`. */
    method OnMessage(cmd: Command, environment: string, child: Process)
      requires Valid()
      requires IsStart(cmd) ==> FreshProcess(View(), child)
      modifies this
      ensures View() == HandleMessage(old(View()), cmd, environment, child)
      ensures Valid()
    {
      ghost var s := View();
      if cmd.kind == "command" {
        if cmd.action == "start" {
          if mpvProcess.Some? {
            log := log + [Killed(mpvProcess.value)];
            mpvProcess := None;
          }
          if mpvProcess.None? {
            var invocation := MpvInvocation(environment, cmd.video);
            mpvProcess := Some(child);
            log := log + [Spawned(child, invocation)];
          }
        } else if cmd.action == "stop" {
          if mpvProcess.Some? {
            log := log + [Killed(mpvProcess.value)];
            mpvProcess := None;
          }
        }
      }
      HandleMessageKeepsInvariant(s, cmd, environment, child);
    }

    /** The `open` handler. */
    method OnOpen()
      requires Valid()
      modifies this
      ensures View() == AfterOpen(old(View()))
      ensures Valid()
    {
      connection := Connected;
      if reconnectTimer.Some? {
        var t := reconnectTimer.value;
        pending := set x | x in pending && x.handle != t;
        reconnectTimer := None;
      }
    }

    /** `scheduleReconnect`; `setTimeout` returns `timer`. */
    method ScheduleReconnect(timer: Timer)
      requires Valid()
      modifies this
      ensures View() == AfterSchedule(old(View()), timer)
      ensures Valid()
    {
      if reconnectTimer.Some? {
        return;
      }
      reconnectTimer := Some(timer);
      pending := pending + {Timeout(timer, RECONNECT_DELAY_MS)};
    }

    /** The `close` handler. */
    method OnClose(timer: Timer)
      requires Valid()
      modifies this
      ensures View() == AfterClose(old(View()), timer)
      ensures Valid()
    {
      connection := Disconnected;
      ScheduleReconnect(timer);
    }

    /** The `error` handler: `ws.close()`, whose `close` event runs the `close` handler. */
    method OnError(timer: Timer)
      requires Valid()
      modifies this
      ensures View() == AfterClose(old(View()), timer)
      ensures Valid()
    {
      OnClose(timer);
    }

    /** The timer callback as written: `connect()` opens a new socket, and `reconnectTimer` keeps the fired timer. */
    method OnFireAsWritten(timeout: Timeout)
      requires Valid()
      modifies this
      ensures View() == AfterFire(old(View()), timeout)
      ensures Valid()
    {
      pending := pending - {timeout};
      connection := Connecting;
    }

    /**
     * The timer callback: `connect()` opens a new socket. The slot is emptied
     * as the debounce intends; birdbox.js:74 leaves it set (AfterFire).
     */
    method OnFire(timeout: Timeout)
      requires Valid() && timeout in pending
      modifies this
      ensures View() == AfterFireCorrected(old(View()), timeout)
      ensures Valid() && reconnectTimer == None && pending == {}
    {
      pending := pending - {timeout};
      reconnectTimer := None;
      connection := Connecting;
    }
  }
}
