/** The reconnection controller of the client: the configuration of
    index.js:50-56, the four state fields of index.js:59-62 and the
    transitions `reconnect` (index.js:332-378), `clearReconnection`
    (index.js:380-387), `manualReconnect` (index.js:506-510) and the counter
    updates `connect` makes (index.js:399, 403).

    Timers are counted rather than timed: `timers` is the number of
    scheduled back-off timers that have neither fired nor been cancelled,
    and `handleLive` says whether `reconnectTimer` still names one of them.
    A second `reconnect` while a timer is pending overwrites the handle, so
    `clearReconnection` can cancel only the latest timer. A timer firing and
    the `connect()` it awaits are one step, with the outcome of `connect()`
    as an input. */
module Reconnection {
  import opened Wrappers

  datatype Config = Config(enabled: bool, maxAttempts: int, initialDelay: real, maxDelay: real, factor: real)

  /** `options.reconnect`, each field absent (`undefined` or `null`) or given. */
  datatype Options = Options(
    enabled: Option<bool>, maxAttempts: Option<int>, initialDelay: Option<real>,
    maxDelay: Option<real>, factor: Option<real>)

  /** The configuration the constructor builds with `??` (index.js:50-56). */
  function ConfigFrom(o: Options): (c: Config)
    ensures c.enabled == (o.enabled != Some(false))
    ensures o.maxAttempts.None? ==> c.maxAttempts == 10
    ensures o.initialDelay.None? ==> c.initialDelay == 1000.0
    ensures o.maxDelay.None? ==> c.maxDelay == 30000.0
    ensures o.factor.None? ==> c.factor == 2.0
    ensures o.maxAttempts.Some? ==> c.maxAttempts == o.maxAttempts.value
    ensures o.initialDelay.Some? ==> c.initialDelay == o.initialDelay.value
    ensures o.maxDelay.Some? ==> c.maxDelay == o.maxDelay.value
    ensures o.factor.Some? ==> c.factor == o.factor.value
    ensures o == Options(None, None, None, None, None) ==> c == Config(true, 10, 1000.0, 30000.0, 2.0)
  {
    Config(OrDefault(o.enabled, true), OrDefault(o.maxAttempts, 10), OrDefault(o.initialDelay, 1000.0),
           OrDefault(o.maxDelay, 30000.0), OrDefault(o.factor, 2.0))
  }

  /** `Math.pow(f, n)` for a whole exponent. */
  function Pow(f: real, n: nat): real {
    if n == 0 then 1.0 else f * Pow(f, n - 1)
  }

  /** The back-off delay of attempt number `attempt` (index.js:349-353):
      the smaller of the exponential delay and the cap. */
  function Delay(cfg: Config, attempt: nat): (d: real)
    requires attempt >= 1
    ensures d <= cfg.maxDelay
    ensures d <= cfg.initialDelay * Pow(cfg.factor, attempt - 1)
    ensures d == cfg.maxDelay || d == cfg.initialDelay * Pow(cfg.factor, attempt - 1)
  {
    var raw := cfg.initialDelay * Pow(cfg.factor, attempt - 1);
    if raw < cfg.maxDelay then raw else cfg.maxDelay
  }

  const MaxAttemptsMessage: string := "Max reconnection attempts reached"

  datatype State = State(
    attempts: nat,            // reconnectAttempts
    isReconnecting: bool,
    shouldAttempt: bool,      // shouldAttemptReconnect
    timers: nat,              // back-off timers still to fire
    handleLive: bool)         // reconnectTimer names one of them

  predicate Inv(s: State) {
    s.handleLive ==> s.timers >= 1
  }

  /** The state the constructor sets up: the counter starts at 1. */
  const Initial: State := State(1, false, false, 0, false)

  /** Emissions of the controller (and `connect`'s own `error`). */
  datatype Event =
    | Reconnecting(attempt: nat, delay: real, maxAttempts: int)
    | ReconnectFailed(attempts: nat, message: string)
    | ReconnectError(attempt: nat)
    | Reconnected(timestamp: int)
    | ConnectError
    | ResumeCapture          // capture restarted after a successful reconnect

  datatype Step = Step(state: State, events: seq<Event>)

  /** The synchronous part of `reconnect()`, up to the timer it schedules
      (index.js:332-363). */
  function ReconnectStep(cfg: Config, s: State): (r: Step)
    ensures Inv(s) ==> Inv(r.state)
    ensures !cfg.enabled || !s.shouldAttempt ==> r == Step(s, [])
    ensures cfg.enabled && s.shouldAttempt && s.attempts >= cfg.maxAttempts ==>
      r == Step(s.(shouldAttempt := false), [ReconnectFailed(s.attempts, MaxAttemptsMessage)])
    ensures cfg.enabled && s.shouldAttempt && s.attempts < cfg.maxAttempts ==>
      && r.state.attempts == s.attempts + 1
      && r.state.timers == s.timers + 1 && r.state.handleLive && r.state.isReconnecting
      && r.state.shouldAttempt
      && r.events == [Reconnecting(s.attempts + 1, Delay(cfg, s.attempts + 1), cfg.maxAttempts)]
    ensures |r.events| <= 1
    ensures forall e :: e in r.events && e.Reconnecting? ==> e.delay <= cfg.maxDelay && e.attempt <= cfg.maxAttempts
  {
    if !cfg.enabled || !s.shouldAttempt then Step(s, [])
    else if s.attempts >= cfg.maxAttempts then
      Step(s.(shouldAttempt := false), [ReconnectFailed(s.attempts, MaxAttemptsMessage)])
    else
      var a := s.attempts + 1;
      Step(s.(isReconnecting := true, attempts := a, timers := s.timers + 1, handleLive := true),
           [Reconnecting(a, Delay(cfg, a), cfg.maxAttempts)])
  }

  /** `connect()` as far as the controller sees it: on success the socket
      exists and `shouldAttemptReconnect` is set (index.js:398-399); on
      failure it emits `error` and rejects (index.js:432-437) before
      reaching that line. */
  function ConnectStep(s: State, ok: bool): (r: Step)
    ensures ok ==> r == Step(s.(shouldAttempt := true), [])
    ensures !ok ==> r == Step(s, [ConnectError])
  {
    if ok then Step(s.(shouldAttempt := true), []) else Step(s, [ConnectError])
  }

  /** The state once one of the pending timers has fired: the handle stays
      live only if another timer was pending and the latest one did not fire. */
  function Fired(s: State, latest: bool): (r: State)
    requires s.timers > 0
    ensures Inv(s) ==> Inv(r)
    ensures r.timers == s.timers - 1
    // the handle survives only if it named a timer other than this one
    ensures r.handleLive ==> s.handleLive && !latest && r.timers >= 1
    ensures s.handleLive && !latest && s.timers > 1 ==> r.handleLive
    // nothing but the timers changes
    ensures r.attempts == s.attempts && r.isReconnecting == s.isReconnecting
    ensures r.shouldAttempt == s.shouldAttempt
  {
    s.(timers := s.timers - 1, handleLive := s.handleLive && s.timers > 1 && !latest)
  }

  /** A back-off timer fires and `connect()` resolves (`ok`) or rejects
      (index.js:361-377). `latest` says whether the timer that fired is the
      one `reconnectTimer` names, `recording` is `isRecording`, `now` the
      clock. `resumable` says whether resuming capture succeeds: the code
      calls `this.startStreaming()`, which the class does not define, so as
      written the call throws a TypeError that the `catch` turns into a
      `reconnectError` and a fresh `reconnect()`; with `resumable` capture
      simply resumes. */
  function FireStep(cfg: Config, s: State, latest: bool, ok: bool, recording: bool, now: int, resumable: bool): (r: Step)
    ensures Inv(s) ==> Inv(r.state)
    ensures s.timers == 0 ==> r == Step(s, [])
    ensures s.timers > 0 && ok && (!recording || resumable) ==>
      && r.state.attempts == 0 && !r.state.isReconnecting && r.state.shouldAttempt
      && r.state.timers == s.timers - 1
      && r.events == [Reconnected(now)] + (if recording then [ResumeCapture] else [])
    ensures s.timers > 0 && !ok ==>
      var again := ReconnectStep(cfg, Fired(s, latest));
      r == Step(again.state, [ConnectError, ReconnectError(s.attempts)] + again.events)
  {
    if s.timers == 0 then Step(s, [])
    else
      var c := ConnectStep(Fired(s, latest), ok);
      if ok then
        var done := c.state.(isReconnecting := false, attempts := 0);
        if !recording then Step(done, [Reconnected(now)])
        else if resumable then Step(done, [Reconnected(now), ResumeCapture])
        else
          var again := ReconnectStep(cfg, done);
          Step(again.state, [Reconnected(now), ReconnectError(0)] + again.events)
      else
        var again := ReconnectStep(cfg, c.state);
        Step(again.state, c.events + [ReconnectError(c.state.attempts)] + again.events)
  }

  /** `clearReconnection()` (index.js:380-387). */
  function ClearStep(s: State): (r: State)
    ensures Inv(s) ==> Inv(r)
    ensures !r.shouldAttempt && !r.isReconnecting && !r.handleLive && r.attempts == s.attempts
    ensures Inv(s) ==> r.timers == (if s.handleLive then s.timers - 1 else s.timers)
  {
    s.(shouldAttempt := false, isReconnecting := false,
       timers := if s.handleLive && s.timers > 0 then s.timers - 1 else s.timers, handleLive := false)
  }

  /** `manualReconnect()` (index.js:506-510): set the flag, reset the counter
      to 0 and run `reconnect()`, which still checks `enabled`. */
  function ManualStep(cfg: Config, s: State): (r: Step)
    ensures Inv(s) ==> Inv(r.state)
    ensures !cfg.enabled ==> r == Step(s.(shouldAttempt := true, attempts := 0), [])
    ensures cfg.enabled && cfg.maxAttempts >= 1 ==>
      r.events == [Reconnecting(1, Delay(cfg, 1), cfg.maxAttempts)] && r.state.attempts == 1
    ensures cfg.enabled && cfg.maxAttempts >= 1 ==>
      r.state == s.(shouldAttempt := true, attempts := 1, isReconnecting := true,
                    timers := s.timers + 1, handleLive := true)
  {
    ReconnectStep(cfg, s.(shouldAttempt := true, attempts := 0))
  }

  /** `ws.onopen` emits `open` and then resets the counter to 0
      (index.js:402-403). `openThrows` says some `open` listener throws: the
      exception leaves the handler before the reset, and every field keeps
      its value. */
  function OpenStep(s: State, openThrows: bool): (r: State)
    ensures openThrows ==> r == s
    ensures !openThrows ==> r.attempts == 0 && r == s.(attempts := 0)
  {
    if openThrows then s else s.(attempts := 0)
  }

  /** The controller as the client object holds it. */
  class Reconnector {
    const config: Config
    var reconnectAttempts: nat
    var isReconnecting: bool
    var shouldAttemptReconnect: bool
    var timers: nat
    var handleLive: bool

    function Current(): State
      reads this
    {
      State(reconnectAttempts, isReconnecting, shouldAttemptReconnect, timers, handleLive)
    }

    ghost predicate Valid()
      reads this
    {
      Inv(Current())
    }

    constructor (options: Options)
      ensures Valid()
      ensures config == ConfigFrom(options) && Current() == Initial
    {
      config := ConfigFrom(options);
      reconnectAttempts := 1;
      isReconnecting := false;
      shouldAttemptReconnect := false;
      timers := 0;
      handleLive := false;
    }

    /** `reconnect()`, up to the scheduled timer. */
    method Reconnect() returns (events: seq<Event>)
      requires Valid()
      modifies this
      ensures Valid()
      ensures Step(Current(), events) == ReconnectStep(config, old(Current()))
    {
      if !config.enabled || !shouldAttemptReconnect {
        events := [];
        return;
      }
      if reconnectAttempts >= config.maxAttempts {
        events := [ReconnectFailed(reconnectAttempts, MaxAttemptsMessage)];
        shouldAttemptReconnect := false;
        return;
      }
      isReconnecting := true;
      reconnectAttempts := reconnectAttempts + 1;
      var delay := Delay(config, reconnectAttempts);
      events := [Reconnecting(reconnectAttempts, delay, config.maxAttempts)];
      timers := timers + 1;
      handleLive := true;
    }

    /** A back-off timer fires and `connect()` resolves or rejects; capture
        resumes after a successful reconnect (the corrected behaviour). */
    method TimerFired(latest: bool, connected: bool, recording: bool, now: int) returns (events: seq<Event>)
      requires Valid()
      modifies this
      ensures Valid()
      ensures Step(Current(), events) == FireStep(config, old(Current()), latest, connected, recording, now, true)
    {
      if timers == 0 {
        events := [];
        return;
      }
      handleLive := handleLive && timers > 1 && !latest;
      timers := timers - 1;
      if connected {
        shouldAttemptReconnect := true;
        isReconnecting := false;
        reconnectAttempts := 0;
        events := [Reconnected(now)];
        if recording {
          events := events + [ResumeCapture];
        }
      } else {
        events := [ConnectError, ReconnectError(reconnectAttempts)];
        var again := Reconnect();
        events := events + again;
      }
    }

    /** `clearReconnection()`. */
    method ClearReconnection()
      requires Valid()
      modifies this
      ensures Valid()
      ensures Current() == ClearStep(old(Current()))
    {
      shouldAttemptReconnect := false;
      isReconnecting := false;
      if handleLive {
        timers := timers - 1;
        handleLive := false;
      }
    }

    /** `manualReconnect()`. */
    method ManualReconnect() returns (events: seq<Event>)
      requires Valid()
      modifies this
      ensures Valid()
      ensures Step(Current(), events) == ManualStep(config, old(Current()))
    {
      shouldAttemptReconnect := true;
      reconnectAttempts := 0;
      events := Reconnect();
    }

    /** The controller's part of a `connect()` called by the host (`start`). */
    method Connect(ok: bool) returns (events: seq<Event>)
      requires Valid()
      modifies this
      ensures Valid()
      ensures Step(Current(), events) == ConnectStep(old(Current()), ok)
    {
      if ok {
        shouldAttemptReconnect := true;
        events := [];
      } else {
        events := [ConnectError];
      }
    }

    /** `ws.onopen`. */
    method SocketOpened(openThrows: bool)
      requires Valid()
      modifies this
      ensures Valid()
      ensures Current() == OpenStep(old(Current()), openThrows)
    {
      if !openThrows {
        reconnectAttempts := 0;
      }
    }
  }
}
