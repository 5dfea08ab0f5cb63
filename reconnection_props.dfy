/** Properties of the reconnection controller: the back-off schedule of a
    run of failed attempts, the effect of `clearReconnection`, and the
    reconnect loop that the missing `startStreaming` causes while recording. */
module ReconnectionProperties {
  import opened Reconnection

  /** The (attempt, delay) pairs of the `reconnecting` emissions, in order. */
  function Schedules(es: seq<Event>): seq<(nat, real)> {
    if es == [] then []
    else (if es[0].Reconnecting? then [(es[0].attempt, es[0].delay)] else []) + Schedules(es[1..])
  }

  /** How many `reconnectFailed` emissions there are. */
  function FailedCount(es: seq<Event>): nat {
    if es == [] then 0 else (if es[0].ReconnectFailed? then 1 else 0) + FailedCount(es[1..])
  }

  /** How many `reconnected` emissions there are. */
  function ReconnectedCount(es: seq<Event>): nat {
    if es == [] then 0 else (if es[0].Reconnected? then 1 else 0) + ReconnectedCount(es[1..])
  }

  lemma {:induction false} SchedulesAppend(a: seq<Event>, b: seq<Event>)
    ensures Schedules(a + b) == Schedules(a) + Schedules(b)
  {
    if a == [] {
      assert a + b == b;
    } else {
      assert (a + b)[1..] == a[1..] + b;
      SchedulesAppend(a[1..], b);
    }
  }

  lemma {:induction false} FailedCountAppend(a: seq<Event>, b: seq<Event>)
    ensures FailedCount(a + b) == FailedCount(a) + FailedCount(b)
  {
    if a == [] {
      assert a + b == b;
    } else {
      assert (a + b)[1..] == a[1..] + b;
      FailedCountAppend(a[1..], b);
    }
  }

  lemma {:induction false} ReconnectedCountAppend(a: seq<Event>, b: seq<Event>)
    ensures ReconnectedCount(a + b) == ReconnectedCount(a) + ReconnectedCount(b)
  {
    if a == [] {
      assert a + b == b;
    } else {
      assert (a + b)[1..] == a[1..] + b;
      ReconnectedCountAppend(a[1..], b);
    }
  }

  /** The three counts distribute over concatenation. */
  lemma CountsAppend(a: seq<Event>, b: seq<Event>)
    ensures Schedules(a + b) == Schedules(a) + Schedules(b)
    ensures FailedCount(a + b) == FailedCount(a) + FailedCount(b)
    ensures ReconnectedCount(a + b) == ReconnectedCount(a) + ReconnectedCount(b)
  {
    SchedulesAppend(a, b);
    FailedCountAppend(a, b);
    ReconnectedCountAppend(a, b);
  }

  /** `n` consecutive back-off timers that fire and whose `connect()` fails. */
  function FailRun(cfg: Config, s: State, n: nat): Step
    decreases n
  {
    if n == 0 then Step(s, [])
    else
      var f := FireStep(cfg, s, true, false, false, 0, true);
      var rest := FailRun(cfg, f.state, n - 1);
      Step(rest.state, f.events + rest.events)
  }

  /** The emissions of the failed attempts from attempt `a` on, up to the cap. */
  function FailTail(cfg: Config, a: nat): seq<Event>
    decreases if a < cfg.maxAttempts then cfg.maxAttempts - a else 0
  {
    if a >= cfg.maxAttempts then [ConnectError, ReconnectError(a), ReconnectFailed(a, MaxAttemptsMessage)]
    else [ConnectError, ReconnectError(a), Reconnecting(a + 1, Delay(cfg, a + 1), cfg.maxAttempts)] + FailTail(cfg, a + 1)
  }

  /** From a pending attempt number `a`, failures run the counter up to the
      cap, then `reconnectFailed` clears the flag and schedules nothing. */
  lemma {:induction false} FailRunTrace(cfg: Config, s: State)
    requires cfg.enabled && s.shouldAttempt && s.handleLive && s.isReconnecting && Inv(s)
    requires 1 <= s.attempts <= cfg.maxAttempts
    ensures FailRun(cfg, s, cfg.maxAttempts - s.attempts + 1) ==
      Step(State(cfg.maxAttempts, true, false, s.timers - 1, false), FailTail(cfg, s.attempts))
    decreases cfg.maxAttempts - s.attempts
  {
    var f := FireStep(cfg, s, true, false, false, 0, true);
    if s.attempts == cfg.maxAttempts {
      assert f == Step(State(cfg.maxAttempts, true, false, s.timers - 1, false), FailTail(cfg, s.attempts));
    } else {
      assert f.state == s.(attempts := s.attempts + 1);
      assert f.events == [ConnectError, ReconnectError(s.attempts), Reconnecting(s.attempts + 1, Delay(cfg, s.attempts + 1), cfg.maxAttempts)];
      FailRunTrace(cfg, f.state);
    }
  }

  lemma {:induction false} FailTailShape(cfg: Config, a: nat)
    requires a <= cfg.maxAttempts
    ensures |Schedules(FailTail(cfg, a))| == cfg.maxAttempts - a
    ensures forall i :: 0 <= i < cfg.maxAttempts - a ==>
      Schedules(FailTail(cfg, a))[i] == (a + 1 + i, Delay(cfg, a + 1 + i))
    ensures FailedCount(FailTail(cfg, a)) == 1
    ensures ReconnectedCount(FailTail(cfg, a)) == 0
    ensures |FailTail(cfg, a)| > 0
    ensures FailTail(cfg, a)[|FailTail(cfg, a)| - 1] == ReconnectFailed(cfg.maxAttempts, MaxAttemptsMessage)
    decreases cfg.maxAttempts - a
  {
    var head := [ConnectError, ReconnectError(a), ReconnectFailed(a, MaxAttemptsMessage)];
    if a == cfg.maxAttempts {
      assert Schedules(head[2..]) == [];
      assert Schedules(head[1..]) == [];
      assert FailedCount(head[2..]) == 1;
      assert ReconnectedCount(head[2..]) == 0;
    } else {
      var first := [ConnectError, ReconnectError(a), Reconnecting(a + 1, Delay(cfg, a + 1), cfg.maxAttempts)];
      FailTailShape(cfg, a + 1);
      CountsAppend(first, FailTail(cfg, a + 1));
      assert Schedules(first[2..]) == [(a + 1, Delay(cfg, a + 1))];
      assert Schedules(first[1..]) == [(a + 1, Delay(cfg, a + 1))];
      assert FailedCount(first[2..]) == 0;
      assert ReconnectedCount(first[2..]) == 0;
    }
  }

  /** `manualReconnect()` followed by consecutive connect failures: exactly
      `maxAttempts` `reconnecting` emissions, numbered 1..maxAttempts with the
      back-off delay of each, then exactly one `reconnectFailed`, after which
      the flag is down and no timer of this run is left. */
  lemma ManualReconnectExhausts(cfg: Config, s: State)
    requires Inv(s) && cfg.enabled && cfg.maxAttempts >= 1
    ensures var m := ManualStep(cfg, s);
      var run := FailRun(cfg, m.state, cfg.maxAttempts);
      var trace := m.events + run.events;
      && |Schedules(trace)| == cfg.maxAttempts
      && (forall i :: 0 <= i < cfg.maxAttempts ==> Schedules(trace)[i] == (i + 1, Delay(cfg, i + 1)))
      && FailedCount(trace) == 1 && ReconnectedCount(trace) == 0
      && trace[|trace| - 1] == ReconnectFailed(cfg.maxAttempts, MaxAttemptsMessage)
      && !run.state.shouldAttempt && !run.state.handleLive && run.state.timers == s.timers
      && ReconnectStep(cfg, run.state) == Step(run.state, [])
  {
    var m := ManualStep(cfg, s);
    assert m.state == s.(shouldAttempt := true, attempts := 1, isReconnecting := true,
                         timers := s.timers + 1, handleLive := true);
    FailRunTrace(cfg, m.state);
    FailTailShape(cfg, 1);
    CountsAppend(m.events, FailTail(cfg, 1));
    assert Schedules(m.events) == [(1, Delay(cfg, 1))];
    assert FailedCount(m.events) == 0;
    assert ReconnectedCount(m.events) == 0;
  }

  lemma {:induction false} PowAtLeastOne(f: real, n: nat)
    requires f >= 1.0
    ensures Pow(f, n) >= 1.0
    ensures Pow(f, n) <= Pow(f, n + 1)
  {
    if n > 0 {
      PowAtLeastOne(f, n - 1);
    }
    assert Pow(f, n + 1) == f * Pow(f, n);
  }

  lemma ScaleMonotone(c: real, p: real, q: real)
    requires c >= 0.0 && p <= q
    ensures c * p <= c * q
  {
  }

  /** One attempt later, the back-off is at least as long. */
  lemma DelayStep(cfg: Config, a: nat)
    requires 1 <= a
    requires cfg.factor >= 1.0 && cfg.initialDelay >= 0.0
    ensures Delay(cfg, a) <= Delay(cfg, a + 1)
  {
    var n: nat := a - 1;
    PowAtLeastOne(cfg.factor, n);
    ScaleMonotone(cfg.initialDelay, Pow(cfg.factor, n), Pow(cfg.factor, n + 1));
  }

  /** With a growth factor of at least 1 the back-off never shrinks. */
  lemma {:induction false} DelayNonDecreasing(cfg: Config, a: nat, b: nat)
    requires 1 <= a <= b
    requires cfg.factor >= 1.0 && cfg.initialDelay >= 0.0
    ensures Delay(cfg, a) <= Delay(cfg, b)
    decreases b - a
  {
    if a < b {
      DelayNonDecreasing(cfg, a + 1, b);
      DelayStep(cfg, a);
    }
  }

  /** The delays of the run after `manualReconnect()` are non-decreasing. */
  lemma ManualReconnectDelaysGrow(cfg: Config, s: State)
    requires Inv(s) && cfg.enabled && cfg.maxAttempts >= 1
    requires cfg.factor >= 1.0 && cfg.initialDelay >= 0.0
    ensures var m := ManualStep(cfg, s);
      var sched := Schedules(m.events + FailRun(cfg, m.state, cfg.maxAttempts).events);
      forall i, j :: 0 <= i <= j < |sched| ==> sched[i].1 <= sched[j].1
  {
    ManualReconnectExhausts(cfg, s);
    forall i: nat, j: nat | 1 <= i <= j {
      DelayNonDecreasing(cfg, i, j);
    }
  }

  /** The example policy (3 attempts, 100 ms doubling, capped at 1000 ms):
      after `manualReconnect()` three failures are scheduled at 100, 200 and
      400 ms, and the fourth disconnect reports `reconnectFailed{attempts: 3}`. */
  lemma ExamplePolicySchedule()
    ensures var cfg := Config(true, 3, 100.0, 1000.0, 2.0);
      var m := ManualStep(cfg, Initial);
      var trace := m.events + FailRun(cfg, m.state, 3).events;
      && Schedules(trace) == [(1, 100.0), (2, 200.0), (3, 400.0)]
      && trace[|trace| - 1] == ReconnectFailed(3, MaxAttemptsMessage)
  {
    var cfg := Config(true, 3, 100.0, 1000.0, 2.0);
    ManualReconnectExhausts(cfg, Initial);
    assert Delay(cfg, 1) == 100.0;
    assert Delay(cfg, 2) == 200.0;
    assert Delay(cfg, 3) == 400.0;
  }

  /** The counter starts at 1 (index.js:59) and `reconnect` increments before
      computing the delay: a client whose socket never opened gets its first
      back-off at `initialDelay * factor` and only `maxAttempts - 1`
      scheduled attempts. */
  lemma FreshClientSkipsFirstAttempt(cfg: Config)
    requires cfg.enabled && cfg.maxAttempts >= 2
    ensures var r := ReconnectStep(cfg, ConnectStep(Initial, true).state);
      var trace := r.events + FailRun(cfg, r.state, cfg.maxAttempts - 1).events;
      && r.events == [Reconnecting(2, Delay(cfg, 2), cfg.maxAttempts)]
      && |Schedules(trace)| == cfg.maxAttempts - 1
      && FailedCount(trace) == 1
  {
    var r := ReconnectStep(cfg, ConnectStep(Initial, true).state);
    FailRunTrace(cfg, r.state);
    FailTailShape(cfg, 2);
    CountsAppend(r.events, FailTail(cfg, 2));
    assert Schedules(r.events) == [(2, Delay(cfg, 2))];
    assert FailedCount(r.events) == 0;
  }

  /** Once the socket opened (index.js:403) the next attempt is number 1,
      unless an `open` listener threw before the reset: then the count goes
      on from where it was. */
  lemma OpenedClientStartsAtOne(cfg: Config, s: State)
    requires cfg.enabled && cfg.maxAttempts >= 1 && s.shouldAttempt
    ensures ReconnectStep(cfg, OpenStep(s, false)).events == [Reconnecting(1, Delay(cfg, 1), cfg.maxAttempts)]
    ensures ReconnectStep(cfg, OpenStep(s, true)) == ReconnectStep(cfg, s)
  {
  }

  /** `clearReconnection()` twice is `clearReconnection()` once. */
  lemma ClearIdempotent(s: State)
    requires Inv(s)
    ensures ClearStep(ClearStep(s)) == ClearStep(s)
  {
  }

  /** After `clearReconnection()`, `reconnect()` does nothing, and a failed
      attempt of a timer that survived schedules nothing, until `connect`
      or `manualReconnect` raises the flag again. */
  lemma ClearBlocksReconnect(cfg: Config, s: State, latest: bool, recording: bool, now: int, resumable: bool)
    requires Inv(s)
    ensures ReconnectStep(cfg, ClearStep(s)) == Step(ClearStep(s), [])
    ensures var c := ClearStep(s);
      var r := FireStep(cfg, c, latest, false, recording, now, resumable);
      !r.state.shouldAttempt && Schedules(r.events) == [] && r.state.timers <= c.timers
    ensures cfg.maxAttempts >= 1 ==> ManualStep(cfg, ClearStep(s)).state.shouldAttempt
    ensures ConnectStep(ClearStep(s), true).state.shouldAttempt
  {
    var c := ClearStep(s);
    var r := FireStep(cfg, c, latest, false, recording, now, resumable);
    if c.timers > 0 {
      assert r.events == [ConnectError, ReconnectError(c.attempts)];
      assert Schedules(r.events[2..]) == [];
      assert Schedules(r.events[1..]) == [];
    }
  }

  /** When at most the latest timer is pending, `clearReconnection()` cancels
      it: no timer is left to fire. */
  lemma ClearCancelsLatestTimer(cfg: Config, s: State, latest: bool, ok: bool, recording: bool, now: int, resumable: bool)
    requires Inv(s) && (s.timers == 0 || (s.timers == 1 && s.handleLive))
    ensures FireStep(cfg, ClearStep(s), latest, ok, recording, now, resumable) == Step(ClearStep(s), [])
  {
  }

  /** Two `reconnect()` calls before the first timer fires overwrite the
      handle: `clearReconnection()` then cancels only the second timer, and
      the first still fires, reconnects and raises the flag again. */
  lemma OverwrittenTimerSurvivesClear(now: int)
    ensures var cfg := Config(true, 10, 1000.0, 30000.0, 2.0);
      var s0 := State(0, false, true, 0, false);
      var s1 := ReconnectStep(cfg, ReconnectStep(cfg, s0).state).state;
      var c := ClearStep(s1);
      var r := FireStep(cfg, c, false, true, false, now, true);
      && s1.timers == 2 && c.timers == 1 && !c.shouldAttempt
      && r.events == [Reconnected(now)] && r.state.shouldAttempt
  {
  }

  /** Successful reconnects while recording, as written: every one of them is
      followed by a `reconnectError` and a new back-off attempt. */
  function RecordingSuccessRun(cfg: Config, s: State, n: nat, now: int): Step
    decreases n
  {
    if n == 0 then Step(s, [])
    else
      var f := FireStep(cfg, s, true, true, true, now, false);
      var rest := RecordingSuccessRun(cfg, f.state, n - 1, now);
      Step(rest.state, f.events + rest.events)
  }

  /** As written (`startStreaming` is not defined): a successful reconnect
      while recording emits `reconnected`, then `reconnectError{attempt: 0}`,
      then schedules attempt 1 again, so the timer count never drops. */
  lemma {:induction false} RecordingReconnectLoops(cfg: Config, s: State, n: nat, now: int)
    requires Inv(s) && s.timers > 0 && cfg.enabled && cfg.maxAttempts >= 1
    ensures FireStep(cfg, s, true, true, true, now, false).events ==
      [Reconnected(now), ReconnectError(0), Reconnecting(1, Delay(cfg, 1), cfg.maxAttempts)]
    ensures var r := RecordingSuccessRun(cfg, s, n, now);
      && r.state.timers == s.timers && (n > 0 ==> r.state.handleLive && r.state.shouldAttempt)
      && ReconnectedCount(r.events) == n && |Schedules(r.events)| == n && FailedCount(r.events) == 0
    decreases n
  {
    var f := FireStep(cfg, s, true, true, true, now, false);
    assert f.state.timers == s.timers && f.state.handleLive && f.state.shouldAttempt;
    if n > 0 {
      RecordingReconnectLoops(cfg, f.state, n - 1, now);
      CountsAppend(f.events, RecordingSuccessRun(cfg, f.state, n - 1, now).events);
      assert Schedules(f.events[2..]) == [(1, Delay(cfg, 1))];
      assert Schedules(f.events[1..]) == [(1, Delay(cfg, 1))];
      assert FailedCount(f.events[2..]) == 0;
      assert ReconnectedCount(f.events[2..]) == 0;
      assert ReconnectedCount(f.events[1..]) == 0;
    }
  }

  /** Corrected: a successful reconnect while recording resumes capture,
      resets the counter, schedules nothing and consumes the timer. */
  lemma RecordingReconnectSettles(cfg: Config, s: State, now: int)
    requires Inv(s) && s.timers > 0
    ensures var r := FireStep(cfg, s, true, true, true, now, true);
      && r.events == [Reconnected(now), ResumeCapture]
      && r.state.timers == s.timers - 1 && r.state.attempts == 0 && !r.state.isReconnecting
      && Schedules(r.events) == []
  {
    var r := FireStep(cfg, s, true, true, true, now, true);
    assert Schedules(r.events[1..]) == [];
  }
}
