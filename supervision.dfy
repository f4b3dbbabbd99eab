/** The connection supervisor of the gateway (TCC/gateway/src/main.py, `run` and the
    `@retry` policies on `connect_mqtt` and `connect_opc`), as functions of the
    abstract outcomes each connection attempt meets. */
module Supervision {
  import opened Wrappers
  import opened Sequences

  /** `stop_after_attempt(100)` on both connect phases. */
  const MaxAttempts: nat := 100
  /** `wait_fixed(5)` between two attempts of one phase. */
  const RetryWaitSeconds: nat := 5
  /** `asyncio.sleep(5)` after a teardown. */
  const RestartDelaySeconds: nat := 5

  /** How one connect phase ended: connected or not, after how many attempts,
      and how long it waited between them. */
  datatype Retried = Retried(connected: bool, attempts: nat, waitedSeconds: nat)

  /** The retry policy from attempt `k` on, where `up(j)` says whether attempt `j`
      succeeds: stop at the first success, or after attempt 100, with one fixed
      wait after every failed attempt but the last. */
  function RetryFrom(up: nat -> bool, k: nat): (r: Retried)
    requires 1 <= k <= MaxAttempts
    ensures k <= r.attempts <= MaxAttempts
    ensures r.waitedSeconds == RetryWaitSeconds * (r.attempts - 1)
    decreases MaxAttempts - k
  {
    if up(k) then Retried(true, k, RetryWaitSeconds * (k - 1))
    else if k == MaxAttempts then Retried(false, k, RetryWaitSeconds * (k - 1))
    else RetryFrom(up, k + 1)
  }

  /** A whole connect phase, from the first attempt. */
  function Retry(up: nat -> bool): Retried
  {
    RetryFrom(up, 1)
  }

  lemma {:induction false} RetryFromMeaning(up: nat -> bool, k: nat)
    requires 1 <= k <= MaxAttempts
    ensures RetryFrom(up, k).connected ==>
      up(RetryFrom(up, k).attempts) && forall j :: k <= j < RetryFrom(up, k).attempts ==> !up(j)
    ensures !RetryFrom(up, k).connected ==>
      RetryFrom(up, k).attempts == MaxAttempts && forall j :: k <= j <= MaxAttempts ==> !up(j)
    decreases MaxAttempts - k
  {
    if !up(k) && k < MaxAttempts {
      RetryFromMeaning(up, k + 1);
    }
  }

  /** A phase connects exactly when one of its 100 attempts succeeds; it then
      stops at the first success, after a wait of 5 seconds behind each earlier
      attempt, and otherwise gives up after 100 attempts and 99 waits of 5 seconds. */
  lemma RetryPolicy(up: nat -> bool)
    ensures Retry(up).connected <==> exists j :: 1 <= j <= MaxAttempts && up(j)
    ensures Retry(up).connected ==> 1 <= Retry(up).attempts <= MaxAttempts && up(Retry(up).attempts)
    ensures Retry(up).connected ==> forall j :: 1 <= j < Retry(up).attempts ==> !up(j)
    ensures Retry(up).connected ==> Retry(up).waitedSeconds == RetryWaitSeconds * (Retry(up).attempts - 1)
    ensures !Retry(up).connected ==>
      Retry(up).attempts == MaxAttempts && Retry(up).waitedSeconds == RetryWaitSeconds * (MaxAttempts - 1)
  {
    RetryFromMeaning(up, 1);
  }

  /** The retry loop tenacity runs around one connect phase, as a counter. */
  method ConnectWithRetry(up: nat -> bool) returns (r: Retried)
    ensures r == Retry(up)
    ensures 1 <= r.attempts <= MaxAttempts
  {
    var attempt := 1;
    var waited := 0;
    while true
      invariant 1 <= attempt <= MaxAttempts
      invariant waited == RetryWaitSeconds * (attempt - 1)
      invariant RetryFrom(up, attempt) == Retry(up)
      decreases MaxAttempts - attempt
    {
      if up(attempt) {
        return Retried(true, attempt, waited);
      }
      if attempt == MaxAttempts {
        return Retried(false, attempt, waited);
      }
      waited := waited + RetryWaitSeconds;
      attempt := attempt + 1;
    }
  }

  // ----- One pass of the `while self.running` body -----

  /** What the supervisor did, in order. */
  datatype Step =
    | MqttConnect(mqtt: Retried)
    | OpcConnect(opc: Retried)
    | Subscribed
    | Listened
    | MqttDisconnect
    | OpcDisconnect
    | Slept(seconds: nat)

  /** How the command stream of `mqtt_listener` ended: the `async for` ran out,
      or the stream raised (the broker connection was lost). */
  datatype ListenEnd = StreamEnded | StreamFailed

  /** The outcomes one pass meets: which MQTT and OPC UA attempts succeed, whether
      the change subscription is created, how listening ends, and whether
      `mqtt.disconnect()` returns normally. */
  datatype CycleEnv = CycleEnv(
    mqttUp: nat -> bool,
    opcUp: nat -> bool,
    subscribeOk: bool,
    listen: ListenEnd,
    mqttDisconnectOk: bool)

  /** An OPC UA attempt resolves the security descriptor before connecting, so it
      fails whenever the descriptor does. */
  function OpcAttempts(env: CycleEnv, secOk: bool): nat -> bool
  {
    (k: nat) => secOk && env.opcUp(k)
  }

  /** The steps of the `try` block and whether it raised. */
  datatype Attempted = Attempted(steps: seq<Step>, failed: bool)

  /** The `try` block of `run`: MQTT first, then OPC UA, then the change
      subscription, then the listener. */
  function TryBlock(env: CycleEnv, secOk: bool): Attempted
  {
    var m := Retry(env.mqttUp);
    if !m.connected then Attempted([MqttConnect(m)], true)
    else
      var o := Retry(OpcAttempts(env, secOk));
      if !o.connected then Attempted([MqttConnect(m), OpcConnect(o)], true)
      else if !env.subscribeOk then Attempted([MqttConnect(m), OpcConnect(o)], true)
      else Attempted([MqttConnect(m), OpcConnect(o), Subscribed, Listened], env.listen == StreamFailed)
  }

  /** Within a pass, MQTT is connected first, under its own retry policy; OPC
      UA is tried exactly when MQTT connected, and the change subscription is
      made and the listener runs exactly when both connected and the
      subscription is created. Each phase makes at most 100 attempts, and an OPC
      UA phase whose security descriptor raises uses all of them. The pass gets
      through without an exception only when every phase succeeds and the
      command stream ends on its own. */
  lemma TryBlockOrder(env: CycleEnv, secOk: bool)
    ensures var t := TryBlock(env, secOk);
      && t.steps[0] == MqttConnect(Retry(env.mqttUp))
      && (|t.steps| >= 2 <==> Retry(env.mqttUp).connected)
      && (|t.steps| >= 2 ==> t.steps[1] == OpcConnect(Retry(OpcAttempts(env, secOk))))
      && (|t.steps| >= 3 <==>
            Retry(env.mqttUp).connected && Retry(OpcAttempts(env, secOk)).connected && env.subscribeOk)
    ensures var t := TryBlock(env, secOk);
      && 1 <= |t.steps| <= 4 && t.steps[0].MqttConnect?
      && t.steps[0].mqtt.attempts <= MaxAttempts
      && (|t.steps| >= 2 ==> t.steps[0].mqtt.connected && t.steps[1].OpcConnect? && t.steps[1].opc.attempts <= MaxAttempts)
      && (|t.steps| >= 2 && !secOk ==> !t.steps[1].opc.connected && t.steps[1].opc.attempts == MaxAttempts)
      && (|t.steps| >= 3 ==> t.steps[1].opc.connected && env.subscribeOk && t.steps[2] == Subscribed && t.steps[3] == Listened)
      && (!t.failed <==> |t.steps| == 4 && env.listen == StreamEnded)
    ensures var t := TryBlock(env, secOk);
      forall i :: 1 <= i < |t.steps| ==> !t.steps[i].MqttConnect?
  {
    RetryPolicy(OpcAttempts(env, secOk));
  }

  /** How a pass ends: back at the loop head, or `run` left by an exception. */
  datatype Exit = Continue | Crashed(reason: Crash)

  /** `self.disconnect_opc()` does not exist (AttributeError), or
      `self.mqtt.disconnect()` itself raised. */
  datatype Crash = NoDisconnectOpc | MqttDisconnectRaised

  datatype Cycled = Cycled(steps: seq<Step>, exit: Exit)

  /** One pass as the source is written: the `except` block disconnects MQTT and
      then calls the missing `disconnect_opc`, which raises out of `run`. */
  function CycleAsWritten(env: CycleEnv, secOk: bool): (c: Cycled)
    ensures c.exit.Crashed? <==> TryBlock(env, secOk).failed
    ensures c.exit.Crashed? ==> forall i :: 0 <= i < |c.steps| ==> !c.steps[i].Slept? && !c.steps[i].OpcDisconnect?
  {
    var t := TryBlock(env, secOk);
    if !t.failed then Cycled(t.steps, Continue)
    else Cycled(t.steps + [MqttDisconnect],
                Crashed(if env.mqttDisconnectOk then NoDisconnectOpc else MqttDisconnectRaised))
  }

  /** The OPC UA client exists after a pass if the pass reached the OPC UA phase
      (the client is created before its first attempt) or it existed before. */
  function OpcAfter(env: CycleEnv, secOk: bool, opcBefore: bool): bool
  {
    opcBefore || |TryBlock(env, secOk).steps| >= 2
  }

  /** One pass with the teardown the `except` block evidently intends: disconnect
      MQTT (the client always exists by then), disconnect OPC UA if its client
      exists, both best effort, then sleep 5 seconds and go round again. */
  function Cycle(env: CycleEnv, secOk: bool, opcBefore: bool): Cycled
  {
    var t := TryBlock(env, secOk);
    if !t.failed then Cycled(t.steps, Continue)
    else
      var teardown := [MqttDisconnect] + (if OpcAfter(env, secOk, opcBefore) then [OpcDisconnect] else []);
      Cycled(t.steps + teardown + [Slept(RestartDelaySeconds)], Continue)
  }

  /** Every pass goes back to the loop head and starts with the MQTT phase; a
      pass that raised ends with the 5-second sleep, after disconnecting OPC UA
      exactly when its client exists. */
  lemma CycleMeaning(env: CycleEnv, secOk: bool, opcBefore: bool)
    ensures var c := Cycle(env, secOk, opcBefore);
      && c.exit == Continue
      && |c.steps| >= 1 && c.steps[0].MqttConnect?
      && (TryBlock(env, secOk).failed <==> c.steps[|c.steps| - 1] == Slept(RestartDelaySeconds))
      && (TryBlock(env, secOk).failed ==>
        (OpcDisconnect in c.steps <==> OpcAfter(env, secOk, opcBefore)))
  {
    var t := TryBlock(env, secOk);
    TryBlockOrder(env, secOk);
    assert forall i :: 0 <= i < |t.steps| ==> t.steps[i] != OpcDisconnect;
  }

  // ----- Several passes of `while self.running` -----

  /** Number of MQTT connect phases in a trace, that is, of passes started. */
  function Passes(steps: seq<Step>): nat
  {
    if steps == [] then 0
    else (if steps[0].MqttConnect? then 1 else 0) + Passes(steps[1..])
  }

  lemma {:induction false} PassesAppend(a: seq<Step>, b: seq<Step>)
    ensures Passes(a + b) == Passes(a) + Passes(b)
  {
    if a != [] {
      assert (a + b)[0] == a[0];
      assert (a + b)[1..] == a[1..] + b;
      PassesAppend(a[1..], b);
    } else {
      assert a + b == b;
    }
  }

  /** The trace of `run` as written over passes meeting `envs` in turn: it stops
      with the first pass that raises. */
  function RunAsWritten(envs: seq<CycleEnv>, secOk: bool): seq<Step>
  {
    if envs == [] then []
    else
      var c := CycleAsWritten(envs[0], secOk);
      if c.exit.Crashed? then c.steps else c.steps + RunAsWritten(envs[1..], secOk)
  }

  /** The trace of `run` with the intended teardown over passes meeting `envs`. */
  function Run(envs: seq<CycleEnv>, secOk: bool, opcBefore: bool): seq<Step>
  {
    if envs == [] then []
    else Cycle(envs[0], secOk, opcBefore).steps + Run(envs[1..], secOk, OpcAfter(envs[0], secOk, opcBefore))
  }

  /** `Run` from the i-th pass on is that pass followed by the ones after it. */
  lemma RunFrom(envs: seq<CycleEnv>, i: nat, secOk: bool, opcBefore: bool)
    requires i < |envs|
    ensures Run(envs[i..], secOk, opcBefore)
      == Cycle(envs[i], secOk, opcBefore).steps + Run(envs[i + 1..], secOk, OpcAfter(envs[i], secOk, opcBefore))
  {
    assert envs[i..][0] == envs[i];
    assert envs[i..][1..] == envs[i + 1..];
  }

  /** One more pass keeps the supervisor's trace on course: what remains of
      `Run` after the i-th pass is the rest of the environments, from the OPC UA
      client state that pass leaves. */
  lemma RunStep(start: seq<Step>, before: seq<Step>, after: seq<Step>, envs: seq<CycleEnv>, i: nat,
                secOk: bool, opcBefore: bool, opcNow: bool, opcNext: bool)
    requires i < |envs|
    requires start + Run(envs, secOk, opcBefore) == before + Run(envs[i..], secOk, opcNow)
    requires after == before + Cycle(envs[i], secOk, opcNow).steps
    requires opcNext == OpcAfter(envs[i], secOk, opcNow)
    ensures start + Run(envs, secOk, opcBefore) == after + Run(envs[i + 1..], secOk, opcNext)
  {
    var whole := Run(envs, secOk, opcBefore);
    var c := Cycle(envs[i], secOk, opcNow).steps;
    var r := Run(envs[i + 1..], secOk, opcNext);
    RunFrom(envs, i, secOk, opcNow);
    Regroup(start + whole, before, after, c, r);
  }

  /** The first of the passes meeting `envs` whose `try` block raises, if any. */
  function FirstFailure(envs: seq<CycleEnv>, secOk: bool): (r: Option<nat>)
    ensures r.Some? ==> r.value < |envs| && TryBlock(envs[r.value], secOk).failed
    ensures r.Some? ==> forall k :: 0 <= k < r.value ==> !TryBlock(envs[k], secOk).failed
    ensures r.None? ==> forall k :: 0 <= k < |envs| ==> !TryBlock(envs[k], secOk).failed
  {
    FirstMatch(envs, (e: CycleEnv) => TryBlock(e, secOk).failed)
  }

  /** Meeting pass `i` when no pass before it raised: if it raises it is the
      first failure, and otherwise no pass up to and including it raised. */
  lemma FirstFailureStep(envs: seq<CycleEnv>, secOk: bool, i: nat)
    requires i < |envs|
    requires FirstFailure(envs, secOk).None? || FirstFailure(envs, secOk).value >= i
    ensures TryBlock(envs[i], secOk).failed ==> FirstFailure(envs, secOk) == Some(i)
    ensures !TryBlock(envs[i], secOk).failed ==>
      FirstFailure(envs, secOk).None? || FirstFailure(envs, secOk).value >= i + 1
  {
  }

  /** As written, the first pass that raises ends `run`: the trace is that of
      the passes up to and including it, whatever the later passes would meet,
      and it holds one MQTT connect per pass made. */
  lemma {:induction false} AsWrittenStopsAtFailure(envs: seq<CycleEnv>, secOk: bool, j: nat)
    requires j < |envs| && TryBlock(envs[j], secOk).failed
    requires forall k :: 0 <= k < j ==> !TryBlock(envs[k], secOk).failed
    ensures RunAsWritten(envs, secOk) == RunAsWritten(envs[..j + 1], secOk)
    ensures Passes(RunAsWritten(envs, secOk)) == j + 1
    decreases j
  {
    var c := CycleAsWritten(envs[0], secOk);
    CycleAsWrittenPasses(envs[0], secOk);
    assert envs[..j + 1][0] == envs[0];
    if j > 0 {
      var rest := envs[1..];
      NoFailureInTail(envs, secOk, j);
      AsWrittenStopsAtFailure(rest, secOk, j - 1);
      TailOfPrefix(envs, j + 1);
      PassesAppend(c.steps, RunAsWritten(rest, secOk));
    }
  }

  /** As written, passes none of which raises all run: one MQTT connect phase
      per environment. */
  lemma {:induction false} AsWrittenWithoutFailure(envs: seq<CycleEnv>, secOk: bool)
    requires forall k :: 0 <= k < |envs| ==> !TryBlock(envs[k], secOk).failed
    ensures Passes(RunAsWritten(envs, secOk)) == |envs|
  {
    if envs != [] {
      var rest := envs[1..];
      NoFailureInTail(envs, secOk, |envs|);
      AsWrittenWithoutFailure(rest, secOk);
      CycleAsWrittenPasses(envs[0], secOk);
      PassesAppend(CycleAsWritten(envs[0], secOk).steps, RunAsWritten(rest, secOk));
    }
  }

  /** Passes that do not raise among the first `n` still do not raise once the
      first environment is dropped. */
  lemma NoFailureInTail(envs: seq<CycleEnv>, secOk: bool, n: nat)
    requires 0 < n <= |envs|
    requires forall k :: 0 <= k < n ==> !TryBlock(envs[k], secOk).failed
    ensures forall k :: 0 <= k < n - 1 ==> !TryBlock(envs[1..][k], secOk).failed
  {
    forall k | 0 <= k < n - 1 ensures !TryBlock(envs[1..][k], secOk).failed {
      assert envs[1..][k] == envs[k + 1];
    }
  }

  /** Every pass as written holds exactly one MQTT connect phase. */
  lemma CycleAsWrittenPasses(env: CycleEnv, secOk: bool)
    ensures Passes(CycleAsWritten(env, secOk).steps) == 1
  {
    var t := TryBlock(env, secOk);
    TryBlockOrder(env, secOk);
    if !t.failed {
      PassesOneLeading(t.steps);
    } else {
      TeardownPasses(t.steps, [MqttDisconnect]);
    }
  }

  /** `RunAsWritten` from the i-th pass on: that pass, then the later ones only
      when it went back to the loop head. */
  lemma RunAsWrittenFrom(envs: seq<CycleEnv>, i: nat, secOk: bool)
    requires i < |envs|
    ensures var c := CycleAsWritten(envs[i], secOk);
      RunAsWritten(envs[i..], secOk)
        == if c.exit.Crashed? then c.steps else c.steps + RunAsWritten(envs[i + 1..], secOk)
  {
    assert envs[i..][0] == envs[i];
    assert envs[i..][1..] == envs[i + 1..];
  }

  /** One more pass as written keeps the trace on course: after a pass that
      went back to the loop head what remains is the later passes. */
  lemma RunAsWrittenStep(start: seq<Step>, before: seq<Step>, after: seq<Step>, envs: seq<CycleEnv>, i: nat, secOk: bool)
    requires i < |envs| && CycleAsWritten(envs[i], secOk).exit == Continue
    requires start + RunAsWritten(envs, secOk) == before + RunAsWritten(envs[i..], secOk)
    requires after == before + CycleAsWritten(envs[i], secOk).steps
    ensures start + RunAsWritten(envs, secOk) == after + RunAsWritten(envs[i + 1..], secOk)
  {
    var c := CycleAsWritten(envs[i], secOk).steps;
    var r := RunAsWritten(envs[i + 1..], secOk);
    RunAsWrittenFrom(envs, i, secOk);
    Regroup(start + RunAsWritten(envs, secOk), before, after, c, r);
  }

  /** A pass as written that raised ends the trace. */
  lemma RunAsWrittenLast(start: seq<Step>, before: seq<Step>, after: seq<Step>, envs: seq<CycleEnv>, i: nat, secOk: bool)
    requires i < |envs| && CycleAsWritten(envs[i], secOk).exit.Crashed?
    requires start + RunAsWritten(envs, secOk) == before + RunAsWritten(envs[i..], secOk)
    requires after == before + CycleAsWritten(envs[i], secOk).steps
    ensures start + RunAsWritten(envs, secOk) == after
  {
    RunAsWrittenFrom(envs, i, secOk);
  }

  lemma {:induction false} PassesNone(steps: seq<Step>)
    requires forall i :: 0 <= i < |steps| ==> !steps[i].MqttConnect?
    ensures Passes(steps) == 0
  {
    if steps != [] {
      PassesNone(steps[1..]);
    }
  }

  /** A trace that starts with an MQTT connect and holds no other counts one pass. */
  lemma PassesOneLeading(steps: seq<Step>)
    requires |steps| >= 1 && steps[0].MqttConnect?
    requires forall i :: 1 <= i < |steps| ==> !steps[i].MqttConnect?
    ensures Passes(steps) == 1
  {
    var rest := steps[1..];
    assert forall i :: 0 <= i < |rest| ==> rest[i] == steps[i + 1];
    PassesNone(rest);
  }

  lemma CyclePasses(env: CycleEnv, secOk: bool, opcBefore: bool)
    ensures Passes(Cycle(env, secOk, opcBefore).steps) == 1
  {
    var t := TryBlock(env, secOk);
    TryBlockOrder(env, secOk);
    if !t.failed {
      PassesOneLeading(t.steps);
    } else {
      var teardown := [MqttDisconnect] + (if OpcAfter(env, secOk, opcBefore) then [OpcDisconnect] else []);
      var tail := teardown + [Slept(RestartDelaySeconds)];
      assert Cycle(env, secOk, opcBefore).steps == t.steps + teardown + [Slept(RestartDelaySeconds)];
      assert t.steps + teardown + [Slept(RestartDelaySeconds)] == t.steps + tail;
      TeardownPasses(t.steps, tail);
    }
  }

  /** Teardown steps added after a pass's own steps start no pass. */
  lemma TeardownPasses(steps: seq<Step>, tail: seq<Step>)
    requires |steps| >= 1 && steps[0].MqttConnect?
    requires forall i :: 1 <= i < |steps| ==> !steps[i].MqttConnect?
    requires forall i :: 0 <= i < |tail| ==> !tail[i].MqttConnect?
    ensures Passes(steps + tail) == 1
  {
    var s := steps + tail;
    forall i | 1 <= i < |s| ensures !s[i].MqttConnect? {
      if i < |steps| {
        assert s[i] == steps[i];
      } else {
        assert s[i] == tail[i - |steps|];
      }
    }
    PassesOneLeading(s);
  }

  /** With the intended teardown every pass the environment offers is run, each
      from the MQTT connect on, failed or not. */
  lemma {:induction false} EveryPassRuns(envs: seq<CycleEnv>, secOk: bool, opcBefore: bool)
    ensures Passes(Run(envs, secOk, opcBefore)) == |envs|
  {
    if envs != [] {
      CyclePasses(envs[0], secOk, opcBefore);
      PassesAppend(Cycle(envs[0], secOk, opcBefore).steps, Run(envs[1..], secOk, OpcAfter(envs[0], secOk, opcBefore)));
      EveryPassRuns(envs[1..], secOk, OpcAfter(envs[0], secOk, opcBefore));
    }
  }

  /** A concrete run that shows the difference: the broker is down for all 100
      attempts of the first pass and up for the second. As written the gateway
      stops after the first pass, whether the teardown's MQTT disconnect of the
      never-connected client raises or returns; with the intended teardown it
      connects in the second. */
  lemma BrokerOutageEndsRun(disconnectOk: bool)
    ensures var down := CycleEnv(k => false, k => true, true, StreamFailed, disconnectOk);
      var up := CycleEnv(k => true, k => true, true, StreamFailed, true);
      && Passes(RunAsWritten([down, up], true)) == 1
      && Passes(Run([down, up], true, false)) == 2
  {
    var down := CycleEnv(k => false, k => true, true, StreamFailed, disconnectOk);
    var up := CycleEnv(k => true, k => true, true, StreamFailed, true);
    RetryPolicy(down.mqttUp);
    AsWrittenStopsAtFailure([down, up], true, 0);
    EveryPassRuns([down, up], true, false);
  }
}
