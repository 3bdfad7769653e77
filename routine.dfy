/**
 * src/arrow/routine.c as a class: the module globals _init_done, _init_mqtt,
 * _gateway and _device are the fields of a Session, and every collaborator
 * call is appended to its trace. Each method follows the C function step by
 * step and is proved to end where the function of the same name in
 * RoutineSpec says, so every property RoutineLemmas proves about those
 * functions holds of the methods.
 */
module Routine {
  import opened Wrappers
  import opened RoutineSpec

  class Session {
    /** _init_done. */
    var initDone: bool
    /** _init_mqtt. */
    var mask: bv8
    /** The hid of _gateway. */
    var gatewayHid: Option<string>
    /** The hid of _device. */
    var deviceHid: Option<string>
    /** The collaborator calls made so far, in order. */
    var trace: seq<Call>
    /** The replies of the collaborators and the build constants. */
    const env: Env

    /** The module state at load time: nothing initialized, no hids, no calls yet. */
    constructor (env: Env)
      ensures this.env == env
      ensures Snapshot() == State(false, 0, None, None) && trace == []
    {
      this.env := env;
      initDone := false;
      mask := 0;
      gatewayHid := None;
      deviceHid := None;
      trace := [];
    }

    /** The module state as a value. */
    function Snapshot(): State
      reads this
    {
      State(initDone, mask, gatewayHid, deviceHid)
    }

    /** The session is where the run `r`, started after the calls `before`, leaves it. */
    ghost predicate Follows<T>(before: seq<Call>, r: Run<T>)
      reads this
    {
      Snapshot() == r.state && trace == before + r.calls
    }

    /**
     * One collaborator call: it is recorded, it receives the reply of its
     * position in the trace, and a restore, registration or free changes
     * the hid it concerns.
     */
    method Do(c: Call) returns (reply: Reply)
      modifies this
      ensures trace == old(trace) + [c]
      ensures reply == env.oracle(|old(trace)|)
      ensures Snapshot() == After(old(Snapshot()), c, reply)
    {
      reply := env.oracle(|trace|);
      trace := trace + [c];
      if c == RestoreGateway || c == RegisterGateway {
        gatewayHid := reply.hid;
      } else if c == RestoreDevice || c == RegisterDevice {
        deviceHid := reply.hid;
      } else if c == FreeGateway {
        gatewayHid := None;
      } else if c == FreeDevice {
        deviceHid := None;
      }
    }

    /** A call whose result routine.c ignores. */
    method Perform(c: Call)
      modifies this
      ensures trace == old(trace) + [c]
      ensures Snapshot() == After(old(Snapshot()), c, env.oracle(|old(trace)|))
    {
      var _ := Do(c);
    }

    /** A call that leaves every hid alone and whose result routine.c ignores. */
    method Note(c: Call)
      requires !HidCall(c)
      modifies this
      ensures trace == old(trace) + [c] && Snapshot() == old(Snapshot())
    {
      Perform(c);
    }

    /** arrow_connect_gateway. */
    method ConnectGateway() returns (ret: int)
      modifies this
      ensures var r := RoutineSpec.ConnectGateway(env, old(Snapshot()), |old(trace)|);
        Follows(old(trace), r) && ret == r.value
    {
      Note(PrepareGateway);
      ghost var s := Snapshot();
      if gatewayHid.None? {
        ret := FindGateway();
        AppendAssoc(old(trace), [PrepareGateway], RoutineSpec.FindGateway(env, s, |old(trace)| + 1).calls);
      } else {
        ret := CheckinAndUpdate();
        AppendAssoc(old(trace), [PrepareGateway], RoutineSpec.CheckinAndUpdate(env, s, |old(trace)| + 1).calls);
      }
    }

    /** The restore, else registration, of a gateway without a hid. */
    method FindGateway() returns (ret: int)
      modifies this
      ensures var r := RoutineSpec.FindGateway(env, old(Snapshot()), |old(trace)|);
        Follows(old(trace), r) && ret == r.value
    {
      var restored := Do(RestoreGateway);
      ghost var s := Snapshot();
      if restored.code < 0 {
        ret := NewGateway();
        AppendAssoc(old(trace), [RestoreGateway], RoutineSpec.NewGateway(env, s, |old(trace)| + 1).calls);
      } else {
        ret := CheckinAndUpdate();
        AppendAssoc(old(trace), [RestoreGateway], RoutineSpec.CheckinAndUpdate(env, s, |old(trace)| + 1).calls);
      }
    }

    /** The registration of a gateway that could not be restored. */
    method NewGateway() returns (ret: int)
      modifies this
      ensures var r := RoutineSpec.NewGateway(env, old(Snapshot()), |old(trace)|);
        Follows(old(trace), r) && ret == r.value
    {
      var registered := Do(RegisterGateway);
      if registered.code < 0 {
        return registered.code;
      }
      Note(SaveGateway);
      return 0;
    }

    /** The checkin and update of a gateway, if it has a hid. */
    method CheckinAndUpdate() returns (ret: int)
      modifies this
      ensures var r := RoutineSpec.CheckinAndUpdate(env, old(Snapshot()), |old(trace)|);
        Follows(old(trace), r) && ret == r.value
    {
      if gatewayHid.None? {
        return 0;
      }
      var checkin := Do(GatewayCheckin);
      ret := checkin.code;
      if ret == 0 {
        var update := Do(GatewayUpdate);
        ret := update.code;
      }
    }

    /** arrow_connect_device, default build. */
    method ConnectDevice() returns (ret: int)
      modifies this
      ensures var r := RoutineSpec.ConnectDevice(env, old(Snapshot()), |old(trace)|);
        Follows(old(trace), r) && ret == r.value
    {
      Note(PrepareDevice);
      if deviceHid.Some? {
        return 0;
      }
      ret := FindDevice();
      AppendAssoc(old(trace), [PrepareDevice], RoutineSpec.FindDevice(env, old(Snapshot()), |old(trace)| + 1).calls);
    }

    /** The restore, else registration, of a device without a hid. */
    method FindDevice() returns (ret: int)
      modifies this
      ensures var r := RoutineSpec.FindDevice(env, old(Snapshot()), |old(trace)|);
        Follows(old(trace), r) && ret == r.value
    {
      var restored := Do(RestoreDevice);
      ghost var s := Snapshot();
      if restored.code < 0 {
        ret := NewDevice();
        AppendAssoc(old(trace), [RestoreDevice], RoutineSpec.NewDevice(env, s, |old(trace)| + 1).calls);
      } else {
        ret := KnownDevice();
        AppendAssoc(old(trace), [RestoreDevice], RoutineSpec.KnownDevice(env, s, |old(trace)| + 1).calls);
      }
    }

    /** The registration of a device that could not be restored. */
    method NewDevice() returns (ret: int)
      modifies this
      ensures var r := RoutineSpec.NewDevice(env, old(Snapshot()), |old(trace)|);
        Follows(old(trace), r) && ret == r.value
    {
      var registered := Do(RegisterDevice);
      ret := registered.code;
      if ret < 0 {
        Perform(FreeDevice);
        return;
      }
      Note(SaveDevice);
      Note(StateMqttRun);
    }

    /** The software update of a restored device. */
    method KnownDevice() returns (ret: int)
      modifies this
      ensures var r := RoutineSpec.KnownDevice(env, old(Snapshot()), |old(trace)|);
        Follows(old(trace), r) && ret == r.value
    {
      var updated := Do(DeviceUpdate);
      ret := updated.code;
      if ret < 0 {
        Perform(FreeDevice);
        return;
      }
      Note(StateMqttRun);
    }

    /** One attempt of a step of a retry loop. */
    method Attempt(step: Step) returns (ret: int)
      modifies this
      ensures var r := RoutineSpec.Attempt(env, old(Snapshot()), |old(trace)|, step);
        Follows(old(trace), r) && ret == r.value
    {
      match step
      case ConnectGatewayStep =>
        ret := ConnectGateway();
      case ConnectDeviceStep =>
        ret := ConnectDevice();
      case _ =>
        var reply := Do(StepCall(step));
        ret := reply.code;
    }

    /** One attempt of the step of the retry loop `l`. */
    method Try(ghost l: RetryLoop, step: Step) returns (ret: int)
      requires LoopFor(l, env, step)
      modifies this
      ensures var r := l.attempt(old(Snapshot()), |old(trace)|);
        Follows(old(trace), r) && ret == r.value
    {
      ret := Attempt(step);
    }

    /**
     * A RETRY_UP loop started with the counter at zero: attempt the step
     * until it succeeds; after a failure, count it, give up once the counter
     * reaches maxAttempts, and otherwise sleep (the subscribe loop also
     * clears the command bit) and try again.
     */
    method Retry(step: Step) returns (ret: int, gaveUp: bool, attempts: nat)
      requires env.maxAttempts >= 1
      modifies this
      ensures var r := RetryFresh(env, old(Snapshot()), |old(trace)|, step);
        Snapshot() == r.state && trace == old(trace) + r.calls
        && ret == r.ret && gaveUp == r.gaveUp && attempts == r.attempts
    {
      ghost var l := LoopOf(env, step);
      assert LoopFor(l, env, step);
      ret, gaveUp, attempts := RetryWith(l, step);
    }

    /** The loop of Retry, for the loop `l` of the step. */
    method RetryWith(ghost l: RetryLoop, step: Step) returns (ret: int, gaveUp: bool, attempts: nat)
      requires LoopFor(l, env, step) && env.maxAttempts >= 1
      modifies this
      ensures var r := RoutineSpec.Retry(l, old(Snapshot()), |old(trace)|, 0);
        Snapshot() == r.state && trace == old(trace) + r.calls
        && ret == r.ret && gaveUp == r.gaveUp && attempts == r.attempts
    {
      ghost var goal := RoutineSpec.Retry(l, Snapshot(), |trace|, 0);
      ghost var done: seq<Call> := [];
      var retry := 0;
      while true
        invariant retry < l.maxAttempts && trace == old(trace) + done
        invariant goal == Resumed(done, RoutineSpec.Retry(l, Snapshot(), |trace|, retry))
        decreases l.maxAttempts - retry
      {
        ghost var s := Snapshot();
        ghost var k := |trace|;
        ret := Try(l, step);
        ghost var a := l.attempt(s, k);
        RetryNext(l, s, k, retry, a, done, goal);
        AppendAssoc(old(trace), done, a.calls);
        if ret >= 0 {
          return ret, false, retry + 1;
        }
        retry := retry + 1;
        if retry >= env.maxAttempts {
          return ret, true, retry;
        }
        SleepAfterFailure(l, step);
        AppendAssoc(old(trace), done + a.calls, [Sleep(l.delay)]);
        done := done + a.calls + [Sleep(l.delay)];
      }
    }

    /** The sleep after a failed attempt of `step`; the subscribe loop then clears the command bit. */
    method SleepAfterFailure(ghost l: RetryLoop, step: Step)
      requires LoopFor(l, env, step)
      modifies this
      ensures trace == old(trace) + [Sleep(l.delay)]
      ensures Snapshot() == AfterFailure(l, old(Snapshot()))
    {
      Perform(Sleep(Delay(step)));
      if step == SubscribeStep {
        mask := mask & !CommandBit;
      }
    }

    /** arrow_initialize_routine. */
    method Initialize() returns (ret: Outcome)
      requires env.maxAttempts >= 1
      modifies this
      ensures var r := InitializeRoutine(env, old(Snapshot()), |old(trace)|);
        Snapshot() == r.state && trace == old(trace) + r.calls && ret == r.result
    {
      Note(WdtFeed);
      Note(SetProtocolApiViaHttp);
      Note(SessionCloseSet(false));
      ret := GatewayStage(old(trace), [WdtFeed, SetProtocolApiViaHttp, SessionCloseSet(false)]);
    }

    /** The gateway loop of arrow_initialize_routine and what follows it, entered after the calls `before`. */
    method GatewayStage(ghost t0: seq<Call>, ghost before: seq<Call>) returns (ret: Outcome)
      requires env.maxAttempts >= 1 && trace == t0 + before
      modifies this
      ensures var r := RoutineSpec.GatewayStage(env, |t0|, before, old(Snapshot()));
        Snapshot() == r.state && trace == t0 + r.calls && ret == r.result
    {
      var code, gaveUp, attempts := Retry(ConnectGatewayStep);
      ghost var g := RetryFresh(env, old(Snapshot()), |old(trace)|, ConnectGatewayStep);
      AppendAssoc(t0, before, g.calls);
      ret := AfterGatewayPhase(t0, before, g, code, gaveUp, attempts);
    }

    /** What arrow_initialize_routine does once its gateway loop has ended as `g`. */
    method AfterGatewayPhase(ghost t0: seq<Call>, ghost before: seq<Call>, ghost g: RetryOutcome, code: int, gaveUp: bool, attempts: nat)
      returns (ret: Outcome)
      requires env.maxAttempts >= 1 && trace == t0 + (before + g.calls) && Snapshot() == g.state
      requires code == g.ret && gaveUp == g.gaveUp && attempts == g.attempts
      modifies this
      ensures var r := RoutineSpec.AfterGatewayPhase(env, |t0|, before, g);
        Snapshot() == r.state && trace == t0 + r.calls && ret == r.result
    {
      if gaveUp {
        Perform(FreeGateway);
        AppendAssoc(t0, before + g.calls, [FreeGateway]);
        return Failed(code);
      }
      Note(WdtFeed);
      AppendAssoc(t0, before + g.calls, [WdtFeed]);
      ret := ConfigStage(t0, before + g.calls + [WdtFeed], attempts);
    }

    /** The config loop of arrow_initialize_routine and what follows it. */
    method ConfigStage(ghost t0: seq<Call>, ghost before: seq<Call>, ghost gatewayAttempts: nat) returns (ret: Outcome)
      requires env.maxAttempts >= 1 && trace == t0 + before
      modifies this
      ensures var r := RoutineSpec.ConfigStage(env, |t0|, before, gatewayAttempts, old(Snapshot()));
        Snapshot() == r.state && trace == t0 + r.calls && ret == r.result
    {
      var code, gaveUp, attempts := Retry(GatewayConfigStep);
      ghost var c := RetryFresh(env, old(Snapshot()), |old(trace)|, GatewayConfigStep);
      AppendAssoc(t0, before, c.calls);
      ret := AfterConfigPhase(t0, before, gatewayAttempts, c, code, gaveUp, attempts);
    }

    /** What arrow_initialize_routine does once its config loop has ended as `c`. */
    method AfterConfigPhase(ghost t0: seq<Call>, ghost before: seq<Call>, ghost gatewayAttempts: nat, ghost c: RetryOutcome,
                            code: int, gaveUp: bool, attempts: nat) returns (ret: Outcome)
      requires env.maxAttempts >= 1 && trace == t0 + (before + c.calls) && Snapshot() == c.state
      requires code == c.ret && gaveUp == c.gaveUp && attempts == c.attempts
      modifies this
      ensures var r := RoutineSpec.AfterConfigPhase(env, |t0|, before, gatewayAttempts, c);
        Snapshot() == r.state && trace == t0 + r.calls && ret == r.result
    {
      if gaveUp {
        FreeConfigAndGateway();
        AppendAssoc(t0, before + c.calls, [FreeGatewayConfig, FreeGateway]);
        return Failed(code);
      }
      Note(WdtFeed);
      Note(SessionCloseSet(true));
      AppendAssoc(t0, before + c.calls, [WdtFeed, SessionCloseSet(true)]);
      ret := DeviceStage(t0, before + c.calls + [WdtFeed, SessionCloseSet(true)], [gatewayAttempts, attempts]);
    }

    /** The cleanup of the gateway after a failed initialization: its config, then the gateway. */
    method FreeConfigAndGateway()
      modifies this
      ensures trace == old(trace) + [FreeGatewayConfig, FreeGateway]
      ensures Snapshot() == Freed(old(Snapshot()), FreeGateway)
    {
      Note(FreeGatewayConfig);
      Perform(FreeGateway);
    }

    /** The device loop of arrow_initialize_routine and the end of the routine. */
    method DeviceStage(ghost t0: seq<Call>, ghost before: seq<Call>, ghost attempts: seq<nat>) returns (ret: Outcome)
      requires env.maxAttempts >= 1 && trace == t0 + before
      modifies this
      ensures var r := RoutineSpec.DeviceStage(env, |t0|, before, attempts, old(Snapshot()));
        Snapshot() == r.state && trace == t0 + r.calls && ret == r.result
    {
      var code, gaveUp, n := Retry(ConnectDeviceStep);
      ghost var d := RetryFresh(env, old(Snapshot()), |old(trace)|, ConnectDeviceStep);
      AppendAssoc(t0, before, d.calls);
      ret := AfterDevicePhase(t0, before, attempts, d, code, gaveUp);
    }

    /** The end of arrow_initialize_routine once its device loop has ended as `d`. */
    method AfterDevicePhase(ghost t0: seq<Call>, ghost before: seq<Call>, ghost attempts: seq<nat>, ghost d: RetryOutcome,
                            code: int, gaveUp: bool) returns (ret: Outcome)
      requires trace == t0 + (before + d.calls) && Snapshot() == d.state && code == d.ret && gaveUp == d.gaveUp
      modifies this
      ensures var r := RoutineSpec.AfterDevicePhase(before, attempts, d);
        Snapshot() == r.state && trace == t0 + r.calls && ret == r.result
    {
      if gaveUp {
        Perform(FreeDevice);
        FreeConfigAndGateway();
        AppendAssoc(t0, before + d.calls, [FreeDevice, FreeGatewayConfig, FreeGateway]);
        return Failed(code);
      }
      initDone := true;
      return Success;
    }

    /** arrow_gateway_initialize_routine. */
    method GatewayInitialize() returns (ret: Outcome)
      requires env.maxAttempts >= 1
      modifies this
      ensures var r := GatewayInitializeRoutine(env, old(Snapshot()), |old(trace)|);
        Follows(old(trace), r) && ret == r.value
    {
      Note(WdtFeed);
      Note(SessionCloseSet(false));
      ret := GatewayOnlyStage(old(trace), [WdtFeed, SessionCloseSet(false)]);
    }

    /** The gateway loop of arrow_gateway_initialize_routine and what follows it. */
    method GatewayOnlyStage(ghost t0: seq<Call>, ghost before: seq<Call>) returns (ret: Outcome)
      requires env.maxAttempts >= 1 && trace == t0 + before
      modifies this
      ensures var r := RoutineSpec.GatewayOnlyStage(env, |t0|, before, old(Snapshot()));
        Follows(t0, r) && ret == r.value
    {
      var code, gaveUp, attempts := Retry(ConnectGatewayStep);
      ghost var g := RetryFresh(env, old(Snapshot()), |old(trace)|, ConnectGatewayStep);
      AppendAssoc(t0, before, g.calls);
      ret := AfterGatewayOnly(t0, before, g, gaveUp);
    }

    /** What arrow_gateway_initialize_routine does once its gateway loop has ended as `g`. */
    method AfterGatewayOnly(ghost t0: seq<Call>, ghost before: seq<Call>, ghost g: RetryOutcome, gaveUp: bool) returns (ret: Outcome)
      requires env.maxAttempts >= 1 && trace == t0 + (before + g.calls) && Snapshot() == g.state && gaveUp == g.gaveUp
      modifies this
      ensures var r := RoutineSpec.AfterGatewayOnly(env, |t0|, before, g);
        Follows(t0, r) && ret == r.value
    {
      if gaveUp {
        return Error;
      }
      Note(SessionCloseSet(true));
      Note(WdtFeed);
      AppendAssoc(t0, before + g.calls, [SessionCloseSet(true), WdtFeed]);
      ret := ConfigOnlyStage(t0, before + g.calls + [SessionCloseSet(true), WdtFeed]);
    }

    /** The config loop of arrow_gateway_initialize_routine and the end of the routine. */
    method ConfigOnlyStage(ghost t0: seq<Call>, ghost before: seq<Call>) returns (ret: Outcome)
      requires env.maxAttempts >= 1 && trace == t0 + before
      modifies this
      ensures var r := RoutineSpec.ConfigOnlyStage(env, |t0|, before, old(Snapshot()));
        Follows(t0, r) && ret == r.value
    {
      var code, gaveUp, attempts := Retry(GatewayConfigStep);
      ghost var c := RetryFresh(env, old(Snapshot()), |old(trace)|, GatewayConfigStep);
      AppendAssoc(t0, before, c.calls);
      if gaveUp {
        return Error;
      }
      initDone := true;
      return Success;
    }

    /** arrow_device_states_sync. */
    method DeviceStatesSync() returns (ret: Outcome)
      modifies this
      ensures var r := RoutineSpec.DeviceStatesSync(old(Snapshot()));
        Follows(old(trace), r) && ret == r.value
    {
      Note(StateReceive);
      if !initDone {
        return Error;
      }
      Note(PostStateRequest);
      return Success;
    }

    /** arrow_device_states_update. */
    method DeviceStatesUpdate() returns (ret: Outcome)
      modifies this
      ensures var r := RoutineSpec.DeviceStatesUpdate(old(Snapshot()));
        Follows(old(trace), r) && ret == r.value
    {
      if !initDone {
        return Error;
      }
      Note(PostStateUpdate);
      return Success;
    }

    /** arrow_send_telemetry_routine. */
    method SendTelemetry() returns (ret: Outcome)
      requires env.maxAttempts >= 1
      modifies this
      ensures var r := SendTelemetryRoutine(env, old(Snapshot()), |old(trace)|);
        Follows(old(trace), r) && ret == r.value
    {
      if !initDone {
        return NotInitialize;
      }
      Note(WdtFeed);
      var code, gaveUp, attempts := Retry(SendTelemetryStep);
      AppendAssoc(old(trace), [WdtFeed], RetryFresh(env, old(Snapshot()), |old(trace)| + 1, SendTelemetryStep).calls);
      ret := if gaveUp then Error else Success;
    }

    /** arrow_mqtt_connect_telemetry_routine. */
    method ConnectTelemetry() returns (ret: Outcome)
      requires env.maxAttempts >= 1
      modifies this
      ensures var r := ConnectTelemetryRoutine(env, old(Snapshot()), |old(trace)|);
        Follows(old(trace), r) && ret == r.value
    {
      if mask & TelemetryBit != 0 {
        return Error;
      }
      var code, gaveUp, attempts := Retry(TelemetryConnectStep);
      if gaveUp {
        return MqttConnectFailed;
      }
      mask := mask | TelemetryBit;
      return Success;
    }

    /** A call whose negative result is ROUTINE_ERROR. */
    method Checked(c: Call) returns (ret: Outcome)
      modifies this
      ensures var r := RoutineSpec.Checked(env, old(Snapshot()), |old(trace)|, c);
        trace == old(trace) + r.calls && Snapshot() == After(r.state, c, env.oracle(|old(trace)|)) && ret == r.value
    {
      var reply := Do(c);
      ret := if reply.code < 0 then Error else Success;
    }

    /** arrow_mqtt_disconnect_telemetry_routine. */
    method DisconnectTelemetry() returns (ret: Outcome)
      modifies this
      ensures var r := DisconnectTelemetryRoutine(env, old(Snapshot()), |old(trace)|);
        Follows(old(trace), r) && ret == r.value
    {
      if mask & TelemetryBit == 0 {
        return Error;
      }
      ret := Checked(TelemetryTerminate);
    }

    /** arrow_mqtt_terminate_telemetry_routine. */
    method TerminateTelemetry() returns (ret: Outcome)
      modifies this
      ensures var r := TerminateTelemetryRoutine(env, old(Snapshot()), |old(trace)|);
        Follows(old(trace), r) && ret == r.value
    {
      ret := Checked(TelemetryTerminate);
    }

    /** arrow_mqtt_connect_event_routine. */
    method ConnectEvent() returns (ret: Outcome)
      requires env.maxAttempts >= 1
      modifies this
      ensures var r := ConnectEventRoutine(env, old(Snapshot()), |old(trace)|);
        Follows(old(trace), r) && ret == r.value
    {
      if mask & CommandBit != 0 {
        return Error;
      }
      var code, gaveUp, attempts := Retry(SubscribeConnectStep);
      if gaveUp {
        return MqttSubscribeFailed;
      }
      mask := mask | CommandBit;
      return Success;
    }

    /** arrow_mqtt_subscribe_event_routine. */
    method SubscribeEvent() returns (ret: Outcome)
      requires env.maxAttempts >= 1
      modifies this
      ensures var r := SubscribeEventRoutine(env, old(Snapshot()), |old(trace)|);
        Follows(old(trace), r) && ret == r.value
    {
      var code, gaveUp, attempts := Retry(SubscribeStep);
      if gaveUp {
        return MqttSubscribeFailed;
      }
      mask := mask | CommandBit;
      return Success;
    }

    /** arrow_mqtt_disconnect_event_routine. */
    method DisconnectEvent() returns (ret: Outcome)
      modifies this
      ensures var r := DisconnectEventRoutine(env, old(Snapshot()), |old(trace)|);
        Follows(old(trace), r) && ret == r.value
    {
      if mask & CommandBit == 0 {
        return Error;
      }
      ret := Checked(SubscribeDisconnect);
    }

    /** arrow_mqtt_terminate_event_routine. */
    method TerminateEvent() returns (ret: Outcome)
      modifies this
      ensures var r := TerminateEventRoutine(env, old(Snapshot()), |old(trace)|);
        Follows(old(trace), r) && ret == r.value
    {
      ret := Checked(SubscribeTerminate);
    }

    /** arrow_mqtt_event_receive_routine. */
    method EventReceive() returns (ret: Outcome)
      modifies this
      ensures var r := EventReceiveRoutine(env, old(Snapshot()), |old(trace)|);
        Follows(old(trace), r) && ret == r.value
    {
      if !initDone || mask & CommandBit == 0 {
        return NotInitialize;
      }
      var yielded := Do(Yield(env.telemetryDelay));
      Note(WdtFeed);
      if yielded.code > 0 {
        return ReceiveEvent;
      } else if yielded.code == env.failureRequiresRestart {
        return Error;
      }
      return Success;
    }

    /** arrow_mqtt_connect_routine. */
    method MqttConnect() returns (ret: Outcome)
      requires env.maxAttempts >= 1
      modifies this
      ensures var r := MqttConnectRoutine(env, old(Snapshot()), |old(trace)|);
        Follows(old(trace), r) && ret == r.value
    {
      if !initDone {
        return NotInitialize;
      }
      ret := ConnectTelemetry();
      ghost var t := ConnectTelemetryRoutine(env, old(Snapshot()), |old(trace)|);
      ret := EventChannelStage(old(trace), t, ret);
    }

    /** arrow_mqtt_connect_routine once its telemetry channel has ended as `t`. */
    method EventChannelStage(ghost t0: seq<Call>, ghost t: Run<Outcome>, value: Outcome) returns (ret: Outcome)
      requires env.maxAttempts >= 1 && Follows(t0, t) && value == t.value
      modifies this
      ensures var r := RoutineSpec.EventChannelStage(env, |t0|, t);
        Follows(t0, r) && ret == r.value
    {
      if value != Success {
        return value;
      }
      ret := ConnectEvent();
      ghost var v := ConnectEventRoutine(env, t.state, |t0| + |t.calls|);
      AppendAssoc(t0, t.calls, v.calls);
      ret := PostponedStage(t0, t.calls, v, ret);
    }

    /** arrow_mqtt_connect_routine once its event channel, opened after the calls `before`, has ended as `v`. */
    method PostponedStage(ghost t0: seq<Call>, ghost before: seq<Call>, ghost v: Run<Outcome>, value: Outcome) returns (ret: Outcome)
      requires env.maxAttempts >= 1 && trace == t0 + (before + v.calls) && Snapshot() == v.state && value == v.value
      modifies this
      ensures var r := RoutineSpec.PostponedStage(env, |t0| + |before|, before, v);
        Follows(t0, r) && ret == r.value
    {
      if value != Success {
        return value;
      }
      ghost var k := |trace|;
      assert k == |t0| + |before| + |v.calls|;
      var _ := ProcessPostponed();
      ghost var p := RoutineSpec.ProcessPostponed(env, v.state, k);
      PostponedRun(env, |t0| + |before|, before, v, p);
      AppendAssoc(t0, before + v.calls, p.calls);
      return Success;
    }

    /** The postponed-message step: one poll, and a subscription unless the poll received an event. */
    method ProcessPostponed() returns (ret: Outcome)
      requires env.maxAttempts >= 1
      modifies this
      ensures var r := RoutineSpec.ProcessPostponed(env, old(Snapshot()), |old(trace)|);
        Follows(old(trace), r) && ret == r.value
    {
      ret := EventReceive();
      if ret != ReceiveEvent {
        ghost var received := EventReceiveRoutine(env, old(Snapshot()), |old(trace)|);
        ret := SubscribeEvent();
        AppendAssoc(old(trace), received.calls, SubscribeEventRoutine(env, received.state, |old(trace)| + |received.calls|).calls);
      }
    }

    /** arrow_mqtt_disconnect_routine. */
    method MqttDisconnect() returns (ret: Outcome)
      modifies this
      ensures var r := MqttDisconnectRoutine(old(Snapshot()));
        Follows(old(trace), r) && ret == r.value
    {
      if mask != 0 {
        Note(Call.MqttDisconnect);
        mask := 0;
        return Success;
      }
      return Error;
    }

    /** arrow_mqtt_terminate_routine. */
    method MqttTerminate() returns (ret: Outcome)
      modifies this
      ensures var r := MqttTerminateRoutine(old(Snapshot()));
        Follows(old(trace), r) && ret == r.value
    {
      Note(Call.MqttTerminate);
      mask := 0;
      return Success;
    }

    /** arrow_mqtt_pause_routine. */
    method MqttPause(pause: int) returns (ret: Outcome)
      modifies this
      ensures var r := MqttPauseRoutine(old(Snapshot()), pause);
        Follows(old(trace), r) && ret == r.value
    {
      Note(Call.MqttPause(pause));
      return Success;
    }

    /** arrow_close. */
    method Close()
      modifies this
      ensures Follows(old(trace), RoutineSpec.Close(env, old(Snapshot()), |old(trace)|))
    {
      StopMqtt();
      ghost var stop := RoutineSpec.StopMqtt(env, old(Snapshot()), |old(trace)|);
      ReleaseAll();
      AppendAssoc(old(trace), stop.calls, RoutineSpec.ReleaseAll(stop.state).calls);
    }

    /** MQTT terminated, and the state machine stopped if it is running. */
    method StopMqtt()
      modifies this
      ensures Follows(old(trace), RoutineSpec.StopMqtt(env, old(Snapshot()), |old(trace)|))
    {
      var _ := MqttTerminate();
      var running := Do(StateMqttIsRunning);
      if running.code != 0 {
        Note(StateMqttStop);
      }
    }

    /** The hids released, if the session was initialized. */
    method ReleaseAll()
      modifies this
      ensures Follows(old(trace), RoutineSpec.ReleaseAll(old(Snapshot())))
    {
      if initDone {
        FreeAll();
      }
    }

    /** The device, the gateway and its config freed, and the session no longer initialized. */
    method FreeAll()
      requires initDone
      modifies this
      ensures Follows(old(trace), RoutineSpec.ReleaseAll(old(Snapshot())))
    {
      Perform(FreeDevice);
      Perform(FreeGateway);
      Note(FreeGatewayConfig);
      initDone := false;
    }

    /** arrow_mqtt_check_init. */
    method CheckInit() returns (ret: Outcome)
      ensures ret == RoutineSpec.CheckInit(Snapshot())
      ensures ret == Success || ret == NotInitialize
      ensures ret == Success <==> initDone && HasBit(mask, CommandBit)
    {
      if !initDone || mask & CommandBit == 0 {
        return NotInitialize;
      }
      return Success;
    }

    /** One cycle of the while(1) loop of a telemetry routine; None goes round again. */
    method TelemetryCycle(kind: LoopKind) returns (ret: Option<Outcome>)
      modifies this
      ensures var r := Cycle(env, old(Snapshot()), |old(trace)|, kind);
        Follows(old(trace), r) && ret == r.value
    {
      if kind == WithEvents {
        Note(MqttReceive(env.telemetryDelay));
        var events := Do(HasEvents);
        if events.code != 0 {
          return Some(ReceiveEvent);
        }
      } else {
        Note(Sleep(env.telemetryDelay));
      }
      ghost var start := CycleStart(env, kind);
      ret := Produce();
      AppendAssoc(old(trace), start, RoutineSpec.Produce(env, old(Snapshot()), |old(trace)| + |start|).calls);
    }

    /** The producer asked for data, and the data published. */
    method Produce() returns (ret: Option<Outcome>)
      modifies this
      ensures var r := RoutineSpec.Produce(env, old(Snapshot()), |old(trace)|);
        Follows(old(trace), r) && ret == r.value
    {
      var data := Do(ProduceData);
      if data.code < 0 {
        return Some(GetTelemetryFailed);
      } else if data.code > 0 {
        return None;
      }
      Note(WdtFeed);
      var published := Do(Publish);
      if published.code < 0 {
        return Some(MqttPublishFailed);
      }
      return None;
    }

    /** One cycle of the loop `cycle`, whose cycles all start and end in state `s`. */
    method Round(ghost cycle: nat -> Run<Option<Outcome>>, ghost s: State, kind: LoopKind) returns (ret: Option<Outcome>)
      requires CyclesFor(cycle, env, s, kind) && Snapshot() == s
      modifies this
      ensures var r := cycle(|old(trace)|);
        Follows(old(trace), r) && ret == r.value && r.state == s
    {
      ret := TelemetryCycle(kind);
    }

    /**
     * arrow_mqtt_send_telemetry_routine (WithEvents) and
     * arrow_mqtt_telemetry_routine (SleepOnly), for at most `fuel` cycles;
     * None is a loop still running after them.
     */
    method Telemetry(kind: LoopKind, fuel: nat) returns (ret: Option<Outcome>)
      modifies this
      ensures var r := TelemetryRoutine(env, old(Snapshot()), |old(trace)|, kind, fuel);
        Follows(old(trace), r) && ret == r.value
    {
      if !initDone || mask & TelemetryBit == 0 || (kind == WithEvents && mask & CommandBit == 0) {
        return Some(NotInitialize);
      }
      Note(WdtFeed);
      ghost var cycle := CycleOf(env, Snapshot(), kind);
      assert CyclesFor(cycle, env, Snapshot(), kind);
      ret := Cycles(cycle, kind, fuel);
      AppendAssoc(old(trace), [WdtFeed], Loop(cycle, old(Snapshot()), |old(trace)| + 1, fuel).calls);
    }

    /** The while(1) loop of a telemetry routine, for at most `fuel` cycles of `cycle`. */
    method Cycles(ghost cycle: nat -> Run<Option<Outcome>>, kind: LoopKind, fuel: nat) returns (ret: Option<Outcome>)
      requires CyclesFor(cycle, env, Snapshot(), kind)
      modifies this
      ensures var r := Loop(cycle, old(Snapshot()), |old(trace)|, fuel);
        Follows(old(trace), r) && ret == r.value
    {
      ghost var s := Snapshot();
      ghost var goal := Loop(cycle, s, |trace|, fuel);
      ghost var done: seq<Call> := [];
      var n := 0;
      while n < fuel
        invariant n <= fuel && Snapshot() == s && trace == old(trace) + done
        invariant goal == Then(done, Loop(cycle, s, |trace|, fuel - n))
      {
        ghost var k := |trace|;
        ret := Round(cycle, s, kind);
        ghost var c := cycle(k);
        LoopNext(cycle, s, k, fuel - n, c, done, goal);
        AppendAssoc(old(trace), done, c.calls);
        if ret.Some? {
          return;
        }
        done := done + c.calls;
        n := n + 1;
      }
      return None;
    }

    /** arrow_mqtt_telemetry_once_routine. */
    method TelemetryOnce() returns (ret: Outcome)
      modifies this
      ensures var r := TelemetryOnceRoutine(env, old(Snapshot()), |old(trace)|);
        Follows(old(trace), r) && ret == r.value
    {
      if !initDone || mask & TelemetryBit == 0 {
        return NotInitialize;
      }
      Note(WdtFeed);
      var data := Do(ProduceData);
      if data.code != 0 {
        return GetTelemetryFailed;
      }
      var published := Do(Publish);
      if published.code < 0 {
        return MqttPublishFailed;
      }
      return Success;
    }
  }

  /**
   * `l` is the retry loop of `step`: its constants, and its attempts those
   * of the step (stated only for attempts that are made, so that the
   * attempts inside a loop's unfolding stay abstract).
   */
  ghost predicate LoopFor(l: RetryLoop, e: Env, step: Step)
  {
    l.maxAttempts == e.maxAttempts && l.delay == Delay(step) && l.clears == (step == SubscribeStep)
    && forall s: State, k: nat {:trigger Attempt(e, s, k, step)} :: l.attempt(s, k) == Attempt(e, s, k, step)
  }

  /**
   * `cycle` gives the cycles of a telemetry loop of `kind` in state `s`
   * (stated only for cycles that are run, so that the cycles inside a
   * loop's unfolding stay abstract).
   */
  ghost predicate CyclesFor(cycle: nat -> Run<Option<Outcome>>, e: Env, s: State, kind: LoopKind)
  {
    forall k: nat {:trigger Cycle(e, s, k, kind)} :: cycle(k) == Cycle(e, s, k, kind)
  }

  /** One cycle of a telemetry loop resumed after the calls `done`: it ends the loop or is followed by the next. */
  lemma LoopNext(cycle: nat -> Run<Option<Outcome>>, s: State, k: nat, fuel: nat, c: Run<Option<Outcome>>,
                 done: seq<Call>, goal: Run<Option<Outcome>>)
    requires fuel >= 1 && c == cycle(k) && goal == Then(done, Loop(cycle, s, k, fuel))
    ensures c.value.Some? ==> goal == Then(done, c)
    ensures c.value.None? ==> goal == Then(done + c.calls, Loop(cycle, s, k + |c.calls|, fuel - 1))
  {
    if c.value.None? {
      var r := Loop(cycle, s, k + |c.calls|, fuel - 1);
      assert done + (c.calls + r.calls) == done + c.calls + r.calls;
    }
  }

  /** The postponed stage of an event channel `v` that opened: the postponed-message step `p`, then success. */
  lemma PostponedRun(e: Env, k: nat, before: seq<Call>, v: Run<Outcome>, p: Run<Outcome>)
    requires e.maxAttempts >= 1 && v.value == Success && p == ProcessPostponed(e, v.state, k + |v.calls|)
    ensures PostponedStage(e, k, before, v) == Run(p.state, before + v.calls + p.calls, Success)
  {
  }

  /** A retry loop's outcome after the calls `done` that came before it. */
  function Resumed(done: seq<Call>, r: RetryOutcome): RetryOutcome
  {
    r.(calls := done + r.calls)
  }

  lemma AppendAssoc(x: seq<Call>, y: seq<Call>, z: seq<Call>)
    ensures x + y + z == x + (y + z)
  {
  }

  /**
   * One round of a retry loop resumed after the calls `done`: the attempt
   * `a` succeeds, gives up, or is followed by a sleep and the next round.
   */
  lemma RetryNext(l: RetryLoop, s: State, k: nat, retry: nat, a: Run<int>, done: seq<Call>, goal: RetryOutcome)
    requires retry < l.maxAttempts && a == l.attempt(s, k)
    requires goal == Resumed(done, RoutineSpec.Retry(l, s, k, retry))
    ensures a.value >= 0 ==> goal == RetryOutcome(a.state, done + a.calls, a.value, false, retry + 1)
    ensures a.value < 0 && retry + 1 >= l.maxAttempts ==>
      goal == RetryOutcome(a.state, done + a.calls, a.value, true, retry + 1)
    ensures a.value < 0 && retry + 1 < l.maxAttempts ==>
      goal == Resumed(done + a.calls + [Sleep(l.delay)], RoutineSpec.Retry(l, AfterFailure(l, a.state), k + |a.calls| + 1, retry + 1))
  {
    if a.value < 0 && retry + 1 < l.maxAttempts {
      var r := RoutineSpec.Retry(l, AfterFailure(l, a.state), k + |a.calls| + 1, retry + 1);
      assert done + (a.calls + [Sleep(l.delay)] + r.calls) == done + a.calls + [Sleep(l.delay)] + r.calls;
    }
  }
}
