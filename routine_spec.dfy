/**
 * The session orchestrator of src/arrow/routine.c as functions on a
 * snapshot of its module state. Every collaborator (HTTP API calls, MQTT,
 * storage, the watchdog, sleeping) is a Call appended to the snapshot's
 * trace; the k-th call of a session receives the reply oracle(k). The class
 * Session in routine.dfy is proved to follow these functions.
 */
module RoutineSpec {
  import opened Wrappers

  /** ARROW_RETRY_DELAY and MQTT_RETRY_DELAY, in milliseconds. */
  const ArrowRetryDelay: nat := 3000
  const MqttRetryDelay: nat := 6000

  /** The two bits of _init_mqtt. */
  const TelemetryBit: bv8 := 0x01
  const CommandBit: bv8 := 0x02

  /** arrow_routine_error_t; Failed carries the raw code a failed phase returns. */
  datatype Outcome =
    | Success
    | Error
    | NotInitialize
    | ReceiveEvent
    | GetTelemetryFailed
    | MqttPublishFailed
    | MqttConnectFailed
    | MqttSubscribeFailed
    | Failed(code: int)

  /** The collaborators routine.c calls, one constructor each. */
  datatype Call =
    | WdtFeed
    | Sleep(ms: nat)
    | SessionCloseSet(close: bool)
    | SetProtocolApiViaHttp
    | PrepareGateway
    | RestoreGateway
    | RegisterGateway
    | SaveGateway
    | GatewayCheckin
    | GatewayUpdate
    | GatewayConfig
    | FreeGatewayConfig
    | FreeGateway
    | PrepareDevice
    | RestoreDevice
    | RegisterDevice
    | SaveDevice
    | DeviceUpdate
    | FreeDevice
    | StateMqttRun
    | StateReceive
    | PostStateRequest
    | PostStateUpdate
    | SendTelemetry
    | TelemetryConnect
    | TelemetryTerminate
    | SubscribeConnect
    | Subscribe
    | SubscribeDisconnect
    | SubscribeTerminate
    | MqttDisconnect
    | MqttTerminate
    | MqttPause(pause: int)
    | MqttReceive(ms: nat)
    | HasEvents
    | ProduceData
    | Publish
    | Yield(ms: nat)
    | StateMqttIsRunning
    | StateMqttStop

  /**
   * A collaborator's reply: its int result (a boolean result is nonzero for
   * true) and, for a restore or a registration, the hid it leaves behind.
   */
  datatype Reply = Reply(code: int, hid: Option<string>)

  /**
   * The environment of a session: the replies of its collaborators and the
   * build constants the shown files do not fix (the RETRY_UP attempt limit,
   * TELEMETRY_DELAY, FAILURE_REQUIRES_RESTART).
   */
  datatype Env = Env(oracle: nat -> Reply, maxAttempts: nat, telemetryDelay: nat, failureRequiresRestart: int)


  /**
   * The module state: _init_done, _init_mqtt, and the hids of _gateway and
   * _device (None when empty).
   */
  datatype State = State(initDone: bool, mask: bv8, gatewayHid: Option<string>, deviceHid: Option<string>)

  /**
   * What a routine did, for a session that had made k calls before it: the
   * state after it, the calls it made in order (the i-th of them received
   * oracle(k + i)), and its result.
   */
  datatype Run<T> = Run(state: State, calls: seq<Call>, value: T)

  /** arrow_gateway_free and arrow_device_free empty the hid; no other call frees one. */
  function Freed(s: State, c: Call): State
  {
    if c == FreeGateway then s.(gatewayHid := None)
    else if c == FreeDevice then s.(deviceHid := None)
    else s
  }

  /** The effect of one call on the state: restores and registrations leave their reply's hid; frees empty it. */
  function After(s: State, c: Call, reply: Reply): State
  {
    if c == RestoreGateway || c == RegisterGateway then s.(gatewayHid := reply.hid)
    else if c == RestoreDevice || c == RegisterDevice then s.(deviceHid := reply.hid)
    else Freed(s, c)
  }

  /** The calls that change a hid. */
  predicate HidCall(c: Call)
  {
    c == RestoreGateway || c == RegisterGateway || c == RestoreDevice || c == RegisterDevice
    || c == FreeGateway || c == FreeDevice
  }

  /** `_init_done = 1`. */
  function Initialized(s: State): State
  {
    s.(initDone := true)
  }

  /** `_init_mqtt |= bit`. */
  function SetBit(s: State, bit: bv8): State
  {
    s.(mask := s.mask | bit)
  }

  /** `_init_mqtt &= ~bit`. */
  function ClearBit(s: State, bit: bv8): State
  {
    s.(mask := s.mask & !bit)
  }

  /** `_init_mqtt = 0`. */
  function ClearMask(s: State): State
  {
    s.(mask := 0)
  }

  /** Calls made before a run. */
  function Then<T>(calls: seq<Call>, r: Run<T>): Run<T>
  {
    Run(r.state, calls + r.calls, r.value)
  }

  /** None of the calls is a sleep. */
  predicate SleepFree(calls: seq<Call>)
  {
    forall c :: c in calls ==> !c.Sleep?
  }

  /** _init_done and _init_mqtt are as they were. */
  predicate SameFlags(s: State, t: State)
  {
    t.initDone == s.initDone && t.mask == s.mask
  }

  // ---------------------------------------------------------------------
  // Connecting the gateway and the device
  // ---------------------------------------------------------------------

  /** The tail of arrow_connect_gateway once the hid is known to be set or restored. */
  function CheckinAndUpdate(e: Env, s: State, k: nat): (r: Run<int>)
    ensures r.state == s && SleepFree(r.calls)
  {
    if s.gatewayHid.None? then Run(s, [], 0)
    else
      var checkin := e.oracle(k).code;
      if checkin != 0 then Run(s, [GatewayCheckin], checkin)
      else Run(s, [GatewayCheckin, GatewayUpdate], e.oracle(k + 1).code)
  }

  /** arrow_connect_gateway; arrow_prepare_gateway leaves the hid alone. */
  function ConnectGateway(e: Env, s: State, k: nat): (r: Run<int>)
    ensures SameFlags(s, r.state) && r.state.deviceHid == s.deviceHid && SleepFree(r.calls)
  {
    Then([PrepareGateway], if s.gatewayHid.None? then FindGateway(e, s, k + 1) else CheckinAndUpdate(e, s, k + 1))
  }

  /** A gateway without a hid: restored, else registered and saved; a restored one checks in. */
  function FindGateway(e: Env, s: State, k: nat): (r: Run<int>)
  {
    var restored := e.oracle(k);
    var s2 := After(s, RestoreGateway, restored);
    if restored.code < 0 then Then([RestoreGateway], NewGateway(e, s2, k + 1))
    else Then([RestoreGateway], CheckinAndUpdate(e, s2, k + 1))
  }

  /** Registration of a gateway that could not be restored; a registered one is saved. */
  function NewGateway(e: Env, s: State, k: nat): (r: Run<int>)
  {
    var registered := e.oracle(k);
    var s2 := After(s, RegisterGateway, registered);
    if registered.code < 0 then Run(s2, [RegisterGateway], registered.code)
    else Run(s2, [RegisterGateway, SaveGateway], 0)
  }

  /**
   * arrow_connect_device, default build (the software-update branch);
   * arrow_prepare_device leaves the hid alone.
   */
  function ConnectDevice(e: Env, s: State, k: nat): (r: Run<int>)
    ensures SameFlags(s, r.state) && r.state.gatewayHid == s.gatewayHid && SleepFree(r.calls)
  {
    Then([PrepareDevice], if s.deviceHid.Some? then Run(s, [], 0) else FindDevice(e, s, k + 1))
  }

  /** A device without a hid: restored and updated, else registered and saved. */
  function FindDevice(e: Env, s: State, k: nat): (r: Run<int>)
  {
    var restored := e.oracle(k);
    var s2 := s.(deviceHid := restored.hid);
    if restored.code < 0 then Then([RestoreDevice], NewDevice(e, s2, k + 1))
    else Then([RestoreDevice], KnownDevice(e, s2, k + 1))
  }

  /** Registration of a device that could not be restored: freed on failure, else saved and its state machine started. */
  function NewDevice(e: Env, s: State, k: nat): (r: Run<int>)
  {
    var reply := e.oracle(k);
    var s2 := s.(deviceHid := reply.hid);
    if reply.code < 0 then Run(Freed(s2, FreeDevice), [RegisterDevice, FreeDevice], reply.code)
    else Run(s2, [RegisterDevice, SaveDevice, StateMqttRun], reply.code)
  }

  /** The software-update call for a restored device: freed on failure, else its state machine started. */
  function KnownDevice(e: Env, s: State, k: nat): (r: Run<int>)
  {
    var reply := e.oracle(k);
    if reply.code < 0 then Run(Freed(s, FreeDevice), [DeviceUpdate, FreeDevice], reply.code)
    else Run(s, [DeviceUpdate, StateMqttRun], reply.code)
  }

  // ---------------------------------------------------------------------
  // Bounded retry
  // ---------------------------------------------------------------------

  /** The fallible steps routine.c wraps in a RETRY_UP loop. */
  datatype Step =
    | ConnectGatewayStep
    | GatewayConfigStep
    | ConnectDeviceStep
    | SendTelemetryStep
    | TelemetryConnectStep
    | SubscribeConnectStep
    | SubscribeStep

  /** The delay each loop sleeps between attempts. */
  function Delay(step: Step): nat
  {
    if step == TelemetryConnectStep || step == SubscribeConnectStep || step == SubscribeStep then MqttRetryDelay
    else ArrowRetryDelay
  }

  /** The collaborator a one-call step invokes. */
  function StepCall(step: Step): Call
    requires !step.ConnectGatewayStep? && !step.ConnectDeviceStep?
  {
    match step
    case GatewayConfigStep => GatewayConfig
    case SendTelemetryStep => SendTelemetry
    case TelemetryConnectStep => TelemetryConnect
    case SubscribeConnectStep => SubscribeConnect
    case SubscribeStep => Subscribe
  }

  /** One attempt of a step and its int result; negative is a failure. */
  function Attempt(e: Env, s: State, k: nat, step: Step): (r: Run<int>)
    ensures SameFlags(s, r.state) && SleepFree(r.calls) && |r.calls| >= 1
  {
    match step
    case ConnectGatewayStep => ConnectGateway(e, s, k)
    case ConnectDeviceStep => ConnectDevice(e, s, k)
    case _ => Run(s, [StepCall(step)], e.oracle(k).code)
  }

  /**
   * How a retry loop ended: the state, the calls, the last attempt's
   * result, whether RETRY_UP gave up, and the value of the retry counter
   * plus one, which is the number of attempts made since the counter was zero.
   */
  datatype RetryOutcome = RetryOutcome(state: State, calls: seq<Call>, ret: int, gaveUp: bool, attempts: nat)

  /**
   * A RETRY_UP loop: what it attempts (a state and the index of its first
   * call give a run), how long it sleeps after a failure, whether it clears
   * the command bit after that sleep, and its budget.
   */
  datatype RetryLoop = RetryLoop(attempt: (State, nat) -> Run<int>, delay: nat, clears: bool, maxAttempts: nat)

  /**
   * `while (attempt() < 0) { RETRY_UP(retry, give up); msleep(delay); }`
   * from counter value `retry`. RETRY_UP increments the counter and gives up
   * once it reaches maxAttempts, before sleeping.
   */
  function Retry(l: RetryLoop, s: State, k: nat, retry: nat): (r: RetryOutcome)
    requires retry < l.maxAttempts
    decreases l.maxAttempts - retry
  {
    var a := l.attempt(s, k);
    if a.value >= 0 then RetryOutcome(a.state, a.calls, a.value, false, retry + 1)
    else if retry + 1 >= l.maxAttempts then RetryOutcome(a.state, a.calls, a.value, true, retry + 1)
    else
      var r := Retry(l, AfterFailure(l, a.state), k + |a.calls| + 1, retry + 1);
      r.(calls := a.calls + [Sleep(l.delay)] + r.calls)
  }

  /** The state a failed attempt leaves for the next one. */
  function AfterFailure(l: RetryLoop, s: State): State
  {
    if l.clears then ClearBit(s, CommandBit) else s
  }

  /** The loop routine.c runs around a step; only the subscribe loop clears the command bit. */
  function LoopOf(e: Env, step: Step): RetryLoop
  {
    RetryLoop((s: State, k: nat) => Attempt(e, s, k, step), Delay(step), step == SubscribeStep, e.maxAttempts)
  }

  /** A loop started with RETRY_CR, that is with the counter at zero. */
  function RetryFresh(e: Env, s: State, k: nat, step: Step): RetryOutcome
    requires e.maxAttempts >= 1
  {
    Retry(LoopOf(e, step), s, k, 0)
  }

  // ---------------------------------------------------------------------
  // Initialization
  // ---------------------------------------------------------------------

  /** The phase an initialization gave up in. */
  datatype Phase = GatewayPhase | ConfigPhase | DevicePhase

  /**
   * How arrow_initialize_routine ended, with each phase's attempt count
   * (zero for a phase never reached) and the phase it gave up in, if any.
   */
  datatype InitOutcome = InitOutcome(state: State, calls: seq<Call>, result: Outcome, attempts: seq<nat>, failed: Option<Phase>)

  /**
   * arrow_initialize_routine. Each loop is a stage: the loop entered in a
   * state after the calls `before` (so its first call has index
   * k + |before|), followed by what remains of the routine once it has ended.
   */
  function InitializeRoutine(e: Env, s: State, k: nat): InitOutcome
    requires e.maxAttempts >= 1
  {
    GatewayStage(e, k, [WdtFeed, SetProtocolApiViaHttp, SessionCloseSet(false)], s)
  }

  /** The gateway loop of arrow_initialize_routine, entered in `t`. */
  function GatewayStage(e: Env, k: nat, before: seq<Call>, t: State): InitOutcome
    requires e.maxAttempts >= 1
  {
    AfterGatewayPhase(e, k, before, RetryFresh(e, t, k + |before|, ConnectGatewayStep))
  }

  /** The rest of arrow_initialize_routine after the gateway loop `g`. */
  function AfterGatewayPhase(e: Env, k: nat, before: seq<Call>, g: RetryOutcome): InitOutcome
    requires e.maxAttempts >= 1
  {
    var calls := before + g.calls;
    if g.gaveUp then
      InitOutcome(Freed(g.state, FreeGateway), calls + [FreeGateway], Failed(g.ret), [g.attempts, 0, 0], Some(GatewayPhase))
    else ConfigStage(e, k, calls + [WdtFeed], g.attempts, g.state)
  }

  /** The config loop of arrow_initialize_routine, entered in `t`. */
  function ConfigStage(e: Env, k: nat, before: seq<Call>, gatewayAttempts: nat, t: State): InitOutcome
    requires e.maxAttempts >= 1
  {
    AfterConfigPhase(e, k, before, gatewayAttempts, RetryFresh(e, t, k + |before|, GatewayConfigStep))
  }

  /** The rest of arrow_initialize_routine after the config loop `c`. */
  function AfterConfigPhase(e: Env, k: nat, before: seq<Call>, gatewayAttempts: nat, c: RetryOutcome): InitOutcome
    requires e.maxAttempts >= 1
  {
    var calls := before + c.calls;
    if c.gaveUp then
      InitOutcome(Freed(c.state, FreeGateway), calls + [FreeGatewayConfig, FreeGateway],
                  Failed(c.ret), [gatewayAttempts, c.attempts, 0], Some(ConfigPhase))
    else DeviceStage(e, k, calls + [WdtFeed, SessionCloseSet(true)], [gatewayAttempts, c.attempts], c.state)
  }

  /** The device loop of arrow_initialize_routine, entered in `t`. */
  function DeviceStage(e: Env, k: nat, before: seq<Call>, attempts: seq<nat>, t: State): InitOutcome
    requires e.maxAttempts >= 1
  {
    AfterDevicePhase(before, attempts, RetryFresh(e, t, k + |before|, ConnectDeviceStep))
  }

  /** The end of arrow_initialize_routine after the device loop `d`. */
  function AfterDevicePhase(before: seq<Call>, attempts: seq<nat>, d: RetryOutcome): InitOutcome
  {
    var calls := before + d.calls;
    if d.gaveUp then
      InitOutcome(Freed(Freed(d.state, FreeDevice), FreeGateway), calls + [FreeDevice, FreeGatewayConfig, FreeGateway],
                  Failed(d.ret), attempts + [d.attempts], Some(DevicePhase))
    else
      InitOutcome(Initialized(d.state), calls, Success, attempts + [d.attempts], None)
  }

  /** arrow_gateway_initialize_routine: gateway and config loops, no cleanup. */
  function GatewayInitializeRoutine(e: Env, s: State, k: nat): Run<Outcome>
    requires e.maxAttempts >= 1
  {
    GatewayOnlyStage(e, k, [WdtFeed, SessionCloseSet(false)], s)
  }

  /** The gateway loop of arrow_gateway_initialize_routine, entered in `t`. */
  function GatewayOnlyStage(e: Env, k: nat, before: seq<Call>, t: State): Run<Outcome>
    requires e.maxAttempts >= 1
  {
    AfterGatewayOnly(e, k, before, RetryFresh(e, t, k + |before|, ConnectGatewayStep))
  }

  /** The rest of arrow_gateway_initialize_routine after the gateway loop `g`. */
  function AfterGatewayOnly(e: Env, k: nat, before: seq<Call>, g: RetryOutcome): Run<Outcome>
    requires e.maxAttempts >= 1
  {
    var calls := before + g.calls;
    if g.gaveUp then Run(g.state, calls, Error)
    else ConfigOnlyStage(e, k, calls + [SessionCloseSet(true), WdtFeed], g.state)
  }

  /** The config loop of arrow_gateway_initialize_routine, entered in `t`. */
  function ConfigOnlyStage(e: Env, k: nat, before: seq<Call>, t: State): Run<Outcome>
    requires e.maxAttempts >= 1
  {
    AfterConfigOnly(before, RetryFresh(e, t, k + |before|, GatewayConfigStep))
  }

  /** The end of arrow_gateway_initialize_routine after the config loop `c`. */
  function AfterConfigOnly(before: seq<Call>, c: RetryOutcome): Run<Outcome>
  {
    if c.gaveUp then Run(c.state, before + c.calls, Error)
    else Run(Initialized(c.state), before + c.calls, Success)
  }

  // ---------------------------------------------------------------------
  // Guarded operations
  // ---------------------------------------------------------------------

  /** arrow_device_states_sync: receives the states before the guard. */
  function DeviceStatesSync(s: State): Run<Outcome>
  {
    if !s.initDone then Run(s, [StateReceive], Error)
    else Run(s, [StateReceive, PostStateRequest], Success)
  }

  /** arrow_device_states_update. */
  function DeviceStatesUpdate(s: State): Run<Outcome>
  {
    if !s.initDone then Run(s, [], Error)
    else Run(s, [PostStateUpdate], Success)
  }

  /** arrow_send_telemetry_routine. */
  function SendTelemetryRoutine(e: Env, s: State, k: nat): Run<Outcome>
    requires e.maxAttempts >= 1
  {
    if !s.initDone then Run(s, [], NotInitialize)
    else
      var r := RetryFresh(e, s, k + 1, SendTelemetryStep);
      Run(r.state, [WdtFeed] + r.calls, if r.gaveUp then Error else Success)
  }

  /** A bit of _init_mqtt is set. */
  predicate HasBit(mask: bv8, bit: bv8)
  {
    mask & bit != 0
  }

  /** arrow_mqtt_connect_telemetry_routine. */
  function ConnectTelemetryRoutine(e: Env, s: State, k: nat): Run<Outcome>
    requires e.maxAttempts >= 1
  {
    if HasBit(s.mask, TelemetryBit) then Run(s, [], Error)
    else
      var r := RetryFresh(e, s, k, TelemetryConnectStep);
      if r.gaveUp then Run(r.state, r.calls, MqttConnectFailed)
      else Run(SetBit(r.state, TelemetryBit), r.calls, Success)
  }

  /** One call whose negative result is ROUTINE_ERROR. */
  function Checked(e: Env, s: State, k: nat, c: Call): Run<Outcome>
  {
    Run(s, [c], if e.oracle(k).code < 0 then Error else Success)
  }

  /** arrow_mqtt_disconnect_telemetry_routine: terminates, but leaves the mask alone. */
  function DisconnectTelemetryRoutine(e: Env, s: State, k: nat): Run<Outcome>
  {
    if !HasBit(s.mask, TelemetryBit) then Run(s, [], Error)
    else Checked(e, s, k, TelemetryTerminate)
  }

  /** arrow_mqtt_terminate_telemetry_routine. */
  function TerminateTelemetryRoutine(e: Env, s: State, k: nat): Run<Outcome>
  {
    Checked(e, s, k, TelemetryTerminate)
  }

  /** arrow_mqtt_connect_event_routine. */
  function ConnectEventRoutine(e: Env, s: State, k: nat): Run<Outcome>
    requires e.maxAttempts >= 1
  {
    if HasBit(s.mask, CommandBit) then Run(s, [], Error)
    else
      var r := RetryFresh(e, s, k, SubscribeConnectStep);
      if r.gaveUp then Run(r.state, r.calls, MqttSubscribeFailed)
      else Run(SetBit(r.state, CommandBit), r.calls, Success)
  }

  /** arrow_mqtt_subscribe_event_routine. */
  function SubscribeEventRoutine(e: Env, s: State, k: nat): Run<Outcome>
    requires e.maxAttempts >= 1
  {
    var r := RetryFresh(e, s, k, SubscribeStep);
    if r.gaveUp then Run(r.state, r.calls, MqttSubscribeFailed)
    else Run(SetBit(r.state, CommandBit), r.calls, Success)
  }

  /** arrow_mqtt_disconnect_event_routine. */
  function DisconnectEventRoutine(e: Env, s: State, k: nat): Run<Outcome>
  {
    if !HasBit(s.mask, CommandBit) then Run(s, [], Error)
    else Checked(e, s, k, SubscribeDisconnect)
  }

  /** arrow_mqtt_terminate_event_routine. */
  function TerminateEventRoutine(e: Env, s: State, k: nat): Run<Outcome>
  {
    Checked(e, s, k, SubscribeTerminate)
  }

  /** The mapping of mqtt_yield's result. */
  function EventMapping(e: Env, y: int): Outcome
  {
    if y > 0 then ReceiveEvent else if y == e.failureRequiresRestart then Error else Success
  }

  /** arrow_mqtt_event_receive_routine. */
  function EventReceiveRoutine(e: Env, s: State, k: nat): Run<Outcome>
  {
    if !s.initDone || !HasBit(s.mask, CommandBit) then Run(s, [], NotInitialize)
    else Run(s, [Yield(e.telemetryDelay), WdtFeed], EventMapping(e, e.oracle(k).code))
  }

  /** arrow_mqtt_connect_routine: telemetry, then events, then postponed messages. */
  function MqttConnectRoutine(e: Env, s: State, k: nat): Run<Outcome>
    requires e.maxAttempts >= 1
  {
    if !s.initDone then Run(s, [], NotInitialize)
    else EventChannelStage(e, k, ConnectTelemetryRoutine(e, s, k))
  }

  /** After the telemetry channel `t`: the event channel, unless `t` failed. */
  function EventChannelStage(e: Env, k: nat, t: Run<Outcome>): Run<Outcome>
    requires e.maxAttempts >= 1
  {
    if t.value != Success then t
    else PostponedStage(e, k + |t.calls|, t.calls, ConnectEventRoutine(e, t.state, k + |t.calls|))
  }

  /**
   * After the event channel `v`, opened after the calls `before`: the
   * postponed messages, unless `v` failed; the routine then succeeds
   * whatever they give.
   */
  function PostponedStage(e: Env, k: nat, before: seq<Call>, v: Run<Outcome>): Run<Outcome>
    requires e.maxAttempts >= 1
  {
    if v.value != Success then Then(before, v)
    else
      var p := ProcessPostponed(e, v.state, k + |v.calls|);
      Run(p.state, before + v.calls + p.calls, Success)
  }

  /**
   * The postponed-message step of arrow_mqtt_connect_routine: one poll of
   * the event channel, and a subscription unless that poll received an
   * event. Its result is ignored.
   */
  function ProcessPostponed(e: Env, s: State, k: nat): Run<Outcome>
    requires e.maxAttempts >= 1
  {
    var received := EventReceiveRoutine(e, s, k);
    if received.value != ReceiveEvent then
      var sub := SubscribeEventRoutine(e, received.state, k + |received.calls|);
      Run(sub.state, received.calls + sub.calls, sub.value)
    else received
  }

  /** arrow_mqtt_disconnect_routine. */
  function MqttDisconnectRoutine(s: State): Run<Outcome>
  {
    if s.mask != 0 then Run(ClearMask(s), [MqttDisconnect], Success)
    else Run(s, [], Error)
  }

  /** arrow_mqtt_terminate_routine. */
  function MqttTerminateRoutine(s: State): Run<Outcome>
  {
    Run(ClearMask(s), [MqttTerminate], Success)
  }

  /** arrow_mqtt_pause_routine. */
  function MqttPauseRoutine(s: State, pause: int): Run<Outcome>
  {
    Run(s, [MqttPause(pause)], Success)
  }

  /** arrow_close: the MQTT session and the state machine are stopped, then the hids released. */
  function Close(e: Env, s: State, k: nat): Run<()>
  {
    var stop := StopMqtt(e, s, k);
    Then(stop.calls, ReleaseAll(stop.state))
  }

  /** The first half of arrow_close: MQTT terminated, the state machine stopped if it is running. */
  function StopMqtt(e: Env, s: State, k: nat): Run<()>
  {
    var stop := if e.oracle(k + 1).code != 0 then [StateMqttStop] else [];
    Run(ClearMask(s), [MqttTerminate, StateMqttIsRunning] + stop, ())
  }

  /** The second half of arrow_close: an initialized session frees the device, the gateway and its config. */
  function ReleaseAll(s: State): Run<()>
  {
    if s.initDone then
      Run(Freed(Freed(s.(initDone := false), FreeDevice), FreeGateway), [FreeDevice, FreeGateway, FreeGatewayConfig], ())
    else Run(s, [], ())
  }

  /** arrow_mqtt_check_init. */
  function CheckInit(s: State): Outcome
  {
    if !s.initDone || !HasBit(s.mask, CommandBit) then NotInitialize else Success
  }

  // ---------------------------------------------------------------------
  // Telemetry loops
  // ---------------------------------------------------------------------

  /**
   * The two while(1) loops: arrow_mqtt_send_telemetry_routine receives MQTT
   * traffic for TELEMETRY_DELAY and checks for events; arrow_mqtt_telemetry_routine
   * only sleeps.
   */
  datatype LoopKind = WithEvents | SleepOnly

  /** The calls a cycle makes before it asks the producer for data. */
  function CycleStart(e: Env, kind: LoopKind): seq<Call>
  {
    if kind == WithEvents then [MqttReceive(e.telemetryDelay), HasEvents] else [Sleep(e.telemetryDelay)]
  }

  /** One cycle of a telemetry loop; a None value means the loop goes on. */
  function Cycle(e: Env, s: State, k: nat, kind: LoopKind): Run<Option<Outcome>>
  {
    var start := CycleStart(e, kind);
    if kind == WithEvents && e.oracle(k + 1).code != 0 then Run(s, start, Some(ReceiveEvent))
    else Then(start, Produce(e, s, k + |start|))
  }

  /**
   * The second half of a cycle: ask the producer for data; an error ends
   * the loop, no data goes round again, data is published.
   */
  function Produce(e: Env, s: State, k: nat): Run<Option<Outcome>>
  {
    var data := e.oracle(k).code;
    if data < 0 then Run(s, [ProduceData], Some(GetTelemetryFailed))
    else if data > 0 then Run(s, [ProduceData], None)
    else Run(s, [ProduceData, WdtFeed, Publish], if e.oracle(k + 2).code < 0 then Some(MqttPublishFailed) else None)
  }

  /** The cycles of one loop: the cycle whose first call has a given index. */
  function CycleOf(e: Env, s: State, kind: LoopKind): nat -> Run<Option<Outcome>>
  {
    (k: nat) => Cycle(e, s, k, kind)
  }

  /**
   * At most `fuel` cycles from call index k, each in state s; a None value
   * is a loop still running.
   */
  function Loop(cycle: nat -> Run<Option<Outcome>>, s: State, k: nat, fuel: nat): Run<Option<Outcome>>
    decreases fuel
  {
    if fuel == 0 then Run(s, [], None)
    else
      var c := cycle(k);
      if c.value.Some? then c else Then(c.calls, Loop(cycle, s, k + |c.calls|, fuel - 1))
  }

  /** The readiness guard of each loop. */
  predicate LoopReady(s: State, kind: LoopKind)
  {
    s.initDone && HasBit(s.mask, TelemetryBit) && (kind == SleepOnly || HasBit(s.mask, CommandBit))
  }

  /** arrow_mqtt_send_telemetry_routine (WithEvents) and arrow_mqtt_telemetry_routine (SleepOnly). */
  function TelemetryRoutine(e: Env, s: State, k: nat, kind: LoopKind, fuel: nat): Run<Option<Outcome>>
  {
    if !LoopReady(s, kind) then Run(s, [], Some(NotInitialize))
    else Then([WdtFeed], Loop(CycleOf(e, s, kind), s, k + 1, fuel))
  }

  /** arrow_mqtt_telemetry_once_routine. */
  function TelemetryOnceRoutine(e: Env, s: State, k: nat): Run<Outcome>
  {
    if !LoopReady(s, SleepOnly) then Run(s, [], NotInitialize)
    else if e.oracle(k + 1).code != 0 then Run(s, [WdtFeed, ProduceData], GetTelemetryFailed)
    else Run(s, [WdtFeed, ProduceData, Publish], if e.oracle(k + 2).code < 0 then MqttPublishFailed else Success)
  }
}
