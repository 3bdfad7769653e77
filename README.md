# A verified model of the Arrow Connect device SDK core

This project models five pieces of the Arrow Connect / Konexios device SDK in
Dafny and proves what each of them promises.

- **The session routines** (`src/arrow/routine.c`). This is the state machine
  a device application drives. The module globals `_init_done`, `_init_mqtt`
  (the telemetry bit 0x01 and the command bit 0x02), `_gateway` and `_device`
  become the fields of a class `Routine.Session`. Every collaborator call
  (HTTP API, storage, MQTT, `wdt_feed`, `msleep`, the data producer) is
  appended to the session's `trace`. The `k`-th call of a session receives
  the reply `oracle(k)` of its environment.
  - Each method follows the C function step by step: the `RETRY_UP` loops
    become `while` loops with a retry counter. Each method ends where the
    function of the same name in `RoutineSpec` says.
  - `RoutineLemmas` proves the routines' promises about those functions:
    - the restore-or-register decisions;
    - phase-by-phase retry budgets with the cleanup order of the `goto`
      labels;
    - the readiness guards;
    - the channel bits;
    - the telemetry loop never publishes data the producer did not declare
      ready;
    - the order of shutdown.
- **HTTP requests and responses** (`src/http/request.c`):
  - the method and scheme tables;
  - the splitting of `scheme://host:port/uri` into the request fields, with
    `sscanf("%8hu")` modelled digit by digit, including its 16-bit
    wrap-around;
  - header and query lists that grow at the tail;
  - a response payload that grows chunk by chunk.
- **Dynamic string properties** (`src/data/property_dynamic.c`). Heap blocks
  are objects, so a shared value and a duplicated value can be told apart.
  The model covers copy, weak, move, destroy, concat, the two constructors,
  and the static-buffer `static_strndup`.
- **The gateway API** (`src/konexios/api/gateway/gateway.c`):
  - the URI each `_*_init` callback formats into its chunk of `URI_LEN`
    characters, with the method and body;
  - the decisions of the config, register and update response callbacks,
    taken over a JSON tree shaped after `JsonTag`.
- **Byte order** (`src/bsd/inet.c`): `htons`, `ntohs`, `htonl` and `ntohl`
  on `bv16`/`bv32`. They swap unconditionally, which is the little-endian
  host case.

Some build constants are not fixed by the files modelled here. These are the
`RETRY_UP` attempt limit, `TELEMETRY_DELAY` and `FAILURE_REQUIRES_RESTART`,
and they are fields of the session's environment `Env`.
- `RETRY_UP(retry, fail)` is taken to run `fail` once `++retry` reaches the
  limit. `RETRY_CR(retry)` is taken to reset the counter to 0.
- The delays are `ARROW_RETRY_DELAY` (3000) and `MQTT_RETRY_DELAY` (6000).
- `IS_EMPTY(hid)` (src/arrow/routine.c:77, 104) is taken to test for a NULL hid, which the model writes as None. `IS_EMPTY` is defined in a file that is not part of this model.
- `KONEXIOS_API_GATEWAY_ENDPOINT` is taken to be `ARROW_API_GATEWAY_ENDPOINT`, "/api/v1/kronos/gateways" (include/config/api.h:46). `URI_LEN` (124), the 89-character hid bound of `ShortHidFits` and the 93-character hid of the last finding all depend on that length.

The property macros and flags are defined in the property headers, which
are not part of this model. The HTTP request and response model takes them to mean:
- `is_dynamic` is `PROPERTY_DYNAMIC_TAG | is_owner`, the flags `dynmc_copy`
  gives a duplicate (src/data/property_dynamic.c:65). This selects the growing
  branch of `http_response_add_payload` (src/http/request.c:217-218), so the
  "de" outcome of the second finding and the release in
  `Response.AddPayload` depend on it.
- `P_COPY` behaves as `dynmc_copy` (src/data/property_dynamic.c:53-66) for
  every property type, and its allocation succeeds.
- `P_SIZE(p)` is the property's `size` field (src/http/request.c:179, 203,
  212).
- `P_FREE` leaves the property reading as empty (NULL value).
- A const property's size is the length of its text, as for
  `property(CONTENT_TYPE, is_const)`.

Two behaviours are modelled as the code is written:
- `arrow_mqtt_disconnect_telemetry_routine` and
  `arrow_mqtt_disconnect_event_routine` close a channel but do not clear its
  bit. The model follows the code, and `ChannelCloseKeepsMask` states this.
- `arrow_mqtt_connect_routine` returns success once both channels are
  connected, even when the subscribe it makes when no event was pending gave
  up. `MqttConnectSetsBoth` states what remains true then.

## Model

| member | source | states |
|---|---|---|
| `Routine.Session.constructor` | src/arrow/routine.c:26-35 | the module state at load time: not initialized, mask 0, no hids, no calls made |
| `Routine.Session.Do` | src/arrow/routine.c:75-141 | a collaborator call is recorded, receives the reply of its position, and only a restore, registration or free changes the hid it concerns |
| `Routine.Session.ConnectGateway` | src/arrow/routine.c:75-99 | the calls, result and hid of `arrow_connect_gateway` are those of `RoutineSpec.ConnectGateway` |
| `Routine.Session.FindGateway` | src/arrow/routine.c:77-87 | restoring the gateway, then registering on failure or checking in on success, as `RoutineSpec.FindGateway` |
| `Routine.Session.NewGateway` | src/arrow/routine.c:81-85 | registration returns its code on failure without saving, and saves and returns 0 on success |
| `Routine.Session.CheckinAndUpdate` | src/arrow/routine.c:89-98 | a NULL hid returns 0 without a call; otherwise checkin, then update only after a checkin that returned 0 |
| `Routine.Session.ConnectDevice` | src/arrow/routine.c:101-141 | the calls, result and hid of `arrow_connect_device` are those of `RoutineSpec.ConnectDevice` |
| `Routine.Session.FindDevice` | src/arrow/routine.c:106-117 | restoring the device, then registering on failure or updating on success |
| `Routine.Session.NewDevice` | src/arrow/routine.c:107-110 | a failed registration frees the device; a successful one saves it and starts the MQTT state |
| `Routine.Session.KnownDevice` | src/arrow/routine.c:113-117 | a failed device update frees the device; a successful one starts the MQTT state |
| `Routine.Session.Attempt` | src/arrow/routine.c:147-151 | one attempt of a retry loop's body, as `RoutineSpec.Attempt` |
| `Routine.Session.Retry` | src/arrow/routine.c:147-151 | a `RETRY_UP` loop started with a fresh counter ends as `RoutineSpec.RetryFresh` |
| `Routine.Session.RetryWith` | src/arrow/routine.c:147-151 | the loop: attempts until one succeeds or the limit is reached, sleeping after every failure but the last |
| `Routine.Session.SleepAfterFailure` | src/arrow/routine.c:292-295 | the sleep after a failed attempt, and the clearing of the command bit in the subscribe loop |
| `Routine.Session.Initialize` | src/arrow/routine.c:166-210 | `arrow_initialize_routine` ends as `RoutineSpec.InitializeRoutine` |
| `Routine.Session.GatewayStage` | src/arrow/routine.c:173-178 | the gateway phase, then the rest of the initialization |
| `Routine.Session.AfterGatewayPhase` | src/arrow/routine.c:174-181 | give-up frees the gateway and returns the last error; otherwise the counter is reset and the config phase follows |
| `Routine.Session.ConfigStage` | src/arrow/routine.c:182-187 | the config phase, then the rest of the initialization |
| `Routine.Session.AfterConfigPhase` | src/arrow/routine.c:183-191 | give-up frees the config, then the gateway; otherwise the device phase follows |
| `Routine.Session.FreeConfigAndGateway` | src/arrow/routine.c:205-209 | the config is freed, then the gateway, whose hid is emptied |
| `Routine.Session.DeviceStage` | src/arrow/routine.c:190-199 | the device phase, then its end |
| `Routine.Session.AfterDevicePhase` | src/arrow/routine.c:196-209 | give-up frees device, config and gateway in that order; success sets `_init_done` |
| `Routine.Session.GatewayInitialize` | src/arrow/routine.c:143-164 | `arrow_gateway_initialize_routine` ends as `RoutineSpec.GatewayInitializeRoutine` |
| `Routine.Session.GatewayOnlyStage` | src/arrow/routine.c:147-151 | the gateway loop of the gateway-only initialization, then the rest |
| `Routine.Session.AfterGatewayOnly` | src/arrow/routine.c:148-155 | give-up returns ROUTINE_ERROR with nothing freed; otherwise the config loop follows |
| `Routine.Session.ConfigOnlyStage` | src/arrow/routine.c:156-163 | the config loop; success sets `_init_done` |
| `Routine.Session.DeviceStatesSync` | src/arrow/routine.c:212-217 | `arrow_state_receive` is always called; the state request is posted only when initialized |
| `Routine.Session.DeviceStatesUpdate` | src/arrow/routine.c:219-223 | ROUTINE_ERROR without a call when not initialized; otherwise the state update is posted |
| `Routine.Session.SendTelemetry` | src/arrow/routine.c:225-238 | `arrow_send_telemetry_routine` ends as `RoutineSpec.SendTelemetryRoutine` |
| `Routine.Session.ConnectTelemetry` | src/arrow/routine.c:242-255 | the bit guard, the MQTT-delay connect loop, and the telemetry bit set on success |
| `Routine.Session.Checked` | src/arrow/routine.c:261-264 | an MQTT call whose negative result is ROUTINE_ERROR |
| `Routine.Session.DisconnectTelemetry` | src/arrow/routine.c:257-265 | ROUTINE_ERROR without a call unless the telemetry bit is set; the mask is never changed |
| `Routine.Session.TerminateTelemetry` | src/arrow/routine.c:267-272 | terminates the telemetry client; ROUTINE_ERROR on a negative result |
| `Routine.Session.ConnectEvent` | src/arrow/routine.c:276-288 | the bit guard, the subscribe-connect loop, and the command bit set on success |
| `Routine.Session.SubscribeEvent` | src/arrow/routine.c:289-299 | the subscribe loop clears the command bit after each sleep and sets it on success |
| `Routine.Session.DisconnectEvent` | src/arrow/routine.c:301-309 | ROUTINE_ERROR without a call unless the command bit is set; the mask is never changed |
| `Routine.Session.TerminateEvent` | src/arrow/routine.c:311-316 | terminates the subscribe client; ROUTINE_ERROR on a negative result |
| `Routine.Session.EventReceive` | src/arrow/routine.c:476-494 | `arrow_mqtt_event_receive_routine` ends as `RoutineSpec.EventReceiveRoutine` |
| `Routine.Session.MqttConnect` | src/arrow/routine.c:320-344 | `arrow_mqtt_connect_routine` ends as `RoutineSpec.MqttConnectRoutine` |
| `Routine.Session.EventChannelStage` | src/arrow/routine.c:328-336 | after the telemetry channel, the event channel is connected, and a failure of either is returned |
| `Routine.Session.PostponedStage` | src/arrow/routine.c:339-343 | after both channels, the event poll and the subscribe it may call; the result is success |
| `Routine.Session.ProcessPostponed` | src/arrow/routine.c:339-341 | the subscribe is called exactly when the event poll did not report an event |
| `Routine.Session.MqttDisconnect` | src/arrow/routine.c:346-353 | disconnects and zeroes the mask when it is nonzero, and returns ROUTINE_ERROR otherwise |
| `Routine.Session.MqttTerminate` | src/arrow/routine.c:355-359 | terminates MQTT and zeroes the mask |
| `Routine.Session.MqttPause` | src/arrow/routine.c:361-364 | passes the pause on and returns ROUTINE_SUCCESS |
| `Routine.Session.Close` | src/arrow/routine.c:410-420 | `arrow_close` ends as `RoutineSpec.Close` |
| `Routine.Session.StopMqtt` | src/arrow/routine.c:411-413 | MQTT is terminated first, and the MQTT state is stopped only if it is running |
| `Routine.Session.ReleaseAll` | src/arrow/routine.c:414-419 | when initialized, device, gateway and config are freed and `_init_done` cleared; otherwise nothing changes |
| `Routine.Session.FreeAll` | src/arrow/routine.c:415-418 | the three frees in order, and `_init_done` cleared |
| `Routine.Session.CheckInit` | src/arrow/routine.c:496-503 | ROUTINE_NOT_INITIALIZE unless initialized with the command bit set |
| `Routine.Session.TelemetryCycle` | src/arrow/routine.c:377-406 | one pass of the loop body, as `RoutineSpec.Cycle` |
| `Routine.Session.Produce` | src/arrow/routine.c:385-397 | the producer's result is classified, and publishing happens only on 0 |
| `Routine.Session.Round` | src/arrow/routine.c:377-406 | one cycle in the loop's unchanged state |
| `Routine.Session.Telemetry` | src/arrow/routine.c:366-454 | both `while(1)` telemetry loops end as `RoutineSpec.TelemetryRoutine` |
| `Routine.Session.Cycles` | src/arrow/routine.c:377-406 | the cycles run until one returns, or the fuel runs out |
| `Routine.Session.TelemetryOnce` | src/arrow/routine.c:456-474 | `arrow_mqtt_telemetry_once_routine` ends as `RoutineSpec.TelemetryOnceRoutine` |
| `RoutineSpec.ConnectGateway` | src/arrow/routine.c:75-99 | connecting the gateway keeps `_init_done`, the mask and the device hid, and never sleeps |
| `RoutineSpec.CheckinAndUpdate` | src/arrow/routine.c:89-98 | checkin and update change no state and never sleep |
| `RoutineSpec.ConnectDevice` | src/arrow/routine.c:101-141 | connecting the device keeps `_init_done`, the mask and the gateway hid, and never sleeps |
| `RoutineSpec.Attempt` | src/arrow/routine.c:147-151 | every loop body makes at least one call, keeps the flags and does not sleep |
| `RoutineSpec.FindGateway` | src/arrow/routine.c:77-87 | restore, then registration on failure or the checkin tail on success |
| `RoutineSpec.NewGateway` | src/arrow/routine.c:81-85 | registration; saved and 0 on success, its code on failure |
| `RoutineSpec.FindDevice` | src/arrow/routine.c:106-117 | restore, then registration on failure or the update on success |
| `RoutineSpec.NewDevice` | src/arrow/routine.c:107-110 | registration; freed on failure, saved with the MQTT state started on success |
| `RoutineSpec.KnownDevice` | src/arrow/routine.c:113-117 | the device update; freed on failure, MQTT state started on success |
| `RoutineSpec.Retry` | src/arrow/routine.c:147-151 | the `RETRY_UP` loop from a counter value, as RetryAttempts and RetrySleeps state |
| `RoutineSpec.RetryFresh` | src/arrow/routine.c:145-151 | the loop after `RETRY_CR`, with the counter at zero |
| `RoutineSpec.InitializeRoutine` | src/arrow/routine.c:166-210 | `arrow_initialize_routine`, as InitializePhases and InitializeTrace state |
| `RoutineSpec.GatewayStage` | src/arrow/routine.c:173-178 | the gateway loop and the rest of the initialization |
| `RoutineSpec.AfterGatewayPhase` | src/arrow/routine.c:174-181 | the gateway free on give-up, or the config phase |
| `RoutineSpec.ConfigStage` | src/arrow/routine.c:182-187 | the config loop and the rest of the initialization |
| `RoutineSpec.AfterConfigPhase` | src/arrow/routine.c:183-191 | the config and gateway frees on give-up, or the device phase |
| `RoutineSpec.DeviceStage` | src/arrow/routine.c:190-199 | the device loop and its end |
| `RoutineSpec.AfterDevicePhase` | src/arrow/routine.c:196-209 | the three frees on give-up, or `_init_done` set |
| `RoutineSpec.GatewayInitializeRoutine` | src/arrow/routine.c:143-164 | `arrow_gateway_initialize_routine`, as GatewayInitializeOutcome states |
| `RoutineSpec.DeviceStatesSync` | src/arrow/routine.c:212-217 | the receive call, then the state request only when initialized |
| `RoutineSpec.DeviceStatesUpdate` | src/arrow/routine.c:219-223 | the state update only when initialized |
| `RoutineSpec.SendTelemetryRoutine` | src/arrow/routine.c:225-238 | `arrow_send_telemetry_routine`, as SendTelemetryRetries states |
| `RoutineSpec.ConnectTelemetryRoutine` | src/arrow/routine.c:242-255 | `arrow_mqtt_connect_telemetry_routine`, as ConnectTelemetryFlags states |
| `RoutineSpec.DisconnectTelemetryRoutine` | src/arrow/routine.c:257-265 | the disconnect, refused on a clear bit, as ChannelCloseKeepsMask states |
| `RoutineSpec.TerminateTelemetryRoutine` | src/arrow/routine.c:267-272 | the terminate call, as ChannelCloseKeepsMask states |
| `RoutineSpec.ConnectEventRoutine` | src/arrow/routine.c:276-288 | `arrow_mqtt_connect_event_routine`, as ConnectEventFlags states |
| `RoutineSpec.SubscribeEventRoutine` | src/arrow/routine.c:289-299 | `arrow_mqtt_subscribe_event_routine`, as SubscribeFlags states |
| `RoutineSpec.DisconnectEventRoutine` | src/arrow/routine.c:301-309 | the disconnect, refused on a clear bit, as ChannelCloseKeepsMask states |
| `RoutineSpec.TerminateEventRoutine` | src/arrow/routine.c:311-316 | the terminate call, as ChannelCloseKeepsMask states |
| `RoutineSpec.MqttConnectRoutine` | src/arrow/routine.c:320-344 | `arrow_mqtt_connect_routine`, as MqttConnectStopsOnTelemetry and MqttConnectSetsBoth state |
| `RoutineSpec.EventReceiveRoutine` | src/arrow/routine.c:476-494 | `arrow_mqtt_event_receive_routine`, as EventPollMapping and ChannelGuards state |
| `RoutineSpec.MqttDisconnectRoutine` | src/arrow/routine.c:346-353 | `arrow_mqtt_disconnect_routine`, as DisconnectRoutine states |
| `RoutineSpec.MqttTerminateRoutine` | src/arrow/routine.c:355-359 | the terminate call and the mask zeroed |
| `RoutineSpec.MqttPauseRoutine` | src/arrow/routine.c:361-364 | the pause passed on, and success |
| `RoutineSpec.Close` | src/arrow/routine.c:410-420 | `arrow_close`, as CloseOrder states |
| `RoutineSpec.CheckInit` | src/arrow/routine.c:496-503 | `arrow_mqtt_check_init`, as ChannelGuards states |
| `RoutineSpec.Cycle` | src/arrow/routine.c:378-397 | one cycle of a loop, as CycleOutcome states |
| `RoutineSpec.Produce` | src/arrow/routine.c:385-397 | the producer call and the publish, as CycleOutcome states |
| `RoutineSpec.Loop` | src/arrow/routine.c:377-406 | cycles until one returns, within the fuel, as LoopRunsSafely states |
| `RoutineSpec.TelemetryRoutine` | src/arrow/routine.c:366-454 | both telemetry loops, as TelemetryRoutinePublishesOnlyReadyData and ChannelGuards state |
| `RoutineSpec.TelemetryOnceRoutine` | src/arrow/routine.c:456-474 | `arrow_mqtt_telemetry_once_routine`, as TelemetryOnce and ChannelGuards state |
| `RoutineLemmas.ConnectGatewayRegisters` | src/arrow/routine.c:77-86 | with an empty hid and a failed restore, registration is called. A failure returns its code without saving. A success saves and returns 0, with no checkin or update |
| `RoutineLemmas.ConnectGatewayChecksIn` | src/arrow/routine.c:77-98 | on every branch, as implications: registration excludes checkin and update; saving follows a successful registration; update follows checkin only after a checkin that returned 0; the last call's result is returned |
| `RoutineLemmas.ConnectGatewayKnown` | src/arrow/routine.c:76-98 | a gateway with a hid is neither restored nor registered but checked in; the update is called exactly when the checkin returned 0; the reply to the last call is returned; the state is unchanged |
| `RoutineLemmas.ConnectGatewayRestored` | src/arrow/routine.c:77-98 | a restored gateway is never registered. A NULL restored hid returns 0 with no checkin. A restored hid is checked in, updated exactly after a checkin that returned 0, and the last call's reply is returned |
| `RoutineLemmas.ConnectDeviceKnown` | src/arrow/routine.c:103-105 | a device with a hid returns success after its preparation, with no restore, registration or MQTT start |
| `RoutineLemmas.ConnectDeviceFailure` | src/arrow/routine.c:106-140 | a failed registration or update frees the device, saves nothing, never starts MQTT and returns the failing code |
| `RoutineLemmas.ConnectDeviceSuccess` | src/arrow/routine.c:106-137 | on success the MQTT state is started exactly once, as the last call, after the restore and then the registration and save or the update |
| `RoutineLemmas.RetryAttempts` | src/arrow/routine.c:147-151 | a retry loop stops at its first success: every attempt before the last failed, the last one's result is the loop's, and it makes between 1 and the limit of attempts, giving up exactly on a failure at the limit |
| `RoutineLemmas.RetrySleeps` | src/arrow/routine.c:147-151 | every attempt but the last failed, and the loop sleeps once after each of them: one sleep fewer than attempts |
| `RoutineLemmas.RetryWithin` | src/arrow/routine.c:147-151 | a loop calls nothing but its body's calls and its sleep |
| `RoutineLemmas.RetryFlags` | src/arrow/routine.c:289-296 | a loop keeps `_init_done`; only the subscribe loop changes the mask, clearing the command bit once it has slept |
| `RoutineLemmas.RetryCallCount` | src/arrow/routine.c:231-235 | a one-call loop makes its call once per attempt |
| `RoutineLemmas.RetryLastCall` | src/arrow/routine.c:231-235 | a one-call loop ends with its call, and reports that call's reply |
| `RoutineLemmas.RetryFreshBudget` | src/arrow/routine.c:170-199 | any loop started with `RETRY_CR` has the full budget, whatever earlier loops used |
| `RoutineLemmas.RetryCallLoop` | src/arrow/routine.c:242-299 | one-call loops count their attempts and calls, end with their call, and keep the hids |
| `RoutineLemmas.RetryCallShape` | src/arrow/routine.c:231-235 | a one-call loop alternates its call and its sleep, starting and ending with the call; the replies to all attempts but the last failed, and the last reply is the loop's result |
| `RoutineLemmas.RetryCallReplies` | src/arrow/routine.c:231-235 | a one-call loop started with `RETRY_CR` has that shape, and gives up exactly when the replies to all of its attempts up to the limit failed |
| `RoutineLemmas.InitializePhases` | src/arrow/routine.c:166-210 | the phases run in order, each with its own budget. `_init_done` is set only when all three succeed. A failing phase returns a negative error and frees gateway; config then gateway; or device, config then gateway |
| `RoutineLemmas.InitializeTrace` | src/arrow/routine.c:166-210 | the trace is the settings, the gateway loop, a feed and the config loop, then a feed, the session setting and the device loop, each loop entered where the one before left the state. The first loop that gives up ends the run with its frees, and its last attempt's result is returned. Three successful loops return success |
| `RoutineLemmas.PhaseBudgetsIndependent` | src/arrow/routine.c:181-199 | a config or device phase that gives up made all of its own attempts, however many the earlier phases used |
| `RoutineLemmas.GatewayInitializeOutcome` | src/arrow/routine.c:143-164 | the gateway-only routine returns success (and sets `_init_done`) or ROUTINE_ERROR, keeps the mask and frees nothing |
| `RoutineLemmas.NotInitializedGuards` | src/arrow/routine.c:212-228 | with `_init_done` clear, the send, update, sync, connect, telemetry, once, receive and check routines refuse; only sync makes its receive call |
| `RoutineLemmas.ChannelGuards` | src/arrow/routine.c:366-503 | the two loops, the single publish and the event poll make no call and return NOT_INITIALIZE exactly when their bits are not set. These are the telemetry bit (and also the command bit for the loop with events), or the command bit for the poll. The check succeeds exactly when initialized with the command bit set |
| `RoutineLemmas.SendTelemetryRetries` | src/arrow/routine.c:225-238 | once initialized, a feed, then sends and sleeps in turn, where every send but the last failed. It returns ROUTINE_ERROR exactly when all attempts up to the limit failed, and changes no state |
| `RoutineLemmas.ConnectTelemetryFlags` | src/arrow/routine.c:242-255 | a set telemetry bit refuses with nothing changed. Otherwise connects and sleeps alternate, and the result is success exactly when some reply up to the limit did not fail. Success sets only that bit; give-up returns CONNECT_FAILED with the mask unchanged |
| `RoutineLemmas.ConnectEventFlags` | src/arrow/routine.c:276-288 | a set command bit refuses with nothing changed. Otherwise subscribe-connects and sleeps alternate, and the result is success exactly when some reply up to the limit did not fail. Success sets only that bit; give-up returns SUBSCRIBE_FAILED with the mask unchanged |
| `RoutineLemmas.SubscribeFlags` | src/arrow/routine.c:289-299 | subscribes and sleeps alternate, and the result is success exactly when some reply up to the limit did not fail. Success sets the command bit; give-up returns SUBSCRIBE_FAILED with the bit cleared when a sleep happened |
| `RoutineLemmas.BitsIndependent` | src/arrow/routine.c:31-34 | setting or clearing one channel bit leaves the other as it was |
| `RoutineLemmas.ChannelCloseKeepsMask` | src/arrow/routine.c:257-316 | disconnect and terminate of either channel never change the state; disconnect refuses when the bit is clear |
| `RoutineLemmas.DisconnectRoutine` | src/arrow/routine.c:346-353 | ROUTINE_ERROR exactly when the mask is 0; otherwise one disconnect call and the mask zeroed |
| `RoutineLemmas.EventPollMapping` | src/arrow/routine.c:476-494 | yield > 0 gives RECEIVE_EVENT, `FAILURE_REQUIRES_RESTART` gives ROUTINE_ERROR, anything else gives SUCCESS, after the yield and a feed |
| `RoutineLemmas.MqttConnectStopsOnTelemetry` | src/arrow/routine.c:326-330 | a failed telemetry connect is returned, and the event channel is never tried |
| `RoutineLemmas.MqttConnectSetsBoth` | src/arrow/routine.c:320-344 | success exactly when both channels connect. The telemetry bit is then set, and a cleared command bit means a subscribe was retried |
| `RoutineLemmas.PostponedFlags` | src/arrow/routine.c:339-341 | the poll and subscribe keep the telemetry bit, and clear the command bit only in a retried subscribe |
| `RoutineLemmas.CloseOrder` | src/arrow/routine.c:410-420 | MQTT is terminated before anything is freed. The frees (device, gateway, config) and the clearing of `_init_done` happen exactly when initialized |
| `RoutineLemmas.CycleOutcome` | src/arrow/routine.c:377-397 | a pending event returns before the producer runs. A negative producer result fails, a positive one skips publishing, and 0 feeds and publishes, where a failed publish ends the loop |
| `RoutineLemmas.CycleSafe` | src/arrow/routine.c:377-406 | a cycle keeps the state, publishes only ready data, and returns only its three outcomes |
| `RoutineLemmas.LoopRunsSafely` | src/arrow/routine.c:377-406 | any number of cycles keep the state and publish only data the producer declared ready |
| `RoutineLemmas.TelemetryRoutinePublishesOnlyReadyData` | src/arrow/routine.c:366-454 | a ready loop starts with a watchdog feed, never publishes data the producer did not return 0 for, and stops only with RECEIVE_EVENT, GET_TELEMETRY_FAILED or PUBLISH_FAILED |
| `RoutineLemmas.TelemetryOnce` | src/arrow/routine.c:456-474 | any nonzero producer result is GET_TELEMETRY_FAILED with no publish; otherwise exactly one publish, whose failure is PUBLISH_FAILED |
| `HttpRequest.GetEntry` | src/http/request.c:43-48 | the table entry for an index in `[0, count)`, NULL outside |
| `HttpRequest.IndexOf` | src/http/request.c:29-35 | the first index whose entry equals the text, or -1 exactly when none does |
| `HttpRequest.Cmp` | src/http/request.c:29-35 | the `strcmp` loop returns `IndexOf` |
| `HttpRequest.IndexOfN` | src/http/request.c:36-42 | the first index whose entry `strncmp`-matches the text's first n characters, or -1 |
| `HttpRequest.CmpN` | src/http/request.c:36-42 | the `strncmp` loop returns `IndexOfN` |
| `HttpRequest.TablesRoundTrip` | src/http/request.c:25-48 | every method and scheme name looks up to its own index, and back |
| `HttpRequest.StrnEqIsPrefix` | src/http/request.c:36-42 | `strncmp(s, t, n) == 0` means the first n characters of s are a prefix of t |
| `HttpRequest.SchemeIndex` | src/http/request.c:29-35 | the exact lookup the scheme test evidently intends (the prefix lookup the code makes is `SchemeIndexAsWritten`): "http" gives 0, "https" gives 1, anything else gives -1 |
| `HttpRequest.SchemeIndexAgrees` | src/http/request.c:58-60 | the prefix lookup agrees with the exact one whenever the scheme text is not a proper prefix of "http" |
| `HttpRequest.SchemeIndexAsWritten` | src/http/request.c:36-42 | the `cmp_n_Scheme` lookup of request.c:58: -1 or an index into the scheme table |
| `HttpRequest.SchemePrefixAccepted` | src/http/request.c:36-42 | "h://x:1/" with n = 1 selects "http" in the as-written lookup, while the exact lookup refuses "h" |
| `HttpRequest.Find` | src/http/request.c:56-57 | `strstr`: the first occurrence at or after a position, or none |
| `HttpRequest.FindChar` | src/http/request.c:63-64 | the first occurrence of a character, or none |
| `HttpRequest.SkipSpace` | src/http/request.c:68-69 | `sscanf` skips leading white space: a suffix that starts with no space |
| `HttpRequest.LeadingDigits` | src/http/request.c:68-69 | the digits `%8hu` reads: at most eight, all digits, stopping at the first non-digit |
| `HttpRequest.ScanU16` | src/http/request.c:67-70 | the port `%8hu` stores is below 65536 |
| `HttpRequest.ScanUnsigned` | src/http/request.c:67-70 | a text starting with a digit scans to the value of its first eight digits, modulo 65536 |
| `HttpRequest.ScanDecimalPort` | src/http/request.c:67-70 | a port below 65536 written in decimal scans back to itself |
| `HttpRequest.UriOfFirstSlash` | src/http/request.c:72-73 | the uri is the suffix from the first '/' after the port separator, and NULL when there is none |
| `HttpRequest.SplitUrlScheme` | src/http/request.c:56-57 | the scheme text ends at the first "://", and a url without one is refused |
| `HttpRequest.SplitUrlNoPort` | src/http/request.c:62-64 | a url without ':' after the host start is refused |
| `HttpRequest.SplitUrlHost` | src/http/request.c:62-65 | the host is exactly the text between "://" and the next ':' |
| `HttpRequest.SplitComposedUrl` | src/http/request.c:53-73 | a url built from scheme, host, port and path splits back into them |
| `HttpRequest.ExampleUrl` | test/test/test_http_request.c:36-49 | "http://api.arrowconnect.io:80/api/v1/kronos/gateways" gives host, port 80, the uri, scheme "http" and method "GET" |
| `HttpRequest.CopyProp` | src/data/property_dynamic.c:53-66 | `P_COPY`: a non-owner is copied as it is; an owner gives an owned string with the same text and size |
| `HttpRequest.FirstHeader` | src/http/request.c:168-170 | the list head, NULL for an empty list |
| `HttpRequest.NextHeader` | src/http/request.c:172-176 | the next node, NULL after the last node and for NULL |
| `HttpRequest.WalkVisitsInOrder` | src/http/request.c:141-176 | iterating from the first header visits the nodes in the order they were added, then stops |
| `HttpRequest.Request.constructor` | test/test/test_http_request.c:34 | a zeroed static request |
| `HttpRequest.Request.Init` | src/http/request.c:53-87 | `is_corrupt` set exactly when the url has no "://", no ':' after the host, or no port `sscanf` accepts. The method comes from the table. The scheme uses the exact lookup (see Findings), so an unknown scheme gives -1 and NULL without corruption. Host, port and uri are as split. Every field after a failing step is kept |
| `HttpRequest.Request.ReadSplit` | src/http/request.c:56-87 | the steps after the method: scheme, then host and port |
| `HttpRequest.Request.ReadHost` | src/http/request.c:62-87 | the host is stored only when the ':' is found, then the port |
| `HttpRequest.Request.ReadPort` | src/http/request.c:67-87 | the port is stored only when it scans, then the uri and the empty lists and payload |
| `HttpRequest.Request.StorePort` | src/http/request.c:69-86 | a failed scan marks the request corrupt; otherwise port, uri, lists, chunked flag, payload and content type are set |
| `HttpRequest.Request.Close` | src/http/request.c:89-121 | every property released, every header and query node released (the head pointers are not reset; the model's lists become empty), the payload size 0 |
| `HttpRequest.Request.AddHeader` | src/http/request.c:141-150 | the new node is last, the existing nodes keep their order, and the properties are taken as they are |
| `HttpRequest.Request.AddQuery` | src/http/request.c:152-161 | the new query node is last and the existing ones keep their order |
| `HttpRequest.Request.SetContentType` | src/http/request.c:163-166 | key "Content-Type" with the value as given |
| `HttpRequest.Request.SetPayload` | src/http/request.c:178-184 | the size is the property's and the buffer a `P_COPY` of it |
| `HttpRequest.AppendPayload` | src/http/request.c:211-234 | the corrected append (see Findings). An empty buffer takes a copy of the payload and records its size. A dynamic buffer holds old text then new text, with a terminator inside the block. Any other buffer is unchanged |
| `HttpRequest.AppendPayloadAsWritten` | src/http/request.c:211-234 | `http_response_add_payload` as written: the empty branch keeps the old size, and the dynamic branch reports the terminator index, which equals the new size and the block length |
| `HttpRequest.AppendPayloadAccumulates` | src/http/request.c:211-234 | chunks added one after another leave their concatenation |
| `HttpRequest.AppendPayloadAsWrittenLosesText` | src/http/request.c:211-226 | as written, "abc" then "de" on an empty response leaves size 0 after the first chunk, then the text "de" with the terminator at the block's length; the corrected append leaves "abcde" |
| `HttpRequest.Response.constructor` | src/http/request.c:186-194 | the zeroed response the HTTP client is taken to hand in: a NULL header list (the head `http_response_add_header` walks from), no payload, no content type |
| `HttpRequest.Response.Free` | src/http/request.c:123-139 | the payload released with size 0, and every header node released (the head pointer is not reset; the model's list becomes empty) |
| `HttpRequest.Response.AddHeader` | src/http/request.c:186-195 | a node holding copies of key and value goes last |
| `HttpRequest.Response.SetContentType` | src/http/request.c:197-200 | key "Content-Type" with a copy of the value |
| `HttpRequest.Response.SetPayload` | src/http/request.c:202-209 | the size given (or the property's own when 0), and a copy of the property |
| `HttpRequest.Response.AddPayload` | src/http/request.c:211-234 | the payload grows as the corrected `AppendPayload` says (see Findings), and the argument is released exactly after a successful append of a dynamic one |
| `PropertyDynamic.StrLen` | src/data/property_dynamic.c:94-103 | `strlen`: the characters before the first NUL |
| `PropertyDynamic.CString` | src/data/property_dynamic.c:94-103 | the C string a block holds: a NUL-free prefix ending at the first NUL |
| `PropertyDynamic.Strdup` | src/data/property_dynamic.c:48 | the copy holds the same C string and its terminator |
| `PropertyDynamic.Strndup` | src/data/property_dynamic.c:47 | the copy holds at most n characters of the C string and a terminator |
| `PropertyDynamic.Allocate` | src/data/property_dynamic.c:49 | a fresh block with the given contents, or NULL when allocation fails |
| `PropertyDynamic.Free` | src/data/property_dynamic.c:50 | the block is freed and its contents left; `free(NULL)` does nothing |
| `PropertyDynamic.Copy` | src/data/property_dynamic.c:53-66 | from a non-owner, dst shares the block with the same size and flags. From an owner, dst gets a fresh block with the same text and exactly owner and dynamic flags, so `is_raw` is not carried over |
| `PropertyDynamic.Weak` | src/data/property_dynamic.c:68-72 | dst shares the block and size, and its flags are dynamic without ownership |
| `PropertyDynamic.Move` | src/data/property_dynamic.c:74-82 | dst takes block and size. An owning src passes ownership to dst and loses only that bit, so the two are never both owners |
| `PropertyDynamic.Destroy` | src/data/property_dynamic.c:84-88 | the block is freed exactly when the property owns it |
| `PropertyDynamic.Concat` | src/data/property_dynamic.c:90-113 | `dynmc_concat` as written: nothing changes unless dst owns its value. Otherwise dst's block holds dst's text, src's text and a NUL, and its size grows by src's length. On allocation failure the value becomes NULL and the old block stays allocated |
| `PropertyDynamic.ConcatReleasing` | src/data/property_dynamic.c:90-113 | the same, except that on allocation failure the old block is freed |
| `PropertyDynamic.StringToDynamic` | src/data/property_dynamic.c:129-135 | size `strlen`, flags owner and dynamic, and a duplicated C string |
| `PropertyDynamic.RawToDynamic` | src/data/property_dynamic.c:137-143 | size `len`, flags owner, raw and dynamic, and at most `len` characters copied |
| `PropertyDynamic.StaticStrndup` | src/data/property_dynamic.c:20-30 | NULL for a size of 0 or less and when the buffer is full; otherwise exactly `size` characters and a terminator |
| `PropertyDynamic.StaticStrdup` | src/data/property_dynamic.c:32-35 | an empty string gives NULL; otherwise a duplicate of the C string |
| `Json.KeyIndex` | include/json/json.h:127 | the first member with the key, or -1 exactly when there is none |
| `Json.FindMember` | include/json/json.h:127 | NULL for a non-object. Otherwise a node exactly when a member has the key, and then the value of the first such member |
| `Json.MakeObject` | include/json/json.h:152-156 | an object whose members are the appended pairs in order |
| `Json.FindInMadeObject` | include/json/json.h:127-156 | in an object built from distinct keys, each key finds its own value |
| `GatewayApi.MethodNames` | src/konexios/api/gateway/gateway.c:17 | GET, POST and PUT name their table entries, and `URI_LEN` is 124 |
| `GatewayApi.Truncated` | src/konexios/api/gateway/gateway.c:22-23 | `snprintf` leaves a prefix of at most `URI_LEN - 1` characters, and the whole text when it fits |
| `GatewayApi.FormatUri` | src/konexios/api/gateway/gateway.c:22-29 | formatting into the chunk returns the full length and leaves the truncated text; with the terminator write kept inside the chunk |
| `GatewayApi.TerminatorIndexAsWritten` | src/konexios/api/gateway/gateway.c:22-27 | where `uri[ret] = 0x0` writes: nowhere for an empty text, otherwise at the text's full length, which is inside the chunk exactly when the text fits |
| `GatewayApi.ConfigTerminatorPastChunk` | src/konexios/api/gateway/gateway.c:20-27 | with a hid of 93 characters or more, the config request writes its terminator at index `URI_LEN` or beyond |
| `GatewayApi.IndexFrom` | src/konexios/api/gateway/gateway.c:23-26 | the first occurrence of a character at or after a position, or none |
| `GatewayApi.ParseGatewayUri` | src/konexios/api/gateway/gateway.c:23-26 | a URI below the endpoint reads back as a hid without '/' and the path after it |
| `GatewayApi.GatewayUriRoundTrip` | src/konexios/api/gateway/gateway.c:141-187 | every "%s/%s<suffix>" URI reads back as its hid and suffix |
| `GatewayApi.DeviceCommandRoundTrip` | src/konexios/api/gateway/gateway.c:296-300 | the command URI reads back as the gateway hid and "/devices/d_hid/actions/command" |
| `GatewayApi.GatewayUriInjective` | src/konexios/api/gateway/gateway.c:141-187 | distinct hids or distinct paths give distinct URIs |
| `GatewayApi.ShortHidFits` | src/konexios/api/gateway/gateway.c:17-27 | a hid of at most 89 characters makes every gateway URI fit its chunk untruncated |
| `GatewayApi.GatewayRequest` | src/konexios/api/gateway/gateway.c:141-187 | heartbeat, checkin and update are PUT, errors POST, the rest GET; the URI is the truncated text |
| `GatewayApi.GatewayRequestReadsBack` | src/konexios/api/gateway/gateway.c:141-187 | with a short hid the prepared URI reads back as hid and resource |
| `GatewayApi.RequestTable` | src/konexios/api/gateway/gateway.c:20-358 | config GET hid/config; heartbeat PUT hid/heartbeat; checkin PUT hid/checkin; find GET hid; devices GET hid/devices; errors POST hid/errors with {"error"}; update PUT hid with the serialized gateway |
| `GatewayApi.ConfigInit` | src/konexios/api/gateway/gateway.c:20-30 | the config request, whose method and URI `RequestTable` states |
| `GatewayApi.HeartbeatInit` | src/konexios/api/gateway/gateway.c:141-151 | the heartbeat request, as `RequestTable` states |
| `GatewayApi.CheckinInit` | src/konexios/api/gateway/gateway.c:159-169 | the checkin request, as `RequestTable` states |
| `GatewayApi.FindInit` | src/konexios/api/gateway/gateway.c:177-187 | the find request, as `RequestTable` states |
| `GatewayApi.LogsListInit` | src/konexios/api/gateway/gateway.c:237-248 | GET on hid/logs with the search parameters, built by `GatewayRequest` |
| `GatewayApi.DevicesListInit` | src/konexios/api/gateway/gateway.c:265-272 | the devices request, as `RequestTable` states |
| `GatewayApi.ErrorsInit` | src/konexios/api/gateway/gateway.c:324-338 | the errors request with its {"error"} body, as `RequestTable` states |
| `GatewayApi.UpdateInit` | src/konexios/api/gateway/gateway.c:347-358 | the update request with the serialized gateway, as `RequestTable` states |
| `GatewayApi.FindByInit` | src/konexios/api/gateway/gateway.c:211-215 | GET on the endpoint itself with the search parameters |
| `GatewayApi.DeviceCommandInit` | src/konexios/api/gateway/gateway.c:293-310 | GET on the command URI with the command body |
| `GatewayApi.CommandBodyMembers` | src/konexios/api/gateway/gateway.c:304-307 | the body's members are command, deviceHid and payload in that order, and each reads back |
| `GatewayApi.RegisterInit` | src/konexios/api/gateway/gateway.c:109-117 | POST on the endpoint; the gateway is prepared exactly when its uid is empty; a payload is attached exactly when the serialization is not empty |
| `GatewayApi.RegisterProc` | src/konexios/api/gateway/gateway.c:119-133 | 0 exactly on a 200 whose payload parses, -1 otherwise |
| `GatewayApi.RegisterIgnoresParseOnError` | src/konexios/api/gateway/gateway.c:122-125 | a non-200 code fails whatever the parse would give |
| `GatewayApi.UpdateProc` | src/konexios/api/gateway/gateway.c:360-364 | 0 exactly on 200, -1 otherwise |
| `GatewayApi.KeyCalls` | src/konexios/api/gateway/gateway.c:56-67 | each present key is set, and the keys are saved only when both are present |
| `GatewayApi.ConfigDecision` | src/konexios/api/gateway/gateway.c:32-100 | 0 exactly on a 200 whose payload parses with a string "cloudPlatform" and a "key". IoT exactly when the platform is "IotConnect". Key calls only on success |
| `GatewayApi.ConfigIgnoresPayloadOnError` | src/konexios/api/gateway/gateway.c:35-40 | a non-200 code fails with the reset config and no key calls, whatever the payload |
| `GatewayApi.ConfigEmptyKeyObject` | src/konexios/api/gateway/gateway.c:55-71 | a "key" object with neither key still succeeds and calls nothing |
| `GatewayApi.ConfigIoTWithoutKeys` | src/konexios/api/gateway/gateway.c:52-71 | the IoT type is set before the key check, so it survives a missing "key" |
| `GatewayApi.GatewayConfig.constructor` | src/konexios/api/gateway/gateway.c:34-35 | a config starts with the default cloud type |
| `GatewayApi.GatewayConfig.Reset` | src/konexios/api/gateway/gateway.c:35 | `konexios_gateway_config_init` resets the cloud type |
| `GatewayApi.KeyStore.constructor` | src/konexios/api/gateway/gateway.c:59-66 | no key-store calls yet |
| `GatewayApi.KeyStore.Record` | src/konexios/api/gateway/gateway.c:59-66 | one key-store call appended |
| `GatewayApi.ConfigProc` | src/konexios/api/gateway/gateway.c:32-100 | the callback resets the config, then returns, sets the type and makes the key-store calls as `ConfigDecision` says |
| `GatewayApi.RecordKeys` | src/konexios/api/gateway/gateway.c:56-67 | the key-store calls are those of `KeyCalls`, in order |
| `Inet.Htons` | src/bsd/inet.c:12-14 | the result's low and high bytes are the input's high and low bytes |
| `Inet.Ntohs` | src/bsd/inet.c:16-18 | the same swap, and `htons` of the result gives the input back |
| `Inet.Htonl` | src/bsd/inet.c:20-25 | the result's four bytes are the input's in reverse order |
| `Inet.Ntohl` | src/bsd/inet.c:27-29 | the same reversal, and `htonl` of the result gives the input back |
| `Inet.HtonsGivesNetworkOrder` | src/bsd/inet.c:11-14 | stored low byte first (the little-endian host the unconditional swap assumes), the result holds the input's bytes in network order |
| `Inet.HtonlGivesNetworkOrder` | src/bsd/inet.c:11-25 | the same for 32-bit values |
| `Inet.ConversionsAreInvolutions` | src/bsd/inet.c:12-29 | `ntohs(htons(n)) == n`, `htons(ntohs(n)) == n`, and the same for the 32-bit pair |

## Left out

- The `while(1)` telemetry loops (src/arrow/routine.c:377-406, 429-452) run for at most `fuel` cycles. A result of None means the loop is still running; what happens after the last cycle is not modelled.
- The compile-time variants are not modelled. These are `NO_EVENTS`, `NO_SOFTWARE_UPDATE`/`NO_RELEASE_UPDATE` with `CHECK_DEVICE_REG`, the `VALGRIND_TEST` counters and the `__IBM__`/`__AZURE__` configuration blocks. The default build with events and the software-update path is modelled.
- `arrow_init`, `arrow_deinit` and the `current_*` accessors (src/arrow/routine.c:37-73) are left out. They only register property types and hand out the globals.
- Every collaborator of routine.c is an abstract reply from the environment's oracle. This covers the HTTP API calls, MQTT, storage, `msleep`, `wdt_feed` and the producer callback. What those calls do internally is not modelled.
- `RETRY_UP`, `RETRY_CR`, `TELEMETRY_DELAY` and `FAILURE_REQUIRES_RESTART` are defined in files that are not part of this model. The limit and the two constants are parameters; the macros' meaning is stated in the introduction.
- The response callbacks of find, find_by, logs and devices (gateway.c:189-203, 217-221, 250-254, 274-278) are left out. They only pass on the result of list parsers that are not part of this model.
- The `STD_ROUTINE` request/response plumbing and the HTTP client are not part of this model. Neither are `konexios_gateway_parse`, `konexios_gateway_serialize` and `json_decode_property`, which enter as a parse result, a serialization and an optional tree.
- `src/mqtt/client/src/network.c` is not part of this model: it is socket, DNS and TLS plumbing.
- JSON numbers are integers in the tree, not the doubles of include/json/json.h; booleans keep their value. No callback of gateway.c reads either, so only their tags matter.
- `HttpRequest.AppendPayload`: the allocation failure of `realloc` is not modelled, and neither is a relocation of the block. The block is regrown in place.
- `PropertyDynamic.Concat`: `realloc` grows the block in place, so a moved block is not modelled.
- HttpRequest.Request.Init: it selects the scheme with the exact lookup `SchemeIndex`, the corrected half of the first finding. As written, a scheme text that is a proper prefix of "http" (such as "h") gives `is_cipher` 0 and scheme "http"; `SchemeIndexAsWritten` and `SchemePrefixAccepted` model that.
- HttpRequest.Response.AddPayload: it grows the payload by the corrected `AppendPayload` of the second finding. As written the empty branch does not record the size and the terminator lands one past the block; `AppendPayloadAsWritten` and `AppendPayloadAsWrittenLosesText` model that.
- RoutineLemmas.ConnectGatewayChecksIn: a NULL hid is the only empty hid the model knows. A non-NULL hid of length 0 is checked in, since `IS_EMPTY` is not part of this model.
- `HttpRequest.Request.AddHeader`: the header and query linked lists are sequences, so the tail walk of each add and the node-by-node frees of close are not modelled as pointer steps.
- HttpRequest.Request.Close and HttpRequest.Response.Free: the source frees every node but leaves `req->header`, `req->query` and `res->header` pointing at the freed nodes, so a later add would walk freed memory (src/http/request.c:141-142, 187-188). The model resets the lists to empty instead, and does not capture the dangling heads.
- HttpRequest.Response.constructor: request.c has no response initializer. The zeroed response is taken from the HTTP client, which is not part of this model.
- `GatewayApi.FormatUri`: it writes the terminator only inside the chunk. The out-of-bounds write is stated separately as a finding.
- The `ntohs`/`htons` pair when `USER_BYTE_CONVERTER` is defined (src/bsd/inet.c:30-32) is left out, because then the file defines nothing.

## Findings

| source | as written | input that shows it | evidently intended | confidence | as-written member | corrected member |
|---|---|---|---|---|---|---|
| src/http/request.c:36-42 | `cmp_n_Scheme(url, n)` compares only the n characters of the scheme text, so a text that is a proper prefix of "http" matches entry 0 | url "h://x:1/" (n = 1) gives `is_cipher` 0 and scheme "http" | only the exact texts "http" and "https" select a scheme; anything else gives -1 | not executed | `HttpRequest.SchemePrefixAccepted` | `HttpRequest.SchemeIndex` |
| src/http/request.c:211-226 | the empty-buffer branch copies the payload but never sets `payload.size`. The dynamic branch reallocs to exactly `size` bytes and writes the terminator at index `size`, one past the block | adding "abc" and then "de" to an empty response leaves "de", with the terminator written at the block's length | the empty branch records the size, and the block has room for the terminator, so the payload holds "abcde" | not executed | `HttpRequest.AppendPayloadAsWrittenLosesText` | `HttpRequest.AppendPayload` |
| src/data/property_dynamic.c:104-108 | a failed `realloc` returns NULL into `dst->value`, so the `dynmc_destroy` that follows frees NULL and the old block stays allocated and unreachable | an owning dst when the allocator has no room | the old block is released when it cannot be grown | not executed | `PropertyDynamic.Concat` | `PropertyDynamic.ConcatReleasing` |
| src/konexios/api/gateway/gateway.c:23-27 | `uri[ret] = 0x0` uses `snprintf`'s return value, the length of the whole text, even when that text did not fit the chunk of `URI_LEN` | a gateway hid of 93 characters makes the config URI 124 characters long, so the write is at index 124 of a 124-character chunk | the terminator stays inside the chunk; `snprintf` has already written it | not executed | `GatewayApi.ConfigTerminatorPastChunk` | `GatewayApi.FormatUri` |
