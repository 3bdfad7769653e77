/**
 * What the orchestrator of src/arrow/routine.c promises, proved about the
 * functions of RoutineSpec: which collaborators each routine calls and in
 * which order, how the retry budget is spent, and how _init_done and the
 * _init_mqtt bits move.
 */
module RoutineLemmas {
  import opened Wrappers
  import opened RoutineSpec

  // ---------------------------------------------------------------------
  // Connecting the gateway
  // ---------------------------------------------------------------------

  /**
   * No hid and a failed restore: the gateway is registered and keeps the hid
   * the registration produced; a failed registration returns its code without
   * saving, a successful one saves the gateway info and returns 0 with no
   * checkin or update.
   */
  lemma ConnectGatewayRegisters(e: Env, s: State, k: nat)
    requires s.gatewayHid.None? && e.oracle(k + 1).code < 0
    ensures var r := ConnectGateway(e, s, k); var registered := e.oracle(k + 2);
      r.state == s.(gatewayHid := registered.hid)
      && (registered.code < 0 ==> r.value == registered.code && r.calls == [PrepareGateway, RestoreGateway, RegisterGateway])
      && (registered.code >= 0 ==> r.value == 0 && r.calls == [PrepareGateway, RestoreGateway, RegisterGateway, SaveGateway])
  {
  }

  /**
   * The network calls of a gateway connection: a registered gateway is not
   * checked in; a checkin happens only with a hid in place and a successful
   * registration result; an update comes last, right after a checkin that
   * returned 0, and its result is the connection's result; a checkin that
   * failed is the last call and its result is returned.
   */
  predicate GatewayCheckedIn(e: Env, s: State, k: nat, r: Run<int>)
  {
    (RegisterGateway in r.calls ==> GatewayCheckin !in r.calls && GatewayUpdate !in r.calls)
    && (SaveGateway in r.calls ==> r.value == 0 && |r.calls| >= 2 && r.calls[|r.calls| - 2] == RegisterGateway && e.oracle(k + |r.calls| - 2).code >= 0)
    && (GatewayCheckin in r.calls ==> r.state.gatewayHid.Some? && r.state == (if s.gatewayHid.Some? then s else s.(gatewayHid := r.state.gatewayHid)))
    && (GatewayUpdate in r.calls ==>
          |r.calls| >= 2 && r.calls[|r.calls| - 1] == GatewayUpdate && r.calls[|r.calls| - 2] == GatewayCheckin
          && e.oracle(k + |r.calls| - 2).code == 0 && r.value == e.oracle(k + |r.calls| - 1).code)
    && (GatewayCheckin in r.calls && GatewayUpdate !in r.calls ==>
          |r.calls| >= 1 && r.calls[|r.calls| - 1] == GatewayCheckin && r.value == e.oracle(k + |r.calls| - 1).code && r.value != 0)
    && (GatewayCheckin !in r.calls && RegisterGateway !in r.calls ==> r.value == 0)
  }

  /** arrow_connect_gateway keeps GatewayCheckedIn on every branch. */
  lemma ConnectGatewayChecksIn(e: Env, s: State, k: nat)
    ensures GatewayCheckedIn(e, s, k, ConnectGateway(e, s, k))
  {
    if s.gatewayHid.None? {
      if e.oracle(k + 1).code < 0 {
        RegisteredCheckedIn(e, s, k);
      } else {
        RestoredCheckedIn(e, s, k);
      }
    } else {
      KnownCheckedIn(e, s, k);
    }
  }

  /** The registration branch. */
  lemma RegisteredCheckedIn(e: Env, s: State, k: nat)
    requires s.gatewayHid.None? && e.oracle(k + 1).code < 0
    ensures GatewayCheckedIn(e, s, k, ConnectGateway(e, s, k))
  {
    ConnectGatewayRegisters(e, s, k);
  }

  /** The branch with a restored hid. */
  lemma RestoredCheckedIn(e: Env, s: State, k: nat)
    requires s.gatewayHid.None? && e.oracle(k + 1).code >= 0
    ensures GatewayCheckedIn(e, s, k, ConnectGateway(e, s, k))
  {
    RestoredIs(e, s, k);
    CheckinTail(e, s, After(s, RestoreGateway, e.oracle(k + 1)), k, [PrepareGateway, RestoreGateway], ConnectGateway(e, s, k));
  }

  /** With a restored hid the connection is the checkin tail in the restored state. */
  lemma RestoredIs(e: Env, s: State, k: nat)
    requires s.gatewayHid.None? && e.oracle(k + 1).code >= 0
    ensures ConnectGateway(e, s, k) == Then([PrepareGateway, RestoreGateway], CheckinAndUpdate(e, After(s, RestoreGateway, e.oracle(k + 1)), k + 2))
  {
  }

  /** The branch with the hid already known. */
  lemma KnownCheckedIn(e: Env, s: State, k: nat)
    requires s.gatewayHid.Some?
    ensures GatewayCheckedIn(e, s, k, ConnectGateway(e, s, k))
  {
    CheckinTail(e, s, s, k, [PrepareGateway], ConnectGateway(e, s, k));
  }

  /**
   * The checkin and update in state `t`, after calls that are neither a
   * registration nor a checkin or update.
   */
  lemma CheckinTail(e: Env, s: State, t: State, k: nat, before: seq<Call>, r: Run<int>)
    requires RegisterGateway !in before && SaveGateway !in before
    requires GatewayCheckin !in before && GatewayUpdate !in before
    requires if s.gatewayHid.Some? then t == s else t == s.(gatewayHid := t.gatewayHid)
    requires r == Then(before, CheckinAndUpdate(e, t, k + |before|))
    ensures GatewayCheckedIn(e, s, k, r)
  {
    if t.gatewayHid.None? {
      NoCheckin(e, s, k, before, r);
    } else if e.oracle(k + |before|).code != 0 {
      CheckinFailed(e, s, k, before, r);
    } else {
      CheckinUpdated(e, s, k, before, r);
    }
  }

  /** No hid, so no checkin: the calls before it and 0. */
  lemma NoCheckin(e: Env, s: State, k: nat, before: seq<Call>, r: Run<int>)
    requires RegisterGateway !in before && SaveGateway !in before
    requires GatewayCheckin !in before && GatewayUpdate !in before
    requires r.calls == before && r.value == 0
    ensures GatewayCheckedIn(e, s, k, r)
  {
  }

  /** A failed checkin is the last call. */
  lemma CheckinFailed(e: Env, s: State, k: nat, before: seq<Call>, r: Run<int>)
    requires RegisterGateway !in before && SaveGateway !in before && GatewayUpdate !in before
    requires r.calls == before + [GatewayCheckin] && r.value == e.oracle(k + |before|).code && r.value != 0
    requires r.state.gatewayHid.Some? && r.state == (if s.gatewayHid.Some? then s else s.(gatewayHid := r.state.gatewayHid))
    ensures GatewayCheckedIn(e, s, k, r)
  {
    assert GatewayCheckin in r.calls && GatewayUpdate !in r.calls;
    assert RegisterGateway !in r.calls && SaveGateway !in r.calls;
  }

  /** A checkin that returned 0 is followed by the update. */
  lemma CheckinUpdated(e: Env, s: State, k: nat, before: seq<Call>, r: Run<int>)
    requires RegisterGateway !in before && SaveGateway !in before
    requires r.calls == before + [GatewayCheckin, GatewayUpdate]
    requires e.oracle(k + |before|).code == 0 && r.value == e.oracle(k + |before| + 1).code
    requires r.state.gatewayHid.Some? && r.state == (if s.gatewayHid.Some? then s else s.(gatewayHid := r.state.gatewayHid))
    ensures GatewayCheckedIn(e, s, k, r)
  {
    assert GatewayCheckin in r.calls && GatewayUpdate in r.calls;
    assert RegisterGateway !in r.calls && SaveGateway !in r.calls;
  }

  /**
   * A gateway with a hid is neither restored nor registered but checked in;
   * the update follows exactly a checkin that returned 0; the reply to the
   * last call is the result; the state is unchanged.
   */
  lemma ConnectGatewayKnown(e: Env, s: State, k: nat)
    requires s.gatewayHid.Some?
    ensures var r := ConnectGateway(e, s, k);
      r.state == s
      && r.calls == [PrepareGateway, GatewayCheckin] + (if e.oracle(k + 1).code == 0 then [GatewayUpdate] else [])
      && r.value == e.oracle(k + |r.calls| - 1).code
  {
  }

  /**
   * A gateway restored from storage is not registered: with a NULL restored
   * hid the connection returns 0 right after the restore; with a hid it is
   * checked in, updated exactly after a checkin that returned 0, and the
   * reply to the last call is the result.
   */
  lemma ConnectGatewayRestored(e: Env, s: State, k: nat)
    requires s.gatewayHid.None? && e.oracle(k + 1).code >= 0
    ensures var r := ConnectGateway(e, s, k); var hid := e.oracle(k + 1).hid;
      r.state == s.(gatewayHid := hid)
      && (hid.None? ==> r.calls == [PrepareGateway, RestoreGateway] && r.value == 0)
      && (hid.Some? ==>
            r.calls == [PrepareGateway, RestoreGateway, GatewayCheckin] + (if e.oracle(k + 2).code == 0 then [GatewayUpdate] else [])
            && r.value == e.oracle(k + |r.calls| - 1).code)
  {
  }

  // ---------------------------------------------------------------------
  // Connecting the device
  // ---------------------------------------------------------------------

  /** A device that already has a hid is only prepared. */
  lemma ConnectDeviceKnown(e: Env, s: State, k: nat)
    requires s.deviceHid.Some?
    ensures ConnectDevice(e, s, k) == Run(s, [PrepareDevice], 0)
  {
  }

  /**
   * A failed registration or update frees the device, without saving it and
   * without starting the MQTT state machine, and returns that call's result.
   */
  lemma ConnectDeviceFailure(e: Env, s: State, k: nat)
    requires ConnectDevice(e, s, k).value < 0
    ensures var r := ConnectDevice(e, s, k);
      r.state == s && |r.calls| == 4 && r.calls[3] == FreeDevice && r.value == e.oracle(k + 2).code
      && SaveDevice !in r.calls && StateMqttRun !in r.calls
  {
  }

  /**
   * A successful connection of a device without a hid starts the MQTT state
   * machine exactly once, as its last call; a new registration is saved
   * before that, a restored device is updated instead; the device keeps the
   * hid of the call that succeeded.
   */
  lemma ConnectDeviceSuccess(e: Env, s: State, k: nat)
    requires s.deviceHid.None? && ConnectDevice(e, s, k).value >= 0
    ensures var r := ConnectDevice(e, s, k); var restored := e.oracle(k + 1).code >= 0;
      r.state == s.(deviceHid := if restored then e.oracle(k + 1).hid else e.oracle(k + 2).hid)
      && r.calls == [PrepareDevice, RestoreDevice]
                    + (if restored then [DeviceUpdate] else [RegisterDevice, SaveDevice])
                    + [StateMqttRun]
      && StateMqttRun !in r.calls[..|r.calls| - 1]
  {
  }

  // ---------------------------------------------------------------------
  // Bounded retry
  // ---------------------------------------------------------------------

  /** How often a call occurs in a list. */
  function Occurrences(calls: seq<Call>, c: Call): nat
  {
    if calls == [] then 0 else (if calls[0] == c then 1 else 0) + Occurrences(calls[1..], c)
  }

  /** Counting distributes over concatenation. */
  lemma {:induction false} OccurrencesAppend(a: seq<Call>, b: seq<Call>, c: Call)
    ensures Occurrences(a + b, c) == Occurrences(a, c) + Occurrences(b, c)
  {
    if a != [] {
      assert (a + b)[1..] == a[1..] + b;
      OccurrencesAppend(a[1..], b, c);
    } else {
      assert a + b == b;
    }
  }

  /** A call that is not in a list occurs zero times. */
  lemma {:induction false} OccurrencesAbsent(a: seq<Call>, c: Call)
    requires c !in a
    ensures Occurrences(a, c) == 0
  {
    if a != [] {
      OccurrencesAbsent(a[1..], c);
    }
  }

  /** One round of a retry loop adds one occurrence of its separator, when the round's attempt has none. */
  lemma OccurrencesRound(a: seq<Call>, sep: Call, rest: seq<Call>)
    requires sep !in a
    ensures Occurrences(a + [sep] + rest, sep) == 1 + Occurrences(rest, sep)
  {
    OccurrencesAbsent(a, sep);
    OccurrencesAppend(a, [sep], sep);
    OccurrencesAppend(a + [sep], rest, sep);
  }

  /** One round of a one-call loop adds one occurrence of its call. */
  lemma OccurrencesCallRound(c: Call, sep: Call, rest: seq<Call>)
    requires c != sep
    ensures Occurrences([c] + [sep] + rest, c) == 1 + Occurrences(rest, c)
  {
    OccurrencesAppend([c], [sep], c);
    OccurrencesAppend([c] + [sep], rest, c);
  }

  /** The shape of one round of a retry loop: an attempt's calls, the sleep, the later rounds. */
  lemma RoundShape(a: seq<Call>, sep: Call, rest: seq<Call>)
    ensures var t := a + [sep] + rest;
      |t| == |a| + 1 + |rest| && (|rest| >= 1 ==> t[|t| - 1] == rest[|rest| - 1])
  {
  }

  /**
   * A retry loop entered with counter `retry` makes between one attempt and
   * the rest of the budget; it gives up only with a failure and only once the
   * budget is spent.
   */
  lemma {:induction false} RetryBounds(l: RetryLoop, s: State, k: nat, retry: nat)
    requires retry < l.maxAttempts
    ensures var r := Retry(l, s, k, retry);
      retry < r.attempts <= l.maxAttempts
      && (r.gaveUp <==> r.ret < 0)
      && (r.gaveUp ==> r.attempts == l.maxAttempts)
    decreases l.maxAttempts - retry
  {
    var a := l.attempt(s, k);
    if a.value < 0 && retry + 1 < l.maxAttempts {
      RetryBounds(l, AfterFailure(l, a.state), k + |a.calls| + 1, retry + 1);
    }
  }

  /** The result of each attempt a retry loop entered with counter `retry` makes, in the order made. */
  function AttemptResults(l: RetryLoop, s: State, k: nat, retry: nat): seq<int>
    requires retry < l.maxAttempts
    decreases l.maxAttempts - retry
  {
    var a := l.attempt(s, k);
    if a.value >= 0 || retry + 1 >= l.maxAttempts then [a.value]
    else [a.value] + AttemptResults(l, AfterFailure(l, a.state), k + |a.calls| + 1, retry + 1)
  }

  /**
   * A retry loop entered with counter `retry` makes between one attempt and
   * the rest of the budget and stops at its first success: every attempt
   * before the last failed, the first is the attempt from the entry state,
   * and the last one's result is the loop's. It gives up exactly when that
   * last result is a failure, and then only once the budget is spent.
   */
  lemma {:induction false} RetryAttempts(l: RetryLoop, s: State, k: nat, retry: nat)
    requires retry < l.maxAttempts
    ensures var r := Retry(l, s, k, retry); var res := AttemptResults(l, s, k, retry);
      retry < r.attempts <= l.maxAttempts
      && (r.gaveUp <==> r.ret < 0)
      && (r.gaveUp ==> r.attempts == l.maxAttempts)
      && |res| == r.attempts - retry && res[0] == l.attempt(s, k).value && res[|res| - 1] == r.ret
      && (forall i :: 0 <= i < |res| - 1 ==> res[i] < 0)
    decreases l.maxAttempts - retry
  {
    RetryBounds(l, s, k, retry);
    var a := l.attempt(s, k);
    if a.value < 0 && retry + 1 < l.maxAttempts {
      var s1 := AfterFailure(l, a.state);
      var j := k + |a.calls| + 1;
      RetryAttempts(l, s1, j, retry + 1);
      var rest := AttemptResults(l, s1, j, retry + 1);
      assert AttemptResults(l, s, k, retry) == [a.value] + rest;
    }
  }

  /** No attempt of the loop sleeps. */
  ghost predicate AttemptsSleepFree(l: RetryLoop)
  {
    forall t: State, j: nat :: SleepFree(l.attempt(t, j).calls)
  }

  /**
   * The loop sleeps once, with its delay, after each failed attempt but the
   * last: every attempt before the last failed, and there is one sleep
   * fewer than attempts.
   */
  lemma RetrySleeps(l: RetryLoop, s: State, k: nat, retry: nat)
    requires retry < l.maxAttempts && AttemptsSleepFree(l)
    ensures var r := Retry(l, s, k, retry); var res := AttemptResults(l, s, k, retry);
      |res| == r.attempts - retry && (forall i :: 0 <= i < |res| - 1 ==> res[i] < 0)
      && Occurrences(r.calls, Sleep(l.delay)) == |res| - 1
  {
    RetryAttempts(l, s, k, retry);
    SleepCount(l, s, k, retry);
  }

  /** Between two attempts the loop sleeps exactly once, with its delay. */
  lemma {:induction false} SleepCount(l: RetryLoop, s: State, k: nat, retry: nat)
    requires retry < l.maxAttempts && AttemptsSleepFree(l)
    ensures var r := Retry(l, s, k, retry);
      Occurrences(r.calls, Sleep(l.delay)) == r.attempts - retry - 1
    decreases l.maxAttempts - retry
  {
    var a := l.attempt(s, k);
    assert SleepFree(a.calls);
    if a.value < 0 && retry + 1 < l.maxAttempts {
      var s1 := AfterFailure(l, a.state);
      var j := k + |a.calls| + 1;
      SleepCount(l, s1, j, retry + 1);
      OccurrencesRound(a.calls, Sleep(l.delay), Retry(l, s1, j, retry + 1).calls);
    } else {
      OccurrencesAbsent(a.calls, Sleep(l.delay));
    }
  }

  /** Every call of `calls` is one of `allowed`. */
  predicate AllIn(calls: seq<Call>, allowed: set<Call>)
  {
    forall c :: c in calls ==> c in allowed
  }

  /** Every attempt of the loop makes only calls of `allowed`. */
  ghost predicate AttemptsWithin(l: RetryLoop, allowed: set<Call>)
  {
    forall t: State, j: nat :: AllIn(l.attempt(t, j).calls, allowed)
  }

  /** A round of allowed calls separated by an allowed call is allowed. */
  lemma AllInRound(a: seq<Call>, sep: Call, rest: seq<Call>, allowed: set<Call>)
    requires AllIn(a, allowed) && sep in allowed && AllIn(rest, allowed)
    ensures AllIn(a + [sep] + rest, allowed)
  {
    forall c | c in a + [sep] + rest
      ensures c in allowed
    {
      assert c in a || c == sep || c in rest;
    }
  }

  /** A retry loop makes only its attempts' calls and its sleeps. */
  lemma {:induction false} RetryWithin(l: RetryLoop, s: State, k: nat, retry: nat, allowed: set<Call>)
    requires retry < l.maxAttempts && AttemptsWithin(l, allowed) && Sleep(l.delay) in allowed
    ensures AllIn(Retry(l, s, k, retry).calls, allowed)
    decreases l.maxAttempts - retry
  {
    var a := l.attempt(s, k);
    assert AllIn(a.calls, allowed);
    if a.value < 0 && retry + 1 < l.maxAttempts {
      var s1 := AfterFailure(l, a.state);
      var j := k + |a.calls| + 1;
      RetryWithin(l, s1, j, retry + 1, allowed);
      AllInRound(a.calls, Sleep(l.delay), Retry(l, s1, j, retry + 1).calls, allowed);
    }
  }

  /** Every attempt of the loop leaves _init_done and _init_mqtt alone. */
  ghost predicate AttemptsKeepFlags(l: RetryLoop)
  {
    forall t: State, j: nat :: SameFlags(t, l.attempt(t, j).state)
  }

  /**
   * A retry loop leaves _init_done alone; it leaves the mask alone too,
   * except that a loop that clears the command bit has done so as soon as it
   * has slept once.
   */
  lemma RetryFlags(l: RetryLoop, s: State, k: nat, retry: nat)
    requires retry < l.maxAttempts && AttemptsKeepFlags(l)
    ensures var r := Retry(l, s, k, retry);
      r.state.initDone == s.initDone
      && r.state.mask == if l.clears && r.attempts > retry + 1 then WithoutCommand(s.mask) else s.mask
  {
    RetryKeepsInitDone(l, s, k, retry);
    if l.clears {
      RetryClearsMask(l, s, k, retry);
    } else {
      RetryKeepsMask(l, s, k, retry);
    }
  }

  /** A retry loop leaves _init_done alone. */
  lemma {:induction false} RetryKeepsInitDone(l: RetryLoop, s: State, k: nat, retry: nat)
    requires retry < l.maxAttempts && AttemptsKeepFlags(l)
    ensures Retry(l, s, k, retry).state.initDone == s.initDone
    decreases l.maxAttempts - retry
  {
    var a := l.attempt(s, k);
    assert SameFlags(s, a.state);
    if a.value < 0 && retry + 1 < l.maxAttempts {
      RetryKeepsInitDone(l, AfterFailure(l, a.state), k + |a.calls| + 1, retry + 1);
    }
  }

  /** A loop that does not clear the command bit leaves the mask alone. */
  lemma {:induction false} RetryKeepsMask(l: RetryLoop, s: State, k: nat, retry: nat)
    requires retry < l.maxAttempts && AttemptsKeepFlags(l) && !l.clears
    ensures Retry(l, s, k, retry).state.mask == s.mask
    decreases l.maxAttempts - retry
  {
    var a := l.attempt(s, k);
    assert SameFlags(s, a.state);
    if a.value < 0 && retry + 1 < l.maxAttempts {
      RetryKeepsMask(l, AfterFailure(l, a.state), k + |a.calls| + 1, retry + 1);
    }
  }

  /** A loop that clears the command bit has it cleared once it has slept. */
  lemma {:induction false} RetryClearsMask(l: RetryLoop, s: State, k: nat, retry: nat)
    requires retry < l.maxAttempts && AttemptsKeepFlags(l) && l.clears
    ensures var r := Retry(l, s, k, retry);
      r.state.mask == if r.attempts > retry + 1 then WithoutCommand(s.mask) else s.mask
    decreases l.maxAttempts - retry
  {
    var a := l.attempt(s, k);
    assert SameFlags(s, a.state);
    if a.value < 0 && retry + 1 < l.maxAttempts {
      var s1 := AfterFailure(l, a.state);
      var j := k + |a.calls| + 1;
      assert s1.mask == WithoutCommand(s.mask);
      RetryClearsMask(l, s1, j, retry + 1);
      RetryBounds(l, s1, j, retry + 1);
      ClearedTwice(s.mask);
    }
  }

  /** A mask with the command bit cleared. */
  function WithoutCommand(m: bv8): bv8
  {
    m & !CommandBit
  }

  /** Clearing the command bit a second time changes nothing. */
  lemma ClearedTwice(m: bv8)
    ensures WithoutCommand(WithoutCommand(m)) == WithoutCommand(m)
  {
  }

  /** Every attempt of the loop is the one call `c`, answered by the oracle, with the state left alone. */
  ghost predicate OneCall(e: Env, l: RetryLoop, c: Call)
  {
    forall t: State, j: nat :: l.attempt(t, j) == Run(t, [c], e.oracle(j).code)
  }

  /** A one-call loop makes its call once per attempt. */
  lemma {:induction false} RetryCallCount(e: Env, l: RetryLoop, c: Call, s: State, k: nat, retry: nat)
    requires retry < l.maxAttempts && OneCall(e, l, c) && c != Sleep(l.delay)
    ensures var r := Retry(l, s, k, retry);
      Occurrences(r.calls, c) == r.attempts - retry
    decreases l.maxAttempts - retry
  {
    var a := l.attempt(s, k);
    assert a == Run(s, [c], e.oracle(k).code);
    if a.value < 0 && retry + 1 < l.maxAttempts {
      var s1 := AfterFailure(l, a.state);
      var j := k + 2;
      RetryCallCount(e, l, c, s1, j, retry + 1);
      OccurrencesCallRound(c, Sleep(l.delay), Retry(l, s1, j, retry + 1).calls);
    }
  }

  /**
   * A one-call loop ends with its call, reports the reply to it, and leaves
   * the hids alone.
   */
  lemma {:induction false} RetryLastCall(e: Env, l: RetryLoop, c: Call, s: State, k: nat, retry: nat)
    requires retry < l.maxAttempts && OneCall(e, l, c)
    ensures var r := Retry(l, s, k, retry);
      |r.calls| >= 1 && r.calls[|r.calls| - 1] == c && r.ret == e.oracle(k + |r.calls| - 1).code
      && r.state.gatewayHid == s.gatewayHid && r.state.deviceHid == s.deviceHid
    decreases l.maxAttempts - retry
  {
    var a := l.attempt(s, k);
    assert a == Run(s, [c], e.oracle(k).code);
    if a.value < 0 && retry + 1 < l.maxAttempts {
      var s1 := AfterFailure(l, a.state);
      var j := k + 2;
      RetryLastCall(e, l, c, s1, j, retry + 1);
      RoundShape(a.calls, Sleep(l.delay), Retry(l, s1, j, retry + 1).calls);
    }
  }

  /** A one-call loop keeps the flags and makes only its call. */
  lemma OneCallAttempts(e: Env, l: RetryLoop, c: Call)
    requires OneCall(e, l, c)
    ensures AttemptsKeepFlags(l) && AttemptsWithin(l, {c, Sleep(l.delay)})
  {
    forall t: State, j: nat
      ensures SameFlags(t, l.attempt(t, j).state) && AllIn(l.attempt(t, j).calls, {c, Sleep(l.delay)})
    {
      assert l.attempt(t, j) == Run(t, [c], e.oracle(j).code);
    }
  }

  /** The calls one attempt of a step can make. */
  function StepCalls(step: Step): set<Call>
  {
    match step
    case ConnectGatewayStep => {PrepareGateway, RestoreGateway, RegisterGateway, SaveGateway, GatewayCheckin, GatewayUpdate}
    case ConnectDeviceStep => {PrepareDevice, RestoreDevice, RegisterDevice, SaveDevice, DeviceUpdate, FreeDevice, StateMqttRun}
    case _ => {StepCall(step)}
  }

  /** An attempt makes only its step's calls. */
  lemma AttemptCalls(e: Env, s: State, k: nat, step: Step)
    ensures AllIn(Attempt(e, s, k, step).calls, StepCalls(step))
  {
  }

  /** What every loop of routine.c attempts: no sleep, the flags kept, only its step's calls. */
  lemma LoopOfAttempts(e: Env, step: Step)
    ensures AttemptsSleepFree(LoopOf(e, step)) && AttemptsKeepFlags(LoopOf(e, step))
    ensures AttemptsWithin(LoopOf(e, step), StepCalls(step) + {Sleep(Delay(step))})
  {
    var l := LoopOf(e, step);
    forall t: State, j: nat
      ensures SleepFree(l.attempt(t, j).calls) && SameFlags(t, l.attempt(t, j).state)
      ensures AllIn(l.attempt(t, j).calls, StepCalls(step) + {Sleep(Delay(step))})
    {
      AttemptCalls(e, t, j, step);
    }
  }

  /** The loops around one-call steps. */
  lemma LoopOfOneCall(e: Env, step: Step)
    requires !step.ConnectGatewayStep? && !step.ConnectDeviceStep?
    ensures OneCall(e, LoopOf(e, step), StepCall(step))
  {
  }

  /**
   * What a loop started with RETRY_CR promises: between 1 and maxAttempts
   * attempts; giving up exactly on a failed last attempt, after exactly
   * maxAttempts of them; one sleep fewer than attempts; nothing but its
   * step's calls; _init_done unchanged, and the mask too except in the
   * subscribe loop.
   */
  predicate Budgeted(e: Env, s: State, step: Step, r: RetryOutcome)
  {
    1 <= r.attempts <= e.maxAttempts
    && (r.gaveUp <==> r.ret < 0)
    && (r.gaveUp ==> r.attempts == e.maxAttempts)
    && Occurrences(r.calls, Sleep(Delay(step))) == r.attempts - 1
    && AllIn(r.calls, StepCalls(step) + {Sleep(Delay(step))})
    && r.state.initDone == s.initDone
    && (step != SubscribeStep ==> r.state.mask == s.mask)
  }

  /** Every loop started with RETRY_CR keeps its budget. */
  lemma RetryFreshBudget(e: Env, s: State, k: nat, step: Step)
    requires e.maxAttempts >= 1
    ensures Budgeted(e, s, step, RetryFresh(e, s, k, step))
  {
    var l := LoopOf(e, step);
    LoopOfAttempts(e, step);
    RetryBounds(l, s, k, 0);
    SleepCount(l, s, k, 0);
    RetryWithin(l, s, k, 0, StepCalls(step) + {Sleep(Delay(step))});
    RetryFlags(l, s, k, 0);
  }

  /**
   * What a one-call loop started with RETRY_CR promises: between 1 and
   * maxAttempts attempts, giving up exactly on a failed last attempt and only
   * after maxAttempts of them; its call once per attempt and sleeps in
   * between; the reported result is the reply to its last call; the hids and
   * _init_done are left alone, and the mask too except in the subscribe loop.
   */
  predicate CallLoopEnded(e: Env, s: State, k: nat, step: Step, r: RetryOutcome)
    requires !step.ConnectGatewayStep? && !step.ConnectDeviceStep?
  {
    CallLoopCounted(e, step, r) && CallLoopLast(e, s, k, step, r)
  }

  /** The attempts and calls of a one-call loop. */
  predicate CallLoopCounted(e: Env, step: Step, r: RetryOutcome)
    requires !step.ConnectGatewayStep? && !step.ConnectDeviceStep?
  {
    1 <= r.attempts <= e.maxAttempts
    && (r.gaveUp <==> r.ret < 0)
    && (r.gaveUp ==> r.attempts == e.maxAttempts)
    && AllIn(r.calls, {StepCall(step), Sleep(Delay(step))})
    && Occurrences(r.calls, StepCall(step)) == r.attempts
  }

  /** The last call of a one-call loop, its reply, and the state it leaves. */
  predicate CallLoopLast(e: Env, s: State, k: nat, step: Step, r: RetryOutcome)
    requires !step.ConnectGatewayStep? && !step.ConnectDeviceStep?
  {
    var n := |r.calls|;
    n >= 1 && r.calls[n - 1] == StepCall(step) && r.ret == e.oracle(k + n - 1).code
    && r.state.initDone == s.initDone && r.state.gatewayHid == s.gatewayHid && r.state.deviceHid == s.deviceHid
    && (step != SubscribeStep ==> r.state == s)
  }

  /** Every one-call loop started with RETRY_CR keeps CallLoopCounted. */
  lemma RetryCallCounted(e: Env, s: State, k: nat, step: Step)
    requires e.maxAttempts >= 1
    requires !step.ConnectGatewayStep? && !step.ConnectDeviceStep?
    ensures CallLoopCounted(e, step, RetryFresh(e, s, k, step))
  {
    var l := LoopOf(e, step);
    LoopOfOneCall(e, step);
    OneCallAttempts(e, l, StepCall(step));
    RetryBounds(l, s, k, 0);
    RetryWithin(l, s, k, 0, {StepCall(step), Sleep(Delay(step))});
    RetryCallCount(e, l, StepCall(step), s, k, 0);
  }

  /** Every one-call loop started with RETRY_CR keeps CallLoopLast. */
  lemma RetryCallLast(e: Env, s: State, k: nat, step: Step)
    requires e.maxAttempts >= 1
    requires !step.ConnectGatewayStep? && !step.ConnectDeviceStep?
    ensures CallLoopLast(e, s, k, step, RetryFresh(e, s, k, step))
  {
    LoopOfOneCall(e, step);
    OneCallLoopLast(e, LoopOf(e, step), StepCall(step), s, k);
  }

  /** The last call of any one-call loop started with the counter at zero. */
  lemma OneCallLoopLast(e: Env, l: RetryLoop, c: Call, s: State, k: nat)
    requires l.maxAttempts >= 1 && OneCall(e, l, c)
    ensures var r := Retry(l, s, k, 0); var n := |r.calls|;
      n >= 1 && r.calls[n - 1] == c && r.ret == e.oracle(k + n - 1).code
      && r.state.initDone == s.initDone && r.state.gatewayHid == s.gatewayHid && r.state.deviceHid == s.deviceHid
      && (!l.clears ==> r.state == s)
  {
    OneCallAttempts(e, l, c);
    RetryLastCall(e, l, c, s, k, 0);
    RetryFlags(l, s, k, 0);
  }

  /** Every one-call loop started with RETRY_CR keeps CallLoopEnded. */
  lemma RetryCallLoop(e: Env, s: State, k: nat, step: Step)
    requires e.maxAttempts >= 1
    requires !step.ConnectGatewayStep? && !step.ConnectDeviceStep?
    ensures CallLoopEnded(e, s, k, step, RetryFresh(e, s, k, step))
  {
    RetryCallCounted(e, s, k, step);
    RetryCallLast(e, s, k, step);
  }

  /** The reply to attempt `i` of a one-call loop whose first call has index `k`. */
  function AttemptReply(e: Env, k: nat, i: nat): int
  {
    e.oracle(k + 2 * i).code
  }

  /** The replies to the first `n` attempts of a one-call loop from call index `k` were all failures. */
  predicate AllFailed(e: Env, k: nat, n: nat)
  {
    forall i :: 0 <= i < n ==> AttemptReply(e, k, i) < 0
  }

  /**
   * The calls and replies of a one-call loop on `c` that made `n` attempts
   * from call index `k`: its call and its sleep in turn, the call first and
   * last; the replies to all attempts but the last were failures, and the
   * reply to the last is the loop's result.
   */
  predicate CallLoopShape(e: Env, k: nat, c: Call, sleep: Call, r: RetryOutcome, n: nat)
  {
    n >= 1 && |r.calls| == 2 * n - 1
    && (forall i :: 0 <= i < |r.calls| ==> r.calls[i] == if i % 2 == 0 then c else sleep)
    && (forall i :: 0 <= i < n - 1 ==> AttemptReply(e, k, i) < 0)
    && r.ret == AttemptReply(e, k, n - 1)
  }

  /** Any one-call loop entered with counter `retry` keeps CallLoopShape. */
  lemma {:induction false} RetryCallShape(e: Env, l: RetryLoop, c: Call, s: State, k: nat, retry: nat)
    requires retry < l.maxAttempts && OneCall(e, l, c)
    ensures var r := Retry(l, s, k, retry);
      r.attempts > retry && CallLoopShape(e, k, c, Sleep(l.delay), r, r.attempts - retry)
    decreases l.maxAttempts - retry
  {
    var a := l.attempt(s, k);
    assert a == Run(s, [c], e.oracle(k).code);
    RetryBounds(l, s, k, retry);
    if a.value < 0 && retry + 1 < l.maxAttempts {
      var s1 := AfterFailure(l, a.state);
      var r1 := Retry(l, s1, k + 2, retry + 1);
      RetryCallShape(e, l, c, s1, k + 2, retry + 1);
      var r := Retry(l, s, k, retry);
      assert r.calls == [c] + [Sleep(l.delay)] + r1.calls && r.attempts == r1.attempts && r.ret == r1.ret;
      var n := r.attempts - retry;
      forall i | 0 <= i < |r.calls|
        ensures r.calls[i] == if i % 2 == 0 then c else Sleep(l.delay)
      {
        if i >= 2 {
          assert r.calls[i] == r1.calls[i - 2];
        }
      }
      forall i | 0 <= i < n - 1
        ensures AttemptReply(e, k, i) < 0
      {
        if i > 0 {
          assert AttemptReply(e, k, i) == AttemptReply(e, k + 2, i - 1);
        }
      }
      assert AttemptReply(e, k, n - 1) == AttemptReply(e, k + 2, n - 2);
    }
  }

  /**
   * A one-call loop started with RETRY_CR: CallLoopShape holds, and it gives
   * up exactly when the replies to all maxAttempts attempts were failures;
   * otherwise it reports the first reply that was not.
   */
  lemma RetryCallReplies(e: Env, s: State, k: nat, step: Step)
    requires e.maxAttempts >= 1
    requires !step.ConnectGatewayStep? && !step.ConnectDeviceStep?
    ensures var r := RetryFresh(e, s, k, step);
      CallLoopShape(e, k, StepCall(step), Sleep(Delay(step)), r, r.attempts)
      && (r.gaveUp <==> AllFailed(e, k, e.maxAttempts))
      && (!r.gaveUp ==> r.ret >= 0)
  {
    LoopOfOneCall(e, step);
    OneCallReplies(e, LoopOf(e, step), StepCall(step), s, k);
  }

  /** RetryCallReplies for any one-call loop started with the counter at zero. */
  lemma OneCallReplies(e: Env, l: RetryLoop, c: Call, s: State, k: nat)
    requires l.maxAttempts >= 1 && OneCall(e, l, c)
    ensures var r := Retry(l, s, k, 0);
      CallLoopShape(e, k, c, Sleep(l.delay), r, r.attempts)
      && (r.gaveUp <==> AllFailed(e, k, l.maxAttempts))
      && (!r.gaveUp ==> r.ret >= 0)
  {
    RetryCallShape(e, l, c, s, k, 0);
    RetryBounds(l, s, k, 0);
    var r := Retry(l, s, k, 0);
    if !r.gaveUp {
      assert AttemptReply(e, k, r.attempts - 1) >= 0;
    }
  }

  // ---------------------------------------------------------------------
  // Initialization
  // ---------------------------------------------------------------------

  /** The phases of an initialization that ends in `result`. */
  predicate PhasesEnded(e: Env, r: InitOutcome)
  {
    |r.attempts| == 3
    && (forall i :: 0 <= i < 3 ==> r.attempts[i] <= e.maxAttempts)
    && (r.result == Success <==> r.failed.None?)
    && (r.failed.None? ==> r.state.initDone && forall i :: 0 <= i < 3 ==> 1 <= r.attempts[i])
    && (r.failed.Some? ==> r.result.Failed? && r.result.code < 0 && r.state.gatewayHid.None?)
    && (r.failed == Some(GatewayPhase) ==> r.attempts == [e.maxAttempts, 0, 0])
    && (r.failed == Some(ConfigPhase) ==> 1 <= r.attempts[0] && r.attempts[1] == e.maxAttempts && r.attempts[2] == 0)
    && (r.failed == Some(DevicePhase) ==>
          1 <= r.attempts[0] && 1 <= r.attempts[1] && r.attempts[2] == e.maxAttempts && r.state.deviceHid.None?)
  }

  /** `p` is a prefix of `q`. */
  predicate Prefix(p: seq<Call>, q: seq<Call>)
  {
    |q| >= |p| && q[..|p|] == p
  }

  /** Calls appended after a sequence keep its prefixes in front. */
  lemma PrefixExtended(p: seq<Call>, q: seq<Call>, a: seq<Call>, b: seq<Call>)
    requires Prefix(p, q)
    ensures Prefix(p, q + a) && Prefix(p, q + a + b)
  {
    assert (q + a)[..|p|] == q[..|p|];
    assert (q + a + b)[..|p|] == q[..|p|];
  }

  /**
   * How an initialization that started in `s` with the calls `start` ends:
   * the phases as PhasesEnded says, _init_done as it was unless all three
   * succeeded, the mask untouched, the calls made before kept in front, and
   * the frees at the end of a run that gave up, in the order of the phases.
   */
  predicate InitEnded(e: Env, s: State, start: seq<Call>, r: InitOutcome)
  {
    PhasesEnded(e, r) && r.state.mask == s.mask
    && (r.failed.Some? ==> r.state.initDone == s.initDone)
    && Prefix(start, r.calls)
    && (r.failed == Some(GatewayPhase) ==> |r.calls| >= 1 && r.calls[|r.calls| - 1] == FreeGateway)
    && (r.failed == Some(ConfigPhase) ==> |r.calls| >= 2 && r.calls[|r.calls| - 2..] == [FreeGatewayConfig, FreeGateway])
    && (r.failed == Some(DevicePhase) ==> |r.calls| >= 3 && r.calls[|r.calls| - 3..] == [FreeDevice, FreeGatewayConfig, FreeGateway])
  }

  /**
   * The part of a loop's budget the initialization needs: between 1 and
   * maxAttempts attempts, giving up exactly on a failure after all of them,
   * and the flags of `s`.
   */
  predicate LoopEnded(e: Env, s: State, r: RetryOutcome)
  {
    1 <= r.attempts <= e.maxAttempts
    && (r.gaveUp <==> r.ret < 0)
    && (r.gaveUp ==> r.attempts == e.maxAttempts)
    && SameFlags(s, r.state)
  }

  /** A loop the initialization may run: its budget, and the flags kept. */
  ghost predicate InitLoop(e: Env, l: RetryLoop)
  {
    l.maxAttempts == e.maxAttempts && AttemptsKeepFlags(l) && !l.clears
  }

  /** Every loop but the subscribe loop is one. */
  lemma InitLoopOf(e: Env, step: Step)
    requires step != SubscribeStep
    ensures InitLoop(e, LoopOf(e, step))
  {
    LoopOfAttempts(e, step);
  }

  /** A loop of the initialization entered in a state with the flags of `s`. */
  lemma LoopEndedWith(e: Env, s: State, t: State, j: nat, l: RetryLoop)
    requires e.maxAttempts >= 1 && SameFlags(s, t) && InitLoop(e, l)
    ensures LoopEnded(e, s, Retry(l, t, j, 0))
  {
    RetryBounds(l, t, j, 0);
    RetryFlags(l, t, j, 0);
  }

  /** The device phase, for any loop outcome that kept its budget. */
  lemma DevicePhaseEnds(e: Env, s: State, start: seq<Call>, before: seq<Call>, attempts: seq<nat>, d: RetryOutcome)
    requires Prefix(start, before)
    requires |attempts| == 2 && 1 <= attempts[0] <= e.maxAttempts && 1 <= attempts[1] <= e.maxAttempts
    requires LoopEnded(e, s, d)
    ensures InitEnded(e, s, start, AfterDevicePhase(before, attempts, d))
  {
    PrefixExtended(start, before, d.calls, [FreeDevice, FreeGatewayConfig, FreeGateway]);
  }

  /** A config loop that gave up ends the initialization. */
  lemma ConfigGaveUp(e: Env, s: State, k: nat, start: seq<Call>, before: seq<Call>, gatewayAttempts: nat, c: RetryOutcome)
    requires Prefix(start, before)
    requires e.maxAttempts >= 1 && 1 <= gatewayAttempts <= e.maxAttempts
    requires LoopEnded(e, s, c) && c.gaveUp
    ensures InitEnded(e, s, start, AfterConfigPhase(e, k, before, gatewayAttempts, c))
  {
    PrefixExtended(start, before, c.calls, [FreeGatewayConfig, FreeGateway]);
  }

  /** The device phase after a config loop that succeeded. */
  lemma ConfigGoesOn(e: Env, s: State, k: nat, start: seq<Call>, before: seq<Call>, gatewayAttempts: nat, c: RetryOutcome)
    requires Prefix(start, before)
    requires e.maxAttempts >= 1 && 1 <= gatewayAttempts <= e.maxAttempts
    requires LoopEnded(e, s, c) && !c.gaveUp
    ensures InitEnded(e, s, start, AfterConfigPhase(e, k, before, gatewayAttempts, c))
  {
    PrefixExtended(start, before, c.calls, [WdtFeed, SessionCloseSet(true)]);
    DeviceStageEnds(e, s, c.state, k, start, before + c.calls + [WdtFeed, SessionCloseSet(true)], [gatewayAttempts, c.attempts]);
  }

  /** The device loop entered in `t`, with the flags of `s`, and the end of the routine. */
  lemma DeviceStageEnds(e: Env, s: State, t: State, k: nat, start: seq<Call>, before: seq<Call>, attempts: seq<nat>)
    requires e.maxAttempts >= 1 && SameFlags(s, t) && Prefix(start, before)
    requires |attempts| == 2 && 1 <= attempts[0] <= e.maxAttempts && 1 <= attempts[1] <= e.maxAttempts
    ensures InitEnded(e, s, start, DeviceStage(e, k, before, attempts, t))
  {
    DeviceLoopEnds(e, s, t, k, start, before, attempts, ConnectDeviceStep);
    DeviceStageIs(e, k, before, attempts, t);
  }

  /** The device stage run with the loop of any `step`. */
  function DeviceStageFor(e: Env, k: nat, before: seq<Call>, attempts: seq<nat>, t: State, step: Step): InitOutcome
    requires e.maxAttempts >= 1
  {
    AfterDevicePhase(before, attempts, RetryFresh(e, t, k + |before|, step))
  }

  /** DeviceStage is the device stage with the device loop. */
  lemma DeviceStageIs(e: Env, k: nat, before: seq<Call>, attempts: seq<nat>, t: State)
    requires e.maxAttempts >= 1
    ensures DeviceStage(e, k, before, attempts, t) == DeviceStageFor(e, k, before, attempts, t, ConnectDeviceStep)
  {
  }

  /** The device stage with the loop of any step but the subscribe loop. */
  lemma DeviceLoopEnds(e: Env, s: State, t: State, k: nat, start: seq<Call>, before: seq<Call>, attempts: seq<nat>, step: Step)
    requires e.maxAttempts >= 1 && SameFlags(s, t) && Prefix(start, before) && step != SubscribeStep
    requires |attempts| == 2 && 1 <= attempts[0] <= e.maxAttempts && 1 <= attempts[1] <= e.maxAttempts
    ensures InitEnded(e, s, start, DeviceStageFor(e, k, before, attempts, t, step))
  {
    FreshLoopEnded(e, s, t, k + |before|, step);
    DevicePhaseEnds(e, s, start, before, attempts, RetryFresh(e, t, k + |before|, step));
  }

  /** A loop of the initialization started with RETRY_CR in a state with the flags of `s`. */
  lemma FreshLoopEnded(e: Env, s: State, t: State, j: nat, step: Step)
    requires e.maxAttempts >= 1 && SameFlags(s, t) && step != SubscribeStep
    ensures LoopEnded(e, s, RetryFresh(e, t, j, step))
  {
    InitLoopOf(e, step);
    LoopEndedWith(e, s, t, j, LoopOf(e, step));
  }

  /** The config phase and what follows it. */
  lemma ConfigPhaseEnds(e: Env, s: State, k: nat, start: seq<Call>, before: seq<Call>, gatewayAttempts: nat, c: RetryOutcome)
    requires Prefix(start, before)
    requires e.maxAttempts >= 1 && 1 <= gatewayAttempts <= e.maxAttempts
    requires LoopEnded(e, s, c)
    ensures InitEnded(e, s, start, AfterConfigPhase(e, k, before, gatewayAttempts, c))
  {
    if c.gaveUp {
      ConfigGaveUp(e, s, k, start, before, gatewayAttempts, c);
    } else {
      ConfigGoesOn(e, s, k, start, before, gatewayAttempts, c);
    }
  }

  /** A gateway loop that gave up ends the initialization. */
  lemma GatewayGaveUp(e: Env, s: State, k: nat, start: seq<Call>, before: seq<Call>, g: RetryOutcome)
    requires Prefix(start, before)
    requires e.maxAttempts >= 1
    requires LoopEnded(e, s, g) && g.gaveUp
    ensures InitEnded(e, s, start, AfterGatewayPhase(e, k, before, g))
  {
    PrefixExtended(start, before, g.calls, [FreeGateway]);
  }

  /** The config phase after a gateway loop that succeeded. */
  lemma GatewayGoesOn(e: Env, s: State, k: nat, start: seq<Call>, before: seq<Call>, g: RetryOutcome)
    requires Prefix(start, before)
    requires e.maxAttempts >= 1
    requires LoopEnded(e, s, g) && !g.gaveUp
    ensures InitEnded(e, s, start, AfterGatewayPhase(e, k, before, g))
  {
    PrefixExtended(start, before, g.calls, [WdtFeed]);
    ConfigStageEnds(e, s, g.state, k, start, before + g.calls + [WdtFeed], g.attempts);
  }

  /** The config loop entered in `t`, with the flags of `s`, and what follows it. */
  lemma ConfigStageEnds(e: Env, s: State, t: State, k: nat, start: seq<Call>, before: seq<Call>, gatewayAttempts: nat)
    requires e.maxAttempts >= 1 && SameFlags(s, t) && Prefix(start, before)
    requires 1 <= gatewayAttempts <= e.maxAttempts
    ensures InitEnded(e, s, start, ConfigStage(e, k, before, gatewayAttempts, t))
  {
    InitLoopOf(e, GatewayConfigStep);
    LoopThenConfigPhase(e, s, t, k, LoopOf(e, GatewayConfigStep), start, before, gatewayAttempts);
    ConfigStageIs(e, k, before, gatewayAttempts, t);
  }

  /** The config stage after any loop `l`. */
  function ConfigStageWith(e: Env, l: RetryLoop, k: nat, before: seq<Call>, gatewayAttempts: nat, t: State): InitOutcome
    requires e.maxAttempts >= 1 && l.maxAttempts >= 1
  {
    AfterConfigPhase(e, k, before, gatewayAttempts, Retry(l, t, k + |before|, 0))
  }

  /** ConfigStage is the config stage with the config loop. */
  lemma ConfigStageIs(e: Env, k: nat, before: seq<Call>, gatewayAttempts: nat, t: State)
    requires e.maxAttempts >= 1
    ensures ConfigStage(e, k, before, gatewayAttempts, t) == ConfigStageWith(e, LoopOf(e, GatewayConfigStep), k, before, gatewayAttempts, t)
  {
  }

  /** What follows the config loop, after any loop of the initialization entered in `t`. */
  lemma LoopThenConfigPhase(e: Env, s: State, t: State, k: nat, l: RetryLoop, start: seq<Call>, before: seq<Call>, gatewayAttempts: nat)
    requires e.maxAttempts >= 1 && SameFlags(s, t) && Prefix(start, before) && InitLoop(e, l)
    requires 1 <= gatewayAttempts <= e.maxAttempts
    ensures InitEnded(e, s, start, ConfigStageWith(e, l, k, before, gatewayAttempts, t))
  {
    LoopEndedWith(e, s, t, k + |before|, l);
    ConfigPhaseEnds(e, s, k, start, before, gatewayAttempts, Retry(l, t, k + |before|, 0));
  }

  /** The gateway loop entered in `t`, with the flags of `s`, and what follows it. */
  lemma GatewayStageEnds(e: Env, s: State, t: State, k: nat, start: seq<Call>, before: seq<Call>)
    requires e.maxAttempts >= 1 && SameFlags(s, t) && Prefix(start, before)
    ensures InitEnded(e, s, start, GatewayStage(e, k, before, t))
  {
    InitLoopOf(e, ConnectGatewayStep);
    LoopThenGatewayPhase(e, s, t, k, LoopOf(e, ConnectGatewayStep), start, before);
    GatewayStageIs(e, k, before, t);
  }

  /** The gateway stage after any loop `l`. */
  function GatewayStageWith(e: Env, l: RetryLoop, k: nat, before: seq<Call>, t: State): InitOutcome
    requires e.maxAttempts >= 1 && l.maxAttempts >= 1
  {
    AfterGatewayPhase(e, k, before, Retry(l, t, k + |before|, 0))
  }

  /** GatewayStage is the gateway stage with the gateway loop. */
  lemma GatewayStageIs(e: Env, k: nat, before: seq<Call>, t: State)
    requires e.maxAttempts >= 1
    ensures GatewayStage(e, k, before, t) == GatewayStageWith(e, LoopOf(e, ConnectGatewayStep), k, before, t)
  {
  }

  /** What follows the gateway loop, after any loop of the initialization entered in `t`. */
  lemma LoopThenGatewayPhase(e: Env, s: State, t: State, k: nat, l: RetryLoop, start: seq<Call>, before: seq<Call>)
    requires e.maxAttempts >= 1 && SameFlags(s, t) && Prefix(start, before) && InitLoop(e, l)
    ensures InitEnded(e, s, start, GatewayStageWith(e, l, k, before, t))
  {
    LoopEndedWith(e, s, t, k + |before|, l);
    GatewayPhaseEnds(e, s, k, start, before, Retry(l, t, k + |before|, 0));
  }

  /** The gateway phase and what follows it. */
  lemma GatewayPhaseEnds(e: Env, s: State, k: nat, start: seq<Call>, before: seq<Call>, g: RetryOutcome)
    requires Prefix(start, before)
    requires e.maxAttempts >= 1
    requires LoopEnded(e, s, g)
    ensures InitEnded(e, s, start, AfterGatewayPhase(e, k, before, g))
  {
    if g.gaveUp {
      GatewayGaveUp(e, s, k, start, before, g);
    } else {
      GatewayGoesOn(e, s, k, start, before, g);
    }
  }

  /**
   * arrow_initialize_routine: it starts with the watchdog and the HTTP
   * session settings; the phases run in order, each with its own budget of
   * maxAttempts attempts; _init_done is set only by a run in which all three
   * succeed and is otherwise as it was; a run that gives up returns a
   * negative error (InitializeTrace: the last result of the phase that gave
   * up) after freeing device, config and gateway as far as the phase had
   * come, in that order; the mask is never touched.
   */
  lemma InitializePhases(e: Env, s: State, k: nat)
    requires e.maxAttempts >= 1
    ensures InitEnded(e, s, [WdtFeed, SetProtocolApiViaHttp, SessionCloseSet(false)], InitializeRoutine(e, s, k))
  {
    var before := [WdtFeed, SetProtocolApiViaHttp, SessionCloseSet(false)];
    GatewayStageEnds(e, s, s, k, before, before);
  }

  /**
   * arrow_initialize_routine phase by phase: the settings, then the gateway
   * loop, a feed and the config loop, then a feed, the session setting and
   * the device loop, each loop entered in the state the one before left. The
   * first loop that gives up ends the run with that loop's last result
   * (RetryAttempts: the result of its last attempt, all earlier ones having
   * failed) and the frees of the phases reached; a run whose three loops
   * succeed returns success.
   */
  lemma InitializeTrace(e: Env, s: State, k: nat)
    requires e.maxAttempts >= 1
    ensures var r := InitializeRoutine(e, s, k);
      var pre := [WdtFeed, SetProtocolApiViaHttp, SessionCloseSet(false)];
      var g := RetryFresh(e, s, k + |pre|, ConnectGatewayStep);
      var cpre := pre + g.calls + [WdtFeed];
      var c := RetryFresh(e, g.state, k + |cpre|, GatewayConfigStep);
      var dpre := cpre + c.calls + [WdtFeed, SessionCloseSet(true)];
      var d := RetryFresh(e, c.state, k + |dpre|, ConnectDeviceStep);
      (g.gaveUp ==>
         r.failed == Some(GatewayPhase) && r.result == Failed(g.ret) && r.calls == pre + g.calls + [FreeGateway])
      && (!g.gaveUp && c.gaveUp ==>
            r.failed == Some(ConfigPhase) && r.result == Failed(c.ret)
            && r.calls == cpre + c.calls + [FreeGatewayConfig, FreeGateway])
      && (!g.gaveUp && !c.gaveUp && d.gaveUp ==>
            r.failed == Some(DevicePhase) && r.result == Failed(d.ret)
            && r.calls == dpre + d.calls + [FreeDevice, FreeGatewayConfig, FreeGateway])
      && (!g.gaveUp && !c.gaveUp && !d.gaveUp ==> r.result == Success && r.calls == dpre + d.calls)
  {
  }

  /**
   * A later phase's budget does not depend on the failures of an earlier
   * one: a phase that gives up has made all maxAttempts attempts of its own,
   * however many the phases before it needed.
   */
  lemma PhaseBudgetsIndependent(e: Env, s: State, k: nat)
    requires e.maxAttempts >= 1
    ensures var r := InitializeRoutine(e, s, k);
      (r.failed == Some(ConfigPhase) ==> r.attempts[1] == e.maxAttempts && 1 <= r.attempts[0] <= e.maxAttempts)
      && (r.failed == Some(DevicePhase) ==>
            r.attempts[2] == e.maxAttempts && 1 <= r.attempts[0] <= e.maxAttempts && 1 <= r.attempts[1] <= e.maxAttempts)
  {
    InitializePhases(e, s, k);
  }

  /**
   * arrow_gateway_initialize_routine: success sets _init_done; giving up
   * returns ROUTINE_ERROR, frees nothing and leaves _init_done alone; the
   * mask is never touched.
   */
  predicate GatewayInitEnded(s: State, start: seq<Call>, r: Run<Outcome>)
  {
    (r.value == Success || r.value == Error)
    && (r.value == Success ==> r.state.initDone)
    && (r.value == Error ==> r.state.initDone == s.initDone)
    && r.state.mask == s.mask
    && FreeGateway !in r.calls && FreeGatewayConfig !in r.calls
    && Prefix(start, r.calls)
  }

  /**
   * A loop of arrow_gateway_initialize_routine entered in a state with the
   * flags of `s`: it keeps them, and frees nothing.
   */
  lemma OnlyLoopKept(e: Env, s: State, t: State, j: nat, step: Step)
    requires e.maxAttempts >= 1 && SameFlags(s, t)
    requires step == ConnectGatewayStep || step == GatewayConfigStep
    ensures var r := RetryFresh(e, t, j, step);
      SameFlags(s, r.state) && FreeGateway !in r.calls && FreeGatewayConfig !in r.calls
  {
    var l := LoopOf(e, step);
    var allowed := StepCalls(step) + {Sleep(Delay(step))};
    LoopOfAttempts(e, step);
    RetryWithin(l, t, j, 0, allowed);
    RetryFlags(l, t, j, 0);
    assert FreeGateway !in allowed && FreeGatewayConfig !in allowed;
  }

  /** The config loop of arrow_gateway_initialize_routine and its end. */
  lemma ConfigOnlyEnds(e: Env, s: State, t: State, k: nat, start: seq<Call>, before: seq<Call>)
    requires e.maxAttempts >= 1 && SameFlags(s, t) && Prefix(start, before)
    requires FreeGateway !in before && FreeGatewayConfig !in before
    ensures GatewayInitEnded(s, start, ConfigOnlyStage(e, k, before, t))
  {
    var c := RetryFresh(e, t, k + |before|, GatewayConfigStep);
    OnlyLoopKept(e, s, t, k + |before|, GatewayConfigStep);
    PrefixExtended(start, before, c.calls, []);
  }

  /** The gateway loop of arrow_gateway_initialize_routine, entered in `t`, and what follows it. */
  lemma GatewayOnlyEnds(e: Env, s: State, t: State, k: nat, start: seq<Call>, before: seq<Call>)
    requires e.maxAttempts >= 1 && SameFlags(s, t) && Prefix(start, before)
    requires FreeGateway !in before && FreeGatewayConfig !in before
    ensures GatewayInitEnded(s, start, GatewayOnlyStage(e, k, before, t))
  {
    OnlyLoopKept(e, s, t, k + |before|, ConnectGatewayStep);
    AfterGatewayOnlyEnds(e, s, k, start, before, RetryFresh(e, t, k + |before|, ConnectGatewayStep), GatewayOnlyStage(e, k, before, t));
  }

  /** What follows the gateway loop `g` of arrow_gateway_initialize_routine. */
  lemma AfterGatewayOnlyEnds(e: Env, s: State, k: nat, start: seq<Call>, before: seq<Call>, g: RetryOutcome, r: Run<Outcome>)
    requires e.maxAttempts >= 1 && Prefix(start, before)
    requires FreeGateway !in before && FreeGatewayConfig !in before
    requires SameFlags(s, g.state) && FreeGateway !in g.calls && FreeGatewayConfig !in g.calls
    requires r == AfterGatewayOnly(e, k, before, g)
    ensures GatewayInitEnded(s, start, r)
  {
    if g.gaveUp {
      PrefixExtended(start, before, g.calls, []);
    } else {
      var calls := before + g.calls + [SessionCloseSet(true), WdtFeed];
      PrefixExtended(start, before, g.calls, [SessionCloseSet(true), WdtFeed]);
      ConfigOnlyEnds(e, s, g.state, k, start, calls);
    }
  }

  /** arrow_gateway_initialize_routine keeps GatewayInitEnded. */
  lemma GatewayInitializeOutcome(e: Env, s: State, k: nat)
    requires e.maxAttempts >= 1
    ensures GatewayInitEnded(s, [WdtFeed, SessionCloseSet(false)], GatewayInitializeRoutine(e, s, k))
  {
    var before := [WdtFeed, SessionCloseSet(false)];
    GatewayOnlyEnds(e, s, s, k, before, before);
  }

  // ---------------------------------------------------------------------
  // Readiness guards
  // ---------------------------------------------------------------------

  /** Before initialization nothing is sent, posted or connected. */
  lemma NotInitializedGuards(e: Env, s: State, k: nat, kind: LoopKind, fuel: nat)
    requires e.maxAttempts >= 1 && !s.initDone
    ensures SendTelemetryRoutine(e, s, k) == Run(s, [], NotInitialize)
    ensures DeviceStatesUpdate(s) == Run(s, [], Error)
    ensures DeviceStatesSync(s) == Run(s, [StateReceive], Error)
    ensures MqttConnectRoutine(e, s, k) == Run(s, [], NotInitialize)
    ensures TelemetryRoutine(e, s, k, kind, fuel) == Run(s, [], Some(NotInitialize))
    ensures TelemetryOnceRoutine(e, s, k) == Run(s, [], NotInitialize)
    ensures EventReceiveRoutine(e, s, k) == Run(s, [], NotInitialize)
    ensures CheckInit(s) == NotInitialize
  {
  }

  /**
   * Once initialized, the telemetry loops, the single publish, the event
   * poll and arrow_mqtt_check_init still refuse, with NOT_INITIALIZE and no
   * call, unless their channel bits are set: the telemetry bit for the
   * routines that publish, with the command bit too for the loop that polls
   * for events, and the command bit for the poll and the check. A routine
   * that does not refuse makes a call.
   */
  lemma ChannelGuards(e: Env, s: State, k: nat, fuel: nat)
    ensures var publish := s.initDone && HasBit(s.mask, TelemetryBit);
      var commands := s.initDone && HasBit(s.mask, CommandBit);
      var loop := TelemetryRoutine(e, s, k, WithEvents, fuel);
      (loop.calls == [] <==> !(publish && commands))
      && (!(publish && commands) ==> loop == Run(s, [], Some(NotInitialize)))
    ensures var publish := s.initDone && HasBit(s.mask, TelemetryBit);
      var loop := TelemetryRoutine(e, s, k, SleepOnly, fuel);
      (loop.calls == [] <==> !publish) && (!publish ==> loop == Run(s, [], Some(NotInitialize)))
    ensures var publish := s.initDone && HasBit(s.mask, TelemetryBit);
      var once := TelemetryOnceRoutine(e, s, k);
      (once.calls == [] <==> !publish) && (!publish ==> once == Run(s, [], NotInitialize))
    ensures var commands := s.initDone && HasBit(s.mask, CommandBit);
      var poll := EventReceiveRoutine(e, s, k);
      (poll.calls == [] <==> !commands) && (!commands ==> poll == Run(s, [], NotInitialize))
    ensures (CheckInit(s) == Success <==> s.initDone && HasBit(s.mask, CommandBit))
      && (CheckInit(s) == Success || CheckInit(s) == NotInitialize)
  {
  }

  /**
   * One feed, then a one-call retry loop on `c`: the state is left alone,
   * the run fails exactly when a failed call was the last of maxAttempts.
   */
  predicate SendRetried(e: Env, s: State, k: nat, c: Call, r: Run<Outcome>)
  {
    var n := |r.calls|;
    r.state == s && n >= 1 && r.calls[0] == WdtFeed
    && (r.value == Success || r.value == Error)
    && (r.value == Error <==>
          Occurrences(r.calls, c) == e.maxAttempts && r.calls[n - 1] == c && e.oracle(k + n - 1).code < 0)
  }

  /**
   * arrow_send_telemetry_routine, once initialized, keeps SendRetried: after
   * the feed it sends and sleeps in turn, every send but the last failed, and
   * it returns ROUTINE_ERROR exactly when all maxAttempts sends failed.
   */
  lemma SendTelemetryRetries(e: Env, s: State, k: nat)
    requires e.maxAttempts >= 1 && s.initDone
    ensures SendRetried(e, s, k, SendTelemetry, SendTelemetryRoutine(e, s, k))
    ensures var r := SendTelemetryRoutine(e, s, k); var l := RetryFresh(e, s, k + 1, SendTelemetryStep);
      r.calls == [WdtFeed] + l.calls && CallLoopShape(e, k + 1, SendTelemetry, Sleep(ArrowRetryDelay), l, l.attempts)
      && (r.value == Error <==> AllFailed(e, k + 1, e.maxAttempts))
  {
    FeedThenRetries(e, s, k, SendTelemetryStep);
    SendIs(e, s, k);
    RetryCallReplies(e, s, k + 1, SendTelemetryStep);
  }

  /** One feed, then the loop of `step`. */
  function FeedThen(e: Env, s: State, k: nat, step: Step): Run<Outcome>
    requires e.maxAttempts >= 1
  {
    var r := RetryFresh(e, s, k + 1, step);
    Run(r.state, [WdtFeed] + r.calls, if r.gaveUp then Error else Success)
  }

  /** arrow_send_telemetry_routine, once initialized, is a feed and then the send loop. */
  lemma SendIs(e: Env, s: State, k: nat)
    requires e.maxAttempts >= 1 && s.initDone
    ensures SendTelemetryRoutine(e, s, k) == FeedThen(e, s, k, SendTelemetryStep)
  {
  }

  /** A feed, then any one-call loop that keeps the state. */
  lemma FeedThenRetries(e: Env, s: State, k: nat, step: Step)
    requires e.maxAttempts >= 1
    requires !step.ConnectGatewayStep? && !step.ConnectDeviceStep? && step != SubscribeStep
    ensures SendRetried(e, s, k, StepCall(step), FeedThen(e, s, k, step))
  {
    LoopOfOneCall(e, step);
    FeedThenLoop(e, LoopOf(e, step), StepCall(step), s, k);
  }

  /** One feed, then the loop `l` started with the counter at zero. */
  function FeedThenWith(l: RetryLoop, s: State, k: nat): Run<Outcome>
    requires l.maxAttempts >= 1
  {
    var r := Retry(l, s, k + 1, 0);
    Run(r.state, [WdtFeed] + r.calls, if r.gaveUp then Error else Success)
  }

  /** A feed, then any one-call loop that does not clear the command bit. */
  lemma FeedThenLoop(e: Env, l: RetryLoop, c: Call, s: State, k: nat)
    requires l.maxAttempts == e.maxAttempts >= 1 && OneCall(e, l, c) && !l.clears && c != Sleep(l.delay) && c != WdtFeed
    ensures SendRetried(e, s, k, c, FeedThenWith(l, s, k))
  {
    OneCallLoopEnds(e, l, c, s, k + 1);
    FeedShape(e, s, k, c, Retry(l, s, k + 1, 0), FeedThenWith(l, s, k));
  }

  /** The calls of a feed and a one-call loop `rr` on `c`. */
  lemma FeedShape(e: Env, s: State, k: nat, c: Call, rr: RetryOutcome, r: Run<Outcome>)
    requires c != WdtFeed && OneCallEnded(e, c, s, k + 1, rr)
    requires r == Run(rr.state, [WdtFeed] + rr.calls, if rr.gaveUp then Error else Success)
    ensures SendRetried(e, s, k, c, r)
  {
    OccurrencesAppend([WdtFeed], rr.calls, c);
    assert r.calls[|r.calls| - 1] == rr.calls[|rr.calls| - 1];
  }

  /**
   * How a one-call loop `rr` on `c` entered in `s` at call `j` ends: in `s`,
   * giving up exactly when its last result is negative and then after every
   * attempt, with one call of `c` per attempt, the last one last.
   */
  ghost predicate OneCallEnded(e: Env, c: Call, s: State, j: nat, rr: RetryOutcome)
  {
    rr.state == s
    && (rr.gaveUp <==> rr.ret < 0) && (rr.gaveUp ==> rr.attempts == e.maxAttempts)
    && Occurrences(rr.calls, c) == rr.attempts && rr.attempts <= e.maxAttempts
    && |rr.calls| >= 1 && rr.calls[|rr.calls| - 1] == c && rr.ret == e.oracle(j + |rr.calls| - 1).code
  }

  /** What a one-call loop that keeps the state promises, from call `j` on. */
  lemma OneCallLoopEnds(e: Env, l: RetryLoop, c: Call, s: State, j: nat)
    requires l.maxAttempts == e.maxAttempts >= 1 && OneCall(e, l, c) && !l.clears && c != Sleep(l.delay)
    ensures OneCallEnded(e, c, s, j, Retry(l, s, j, 0))
  {
    OneCallAttempts(e, l, c);
    RetryBounds(l, s, j, 0);
    RetryCallCount(e, l, c, s, j, 0);
    RetryLastCall(e, l, c, s, j, 0);
    RetryFlags(l, s, j, 0);
  }

  // ---------------------------------------------------------------------
  // Channel flags
  // ---------------------------------------------------------------------

  /**
   * Opening the telemetry channel: refused with nothing called when its bit
   * is set; on success only the telemetry bit is added; on give-up the bit
   * stays clear; _init_done and the hids are left alone.
   */
  lemma ConnectTelemetryFlags(e: Env, s: State, k: nat)
    requires e.maxAttempts >= 1
    ensures var r := ConnectTelemetryRoutine(e, s, k);
      r.state.initDone == s.initDone && r.state.gatewayHid == s.gatewayHid && r.state.deviceHid == s.deviceHid
      && (HasBit(s.mask, TelemetryBit) ==> r == Run(s, [], Error))
      && (!HasBit(s.mask, TelemetryBit) ==>
            (r.value == Success && r.state.mask == s.mask | TelemetryBit)
            || (r.value == MqttConnectFailed && r.state.mask == s.mask))
    ensures var r := ConnectTelemetryRoutine(e, s, k); var l := RetryFresh(e, s, k, TelemetryConnectStep);
      !HasBit(s.mask, TelemetryBit) ==>
        r.calls == l.calls && CallLoopShape(e, k, TelemetryConnect, Sleep(MqttRetryDelay), l, l.attempts)
        && (r.value == Success <==> !AllFailed(e, k, e.maxAttempts))
  {
    if !HasBit(s.mask, TelemetryBit) {
      RetryCallLoop(e, s, k, TelemetryConnectStep);
      RetryCallReplies(e, s, k, TelemetryConnectStep);
    }
  }

  /** Opening the event channel, the same with the command bit. */
  lemma ConnectEventFlags(e: Env, s: State, k: nat)
    requires e.maxAttempts >= 1
    ensures var r := ConnectEventRoutine(e, s, k);
      r.state.initDone == s.initDone && r.state.gatewayHid == s.gatewayHid && r.state.deviceHid == s.deviceHid
      && (HasBit(s.mask, CommandBit) ==> r == Run(s, [], Error))
      && (!HasBit(s.mask, CommandBit) ==>
            (r.value == Success && r.state.mask == s.mask | CommandBit)
            || (r.value == MqttSubscribeFailed && r.state.mask == s.mask))
    ensures var r := ConnectEventRoutine(e, s, k); var l := RetryFresh(e, s, k, SubscribeConnectStep);
      !HasBit(s.mask, CommandBit) ==>
        r.calls == l.calls && CallLoopShape(e, k, SubscribeConnect, Sleep(MqttRetryDelay), l, l.attempts)
        && (r.value == Success <==> !AllFailed(e, k, e.maxAttempts))
  {
    if !HasBit(s.mask, CommandBit) {
      RetryCallLoop(e, s, k, SubscribeConnectStep);
      RetryCallReplies(e, s, k, SubscribeConnectStep);
    }
  }

  /**
   * Subscribing: success sets the command bit and nothing else; giving up
   * returns MqttSubscribeFailed with the command bit cleared as soon as one
   * failed attempt was followed by a sleep.
   */
  lemma SubscribeFlags(e: Env, s: State, k: nat)
    requires e.maxAttempts >= 1
    ensures var r := SubscribeEventRoutine(e, s, k);
      r.state.initDone == s.initDone
      && (r.value == Success ==> r.state.mask == s.mask | CommandBit)
      && (r.value != Success ==>
            r.value == MqttSubscribeFailed && r.state.mask == if e.maxAttempts > 1 then s.mask & !CommandBit else s.mask)
    ensures var r := SubscribeEventRoutine(e, s, k); var l := RetryFresh(e, s, k, SubscribeStep);
      r.calls == l.calls && CallLoopShape(e, k, Subscribe, Sleep(MqttRetryDelay), l, l.attempts)
      && (r.value == Success <==> !AllFailed(e, k, e.maxAttempts))
  {
    LoopOfAttempts(e, SubscribeStep);
    ClearingLoopFlags(LoopOf(e, SubscribeStep), s, k);
    RetryCallReplies(e, s, k, SubscribeStep);
  }

  /**
   * A loop that clears the command bit after each failure ends with the
   * command bit cleared exactly when it gave up after more than one
   * attempt; the loop's other bits are those it started with.
   */
  lemma ClearingLoopFlags(l: RetryLoop, s: State, k: nat)
    requires l.clears && l.maxAttempts >= 1 && AttemptsKeepFlags(l)
    ensures var r := Retry(l, s, k, 0);
      r.state.initDone == s.initDone
      && (!r.gaveUp ==> r.state.mask | CommandBit == s.mask | CommandBit)
      && (r.gaveUp ==> r.state.mask == if l.maxAttempts > 1 then s.mask & !CommandBit else s.mask)
  {
    RetryBounds(l, s, k, 0);
    RetryFlags(l, s, k, 0);
    assert (s.mask & !CommandBit) | CommandBit == s.mask | CommandBit;
  }

  /** Setting or clearing one bit leaves the other as it was. */
  lemma BitsIndependent(mask: bv8)
    ensures HasBit(mask | TelemetryBit, CommandBit) == HasBit(mask, CommandBit)
    ensures HasBit(mask | CommandBit, TelemetryBit) == HasBit(mask, TelemetryBit)
    ensures HasBit(mask & !CommandBit, TelemetryBit) == HasBit(mask, TelemetryBit)
    ensures !HasBit(mask & !CommandBit, CommandBit) && HasBit(mask | CommandBit, CommandBit)
    ensures HasBit(mask | TelemetryBit, TelemetryBit)
  {
  }

  /**
   * Disconnecting or terminating a channel never changes the state; a
   * disconnect of a channel whose bit is clear calls nothing.
   */
  lemma ChannelCloseKeepsMask(e: Env, s: State, k: nat)
    ensures DisconnectTelemetryRoutine(e, s, k).state == s
    ensures TerminateTelemetryRoutine(e, s, k).state == s
    ensures DisconnectEventRoutine(e, s, k).state == s
    ensures TerminateEventRoutine(e, s, k).state == s
    ensures !HasBit(s.mask, TelemetryBit) ==> DisconnectTelemetryRoutine(e, s, k) == Run(s, [], Error)
    ensures !HasBit(s.mask, CommandBit) ==> DisconnectEventRoutine(e, s, k) == Run(s, [], Error)
    ensures TerminateTelemetryRoutine(e, s, k).value == Error <==> e.oracle(k).code < 0
    ensures TerminateEventRoutine(e, s, k).value == Error <==> e.oracle(k).code < 0
  {
  }

  /** arrow_mqtt_disconnect_routine fails exactly on an empty mask, and otherwise empties it. */
  lemma DisconnectRoutine(s: State)
    ensures var r := MqttDisconnectRoutine(s);
      (r.value == Error <==> s.mask == 0)
      && (r.value == Error ==> r == Run(s, [], Error))
      && (r.value == Success ==> r.state == s.(mask := 0) && r.calls == [MqttDisconnect])
  {
  }

  /** The event poll's mapping of the yield result. */
  lemma EventPollMapping(e: Env, s: State, k: nat)
    requires s.initDone && HasBit(s.mask, CommandBit)
    ensures var r := EventReceiveRoutine(e, s, k); var y := e.oracle(k).code;
      r.state == s && r.calls == [Yield(e.telemetryDelay), WdtFeed]
      && (r.value == ReceiveEvent <==> y > 0)
      && (r.value == Error <==> y <= 0 && y == e.failureRequiresRestart)
      && (r.value == Success <==> y <= 0 && y != e.failureRequiresRestart)
  {
  }

  /**
   * arrow_mqtt_connect_routine: a refused or failed telemetry channel stops
   * before the event channel is touched.
   */
  lemma MqttConnectStopsOnTelemetry(e: Env, s: State, k: nat)
    requires e.maxAttempts >= 1 && s.initDone
    requires ConnectTelemetryRoutine(e, s, k).value != Success
    ensures MqttConnectRoutine(e, s, k) == ConnectTelemetryRoutine(e, s, k)
    ensures SubscribeConnect !in MqttConnectRoutine(e, s, k).calls
  {
    if !HasBit(s.mask, TelemetryBit) {
      RetryCallLoop(e, s, k, TelemetryConnectStep);
    }
  }

  /**
   * arrow_mqtt_connect_routine, once initialized: it succeeds exactly when
   * both channels were opened, and then the telemetry bit is set. The
   * command bit is set too unless the subscription for postponed messages
   * gave up after sleeping, which clears it while the routine still reports
   * success.
   */
  lemma MqttConnectSetsBoth(e: Env, s: State, k: nat)
    requires e.maxAttempts >= 1 && s.initDone
    ensures var r := MqttConnectRoutine(e, s, k);
      var t := ConnectTelemetryRoutine(e, s, k); var v := ConnectEventRoutine(e, t.state, k + |t.calls|);
      r.state.initDone
      && (r.value == Success <==> t.value == Success && v.value == Success)
      && (r.value == Success ==> HasBit(r.state.mask, TelemetryBit))
      && (r.value == Success && !HasBit(r.state.mask, CommandBit) ==> Subscribe in r.calls && e.maxAttempts > 1)
  {
    var t := ConnectTelemetryRoutine(e, s, k);
    ConnectTelemetryFlags(e, s, k);
    BitsIndependent(s.mask);
    EventChannelFlags(e, k, t);
  }

  /** The event channel after a telemetry channel `t` that, opened, holds its bit. */
  lemma EventChannelFlags(e: Env, k: nat, t: Run<Outcome>)
    requires e.maxAttempts >= 1 && t.state.initDone
    requires t.value == Success ==> HasBit(t.state.mask, TelemetryBit)
    ensures var r := EventChannelStage(e, k, t); var v := ConnectEventRoutine(e, t.state, k + |t.calls|);
      r.state.initDone
      && (r.value == Success <==> t.value == Success && v.value == Success)
      && (r.value == Success ==> HasBit(r.state.mask, TelemetryBit))
      && (r.value == Success && !HasBit(r.state.mask, CommandBit) ==> Subscribe in r.calls && e.maxAttempts > 1)
  {
    if t.value == Success {
      var k1 := k + |t.calls|;
      ConnectEventFlags(e, t.state, k1);
      BitsIndependent(t.state.mask);
      PostponedStageFlags(e, k1, t.calls, ConnectEventRoutine(e, t.state, k1));
    }
  }

  /** The postponed messages after an event channel `v` that, opened, holds both bits. */
  lemma PostponedStageFlags(e: Env, k: nat, before: seq<Call>, v: Run<Outcome>)
    requires e.maxAttempts >= 1 && v.state.initDone
    requires v.value == Success ==> HasBit(v.state.mask, TelemetryBit) && HasBit(v.state.mask, CommandBit)
    ensures var r := PostponedStage(e, k, before, v);
      r.state.initDone
      && (r.value == Success <==> v.value == Success)
      && (r.value == Success ==> HasBit(r.state.mask, TelemetryBit))
      && (r.value == Success && !HasBit(r.state.mask, CommandBit) ==> Subscribe in r.calls && e.maxAttempts > 1)
  {
    if v.value == Success {
      PostponedFlags(e, v.state, k + |v.calls|);
    }
  }

  /**
   * Processing postponed messages keeps the telemetry bit; it loses the
   * command bit only when it subscribed and that loop slept at least once.
   */
  lemma PostponedFlags(e: Env, s: State, k: nat)
    requires e.maxAttempts >= 1 && s.initDone && HasBit(s.mask, CommandBit)
    ensures var p := ProcessPostponed(e, s, k);
      p.state.initDone
      && HasBit(p.state.mask, TelemetryBit) == HasBit(s.mask, TelemetryBit)
      && (!HasBit(p.state.mask, CommandBit) ==> Subscribe in p.calls && e.maxAttempts > 1)
  {
    var received := EventReceiveRoutine(e, s, k);
    if received.value != ReceiveEvent {
      var j := k + |received.calls|;
      SubscribeFlags(e, s, j);
      RetryCallLoop(e, s, j, SubscribeStep);
      BitsIndependent(s.mask);
      BitsIndependent(s.mask & !CommandBit);
    }
  }

  // ---------------------------------------------------------------------
  // Shutdown
  // ---------------------------------------------------------------------

  /**
   * arrow_close terminates MQTT first and empties the mask; after an
   * initialization it then frees device, gateway and config, in that order,
   * and clears _init_done; otherwise it frees nothing.
   */
  lemma CloseOrder(e: Env, s: State, k: nat)
    ensures var r := Close(e, s, k); var n := |r.calls|;
      n >= 2 && r.calls[..2] == [MqttTerminate, StateMqttIsRunning]
      && (StateMqttStop in r.calls <==> e.oracle(k + 1).code != 0)
      && r.state.mask == 0 && !r.state.initDone
      && (s.initDone ==> n >= 3 && r.calls[n - 3..] == [FreeDevice, FreeGateway, FreeGatewayConfig]
                         && r.state.deviceHid.None? && r.state.gatewayHid.None?)
      && (!s.initDone ==> FreeDevice !in r.calls && FreeGateway !in r.calls && FreeGatewayConfig !in r.calls
                          && r.state == s.(mask := 0))
  {
  }

  // ---------------------------------------------------------------------
  // Telemetry loops
  // ---------------------------------------------------------------------

  /**
   * Every publish among calls made from index k on comes right after a
   * watchdog feed that follows a producer call that returned 0.
   */
  predicate PublishesOnlyReadyData(e: Env, calls: seq<Call>, k: nat)
  {
    forall i :: 0 <= i < |calls| && calls[i] == Publish ==>
      2 <= i && calls[i - 2] == ProduceData && e.oracle(k + i - 2).code == 0 && calls[i - 1] == WdtFeed
  }

  /**
   * One cycle: with events, a pending event returns ReceiveEvent before
   * the producer is called; a negative producer result fails, a positive one
   * skips publishing, zero publishes and a failed publish ends the cycle.
   */
  lemma CycleOutcome(e: Env, s: State, k: nat, kind: LoopKind)
    ensures var r := Cycle(e, s, k, kind); var d := if kind == WithEvents then 2 else 1;
      (kind == WithEvents && e.oracle(k + 1).code != 0 ==>
            r.value == Some(ReceiveEvent) && r.calls == [MqttReceive(e.telemetryDelay), HasEvents])
      && (kind == SleepOnly ==> r.calls[0] == Sleep(e.telemetryDelay))
      && (!(kind == WithEvents && e.oracle(k + 1).code != 0) ==>
            |r.calls| > d && r.calls[d] == ProduceData
            && (e.oracle(k + d).code < 0 ==> r.value == Some(GetTelemetryFailed) && |r.calls| == d + 1)
            && (e.oracle(k + d).code > 0 ==> r.value == None && |r.calls| == d + 1)
            && (e.oracle(k + d).code == 0 ==>
                  r.calls[d + 1..] == [WdtFeed, Publish]
                  && r.value == (if e.oracle(k + d + 2).code < 0 then Some(MqttPublishFailed) else None)))
  {
  }

  /**
   * What a run of cycles promises: the state is left alone, every publish
   * follows ready data, and it stops only with ReceiveEvent (never in the
   * sleep-only loop), GetTelemetryFailed or MqttPublishFailed.
   */
  predicate RunsSafely(e: Env, s: State, k: nat, kind: LoopKind, r: Run<Option<Outcome>>)
  {
    r.state == s && PublishesOnlyReadyData(e, r.calls, k)
    && (r.value.Some? ==> r.value.value in {ReceiveEvent, GetTelemetryFailed, MqttPublishFailed})
    && (kind == SleepOnly ==> r.value != Some(ReceiveEvent))
  }

  /** A cycle that publishes does so right after a feed that follows ready data. */
  lemma PublishedCycle(e: Env, start: seq<Call>, k: nat)
    requires Publish !in start && e.oracle(k + |start|).code == 0
    ensures PublishesOnlyReadyData(e, start + [ProduceData, WdtFeed, Publish], k)
  {
    var t := start + [ProduceData, WdtFeed, Publish];
    assert forall j | 0 <= j < |start| :: t[j] == start[j] && start[j] != Publish;
    forall i | 0 <= i < |t| && t[i] == Publish
      ensures 2 <= i && t[i - 2] == ProduceData && e.oracle(k + i - 2).code == 0 && t[i - 1] == WdtFeed
    {
      assert i == |t| - 1;
    }
  }

  /** A cycle that does not publish. */
  lemma UnpublishedCycle(e: Env, calls: seq<Call>, k: nat)
    requires Publish !in calls
    ensures PublishesOnlyReadyData(e, calls, k)
  {
  }

  /** Every cycle runs safely. */
  lemma CycleSafe(e: Env, s: State, k: nat, kind: LoopKind)
    ensures RunsSafely(e, s, k, kind, Cycle(e, s, k, kind))
  {
    var start := CycleStart(e, kind);
    assert Publish !in start;
    if kind == WithEvents && e.oracle(k + 1).code != 0 {
      UnpublishedCycle(e, start, k);
    } else if e.oracle(k + |start|).code != 0 {
      assert Publish !in start + [ProduceData];
      UnpublishedCycle(e, start + [ProduceData], k);
    } else {
      PublishedCycle(e, start, k);
    }
  }

  /** Running safely survives putting a cycle that goes on in front. */
  lemma RunsSafelyAppend(e: Env, s: State, k: nat, kind: LoopKind, c: Run<Option<Outcome>>, rest: Run<Option<Outcome>>)
    requires RunsSafely(e, s, k, kind, c) && c.value.None?
    requires RunsSafely(e, s, k + |c.calls|, kind, rest)
    ensures RunsSafely(e, s, k, kind, Then(c.calls, rest))
  {
    PublishesOnlyReadyDataAppend(e, c.calls, rest.calls, k);
  }

  /** Publishing only ready data survives putting the calls of earlier cycles in front. */
  lemma PublishesOnlyReadyDataAppend(e: Env, a: seq<Call>, b: seq<Call>, k: nat)
    requires PublishesOnlyReadyData(e, a, k) && PublishesOnlyReadyData(e, b, k + |a|)
    ensures PublishesOnlyReadyData(e, a + b, k)
  {
    var ab := a + b;
    forall i | 0 <= i < |ab| && ab[i] == Publish
      ensures 2 <= i && ab[i - 2] == ProduceData && e.oracle(k + i - 2).code == 0 && ab[i - 1] == WdtFeed
    {
      if i < |a| {
        assert ab[i] == a[i];
      } else {
        var j := i - |a|;
        assert b[j] == Publish;
        assert 2 <= j && b[j - 2] == ProduceData && e.oracle(k + |a| + j - 2).code == 0 && b[j - 1] == WdtFeed;
      }
    }
  }

  /** Every cycle a loop may run runs safely. */
  ghost predicate CyclesSafe(e: Env, s: State, kind: LoopKind, cycle: nat -> Run<Option<Outcome>>)
  {
    forall j: nat :: RunsSafely(e, s, j, kind, cycle(j))
  }

  lemma AllCyclesSafe(e: Env, s: State, kind: LoopKind)
    ensures CyclesSafe(e, s, kind, CycleOf(e, s, kind))
  {
    forall j: nat
      ensures RunsSafely(e, s, j, kind, CycleOf(e, s, kind)(j))
    {
      CycleSafe(e, s, j, kind);
    }
  }

  /** Over any number of cycles that each run safely, the loop runs safely. */
  lemma {:induction false} LoopRunsSafely(e: Env, s: State, k: nat, kind: LoopKind,
                                          cycle: nat -> Run<Option<Outcome>>, fuel: nat)
    requires CyclesSafe(e, s, kind, cycle)
    ensures RunsSafely(e, s, k, kind, Loop(cycle, s, k, fuel))
    decreases fuel
  {
    if fuel > 0 {
      var c := cycle(k);
      assert RunsSafely(e, s, k, kind, c);
      if c.value.None? {
        var rest := Loop(cycle, s, k + |c.calls|, fuel - 1);
        LoopRunsSafely(e, s, k + |c.calls|, kind, cycle, fuel - 1);
        RunsSafelyAppend(e, s, k, kind, c, rest);
        assert Loop(cycle, s, k, fuel) == Then(c.calls, rest);
      } else {
        assert Loop(cycle, s, k, fuel) == c;
      }
    }
  }

  /** The whole routine: one feed, then the loop; the same guarantees. */
  lemma TelemetryRoutinePublishesOnlyReadyData(e: Env, s: State, k: nat, kind: LoopKind, fuel: nat)
    requires LoopReady(s, kind)
    ensures var r := TelemetryRoutine(e, s, k, kind, fuel);
      r.state == s && r.calls[0] == WdtFeed && PublishesOnlyReadyData(e, r.calls, k)
      && (r.value.Some? ==> r.value.value in {ReceiveEvent, GetTelemetryFailed, MqttPublishFailed})
  {
    AllCyclesSafe(e, s, kind);
    LoopRunsSafely(e, s, k + 1, kind, CycleOf(e, s, kind), fuel);
    PublishesOnlyReadyDataAppend(e, [WdtFeed], Loop(CycleOf(e, s, kind), s, k + 1, fuel).calls, k);
  }

  /** The once variant fails on any nonzero producer result and publishes at most once. */
  lemma TelemetryOnce(e: Env, s: State, k: nat)
    requires LoopReady(s, SleepOnly)
    ensures var r := TelemetryOnceRoutine(e, s, k); var data := e.oracle(k + 1).code;
      r.state == s
      && (data != 0 ==> r.value == GetTelemetryFailed && r.calls == [WdtFeed, ProduceData])
      && (data == 0 ==>
            r.calls == [WdtFeed, ProduceData, Publish]
            && r.value == (if e.oracle(k + 2).code < 0 then MqttPublishFailed else Success))
  {
  }
}
