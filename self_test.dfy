/** `run_bridge_self_test`: reads the channel's connectivity, stops when it is
    SHUTDOWN, and otherwise sends one fixed probe to each of the three services,
    event first, then state, then platform, recording for each either its
    response or its error. A failing probe never stops the next one. */
module SelfTest {
  import opened PyModel
  import opened Rpc

  /** The fixed probe requests. */
  const EventProbe := EventMessage("net_core_bridge.self_test", "", "{}", "")
  const StateProbe := StateWriteRequest("self_test.entity", "online", "{}", "")
  const PlatformProbe := PlatformSetupRequest(PlatformInfo("self_test", "self_test_platform", ""))

  /** The keys of the results dict. */
  const ChannelStateKey := "channel_state"
  const EventKey := "event_interceptor"
  const StateKey := "state_interceptor"
  const PlatformKey := "entity_platform_interceptor"

  /** `{"ok": True, "response": ...}`; the latency entry is not modelled. */
  function OkRecord(response: Value): Value {
    VDict(map["ok" := VBool(true), "response" := response])
  }

  /** `{"ok": False, "error": str(ex)}`. */
  function FailedRecord(error: string): Value {
    VDict(map["ok" := VBool(false), "error" := VStr(error)])
  }

  /** The record of the event probe: its `handled` flag, or its error. */
  function EventRecord(reply: Outcome<EventDecision>): (v: Value)
    ensures v.VDict? && "ok" in v.entries && v.entries["ok"] == VBool(reply.Returned?)
    ensures reply.Returned? ==> v.entries.Keys == {"ok", "response"}
                                && v.entries["response"] == VBool(reply.value.handled)
    ensures reply.Raised? ==> v.entries.Keys == {"ok", "error"} && v.entries["error"] == VStr(reply.error)
  {
    match reply
    case Returned(d) => OkRecord(VBool(d.handled))
    case Raised(e) => FailedRecord(e)
  }

  /** The record of the state probe: `handled` and `override_state`, or its error. */
  function StateRecord(reply: Outcome<StateDecision>): (v: Value)
    ensures v.VDict? && "ok" in v.entries && v.entries["ok"] == VBool(reply.Returned?)
    ensures reply.Returned? ==>
              v.entries.Keys == {"ok", "response"}
              && v.entries["response"] == VDict(map["handled" := VBool(reply.value.handled),
                                                    "override_state" := VStr(reply.value.overrideState)])
    ensures reply.Raised? ==> v.entries.Keys == {"ok", "error"} && v.entries["error"] == VStr(reply.error)
  {
    match reply
    case Returned(d) => OkRecord(VDict(map["handled" := VBool(d.handled), "override_state" := VStr(d.overrideState)]))
    case Raised(e) => FailedRecord(e)
  }

  /** The record of the platform probe: its `ok` flag, or its error. */
  function PlatformRecord(reply: Outcome<LifecycleDecision>): (v: Value)
    ensures v.VDict? && "ok" in v.entries && v.entries["ok"] == VBool(reply.Returned?)
    ensures reply.Returned? ==> v.entries.Keys == {"ok", "response"}
                                && v.entries["response"] == VBool(reply.value.ok)
    ensures reply.Raised? ==> v.entries.Keys == {"ok", "error"} && v.entries["error"] == VStr(reply.error)
  {
    match reply
    case Returned(d) => OkRecord(VBool(d.ok))
    case Raised(e) => FailedRecord(e)
  }

  /** What the self-test returns, given what the connectivity check gave and
      what each probe got back. */
  function SelfTestResults(connectivity: Outcome<Connectivity>, ev: Outcome<EventDecision>,
                           st: Outcome<StateDecision>, pl: Outcome<LifecycleDecision>): (r: Outcome<map<string, Value>>)
    // a failing connectivity check is outside every try: it propagates
    ensures connectivity.Raised? <==> r.Raised?
    ensures connectivity.Raised? ==> r.error == connectivity.error
    ensures r.Returned? ==> ChannelStateKey in r.value
                            && r.value[ChannelStateKey] == VStr(Text(connectivity.value))
    // SHUTDOWN: the channel state is the only entry
    ensures r.Returned? && connectivity.value == Shutdown ==> r.value.Keys == {ChannelStateKey}
    // otherwise exactly the four keys, each probe's entry depending on its own reply only
    ensures r.Returned? && connectivity.value != Shutdown ==>
              r.value.Keys == {ChannelStateKey, EventKey, StateKey, PlatformKey}
              && r.value[EventKey] == EventRecord(ev)
              && r.value[StateKey] == StateRecord(st)
              && r.value[PlatformKey] == PlatformRecord(pl)
  {
    match connectivity
    case Raised(e) => Raised(e)
    case Returned(c) =>
      var results := map[ChannelStateKey := VStr(Text(c))];
      if Name(c) == "SHUTDOWN" then Returned(results)
      else Returned(results[EventKey := EventRecord(ev)][StateKey := StateRecord(st)][PlatformKey := PlatformRecord(pl)])
  }

  /** The requests the self-test sends, in order. */
  function ProbesSent(connectivity: Outcome<Connectivity>): seq<Request> {
    if connectivity.Raised? || connectivity.value == Shutdown then []
    else [InterceptEvent(EventProbe), InterceptStateWrite(StateProbe), PlatformSetup(PlatformProbe)]
  }

  /** Probes are isolated: between two runs on the same connectivity, an entry
      can differ only if it is a probe's entry and that probe fared differently. */
  lemma ProbeIsolation(c: Connectivity, ev1: Outcome<EventDecision>, ev2: Outcome<EventDecision>,
                       st1: Outcome<StateDecision>, st2: Outcome<StateDecision>,
                       pl1: Outcome<LifecycleDecision>, pl2: Outcome<LifecycleDecision>)
    ensures var r1 := SelfTestResults(Returned(c), ev1, st1, pl1).value;
            var r2 := SelfTestResults(Returned(c), ev2, st2, pl2).value;
            r1.Keys == r2.Keys
            && forall k :: k in r1 && r1[k] != r2[k] ==>
                 (k == EventKey && ev1 != ev2) || (k == StateKey && st1 != st2) || (k == PlatformKey && pl1 != pl2)
  {
  }

  /** Channel SHUTDOWN: only the channel-state entry, whatever the probes would say. */
  lemma ShutdownScenario(ev: Outcome<EventDecision>, st: Outcome<StateDecision>, pl: Outcome<LifecycleDecision>)
    ensures SelfTestResults(Returned(Shutdown), ev, st, pl)
         == Returned(map[ChannelStateKey := VStr("ChannelConnectivity.SHUTDOWN")])
    ensures ProbesSent(Returned(Shutdown)) == []
  {
    assert Text(Shutdown) == "ChannelConnectivity.SHUTDOWN";
  }

  /** `run_bridge_self_test(hass, channel)`. The three replies are those the
      services give to the next three requests on the channel. */
  method RunBridgeSelfTest(channel: Channel) returns (r: Outcome<map<string, Value>>)
    modifies channel`sent
    ensures var n := |old(channel.sent)|;
            r == SelfTestResults(channel.connectivity, channel.eventService(n, EventProbe),
                                 channel.stateService(n + 1, StateProbe),
                                 channel.platformService(n + 2, PlatformProbe))
    ensures channel.sent == old(channel.sent) + ProbesSent(channel.connectivity)
  {
    ghost var n := |channel.sent|;
    var results: map<string, Value> := map[];
    var state := channel.CheckConnectivityState();
    if state.Raised? {
      r := Raised(state.error);
      return;
    }
    results := results[ChannelStateKey := VStr(Text(state.value))];
    NameIsShutdownIff(state.value);
    if Name(state.value) == "SHUTDOWN" {
      r := Returned(results);
      return;
    }
    var ev := channel.SendEvent(EventProbe);
    assert ev == channel.eventService(n, EventProbe);
    results := results[EventKey := EventRecord(ev)];
    var st := channel.SendStateWrite(StateProbe);
    assert st == channel.stateService(n + 1, StateProbe);
    results := results[StateKey := StateRecord(st)];
    var pl := channel.SendPlatformSetup(PlatformProbe);
    assert pl == channel.platformService(n + 2, PlatformProbe);
    results := results[PlatformKey := PlatformRecord(pl)];
    r := Returned(results);
    assert r == SelfTestResults(channel.connectivity, ev, st, pl);
  }
}
