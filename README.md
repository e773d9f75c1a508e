# net_core_bridge interceptors — a Dafny model

net_core_bridge is a Home Assistant custom component that puts a remote .NET
decision service, reached over gRPC, in front of three Home Assistant entry
points. This project models the interceptors and the startup self-test:

- **State writes** (`StateMachineInterceptor`, module `StateInterception`).
  `StateMachine.async_set` is patched once: `_orig_async_set` is the sentinel.
  Each write is turned into a `StateWriteRequest` and sent to the service.
  A failed call is fail-open. A reply with `handled` vetoes the write, and the
  result is None. Otherwise a non-empty `override_state` replaces the state.
  Independently, a non-empty `override_attributes_json` that parses replaces
  the attributes. The write is then forwarded once to the captured original,
  with `force` and `context` untouched.
- **Events** (`EventBusInterceptor`, module `EventInterception`). `hass.bus`
  is replaced by a proxy around the bus installed before it. The proxy turns a
  missing payload into `{}`, builds an `EventMessage` and asks the service.
  `handled` suppresses the event. Otherwise, including when the call fails,
  the event goes once to the captured bus. Stacked proxies are modelled by
  `FireThrough`.
- **Entity platform lifecycle** (`EntityPlatformInterceptor`, module
  `EntityPlatformInterception`). `async_add_entities`, `async_setup` and
  `async_reset` are captured into fields and replaced by wrappers. The
  wrappers forward their arguments unchanged and send nothing to the service.
- **Self-test** (`run_bridge_self_test`, module `SelfTest`). A SHUTDOWN
  channel leaves only `channel_state`. Otherwise three fixed probes run:
  event, then state, then platform. Each records its response or its error,
  and none stops the next.

How things are represented:

- The remote services are oracles on a `Channel`. Each one maps the position
  of a request in the channel's log, and the request itself, to a reply or a
  failure (`Outcome`).
- Each patched host attribute is a field of a class (`StateMachineClass`,
  `Hass`, `EntityPlatformClass`). The class also records every call the bridge
  forwards to a captured entry, and holds an oracle for what that call returns.
- Python values are the datatype `PyModel.Value`.
- `json.dumps`, `json.loads` and `str()` are opaque fields of a `Codec`.
  `loads` returns `None` for text that does not parse.

What the code does at its edges, and the model with it:

- Fail-open covers the service call only. A payload that `json.dumps` cannot
  encode raises, and so do an event payload with no `.get` and an event
  `entity_id` that is neither None nor a string (a None `entity_id` leaves the
  protobuf field unset, so the message carries ""). All of these are raised
  outside the `try`: the interceptor raises to its caller, sends nothing and
  forwards nothing.
- The add-entities wrapper logs `len(entities)` before forwarding, so entities
  without a length (a generator) raise there and are not forwarded.
- Only the state interceptor has an install sentinel, and it belongs to the
  interceptor instance. A second instance wraps again. Repeated `apply()` on
  the event interceptor stacks proxies. On the platform interceptor it makes
  the wrappers capture themselves (`EntityPlatformInterception.ApplyTwice`).
- The lifecycle wrappers send no request at all: the send is still a TODO.
  There is no entity-removed wrapper, and no batch or per-entity notification.
- On SHUTDOWN the self-test records only `channel_state`, with no failure
  entry. A failing connectivity check propagates out of the self-test.
- The event proxy's `origin` defaults to None. The value forwarded to the host
  bus is that None, not Home Assistant's own default origin.

## Model

| member | source | states |
|---|---|---|
| PyModel.OrEmptyDictIdempotent | custom_components/net_core_bridge/interceptors/event_interceptor.py:27 | normalising a payload a second time (a proxy behind a proxy) changes nothing |
| Rpc.NameIsShutdownIff | custom_components/net_core_bridge/self_test.py:27 | the name test `state.name == "SHUTDOWN"` holds exactly for the SHUTDOWN state |
| Rpc.Channel.SendEvent | custom_components/net_core_bridge/interceptors/event_interceptor.py:53 | one `InterceptEvent` request is appended to the log; the reply is the service's answer to it |
| Rpc.Channel.SendStateWrite | custom_components/net_core_bridge/interceptors/state_interceptor.py:44 | one `InterceptStateWrite` request is appended to the log; the reply is the service's answer to it |
| Rpc.Channel.SendPlatformSetup | custom_components/net_core_bridge/self_test.py:95-103 | one `PlatformSetup` request is appended to the log; the reply is the service's answer to it |
| StateInterception.BuildRequest | custom_components/net_core_bridge/interceptors/state_interceptor.py:32-40 | the request exists iff the attributes (`{}` when absent) serialise; it carries the entity id, `str(new_state)`, the serialised attributes or `{}`, and "" as context id when there is no context |
| StateInterception.Decide | custom_components/net_core_bridge/interceptors/state_interceptor.py:42-70 | vetoed iff the reply says handled; a failed call forwards the write unmodified; a non-empty override_state replaces the state and an empty one keeps it; parsed override attributes replace the attributes, otherwise the caller's own attributes (not the `{}` default) are kept; instance, entity id, force and context pass through |
| StateInterception.OverridesIndependent | custom_components/net_core_bridge/interceptors/state_interceptor.py:55-65 | the forwarded state does not depend on the attribute override text, and the forwarded attributes do not depend on the state override |
| StateInterception.VetoIgnoresOverrides | custom_components/net_core_bridge/interceptors/state_interceptor.py:51-52 | a handled reply suppresses the write whatever its override fields say |
| StateInterception.OverrideStateScenario | custom_components/net_core_bridge/interceptors/state_interceptor.py:55-56 | writing "20" to sensor.temp against `{handled: false, override_state: "21"}` commits "21" with everything else unchanged |
| StateInterception.StateMachineClass.Invoke | custom_components/net_core_bridge/interceptors/state_interceptor.py:68-70 | a forwarded call is recorded once and returns the host's result |
| StateInterception.StateMachineInterceptor.constructor | custom_components/net_core_bridge/interceptors/state_interceptor.py:11-14 | a new interceptor has captured nothing |
| StateInterception.StateMachineInterceptor.Apply | custom_components/net_core_bridge/interceptors/state_interceptor.py:16-21 | the first call captures the installed `async_set` and installs this interceptor's patch; once captured, a call changes nothing |
| StateInterception.StateMachineInterceptor.PatchedAsyncSetCall | custom_components/net_core_bridge/interceptors/state_interceptor.py:24-70 | raises without sending or forwarding when the request cannot be built; otherwise sends exactly that request, then forwards the decided arguments once to the captured original and returns its result, or on a veto forwards nothing and returns None |
| StateInterception.ApplyTwice | custom_components/net_core_bridge/interceptors/state_interceptor.py:17-19 | two `apply()` calls on one interceptor capture the original once and wrap it once |
| EventInterception.BuildMessage | custom_components/net_core_bridge/interceptors/event_interceptor.py:44-49 | the message exists iff the payload is a dict that serialises and whose entity_id, when present and not None, is a string; it carries the event type, that entity_id or "" when it is absent or None, the serialised payload, and "" as context id when there is no context |
| EventInterception.NoneEntityIdIsEmpty | custom_components/net_core_bridge/interceptors/event_interceptor.py:46 | a None entity_id is sent as "" and the event is built normally; an integer entity_id raises |
| EventInterception.MissingPayloadIsEmptyDict | custom_components/net_core_bridge/interceptors/event_interceptor.py:27 | a missing payload becomes `{}`, and the request then carries entity id "" and the serialised `{}` |
| EventInterception.FireThroughDelivers | custom_components/net_core_bridge/interceptors/event_interceptor.py:20-33 | through any stack of proxies, firing raises iff the message cannot be built; otherwise the host bus gets the event iff no layer vetoes it, with the normalised arguments unchanged, every layer sends the same message, and consultation stops at the first veto |
| EventInterception.LightTurnOnScenario | custom_components/net_core_bridge/interceptors/event_interceptor.py:51-67 | light.turn_on for light.kitchen through one proxy: `handled` delivers nothing, `handled = false` delivers the event once with its payload |
| EventInterception.Hass.Fire | custom_components/net_core_bridge/interceptors/event_interceptor.py:62-67 | a forwarded event is recorded once and returns the bus's result |
| EventInterception.EventBusInterceptor.constructor | custom_components/net_core_bridge/interceptors/event_interceptor.py:11-13 | the interceptor holds hass and its stub |
| EventInterception.EventBusInterceptor.Apply | custom_components/net_core_bridge/interceptors/event_interceptor.py:15-33 | `hass.bus` becomes a proxy whose target is the bus installed before the call, one layer deeper |
| EventInterception.EventBusInterceptor.ProxyAsyncFire | custom_components/net_core_bridge/interceptors/event_interceptor.py:21-30 | the proxy's `async_fire` behaves as `_handle_event` on the payload with a missing one replaced by `{}` |
| EventInterception.EventBusInterceptor.HandleEvent | custom_components/net_core_bridge/interceptors/event_interceptor.py:39-67 | raises without sending or forwarding when the message cannot be built; otherwise sends it once, then on a veto returns None and forwards nothing, else forwards the same arguments once to the captured bus and returns its result, also when the call failed |
| EventInterception.ApplyTwice | custom_components/net_core_bridge/interceptors/event_interceptor.py:15-17 | two `apply()` calls stack two proxies over the original bus |
| EntityPlatformInterception.EntityPlatformClass.Invoke | custom_components/net_core_bridge/interceptors/entity_platform_interceptor.py:33 | a forwarded lifecycle call is recorded once and returns the host's result |
| EntityPlatformInterception.EntityPlatformInterceptor.constructor | custom_components/net_core_bridge/interceptors/entity_platform_interceptor.py:7-13 | a new interceptor has captured none of the three originals |
| EntityPlatformInterception.EntityPlatformInterceptor.Apply | custom_components/net_core_bridge/interceptors/entity_platform_interceptor.py:15-22 | the three installed entries are captured into the fields, then replaced by this interceptor's wrappers |
| EntityPlatformInterception.EntityPlatformInterceptor.PatchedAddEntities | custom_components/net_core_bridge/interceptors/entity_platform_interceptor.py:26-33 | entities without a length raise at the log line and nothing is forwarded; otherwise one call of the captured add with the same platform, entities and update_before_add, whose result is returned; no request is sent; raises if nothing was captured |
| EntityPlatformInterception.EntityPlatformInterceptor.PatchedSetup | custom_components/net_core_bridge/interceptors/entity_platform_interceptor.py:35-39 | one call of the captured setup with the same platform, positional and keyword arguments, whose result is returned; no request is sent |
| EntityPlatformInterception.EntityPlatformInterceptor.PatchedReset | custom_components/net_core_bridge/interceptors/entity_platform_interceptor.py:41-45 | one call of the captured reset with the same platform, whose result is returned; no request is sent |
| EntityPlatformInterception.ApplyTwice | custom_components/net_core_bridge/interceptors/entity_platform_interceptor.py:15-22 | a second `apply()` captures the wrappers themselves as the originals |
| SelfTest.EventRecord | custom_components/net_core_bridge/self_test.py:48-56 | `ok` is true iff the probe replied; then `response` is `handled`, else `error` is the error text |
| SelfTest.StateRecord | custom_components/net_core_bridge/self_test.py:75-86 | `ok` is true iff the probe replied; then `response` holds `handled` and `override_state`, else `error` is the error text |
| SelfTest.PlatformRecord | custom_components/net_core_bridge/self_test.py:106-116 | `ok` is true iff the probe replied; then `response` is the reply's `ok`, else `error` is the error text |
| SelfTest.SelfTestResults | custom_components/net_core_bridge/self_test.py:19-116 | a failing connectivity check propagates; SHUTDOWN leaves only channel_state; otherwise exactly the four keys, each probe entry a function of its own reply |
| SelfTest.ProbeIsolation | custom_components/net_core_bridge/self_test.py:34-116 | two runs can differ at a key only where that key's own probe fared differently |
| SelfTest.ShutdownScenario | custom_components/net_core_bridge/self_test.py:24-29 | SHUTDOWN yields exactly `{channel_state: "ChannelConnectivity.SHUTDOWN"}` and sends no probe |
| SelfTest.RunBridgeSelfTest | custom_components/net_core_bridge/self_test.py:14-125 | the results are `SelfTestResults` of the connectivity and of the services' replies to the next three requests, and the channel log grows by exactly `ProbesSent` |

## Left out

- gRPC transport, channel construction and async/await: each service call is an oracle that replies or fails. There is no concurrency to model.
- Latency (`time.perf_counter`) and every log line, including the self-test's summary loop over `results.items()`, which only logs.
- How Python binds the stored attributes. The platform wrappers are stored on `EntityPlatform` as bound methods, and a host call through an instance would not pass that instance. The model gives each wrapper the platform as its first argument, as their signatures declare.
- The proxy bus's own `EventBus` state: listener registration is not modelled.
- What a captured entry does when it is called. Calls are recorded against the entry they target, so a self-capturing wrapper's endless recursion is not modelled.
- Python floats, and mappings other than dicts: `VObject` stands for any object without `.get` that `json.dumps` cannot encode.
- Keyword names at the call sites, and Home Assistant's own defaults: callers supply every argument positionally.
- bridge.py (wiring and the choice of gRPC target), generate_protos.py (build-time code generation) and `__init__.py` are not part of this model.
- EventInterception.FireThrough: each layer's reply is given as an input, not drawn from the channel that layer's interceptor holds.
