/** `EventBusInterceptor`: replaces `hass.bus` with a proxy whose `async_fire`
    sends each event to the decision service before forwarding it, once, to the
    bus that was installed before the proxy. A reply with `handled` suppresses
    the event; a failed service call lets it through. */
module EventInterception {
  import opened PyModel
  import opened Rpc

  /** Home Assistant's `EventOrigin`. */
  datatype Origin = Local | Remote

  /** The arguments of one `async_fire` call; `eventData` is VNone when absent. */
  datatype FireArgs = FireArgs(eventType: string, eventData: Value, origin: Option<Origin>, context: Option<Context>)

  /** What `hass.bus` is: Home Assistant's own bus, or a `ProxyEventBus` built by
      the interceptor with that id around the bus that was installed before it. */
  datatype Bus = HostBus | ProxyBus(interceptor: nat, original: Bus)

  /** Number of proxies stacked on the host's bus. */
  function Layers(b: Bus): nat {
    match b
    case HostBus => 0
    case ProxyBus(_, inner) => 1 + Layers(inner)
  }

  /** One call of `original_bus.async_fire`. */
  datatype FireCall = FireCall(target: Bus, args: FireArgs)

  /** The `hass` object: its `bus` attribute, the calls the bridge forwards to a
      captured bus, and what such a call returns. */
  class Hass {
    var bus: Bus
    var fired: seq<FireCall>
    const respond: FireCall -> Value

    constructor (respond: FireCall -> Value)
      ensures bus == HostBus && fired == [] && this.respond == respond
    {
      bus := HostBus;
      fired := [];
      this.respond := respond;
    }

    method Fire(c: FireCall) returns (r: Value)
      modifies this`fired
      ensures fired == old(fired) + [c] && r == respond(c)
    {
      fired := fired + [c];
      r := respond(c);
    }
  }

  /** `event_data or {}`, the normalisation done by the proxy. */
  function Normalize(a: FireArgs): FireArgs {
    a.(eventData := OrEmptyDict(a.eventData))
  }

  /** The payload's `entity_id` as the message receives it: "" when the payload
      has none, and also when it is None, which the protobuf constructor treats
      as a field left unset. */
  function EntityIdField(m: map<string, Value>): Value {
    if "entity_id" in m && m["entity_id"] != VNone then m["entity_id"] else VStr("")
  }

  /** The `EventMessage` built from the (normalised) arguments. Building raises
      when the payload has no `.get` (it is not a dict; `VObject` is taken not to
      be a mapping), when `json.dumps` cannot encode it, or when its `entity_id`
      is neither None nor a string (protobuf refuses it). All of these happen
      before the `try`. */
  function BuildMessage(codec: Codec, a: FireArgs): (r: Outcome<EventMessage>)
    ensures r.Returned? <==> a.eventData.VDict? && Serializable(a.eventData)
                             && EntityIdField(a.eventData.entries).VStr?
    ensures r.Returned? ==> r.value.eventType == a.eventType && r.value.jsonData == codec.dumps(a.eventData)
    ensures r.Returned? && "entity_id" in a.eventData.entries && a.eventData.entries["entity_id"] != VNone ==>
              r.value.entityId == a.eventData.entries["entity_id"].s
    ensures r.Returned? && ("entity_id" !in a.eventData.entries || a.eventData.entries["entity_id"] == VNone) ==>
              r.value.entityId == ""
    ensures r.Returned? ==> (a.context.None? ==> r.value.contextId == "")
                            && (a.context.Some? ==> r.value.contextId == a.context.value.id)
  {
    match a.eventData
    case VDict(m) =>
      var entity := EntityIdField(m);
      if !Serializable(a.eventData) then Raised("TypeError: event_data is not JSON serializable")
      else if !entity.VStr? then Raised("TypeError: entity_id must be a string")
      else Returned(EventMessage(a.eventType, entity.s, codec.dumps(a.eventData), ContextId(a.context)))
    case _ => Raised("AttributeError: event_data has no attribute 'get'")
  }

  /** A missing payload becomes `{}`, and that `{}` is what the request carries. */
  lemma MissingPayloadIsEmptyDict(codec: Codec, t: string, origin: Option<Origin>, ctx: Option<Context>)
    ensures Normalize(FireArgs(t, VNone, origin, ctx)).eventData == EmptyDict
    ensures BuildMessage(codec, Normalize(FireArgs(t, VNone, origin, ctx)))
         == Returned(EventMessage(t, "", codec.dumps(EmptyDict), ContextId(ctx)))
  {
  }

  /** A payload whose `entity_id` is None still yields a message, with entity id "",
      while one whose `entity_id` is a number does not. */
  lemma NoneEntityIdIsEmpty(codec: Codec, t: string, ctx: Option<Context>)
    ensures BuildMessage(codec, FireArgs(t, VDict(map["entity_id" := VNone]), None, ctx))
         == Returned(EventMessage(t, "", codec.dumps(VDict(map["entity_id" := VNone])), ContextId(ctx)))
    ensures BuildMessage(codec, FireArgs(t, VDict(map["entity_id" := VInt(1)]), None, ctx)).Raised?
  {
    var d := VDict(map["entity_id" := VNone]);
    assert Serializable(d) by {
      assert forall k :: k in d.entries ==> d.entries[k] == VNone;
    }
    var e := VDict(map["entity_id" := VInt(1)]);
    assert Serializable(e) by {
      assert forall k :: k in e.entries ==> e.entries[k] == VInt(1);
    }
  }

  /** The reply suppresses the event. A failed call never does. */
  predicate Vetoes(reply: Outcome<EventDecision>) {
    reply.Returned? && reply.value.handled
  }

  /** What one `async_fire` through a stack of proxies does: the requests the
      layers send, outermost first, and the arguments the host's bus finally
      receives (None when some layer suppressed the event). `replies[k]` is the
      decision the k-th consulted layer gets. */
  datatype Delivery = Delivery(messages: seq<EventMessage>, delivered: Option<FireArgs>)

  function FireThrough(codec: Codec, bus: Bus, a: FireArgs, replies: seq<Outcome<EventDecision>>): (r: Outcome<Delivery>)
    requires |replies| >= Layers(bus)
    decreases bus
  {
    match bus
    case HostBus => Returned(Delivery([], Some(a)))
    case ProxyBus(_, inner) =>
      var b := Normalize(a);
      match BuildMessage(codec, b)
      case Raised(e) => Raised(e)
      case Returned(m) =>
        if Vetoes(replies[0]) then Returned(Delivery([m], None))
        else
          match FireThrough(codec, inner, b, replies[1..])
          case Raised(e) => Raised(e)
          case Returned(d) => Returned(Delivery([m] + d.messages, d.delivered))
  }

  /** Through any stack of proxies: firing raises exactly when the outermost layer
      cannot build its message; otherwise the host's bus receives the event iff no
      layer vetoes it, it then receives the normalised arguments unchanged, every
      layer sends the same message, and the layers consulted stop at the first veto. */
  lemma {:induction false} FireThroughDelivers(codec: Codec, bus: Bus, a: FireArgs, replies: seq<Outcome<EventDecision>>)
    requires |replies| >= Layers(bus)
    ensures (FireThrough(codec, bus, a, replies).Raised?
             <==> Layers(bus) > 0 && BuildMessage(codec, Normalize(a)).Raised?)
    ensures FireThrough(codec, bus, a, replies).Returned? ==>
              var d := FireThrough(codec, bus, a, replies).value;
              (d.delivered.Some? <==> forall k :: 0 <= k < Layers(bus) ==> !Vetoes(replies[k]))
              && (d.delivered.Some? ==> d.delivered.value == if Layers(bus) == 0 then a else Normalize(a))
              && (forall k :: 0 <= k < |d.messages| ==> d.messages[k] == BuildMessage(codec, Normalize(a)).value)
              && |d.messages| <= Layers(bus)
              && (d.delivered.Some? ==> |d.messages| == Layers(bus))
              && (d.delivered.None? ==> |d.messages| > 0 && Vetoes(replies[|d.messages| - 1])
                                        && forall k :: 0 <= k < |d.messages| - 1 ==> !Vetoes(replies[k]))
    decreases bus
  {
    match bus
    case HostBus =>
    case ProxyBus(_, inner) =>
      var b := Normalize(a);
      OrEmptyDictIdempotent(a.eventData);
      assert Normalize(b) == b;
      if BuildMessage(codec, b).Returned? && !Vetoes(replies[0]) {
        FireThroughDelivers(codec, inner, b, replies[1..]);
        var rest := FireThrough(codec, inner, b, replies[1..]);
        if Layers(inner) > 0 {
          assert rest.Returned?;
        }
        var d := rest.value;
        assert forall k :: 1 <= k < Layers(bus) ==> replies[k] == replies[1..][k - 1];
        if d.delivered.None? {
          assert Vetoes(replies[1..][|d.messages| - 1]);
        }
      }
  }

  /** Firing "light.turn_on" for light.kitchen through one proxy: a decision
      `handled` leaves the host's bus untouched; `handled = false` delivers the
      event once, with its payload unmodified. */
  lemma LightTurnOnScenario(codec: Codec, h: bool)
    ensures var a := FireArgs("light.turn_on", VDict(map["entity_id" := VStr("light.kitchen")]), None, None);
            FireThrough(codec, ProxyBus(0, HostBus), a, [Returned(EventDecision(h))])
              == Returned(Delivery([EventMessage("light.turn_on", "light.kitchen",
                                                 codec.dumps(a.eventData), "")],
                                   if h then None else Some(a)))
  {
    var a := FireArgs("light.turn_on", VDict(map["entity_id" := VStr("light.kitchen")]), None, None);
    assert Serializable(a.eventData) by {
      assert forall k :: k in a.eventData.entries ==> a.eventData.entries[k] == VStr("light.kitchen");
    }
    assert "entity_id" in a.eventData.entries;
    assert Normalize(a) == a;
    var m := EventMessage("light.turn_on", "light.kitchen", codec.dumps(a.eventData), "");
    assert BuildMessage(codec, a) == Returned(m);
    var replies := [Returned(EventDecision(h))];
    assert FireThrough(codec, HostBus, a, replies[1..]) == Returned(Delivery([], Some(a)));
    assert [m] + [] == [m];
  }

  class EventBusInterceptor {
    /** Identity of the proxies this interceptor builds. */
    const id: nat
    const hass: Hass
    const grpc: Channel
    const codec: Codec

    constructor (id: nat, hass: Hass, grpc: Channel, codec: Codec)
      ensures this.id == id && this.hass == hass && this.grpc == grpc && this.codec == codec
    {
      this.id := id;
      this.hass := hass;
      this.grpc := grpc;
      this.codec := codec;
    }

    /** `apply()`: no sentinel; each call wraps whatever bus is installed, so a
        second call stacks a second proxy. */
    method Apply()
      modifies hass`bus
      ensures hass.bus == ProxyBus(id, old(hass.bus))
      ensures Layers(hass.bus) == Layers(old(hass.bus)) + 1
    {
      hass.bus := ProxyBus(id, hass.bus);
    }

    /** `ProxyEventBus.async_fire` of a proxy built around `original`: normalises the
        payload and hands over to `_handle_event`. */
    method ProxyAsyncFire(original: Bus, a: FireArgs) returns (r: Outcome<Value>)
      modifies grpc`sent, hass`fired
      ensures BuildMessage(codec, Normalize(a)).Raised? ==>
                r == Raised(BuildMessage(codec, Normalize(a)).error)
                && grpc.sent == old(grpc.sent) && hass.fired == old(hass.fired)
      ensures BuildMessage(codec, Normalize(a)).Returned? ==>
                var m := BuildMessage(codec, Normalize(a)).value;
                var reply := grpc.eventService(|old(grpc.sent)|, m);
                grpc.sent == old(grpc.sent) + [InterceptEvent(m)]
                && (Vetoes(reply) ==> r == Returned(VNone) && hass.fired == old(hass.fired))
                && (!Vetoes(reply) ==> hass.fired == old(hass.fired) + [FireCall(original, Normalize(a))]
                                       && r == Returned(hass.respond(FireCall(original, Normalize(a)))))
    {
      r := HandleEvent(original, Normalize(a));
    }

    /** `_handle_event`: one request when the message builds; then either nothing
        (a veto, the result is None) or exactly one forward of the same arguments
        to `original`, whose result is returned. */
    method HandleEvent(original: Bus, a: FireArgs) returns (r: Outcome<Value>)
      modifies grpc`sent, hass`fired
      ensures BuildMessage(codec, a).Raised? ==>
                r == Raised(BuildMessage(codec, a).error)
                && grpc.sent == old(grpc.sent) && hass.fired == old(hass.fired)
      ensures BuildMessage(codec, a).Returned? ==>
                var m := BuildMessage(codec, a).value;
                var reply := grpc.eventService(|old(grpc.sent)|, m);
                grpc.sent == old(grpc.sent) + [InterceptEvent(m)]
                && (Vetoes(reply) ==> r == Returned(VNone) && hass.fired == old(hass.fired))
                && (!Vetoes(reply) ==> hass.fired == old(hass.fired) + [FireCall(original, a)]
                                       && r == Returned(hass.respond(FireCall(original, a))))
    {
      var built := BuildMessage(codec, a);
      if built.Raised? {
        r := Raised(built.error);
        return;
      }
      var resp := grpc.SendEvent(built.value);
      if resp.Returned? && resp.value.handled {
        r := Returned(VNone);
        return;
      }
      var result := hass.Fire(FireCall(original, a));
      r := Returned(result);
    }
  }

  /** Applying one interceptor twice stacks two proxies over the bus installed before. */
  method ApplyTwice(i: EventBusInterceptor)
    modifies i.hass`bus
    ensures i.hass.bus == ProxyBus(i.id, ProxyBus(i.id, old(i.hass.bus)))
  {
    i.Apply();
    i.Apply();
  }
}
