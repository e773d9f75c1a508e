/** `StateMachineInterceptor`: wraps `StateMachine.async_set`. Each write is
    sent to the decision service, which may veto it, replace the state value
    and, independently, replace the attributes; a failed service call leaves
    the write as the caller made it. */
module StateInterception {
  import opened PyModel
  import opened Rpc

  /** The arguments of one `async_set` call: the `StateMachine` instance
      (`sm_self`, by identity), then entity_id, new_state, attributes (VNone when
      absent), force and context. */
  datatype SetArgs = SetArgs(machine: nat, entityId: string, newState: Value, attributes: Value,
                             force: bool, context: Option<Context>)

  /** What `StateMachine.async_set` is bound to: Home Assistant's own method, or
      the `patched_async_set` closure installed by the interceptor with that id. */
  datatype SetEntry = HostAsyncSet | PatchedAsyncSet(interceptor: nat)

  /** One call forwarded to a captured entry. */
  datatype SetCall = SetCall(target: SetEntry, args: SetArgs)

  /** The class attribute `StateMachine.async_set` and a record of every call
      the bridge forwards to a captured entry; `respond` is what such a call
      returns. */
  class StateMachineClass {
    var asyncSet: SetEntry
    var calls: seq<SetCall>
    const respond: SetCall -> Value

    constructor (respond: SetCall -> Value)
      ensures asyncSet == HostAsyncSet && calls == [] && this.respond == respond
    {
      asyncSet := HostAsyncSet;
      calls := [];
      this.respond := respond;
    }

    method Invoke(c: SetCall) returns (r: Value)
      modifies this`calls
      ensures calls == old(calls) + [c] && r == respond(c)
    {
      calls := calls + [c];
      r := respond(c);
    }
  }

  /** The request built from a write, or the `TypeError` of `json.dumps` when the
      attributes cannot be serialised (that happens before the `try`, so it
      propagates to the caller). */
  function BuildRequest(codec: Codec, a: SetArgs): (r: Outcome<StateWriteRequest>)
    ensures r.Returned? <==> Serializable(OrEmptyDict(a.attributes))
    ensures r.Returned? ==> r.value.entityId == a.entityId && r.value.state == codec.str(a.newState)
    ensures r.Returned? && !Truthy(a.attributes) ==> r.value.attributesJson == codec.dumps(EmptyDict)
    ensures r.Returned? && Truthy(a.attributes) ==> r.value.attributesJson == codec.dumps(a.attributes)
    ensures r.Returned? ==> (a.context.None? ==> r.value.contextId == "")
                            && (a.context.Some? ==> r.value.contextId == a.context.value.id)
  {
    var attrs := OrEmptyDict(a.attributes);
    if Serializable(attrs) then
      Returned(StateWriteRequest(a.entityId, codec.str(a.newState), codec.dumps(attrs), ContextId(a.context)))
    else
      Raised("TypeError: attributes are not JSON serializable")
  }

  /** The reply vetoes the write. A failed call (`resp` is None) never does. */
  predicate Vetoes(reply: Outcome<StateDecision>) {
    reply.Returned? && reply.value.handled
  }

  /** The decision applied to a write: None when vetoed, otherwise the arguments
      the captured original receives. */
  function Decide(codec: Codec, a: SetArgs, reply: Outcome<StateDecision>): (d: Option<SetArgs>)
    // veto wins, and only a reply that says handled vetoes
    ensures d.None? <==> Vetoes(reply)
    // fail-open: a failed service call forwards the write unmodified
    ensures reply.Raised? ==> d == Some(a)
    // the instance, entity id, force flag and context always pass through untouched
    ensures d.Some? ==> d.value.machine == a.machine && d.value.entityId == a.entityId
                        && d.value.force == a.force && d.value.context == a.context
    // a non-empty override_state replaces the state; an empty one leaves the caller's value
    ensures d.Some? && reply.Returned? && reply.value.overrideState != "" ==>
              d.value.newState == VStr(reply.value.overrideState)
    ensures d.Some? && (reply.Raised? || reply.value.overrideState == "") ==> d.value.newState == a.newState
    // a non-empty override_attributes_json that parses replaces the attributes
    ensures d.Some? && reply.Returned? && reply.value.overrideAttributesJson != ""
              && codec.loads(reply.value.overrideAttributesJson).Some? ==>
              d.value.attributes == codec.loads(reply.value.overrideAttributesJson).value
    // otherwise (absent, or does not parse) the caller's original attributes are kept,
    // not the `{}` default the request was built from
    ensures d.Some? && (reply.Raised? || reply.value.overrideAttributesJson == ""
                        || codec.loads(reply.value.overrideAttributesJson).None?) ==>
              d.value.attributes == a.attributes
  {
    match reply
    case Raised(_) => Some(a)
    case Returned(resp) =>
      if resp.handled then None
      else
        var newState := if resp.overrideState != "" then VStr(resp.overrideState) else a.newState;
        var attributes :=
          if resp.overrideAttributesJson == "" then a.attributes
          else match codec.loads(resp.overrideAttributesJson)
            case Some(v) => v
            case None => a.attributes;
        Some(a.(newState := newState, attributes := attributes))
  }

  /** The state override and the attribute override do not depend on each other:
      changing the override text of one never changes what the other produces. */
  lemma OverridesIndependent(codec: Codec, a: SetArgs, h: bool, s1: string, s2: string, j1: string, j2: string)
    requires !h
    ensures Decide(codec, a, Returned(StateDecision(h, s1, j1))).value.newState
         == Decide(codec, a, Returned(StateDecision(h, s1, j2))).value.newState
    ensures Decide(codec, a, Returned(StateDecision(h, s1, j1))).value.attributes
         == Decide(codec, a, Returned(StateDecision(h, s2, j1))).value.attributes
  {
  }

  /** A vetoed write ignores the override fields entirely. */
  lemma VetoIgnoresOverrides(codec: Codec, a: SetArgs, s: string, j: string)
    ensures Decide(codec, a, Returned(StateDecision(true, s, j))) == None
  {
  }

  /** Writing "20" to sensor.temp with `{}` attributes, against a reply
      `{handled: false, override_state: "21"}`, commits "21". */
  lemma OverrideStateScenario(codec: Codec)
    ensures Decide(codec, SetArgs(0, "sensor.temp", VStr("20"), EmptyDict, false, None),
                   Returned(StateDecision(false, "21", "")))
         == Some(SetArgs(0, "sensor.temp", VStr("21"), EmptyDict, false, None))
  {
  }

  class StateMachineInterceptor {
    /** Identity of the `patched_async_set` closure this interceptor installs. */
    const id: nat
    const machineClass: StateMachineClass
    const grpc: Channel
    const codec: Codec
    /** `_orig_async_set`: the captured original, None until `apply()`. */
    var origAsyncSet: Option<SetEntry>

    constructor (id: nat, machineClass: StateMachineClass, grpc: Channel, codec: Codec)
      ensures this.id == id && this.machineClass == machineClass && this.grpc == grpc && this.codec == codec
      ensures origAsyncSet == None
    {
      this.id := id;
      this.machineClass := machineClass;
      this.grpc := grpc;
      this.codec := codec;
      origAsyncSet := None;
    }

    /** `apply()`: the first call captures the installed `async_set` and installs
        the patch; any later call returns at once, capturing and wrapping nothing. */
    method Apply()
      modifies this`origAsyncSet, machineClass`asyncSet
      ensures old(origAsyncSet).Some? ==>
                origAsyncSet == old(origAsyncSet) && machineClass.asyncSet == old(machineClass.asyncSet)
      ensures old(origAsyncSet).None? ==>
                origAsyncSet == Some(old(machineClass.asyncSet)) && machineClass.asyncSet == PatchedAsyncSet(id)
    {
      if origAsyncSet.Some? {
        return;
      }
      origAsyncSet := Some(machineClass.asyncSet);
      machineClass.asyncSet := PatchedAsyncSet(id);
    }

    /** `patched_async_set`. It exists only once `apply()` has set
        `_orig_async_set`, hence the requires. Exactly one request is sent when the
        attributes serialise; the captured original is then called once with the
        decided arguments, or not at all on a veto (the result is then None). */
    method PatchedAsyncSetCall(a: SetArgs) returns (r: Outcome<Value>)
      requires origAsyncSet.Some?
      modifies grpc`sent, machineClass`calls
      ensures BuildRequest(codec, a).Raised? ==>
                r == Raised(BuildRequest(codec, a).error)
                && grpc.sent == old(grpc.sent) && machineClass.calls == old(machineClass.calls)
      ensures BuildRequest(codec, a).Returned? ==>
                var req := BuildRequest(codec, a).value;
                var d := Decide(codec, a, grpc.stateService(|old(grpc.sent)|, req));
                grpc.sent == old(grpc.sent) + [InterceptStateWrite(req)]
                && (d.None? ==> r == Returned(VNone) && machineClass.calls == old(machineClass.calls))
                && (d.Some? ==> machineClass.calls == old(machineClass.calls) + [SetCall(origAsyncSet.value, d.value)]
                                && r == Returned(machineClass.respond(SetCall(origAsyncSet.value, d.value))))
    {
      var attrs := OrEmptyDict(a.attributes);
      if !Serializable(attrs) {
        r := Raised("TypeError: attributes are not JSON serializable");
        return;
      }
      var req := StateWriteRequest(a.entityId, codec.str(a.newState), codec.dumps(attrs), ContextId(a.context));
      var resp := grpc.SendStateWrite(req);
      if resp.Returned? && resp.value.handled {
        r := Returned(VNone);
        return;
      }
      var newState := a.newState;
      if resp.Returned? && resp.value.overrideState != "" {
        newState := VStr(resp.value.overrideState);
      }
      var attributes := a.attributes;
      if resp.Returned? && resp.value.overrideAttributesJson != "" {
        var parsed := codec.loads(resp.value.overrideAttributesJson);
        if parsed.Some? {
          attributes := parsed.value;
        }
      }
      var result := machineClass.Invoke(SetCall(origAsyncSet.value, a.(newState := newState, attributes := attributes)));
      r := Returned(result);
    }
  }

  /** Applying one interceptor twice captures the original once and wraps once. */
  method ApplyTwice(i: StateMachineInterceptor)
    requires i.origAsyncSet.None?
    modifies i`origAsyncSet, i.machineClass`asyncSet
    ensures i.origAsyncSet == Some(old(i.machineClass.asyncSet))
    ensures i.machineClass.asyncSet == PatchedAsyncSet(i.id)
  {
    i.Apply();
    i.Apply();
  }
}
