/** The messages exchanged with the remote decision service and the channel
    they travel on. The transport is abstract: each of the three services is an
    oracle that, given the position of a request in the channel's log and the
    request itself, either replies or fails (the stub raises). */
module Rpc {
  import opened PyModel

  /** `EventMessage`, sent by the event interceptor. */
  datatype EventMessage = EventMessage(eventType: string, entityId: string, jsonData: string, contextId: string)

  /** `StateWriteRequest`, sent by the state interceptor. */
  datatype StateWriteRequest = StateWriteRequest(entityId: string, state: string, attributesJson: string, contextId: string)

  datatype PlatformInfo = PlatformInfo(domain: string, platformName: string, configEntryId: string)

  datatype PlatformSetupRequest = PlatformSetupRequest(platform: PlatformInfo)

  /** Replies. Protobuf string fields default to "", so an absent override is "". */
  datatype EventDecision = EventDecision(handled: bool)

  datatype StateDecision = StateDecision(handled: bool, overrideState: string, overrideAttributesJson: string)

  datatype LifecycleDecision = LifecycleDecision(ok: bool)

  /** One entry of the channel's log of requests sent. */
  datatype Request =
    | InterceptEvent(event: EventMessage)
    | InterceptStateWrite(write: StateWriteRequest)
    | PlatformSetup(setup: PlatformSetupRequest)

  /** gRPC's `ChannelConnectivity`. */
  datatype Connectivity = Idle | Connecting | Ready | TransientFailure | Shutdown

  /** The member's `.name`. */
  function Name(c: Connectivity): string {
    match c
    case Idle => "IDLE"
    case Connecting => "CONNECTING"
    case Ready => "READY"
    case TransientFailure => "TRANSIENT_FAILURE"
    case Shutdown => "SHUTDOWN"
  }

  /** `str()` of the enum member. */
  function Text(c: Connectivity): string {
    "ChannelConnectivity." + Name(c)
  }

  /** Only `Shutdown` has the name the self-test compares against. */
  lemma NameIsShutdownIff(c: Connectivity)
    ensures Name(c) == "SHUTDOWN" <==> c == Shutdown
  {
  }

  class Channel {
    /** What `check_connectivity_state(False)` returns, or the error it raises. */
    const connectivity: Outcome<Connectivity>
    /** The remote services: the reply to (or the failure of) the n-th request of the log. */
    const eventService: (nat, EventMessage) -> Outcome<EventDecision>
    const stateService: (nat, StateWriteRequest) -> Outcome<StateDecision>
    const platformService: (nat, PlatformSetupRequest) -> Outcome<LifecycleDecision>
    /** Every request sent on this channel, oldest first. */
    var sent: seq<Request>

    constructor (connectivity: Outcome<Connectivity>,
                 eventService: (nat, EventMessage) -> Outcome<EventDecision>,
                 stateService: (nat, StateWriteRequest) -> Outcome<StateDecision>,
                 platformService: (nat, PlatformSetupRequest) -> Outcome<LifecycleDecision>)
      ensures this.connectivity == connectivity && this.eventService == eventService
      ensures this.stateService == stateService && this.platformService == platformService
      ensures sent == []
    {
      this.connectivity := connectivity;
      this.eventService := eventService;
      this.stateService := stateService;
      this.platformService := platformService;
      sent := [];
    }

    method CheckConnectivityState() returns (r: Outcome<Connectivity>)
      ensures r == connectivity
    {
      r := connectivity;
    }

    /** `EventInterceptorStub.InterceptEvent`. */
    method SendEvent(m: EventMessage) returns (r: Outcome<EventDecision>)
      modifies this`sent
      ensures sent == old(sent) + [InterceptEvent(m)]
      ensures r == eventService(|old(sent)|, m)
    {
      r := eventService(|sent|, m);
      sent := sent + [InterceptEvent(m)];
    }

    /** `StateInterceptorStub.InterceptStateWrite`. */
    method SendStateWrite(w: StateWriteRequest) returns (r: Outcome<StateDecision>)
      modifies this`sent
      ensures sent == old(sent) + [InterceptStateWrite(w)]
      ensures r == stateService(|old(sent)|, w)
    {
      r := stateService(|sent|, w);
      sent := sent + [InterceptStateWrite(w)];
    }

    /** `EntityPlatformInterceptorStub.PlatformSetup`. */
    method SendPlatformSetup(s: PlatformSetupRequest) returns (r: Outcome<LifecycleDecision>)
      modifies this`sent
      ensures sent == old(sent) + [PlatformSetup(s)]
      ensures r == platformService(|old(sent)|, s)
    {
      r := platformService(|sent|, s);
      sent := sent + [PlatformSetup(s)];
    }
  }
}
