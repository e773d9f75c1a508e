/** `EntityPlatformInterceptor`: replaces `EntityPlatform.async_add_entities`,
    `async_setup` and `async_reset` with wrappers that forward to the captured
    originals. No request is sent to the decision service on this path yet, so
    lifecycle operations always go ahead with their arguments unchanged. */
module EntityPlatformInterception {
  import opened PyModel
  import opened Rpc

  /** An `EntityPlatform` instance, by identity, with the names the log reads. */
  datatype Platform = Platform(id: nat, domain: string, platformName: string)

  /** An entity handed to `async_add_entities`, by identity. */
  datatype Entity = Entity(id: nat, entityId: string)

  /** The `entities` argument: an iterable of entities, which Home Assistant
      accepts in any form. A list has a length; a generator has none, so
      `len()` raises on it. */
  datatype Entities = EntityList(items: seq<Entity>) | EntityGenerator(items: seq<Entity>)

  /** `len(entities)` succeeds. */
  predicate Sized(e: Entities) {
    e.EntityList?
  }

  /** What one of the three class attributes is bound to: Home Assistant's own
      method, or the wrapper of the interceptor with that id. */
  datatype Entry = Original | PatchedBy(interceptor: nat)

  /** One call forwarded to a captured entry. */
  datatype PlatformCall =
    | AddEntitiesCall(target: Entry, platform: Platform, entities: Entities, updateBeforeAdd: bool)
    | SetupCall(target: Entry, platform: Platform, args: seq<Value>, kwargs: map<string, Value>)
    | ResetCall(target: Entry, platform: Platform)

  const NotCallable := "TypeError: 'NoneType' object is not callable"
  const NoLen := "TypeError: object of type 'generator' has no len()"

  /** The `EntityPlatform` class attributes, the calls forwarded to captured
      entries, and what such a call returns. */
  class EntityPlatformClass {
    var asyncAddEntities: Entry
    var asyncSetup: Entry
    var asyncReset: Entry
    var calls: seq<PlatformCall>
    const respond: PlatformCall -> Value

    constructor (respond: PlatformCall -> Value)
      ensures asyncAddEntities == Original && asyncSetup == Original && asyncReset == Original
      ensures calls == [] && this.respond == respond
    {
      asyncAddEntities, asyncSetup, asyncReset := Original, Original, Original;
      calls := [];
      this.respond := respond;
    }

    method Invoke(c: PlatformCall) returns (r: Value)
      modifies this`calls
      ensures calls == old(calls) + [c] && r == respond(c)
    {
      calls := calls + [c];
      r := respond(c);
    }
  }

  class EntityPlatformInterceptor {
    /** Identity of the wrappers this interceptor installs. */
    const id: nat
    const platformClass: EntityPlatformClass
    /** The stub is held but not used: no lifecycle path sends a request. */
    const grpc: Channel
    /** `_orig_add`, `_orig_setup`, `_orig_reset`: None until `apply()`. */
    var origAdd: Option<Entry>
    var origSetup: Option<Entry>
    var origReset: Option<Entry>

    constructor (id: nat, platformClass: EntityPlatformClass, grpc: Channel)
      ensures this.id == id && this.platformClass == platformClass && this.grpc == grpc
      ensures origAdd == None && origSetup == None && origReset == None
    {
      this.id := id;
      this.platformClass := platformClass;
      this.grpc := grpc;
      origAdd, origSetup, origReset := None, None, None;
    }

    /** `apply()`: captures the three installed entries, then installs the
        wrappers. It is unguarded: a second call captures the wrappers themselves. */
    method Apply()
      modifies this`origAdd, this`origSetup, this`origReset
      modifies platformClass`asyncAddEntities, platformClass`asyncSetup, platformClass`asyncReset
      ensures origAdd == Some(old(platformClass.asyncAddEntities))
      ensures origSetup == Some(old(platformClass.asyncSetup))
      ensures origReset == Some(old(platformClass.asyncReset))
      ensures platformClass.asyncAddEntities == PatchedBy(id)
      ensures platformClass.asyncSetup == PatchedBy(id)
      ensures platformClass.asyncReset == PatchedBy(id)
    {
      origAdd := Some(platformClass.asyncAddEntities);
      origSetup := Some(platformClass.asyncSetup);
      origReset := Some(platformClass.asyncReset);
      platformClass.asyncAddEntities := PatchedBy(id);
      platformClass.asyncSetup := PatchedBy(id);
      platformClass.asyncReset := PatchedBy(id);
    }

    /** `_patched_add_entities`: one call of `_orig_add` with the same platform,
        the same entities and the same `update_before_add`, whose result is
        returned; nothing is sent to the decision service. The log line before
        the forward takes `len(entities)`, so entities without a length raise
        there and nothing is forwarded. */
    method PatchedAddEntities(platform: Platform, entities: Entities, updateBeforeAdd: bool)
      returns (r: Outcome<Value>)
      modifies platformClass`calls
      ensures !Sized(entities) ==> r == Raised(NoLen) && platformClass.calls == old(platformClass.calls)
      ensures Sized(entities) && origAdd.None? ==>
                r == Raised(NotCallable) && platformClass.calls == old(platformClass.calls)
      ensures Sized(entities) && origAdd.Some? ==>
                var c := AddEntitiesCall(origAdd.value, platform, entities, updateBeforeAdd);
                platformClass.calls == old(platformClass.calls) + [c] && r == Returned(platformClass.respond(c))
      ensures grpc.sent == old(grpc.sent)
    {
      if !Sized(entities) {
        r := Raised(NoLen);
        return;
      }
      if origAdd.None? {
        r := Raised(NotCallable);
        return;
      }
      var result := platformClass.Invoke(AddEntitiesCall(origAdd.value, platform, entities, updateBeforeAdd));
      r := Returned(result);
    }

    /** `_patched_setup`: the platform and every positional and keyword argument
        go to `_orig_setup` unchanged, and its result is returned. */
    method PatchedSetup(platform: Platform, args: seq<Value>, kwargs: map<string, Value>)
      returns (r: Outcome<Value>)
      modifies platformClass`calls
      ensures origSetup.None? ==> r == Raised(NotCallable) && platformClass.calls == old(platformClass.calls)
      ensures origSetup.Some? ==>
                var c := SetupCall(origSetup.value, platform, args, kwargs);
                platformClass.calls == old(platformClass.calls) + [c] && r == Returned(platformClass.respond(c))
      ensures grpc.sent == old(grpc.sent)
    {
      if origSetup.None? {
        r := Raised(NotCallable);
        return;
      }
      var result := platformClass.Invoke(SetupCall(origSetup.value, platform, args, kwargs));
      r := Returned(result);
    }

    /** `_patched_reset`: the platform goes to `_orig_reset` unchanged, and its
        result is returned. */
    method PatchedReset(platform: Platform) returns (r: Outcome<Value>)
      modifies platformClass`calls
      ensures origReset.None? ==> r == Raised(NotCallable) && platformClass.calls == old(platformClass.calls)
      ensures origReset.Some? ==>
                var c := ResetCall(origReset.value, platform);
                platformClass.calls == old(platformClass.calls) + [c] && r == Returned(platformClass.respond(c))
      ensures grpc.sent == old(grpc.sent)
    {
      if origReset.None? {
        r := Raised(NotCallable);
        return;
      }
      var result := platformClass.Invoke(ResetCall(origReset.value, platform));
      r := Returned(result);
    }
  }

  /** Applying one interceptor twice leaves it holding its own wrappers as the
      "originals": its wrappers then forward to themselves. */
  method ApplyTwice(i: EntityPlatformInterceptor)
    modifies i`origAdd, i`origSetup, i`origReset
    modifies i.platformClass`asyncAddEntities, i.platformClass`asyncSetup, i.platformClass`asyncReset
    ensures i.origAdd == Some(i.platformClass.asyncAddEntities) && i.origAdd == Some(PatchedBy(i.id))
    ensures i.origSetup == Some(i.platformClass.asyncSetup) && i.origSetup == Some(PatchedBy(i.id))
    ensures i.origReset == Some(i.platformClass.asyncReset) && i.origReset == Some(PatchedBy(i.id))
  {
    i.Apply();
    i.Apply();
  }
}
