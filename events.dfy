/** The event type registry, the event factories and the type-based dispatch
    of lib/events/event.h.

    An event carries a numeric type id; the registry that hands out ids for
    matrix type strings is a total function, injective by assumption (its
    implementation, `initializeTypeId`, is not part of this model). The
    factories of one event base class are an ordered list of functions from
    (JSON, matrix type) to "an event or null"; `Make` asks them in order. */
module Events {
  import opened Wrappers

  // === JSON values (the part of QJsonValue the model needs) ===

  datatype Json =
    | JNull
    | JBool(b: bool)
    | JNumber(n: int)
    | JString(s: string)
    | JArray(items: seq<Json>)
    | JObject(fields: map<string, Json>)

  type JsonObject = map<string, Json>

  const TypeKey: string := "type"
  const ContentKey: string := "content"

  /** A minimal correct Matrix event JSON: exactly the keys "type" and
      "content". */
  function BasicEventJson(matrixType: string, content: JsonObject): (r: JsonObject)
    ensures r.Keys == {TypeKey, ContentKey}
  {
    map[TypeKey := JString(matrixType), ContentKey := JObject(content)]
  }

  /** The matrix type an event JSON declares ("" when "type" is missing or is
      not a string, as QJsonValue::toString() gives). */
  function MatrixTypeOf(json: JsonObject): string
  {
    if TypeKey in json && json[TypeKey].JString? then json[TypeKey].s else ""
  }

  /** The content object of an event JSON (empty when "content" is missing or
      is not an object, as QJsonValue::toObject() gives). */
  function ContentOf(json: JsonObject): JsonObject
  {
    if ContentKey in json && json[ContentKey].JObject? then json[ContentKey].fields else map[]
  }

  /** Reading back a basic event JSON gives the type and content it was made of. */
  lemma BasicEventJsonRoundTrip(matrixType: string, content: JsonObject)
    ensures MatrixTypeOf(BasicEventJson(matrixType, content)) == matrixType
    ensures ContentOf(BasicEventJson(matrixType, content)) == content
  {
  }

  // === Event types and the type registry ===

  type TypeId = nat

  /** `EventTypeRegistry::initializeTypeId`: a type id for every matrix type. */
  type Registry = string -> TypeId

  ghost predicate Injective(reg: Registry)
  {
    forall a, b :: reg(a) == reg(b) ==> a == b
  }

  /** The matrix type of the unknown event type, `typeId<void>()`. */
  const UnknownMatrixType: string := ""

  /** `unknownEventTypeId()`: the id `typeId<void>()` is given, which is the
      empty matrix type's; with an injective registry no other type has it. */
  function UnknownTypeId(reg: Registry): (id: TypeId)
    ensures Injective(reg) ==> forall matrixType :: matrixType != UnknownMatrixType ==> reg(matrixType) != id
  {
    reg(UnknownMatrixType)
  }

  /** `EventTypeTraits<E>::id()`: a function-local static that asks the
      registry on the first call and returns the stored id from then on. */
  class TypeIdSlot {
    const matrixType: string
    var cached: Option<TypeId>

    constructor (matrixType: string)
      ensures this.matrixType == matrixType && cached == None
    {
      this.matrixType := matrixType;
      cached := None;
    }

    method Id(reg: Registry) returns (id: TypeId)
      modifies this`cached
      ensures old(cached).None? ==> id == reg(matrixType)
      ensures old(cached).Some? ==> id == old(cached).value
      ensures cached == Some(id)
    {
      if cached.None? {
        cached := Some(reg(matrixType));
      }
      id := cached.value;
    }
  }

  /** Once computed, a type id does not change, whatever the registry says on
      later calls. */
  method TypeIdIsStable(slot: TypeIdSlot, reg: Registry, laterReg: Registry)
    returns (first: TypeId, second: TypeId)
    modifies slot
    ensures first == second
    ensures old(slot.cached).None? ==> first == reg(slot.matrixType)
  {
    first := slot.Id(reg);
    second := slot.Id(laterReg);
  }

  // === Events ===

  /** `Event`: its type id and its full JSON. */
  datatype Event = Event(typeId: TypeId, json: JsonObject)

  /** `is<E>(e)`: the event's type id is the one of E's matrix type; with
      an injective registry no other matrix type has that id. */
  predicate Is(reg: Registry, matrixType: string, e: Event)
    ensures Is(reg, matrixType, e) && Injective(reg) ==>
              forall other :: reg(other) == e.typeId ==> other == matrixType
  {
    e.typeId == reg(matrixType)
  }

  /** `isUnknown(e)`: the event has the id of the empty matrix type, and
      then (with an injective registry) it is of no other type. */
  predicate IsUnknown(reg: Registry, e: Event)
    ensures IsUnknown(reg, e) <==> Is(reg, UnknownMatrixType, e)
    ensures IsUnknown(reg, e) && Injective(reg) ==>
              forall matrixType :: matrixType != UnknownMatrixType ==> !Is(reg, matrixType, e)
  {
    e.typeId == UnknownTypeId(reg)
  }

  /** `eventCast<E>(p)`: p itself when it is an E, null otherwise. */
  function EventCast(reg: Registry, matrixType: string, p: Option<Event>): (r: Option<Event>)
    requires p.Some?
    ensures r.Some? <==> Is(reg, matrixType, p.value)
    ensures r.Some? ==> r.value == p.value
  {
    if Is(reg, matrixType, p.value) then p else None
  }

  // === EventFactory ===

  /** One factory function: an event, or null when it does not recognise
      the input. */
  type Factory = (JsonObject, string) -> Option<Event>

  /** What `make` computes: the result of the earliest factory that yields
      an event, null when none does. */
  function FirstEvent(fs: seq<Factory>, json: JsonObject, matrixType: string): Option<Event>
    decreases |fs|
  {
    if fs == [] then None
    else if fs[0](json, matrixType).Some? then fs[0](json, matrixType)
    else FirstEvent(fs[1..], json, matrixType)
  }

  lemma {:induction false} FirstEventNoneIff(fs: seq<Factory>, json: JsonObject, matrixType: string)
    ensures FirstEvent(fs, json, matrixType).None?
            <==> forall i :: 0 <= i < |fs| ==> fs[i](json, matrixType).None?
  {
    if fs != [] {
      FirstEventNoneIff(fs[1..], json, matrixType);
      assert forall i :: 1 <= i < |fs| ==> fs[i] == fs[1..][i - 1];
    }
  }

  /** The factory that wins is the earliest one that yields an event. */
  lemma {:induction false} FirstEventIsEarliest(fs: seq<Factory>, json: JsonObject, matrixType: string, k: nat)
    requires k < |fs| && fs[k](json, matrixType).Some?
    requires forall j :: 0 <= j < k ==> fs[j](json, matrixType).None?
    ensures FirstEvent(fs, json, matrixType) == fs[k](json, matrixType)
  {
    if k > 0 {
      assert forall j :: 0 <= j < k - 1 ==> fs[1..][j] == fs[j + 1];
      FirstEventIsEarliest(fs[1..], json, matrixType, k - 1);
    }
  }

  /** Asking two lists in a row is asking their concatenation. */
  lemma {:induction false} FirstEventConcat(fs: seq<Factory>, gs: seq<Factory>, json: JsonObject, matrixType: string)
    ensures FirstEvent(fs + gs, json, matrixType)
            == if FirstEvent(fs, json, matrixType).Some? then FirstEvent(fs, json, matrixType)
               else FirstEvent(gs, json, matrixType)
  {
    if fs != [] {
      assert (fs + gs)[0] == fs[0];
      assert (fs + gs)[1..] == fs[1..] + gs;
      FirstEventConcat(fs[1..], gs, json, matrixType);
    } else {
      assert fs + gs == gs;
    }
  }

  /** A factory added later never shadows an earlier one. */
  lemma AddedFactoryIsAskedLast(fs: seq<Factory>, f: Factory, json: JsonObject, matrixType: string)
    ensures FirstEvent(fs + [f], json, matrixType)
            == if FirstEvent(fs, json, matrixType).Some? then FirstEvent(fs, json, matrixType)
               else f(json, matrixType)
  {
    FirstEventConcat(fs, [f], json, matrixType);
    assert FirstEvent([f][1..], json, matrixType) == None;
  }

  /** The factory `chainFactory` adds: the `make` of another factory list. */
  function ChainedMake(sub: seq<Factory>): Factory
  {
    (json: JsonObject, matrixType: string) => FirstEvent(sub, json, matrixType)
  }

  /** Chaining a factory looks through its types after the ones already
      registered: as if its list were appended. */
  lemma ChainedFactoryFlattens(fs: seq<Factory>, sub: seq<Factory>, json: JsonObject, matrixType: string)
    ensures FirstEvent(fs + [ChainedMake(sub)], json, matrixType) == FirstEvent(fs + sub, json, matrixType)
  {
    AddedFactoryIsAskedLast(fs, ChainedMake(sub), json, matrixType);
    FirstEventConcat(fs, sub, json, matrixType);
  }

  /** The factory `setupFactory<E>` installs: an E exactly when the JSON's
      matrix type is E's. */
  function TypedFactory(reg: Registry, matrixType: string): (f: Factory)
    ensures forall json, jsonMatrixType :: f(json, jsonMatrixType).Some? <==> jsonMatrixType == matrixType
    ensures forall json :: f(json, matrixType).Some? ==>
              Is(reg, matrixType, f(json, matrixType).value) && f(json, matrixType).value.json == json
  {
    (json: JsonObject, jsonMatrixType: string) =>
      if matrixType == jsonMatrixType then Some(Event(reg(matrixType), json)) else None
  }

  function TypedFactories(reg: Registry, matrixTypes: seq<string>): (fs: seq<Factory>)
    ensures |fs| == |matrixTypes|
    ensures forall i, json :: 0 <= i < |fs| ==> fs[i](json, matrixTypes[i]) == Some(Event(reg(matrixTypes[i]), json))
    ensures forall i, json, jsonMatrixType :: 0 <= i < |fs| && jsonMatrixType != matrixTypes[i] ==> fs[i](json, jsonMatrixType) == None
  {
    seq(|matrixTypes|, i requires 0 <= i < |matrixTypes| => TypedFactory(reg, matrixTypes[i]))
  }

  /** A list of registered event types builds an event exactly for the
      registered matrix types, and the event has the id of the requested
      type and the given JSON. */
  lemma {:induction false} TypedFactoriesBuildRequestedType(reg: Registry, matrixTypes: seq<string>, json: JsonObject, matrixType: string)
    ensures FirstEvent(TypedFactories(reg, matrixTypes), json, matrixType)
            == if matrixType in matrixTypes then Some(Event(reg(matrixType), json)) else None
  {
    var fs := TypedFactories(reg, matrixTypes);
    if matrixTypes != [] {
      assert fs[1..] == TypedFactories(reg, matrixTypes[1..]);
      TypedFactoriesBuildRequestedType(reg, matrixTypes[1..], json, matrixType);
      assert matrixType in matrixTypes <==> matrixType == matrixTypes[0] || matrixType in matrixTypes[1..];
    }
  }

  /** `EventFactory<BaseEventT>`: the factory list of one event base class,
      and the static guards of `registerEventType<E>()` for the types whose
      base it is. */
  class EventFactory {
    const reg: Registry
    var factories: seq<Factory>
    var registered: set<string>

    constructor (reg: Registry)
      ensures this.reg == reg && factories == [] && registered == {}
    {
      this.reg := reg;
      factories := [];
      registered := {};
    }

    /** `addMethod`: appends, and returns 0. */
    method AddMethod(f: Factory) returns (r: int)
      modifies this`factories
      ensures factories == old(factories) + [f]
      ensures r == 0
    {
      factories := factories + [f];
      r := 0;
    }

    /** `chainFactory<E>()`: adds the `make` of another base class. */
    method ChainFactory(sub: EventFactory) returns (r: int)
      modifies this`factories
      ensures factories == old(factories) + [ChainedMake(old(sub.factories))]
      ensures r == 0
    {
      r := AddMethod(ChainedMake(sub.factories));
    }

    /** `make`: the first non-null result in registration order. */
    method Make(json: JsonObject, matrixType: string) returns (r: Option<Event>)
      ensures r == FirstEvent(factories, json, matrixType)
      ensures r.None? <==> forall i :: 0 <= i < |factories| ==> factories[i](json, matrixType).None?
    {
      FirstEventNoneIff(factories, json, matrixType);
      var i := 0;
      while i < |factories|
        invariant 0 <= i <= |factories|
        invariant FirstEvent(factories[i..], json, matrixType) == FirstEvent(factories, json, matrixType)
      {
        var e := factories[i](json, matrixType);
        if e.Some? {
          return e;
        }
        assert factories[i..][1..] == factories[i + 1..];
        i := i + 1;
      }
      return None;
    }

    /** `setupFactory<E>()`. */
    method SetupFactory(matrixType: string) returns (r: int)
      modifies this`factories
      ensures factories == old(factories) + [TypedFactory(reg, matrixType)]
      ensures r == 0
    {
      r := AddMethod(TypedFactory(reg, matrixType));
    }

    /** `registerEventType<E>()`: sets the factory up on the first call only. */
    method RegisterEventType(matrixType: string) returns (r: int)
      modifies this`factories, this`registered
      ensures registered == old(registered) + {matrixType}
      ensures factories == if matrixType in old(registered) then old(factories)
                           else old(factories) + [TypedFactory(reg, matrixType)]
      ensures r == 0
    {
      if matrixType !in registered {
        r := SetupFactory(matrixType);
        registered := registered + {matrixType};
      }
      r := 0;
    }
  }

  /** Registering a type twice adds its factory once. */
  method RegisterTwiceAddsOnce(f: EventFactory, matrixType: string)
    modifies f
    requires matrixType !in f.registered
    ensures f.factories == old(f.factories) + [TypedFactory(f.reg, matrixType)]
  {
    var _ := f.RegisterEventType(matrixType);
    var _ := f.RegisterEventType(matrixType);
  }

  // === switchOnType() ===

  /** A handler taking a concrete event type. */
  datatype TypedHandler<R> = TypedHandler(matrixType: string, fn: Event -> R)

  /** What ends a handler chain: the default value of the single-handler
      form (for a void handler: the value meaning "nothing done"), or a
      handler taking the base event type, which takes any event. */
  datatype Fallback<R> = DefaultValue(value: R) | CatchAll(fn: Event -> R)

  function ApplyFallback<R>(last: Fallback<R>, e: Event): R
  {
    match last
    case DefaultValue(d) => d
    case CatchAll(fn) => fn(e)
  }

  /** The `switchOnType` overloads: run the first handler whose type the
      event is, else fall back. */
  function SwitchOnType<R>(reg: Registry, e: Event, hs: seq<TypedHandler<R>>, last: Fallback<R>): (r: R)
    decreases |hs|
    ensures (forall j :: 0 <= j < |hs| ==> !Is(reg, hs[j].matrixType, e)) ==> r == ApplyFallback(last, e)
    ensures (exists k :: 0 <= k < |hs| && Is(reg, hs[k].matrixType, e)) ==>
              exists k :: 0 <= k < |hs| && Is(reg, hs[k].matrixType, e) && r == hs[k].fn(e) &&
                          forall j :: 0 <= j < k ==> !Is(reg, hs[j].matrixType, e)
  {
    if hs == [] then ApplyFallback(last, e)
    else if Is(reg, hs[0].matrixType, e) then hs[0].fn(e)
    else SwitchOnType(reg, e, hs[1..], last)
  }

  /** Only the first matching handler decides the result. */
  lemma {:induction false} SwitchRunsFirstMatch<R>(reg: Registry, e: Event, hs: seq<TypedHandler<R>>, last: Fallback<R>, k: nat)
    requires k < |hs| && Is(reg, hs[k].matrixType, e)
    requires forall j :: 0 <= j < k ==> !Is(reg, hs[j].matrixType, e)
    ensures SwitchOnType(reg, e, hs, last) == hs[k].fn(e)
  {
    if k > 0 {
      assert forall j :: 0 <= j < k - 1 ==> hs[1..][j] == hs[j + 1];
      SwitchRunsFirstMatch(reg, e, hs[1..], last, k - 1);
    }
  }

  /** With no matching handler, the default comes back unchanged (or the
      catch-all handler runs). */
  lemma {:induction false} SwitchFallsThrough<R>(reg: Registry, e: Event, hs: seq<TypedHandler<R>>, last: Fallback<R>)
    requires forall j :: 0 <= j < |hs| ==> !Is(reg, hs[j].matrixType, e)
    ensures SwitchOnType(reg, e, hs, last) == ApplyFallback(last, e)
  {
    if hs != [] {
      assert forall j :: 0 <= j < |hs| - 1 ==> hs[1..][j] == hs[j + 1];
      SwitchFallsThrough(reg, e, hs[1..], last);
    }
  }

  /** `visitEach`: `switchOnType` on each event of a range, in order; the
      results stand for the effects of the void handlers. */
  method VisitEach<R>(reg: Registry, events: seq<Event>, hs: seq<TypedHandler<R>>, last: Fallback<R>)
    returns (results: seq<R>)
    ensures |results| == |events|
    ensures forall i :: 0 <= i < |events| ==> results[i] == SwitchOnType(reg, events[i], hs, last)
  {
    results := [];
    for i := 0 to |events|
      invariant |results| == i
      invariant forall j :: 0 <= j < i ==> results[j] == SwitchOnType(reg, events[j], hs, last)
    {
      results := results + [SwitchOnType(reg, events[i], hs, last)];
    }
  }
}
