/** The service-builder registry: one table from request type to builder and
    one from component identity to builder, the lazy dummy fallback for
    identities nobody registered, and the discovery hook that fills both
    tables from a candidate builder class. Tables are immutable maps threaded
    through pure functions. */
module ServiceBuilders {
  import opened Wrappers
  import opened Components

  /** The two registry tables. */
  datatype Registry = Registry(
    builders: map<RequestType, ServiceBuilder>,
    componentBuilders: map<ComponentId, ServiceBuilder>)

  /** The tables before discovery has run. */
  const EmptyRegistry: Registry := Registry(map[], map[])

  /** `m'` has exactly the entries of `m` for every key outside `keys`. */
  ghost predicate AgreeOutside<K(!new), V>(m: map<K, V>, m': map<K, V>, keys: set<K>)
  {
    forall k :: k !in keys ==> (k in m <==> k in m') && (k in m ==> m[k] == m'[k])
  }

  // ---------------------------------------------------------------------------
  // Registration and lookup
  // ---------------------------------------------------------------------------

  /** Registers `b` as the builder for request type `t`, replacing any
      earlier builder for that type. */
  function AddTypeBuilder(reg: Registry, t: RequestType, b: ServiceBuilder): (r: Registry)
    ensures Handles(r, t) == Some(b)
    ensures AgreeOutside(reg.builders, r.builders, {t})
    ensures r.componentBuilders == reg.componentBuilders
  {
    reg.(builders := reg.builders[t := b])
  }

  /** Registers `b` as the builder for identity `id`, replacing any earlier
      builder for that identity. */
  function AddIdBuilder(reg: Registry, id: ComponentId, b: ServiceBuilder): (r: Registry)
    ensures id in r.componentBuilders && r.componentBuilders[id] == b
    ensures AgreeOutside(reg.componentBuilders, r.componentBuilders, {id})
    ensures r.builders == reg.builders
  {
    reg.(componentBuilders := reg.componentBuilders[id := b])
  }

  /** The builder registered for exactly request type `t`, or `None` (Java's
      null) when there is none: no fallback is tried. */
  function Handles(reg: Registry, t: RequestType): (r: Option<ServiceBuilder>)
    ensures r.Some? <==> t in reg.builders
    ensures r.Some? ==> r.value == reg.builders[t]
  {
    if t in reg.builders then Some(reg.builders[t]) else None
  }

  /** The identity served by the builder for `t`. In the source this
      dereferences the result of `Handles`, so an unregistered type throws;
      here that is `None`. */
  function OneWhichHandles(reg: Registry, t: RequestType): (r: Option<ComponentId>)
    ensures r.Some? <==> t in reg.builders
    ensures r.Some? ==> r.value == reg.builders[t].componentId
  {
    match Handles(reg, t)
    case None => None
    case Some(b) => Some(b.componentId)
  }

  /** The registry after a lookup together with the builder it returned. */
  datatype LookupResult = LookupResult(registry: Registry, builder: ServiceBuilder)

  /** Looks up the builder for identity `id`. On a miss a dummy builder
      wrapping the identity of the component registered for `id` is installed
      and returned; `resolve` stands for that component-catalog lookup. */
  function Lookup(reg: Registry, id: ComponentId, resolve: ComponentId -> ComponentId): (r: LookupResult)
    ensures id in r.registry.componentBuilders
    ensures r.registry.componentBuilders[id] == r.builder
    ensures id in reg.componentBuilders ==> r.registry == reg && r.builder == reg.componentBuilders[id]
    ensures id !in reg.componentBuilders ==> r.builder == Dummy(resolve(id))
    ensures AgreeOutside(reg.componentBuilders, r.registry.componentBuilders, {id})
    ensures r.registry.builders == reg.builders
  {
    var reg' := if id in reg.componentBuilders then reg else AddIdBuilder(reg, id, Dummy(resolve(id)));
    LookupResult(reg', reg'.componentBuilders[id])
  }

  /** The builder for the identity of a service configuration
      (`ServiceBuilderMapper`): exactly a lookup of that identity. */
  function BuilderFor(reg: Registry, config: ServiceConfiguration, resolve: ComponentId -> ComponentId): (r: LookupResult)
    ensures r == Lookup(reg, config.componentId, resolve)
    ensures config.componentId in reg.componentBuilders ==> r.builder == reg.componentBuilders[config.componentId]
    ensures config.componentId !in reg.componentBuilders ==> r.builder == Dummy(resolve(config.componentId))
  {
    Lookup(reg, config.componentId, resolve)
  }

  // ---------------------------------------------------------------------------
  // Discovery
  // ---------------------------------------------------------------------------

  /** What discovery can learn about a candidate class, in place of
      reflection: whether it is a service builder at all, its modifiers, the
      identity its instance reports, the identities its discoverable-builder
      annotation lists and the request types its handles annotation lists (an
      absent annotation is an empty list). */
  datatype Candidate = Candidate(
    className: string,
    isBuilder: bool,
    isAbstract: bool,
    isInterface: bool,
    reports: ComponentId,
    identities: seq<ComponentId>,
    handledTypes: seq<RequestType>)

  /** Discovery only instantiates concrete builder classes. */
  predicate Accepts(c: Candidate)
  {
    c.isBuilder && !c.isAbstract && !c.isInterface
  }

  /** The single builder instance discovery creates for a candidate. */
  function Instance(c: Candidate): ServiceBuilder
  {
    Discovered(c.className, c.reports)
  }

  /** Registers `b` under every identity of `ids`, first to last. */
  function AddIdBuilders(reg: Registry, ids: seq<ComponentId>, b: ServiceBuilder): (r: Registry)
    ensures forall id :: id in ids ==> id in r.componentBuilders && r.componentBuilders[id] == b
    ensures AgreeOutside(reg.componentBuilders, r.componentBuilders, set id | id in ids)
    ensures r.builders == reg.builders
    decreases |ids|
  {
    if ids == [] then reg
    else AddIdBuilders(AddIdBuilder(reg, ids[0], b), ids[1..], b)
  }

  /** Registers `b` under every request type of `ts`, first to last. */
  function AddTypeBuilders(reg: Registry, ts: seq<RequestType>, b: ServiceBuilder): (r: Registry)
    ensures forall t :: t in ts ==> Handles(r, t) == Some(b)
    ensures AgreeOutside(reg.builders, r.builders, set t | t in ts)
    ensures r.componentBuilders == reg.componentBuilders
    decreases |ts|
  {
    if ts == [] then reg
    else AddTypeBuilders(AddTypeBuilder(reg, ts[0], b), ts[1..], b)
  }

  /** The outcome of offering one class to discovery. */
  datatype DiscoveryResult = DiscoveryResult(accepted: bool, registry: Registry)

  /** The discovery hook (`processClass`): a rejected candidate leaves both
      tables alone; an accepted one is instantiated once and that instance is
      registered under every declared identity and every handled type. */
  function ProcessClass(reg: Registry, c: Candidate): (r: DiscoveryResult)
    ensures r.accepted <==> Accepts(c)
    ensures !Accepts(c) ==> r.registry == reg
    ensures Accepts(c) ==>
      && (forall id :: id in c.identities ==> id in r.registry.componentBuilders && r.registry.componentBuilders[id] == Instance(c))
      && (forall t :: t in c.handledTypes ==> Handles(r.registry, t) == Some(Instance(c)))
      && AgreeOutside(reg.componentBuilders, r.registry.componentBuilders, set id | id in c.identities)
      && AgreeOutside(reg.builders, r.registry.builders, set t | t in c.handledTypes)
  {
    if Accepts(c) then
      var b := Instance(c);
      DiscoveryResult(true, AddTypeBuilders(AddIdBuilders(reg, c.identities, b), c.handledTypes, b))
    else
      DiscoveryResult(false, reg)
  }

  // ---------------------------------------------------------------------------
  // Properties
  // ---------------------------------------------------------------------------

  /** After registering `b` for `t`, `Handles(t)` is `b` and every other
      request type answers as before. */
  lemma HandlesAfterAddTypeBuilder(reg: Registry, t: RequestType, b: ServiceBuilder, t': RequestType)
    ensures Handles(AddTypeBuilder(reg, t, b), t') == if t' == t then Some(b) else Handles(reg, t')
  {
  }

  /** Registering twice for the same request type keeps only the last
      builder. */
  lemma AddTypeBuilderLastWriteWins(reg: Registry, t: RequestType, b1: ServiceBuilder, b2: ServiceBuilder)
    ensures AddTypeBuilder(AddTypeBuilder(reg, t, b1), t, b2) == AddTypeBuilder(reg, t, b2)
  {
  }

  /** After registering `b` for `id`, a lookup of `id` returns `b` and
      installs nothing. */
  lemma LookupAfterAddIdBuilder(reg: Registry, id: ComponentId, b: ServiceBuilder, resolve: ComponentId -> ComponentId)
    ensures Lookup(AddIdBuilder(reg, id, b), id, resolve) == LookupResult(AddIdBuilder(reg, id, b), b)
  {
  }

  /** A second lookup of the same identity returns the same builder and
      leaves the tables as the first lookup left them. */
  lemma LookupIdempotent(reg: Registry, id: ComponentId, resolve: ComponentId -> ComponentId)
    ensures Lookup(Lookup(reg, id, resolve).registry, id, resolve) == Lookup(reg, id, resolve)
  {
  }

  /** A lookup never replaces or removes an entry: every identity mapped
      before is mapped to the same builder after. */
  lemma LookupKeepsEntries(reg: Registry, id: ComponentId, resolve: ComponentId -> ComponentId, k: ComponentId)
    requires k in reg.componentBuilders
    ensures k in Lookup(reg, id, resolve).registry.componentBuilders
    ensures Lookup(reg, id, resolve).registry.componentBuilders[k] == reg.componentBuilders[k]
  {
  }

  /** A request type nobody registered has no builder and no identity. */
  lemma UnregisteredTypeHasNoBuilder(reg: Registry, t: RequestType)
    requires t !in reg.builders
    ensures Handles(reg, t) == None && OneWhichHandles(reg, t) == None
  {
  }

  /** An accepted candidate is registered as one shared instance: the
      builder under any declared identity is the builder under any handled
      type. */
  lemma ProcessClassSharesInstance(reg: Registry, c: Candidate, id: ComponentId, t: RequestType)
    requires Accepts(c) && id in c.identities && t in c.handledTypes
    ensures Handles(ProcessClass(reg, c).registry, t) == Some(ProcessClass(reg, c).registry.componentBuilders[id])
  {
  }

  /** An accepted candidate that declares nothing is still accepted, and
      changes nothing. */
  lemma ProcessClassWithoutDeclarations(reg: Registry, c: Candidate)
    requires Accepts(c) && c.identities == [] && c.handledTypes == []
    ensures ProcessClass(reg, c) == DiscoveryResult(true, reg)
  {
  }

  /** After discovery of a candidate, looking up one of its identities
      returns its instance without installing a fallback, and the request
      types it handles resolve to the identity the instance reports. */
  lemma DiscoveredBuilderIsFound(reg: Registry, c: Candidate, id: ComponentId, t: RequestType, resolve: ComponentId -> ComponentId)
    requires Accepts(c) && id in c.identities && t in c.handledTypes
    ensures Lookup(ProcessClass(reg, c).registry, id, resolve) == LookupResult(ProcessClass(reg, c).registry, Instance(c))
    ensures OneWhichHandles(ProcessClass(reg, c).registry, t) == Some(c.reports)
  {
  }

  /** Discovery of one candidate on fresh tables leaves exactly its declared
      identities and handled types registered. */
  lemma DiscoveryFromEmptyRegistry(c: Candidate)
    requires Accepts(c)
    ensures ProcessClass(EmptyRegistry, c).registry.componentBuilders.Keys == set id | id in c.identities
    ensures ProcessClass(EmptyRegistry, c).registry.builders.Keys == set t | t in c.handledTypes
  {
  }
}
