/** The configuration service: register, deregister, modify-attribute and
    describe requests, each resolved through the service-builder registry.
    The registration handler, the component list, the per-identity list of
    service configurations and the component catalog are collaborators this
    model does not contain; they are passed in as values and functions. */
module Configuration {
  import opened Wrappers
  import opened Components
  import opened ServiceBuilders

  /** A required field of a registration request. */
  datatype Field = Name | HostName | Port

  /** Why a request fails. `NoBuilderHandles` is the null dereference when no
      builder handles the request's class; `NullArgument` is the failed
      not-null assertion; `LookupFailed` is a failure of a details or
      component-state lookup that nothing catches; the other three are the
      service's own checked exception, the wrapped ones carrying the
      handler's message. */
  datatype Error =
    | NoBuilderHandles(requestType: RequestType)
    | NullArgument(field: Field)
    | LookupFailed(message: string)
    | RegistrationFailed(cause: string)
    | DeregistrationFailed(cause: string)
    | UnknownAttribute(attribute: Option<string>)

  /** The errors the service raises as its own checked exception. */
  predicate IsServiceException(e: Error)
  {
    e.RegistrationFailed? || e.DeregistrationFailed? || e.UnknownAttribute?
  }

  const RegistrationFailedPrefix := "Component registration failed because: "
  const DeregistrationFailedPrefix := "Component deregistration failed because: "
  const UnknownAttributePrefix := "Request to modify unknown attribute: "

  /** Java's rendering of a possibly-null string in a concatenation. */
  function Render(s: Option<string>): string
  {
    match s
    case None => "null"
    case Some(v) => v
  }

  /** The message of a service exception: a fixed prefix followed by the
      wrapped cause or the offending attribute. */
  function Message(e: Error): (m: string)
    requires IsServiceException(e)
    ensures e.RegistrationFailed? ==>
      |m| >= |RegistrationFailedPrefix| && m[..|RegistrationFailedPrefix|] == RegistrationFailedPrefix
      && m[|RegistrationFailedPrefix|..] == e.cause
    ensures e.DeregistrationFailed? ==>
      |m| >= |DeregistrationFailedPrefix| && m[..|DeregistrationFailedPrefix|] == DeregistrationFailedPrefix
      && m[|DeregistrationFailedPrefix|..] == e.cause
    ensures e.UnknownAttribute? ==>
      |m| >= |UnknownAttributePrefix| && m[..|UnknownAttributePrefix|] == UnknownAttributePrefix
      && m[|UnknownAttributePrefix|..] == Render(e.attribute)
  {
    match e
    case RegistrationFailed(cause) => RegistrationFailedPrefix + cause
    case DeregistrationFailed(cause) => DeregistrationFailedPrefix + cause
    case UnknownAttribute(attribute) => UnknownAttributePrefix + Render(attribute)
  }

  // ---------------------------------------------------------------------------
  // Register
  // ---------------------------------------------------------------------------

  /** A register request; absent fields are Java nulls. */
  datatype RegisterRequest = RegisterRequest(
    requestType: RequestType,
    name: Option<string>,
    host: Option<string>,
    port: Option<int>,
    partition: Option<string>)

  /** The arguments handed to the registration handler. */
  datatype RegistrationCall = RegistrationCall(
    componentId: ComponentId,
    partition: Option<string>,
    name: string,
    hostName: string,
    port: int)

  /** The partition a registration uses: an unpartitioned identity always
      uses its fixed partition; a partitioned one uses the requested
      partition, or the instance name when none was requested. */
  function ResolvePartition(id: ComponentId, requested: Option<string>, name: string): (p: Option<string>)
    ensures id.partitioned ==> p.Some? && (p == requested || p == Some(name))
    ensures id.partitioned && requested.Some? ==> p == requested
    ensures id.partitioned && requested.None? ==> p == Some(name)
    ensures !id.partitioned ==> p == id.partition
  {
    if !id.partitioned then id.partition
    else if requested.None? then Some(name)
    else requested
  }

  /** The validated handler call for a register request: the identity is
      resolved from the request class first, then name, host name and port
      are checked non-null in that order, then the partition is resolved. */
  function PlanRegistration(reg: Registry, req: RegisterRequest): (r: Result<RegistrationCall, Error>)
    ensures req.requestType !in reg.builders ==> r == Failure(NoBuilderHandles(req.requestType))
    ensures req.requestType in reg.builders ==>
      (r.Success? <==> req.name.Some? && req.host.Some? && req.port.Some?)
    ensures req.requestType in reg.builders && req.name.None? ==> r == Failure(NullArgument(Name))
    ensures req.requestType in reg.builders && req.name.Some? && req.host.None? ==> r == Failure(NullArgument(HostName))
    ensures req.requestType in reg.builders && req.name.Some? && req.host.Some? && req.port.None? ==> r == Failure(NullArgument(Port))
    ensures r.Success? ==>
      && r.value.componentId == reg.builders[req.requestType].componentId
      && Some(r.value.name) == req.name
      && Some(r.value.hostName) == req.host
      && Some(r.value.port) == req.port
      && r.value.partition == ResolvePartition(r.value.componentId, req.partition, r.value.name)
  {
    match OneWhichHandles(reg, req.requestType)
    case None => Failure(NoBuilderHandles(req.requestType))
    case Some(id) =>
      if req.name.None? then Failure(NullArgument(Name))
      else if req.host.None? then Failure(NullArgument(HostName))
      else if req.port.None? then Failure(NullArgument(Port))
      else
        var name := req.name.value;
        Success(RegistrationCall(id, ResolvePartition(id, req.partition, name), name, req.host.value, req.port.value))
  }

  /** Register (`registerComponent`): the planned call is handed to the
      registration handler; its boolean is the reply and any failure it
      raises is wrapped with its message as the cause. */
  function Register(reg: Registry, req: RegisterRequest, handler: RegistrationCall -> Result<bool, string>): (r: Result<bool, Error>)
    ensures PlanRegistration(reg, req).Failure? ==> r == Failure(PlanRegistration(reg, req).error)
    ensures r.Success? <==>
      PlanRegistration(reg, req).Success? && handler(PlanRegistration(reg, req).value).Success?
    ensures r.Success? ==> r.value == handler(PlanRegistration(reg, req).value).value
    ensures r.Failure? && r.error.RegistrationFailed? <==>
      PlanRegistration(reg, req).Success? && handler(PlanRegistration(reg, req).value).Failure?
    ensures r.Failure? && r.error.RegistrationFailed? ==>
      r.error.cause == handler(PlanRegistration(reg, req).value).error
  {
    match PlanRegistration(reg, req)
    case Failure(e) => Failure(e)
    case Success(call) =>
      match handler(call)
      case Success(ok) => Success(ok)
      case Failure(cause) => Failure(RegistrationFailed(cause))
  }

  /** A request with a null name, host name or port fails without the
      handler being consulted: any two handlers give the same failure, and
      it is the class lookup's failure or a null-argument failure. */
  lemma RegisterNullFieldSkipsHandler(reg: Registry, req: RegisterRequest,
                                      h1: RegistrationCall -> Result<bool, string>,
                                      h2: RegistrationCall -> Result<bool, string>)
    requires req.name.None? || req.host.None? || req.port.None?
    ensures Register(reg, req, h1) == Register(reg, req, h2)
    ensures Register(reg, req, h1).Failure?
    ensures Register(reg, req, h1).error.NoBuilderHandles? || Register(reg, req, h1).error.NullArgument?
  {
  }

  /** The identity is resolved before the fields are checked: an
      unhandled request class fails as such whatever fields are null. */
  lemma RegisterResolvesIdentityFirst(reg: Registry, req: RegisterRequest, handler: RegistrationCall -> Result<bool, string>)
    requires req.requestType !in reg.builders
    ensures Register(reg, req, handler) == Failure(NoBuilderHandles(req.requestType))
  {
  }

  /** For an unpartitioned identity the handler is called with the
      identity's fixed partition, whatever partition the request carried
      (none, the same, or a different one). */
  lemma RegisterUnpartitionedUsesFixedPartition(reg: Registry, req: RegisterRequest, requested: Option<string>)
    requires PlanRegistration(reg, req).Success?
    requires !PlanRegistration(reg, req).value.componentId.partitioned
    ensures PlanRegistration(reg, req.(partition := requested)) == PlanRegistration(reg, req)
    ensures PlanRegistration(reg, req).value.partition == reg.builders[req.requestType].componentId.partition
  {
  }

  /** For a partitioned identity the handler gets the requested partition
      unchanged, or the instance name when none was requested. */
  lemma RegisterPartitionedPartition(reg: Registry, req: RegisterRequest)
    requires PlanRegistration(reg, req).Success?
    requires PlanRegistration(reg, req).value.componentId.partitioned
    ensures req.partition.Some? ==> PlanRegistration(reg, req).value.partition == req.partition
    ensures req.partition.None? ==> PlanRegistration(reg, req).value.partition == req.name
  {
  }

  /** Registering again with the partition the first registration resolved
      produces the very same handler call. */
  lemma ResolvePartitionIdempotent(id: ComponentId, requested: Option<string>, name: string)
    ensures ResolvePartition(id, ResolvePartition(id, requested, name), name) == ResolvePartition(id, requested, name)
  {
  }

  // ---------------------------------------------------------------------------
  // Deregister
  // ---------------------------------------------------------------------------

  /** A deregister request. */
  datatype DeregisterRequest = DeregisterRequest(requestType: RequestType, partition: Option<string>)

  /** Deregister (`deregisterComponent`): the handler receives the identity
      handling the request class and the request's partition as given; its
      boolean is the reply and any failure is wrapped. */
  function Deregister(reg: Registry, req: DeregisterRequest,
                      handler: (ComponentId, Option<string>) -> Result<bool, string>): (r: Result<bool, Error>)
    ensures req.requestType !in reg.builders ==> r == Failure(NoBuilderHandles(req.requestType))
    ensures req.requestType in reg.builders ==>
      var outcome := handler(reg.builders[req.requestType].componentId, req.partition);
      && (r.Success? <==> outcome.Success?)
      && (outcome.Success? ==> r.value == outcome.value)
      && (outcome.Failure? ==> r == Failure(DeregistrationFailed(outcome.error)))
  {
    match OneWhichHandles(reg, req.requestType)
    case None => Failure(NoBuilderHandles(req.requestType))
    case Some(id) =>
      match handler(id, req.partition)
      case Success(ok) => Success(ok)
      case Failure(cause) => Failure(DeregistrationFailed(cause))
  }

  /** Unlike registration, deregistration does not resolve the partition:
      for an unpartitioned identity the deregistration handler receives the
      requested partition as given, while the registration handler would
      receive the fixed partition instead. The handlers here report whether
      the partition they were given is the requested one. */
  lemma DeregisterPassesPartitionUnresolved(reg: Registry, t: RequestType, requested: Option<string>,
                                            name: string, host: string, port: int)
    requires t in reg.builders && !reg.builders[t].componentId.partitioned
    ensures Deregister(reg, DeregisterRequest(t, requested), (id, p) => Success(p == requested)) == Success(true)
    ensures Register(reg, RegisterRequest(t, Some(name), Some(host), Some(port), requested),
                     (call: RegistrationCall) => Success(call.partition == requested))
            == Success(reg.builders[t].componentId.partition == requested)
  {
  }

  // ---------------------------------------------------------------------------
  // Modify attribute
  // ---------------------------------------------------------------------------

  /** The only attributes a modify request may name. */
  const RecognizedAttributes: set<string> := {"partition", "state"}

  /** A modify-attribute request; the attribute name may be null. */
  datatype ModifyRequest = ModifyRequest(requestType: RequestType, attribute: Option<string>, value: Option<string>)

  /** The attribute is one of the recognized names (a null name is not). */
  predicate Recognized(attribute: Option<string>)
  {
    attribute.Some? && attribute.value in RecognizedAttributes
  }

  /** Modify (`modify`): an unrecognized attribute is refused before any
      lookup; otherwise the builder for the handling identity is looked up
      (which may cache a fallback) and nothing else happens. The result is
      the registry as the lookup left it. */
  function Modify(reg: Registry, req: ModifyRequest, resolve: ComponentId -> ComponentId): (r: Result<Registry, Error>)
    ensures !Recognized(req.attribute) ==> r == Failure(UnknownAttribute(req.attribute))
    ensures Recognized(req.attribute) && req.requestType !in reg.builders ==>
      r == Failure(NoBuilderHandles(req.requestType))
    ensures Recognized(req.attribute) && req.requestType in reg.builders ==>
      r == Success(Lookup(reg, reg.builders[req.requestType].componentId, resolve).registry)
  {
    if !Recognized(req.attribute) then Failure(UnknownAttribute(req.attribute))
    else
      match OneWhichHandles(reg, req.requestType)
      case None => Failure(NoBuilderHandles(req.requestType))
      case Some(id) => Success(Lookup(reg, id, resolve).registry)
  }

  /** An unrecognized attribute is refused whatever the registry holds, so
      no lookup decides the outcome. */
  lemma ModifyRejectsBeforeLookup(reg1: Registry, reg2: Registry, req: ModifyRequest, resolve: ComponentId -> ComponentId)
    requires !Recognized(req.attribute)
    ensures Modify(reg1, req, resolve) == Modify(reg2, req, resolve) == Failure(UnknownAttribute(req.attribute))
  {
  }

  /** An accepted modify changes no registration: the request-type table is
      untouched, every identity entry keeps its builder, and at most the
      fallback for the handling identity is added. Repeating it changes
      nothing further. */
  lemma ModifyChangesNothing(reg: Registry, req: ModifyRequest, resolve: ComponentId -> ComponentId)
    requires Modify(reg, req, resolve).Success?
    ensures Modify(reg, req, resolve).value.builders == reg.builders
    ensures forall k :: k in reg.componentBuilders ==>
      k in Modify(reg, req, resolve).value.componentBuilders
      && Modify(reg, req, resolve).value.componentBuilders[k] == reg.componentBuilders[k]
    ensures Modify(reg, req, resolve).value.componentBuilders.Keys - reg.componentBuilders.Keys
      <= {reg.builders[req.requestType].componentId}
    ensures Modify(Modify(reg, req, resolve).value, req, resolve) == Modify(reg, req, resolve)
  {
    var id := reg.builders[req.requestType].componentId;
    LookupIdempotent(reg, id, resolve);
  }

  // ---------------------------------------------------------------------------
  // Describe
  // ---------------------------------------------------------------------------

  /** The read-only projection of one component or service. */
  datatype ComponentInfo = ComponentInfo(
    componentType: string,
    partition: Option<string>,
    name: Option<string>,
    hostName: Option<string>,
    fullName: string,
    state: string,
    detail: string)

  const NotAvailablePrefix := "n/a: "

  /** The state text of a service: its lifecycle state, or "n/a: " and the
      failure's message when the lookup fails. */
  function StateText(state: Result<string, string>): (s: string)
    ensures state.Success? ==> s == state.value
    ensures state.Failure? ==>
      |s| >= |NotAvailablePrefix| && s[..|NotAvailablePrefix|] == NotAvailablePrefix
      && s[|NotAvailablePrefix|..] == state.error
  {
    match state
    case Success(v) => v
    case Failure(message) => NotAvailablePrefix + message
  }


  /** Projects a service configuration (`ComponentInfoMapper`): identity
      name as type, the location fields copied, the state text, and the
      first detail or "" when there are none. Only the state lookup is
      guarded: a failing details lookup escapes as the projection's failure. */
  function ToInfo(config: ServiceConfiguration): (r: Result<ComponentInfo, Error>)
    ensures r.Failure? <==> config.details.Failure?
    ensures r.Failure? ==> r.error == LookupFailed(config.details.error)
    ensures r.Success? ==>
      && r.value.componentType == config.componentId.name
      && r.value.partition == config.partition && r.value.name == config.name
      && r.value.hostName == config.hostName && r.value.fullName == config.fullName
      && r.value.state == StateText(config.state)
      && (|config.details.value| == 0 ==> r.value.detail == "")
      && (|config.details.value| > 0 ==> r.value.detail == config.details.value[0])
  {
    match config.details
    case Failure(message) => Failure(LookupFailed(message))
    case Success(details) =>
      Success(ComponentInfo(config.componentId.name, config.partition, config.name, config.hostName, config.fullName,
                            StateText(config.state), if |details| == 0 then "" else details[0]))
  }

  /** Details are shown only when verbose is exactly true; null is false. */
  predicate Verbose(verbose: Option<bool>)
  {
    verbose == Some(true)
  }

  /** The projection of a service as listed: its detail is blanked unless
      the request is verbose. It fails exactly when the projection does. */
  function ListedInfo(config: ServiceConfiguration, verbose: Option<bool>): (r: Result<ComponentInfo, Error>)
    ensures r.Failure? <==> ToInfo(config).Failure?
    ensures r.Failure? ==> r == ToInfo(config)
    ensures r.Success? ==> r.value.(detail := "") == ToInfo(config).value.(detail := "")
    ensures Verbose(verbose) ==> r == ToInfo(config)
    ensures !Verbose(verbose) && r.Success? ==> r.value.detail == ""
  {
    match ToInfo(config)
    case Failure(e) => Failure(e)
    case Success(info) => if Verbose(verbose) then Success(info) else Success(info.(detail := ""))
  }

  /** The placeholder listed for a component without a local service. */
  function Placeholder(c: Component, state: string): ComponentInfo
  {
    ComponentInfo(c.componentId.name, c.componentId.partition, Some(""), Some(""), "", state, "")
  }

  /** The record listed for a component: the listed projection of its local
      service, or a placeholder with empty name, host name, full name and
      detail, its identity's partition and its own state. Reading that
      state is not guarded either. */
  function DescribeComponent(c: Component, verbose: Option<bool>): (r: Result<ComponentInfo, Error>)
    ensures c.localService.Some? ==> r == ListedInfo(c.localService.value, verbose)
    ensures c.localService.None? && c.state.Success? ==>
      r == Success(ComponentInfo(c.componentId.name, c.componentId.partition, Some(""), Some(""), "", c.state.value, ""))
    ensures c.localService.None? && c.state.Failure? ==> r == Failure(LookupFailed(c.state.error))
  {
    match c.localService
    case Some(config) => ListedInfo(config, verbose)
    case None =>
      match c.state
      case Success(state) => Success(Placeholder(c, state))
      case Failure(message) => Failure(LookupFailed(message))
  }

  /** `r` lists `f` of every element of `xs` in order when every projection
      succeeds, and otherwise is the failure of the first projection that
      fails. */
  ghost predicate ProjectsInOrder<X>(xs: seq<X>, f: X -> Result<ComponentInfo, Error>, r: Result<seq<ComponentInfo>, Error>)
  {
    && (r.Success? <==> forall i :: 0 <= i < |xs| ==> f(xs[i]).Success?)
    && (r.Success? ==> |r.value| == |xs| && forall i :: 0 <= i < |xs| ==> r.value[i] == f(xs[i]).value)
    && (r.Failure? ==>
          exists i :: 0 <= i < |xs| && f(xs[i]) == Failure(r.error)
                   && forall j :: 0 <= j < i ==> f(xs[j]).Success?)
  }

  /** Appends the projection of each element to the reply in list order; a
      projection that fails aborts the whole listing. */
  function ProjectAll<X>(xs: seq<X>, f: X -> Result<ComponentInfo, Error>): (r: Result<seq<ComponentInfo>, Error>)
    ensures ProjectsInOrder(xs, f, r)
    decreases |xs|
  {
    if xs == [] then Success([])
    else
      match f(xs[0])
      case Failure(e) => Failure(e)
      case Success(info) =>
        match ProjectAll(xs[1..], f)
        case Failure(e) =>
          assert exists i :: 0 <= i < |xs[1..]| && f(xs[1..][i]) == Failure(e)
                          && forall j :: 0 <= j < i ==> f(xs[1..][j]).Success?;
          var i :| 0 <= i < |xs[1..]| && f(xs[1..][i]) == Failure(e)
                   && forall j :: 0 <= j < i ==> f(xs[1..][j]).Success?;
          assert f(xs[i + 1]) == Failure(e);
          assert forall j :: 0 <= j < i + 1 ==> f(xs[j]).Success? by {
            forall j | 0 <= j < i + 1 ensures f(xs[j]).Success? {
              if j > 0 { assert xs[j] == xs[1..][j - 1]; }
            }
          }
          Failure(e)
        case Success(rest) =>
          assert forall i :: 1 <= i < |xs| ==> xs[i] == xs[1..][i - 1];
          Success([info] + rest)
  }

  /** The class of a plain describe-components request; a request of any
      other class describes the services of the identity handling it. */
  const DescribeComponentsType := RequestType("DescribeComponentsType")

  /** A describe request; `verbose` may be null. */
  datatype DescribeRequest = DescribeRequest(requestType: RequestType, verbose: Option<bool>)

  /** Describe (`listComponents`): a plain request lists every component of
      `components`; any other request lists `configurationsOf` the identity
      whose builder handles its class, and fails when none does. Either
      listing fails at its first record whose lookup fails. */
  function ListComponents(reg: Registry, req: DescribeRequest, components: seq<Component>,
                          configurationsOf: ComponentId -> seq<ServiceConfiguration>): (r: Result<seq<ComponentInfo>, Error>)
    ensures req.requestType == DescribeComponentsType ==>
      ProjectsInOrder(components, c => DescribeComponent(c, req.verbose), r)
    ensures req.requestType != DescribeComponentsType && req.requestType !in reg.builders ==>
      r == Failure(NoBuilderHandles(req.requestType))
    ensures req.requestType != DescribeComponentsType && req.requestType in reg.builders ==>
      ProjectsInOrder(configurationsOf(reg.builders[req.requestType].componentId),
                      config => ListedInfo(config, req.verbose), r)
  {
    if req.requestType == DescribeComponentsType then
      ProjectAll(components, c => DescribeComponent(c, req.verbose))
    else
      match Handles(reg, req.requestType)
      case None => Failure(NoBuilderHandles(req.requestType))
      case Some(b) => ProjectAll(configurationsOf(b.componentId), config => ListedInfo(config, req.verbose))
  }

  /** Unless verbose is exactly true, every listed record has an empty
      detail, whichever branch produced it. */
  lemma NonVerboseListsNoDetail(reg: Registry, req: DescribeRequest, components: seq<Component>,
                                configurationsOf: ComponentId -> seq<ServiceConfiguration>)
    requires !Verbose(req.verbose)
    requires ListComponents(reg, req, components, configurationsOf).Success?
    ensures forall info :: info in ListComponents(reg, req, components, configurationsOf).value ==> info.detail == ""
  {
  }

  /** A verbose plain listing shows every local service as its full
      projection, so its first detail when it has one. */
  lemma VerboseListsFirstDetail(reg: Registry, components: seq<Component>,
                                configurationsOf: ComponentId -> seq<ServiceConfiguration>, i: int)
    requires 0 <= i < |components| && components[i].localService.Some?
    requires ListComponents(reg, DescribeRequest(DescribeComponentsType, Some(true)), components, configurationsOf).Success?
    ensures components[i].localService.value.details.Success?
    ensures ListComponents(reg, DescribeRequest(DescribeComponentsType, Some(true)), components, configurationsOf).value[i]
            == ToInfo(components[i].localService.value).value
    ensures |components[i].localService.value.details.value| > 0 ==>
      ListComponents(reg, DescribeRequest(DescribeComponentsType, Some(true)), components, configurationsOf).value[i].detail
      == components[i].localService.value.details.value[0]
  {
  }

  /** As written, one local service whose details cannot be read aborts the
      whole plain listing, verbose or not: no record is returned at all. */
  lemma DetailsFailureAbortsListing(reg: Registry, req: DescribeRequest, components: seq<Component>,
                                    configurationsOf: ComponentId -> seq<ServiceConfiguration>, i: int)
    requires req.requestType == DescribeComponentsType
    requires 0 <= i < |components| && components[i].localService.Some?
    requires components[i].localService.value.details.Failure?
    ensures ListComponents(reg, req, components, configurationsOf).Failure?
    ensures ListComponents(reg, req, components, configurationsOf).error.LookupFailed?
  {
  }

  // ---------------------------------------------------------------------------
  // Describe with every lookup failure recovered
  // ---------------------------------------------------------------------------

  /** The listed projection of a service with a failing details lookup
      recovered the way a failing state lookup is: the detail becomes
      "n/a: " and the message (still blanked unless verbose). */
  function RecoveredInfo(config: ServiceConfiguration, verbose: Option<bool>): (info: ComponentInfo)
    ensures ListedInfo(config, verbose).Success? ==> info == ListedInfo(config, verbose).value
    ensures config.details.Failure? ==>
      && info.componentType == config.componentId.name
      && info.partition == config.partition && info.name == config.name
      && info.hostName == config.hostName && info.fullName == config.fullName
      && info.state == StateText(config.state)
      && info.detail == if Verbose(verbose) then NotAvailablePrefix + config.details.error else ""
  {
    match ListedInfo(config, verbose)
    case Success(info) => info
    case Failure(_) =>
      ComponentInfo(config.componentId.name, config.partition, config.name, config.hostName, config.fullName,
                    StateText(config.state),
                    if Verbose(verbose) then NotAvailablePrefix + config.details.error else "")
  }

  /** The record for a component with every lookup failure recovered. */
  function RecoveredComponent(c: Component, verbose: Option<bool>): (info: ComponentInfo)
    ensures DescribeComponent(c, verbose).Success? ==> info == DescribeComponent(c, verbose).value
    ensures c.localService.Some? ==> info == RecoveredInfo(c.localService.value, verbose)
    ensures c.localService.None? ==> info == Placeholder(c, StateText(c.state))
  {
    match c.localService
    case Some(config) => RecoveredInfo(config, verbose)
    case None => Placeholder(c, StateText(c.state))
  }

  /** Describe with every lookup failure rendered as "n/a: " text: no
      listing fails because one instance's status cannot be read. */
  function ListComponentsRecovered(reg: Registry, req: DescribeRequest, components: seq<Component>,
                                   configurationsOf: ComponentId -> seq<ServiceConfiguration>): (r: Result<seq<ComponentInfo>, Error>)
    ensures ListComponents(reg, req, components, configurationsOf).Success? ==>
      r == ListComponents(reg, req, components, configurationsOf)
    ensures req.requestType == DescribeComponentsType ==>
      r.Success? && |r.value| == |components|
      && forall i :: 0 <= i < |components| ==> r.value[i] == RecoveredComponent(components[i], req.verbose)
    ensures req.requestType != DescribeComponentsType ==>
      (r.Failure? <==> req.requestType !in reg.builders)
    ensures req.requestType != DescribeComponentsType && req.requestType !in reg.builders ==>
      r == Failure(NoBuilderHandles(req.requestType))
    ensures req.requestType != DescribeComponentsType && req.requestType in reg.builders ==>
      var configs := configurationsOf(reg.builders[req.requestType].componentId);
      r.Success? && |r.value| == |configs|
      && forall i :: 0 <= i < |configs| ==> r.value[i] == RecoveredInfo(configs[i], req.verbose)
  {
    if req.requestType == DescribeComponentsType then
      var listed := seq(|components|, i requires 0 <= i < |components| => RecoveredComponent(components[i], req.verbose));
      assert ListComponents(reg, req, components, configurationsOf).Success? ==>
        ListComponents(reg, req, components, configurationsOf).value == listed by {
        var f := c => DescribeComponent(c, req.verbose);
        if ListComponents(reg, req, components, configurationsOf).Success? {
          assert forall i :: 0 <= i < |components| ==> f(components[i]).Success?;
        }
      }
      Success(listed)
    else
      match Handles(reg, req.requestType)
      case None => Failure(NoBuilderHandles(req.requestType))
      case Some(b) =>
        var configs := configurationsOf(b.componentId);
        var listed := seq(|configs|, i requires 0 <= i < |configs| => RecoveredInfo(configs[i], req.verbose));
        assert ListComponents(reg, req, components, configurationsOf).Success? ==>
          ListComponents(reg, req, components, configurationsOf).value == listed by {
          var f := config => ListedInfo(config, req.verbose);
          if ListComponents(reg, req, components, configurationsOf).Success? {
            assert forall i :: 0 <= i < |configs| ==> f(configs[i]).Success?;
          }
        }
        Success(listed)
  }
}
