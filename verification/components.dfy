/** The entities the component registry and the configuration service work on. */
module Components {
  import opened Wrappers

  /** The static description of one pluggable cluster role. `partition` is the
      fixed partition of an unpartitioned role (it may be absent). */
  datatype ComponentId = ComponentId(name: string, partitioned: bool, partition: Option<string>)

  /** A request message class, identified by its class name. Tables are keyed
      by exact class: there is no inheritance-based matching. */
  datatype RequestType = RequestType(className: string)

  /** A service builder. A discovered builder is the singleton instance of a
      builder class (named by `implementation`); a dummy builder is the
      fallback that only reports the identity it wraps. Both report the
      identity they build for as `componentId`. */
  datatype ServiceBuilder =
    | Discovered(implementation: string, componentId: ComponentId)
    | Dummy(componentId: ComponentId)

  /** A registered service instance, as seen by the describe operation.
      `state` is the answer of the lifecycle state lookup and `details` the
      answer of the details lookup (the details in iteration order); either
      lookup may fail with a message. */
  datatype ServiceConfiguration = ServiceConfiguration(
    componentId: ComponentId,
    partition: Option<string>,
    name: Option<string>,
    hostName: Option<string>,
    fullName: string,
    state: Result<string, string>,
    details: Result<seq<string>, string>)

  /** A component of the running system: its identity, its own lifecycle
      state rendered as text (reading it may fail with a message), and its
      local service if it has one. */
  datatype Component = Component(
    componentId: ComponentId,
    state: Result<string, string>,
    localService: Option<ServiceConfiguration>)
}
