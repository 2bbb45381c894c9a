# Component registry and configuration service

This project models two cooperating pieces of a cluster control plane's component registry:

- the **service-builder registry** (`ServiceBuilders`). It keeps two tables: request class → builder, and component identity → builder. An identity nobody registered gets a lazily cached dummy builder. A discovery hook fills both tables from candidate builder classes.
- the **configuration service** (`Configuration`). It handles register, deregister, modify-attribute and describe requests, and consults the registry for each of them.

The registry is a pair of immutable Dafny maps threaded through pure functions. Reflection is replaced by an explicit capability record per candidate class. This record says whether the class is a builder, whether it is abstract or an interface, which identity its instance reports, which identities it declares and which request types it handles. Java `null` is `Option.None`, and a thrown exception is `Result.Failure`.

External collaborators become parameters:

- the registration and deregistration handlers are functions that return a boolean or a failure message;
- the component catalog behind the fallback builder is `resolve`;
- the per-identity configuration list is `configurationsOf`;
- the component list is a sequence;
- a service's lifecycle state and its details, either of which may fail, are stored on the configuration as the outcome of their lookup.

Files:

- `wrappers.dfy`: `Option` and `Result`.
- `components.dfy`: identities, request types, builders, service configurations and components.
- `service_builders.dfy`: the registry, lookup, discovery and their properties.
- `configuration.dfy`: the four request handlers, the info projection and their properties.

The model follows the code on these points:

- registration checks only that name, host name and port are non-null. Empty strings and a zero port pass.
- a component without a local service is described with its own lifecycle state, not with an empty state.
- an unregistered request class is not reported as a dedicated not-found error. The code dereferences a null builder. The model reports this as `NoBuilderHandles`.
- modify does one side effect: it looks up the builder, and that lookup may cache a fallback builder.
- describe guards only the state lookup of a service. A failing details lookup, or a failing state read of a component without a local service, aborts the whole listing. The model reports this as `LookupFailed` with the message of the first failing record, in list order. See "## Findings".

## Model

| member | source | states |
|---|---|---|
| ServiceBuilders.AddTypeBuilder | clc/modules/msgs/src/main/java/com/eucalyptus/component/ServiceBuilders.java:116-119 | after registering b for a request type, that type is handled by b; every other type entry and the identity table are unchanged |
| ServiceBuilders.AddIdBuilder | clc/modules/msgs/src/main/java/com/eucalyptus/component/ServiceBuilders.java:121-124 | after registering b for an identity, that identity maps to b; every other identity entry and the type table are unchanged |
| ServiceBuilders.Handles | clc/modules/msgs/src/main/java/com/eucalyptus/component/ServiceBuilders.java:130-132 | a builder is returned exactly when one was registered for that exact type, and it is that builder; otherwise absent, with no fallback |
| ServiceBuilders.OneWhichHandles | clc/modules/msgs/src/main/java/com/eucalyptus/component/ServiceBuilders.java:162-164 | yields an identity exactly when the type was registered: the identity its builder reports; fails otherwise |
| ServiceBuilders.Lookup | clc/modules/msgs/src/main/java/com/eucalyptus/component/ServiceBuilders.java:134-140 | always returns the builder the table now holds for the identity; on a hit the table is unchanged; on a miss a dummy wrapping the catalog's identity is installed and returned; no other entry and no type entry changes |
| ServiceBuilders.BuilderFor | clc/modules/msgs/src/main/java/com/eucalyptus/component/ServiceBuilders.java:151-160 | mapping a configuration to its builder is a lookup of the configuration's identity: the registered builder, or the dummy for it |
| ServiceBuilders.AddIdBuilders | clc/modules/msgs/src/main/java/com/eucalyptus/component/ServiceBuilders.java:96-102 | every listed identity maps to the builder afterwards; identities not listed keep their entries; the type table is untouched |
| ServiceBuilders.AddTypeBuilders | clc/modules/msgs/src/main/java/com/eucalyptus/component/ServiceBuilders.java:103-107 | every listed request type is handled by the builder afterwards; types not listed keep their entries; the identity table is untouched |
| ServiceBuilders.ProcessClass | clc/modules/msgs/src/main/java/com/eucalyptus/component/ServiceBuilders.java:90-112 | returns true exactly for concrete builder classes; a rejected candidate leaves both tables unchanged; an accepted one maps its single instance under every declared identity and handled type and nothing else |
| ServiceBuilders.HandlesAfterAddTypeBuilder | clc/modules/msgs/src/main/java/com/eucalyptus/component/ServiceBuilders.java:116-132 | after registering b for t, handles(t) is b and every other type answers as before |
| ServiceBuilders.AddTypeBuilderLastWriteWins | clc/modules/msgs/src/main/java/com/eucalyptus/component/ServiceBuilders.java:116-119 | two registrations for the same type equal the last one alone |
| ServiceBuilders.LookupAfterAddIdBuilder | clc/modules/msgs/src/main/java/com/eucalyptus/component/ServiceBuilders.java:121-140 | after registering b for an identity, lookup returns b and installs nothing |
| ServiceBuilders.LookupIdempotent | clc/modules/msgs/src/main/java/com/eucalyptus/component/ServiceBuilders.java:134-140 | a second lookup of the same identity returns the same builder and leaves the table as the first lookup left it |
| ServiceBuilders.LookupKeepsEntries | clc/modules/msgs/src/main/java/com/eucalyptus/component/ServiceBuilders.java:135-139 | a lookup never replaces or removes an existing identity entry |
| ServiceBuilders.UnregisteredTypeHasNoBuilder | clc/modules/msgs/src/main/java/com/eucalyptus/component/ServiceBuilders.java:162-164 | a never-registered request type has no builder and no identity |
| ServiceBuilders.ProcessClassSharesInstance | clc/modules/msgs/src/main/java/com/eucalyptus/component/ServiceBuilders.java:95-107 | the builder under any declared identity is the very builder under any handled type |
| ServiceBuilders.ProcessClassWithoutDeclarations | clc/modules/msgs/src/main/java/com/eucalyptus/component/ServiceBuilders.java:91-108 | a concrete builder declaring nothing is still accepted and changes nothing |
| ServiceBuilders.DiscoveredBuilderIsFound | clc/modules/msgs/src/main/java/com/eucalyptus/component/ServiceBuilders.java:95-107 | after discovery, lookup of a declared identity returns the instance without installing a fallback, and a handled type resolves to the instance's identity |
| Configuration.Message | clc/modules/configuration/src/main/java/com/eucalyptus/config/Configuration.java:146-176 | a wrapped failure's message is the fixed prefix followed by exactly the cause, so the cause is recoverable from it |
| Configuration.ResolvePartition | clc/modules/configuration/src/main/java/com/eucalyptus/config/Configuration.java:137-145 | unpartitioned: the fixed partition; partitioned: always present, the requested partition if any, else the name |
| Configuration.PlanRegistration | clc/modules/configuration/src/main/java/com/eucalyptus/config/Configuration.java:127-145 | an unhandled class fails first; then a null name, host or port fails with that field, in that order; otherwise the handler gets the handling identity, the request's fields and the resolved partition |
| Configuration.Register | clc/modules/configuration/src/main/java/com/eucalyptus/config/Configuration.java:127-152 | succeeds exactly when the plan succeeds and the handler does, with the handler's boolean; fails as a registration failure exactly when the handler fails, carrying its message |
| Configuration.RegisterNullFieldSkipsHandler | clc/modules/configuration/src/main/java/com/eucalyptus/config/Configuration.java:133-147 | with a null name, host or port, the outcome is a failure that is the same for every handler, so the handler is never consulted |
| Configuration.RegisterResolvesIdentityFirst | clc/modules/configuration/src/main/java/com/eucalyptus/config/Configuration.java:128-135 | an unhandled request class fails as such whatever fields are null |
| Configuration.RegisterUnpartitionedUsesFixedPartition | clc/modules/configuration/src/main/java/com/eucalyptus/config/Configuration.java:137-141 | for an unpartitioned identity the handler call is the same whatever partition was requested, and carries the fixed partition |
| Configuration.RegisterPartitionedPartition | clc/modules/configuration/src/main/java/com/eucalyptus/config/Configuration.java:142-145 | for a partitioned identity a requested partition passes unchanged and a missing one becomes the name |
| Configuration.ResolvePartitionIdempotent | clc/modules/configuration/src/main/java/com/eucalyptus/config/Configuration.java:137-145 | re-resolving an already resolved partition gives the same partition |
| Configuration.Deregister | clc/modules/configuration/src/main/java/com/eucalyptus/config/Configuration.java:154-163 | the handler gets the handling identity and the request partition as given; its boolean is the reply; its failure becomes a deregistration failure carrying its message; an unhandled class fails |
| Configuration.Modify | clc/modules/configuration/src/main/java/com/eucalyptus/config/Configuration.java:171-183 | an unrecognized or null attribute fails before any lookup; an accepted one fails only if no builder handles the class, and otherwise yields the registry as the builder lookup leaves it |
| Configuration.ModifyRejectsBeforeLookup | clc/modules/configuration/src/main/java/com/eucalyptus/config/Configuration.java:175-177 | an unknown attribute is refused identically whatever the registry holds |
| Configuration.ModifyChangesNothing | clc/modules/configuration/src/main/java/com/eucalyptus/config/Configuration.java:178-182 | an accepted modify leaves the type table and every existing identity entry unchanged, adds at most the handling identity's fallback, and repeating it changes nothing |
| Configuration.StateText | clc/modules/configuration/src/main/java/com/eucalyptus/config/Configuration.java:112-116 | a state lookup's value is used as is; a failed lookup becomes "n/a: " followed by exactly its message |
| Configuration.ToInfo | clc/modules/configuration/src/main/java/com/eucalyptus/config/Configuration.java:103-122 | fails exactly when the details lookup fails, carrying its message; otherwise type is the identity name, partition, name, host and full name are copied, state is the state text, and detail is empty without details and the first detail otherwise |
| Configuration.ListedInfo | clc/modules/configuration/src/main/java/com/eucalyptus/config/Configuration.java:204-207 | fails exactly when the projection fails; otherwise equals the projection in every field but detail, equals it entirely when verbose is exactly true, and has an empty detail otherwise |
| Configuration.DescribeComponent | clc/modules/configuration/src/main/java/com/eucalyptus/config/Configuration.java:189-209 | a local service gives its listed projection; otherwise the component's state read decides: on success a record with empty name, host, full name and detail, the identity's partition and that state; on failure a lookup failure with its message |
| Configuration.ProjectAll | clc/modules/configuration/src/main/java/com/eucalyptus/config/Configuration.java:189-219 | when every record's projection succeeds, one record per element in list order; otherwise the failure of the first element whose projection fails |
| Configuration.ListComponents | clc/modules/configuration/src/main/java/com/eucalyptus/config/Configuration.java:185-222 | a plain request lists every component in order, failing at the first component whose lookup fails; any other class lists the configurations of its handling identity the same way, or fails when no builder handles it |
| Configuration.NonVerboseListsNoDetail | clc/modules/configuration/src/main/java/com/eucalyptus/config/Configuration.java:205-217 | unless verbose is exactly true (null counts as false), every listed record has an empty detail |
| Configuration.VerboseListsFirstDetail | clc/modules/configuration/src/main/java/com/eucalyptus/config/Configuration.java:203-208 | when a verbose plain listing succeeds, every local service's details lookup succeeded and the service is listed as its full projection, so its first detail is shown |
| ServiceBuilders.DiscoveryFromEmptyRegistry | clc/modules/msgs/src/main/java/com/eucalyptus/component/ServiceBuilders.java:91-108 | discovery of one candidate on empty tables registers exactly its declared identities and handled types |
| Configuration.DeregisterPassesPartitionUnresolved | clc/modules/configuration/src/main/java/com/eucalyptus/config/Configuration.java:137-158 | for an unpartitioned identity the deregistration handler receives the requested partition while the registration handler receives the fixed one |
| Configuration.DetailsFailureAbortsListing | clc/modules/configuration/src/main/java/com/eucalyptus/config/Configuration.java:117-119 | as written, one local service whose details lookup fails makes the whole plain listing fail with a lookup failure, verbose or not |
| Configuration.RecoveredInfo | clc/modules/configuration/src/main/java/com/eucalyptus/config/Configuration.java:112-119 | agrees with the listed projection whenever that succeeds; a failing details lookup gives detail "n/a: " and the message when verbose, "" otherwise, with the other fields as projected |
| Configuration.RecoveredComponent | clc/modules/configuration/src/main/java/com/eucalyptus/config/Configuration.java:189-209 | agrees with the as-written record whenever that succeeds; failures of the details or state lookup are rendered as "n/a: " text |
| Configuration.ListComponentsRecovered | clc/modules/configuration/src/main/java/com/eucalyptus/config/Configuration.java:185-222 | equals the as-written listing whenever that succeeds; a plain request never fails and lists one recovered record per component; another class fails exactly when no builder handles it, and otherwise lists one recovered record per configuration of its handling identity, in order |

## Left out

- Reflection is not modelled: instantiating candidates and identity classes, reading annotations, and `lookup(Class)`. Candidates are capability records. A failure to instantiate a candidate is not modelled.
- Concurrency of the two concurrent maps is not modelled, including the check-then-put race in the identity lookup. The tables are threaded sequentially.
- The discovery priority and the scanning loop that offers each class to `processClass` are not modelled. Only the per-class hook is.
- Logging is not modelled: the trace of each registration, and the error logged on every partition substitution.
- `entrySet` is not modelled. It only exposes the type table, which is the `builders` field here.
- `listComponents(DescribeNodesType)` is not modelled. It only runs an external script.
- ServiceBuilders.Lookup: the component catalog lookup is the total function `resolve`. Its failure on an unknown identity is not modelled, because the catalog is not part of this model.
- The text of the null-argument failures is not modelled. The request's string form is not part of this model, so those failures carry only the null field.
- Configuration.PlanRegistration: the port is an unbounded integer. The Java value is a 32-bit `Integer`, but the model only passes it through.
- The internals of the registration handler, the component list, the service-configuration list and full names are not modelled. They are parameters or stored values. The state and details lookups are stored as their outcome: a value or a failure message.
- A null entry among a service's details is not modelled. Its text is dereferenced in the source, so the listing would abort, but the details are plain strings here.
- The model treats a service's lifecycle state and details as one snapshot. The source reads the details twice.
- UserMetadata.java is a persistence entity whose logic depends on classes that are not part of this model.
- ReportingVolumeUsageEvent.java is a persistence bean with only null checks.

## Findings

| source | as written | input that shows it | evidently intended | confidence | as-written member | corrected member |
|---|---|---|---|---|---|---|
| clc/modules/configuration/src/main/java/com/eucalyptus/config/Configuration.java:112-119 | only the state lookup is inside the try; the details lookup is not, so its exception escapes the projection and aborts the whole describe | a plain describe request where one component has a local service whose details lookup throws | a failing details lookup is rendered as "n/a: " text like a failing state, and describe still lists every component | medium, not executed | Configuration.DetailsFailureAbortsListing | Configuration.ListComponentsRecovered |
