# Endpoint identifiers

A Dafny model of how a Cilium endpoint derives the identifiers that other
subsystems use to find it: the CNI attachment ID, the short container ID, the
CiliumEndpoint (CEP) name with its legacy and non-legacy forms, the namespaced
pod and CEP names, and the sparse map from the eight identifier prefixes to
identifier strings. The map is also available behind a liveness gate, and the
CiliumEndpoint UID has a getter and a setter.

Layout:

- `id.dfy`, module `EndpointId`: the closed set of eight identifier prefixes.
- `identifiers.dfy`, module `EndpointIdentifiers`: class `Endpoint` with the
  fields the derivation reads. Fields that stay constant after creation are
  `const`. The addresses, the liveness flag and the UID are `var`. The pure
  derivations are functions. `IdentifierMap` is the rule table: one inclusion
  rule and one value per prefix. `IdentifiersLocked` builds the map by eight
  conditional inserts and is proved equal to `IdentifierMap`. `Identifiers`,
  the getters and `SetCiliumEndpointUID` are methods.
- `identifiers_properties.dfy`, module `IdentifierProperties`: lemmas about the
  map and the names.

Modelling choices:

- A valid IPv4 or IPv6 address is `Some(text)` and an invalid one is `None`.
  Parsing, validity and formatting belong to the address library.
- The endpoint's numeric ID in text form is the constant field `stringID`.
- The endpoint's liveness is the flag `alive`. The liveness-gated read lock
  becomes a test of that flag, which fails with `EndpointNotAlive`.
- A nil endpoint, for which the short container ID is empty, is the `null`
  of `Endpoint?`.
- Strings are sequences of characters. The source measures and slices
  container IDs in bytes. The two agree for the ASCII container IDs that
  runtimes issue.
- The injectivity lemmas assume that Kubernetes namespace names contain no
  '/' and that container IDs contain no ':'. Both hold for real names and IDs.

## Model

| member | source | states |
|---|---|---|
| `EndpointIdentifiers.Endpoint.CNIAttachmentID` | pkg/endpoint/identifiers.go:65-71 | the result starts with the container ID; it is the container ID alone when there is no interface name, and otherwise is followed by ':' and the interface name; it is empty iff both are empty |
| `EndpointIdentifiers.Endpoint.GetCNIAttachmentID` | pkg/endpoint/identifiers.go:73-78 | returns the CNI attachment ID (the lock is not modelled) |
| `EndpointIdentifiers.ShortContainerID` | pkg/endpoint/identifiers.go:95-109 | empty for a nil endpoint; otherwise a prefix of the container ID whose length is the smaller of its length and 10, so equal to the ID when it has at most 10 characters and its first 10 otherwise |
| `EndpointIdentifiers.Endpoint.GetShortContainerID` | pkg/endpoint/identifiers.go:88-93 | returns the short container ID, a prefix of the container ID of at most 10 characters |
| `EndpointIdentifiers.Endpoint.K8sCEPName` | pkg/endpoint/identifiers.go:44-56 | the CEP name is pod name + "-" + interface name iff legacy identifiers are disabled and both names are non-empty, and the pod name in every other case; it always starts with the pod name and is empty iff the pod name is |
| `EndpointIdentifiers.Endpoint.K8sNamespaceAndPodName` | pkg/endpoint/identifiers.go:37-42 | the namespace, then '/' at the namespace's length, then the pod name, so never empty |
| `EndpointIdentifiers.Endpoint.K8sNamespaceAndCEPName` | pkg/endpoint/identifiers.go:58-63 | the namespace, then '/' at the namespace's length, then the CEP name, so never empty |
| `EndpointIdentifiers.Endpoint.HumanString` | pkg/endpoint/identifiers.go:28-35 | always the namespaced CEP name, which contains '/'; the numeric-ID fallback is never taken |
| `EndpointIdentifiers.Endpoint.HumanStringIntended` | pkg/endpoint/identifiers.go:28-35 | the numeric ID for an endpoint without a pod; for a pod endpoint the same string as `HumanString`, ending in the CEP name |
| `EndpointIdentifiers.Endpoint.IdentifiersLocked` | pkg/endpoint/identifiers.go:116-153 | the map built by the eight conditional inserts equals the rule table `IdentifierMap`: each prefix is present iff its rule holds and maps to its derived value |
| `EndpointIdentifiers.Endpoint.Identifiers` | pkg/endpoint/identifiers.go:155-163 | fails with EndpointNotAlive and returns no map when the endpoint is not alive; otherwise returns exactly the map `IdentifiersLocked` builds |
| `EndpointIdentifiers.Endpoint.GetContainerName` | pkg/endpoint/identifiers.go:12-17 | returns the container name (the lock is not modelled) |
| `EndpointIdentifiers.Endpoint.GetK8sPodName` | pkg/endpoint/identifiers.go:19-26 | returns the pod name, a constant field |
| `EndpointIdentifiers.Endpoint.GetContainerID` | pkg/endpoint/identifiers.go:80-86 | returns the container ID (the lock is not modelled) |
| `EndpointIdentifiers.Endpoint.GetDockerEndpointID` | pkg/endpoint/identifiers.go:111-114 | returns the Docker endpoint ID, a constant field |
| `EndpointIdentifiers.Endpoint.GetCiliumEndpointUID` | pkg/endpoint/identifiers.go:165-170 | returns the current CiliumEndpoint UID |
| `EndpointIdentifiers.Endpoint.SetCiliumEndpointUID` | pkg/endpoint/identifiers.go:172-177 | the UID becomes the given value; the addresses, the liveness flag and the identifier map are unchanged, and the frame lets nothing else change |
| `EndpointIdentifiers.UIDRoundTrip` | pkg/endpoint/identifiers.go:165-177 | setting the UID and then reading it returns the value set; the frame admits only the UID field, and the addresses, the liveness flag and the identifier map are stated unchanged |
| `EndpointId.AllPrefixesCount` | pkg/endpoint/identifiers.go:118-119 | the prefix set is closed: every prefix is in it, it has exactly 8 members, and 5 of them are not legacy prefixes; this, not the size hint passed when the map is created, is what bounds the map |
| `IdentifierProperties.IdentifierRules` | pkg/endpoint/identifiers.go:118-152 | each rule in terms of the fields: CNIAttachmentId iff the container ID or interface name is non-empty; ContainerId and ContainerName iff legacy is enabled and the field is non-empty; DockerEndpoint iff non-empty; IPv4 and IPv6 iff valid; PodName iff legacy is enabled; CEPName always; and each present key's value |
| `IdentifierProperties.LegacyDisabledSuppresses` | pkg/endpoint/identifiers.go:124-146 | with legacy identifiers disabled, the ContainerId, ContainerName and PodName keys never appear, whatever those fields hold |
| `IdentifierProperties.IdentifierCount` | pkg/endpoint/identifiers.go:118-152 | the map has between 1 and 8 entries, because its keys come from the closed set of 8 prefixes and CEPName is always present; with legacy identifiers disabled it has at most 5, the non-legacy prefixes |
| `IdentifierProperties.CNIAttachmentIdUngated` | pkg/endpoint/identifiers.go:120-130 | with legacy identifiers disabled and a non-empty container ID, ContainerId is absent but CNIAttachmentId is present and starts with the raw container ID |
| `IdentifierProperties.DisablingLegacyIdentifiers` | pkg/endpoint/identifiers.go:47-56 | for two endpoints that differ only in the legacy flag, disabling removes exactly the legacy keys; every other surviving value is unchanged except the CEP name, which changes iff both the pod and the interface have a name |
| `IdentifierProperties.SeparatorSplits` | pkg/endpoint/identifiers.go:39-42 | joining two strings with a separator absent from the first is injective |
| `IdentifierProperties.PodNameIdentifiesPod` | pkg/endpoint/identifiers.go:39-42 | two endpoints have the same namespaced pod name only if they have the same namespace and the same pod name |
| `IdentifierProperties.CEPNameIdentifiesCEP` | pkg/endpoint/identifiers.go:60-63 | two endpoints have the same namespaced CEP name only if they have the same namespace and the same CEP name |
| `IdentifierProperties.CNIAttachmentIDInjective` | pkg/endpoint/identifiers.go:66-71 | two endpoints have the same CNI attachment ID only if they have the same container ID and the same interface name |
| `IdentifierProperties.ShortContainerIDAgreement` | pkg/endpoint/identifiers.go:95-109 | for container IDs of at least 10 characters, the short IDs are equal iff the first 10 characters are |
| `IdentifierProperties.HumanStringOfNonPodEndpoint` | pkg/endpoint/identifiers.go:28-35 | an endpoint with no namespace and no pod is logged as "/", not by its numeric ID; the corrected form returns the numeric ID |

## Left out

- Locking: the shared and exclusive lock primitives and the internals of the liveness-gated lock. No method models lock acquisition or release. The liveness gate is only a test of `alive`.
- Concurrency: deadlock and re-entrancy between the locked and unlocked variants, and mutual exclusion between the UID setter and readers. The model is sequential.
- `Identifiers`: the model does not state that the liveness test happens before any field is read. Methods cannot state what they read.
- Address validity and the textual form of IPv4 and IPv6 addresses belong to the address library. They are abstracted as `Option<string>`.
- `StringID()` and the string constants of the identifier prefixes are defined outside this file. The prefixes are an enumeration.
- The UID type is an opaque string.
- How and when the endpoint's fields are filled in is not part of this model. The constructor takes all of them.
- Byte-level length and slicing of the container ID are modelled on characters. They differ only for non-ASCII IDs.

## Findings

| source | as written | input that shows it | evidently intended | confidence | as-written member | corrected member |
|---|---|---|---|---|---|---|
| pkg/endpoint/identifiers.go:29-34 | `HumanString` falls back to the numeric ID only when the namespaced CEP name is empty, but that name always contains '/' | an endpoint with no namespace and no pod name is logged as "/" | endpoints that do not belong to a pod are logged by their numeric ID | medium; not executed | `IdentifierProperties.HumanStringOfNonPodEndpoint` | `EndpointIdentifiers.Endpoint.HumanStringIntended` |
