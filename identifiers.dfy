/**
 * Identifier derivation for a network endpoint: the CNI attachment ID, the
 * short container ID, the CiliumEndpoint (CEP) name, the namespaced pod and
 * CEP names, and the sparse map from identifier prefix to identifier that
 * other subsystems use to find the same endpoint again.
 */
module EndpointIdentifiers {
  import opened EndpointId

  datatype Option<T> = None | Some(value: T)

  /** The one failure of this component: the liveness gate refused. */
  datatype Error = EndpointNotAlive

  datatype Result<T> = Ok(value: T) | Err(error: Error)

  /** Length to which the short container ID caps the container ID. */
  const ShortIDLength: nat := 10

  function Min(a: nat, b: nat): nat { if a <= b then a else b }

  /**
   * The fields of an endpoint that identifier derivation reads or writes.
   * Fields that are constant after creation are `const`; the addresses, the
   * liveness flag and the CiliumEndpoint UID may change after creation.
   */
  class Endpoint {
    const containerID: string
    const containerIfName: string
    const containerName: string
    const dockerEndpointID: string
    const k8sNamespace: string
    const k8sPodName: string
    const disableLegacyIdentifiers: bool
    /** The endpoint's numeric identifier in text form, computed elsewhere. */
    const stringID: string
    /** An address is `Some` exactly when it is valid; the payload is its text form. */
    var ipv4: Option<string>
    var ipv6: Option<string>
    /** False once the endpoint is being torn down or not yet ready. */
    var alive: bool
    /** Correlation token of the paired CiliumEndpoint resource. */
    var ciliumEndpointUID: string

    constructor (containerID: string, containerIfName: string, containerName: string,
                 dockerEndpointID: string, k8sNamespace: string, k8sPodName: string,
                 disableLegacyIdentifiers: bool, stringID: string,
                 ipv4: Option<string>, ipv6: Option<string>, alive: bool, ciliumEndpointUID: string)
      ensures this.containerID == containerID && this.containerIfName == containerIfName
      ensures this.containerName == containerName && this.dockerEndpointID == dockerEndpointID
      ensures this.k8sNamespace == k8sNamespace && this.k8sPodName == k8sPodName
      ensures this.disableLegacyIdentifiers == disableLegacyIdentifiers && this.stringID == stringID
      ensures this.ipv4 == ipv4 && this.ipv6 == ipv6
      ensures this.alive == alive && this.ciliumEndpointUID == ciliumEndpointUID
    {
      this.containerID := containerID;
      this.containerIfName := containerIfName;
      this.containerName := containerName;
      this.dockerEndpointID := dockerEndpointID;
      this.k8sNamespace := k8sNamespace;
      this.k8sPodName := k8sPodName;
      this.disableLegacyIdentifiers := disableLegacyIdentifiers;
      this.stringID := stringID;
      this.ipv4 := ipv4;
      this.ipv6 := ipv6;
      this.alive := alive;
      this.ciliumEndpointUID := ciliumEndpointUID;
    }

    // ---------------------------------------------------------------------
    // Pure derivations

    /** The CNI attachment ID: the container ID, qualified by the interface name when there is one. */
    function CNIAttachmentID(): (r: string)
      ensures containerID <= r
      ensures containerIfName == "" ==> r == containerID
      ensures containerIfName != "" ==>
                |r| == |containerID| + 1 + |containerIfName| &&
                r[|containerID|] == ':' && r[|containerID| + 1..] == containerIfName
      ensures r == "" <==> containerID == "" && containerIfName == ""
    {
      if containerIfName != "" then containerID + ":" + containerIfName else containerID
    }

    /** Whether the CEP name carries the interface name: only with legacy identifiers disabled. */
    predicate UsesInterfaceSuffix() {
      disableLegacyIdentifiers && k8sPodName != "" && containerIfName != ""
    }

    /** The name of the endpoint's CiliumEndpoint resource, without the namespace. */
    function K8sCEPName(): (r: string)
      ensures r == k8sPodName + "-" + containerIfName <==> UsesInterfaceSuffix()
      ensures !UsesInterfaceSuffix() ==> r == k8sPodName
      ensures k8sPodName <= r
      ensures r == "" <==> k8sPodName == ""
    {
      if UsesInterfaceSuffix() then k8sPodName + "-" + containerIfName else k8sPodName
    }

    /** The pod name qualified by its namespace. */
    function K8sNamespaceAndPodName(): (r: string)
      ensures |r| == |k8sNamespace| + 1 + |k8sPodName|
      ensures r[..|k8sNamespace|] == k8sNamespace && r[|k8sNamespace|] == '/'
      ensures r[|k8sNamespace| + 1..] == k8sPodName
    {
      k8sNamespace + "/" + k8sPodName
    }

    /** The CEP name qualified by its namespace. */
    function K8sNamespaceAndCEPName(): (r: string)
      ensures |r| == |k8sNamespace| + 1 + |K8sCEPName()|
      ensures r[..|k8sNamespace|] == k8sNamespace && r[|k8sNamespace|] == '/'
      ensures r[|k8sNamespace| + 1..] == K8sCEPName()
    {
      k8sNamespace + "/" + K8sCEPName()
    }

    /**
     * The most readable identifier, for logs, as written: the fallback to the
     * numeric ID is guarded by an emptiness test that the namespaced CEP name,
     * which always holds '/', never passes.
     */
    function HumanString(): (r: string)
      ensures r == K8sNamespaceAndCEPName()
      ensures '/' in r
    {
      var cep := K8sNamespaceAndCEPName();
      if cep != "" then cep else stringID
    }

    /**
     * The most readable identifier as evidently intended: the namespaced CEP
     * name for an endpoint that belongs to a pod, the numeric ID otherwise.
     */
    function HumanStringIntended(): (r: string)
      ensures k8sPodName == "" ==> r == stringID
      ensures k8sPodName != "" ==> r == HumanString() && r[|k8sNamespace| + 1..] == K8sCEPName()
    {
      if K8sCEPName() != "" then K8sNamespaceAndCEPName() else stringID
    }

    // ---------------------------------------------------------------------
    // The identifier map, one rule per prefix

    /** Whether the identifier under prefix `p` applies to this endpoint. */
    predicate Includes(p: Prefix)
      reads this
    {
      match p
      case CNIAttachmentId => CNIAttachmentID() != ""
      case ContainerId => !disableLegacyIdentifiers && containerID != ""
      case DockerEndpoint => dockerEndpointID != ""
      case IPv4 => ipv4.Some?
      case IPv6 => ipv6.Some?
      case ContainerName => !disableLegacyIdentifiers && containerName != ""
      case PodName => !disableLegacyIdentifiers && K8sNamespaceAndPodName() != ""
      case CEPName => K8sNamespaceAndCEPName() != ""
    }

    /** The identifier under prefix `p`, meaningful where `Includes(p)` holds. */
    function Derived(p: Prefix): string
      reads this
    {
      match p
      case CNIAttachmentId => CNIAttachmentID()
      case ContainerId => containerID
      case DockerEndpoint => dockerEndpointID
      case IPv4 => if ipv4.Some? then ipv4.value else ""
      case IPv6 => if ipv6.Some? then ipv6.value else ""
      case ContainerName => containerName
      case PodName => K8sNamespaceAndPodName()
      case CEPName => K8sNamespaceAndCEPName()
    }

    /** The identifiers under the prefixes in `ps` whose rule holds. */
    function IdentifiersAmong(ps: set<Prefix>): map<Prefix, string>
      reads this
    {
      map p | p in ps && Includes(p) :: Derived(p)
    }

    /** The identifiers of this endpoint: the derived value under every prefix whose rule holds. */
    function IdentifierMap(): map<Prefix, string>
      reads this
    {
      IdentifiersAmong(AllPrefixes)
    }

    /** Taking one more prefix into account inserts its identifier exactly when its rule holds. */
    lemma AmongOneMore(ps: set<Prefix>, p: Prefix)
      ensures IdentifiersAmong(ps + {p}) ==
              if Includes(p) then IdentifiersAmong(ps)[p := Derived(p)] else IdentifiersAmong(ps)
    {
    }

    // ---------------------------------------------------------------------
    // Accessors

    /** Builds the identifier map by eight conditional inserts, in the fixed order. */
    method IdentifiersLocked() returns (refs: map<Prefix, string>)
      ensures refs == IdentifierMap()
    {
      refs := map[];
      assert refs == IdentifiersAmong({});
      var cniID := CNIAttachmentID();
      if cniID != "" {
        refs := refs[CNIAttachmentId := cniID];
      }
      AmongOneMore({}, CNIAttachmentId);
      ghost var done := {CNIAttachmentId};
      assert refs == IdentifiersAmong(done);

      if !disableLegacyIdentifiers && containerID != "" {
        refs := refs[ContainerId := containerID];
      }
      AmongOneMore(done, ContainerId);
      done := done + {ContainerId};

      if dockerEndpointID != "" {
        refs := refs[DockerEndpoint := dockerEndpointID];
      }
      AmongOneMore(done, DockerEndpoint);
      done := done + {DockerEndpoint};

      if ipv4.Some? {
        refs := refs[IPv4 := ipv4.value];
      }
      AmongOneMore(done, IPv4);
      done := done + {IPv4};

      if ipv6.Some? {
        refs := refs[IPv6 := ipv6.value];
      }
      AmongOneMore(done, IPv6);
      done := done + {IPv6};

      if !disableLegacyIdentifiers && containerName != "" {
        refs := refs[ContainerName := containerName];
      }
      AmongOneMore(done, ContainerName);
      done := done + {ContainerName};

      var podName := K8sNamespaceAndPodName();
      if !disableLegacyIdentifiers && podName != "" {
        refs := refs[PodName := podName];
      }
      AmongOneMore(done, PodName);
      done := done + {PodName};

      var cepName := K8sNamespaceAndCEPName();
      if cepName != "" {
        refs := refs[CEPName := cepName];
      }
      AmongOneMore(done, CEPName);
      done := done + {CEPName};
      assert done == AllPrefixes;
    }

    /** The identifier map behind the liveness gate: fails fast on an endpoint that is not alive. */
    method Identifiers() returns (r: Result<map<Prefix, string>>)
      ensures !alive ==> r == Err(EndpointNotAlive)
      ensures alive ==> r == Ok(IdentifierMap())
    {
      if !alive {
        return Err(EndpointNotAlive);
      }
      var refs := IdentifiersLocked();
      return Ok(refs);
    }

    method GetContainerName() returns (name: string)
      ensures name == containerName
    {
      name := containerName;
    }

    method GetK8sPodName() returns (name: string)
      ensures name == k8sPodName
    {
      name := k8sPodName;
    }

    method GetContainerID() returns (id: string)
      ensures id == containerID
    {
      id := containerID;
    }

    method GetDockerEndpointID() returns (id: string)
      ensures id == dockerEndpointID
    {
      id := dockerEndpointID;
    }

    method GetCNIAttachmentID() returns (id: string)
      ensures id == CNIAttachmentID()
    {
      id := CNIAttachmentID();
    }

    method GetShortContainerID() returns (id: string)
      ensures id == ShortContainerID(this)
      ensures id <= containerID && |id| <= ShortIDLength
    {
      id := ShortContainerID(this);
    }

    method GetCiliumEndpointUID() returns (uid: string)
      ensures uid == ciliumEndpointUID
    {
      uid := ciliumEndpointUID;
    }

    /** Replaces the CiliumEndpoint UID; nothing else changes, the identifiers included. */
    method SetCiliumEndpointUID(uid: string)
      modifies this`ciliumEndpointUID
      ensures ciliumEndpointUID == uid
      ensures ipv4 == old(ipv4) && ipv6 == old(ipv6) && alive == old(alive)
      ensures IdentifierMap() == old(IdentifierMap())
    {
      ciliumEndpointUID := uid;
    }
  }

  /**
   * The container ID capped to its first ShortIDLength characters; the empty
   * string for an absent endpoint.
   */
  function ShortContainerID(e: Endpoint?): (r: string)
    ensures e == null ==> r == ""
    ensures e != null ==> r <= e.containerID && |r| == Min(|e.containerID|, ShortIDLength)
  {
    if e == null then ""
    else if |e.containerID| <= ShortIDLength then e.containerID
    else e.containerID[..ShortIDLength]
  }

  /** Setting the UID and reading it back yields the value set, and changes no other field. */
  method UIDRoundTrip(e: Endpoint, uid: string) returns (got: string)
    modifies e`ciliumEndpointUID
    ensures got == uid
    ensures e.ipv4 == old(e.ipv4) && e.ipv6 == old(e.ipv6) && e.alive == old(e.alive)
    ensures e.IdentifierMap() == old(e.IdentifierMap())
  {
    e.SetCiliumEndpointUID(uid);
    got := e.GetCiliumEndpointUID();
  }
}
