/**
 * Properties of the identifier map and of the names it is built from: which
 * keys are present, how the legacy flag shapes the map, and when two
 * endpoints can share an identifier.
 */
module IdentifierProperties {
  import opened EndpointId
  import opened EndpointIdentifiers

  /** Each prefix's rule, evaluated down to the endpoint's fields, and the value it maps to. */
  lemma IdentifierRules(e: Endpoint)
    ensures CNIAttachmentId in e.IdentifierMap() <==> e.containerID != "" || e.containerIfName != ""
    ensures ContainerId in e.IdentifierMap() <==> !e.disableLegacyIdentifiers && e.containerID != ""
    ensures DockerEndpoint in e.IdentifierMap() <==> e.dockerEndpointID != ""
    ensures IPv4 in e.IdentifierMap() <==> e.ipv4.Some?
    ensures IPv6 in e.IdentifierMap() <==> e.ipv6.Some?
    ensures ContainerName in e.IdentifierMap() <==> !e.disableLegacyIdentifiers && e.containerName != ""
    ensures PodName in e.IdentifierMap() <==> !e.disableLegacyIdentifiers
    ensures CEPName in e.IdentifierMap()
    ensures CNIAttachmentId in e.IdentifierMap() ==> e.IdentifierMap()[CNIAttachmentId] == e.CNIAttachmentID()
    ensures ContainerId in e.IdentifierMap() ==> e.IdentifierMap()[ContainerId] == e.containerID
    ensures DockerEndpoint in e.IdentifierMap() ==> e.IdentifierMap()[DockerEndpoint] == e.dockerEndpointID
    ensures IPv4 in e.IdentifierMap() ==> e.IdentifierMap()[IPv4] == e.ipv4.value
    ensures IPv6 in e.IdentifierMap() ==> e.IdentifierMap()[IPv6] == e.ipv6.value
    ensures ContainerName in e.IdentifierMap() ==> e.IdentifierMap()[ContainerName] == e.containerName
    ensures PodName in e.IdentifierMap() ==> e.IdentifierMap()[PodName] == e.K8sNamespaceAndPodName()
    ensures e.IdentifierMap()[CEPName] == e.K8sNamespaceAndCEPName()
  {
  }

  /** With legacy identifiers disabled, no legacy prefix appears, whatever the fields hold. */
  lemma LegacyDisabledSuppresses(e: Endpoint)
    requires e.disableLegacyIdentifiers
    ensures e.IdentifierMap().Keys !! LegacyPrefixes
    ensures e.IdentifierMap().Keys <= AllPrefixes - LegacyPrefixes
  {
  }

  /**
   * The map holds at least the CEP name, and its keys come from the closed
   * set of eight prefixes, so it has at most eight entries; with legacy
   * identifiers disabled its keys come from the five non-legacy prefixes.
   */
  lemma IdentifierCount(e: Endpoint)
    ensures 1 <= |e.IdentifierMap()| <= 8
    ensures e.disableLegacyIdentifiers ==> |e.IdentifierMap()| <= 5
  {
    var keys := e.IdentifierMap().Keys;
    AllPrefixesCount();
    SubsetCardinality(keys, AllPrefixes);
    SubsetCardinality({CEPName}, keys);
    if e.disableLegacyIdentifiers {
      SubsetCardinality(keys, AllPrefixes - LegacyPrefixes);
    }
  }

  lemma SubsetCardinality<T>(a: set<T>, b: set<T>)
    requires a <= b
    ensures |a| <= |b|
  {
    assert b == a + (b - a);
  }

  /**
   * The CNI attachment ID is not gated by the legacy flag: with legacy
   * identifiers disabled the raw container ID is hidden under its own prefix
   * but still leads the CNI attachment ID.
   */
  lemma CNIAttachmentIdUngated(e: Endpoint)
    requires e.disableLegacyIdentifiers && e.containerID != ""
    ensures ContainerId !in e.IdentifierMap()
    ensures CNIAttachmentId in e.IdentifierMap()
    ensures e.containerID <= e.IdentifierMap()[CNIAttachmentId]
  {
  }

  /** `e1` and `e2` agree on every field the identifiers depend on except the legacy flag. */
  predicate SameExceptLegacyFlag(e1: Endpoint, e2: Endpoint)
    reads e1, e2
  {
    && e1.containerID == e2.containerID
    && e1.containerIfName == e2.containerIfName
    && e1.containerName == e2.containerName
    && e1.dockerEndpointID == e2.dockerEndpointID
    && e1.k8sNamespace == e2.k8sNamespace
    && e1.k8sPodName == e2.k8sPodName
    && e1.ipv4 == e2.ipv4
    && e1.ipv6 == e2.ipv6
  }

  /**
   * Disabling legacy identifiers removes exactly the legacy prefixes and
   * changes only one surviving value: the CEP name, and only when the pod
   * and the interface both have a name.
   */
  lemma DisablingLegacyIdentifiers(legacy: Endpoint, modern: Endpoint)
    requires SameExceptLegacyFlag(legacy, modern)
    requires !legacy.disableLegacyIdentifiers && modern.disableLegacyIdentifiers
    ensures modern.IdentifierMap().Keys == legacy.IdentifierMap().Keys - LegacyPrefixes
    ensures forall p :: p in modern.IdentifierMap() && p != CEPName ==>
                          modern.IdentifierMap()[p] == legacy.IdentifierMap()[p]
    ensures modern.IdentifierMap()[CEPName] != legacy.IdentifierMap()[CEPName] <==>
            legacy.k8sPodName != "" && legacy.containerIfName != ""
  {
    IdentifierRules(legacy);
    IdentifierRules(modern);
    var lk, mk := legacy.IdentifierMap().Keys, modern.IdentifierMap().Keys;
    forall p ensures p in mk <==> p in lk - LegacyPrefixes {
      match p
      case CNIAttachmentId =>
      case ContainerId =>
      case DockerEndpoint =>
      case IPv4 =>
      case IPv6 =>
      case ContainerName =>
      case PodName =>
      case CEPName =>
    }
    var ln, mn := legacy.K8sCEPName(), modern.K8sCEPName();
    if legacy.k8sPodName != "" && legacy.containerIfName != "" {
      assert |mn| > |ln|;
    }
  }

  /**
   * A separator that does not occur before it splits a joined string in a
   * unique place: both parts are determined by the joined string.
   */
  lemma SeparatorSplits(p1: string, r1: string, p2: string, r2: string, sep: char)
    requires sep !in p1 && sep !in p2
    requires p1 + [sep] + r1 == p2 + [sep] + r2
    ensures p1 == p2 && r1 == r2
  {
    var s := p1 + [sep] + r1;
    assert s[|p1|] == sep && s[|p2|] == sep;
    assert p1 == s[..|p1|] == p2;
    assert r1 == s[|p1| + 1..] == r2;
  }

  /** Two endpoints share the PodName identifier only when they share namespace and pod name. */
  lemma PodNameIdentifiesPod(e1: Endpoint, e2: Endpoint)
    requires '/' !in e1.k8sNamespace && '/' !in e2.k8sNamespace
    requires e1.K8sNamespaceAndPodName() == e2.K8sNamespaceAndPodName()
    ensures e1.k8sNamespace == e2.k8sNamespace && e1.k8sPodName == e2.k8sPodName
  {
    SeparatorSplits(e1.k8sNamespace, e1.k8sPodName, e2.k8sNamespace, e2.k8sPodName, '/');
  }

  /** Two endpoints share the CEPName identifier only when they share namespace and CEP name. */
  lemma CEPNameIdentifiesCEP(e1: Endpoint, e2: Endpoint)
    requires '/' !in e1.k8sNamespace && '/' !in e2.k8sNamespace
    requires e1.K8sNamespaceAndCEPName() == e2.K8sNamespaceAndCEPName()
    ensures e1.k8sNamespace == e2.k8sNamespace && e1.K8sCEPName() == e2.K8sCEPName()
  {
    SeparatorSplits(e1.k8sNamespace, e1.K8sCEPName(), e2.k8sNamespace, e2.K8sCEPName(), '/');
  }

  /**
   * Two endpoints share the CNI attachment ID only when they share container
   * ID and interface name, as long as container IDs hold no ':'.
   */
  lemma CNIAttachmentIDInjective(e1: Endpoint, e2: Endpoint)
    requires ':' !in e1.containerID && ':' !in e2.containerID
    requires e1.CNIAttachmentID() == e2.CNIAttachmentID()
    ensures e1.containerID == e2.containerID && e1.containerIfName == e2.containerIfName
  {
    var s := e1.CNIAttachmentID();
    var c1, c2 := e1.containerID, e2.containerID;
    assert e1.containerIfName != "" ==> s[|c1|] == ':';
    assert e2.containerIfName != "" ==> s[|c2|] == ':';
    if e1.containerIfName != "" && e2.containerIfName != "" {
      SeparatorSplits(c1, e1.containerIfName, c2, e2.containerIfName, ':');
    }
  }

  /** For container IDs of at least ten characters, short IDs agree exactly when the first ten characters do. */
  lemma ShortContainerIDAgreement(e1: Endpoint, e2: Endpoint)
    requires |e1.containerID| >= ShortIDLength && |e2.containerID| >= ShortIDLength
    ensures ShortContainerID(e1) == ShortContainerID(e2) <==>
            e1.containerID[..ShortIDLength] == e2.containerID[..ShortIDLength]
  {
  }

  /**
   * An endpoint outside Kubernetes (no namespace, no pod) is logged as "/"
   * rather than by its numeric ID.
   */
  lemma HumanStringOfNonPodEndpoint(e: Endpoint)
    requires e.k8sNamespace == "" && e.k8sPodName == ""
    ensures e.HumanString() == "/"
    ensures e.stringID != "/" ==> e.HumanString() != e.stringID
    ensures e.HumanStringIntended() == e.stringID
  {
  }
}
