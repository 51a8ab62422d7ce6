/** The identifier namespaces under which other subsystems index endpoints. */
module EndpointId {

  /** The closed set of identifier prefixes. */
  datatype Prefix =
    | CNIAttachmentId
    | ContainerId
    | DockerEndpoint
    | IPv4
    | IPv6
    | ContainerName
    | PodName
    | CEPName

  /** Every prefix, each exactly once. */
  const AllPrefixes: set<Prefix> :=
    {CNIAttachmentId, ContainerId, DockerEndpoint, IPv4, IPv6, ContainerName, PodName, CEPName}

  /** The prefixes that only endpoints with legacy identifiers enabled expose. */
  const LegacyPrefixes: set<Prefix> := {ContainerId, ContainerName, PodName}

  lemma AllPrefixesCount()
    ensures |AllPrefixes| == 8
    ensures |AllPrefixes - LegacyPrefixes| == 5
    ensures forall p: Prefix :: p in AllPrefixes
  {
    forall p: Prefix ensures p in AllPrefixes {
      match p
      case CNIAttachmentId =>
      case ContainerId =>
      case DockerEndpoint =>
      case IPv4 =>
      case IPv6 =>
      case ContainerName =>
      case PodName =>
      case CEPName =>
    }
  }
}
