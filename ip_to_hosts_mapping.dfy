/** `IpToHostsMapping`: one override address paired with the host names that
    resolve to it. Immutable in this model; the source keeps the caller's
    list by reference. Equality and hashing look only at the two
    properties. */
module Mapping {
  import opened Base

  /** A null `ipAddress` is `None`. The host list is held by value, so a
      caller's later changes to the list it passed in are not modelled. */
  datatype IpToHostsMapping = IpToHostsMapping(ipAddress: Option<string>, hosts: seq<string>)

  /** The IP address exactly as stored. */
  function GetIpAddress(m: IpToHostsMapping): (ip: Option<string>)
    ensures ip == m.ipAddress
  {
    m.ipAddress
  }

  /** A copy of the host list: equal to the stored hosts element by element.
      Being a value, nothing done with the copy reaches `m`. */
  function GetHosts(m: IpToHostsMapping): (hosts: seq<string>)
    ensures |hosts| == |m.hosts|
    ensures forall i :: 0 <= i < |hosts| ==> hosts[i] == m.hosts[i]
  {
    m.hosts
  }

  /** The no-argument constructor: no IP address and an empty host list. */
  function NewEmpty(): (m: IpToHostsMapping)
    ensures GetIpAddress(m) == None && GetHosts(m) == []
  {
    IpToHostsMapping(None, [])
  }

  /** The two-argument constructor: the getters give back exactly what was
      passed in. */
  function New(ipAddress: Option<string>, hosts: seq<string>): (m: IpToHostsMapping)
    ensures GetIpAddress(m) == ipAddress && GetHosts(m) == hosts
  {
    IpToHostsMapping(ipAddress, hosts)
  }

  /** Rebuilding a mapping from what its getters return gives the same
      mapping: the two properties are all there is to it. */
  lemma RebuildFromGetters(m: IpToHostsMapping)
    ensures New(GetIpAddress(m), GetHosts(m)) == m
  {
  }

  /** `equals(Object)`: `other` is `None` when the argument is null or not an
      `IpToHostsMapping`. Property by property comparison. */
  function Equals(m: IpToHostsMapping, other: Option<IpToHostsMapping>): (r: bool)
    ensures r <==> other == Some(m)
  {
    match other
    case None => false
    case Some(o) => o.ipAddress == m.ipAddress && o.hosts == m.hosts
  }

  /** `hashCode()`: some combination of the hashes of the two properties;
      `propertyHash` stands for that combination. */
  function HashCode(m: IpToHostsMapping, propertyHash: (Option<string>, seq<string>) -> int): (h: int)
  {
    propertyHash(m.ipAddress, m.hosts)
  }

  /** `equals` is an equivalence relation. */
  lemma EqualsIsEquivalence(a: IpToHostsMapping, b: IpToHostsMapping, c: IpToHostsMapping)
    ensures Equals(a, Some(a))
    ensures Equals(a, Some(b)) <==> Equals(b, Some(a))
    ensures Equals(a, Some(b)) && Equals(b, Some(c)) ==> Equals(a, Some(c))
    ensures !Equals(a, None)
  {
  }

  /** Mappings that are `equals` have the same hash code. */
  lemma HashCodeConsistentWithEquals(a: IpToHostsMapping, b: IpToHostsMapping,
                                     propertyHash: (Option<string>, seq<string>) -> int)
    requires Equals(a, Some(b))
    ensures HashCode(a, propertyHash) == HashCode(b, propertyHash)
  {
  }
}
