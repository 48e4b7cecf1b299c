/**
 Gateway names, links and the rule of multi-cluster mode, as the browser and the controller share them.
 */
module GatewayLinks {
  datatype Name = Name(text: string)

  datatype Mode = OneGate | MultiCluster

  /** One direction of a connection: where a gateway leads. */
  datatype Link = Link(targetInstanceId: int, targetGateway: Name)

  /** A gateway of an instance; the source writes it as the instance number, a colon and the name. */
  datatype Key = Key(instanceId: int, gatewayName: Name)

  type Links = map<Key, seq<Link>>

  const NO_NAME := Name("")
  const MULTI_GATEWAY_NAMES: seq<Name> :=
    [Name("surfexp_gateway_1"), Name("surfexp_gateway_2"), Name("surfexp_gateway_3"), Name("surfexp_gateway_4")]
  const ONE_GATE_NAMES: seq<Name> := [Name("surfexp_gateway_hub")]

  function GatewayNamesFor(mode: Mode): (names: seq<Name>) {
    if mode == MultiCluster then MULTI_GATEWAY_NAMES else ONE_GATE_NAMES
  }

  function At(links: Links, key: Key): (targets: seq<Link>) {
    if key in links then links[key] else []
  }

  /** The two sets of names have nothing in common, and no name is empty. */
  lemma NamesAreApart(name: Name)
    ensures !(name in MULTI_GATEWAY_NAMES && name in ONE_GATE_NAMES)
    ensures name in MULTI_GATEWAY_NAMES || name in ONE_GATE_NAMES ==> name != NO_NAME
  {
    assert |Name("surfexp_gateway_hub").text| == 19;
  }

  predicate LeadsTo(targets: seq<Link>, instanceId: int) {
    exists i :: 0 <= i < |targets| && targets[i].targetInstanceId == instanceId
  }

  /** The check of one gateway against the others of its instance. */
  predicate ViolatesMulti(name: Name, targets: seq<Link>, others: map<Name, seq<Link>>) {
    || |targets| > 1
    || (|targets| == 1
        && exists other :: other in others && other != name && LeadsTo(others[other], targets[0].targetInstanceId))
  }

  method CheckMultiModeLink(name: Name, targets: seq<Link>, others: map<Name, seq<Link>>) returns (violation: bool)
    ensures violation == ViolatesMulti(name, targets, others)
  {
    if |targets| > 1 { return true; }
    if |targets| == 0 { return false; }
    var left := others.Keys;
    while left != {}
      invariant left <= others.Keys
      invariant forall other :: other in others && other !in left && other != name ==>
                  !LeadsTo(others[other], targets[0].targetInstanceId)
      decreases |left|
    {
      var other :| other in left;
      if other != name && LeadsTo(others[other], targets[0].targetInstanceId) { return true; }
      left := left - {other};
    }
    return false;
  }

  /** No two links of the two lists lead to the same instance. */
  ghost predicate Apart(a: seq<Link>, b: seq<Link>) {
    forall i, j :: 0 <= i < |a| && 0 <= j < |b| ==> a[i].targetInstanceId != b[j].targetInstanceId
  }

  /** The multi-cluster rule for one instance: one destination a gateway and one gateway a destination. */
  ghost predicate SourceObeys(links: Links, source: int) {
    && (forall g :: g in MULTI_GATEWAY_NAMES ==> |At(links, Key(source, g))| <= 1)
    && (forall g, h :: g in MULTI_GATEWAY_NAMES && h in MULTI_GATEWAY_NAMES && g != h ==>
          Apart(At(links, Key(source, g)), At(links, Key(source, h))))
  }

  ghost predicate LeadsElsewhere(key: Key, targets: seq<Link>) {
    forall i :: 0 <= i < |targets| ==> targets[i].targetInstanceId != key.instanceId
  }

  ghost predicate NoSelfLinks(links: Links) {
    forall k :: k in links ==> LeadsElsewhere(k, links[k])
  }

  ghost predicate Conforming(links: Links) {
    NoSelfLinks(links) && Named(links) && forall source :: SourceObeys(links, source)
  }

  ghost predicate AllNamed(targets: seq<Link>) {
    forall i :: 0 <= i < |targets| ==> targets[i].targetGateway != NO_NAME
  }

  /** Every link says at which gateway it arrives. */
  ghost predicate Named(links: Links) {
    forall k :: k in links ==> AllNamed(links[k])
  }
}
