/**
 The canvas edits: connecting and disconnecting two gateways, and the rule of multi-cluster mode at both ends.
 */
module GatewayEdits {
  import opened Sorting
  import opened GatewayLinks

  datatype Connect = Connect(source: Key, target: Key)

  function WithTarget(targets: seq<Link>, add: Link): (r: seq<Link>) {
    if add in targets then targets else targets + [add]
  }

  function WithoutTarget(targets: seq<Link>, drop: Link): (r: seq<Link>) {
    if targets == [] then []
    else
      var init, last := WithoutTarget(targets[..|targets| - 1], drop), targets[|targets| - 1];
      if last == drop then init else init + [last]
  }

  function LinkTo(key: Key): (link: Link) {
    Link(key.instanceId, key.gatewayName)
  }

  function ApplyConnect(edits: Links, c: Connect): (r: Links) {
    if c.source.instanceId == c.target.instanceId then edits
    else if c.source.gatewayName == NO_NAME || c.target.gatewayName == NO_NAME then edits
    else edits[c.source := WithTarget(At(edits, c.source), LinkTo(c.target))]
              [c.target := WithTarget(At(edits, c.target), LinkTo(c.source))]
  }

  function ApplyDisconnect(edits: Links, c: Connect): (r: Links) {
    edits[c.source := WithoutTarget(At(edits, c.source), LinkTo(c.target))]
         [c.target := WithoutTarget(At(edits, c.target), LinkTo(c.source))]
  }

  lemma {:induction false} WithoutTargetHas(targets: seq<Link>, drop: Link, link: Link)
    ensures link in WithoutTarget(targets, drop) <==> link in targets && link != drop
  {
    if targets != [] {
      WithoutTargetHas(targets[..|targets| - 1], drop, link);
      assert targets == targets[..|targets| - 1] + [targets[|targets| - 1]];
    }
  }

  /** Every link has its way back. */
  ghost predicate Symmetric(edits: Links) {
    forall k, link :: link in At(edits, k) ==> LinkTo(k) in At(edits, Key(link.targetInstanceId, link.targetGateway))
  }

  /** The request joins gateways, by name, of two instances. */
  predicate IsProper(c: Connect) {
    && c.source.instanceId != c.target.instanceId
    && c.source.gatewayName != NO_NAME && c.target.gatewayName != NO_NAME
  }

  /** A proper request adds exactly its link and the way back; any other changes nothing. */
  lemma ConnectHas(edits: Links, c: Connect, k: Key, link: Link)
    ensures link in At(ApplyConnect(edits, c), k) <==>
            || link in At(edits, k)
            || (IsProper(c) && k == c.source && link == LinkTo(c.target))
            || (IsProper(c) && k == c.target && link == LinkTo(c.source))
    ensures !IsProper(c) ==> ApplyConnect(edits, c) == edits
  {
  }

  lemma DisconnectHas(edits: Links, c: Connect, k: Key, link: Link)
    requires c.source != c.target
    ensures link in At(ApplyDisconnect(edits, c), k) <==>
            link in At(edits, k) && !(k == c.source && link == LinkTo(c.target))
                                 && !(k == c.target && link == LinkTo(c.source))
  {
    WithoutTargetHas(At(edits, c.source), LinkTo(c.target), link);
    WithoutTargetHas(At(edits, c.target), LinkTo(c.source), link);
  }

  lemma ConnectKeepsSymmetry(edits: Links, c: Connect)
    requires Symmetric(edits)
    ensures Symmetric(ApplyConnect(edits, c))
  {
    var r := ApplyConnect(edits, c);
    if r != edits {
      forall k, link | link in At(r, k) ensures LinkTo(k) in At(r, Key(link.targetInstanceId, link.targetGateway)) {
        var back := Key(link.targetInstanceId, link.targetGateway);
        ConnectHas(edits, c, k, link);
        ConnectHas(edits, c, back, LinkTo(k));
        assert LinkTo(back) == link;
      }
    }
  }

  lemma DisconnectKeepsSymmetry(edits: Links, c: Connect)
    requires Symmetric(edits)
    ensures Symmetric(ApplyDisconnect(edits, c))
  {
    var r := ApplyDisconnect(edits, c);
    forall k, link | link in At(r, k) ensures LinkTo(k) in At(r, Key(link.targetInstanceId, link.targetGateway)) {
      var back := Key(link.targetInstanceId, link.targetGateway);
      DisconnectKeepsBack(edits, c, k, link);
    }
  }

  lemma DisconnectKeepsBack(edits: Links, c: Connect, k: Key, link: Link)
    requires Symmetric(edits) && link in At(ApplyDisconnect(edits, c), k)
    ensures LinkTo(k) in At(ApplyDisconnect(edits, c), Key(link.targetInstanceId, link.targetGateway))
  {
    var back := Key(link.targetInstanceId, link.targetGateway);
    if c.source != c.target {
      DisconnectHas(edits, c, k, link);
      DisconnectHas(edits, c, back, LinkTo(k));
    } else {
      WithoutTargetHas(At(edits, c.source), LinkTo(c.source), link);
      WithoutTargetHas(At(edits, c.source), LinkTo(c.source), LinkTo(k));
    }
  }

  lemma {:induction false} WithoutAbsent(targets: seq<Link>, drop: Link)
    requires drop !in targets
    ensures WithoutTarget(targets, drop) == targets
    ensures WithoutTarget(targets + [drop], drop) == targets
  {
    assert (targets + [drop])[..|targets|] == targets;
    if targets != [] {
      WithoutAbsent(targets[..|targets| - 1], drop);
      assert targets[|targets| - 1] in targets;
    }
  }

  /** Disconnecting undoes a connection that was new at both ends. */
  lemma DisconnectUndoes(edits: Links, c: Connect, k: Key)
    requires c.source.instanceId != c.target.instanceId
    requires c.source.gatewayName != NO_NAME && c.target.gatewayName != NO_NAME
    requires LinkTo(c.target) !in At(edits, c.source) && LinkTo(c.source) !in At(edits, c.target)
    ensures At(ApplyDisconnect(ApplyConnect(edits, c), c), k) == At(edits, k)
  {
    WithoutAbsent(At(edits, c.source), LinkTo(c.target));
    WithoutAbsent(At(edits, c.target), LinkTo(c.source));
  }

  // ---------------------------------------------------------------- the multi-cluster rule on the canvas

  /** One destination for each gateway of the instance, one gateway for each destination. */
  ghost predicate OneToOne(edits: Links, instanceId: int) {
    && (forall g: Name :: |At(edits, Key(instanceId, g))| <= 1)
    && (forall g: Name, h: Name :: g != h ==> Apart(At(edits, Key(instanceId, g)), At(edits, Key(instanceId, h))))
  }

  ghost predicate AllOneToOne(edits: Links) {
    forall instanceId :: OneToOne(edits, instanceId)
  }

  /** The other gateways of an instance that hold links. */
  function Others(edits: Links, end: Key): (others: map<Name, seq<Link>>)
    ensures forall g: Name :: g in others <==> g != end.gatewayName && At(edits, Key(end.instanceId, g)) != []
    ensures forall g: Name :: g in others ==> others[g] == At(edits, Key(end.instanceId, g))
  {
    var keys := set k | k in edits && IsOther(edits, end, k);
    var names := set k | k in keys :: k.gatewayName;
    assert forall k :: k in keys ==> k == Key(end.instanceId, k.gatewayName);
    map g | g in names :: edits[Key(end.instanceId, g)]
  }

  predicate IsOther(edits: Links, end: Key, k: Key)
    requires k in edits
  {
    k.instanceId == end.instanceId && k.gatewayName != end.gatewayName && edits[k] != []
  }

  predicate EndViolates(edits: Links, end: Key, to: Key) {
    ViolatesMulti(end.gatewayName, At(edits, end) + [LinkTo(to)], Others(edits, end))
  }

  predicate ViolatesAtAnEnd(edits: Links, c: Connect) {
    EndViolates(edits, c.source, c.target) || EndViolates(edits, c.target, c.source)
  }

  /** An end can take the link exactly if it is free and no other gateway leads to the same instance. */
  lemma EndIsFree(edits: Links, end: Key, to: Key)
    ensures !EndViolates(edits, end, to) <==>
            && At(edits, end) == []
            && forall g: Name :: g != end.gatewayName ==> !LeadsTo(At(edits, Key(end.instanceId, g)), to.instanceId)
  {
    var others := Others(edits, end);
    assert |At(edits, end) + [LinkTo(to)]| == 1 <==> At(edits, end) == [];
    if At(edits, end) == [] {
      assert (At(edits, end) + [LinkTo(to)])[0] == LinkTo(to);
      forall g: Name | g != end.gatewayName
        ensures LeadsTo(At(edits, Key(end.instanceId, g)), to.instanceId)
           <==> g in others && LeadsTo(others[g], to.instanceId)
      {
      }
    }
  }

  lemma ConnectEnds(edits: Links, c: Connect, k: Key)
    requires c.source.instanceId != c.target.instanceId && !ViolatesAtAnEnd(edits, c)
    requires c.source.gatewayName != NO_NAME && c.target.gatewayName != NO_NAME
    ensures At(ApplyConnect(edits, c), k) ==
              if k == c.source then [LinkTo(c.target)]
              else if k == c.target then [LinkTo(c.source)]
              else At(edits, k)
  {
    EndIsFree(edits, c.source, c.target);
    EndIsFree(edits, c.target, c.source);
  }

  lemma FreeEndTakesLink(edits: Links, r: Links, end: Key, to: Key)
    requires OneToOne(edits, end.instanceId) && !EndViolates(edits, end, to)
    requires forall g: Name :: At(r, Key(end.instanceId, g)) ==
               if g == end.gatewayName then [LinkTo(to)] else At(edits, Key(end.instanceId, g))
    ensures OneToOne(r, end.instanceId)
  {
    EndIsFree(edits, end, to);
    forall g: Name, h: Name | g != h
      ensures Apart(At(r, Key(end.instanceId, g)), At(r, Key(end.instanceId, h)))
    {
      assert g != end.gatewayName ==> !LeadsTo(At(edits, Key(end.instanceId, g)), to.instanceId);
      assert h != end.gatewayName ==> !LeadsTo(At(edits, Key(end.instanceId, h)), to.instanceId);
      assert Apart(At(edits, Key(end.instanceId, g)), At(edits, Key(end.instanceId, h)));
    }
  }

  /** A connection that passes the check at both ends keeps the rule everywhere. */
  lemma ConnectKeepsOneToOne(edits: Links, c: Connect)
    requires AllOneToOne(edits) && !ViolatesAtAnEnd(edits, c)
    ensures AllOneToOne(ApplyConnect(edits, c))
  {
    var r := ApplyConnect(edits, c);
    if c.source.instanceId != c.target.instanceId
       && c.source.gatewayName != NO_NAME && c.target.gatewayName != NO_NAME
    {
      forall k ensures At(r, k) == if k == c.source then [LinkTo(c.target)]
                                   else if k == c.target then [LinkTo(c.source)] else At(edits, k)
      {
        ConnectEnds(edits, c, k);
      }
      forall i ensures OneToOne(r, i) {
        if i == c.source.instanceId {
          FreeEndTakesLink(edits, r, c.source, c.target);
        } else if i == c.target.instanceId {
          FreeEndTakesLink(edits, r, c.target, c.source);
        } else {
          assert OneToOne(edits, i);
        }
      }
    }
  }

  lemma {:induction false} WithoutTargetShrinks(targets: seq<Link>, drop: Link)
    ensures |WithoutTarget(targets, drop)| <= |targets|
  {
    if targets != [] { WithoutTargetShrinks(targets[..|targets| - 1], drop); }
  }

  lemma DisconnectShrinks(edits: Links, c: Connect, k: Key)
    ensures |At(ApplyDisconnect(edits, c), k)| <= |At(edits, k)|
    ensures forall link :: link in At(ApplyDisconnect(edits, c), k) ==> link in At(edits, k)
  {
    WithoutTargetShrinks(At(edits, c.source), LinkTo(c.target));
    WithoutTargetShrinks(At(edits, c.target), LinkTo(c.source));
    forall link | link in At(ApplyDisconnect(edits, c), k) ensures link in At(edits, k) {
      WithoutTargetHas(At(edits, c.source), LinkTo(c.target), link);
      WithoutTargetHas(At(edits, c.target), LinkTo(c.source), link);
    }
  }

  lemma DisconnectKeepsOneToOne(edits: Links, c: Connect)
    requires AllOneToOne(edits)
    ensures AllOneToOne(ApplyDisconnect(edits, c))
  {
    var r := ApplyDisconnect(edits, c);
    forall i ensures OneToOne(r, i) {
      assert OneToOne(edits, i);
      forall g: Name ensures |At(r, Key(i, g))| <= 1 { DisconnectShrinks(edits, c, Key(i, g)); }
      forall g: Name, h: Name | g != h ensures Apart(At(r, Key(i, g)), At(r, Key(i, h))) {
        DisconnectShrinks(edits, c, Key(i, g));
        DisconnectShrinks(edits, c, Key(i, h));
        SubsetsApart(At(edits, Key(i, g)), At(edits, Key(i, h)), At(r, Key(i, g)), At(r, Key(i, h)));
      }
    }
  }

  lemma SubsetsApart(a: seq<Link>, b: seq<Link>, c: seq<Link>, d: seq<Link>)
    requires Apart(a, b) && (forall link :: link in c ==> link in a) && (forall link :: link in d ==> link in b)
    ensures Apart(c, d)
  {
    forall i, j | 0 <= i < |c| && 0 <= j < |d| ensures c[i].targetInstanceId != d[j].targetInstanceId {
      assert c[i] in a && d[j] in b;
      var x :| 0 <= x < |a| && a[x] == c[i];
      var y :| 0 <= y < |b| && b[y] == d[j];
    }
  }

  /** The check of one end: the other gateways of the instance are gathered from all the edits. */
  method CheckEnd(edits: Links, end: Key, to: Key) returns (violation: bool)
    ensures violation == EndViolates(edits, end, to)
  {
    var others: map<Name, seq<Link>> := map[];
    var left := edits.Keys;
    while left != {}
      invariant left <= edits.Keys
      invariant forall g: Name :: g in others <==>
                  Key(end.instanceId, g) !in left && g != end.gatewayName && At(edits, Key(end.instanceId, g)) != []
      invariant forall g: Name :: g in others ==> others[g] == At(edits, Key(end.instanceId, g))
      decreases |left|
    {
      var k :| k in left;
      if k.instanceId == end.instanceId && k.gatewayName != end.gatewayName && |edits[k]| > 0 {
        others := others[k.gatewayName := edits[k]];
      }
      left := left - {k};
    }
    assert others == Others(edits, end);
    var existing := if end in edits then edits[end] else [];
    violation := CheckMultiModeLink(end.gatewayName, existing + [LinkTo(to)], others);
  }

  method MultiModeViolation(edits: Links, c: Connect) returns (violation: bool)
    ensures violation == ViolatesAtAnEnd(edits, c)
  {
    violation := CheckEnd(edits, c.source, c.target);
    if !violation { violation := CheckEnd(edits, c.target, c.source); }
  }
}
