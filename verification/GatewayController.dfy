/**
 The controller's two gateway handlers, with the link map they read and change.
 */
module GatewayController {
  import opened Wrappers
  import opened GatewayLinks
  import opened GatewayServer

  datatype Reply = Failed(reason: Refusal) | NotPersisted | Saved

  /** A row of the reply that lists the links of the active mode. */
  datatype Row = Row(key: Key, targets: seq<Link>)

  /** The rows are the links of the active gateways, each once. */
  ghost predicate ListsActive(rows: seq<Row>, links: Links, active: seq<Name>) {
    && (forall i :: 0 <= i < |rows| ==>
          && rows[i].key in links && rows[i].key.gatewayName in active && rows[i].targets == links[rows[i].key])
    && (forall i, j :: 0 <= i < j < |rows| ==> rows[i].key != rows[j].key)
    && (forall k :: k in links && k.gatewayName in active ==> Row(k, links[k]) in rows)
  }

  method NormalizeTargetList(source: int, name: Name, targets: seq<Target>) returns (links: seq<Link>)
    ensures links == NormalizeTargets(source, name, targets)
  {
    links := [];
    var i := 0;
    while i < |targets|
      invariant 0 <= i <= |targets|
      invariant links == NormalizeTargets(source, name, targets[..i])
    {
      assert targets[..i + 1][..i] == targets[..i];
      var t := targets[i];
      if t.instanceId.Some? && t.instanceId.value != source {
        links := links + [Link(t.instanceId.value, if t.gateway == NO_NAME then name else t.gateway)];
      }
      i := i + 1;
    }
    assert targets[..|targets|] == targets;
  }

  lemma {:induction false} BadStaysBad(source: int, active: seq<Name>, submitted: seq<Submitted>, i: nat)
    requires i <= |submitted| && Normalize(source, active, submitted[..i]).Bad?
    ensures Normalize(source, active, submitted) == Normalize(source, active, submitted[..i])
  {
    if i == |submitted| {
      assert submitted[..i] == submitted;
    } else {
      assert submitted[..|submitted| - 1][..i] == submitted[..i];
      BadStaysBad(source, active, submitted[..|submitted| - 1], i);
    }
  }

  /** The submitted gateways by name, with the order in which they came. */
  method NormalizeRequest(source: int, active: seq<Name>, submitted: seq<Submitted>)
    returns (normalized: Normalized, order: seq<Name>)
    ensures normalized == Normalize(source, active, submitted)
    ensures normalized.Good? ==> forall g :: g in order <==> g in normalized.gateways
  {
    var gateways: map<Name, seq<Link>> := map[];
    order := [];
    var i := 0;
    while i < |submitted|
      invariant 0 <= i <= |submitted|
      invariant Normalize(source, active, submitted[..i]) == Good(gateways)
      invariant forall g :: g in order <==> g in gateways
    {
      var entry := submitted[i];
      assert submitted[..i + 1][..i] == submitted[..i];
      if entry.gatewayName == NO_NAME || entry.gatewayName !in active {
        BadStaysBad(source, active, submitted, i + 1);
        return Bad(UnknownGateway), order;
      }
      if entry.gatewayName in gateways {
        BadStaysBad(source, active, submitted, i + 1);
        return Bad(GatewayTwice), order;
      }
      var links := NormalizeTargetList(source, entry.gatewayName, entry.targets);
      gateways := gateways[entry.gatewayName := links];
      order := order + [entry.gatewayName];
      i := i + 1;
    }
    assert submitted[..|submitted|] == submitted;
    normalized := Good(gateways);
  }

  class GatewayController {
    var gatewayLinks: Links

    constructor (links: Links)
      ensures gatewayLinks == links
    {
      gatewayLinks := links;
    }

    method ProposeMulti(source: int, gateways: map<Name, seq<Link>>) returns (proposed: map<Name, seq<Link>>)
      ensures proposed == Proposed(gatewayLinks, source, gateways)
    {
      proposed := map[];
      var i := 0;
      while i < |MULTI_GATEWAY_NAMES|
        invariant 0 <= i <= |MULTI_GATEWAY_NAMES|
        invariant forall g :: g in proposed <==>
                    g in MULTI_GATEWAY_NAMES[..i] && Proposal(gatewayLinks, source, gateways, g) != []
        invariant forall g :: g in proposed ==> proposed[g] == Proposal(gatewayLinks, source, gateways, g)
      {
        var name := MULTI_GATEWAY_NAMES[i];
        var next := if name in gateways then gateways[name]
                    else if Key(source, name) in gatewayLinks then gatewayLinks[Key(source, name)] else [];
        if |next| > 0 { proposed := proposed[name := next]; }
        i := i + 1;
      }
      assert MULTI_GATEWAY_NAMES[..|MULTI_GATEWAY_NAMES|] == MULTI_GATEWAY_NAMES;
    }

    method CheckRule(source: int, gateways: map<Name, seq<Link>>, order: seq<Name>) returns (broken: bool)
      requires forall g :: g in order <==> g in gateways
      ensures broken == BreaksRule(gatewayLinks, source, gateways)
    {
      var proposed := ProposeMulti(source, gateways);
      var i := 0;
      while i < |order|
        invariant 0 <= i <= |order|
        invariant forall j :: 0 <= j < i ==> !ViolatesMulti(order[j], gateways[order[j]], proposed - {order[j]})
      {
        var name := order[i];
        var violation := CheckMultiModeLink(name, gateways[name], proposed - {name});
        if violation { return true; }
        i := i + 1;
      }
      broken := false;
    }

    method Store(source: int, gateways: map<Name, seq<Link>>, order: seq<Name>)
      requires forall g :: g in order <==> g in gateways
      modifies this
      ensures gatewayLinks == Updated(old(gatewayLinks), source, gateways)
    {
      ghost var was := gatewayLinks;
      var i := 0;
      while i < |order|
        invariant 0 <= i <= |order|
        invariant forall k: Key :: k.instanceId == source && k.gatewayName in order[..i] ==>
                    (k in gatewayLinks <==> gateways[k.gatewayName] != [])
                    && At(gatewayLinks, k) == gateways[k.gatewayName]
        invariant forall k: Key :: !(k.instanceId == source && k.gatewayName in order[..i]) ==>
                    (k in gatewayLinks <==> k in was) && At(gatewayLinks, k) == At(was, k)
      {
        var key := Key(source, order[i]);
        if |gateways[order[i]]| > 0 {
          gatewayLinks := gatewayLinks[key := gateways[order[i]]];
        } else {
          gatewayLinks := gatewayLinks - {key};
        }
        i := i + 1;
      }
      assert order[..|order|] == order;
      SameLinks(gatewayLinks, Updated(was, source, gateways));
    }

    /** A refused request leaves the links alone; an accepted one stores them even if the file cannot be written. */
    method HandleSetGatewayLinkRequest(mode: Mode, known: set<int>, request: Request, persists: bool)
      returns (reply: Reply)
      modifies this
      ensures var outcome := Handle(old(gatewayLinks), mode, known, request);
              && gatewayLinks == (if outcome.Accepted? then outcome.links else old(gatewayLinks))
              && reply == (if outcome.Refused? then Failed(outcome.reason)
                           else if persists then Saved else NotPersisted)
    {
      var source, active := request.sourceInstanceId, GatewayNamesFor(mode);
      if |request.gateways| == 0 { return Failed(NoGateways); }
      if source !in known { return Failed(UnknownInstance); }
      var normalized, order := NormalizeRequest(source, active, request.gateways);
      if normalized.Bad? { return Failed(normalized.reason); }
      if mode == MultiCluster {
        var broken := CheckRule(source, normalized.gateways, order);
        if broken { return Failed(RuleBroken); }
      }
      Store(source, normalized.gateways, order);
      reply := if persists then Saved else NotPersisted;
    }

    method HandleGetGatewaysRequest(mode: Mode) returns (rows: seq<Row>)
      ensures ListsActive(rows, gatewayLinks, GatewayNamesFor(mode))
    {
      var active := GatewayNamesFor(mode);
      var left := gatewayLinks.Keys;
      rows := [];
      while left != {}
        invariant left <= gatewayLinks.Keys
        invariant ListsActive(rows, gatewayLinks - left, active)
        decreases |left|
      {
        var key :| key in left;
        if key.gatewayName in active { rows := rows + [Row(key, gatewayLinks[key])]; }
        left := left - {key};
      }
      assert gatewayLinks - {} == gatewayLinks;
    }
  }

  lemma SameLinks(a: Links, b: Links)
    requires forall k: Key :: (k in a <==> k in b) && At(a, k) == At(b, k)
    ensures a == b
  {
    forall k | k in a ensures a[k] == b[k] {
      assert At(a, k) == At(b, k);
    }
  }
}
