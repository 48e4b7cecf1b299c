/**
 The controller's gateway links: reading the links of the active mode and setting those of one instance.
 */
module GatewayServer {
  import opened Wrappers
  import opened GatewayLinks

  /** A target as it is received; None is a number that is not an integer, NO_NAME a missing gateway. */
  datatype Target = Target(instanceId: Option<int>, gateway: Name)

  datatype Submitted = Submitted(gatewayName: Name, targets: seq<Target>)

  datatype Request = Request(sourceInstanceId: int, gateways: seq<Submitted>)

  datatype Refusal = NoGateways | UnknownInstance | UnknownGateway | GatewayTwice | RuleBroken

  datatype Outcome = Refused(reason: Refusal) | Accepted(links: Links)

  function NormalizeTargets(source: int, name: Name, targets: seq<Target>): (links: seq<Link>)
    ensures LeadsElsewhere(Key(source, name), links)
    ensures name != NO_NAME ==> AllNamed(links)
  {
    if targets == [] then []
    else
      var init, t := NormalizeTargets(source, name, targets[..|targets| - 1]), targets[|targets| - 1];
      if t.instanceId.Some? && t.instanceId.value != source
      then init + [Link(t.instanceId.value, if t.gateway == NO_NAME then name else t.gateway)]
      else init
  }

  datatype Normalized = Bad(reason: Refusal) | Good(gateways: map<Name, seq<Link>>)

  /** The submitted gateways as a map, or the first thing wrong with them. */
  function Normalize(source: int, active: seq<Name>, submitted: seq<Submitted>): (r: Normalized) {
    if submitted == [] then Good(map[])
    else
      var init, entry := Normalize(source, active, submitted[..|submitted| - 1]), submitted[|submitted| - 1];
      if init.Bad? then init
      else if entry.gatewayName == NO_NAME || entry.gatewayName !in active then Bad(UnknownGateway)
      else if entry.gatewayName in init.gateways then Bad(GatewayTwice)
      else Good(init.gateways[entry.gatewayName := NormalizeTargets(source, entry.gatewayName, entry.targets)])
  }

  /** What a gateway of the instance would hold. */
  function Proposal(links: Links, source: int, gateways: map<Name, seq<Link>>, name: Name): (targets: seq<Link>) {
    if name in gateways then gateways[name] else At(links, Key(source, name))
  }

  /** The nonempty proposals of the multi-cluster gateways. */
  function Proposed(links: Links, source: int, gateways: map<Name, seq<Link>>): (r: map<Name, seq<Link>>)
    ensures forall g :: g in r <==> g in MULTI_GATEWAY_NAMES && Proposal(links, source, gateways, g) != []
    ensures forall g :: g in r ==> r[g] == Proposal(links, source, gateways, g)
  {
    map g | g in MULTI_GATEWAY_NAMES && Proposal(links, source, gateways, g) != [] ::
      Proposal(links, source, gateways, g)
  }

  predicate BreaksRule(links: Links, source: int, gateways: map<Name, seq<Link>>) {
    exists g :: g in gateways && ViolatesMulti(g, gateways[g], Proposed(links, source, gateways) - {g})
  }

  /** The links with the submitted gateways put in place; an empty one is removed. */
  function Updated(links: Links, source: int, gateways: map<Name, seq<Link>>): (r: Links)
    ensures forall k: Key :: At(r, k) ==
              if k.instanceId == source && k.gatewayName in gateways then gateways[k.gatewayName] else At(links, k)
    ensures forall k: Key :: k in r && k.instanceId == source && k.gatewayName in gateways ==> r[k] != []
    ensures forall k: Key :: !(k.instanceId == source && k.gatewayName in gateways) ==> (k in r <==> k in links)
  {
    var keys := set name | name in gateways :: Key(source, name);
    map k | k in links.Keys + keys && (k in keys ==> gateways[k.gatewayName] != []) ::
      if k in keys then gateways[k.gatewayName] else links[k]
  }

  function Handle(links: Links, mode: Mode, known: set<int>, request: Request): (r: Outcome) {
    var source := request.sourceInstanceId;
    if request.gateways == [] then Refused(NoGateways)
    else if source !in known then Refused(UnknownInstance)
    else
      var normalized := Normalize(source, GatewayNamesFor(mode), request.gateways);
      if normalized.Bad? then Refused(normalized.reason)
      else if mode == MultiCluster && BreaksRule(links, source, normalized.gateways) then Refused(RuleBroken)
      else Accepted(Updated(links, source, normalized.gateways))
  }

  // ---------------------------------------------------------------- what a request may name

  /** Every gateway is one of the mode, and none is named twice. */
  ghost predicate WellNamed(active: seq<Name>, submitted: seq<Submitted>) {
    && (forall i :: 0 <= i < |submitted| ==>
          submitted[i].gatewayName != NO_NAME && submitted[i].gatewayName in active)
    && (forall i, j :: 0 <= i < j < |submitted| ==> submitted[i].gatewayName != submitted[j].gatewayName)
  }

  function NamesOf(submitted: seq<Submitted>): (names: set<Name>) {
    set entry | entry in submitted :: entry.gatewayName
  }

  lemma NamesOneMore(init: seq<Submitted>, entry: Submitted)
    ensures NamesOf(init + [entry]) == NamesOf(init) + {entry.gatewayName}
  {
    var all := init + [entry];
    forall name | name in NamesOf(init) + {entry.gatewayName} ensures name in NamesOf(all) {
      if name == entry.gatewayName {
        assert entry in all;
      } else {
        var e :| e in init && e.gatewayName == name;
        assert e in all;
      }
    }
  }

  lemma WellNamedOneMore(active: seq<Name>, init: seq<Submitted>, entry: Submitted)
    ensures WellNamed(active, init + [entry]) <==>
            && WellNamed(active, init) && entry.gatewayName != NO_NAME && entry.gatewayName in active
            && entry.gatewayName !in NamesOf(init)
  {
    var all := init + [entry];
    assert forall i :: 0 <= i < |init| ==> all[i] == init[i];
    assert all[|init|] == entry;
    if entry.gatewayName in NamesOf(init) {
      var e :| e in init && e.gatewayName == entry.gatewayName;
      var i :| 0 <= i < |init| && init[i] == e;
      assert all[i].gatewayName == all[|init|].gatewayName;
    } else {
      forall i | 0 <= i < |init| ensures all[i].gatewayName != entry.gatewayName {
        assert all[i] in init;
      }
    }
  }

  /** Normalizing succeeds exactly for well-named requests, and keeps the names. */
  lemma {:induction false} NormalizeNames(source: int, active: seq<Name>, submitted: seq<Submitted>)
    ensures Normalize(source, active, submitted).Good? <==> WellNamed(active, submitted)
    ensures Normalize(source, active, submitted).Good? ==>
              Normalize(source, active, submitted).gateways.Keys == NamesOf(submitted)
  {
    if submitted != [] {
      var init, entry := submitted[..|submitted| - 1], submitted[|submitted| - 1];
      NormalizeNames(source, active, init);
      assert submitted == init + [entry];
      NamesOneMore(init, entry);
      WellNamedOneMore(active, init, entry);
    }
  }

  /** Each gateway of a well-named request gets its own targets. */
  lemma {:induction false} NormalizeHolds(source: int, active: seq<Name>, submitted: seq<Submitted>, i: nat)
    requires Normalize(source, active, submitted).Good? && i < |submitted|
    ensures var gateways := Normalize(source, active, submitted).gateways;
            && submitted[i].gatewayName in gateways
            && gateways[submitted[i].gatewayName]
               == NormalizeTargets(source, submitted[i].gatewayName, submitted[i].targets)
  {
    var n := |submitted| - 1;
    if i < n {
      NormalizeHolds(source, active, submitted[..n], i);
    }
  }

  // ---------------------------------------------------------------- what an accepted request stores

  /** The submitted target leads there; without a gateway it arrives at the one it is submitted for. */
  predicate LeadsThere(t: Target, source: int, name: Name, link: Link) {
    && t.instanceId == Some(link.targetInstanceId) && link.targetInstanceId != source
    && link.targetGateway == if t.gateway == NO_NAME then name else t.gateway
  }

  /** Exactly the targets that are integers and not the instance itself become links. */
  lemma {:induction false} NormalizedHas(source: int, name: Name, targets: seq<Target>, link: Link)
    ensures link in NormalizeTargets(source, name, targets) <==>
            exists t :: t in targets && LeadsThere(t, source, name, link)
  {
    if targets != [] {
      var init, last := targets[..|targets| - 1], targets[|targets| - 1];
      NormalizedHas(source, name, init, link);
      assert targets == init + [last];
      if LeadsThere(last, source, name, link) {
        assert last in targets;
      }
    }
  }

  /** After an accepted request each gateway it names has exactly the links that its own targets ask for. */
  lemma AcceptedStores(links: Links, mode: Mode, known: set<int>, request: Request, i: nat, link: Link)
    requires Handle(links, mode, known, request).Accepted? && i < |request.gateways|
    ensures var entry := request.gateways[i];
            link in At(Handle(links, mode, known, request).links, Key(request.sourceInstanceId, entry.gatewayName)) <==>
            exists t :: t in entry.targets && LeadsThere(t, request.sourceInstanceId, entry.gatewayName, link)
  {
    var source, entry := request.sourceInstanceId, request.gateways[i];
    NormalizeHolds(source, GatewayNamesFor(mode), request.gateways, i);
    NormalizedHas(source, entry.gatewayName, entry.targets, link);
  }

  // ---------------------------------------------------------------- the multi-cluster rule

  /** The submitted gateways belong to the mode, and no target is the instance itself. */
  ghost predicate Usable(source: int, active: seq<Name>, gateways: map<Name, seq<Link>>) {
    forall g :: g in gateways ==> g in active && LeadsElsewhere(Key(source, g), gateways[g]) && AllNamed(gateways[g])
  }

  lemma NormalizedIsUsable(source: int, active: seq<Name>, submitted: seq<Submitted>)
    requires Normalize(source, active, submitted).Good?
    ensures Usable(source, active, Normalize(source, active, submitted).gateways)
  {
    NormalizeNames(source, active, submitted);
    var gateways := Normalize(source, active, submitted).gateways;
    forall g | g in gateways
      ensures g in active && LeadsElsewhere(Key(source, g), gateways[g]) && AllNamed(gateways[g])
    {
      assert g in NamesOf(submitted);
      var i :| 0 <= i < |submitted| && submitted[i].gatewayName == g;
      NormalizeHolds(source, active, submitted, i);
    }
  }

  lemma LeadsToShared(a: seq<Link>, b: seq<Link>)
    requires |a| == 1
    ensures LeadsTo(b, a[0].targetInstanceId) <==> !Apart(a, b)
  {
  }

  /** What the check looks at is what the links would be. */
  lemma ProposalIsUpdate(links: Links, source: int, gateways: map<Name, seq<Link>>, g: Name)
    ensures At(Updated(links, source, gateways), Key(source, g)) == Proposal(links, source, gateways, g)
  {
  }

  lemma BreakFound(links: Links, source: int, gateways: map<Name, seq<Link>>, g: Name, h: Name)
    requires g in gateways && h in MULTI_GATEWAY_NAMES && g != h
    requires !Apart(gateways[g], Proposal(links, source, gateways, h))
    ensures BreaksRule(links, source, gateways)
  {
    var others := Proposed(links, source, gateways) - {g};
    if |gateways[g]| == 1 {
      LeadsToShared(gateways[g], Proposal(links, source, gateways, h));
      assert h in others && others[h] == Proposal(links, source, gateways, h);
    }
    assert ViolatesMulti(g, gateways[g], others);
  }

  /** When the instance obeyed the rule, a request passes the check exactly if it still would. */
  lemma CheckIsExact(links: Links, source: int, gateways: map<Name, seq<Link>>)
    requires SourceObeys(links, source) && Usable(source, MULTI_GATEWAY_NAMES, gateways)
    ensures BreaksRule(links, source, gateways) <==> !SourceObeys(Updated(links, source, gateways), source)
  {
    var r := Updated(links, source, gateways);
    if BreaksRule(links, source, gateways) {
      var g :| g in gateways && ViolatesMulti(g, gateways[g], Proposed(links, source, gateways) - {g});
      ViolationBreaks(links, source, gateways, g);
    } else {
      forall g, h | g in MULTI_GATEWAY_NAMES && h in MULTI_GATEWAY_NAMES && g != h
        ensures Apart(At(r, Key(source, g)), At(r, Key(source, h)))
      {
        NoBreakIsApart(links, source, gateways, g, h);
      }
      forall g | g in MULTI_GATEWAY_NAMES ensures |At(r, Key(source, g))| <= 1 {
        if g in gateways { assert !ViolatesMulti(g, gateways[g], Proposed(links, source, gateways) - {g}); }
      }
    }
  }

  lemma ViolationBreaks(links: Links, source: int, gateways: map<Name, seq<Link>>, g: Name)
    requires Usable(source, MULTI_GATEWAY_NAMES, gateways) && g in gateways
    requires ViolatesMulti(g, gateways[g], Proposed(links, source, gateways) - {g})
    ensures !SourceObeys(Updated(links, source, gateways), source)
  {
    var r, others := Updated(links, source, gateways), Proposed(links, source, gateways) - {g};
    assert At(r, Key(source, g)) == gateways[g];
    if |gateways[g]| == 1 {
      var h :| h in others && h != g && LeadsTo(others[h], gateways[g][0].targetInstanceId);
      LeadsToShared(gateways[g], others[h]);
      ProposalIsUpdate(links, source, gateways, h);
      assert !Apart(At(r, Key(source, g)), At(r, Key(source, h)));
    }
  }

  lemma NoBreakIsApart(links: Links, source: int, gateways: map<Name, seq<Link>>, g: Name, h: Name)
    requires SourceObeys(links, source) && !BreaksRule(links, source, gateways)
    requires g in MULTI_GATEWAY_NAMES && h in MULTI_GATEWAY_NAMES && g != h
    ensures Apart(Proposal(links, source, gateways, g), Proposal(links, source, gateways, h))
  {
    var a, b := Proposal(links, source, gateways, g), Proposal(links, source, gateways, h);
    if g in gateways && !Apart(a, b) {
      BreakFound(links, source, gateways, g, h);
    }
    if h in gateways && !Apart(b, a) {
      BreakFound(links, source, gateways, h, g);
    }
  }

  /** A gateway that a request does not name keeps its links, on every instance. */
  lemma OthersUntouched(links: Links, mode: Mode, known: set<int>, request: Request, k: Key)
    requires k.instanceId != request.sourceInstanceId || k.gatewayName !in GatewayNamesFor(mode)
    requires Handle(links, mode, known, request).Accepted?
    ensures var r := Handle(links, mode, known, request).links;
            (k in r <==> k in links) && At(r, k) == At(links, k)
  {
    NormalizedIsUsable(request.sourceInstanceId, GatewayNamesFor(mode), request.gateways);
  }

  lemma UpdateKeepsNoSelfLinks(links: Links, source: int, active: seq<Name>, gateways: map<Name, seq<Link>>)
    requires NoSelfLinks(links) && Named(links) && Usable(source, active, gateways)
    ensures NoSelfLinks(Updated(links, source, gateways)) && Named(Updated(links, source, gateways))
  {
    var r := Updated(links, source, gateways);
    forall k | k in r ensures LeadsElsewhere(k, r[k]) && AllNamed(r[k]) {
      assert r[k] == At(r, k);
    }
  }

  lemma AcceptedConforms(links: Links, mode: Mode, known: set<int>, request: Request)
    requires Conforming(links) && Handle(links, mode, known, request).Accepted?
    ensures Conforming(Handle(links, mode, known, request).links)
  {
    var source, active := request.sourceInstanceId, GatewayNamesFor(mode);
    var gateways := Normalize(source, active, request.gateways).gateways;
    var r := Updated(links, source, gateways);
    NormalizedIsUsable(source, active, request.gateways);
    UpdateKeepsNoSelfLinks(links, source, active, gateways);
    forall s ensures SourceObeys(r, s) {
      if s == source && mode == MultiCluster {
        CheckIsExact(links, source, gateways);
      } else {
        forall g | g in MULTI_GATEWAY_NAMES ensures At(r, Key(s, g)) == At(links, Key(s, g)) {
          NamesAreApart(g);
        }
        assert SourceObeys(links, s);
      }
    }
  }

  /** A request is accepted exactly if it names an instance and gateways that exist and keeps the rule. */
  lemma AcceptedIff(links: Links, mode: Mode, known: set<int>, request: Request)
    requires Conforming(links)
    ensures var source, active := request.sourceInstanceId, GatewayNamesFor(mode);
            var normalized := Normalize(source, active, request.gateways);
            Handle(links, mode, known, request).Accepted? <==>
            && request.gateways != [] && source in known && WellNamed(active, request.gateways)
            && (mode == MultiCluster ==>
                  normalized.Good? && SourceObeys(Updated(links, source, normalized.gateways), source))
  {
    var source, active := request.sourceInstanceId, GatewayNamesFor(mode);
    NormalizeNames(source, active, request.gateways);
    if Normalize(source, active, request.gateways).Good? && mode == MultiCluster {
      NormalizedIsUsable(source, active, request.gateways);
      CheckIsExact(links, source, Normalize(source, active, request.gateways).gateways);
    }
  }

  /** The entry names no gateway of the mode, or one that an earlier entry has named. */
  ghost predicate IsOffence(active: seq<Name>, submitted: seq<Submitted>, i: nat, reason: Refusal) {
    && i < |submitted| && WellNamed(active, submitted[..i])
    && var name := submitted[i].gatewayName;
       if reason == UnknownGateway then name == NO_NAME || name !in active
       else reason == GatewayTwice && name != NO_NAME && name in active && name in NamesOf(submitted[..i])
  }

  /** What is wrong with a request is the first thing that is wrong with it. */
  lemma {:induction false} FirstOffence(source: int, active: seq<Name>, submitted: seq<Submitted>)
    requires Normalize(source, active, submitted).Bad?
    ensures exists i: nat :: IsOffence(active, submitted, i, Normalize(source, active, submitted).reason)
  {
    var n := |submitted| - 1;
    var init := submitted[..n];
    NormalizeNames(source, active, init);
    if Normalize(source, active, init).Bad? {
      FirstOffence(source, active, init);
      var i: nat :| IsOffence(active, init, i, Normalize(source, active, init).reason);
      assert submitted[..i] == init[..i];
      assert IsOffence(active, submitted, i, Normalize(source, active, submitted).reason);
    } else {
      assert IsOffence(active, submitted, n, Normalize(source, active, submitted).reason);
    }
  }

  /** A refusal gives its reason: nothing named, then an unknown instance, then the first bad entry, then the rule. */
  lemma RefusalTells(links: Links, mode: Mode, known: set<int>, request: Request)
    requires Conforming(links) && Handle(links, mode, known, request).Refused?
    ensures match Handle(links, mode, known, request).reason
            case NoGateways => request.gateways == []
            case UnknownInstance => request.gateways != [] && request.sourceInstanceId !in known
            case RuleBroken =>
              && request.gateways != [] && request.sourceInstanceId in known && mode == MultiCluster
              && WellNamed(MULTI_GATEWAY_NAMES, request.gateways)
            case reason =>
              && request.gateways != [] && request.sourceInstanceId in known
              && exists i: nat :: IsOffence(GatewayNamesFor(mode), request.gateways, i, reason)
  {
    var source, active := request.sourceInstanceId, GatewayNamesFor(mode);
    NormalizeNames(source, active, request.gateways);
    if Normalize(source, active, request.gateways).Bad? {
      FirstOffence(source, active, request.gateways);
      var i: nat :| IsOffence(active, request.gateways, i, Normalize(source, active, request.gateways).reason);
    }
  }

  /** One request under the mode and the instances of its moment. */
  datatype Call = Call(mode: Mode, known: set<int>, request: Request)

  function After(links: Links, call: Call): (r: Links) {
    var outcome := Handle(links, call.mode, call.known, call.request);
    if outcome.Accepted? then outcome.links else links
  }

  function Run(links: Links, calls: seq<Call>): (r: Links) {
    if calls == [] then links else After(Run(links, calls[..|calls| - 1]), calls[|calls| - 1])
  }

  /** Whatever requests come under whatever modes, every instance keeps to the rule and to others. */
  lemma {:induction false} RunConforms(links: Links, calls: seq<Call>)
    requires Conforming(links)
    ensures Conforming(Run(links, calls))
  {
    if calls != [] {
      var before, call := Run(links, calls[..|calls| - 1]), calls[|calls| - 1];
      RunConforms(links, calls[..|calls| - 1]);
      if Handle(before, call.mode, call.known, call.request).Accepted? {
        AcceptedConforms(before, call.mode, call.known, call.request);
      }
    }
  }

  /** Requests of one mode leave the links of the other as they are. */
  lemma {:induction false} RunLeavesOtherMode(links: Links, calls: seq<Call>, mode: Mode, k: Key)
    requires k.gatewayName !in GatewayNamesFor(mode)
    requires forall i :: 0 <= i < |calls| ==> calls[i].mode == mode
    ensures At(Run(links, calls), k) == At(links, k) && (k in Run(links, calls) <==> k in links)
  {
    if calls != [] {
      var before, call := Run(links, calls[..|calls| - 1]), calls[|calls| - 1];
      RunLeavesOtherMode(links, calls[..|calls| - 1], mode, k);
      if Handle(before, call.mode, call.known, call.request).Accepted? {
        OthersUntouched(before, call.mode, call.known, call.request, k);
      }
    }
  }
}
