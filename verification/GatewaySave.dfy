/**
 Saving the canvas: the keys that differ from the baseline are sent, one request for each instance, and
 the controller ends up with the edits.
 */
module GatewaySave {
  import opened Wrappers
  import opened Sorting
  import opened GatewayLinks
  import opened GatewayServer
  import opened GatewayController
  import opened GatewayText

  // ---------------------------------------------------------------- loading

  /** Targets as they are loaded; a missing gateway is the one the link starts from. */
  function WithDefaults(targets: seq<Link>, name: Name): (r: seq<Link>)
    ensures |r| == |targets|
    ensures AllNamed(targets) ==> r == targets
  {
    seq(|targets|, i requires 0 <= i < |targets| =>
      if targets[i].targetGateway == NO_NAME then targets[i].(targetGateway := name) else targets[i])
  }

  /** Rows without a gateway name are skipped; a later row of a key replaces an earlier one. */
  function EditsOf(rows: seq<Row>): (edits: Links) {
    if rows == [] then map[]
    else
      var init, row := EditsOf(rows[..|rows| - 1]), rows[|rows| - 1];
      if row.key.gatewayName == NO_NAME then init
      else init[row.key := WithDefaults(row.targets, row.key.gatewayName)]
  }

  method EditsFromLinks(rows: seq<Row>) returns (edits: Links)
    ensures edits == EditsOf(rows)
  {
    edits := map[];
    var i := 0;
    while i < |rows|
      invariant 0 <= i <= |rows| && edits == EditsOf(rows[..i])
    {
      var row := rows[i];
      assert rows[..i + 1][..i] == rows[..i];
      if row.key.gatewayName != NO_NAME {
        edits := edits[row.key := WithDefaults(row.targets, row.key.gatewayName)];
      }
      i := i + 1;
    }
    assert rows[..|rows|] == rows;
  }

  /** The edits say about the active gateways what the links say. */
  ghost predicate Holds(edits: Links, links: Links, active: seq<Name>) {
    forall k: Key :: At(edits, k) == if k.gatewayName in active then At(links, k) else []
  }

  lemma {:induction false} EditsOfHas(rows: seq<Row>, k: Key)
    requires forall i, j :: 0 <= i < j < |rows| ==> rows[i].key != rows[j].key
    requires forall i :: 0 <= i < |rows| ==> rows[i].key.gatewayName != NO_NAME
    ensures k in EditsOf(rows) ==>
              exists i :: 0 <= i < |rows| && rows[i].key == k
                          && EditsOf(rows)[k] == WithDefaults(rows[i].targets, k.gatewayName)
    ensures forall i :: 0 <= i < |rows| ==> rows[i].key in EditsOf(rows)
  {
    if rows != [] {
      var n := |rows| - 1;
      EditsOfHas(rows[..n], k);
      if k in EditsOf(rows[..n]) && k != rows[n].key {
        var i :| 0 <= i < n && rows[..n][i].key == k
              && EditsOf(rows[..n])[k] == WithDefaults(rows[..n][i].targets, k.gatewayName);
        assert rows[i] == rows[..n][i];
      }
      forall i | 0 <= i < |rows| ensures rows[i].key in EditsOf(rows) {
        if i < n { assert rows[..n][i].key in EditsOf(rows[..n]); }
      }
    }
  }

  /** What is loaded is exactly what the controller holds for the active mode. */
  lemma LoadedHolds(rows: seq<Row>, links: Links, mode: Mode)
    requires ListsActive(rows, links, GatewayNamesFor(mode)) && Named(links)
    ensures Holds(EditsOf(rows), links, GatewayNamesFor(mode))
  {
    var edits, active := EditsOf(rows), GatewayNamesFor(mode);
    forall i | 0 <= i < |rows| ensures rows[i].key.gatewayName != NO_NAME { NamesAreApart(rows[i].key.gatewayName); }
    forall k: Key ensures At(edits, k) == if k.gatewayName in active then At(links, k) else [] {
      EditsOfHas(rows, k);
      if k in links && k.gatewayName in active {
        assert Row(k, links[k]) in rows;
        var i :| 0 <= i < |rows| && rows[i] == Row(k, links[k]);
        assert rows[i].key in edits;
      }
    }
  }

  /** The same targets, each missing gateway being the one the link starts from. */
  ghost predicate IsFilled(stored: seq<Link>, loaded: seq<Link>, name: Name) {
    && |loaded| == |stored|
    && forall i :: 0 <= i < |stored| ==>
         loaded[i] == if stored[i].targetGateway == NO_NAME then Link(stored[i].targetInstanceId, name) else stored[i]
  }

  /** Whatever the stored targets are called, the active gateways are loaded with all of them, in order. */
  lemma LoadedFills(rows: seq<Row>, links: Links, mode: Mode, k: Key)
    requires ListsActive(rows, links, GatewayNamesFor(mode))
    ensures if k in links && k.gatewayName in GatewayNamesFor(mode)
            then IsFilled(links[k], At(EditsOf(rows), k), k.gatewayName)
            else At(EditsOf(rows), k) == []
  {
    forall i | 0 <= i < |rows| ensures rows[i].key.gatewayName != NO_NAME { NamesAreApart(rows[i].key.gatewayName); }
    EditsOfHas(rows, k);
    if k in links && k.gatewayName in GatewayNamesFor(mode) {
      var i :| 0 <= i < |rows| && rows[i] == Row(k, links[k]);
      assert rows[i].key in EditsOf(rows);
    }
  }

  // ---------------------------------------------------------------- what is dirty

  /** The targets of the key are not a permutation of the baseline's. */
  ghost predicate Differs(edits: Links, baseline: Links, k: Key) {
    multiset(At(edits, k)) != multiset(At(baseline, k))
  }

  /** Exactly the keys that differ, each once. */
  ghost predicate ListsDirty(dirty: seq<Key>, edits: Links, baseline: Links) {
    Distinct(dirty) && forall k: Key :: k in dirty <==> Differs(edits, baseline, k)
  }

  ghost predicate DirtyBut(dirty: seq<Key>, edits: Links, baseline: Links, left: set<Key>) {
    Distinct(dirty) && forall k: Key :: k in dirty <==> Differs(edits, baseline, k) && k !in left
  }

  lemma DirtyOneMore(dirty: seq<Key>, edits: Links, baseline: Links, left: set<Key>, key: Key)
    requires DirtyBut(dirty, edits, baseline, left) && key in left
    ensures DirtyBut(if Differs(edits, baseline, key) then dirty + [key] else dirty, edits, baseline, left - {key})
  {
    assert key !in dirty;
    forall k: Key ensures k in dirty + [key] <==> k in dirty || k == key { }
  }

  method DirtyKeys(edits: Links, baseline: Links) returns (dirty: seq<Key>)
    ensures ListsDirty(dirty, edits, baseline)
  {
    var left := edits.Keys + baseline.Keys;
    dirty := [];
    while left != {}
      invariant DirtyBut(dirty, edits, baseline, left)
      decreases |left|
    {
      var key :| key in left;
      SameTargetsIff(At(edits, key), At(baseline, key));
      DirtyOneMore(dirty, edits, baseline, left, key);
      if !SameTargets(At(edits, key), At(baseline, key)) { dirty := dirty + [key]; }
      left := left - {key};
    }
  }

  // ---------------------------------------------------------------- what is sent

  /** The targets of a key as they are submitted. */
  function SubmitTargets(targets: seq<Link>, name: Name): (r: seq<Target>) {
    if targets == [] then []
    else
      var last := targets[|targets| - 1];
      SubmitTargets(targets[..|targets| - 1], name)
      + [Target(Some(last.targetInstanceId), if last.targetGateway == NO_NAME then name else last.targetGateway)]
  }

  function Submit(edits: Links, k: Key): (entry: Submitted) {
    Submitted(k.gatewayName, SubmitTargets(At(edits, k), k.gatewayName))
  }

  /** The entries of one instance, in the order of the keys. */
  function GroupOf(edits: Links, keys: seq<Key>, source: int): (group: seq<Submitted>) {
    if keys == [] then []
    else
      var init, k := GroupOf(edits, keys[..|keys| - 1], source), keys[|keys| - 1];
      if k.instanceId == source then init + [Submit(edits, k)] else init
  }

  ghost predicate HasSource(keys: seq<Key>, source: int) {
    exists i :: 0 <= i < |keys| && keys[i].instanceId == source
  }

  /** The groups by instance, and the instances in the order of their first key. */
  ghost predicate Groups(byInstance: map<int, seq<Submitted>>, order: seq<int>, edits: Links, keys: seq<Key>) {
    && (forall source :: source in byInstance <==> HasSource(keys, source))
    && (forall source :: source in byInstance ==> byInstance[source] == GroupOf(edits, keys, source))
    && (forall i, j :: 0 <= i < j < |order| ==> order[i] != order[j])
    && (forall source :: source in order <==> source in byInstance)
  }

  lemma {:induction false} NoGroup(edits: Links, keys: seq<Key>, source: int)
    ensures GroupOf(edits, keys, source) == [] <==> !HasSource(keys, source)
  {
    if keys != [] {
      NoGroup(edits, keys[..|keys| - 1], source);
      HasSourceAppend(keys[..|keys| - 1], keys[|keys| - 1], source);
      assert keys == keys[..|keys| - 1] + [keys[|keys| - 1]];
    }
  }

  lemma HasSourceAppend(keys: seq<Key>, k: Key, source: int)
    ensures HasSource(keys + [k], source) <==> HasSource(keys, source) || k.instanceId == source
  {
    if i :| 0 <= i < |keys| && keys[i].instanceId == source { assert (keys + [k])[i].instanceId == source; }
    assert (keys + [k])[|keys|] == k;
  }

  method GroupByInstance(edits: Links, keys: seq<Key>)
    returns (byInstance: map<int, seq<Submitted>>, order: seq<int>)
    ensures Groups(byInstance, order, edits, keys)
  {
    byInstance, order := map[], [];
    var i := 0;
    while i < |keys|
      invariant 0 <= i <= |keys| && Groups(byInstance, order, edits, keys[..i])
    {
      var k := keys[i];
      var group := if k.instanceId in byInstance then byInstance[k.instanceId] else [];
      GroupsOneMore(byInstance, order, edits, keys[..i], k);
      assert keys[..i + 1] == keys[..i] + [k];
      if k.instanceId !in byInstance { order := order + [k.instanceId]; }
      byInstance := byInstance[k.instanceId := group + [Submit(edits, k)]];
      i := i + 1;
    }
    assert keys[..|keys|] == keys;
  }

  lemma GroupsOneMore(byInstance: map<int, seq<Submitted>>, order: seq<int>, edits: Links, keys: seq<Key>, k: Key)
    requires Groups(byInstance, order, edits, keys)
    ensures var group := if k.instanceId in byInstance then byInstance[k.instanceId] else [];
            Groups(byInstance[k.instanceId := group + [Submit(edits, k)]],
                   if k.instanceId in byInstance then order else order + [k.instanceId], edits, keys + [k])
  {
    NoGroup(edits, keys, k.instanceId);
    assert (keys + [k])[..|keys|] == keys;
    forall source ensures HasSource(keys + [k], source) <==> HasSource(keys, source) || k.instanceId == source {
      HasSourceAppend(keys, k, source);
    }
  }

  // ---------------------------------------------------------------- what the controller makes of it

  lemma {:induction false} SubmittedTargetsReturn(source: int, name: Name, targets: seq<Link>)
    requires LeadsElsewhere(Key(source, name), targets)
    requires AllNamed(targets)
    ensures NormalizeTargets(source, name, SubmitTargets(targets, name)) == targets
  {
    if targets != [] {
      var init, last := targets[..|targets| - 1], targets[|targets| - 1];
      SubmittedTargetsReturn(source, name, init);
      var sent := SubmitTargets(targets, name);
      assert sent[..|sent| - 1] == SubmitTargets(init, name);
    }
  }

  /** A key that can be saved: of the mode, of a known instance, with proper targets. */
  ghost predicate Savable(edits: Links, active: seq<Name>, known: set<int>, k: Key) {
    && k.gatewayName in active && k.gatewayName != NO_NAME && k.instanceId in known
    && LeadsElsewhere(k, At(edits, k))
    && AllNamed(At(edits, k))
  }

  /** The instance's part of the edits, by gateway. */
  ghost predicate IsGroup(edits: Links, keys: seq<Key>, source: int, n: Normalized) {
    && n.Good?
    && (forall g: Name :: g in n.gateways <==> Key(source, g) in keys)
    && (forall g: Name :: g in n.gateways ==> n.gateways[g] == At(edits, Key(source, g)))
  }

  lemma GroupTakesKey(edits: Links, active: seq<Name>, known: set<int>, init: seq<Key>, k: Key)
    requires k !in init && Savable(edits, active, known, k)
    requires IsGroup(edits, init, k.instanceId, Normalize(k.instanceId, active, GroupOf(edits, init, k.instanceId)))
    ensures IsGroup(edits, init + [k], k.instanceId,
                    Normalize(k.instanceId, active, GroupOf(edits, init, k.instanceId) + [Submit(edits, k)]))
  {
    var source, group := k.instanceId, GroupOf(edits, init, k.instanceId);
    assert k == Key(source, k.gatewayName);
    assert (group + [Submit(edits, k)])[..|group|] == group;
    SubmittedTargetsReturn(source, k.gatewayName, At(edits, k));
  }

  /** The group of an instance normalizes to the edits of its keys. */
  lemma {:induction false} GroupNormalizes(edits: Links, active: seq<Name>, known: set<int>, keys: seq<Key>,
                                           source: int)
    requires Distinct(keys) && forall i :: 0 <= i < |keys| ==> Savable(edits, active, known, keys[i])
    ensures IsGroup(edits, keys, source, Normalize(source, active, GroupOf(edits, keys, source)))
  {
    if keys != [] {
      var init, k := keys[..|keys| - 1], keys[|keys| - 1];
      GroupNormalizes(edits, active, known, init, source);
      assert keys == init + [k] && k !in init;
      if k.instanceId == source { GroupTakesKey(edits, active, known, init, k); }
    }
  }

  lemma PermutedObeys(a: Links, b: Links, source: int)
    requires SourceObeys(b, source)
    requires forall g :: g in MULTI_GATEWAY_NAMES ==>
               multiset(At(a, Key(source, g))) == multiset(At(b, Key(source, g)))
    ensures SourceObeys(a, source)
  {
    forall g | g in MULTI_GATEWAY_NAMES ensures |At(a, Key(source, g))| <= 1 {
      assert |multiset(At(a, Key(source, g)))| == |multiset(At(b, Key(source, g)))|;
    }
    forall g, h | g in MULTI_GATEWAY_NAMES && h in MULTI_GATEWAY_NAMES && g != h
      ensures Apart(At(a, Key(source, g)), At(a, Key(source, h)))
    {
      PermutedApart(At(a, Key(source, g)), At(a, Key(source, h)), At(b, Key(source, g)), At(b, Key(source, h)));
    }
  }

  lemma PermutedApart(a: seq<Link>, b: seq<Link>, c: seq<Link>, d: seq<Link>)
    requires Apart(c, d) && multiset(a) == multiset(c) && multiset(b) == multiset(d)
    ensures Apart(a, b)
  {
    forall i, j | 0 <= i < |a| && 0 <= j < |b| ensures a[i].targetInstanceId != b[j].targetInstanceId {
      assert a[i] in multiset(c) && b[j] in multiset(d);
      var x :| 0 <= x < |c| && c[x] == a[i];
      var y :| 0 <= y < |d| && d[y] == b[j];
    }
  }

  /** While saving: the dirty keys of the instances already sent hold the edits, the rest is as it was. */
  ghost predicate Midway(was: Links, now: Links, edits: Links, keys: seq<Key>, sent: seq<int>) {
    forall k: Key :: At(now, k) == if k in keys && k.instanceId in sent then At(edits, k) else At(was, k)
  }

  /** The keys list everything in which the active links differ from the edits. */
  ghost predicate CoversDifference(was: Links, edits: Links, active: seq<Name>, keys: seq<Key>) {
    forall k: Key :: k.gatewayName in active && k !in keys ==> multiset(At(was, k)) == multiset(At(edits, k))
  }

  ghost predicate CanSave(was: Links, mode: Mode, known: set<int>, edits: Links, keys: seq<Key>) {
    && Distinct(keys) && CoversDifference(was, edits, GatewayNamesFor(mode), keys)
    && (forall i :: 0 <= i < |keys| ==> Savable(edits, GatewayNamesFor(mode), known, keys[i]))
    && (mode == MultiCluster ==> forall source :: SourceObeys(edits, source))
  }

  /** The rule cannot be broken by a request that brings an instance to its edits. */
  lemma GroupKeepsRule(was: Links, now: Links, known: set<int>, edits: Links, keys: seq<Key>, sent: seq<int>,
                       source: int, gateways: map<Name, seq<Link>>)
    requires CanSave(was, MultiCluster, known, edits, keys) && Midway(was, now, edits, keys, sent)
    requires IsGroup(edits, keys, source, Good(gateways))
    requires Usable(source, MULTI_GATEWAY_NAMES, gateways)
    ensures !BreaksRule(now, source, gateways)
  {
    var r := Updated(now, source, gateways);
    forall g | g in MULTI_GATEWAY_NAMES
      ensures multiset(At(r, Key(source, g))) == multiset(At(edits, Key(source, g)))
    {
      assert At(r, Key(source, g)) == if g in gateways then gateways[g] else At(was, Key(source, g));
    }
    PermutedObeys(r, edits, source);
    if BreaksRule(now, source, gateways) {
      var g :| g in gateways && ViolatesMulti(g, gateways[g], Proposed(now, source, gateways) - {g});
      ViolationBreaks(now, source, gateways, g);
    }
  }

  /** Its group is not empty and its instance is known. */
  lemma GroupIsWelcome(edits: Links, active: seq<Name>, known: set<int>, keys: seq<Key>, source: int)
    requires HasSource(keys, source) && forall i :: 0 <= i < |keys| ==> Savable(edits, active, known, keys[i])
    ensures GroupOf(edits, keys, source) != [] && source in known
  {
    NoGroup(edits, keys, source);
    var i :| 0 <= i < |keys| && keys[i].instanceId == source;
    assert Savable(edits, active, known, keys[i]);
  }

  lemma WelcomeIsAccepted(now: Links, mode: Mode, known: set<int>, request: Request, gateways: map<Name, seq<Link>>)
    requires request.gateways != [] && request.sourceInstanceId in known
    requires Normalize(request.sourceInstanceId, GatewayNamesFor(mode), request.gateways) == Good(gateways)
    requires mode == MultiCluster ==> !BreaksRule(now, request.sourceInstanceId, gateways)
    ensures Handle(now, mode, known, request) == Accepted(Updated(now, request.sourceInstanceId, gateways))
  {
  }

  /** Sending the group of one more instance is accepted and brings its dirty keys to the edits. */
  lemma GroupIsAccepted(was: Links, now: Links, mode: Mode, known: set<int>, edits: Links, keys: seq<Key>,
                        sent: seq<int>, source: int)
    requires CanSave(was, mode, known, edits, keys) && Midway(was, now, edits, keys, sent)
    requires HasSource(keys, source)
    ensures var outcome := Handle(now, mode, known, Request(source, GroupOf(edits, keys, source)));
            outcome.Accepted? && Midway(was, outcome.links, edits, keys, sent + [source])
  {
    var active := GatewayNamesFor(mode);
    GroupNormalizes(edits, active, known, keys, source);
    GroupIsWelcome(edits, active, known, keys, source);
    var gateways := Normalize(source, active, GroupOf(edits, keys, source)).gateways;
    NormalizedIsUsable(source, active, GroupOf(edits, keys, source));
    if mode == MultiCluster {
      GroupKeepsRule(was, now, known, edits, keys, sent, source, gateways);
    }
    WelcomeIsAccepted(now, mode, known, Request(source, GroupOf(edits, keys, source)), gateways);
    MidwayOneMore(was, now, edits, keys, sent, source, gateways);
  }

  lemma MidwayOneMore(was: Links, now: Links, edits: Links, keys: seq<Key>, sent: seq<int>,
                      source: int, gateways: map<Name, seq<Link>>)
    requires Midway(was, now, edits, keys, sent)
    requires IsGroup(edits, keys, source, Good(gateways))
    ensures Midway(was, Updated(now, source, gateways), edits, keys, sent + [source])
  {
    var r := Updated(now, source, gateways);
    forall k: Key
      ensures At(r, k) == if k in keys && k.instanceId in sent + [source] then At(edits, k) else At(was, k)
    {
      assert k == Key(k.instanceId, k.gatewayName);
      assert k.instanceId in sent + [source] <==> k.instanceId in sent || k.instanceId == source;
    }
  }

  /** Once every instance has been sent, every dirty key holds its edits. */
  ghost predicate AllSaved(was: Links, now: Links, edits: Links, keys: seq<Key>) {
    forall k: Key :: At(now, k) == if k in keys then At(edits, k) else At(was, k)
  }

  lemma AllSent(was: Links, now: Links, edits: Links, keys: seq<Key>, order: seq<int>)
    requires Midway(was, now, edits, keys, order)
    requires forall source :: HasSource(keys, source) ==> source in order
    ensures AllSaved(was, now, edits, keys)
  {
    forall k: Key ensures At(now, k) == if k in keys then At(edits, k) else At(was, k) {
      if k in keys {
        var j :| 0 <= j < |keys| && keys[j] == k;
        assert HasSource(keys, k.instanceId);
      }
    }
  }

  lemma RequestKeepsConforming(links: Links, mode: Mode, known: set<int>, request: Request)
    requires Handle(links, mode, known, request).Accepted?
    ensures Conforming(links) ==> Conforming(Handle(links, mode, known, request).links)
  {
    if Conforming(links) { AcceptedConforms(links, mode, known, request); }
  }

  /** One request of a save. */
  method SendOne(controller: GatewayController, request: Request, mode: Mode, known: set<int>, ghost was: Links,
                 ghost edits: Links, ghost keys: seq<Key>, ghost sent: seq<int>) returns (reply: Reply)
    requires CanSave(was, mode, known, edits, keys) && Midway(was, controller.gatewayLinks, edits, keys, sent)
    requires HasSource(keys, request.sourceInstanceId)
    requires request.gateways == GroupOf(edits, keys, request.sourceInstanceId)
    modifies controller
    ensures reply == Saved && (old(Conforming(controller.gatewayLinks)) ==> Conforming(controller.gatewayLinks))
    ensures Midway(was, controller.gatewayLinks, edits, keys, sent + [request.sourceInstanceId])
  {
    GroupIsAccepted(was, controller.gatewayLinks, mode, known, edits, keys, sent, request.sourceInstanceId);
    RequestKeepsConforming(controller.gatewayLinks, mode, known, request);
    reply := controller.HandleSetGatewayLinkRequest(mode, known, request, true);
  }

  /** How far the requests have come. */
  ghost predicate SentUpTo(was: Links, now: Links, edits: Links, keys: seq<Key>, order: seq<int>, i: nat)
    requires i <= |order|
  {
    Midway(was, now, edits, keys, order[..i]) && (Conforming(was) ==> Conforming(now))
  }

  method SendNext(controller: GatewayController, byInstance: map<int, seq<Submitted>>, order: seq<int>, i: nat,
                  mode: Mode, known: set<int>, ghost was: Links, ghost edits: Links, ghost keys: seq<Key>)
    returns (reply: Reply)
    requires CanSave(was, mode, known, edits, keys) && Groups(byInstance, order, edits, keys)
    requires i < |order| && SentUpTo(was, controller.gatewayLinks, edits, keys, order, i)
    modifies controller
    ensures reply == Saved && SentUpTo(was, controller.gatewayLinks, edits, keys, order, i + 1)
  {
    var source := order[i];
    assert source in order;
    assert order[..i + 1] == order[..i] + [source];
    reply := SendOne(controller, Request(source, byInstance[source]), mode, known, was, edits, keys, order[..i]);
  }

  /** The requests of a save, one after the other. */
  method SendAll(controller: GatewayController, byInstance: map<int, seq<Submitted>>, order: seq<int>,
                 mode: Mode, known: set<int>, ghost edits: Links, ghost keys: seq<Key>) returns (failures: seq<int>)
    requires CanSave(controller.gatewayLinks, mode, known, edits, keys) && Groups(byInstance, order, edits, keys)
    modifies controller
    ensures old(Conforming(controller.gatewayLinks)) ==> Conforming(controller.gatewayLinks)
    ensures failures == [] && Midway(old(controller.gatewayLinks), controller.gatewayLinks, edits, keys, order)
  {
    ghost var was := controller.gatewayLinks;
    failures := [];
    var i := 0;
    while i < |order|
      invariant 0 <= i <= |order| && failures == []
      invariant SentUpTo(was, controller.gatewayLinks, edits, keys, order, i)
    {
      var source := order[i];
      var reply := SendNext(controller, byInstance, order, i, mode, known, was, edits, keys);
      if reply != Saved { failures := failures + [source]; }
      i := i + 1;
    }
    assert order[..|order|] == order;
  }

  /** The controller's active links are the edits up to order, and its other links are as they were. */
  ghost predicate Converged(was: Links, now: Links, edits: Links, active: seq<Name>) {
    && (forall k: Key :: k.gatewayName in active ==> multiset(At(now, k)) == multiset(At(edits, k)))
    && (forall k: Key :: k.gatewayName !in active ==> At(now, k) == At(was, k))
  }

  /** The edits differ from the baseline only in keys that the controller accepts, and they keep the rule. */
  ghost predicate EditsAreProper(edits: Links, baseline: Links, mode: Mode, known: set<int>) {
    && (forall k: Key :: multiset(At(edits, k)) == multiset(At(baseline, k))
                      || Savable(edits, GatewayNamesFor(mode), known, k))
    && (mode == MultiCluster ==> forall source :: SourceObeys(edits, source))
  }

  /**
   A save converges: when the controller holds the baseline and the edits are proper, no request is
   refused, the active links become the edits up to order, and the others stay. What the controller held before
   may break the rule; afterwards it does not.
   */
  method Save(controller: GatewayController, mode: Mode, known: set<int>, edits: Links, baseline: Links)
    returns (failures: seq<int>)
    requires Holds(baseline, controller.gatewayLinks, GatewayNamesFor(mode))
    requires EditsAreProper(edits, baseline, mode, known)
    modifies controller
    ensures failures == []
    ensures Converged(old(controller.gatewayLinks), controller.gatewayLinks, edits, GatewayNamesFor(mode))
    ensures mode == MultiCluster ==> forall source :: SourceObeys(controller.gatewayLinks, source)
    ensures old(Conforming(controller.gatewayLinks)) ==> Conforming(controller.gatewayLinks)
  {
    ghost var was := controller.gatewayLinks;
    var keys := DirtyKeys(edits, baseline);
    DirtyCanBeSaved(was, mode, known, edits, baseline, keys);
    var byInstance, order := GroupByInstance(edits, keys);
    failures := SendAll(controller, byInstance, order, mode, known, edits, keys);
    AllSent(was, controller.gatewayLinks, edits, keys, order);
    SavedConverges(was, controller.gatewayLinks, edits, baseline, mode, keys);
    if mode == MultiCluster { ConvergedObeys(was, controller.gatewayLinks, edits); }
  }

  /** Links that converged to edits which keep the rule keep it, even if they broke it before. */
  lemma ConvergedObeys(was: Links, now: Links, edits: Links)
    requires Converged(was, now, edits, MULTI_GATEWAY_NAMES) && forall source :: SourceObeys(edits, source)
    ensures forall source :: SourceObeys(now, source)
  {
    forall source ensures SourceObeys(now, source) {
      PermutedObeys(now, edits, source);
    }
  }

  lemma DirtyCanBeSaved(was: Links, mode: Mode, known: set<int>, edits: Links, baseline: Links, keys: seq<Key>)
    requires Holds(baseline, was, GatewayNamesFor(mode)) && ListsDirty(keys, edits, baseline)
    requires EditsAreProper(edits, baseline, mode, known)
    ensures CanSave(was, mode, known, edits, keys)
    ensures forall k: Key :: k in keys ==> k.gatewayName in GatewayNamesFor(mode)
  {
    forall i | 0 <= i < |keys| ensures Savable(edits, GatewayNamesFor(mode), known, keys[i]) {
      assert keys[i] in keys;
    }
  }

  lemma SavedConverges(was: Links, now: Links, edits: Links, baseline: Links, mode: Mode, keys: seq<Key>)
    requires Holds(baseline, was, GatewayNamesFor(mode)) && ListsDirty(keys, edits, baseline)
    requires AllSaved(was, now, edits, keys)
    requires forall k: Key :: k in keys ==> k.gatewayName in GatewayNamesFor(mode)
    ensures Converged(was, now, edits, GatewayNamesFor(mode))
  {
  }

  /** After a save that converged, a canvas that loads again finds no dirty key. */
  lemma ReloadIsClean(was: Links, now: Links, edits: Links, mode: Mode, rows: seq<Row>, keys: seq<Key>)
    requires Converged(was, now, edits, GatewayNamesFor(mode)) && Named(now)
    requires forall k: Key :: k.gatewayName !in GatewayNamesFor(mode) ==> At(edits, k) == []
    requires ListsActive(rows, now, GatewayNamesFor(mode)) && ListsDirty(keys, edits, EditsOf(rows))
    ensures forall k :: k !in keys
  {
    LoadedHolds(rows, now, mode);
    forall k: Key ensures k !in keys {
      assert multiset(At(edits, k)) == multiset(At(EditsOf(rows), k));
    }
  }
}
