/**
 Linking or unlinking a whole selection of instances on the canvas at one gateway, pair by pair.
 */
module GatewayBulk {
  import opened Sorting
  import opened GatewayLinks
  import opened GatewayEdits

  datatype Planned = Planned(next: Links, refused: seq<Connect>)

  /** One pair of a bulk change. */
  function PlanOne(p: Planned, c: Connect, mode: Mode, connect: bool): (r: Planned) {
    if !connect then p.(next := ApplyDisconnect(p.next, c))
    else if mode == MultiCluster && ViolatesAtAnEnd(p.next, c) then p.(refused := p.refused + [c])
    else p.(next := ApplyConnect(p.next, c))
  }

  function PlanStep(mode: Mode, connect: bool): (Planned, Connect) -> Planned {
    (p: Planned, c: Connect) => PlanOne(p, c, mode, connect)
  }

  function Fold(f: (Planned, Connect) -> Planned, p: Planned, pairs: seq<Connect>): (r: Planned) {
    if pairs == [] then p else f(Fold(f, p, pairs[..|pairs| - 1]), pairs[|pairs| - 1])
  }

  lemma {:induction false} FoldConcat(f: (Planned, Connect) -> Planned, p: Planned, a: seq<Connect>, b: seq<Connect>)
    ensures Fold(f, p, a + b) == Fold(f, Fold(f, p, a), b)
  {
    if b == [] {
      assert a + b == a;
    } else {
      FoldConcat(f, p, a, b[..|b| - 1]);
      assert (a + b)[..|a + b| - 1] == a + b[..|b| - 1];
    }
  }

  function Plan(edits: Links, pairs: seq<Connect>, mode: Mode, connect: bool): (r: Planned) {
    Fold(PlanStep(mode, connect), Planned(edits, []), pairs)
  }

  /** The pairs of one instance with those after it, up to position b. */
  function PairsOf(ids: seq<int>, gateway: Name, a: nat, b: nat): (pairs: seq<Connect>)
    requires a < b <= |ids|
  {
    if b == a + 1 then []
    else PairsOf(ids, gateway, a, b - 1) + [Connect(Key(ids[a], gateway), Key(ids[b - 1], gateway))]
  }

  /** The pairs of the first n instances with those after them. */
  function PairsUpTo(ids: seq<int>, gateway: Name, n: nat): (pairs: seq<Connect>)
    requires n <= |ids|
  {
    if n == 0 then [] else PairsUpTo(ids, gateway, n - 1) + PairsOf(ids, gateway, n - 1, |ids|)
  }

  /** The body of the loops. */
  method PlanPair(p: Planned, c: Connect, mode: Mode, connect: bool) returns (r: Planned)
    ensures r == PlanOne(p, c, mode, connect)
  {
    if !connect { return p.(next := ApplyDisconnect(p.next, c)); }
    var violation := false;
    if mode == MultiCluster { violation := MultiModeViolation(p.next, c); }
    if violation { return p.(refused := p.refused + [c]); }
    return p.(next := ApplyConnect(p.next, c));
  }

  lemma FoldOneMore(f: (Planned, Connect) -> Planned, p: Planned, pairs: seq<Connect>, c: Connect)
    ensures Fold(f, p, pairs + [c]) == f(Fold(f, p, pairs), c)
  {
    assert (pairs + [c])[..|pairs|] == pairs;
  }

  lemma RowOneMore(p: Planned, ids: seq<int>, a: nat, b: nat, gateway: Name, mode: Mode, connect: bool)
    requires a < b < |ids|
    ensures var c := Connect(Key(ids[a], gateway), Key(ids[b], gateway));
            Fold(PlanStep(mode, connect), p, PairsOf(ids, gateway, a, b + 1)) ==
              PlanOne(Fold(PlanStep(mode, connect), p, PairsOf(ids, gateway, a, b)), c, mode, connect)
  {
    FoldOneMore(PlanStep(mode, connect), p, PairsOf(ids, gateway, a, b),
                Connect(Key(ids[a], gateway), Key(ids[b], gateway)));
  }

  /** The inner loop: one instance with each of those after it. */
  method PlanRow(p: Planned, ids: seq<int>, a: nat, gateway: Name, mode: Mode, connect: bool) returns (r: Planned)
    requires a < |ids|
    ensures r == Fold(PlanStep(mode, connect), p, PairsOf(ids, gateway, a, |ids|))
  {
    r := p;
    var b := a + 1;
    while b < |ids|
      invariant a < b <= |ids| && r == Fold(PlanStep(mode, connect), p, PairsOf(ids, gateway, a, b))
    {
      RowOneMore(p, ids, a, b, gateway, mode, connect);
      r := PlanPair(r, Connect(Key(ids[a], gateway), Key(ids[b], gateway)), mode, connect);
      b := b + 1;
    }
  }

  method PlanBulkLink(edits: Links, ids: seq<int>, gateway: Name, mode: Mode, connect: bool) returns (r: Planned)
    ensures r == Plan(edits, PairsUpTo(ids, gateway, |ids|), mode, connect)
    ensures mode == OneGate || !connect ==> r.refused == []
    ensures mode == MultiCluster && connect && Distinct(ids) && gateway != NO_NAME ==>
              LinksOrRefuses(edits, PairsUpTo(ids, gateway, |ids|), r)
  {
    ghost var f := PlanStep(mode, connect);
    r := Planned(edits, []);
    var a := 0;
    while a < |ids|
      invariant 0 <= a <= |ids| && r == Fold(f, Planned(edits, []), PairsUpTo(ids, gateway, a))
    {
      FoldConcat(f, Planned(edits, []), PairsUpTo(ids, gateway, a), PairsOf(ids, gateway, a, |ids|));
      r := PlanRow(r, ids, a, gateway, mode, connect);
      a := a + 1;
    }
    PlanIsSettled(edits, ids, gateway, mode, connect);
  }

  // ---------------------------------------------------------------- which pairs a selection has

  ghost predicate IsPair(ids: seq<int>, gateway: Name, c: Connect, a: int, b: int) {
    0 <= a < b < |ids| && c == Connect(Key(ids[a], gateway), Key(ids[b], gateway))
  }

  lemma {:induction false} PairsOfHas(ids: seq<int>, gateway: Name, a: nat, b: nat, c: Connect)
    requires a < b <= |ids|
    ensures c in PairsOf(ids, gateway, a, b) <==> exists j :: j < b && IsPair(ids, gateway, c, a, j)
  {
    if b > a + 1 {
      PairsOfHas(ids, gateway, a, b - 1, c);
      if c == Connect(Key(ids[a], gateway), Key(ids[b - 1], gateway)) {
        assert IsPair(ids, gateway, c, a, b - 1);
      }
    }
  }

  lemma HasConcat(a: seq<Connect>, b: seq<Connect>, c: Connect)
    ensures c in a + b <==> c in a || c in b
  {
  }

  lemma {:induction false} PairsUpToHas(ids: seq<int>, gateway: Name, n: nat, c: Connect)
    requires n <= |ids|
    ensures c in PairsUpTo(ids, gateway, n) <==> exists i, j :: i < n && IsPair(ids, gateway, c, i, j)
  {
    if n > 0 {
      PairsUpToHas(ids, gateway, n - 1, c);
      PairsOfHas(ids, gateway, n - 1, |ids|, c);
      HasConcat(PairsUpTo(ids, gateway, n - 1), PairsOf(ids, gateway, n - 1, |ids|), c);
      if i, j :| i < n && IsPair(ids, gateway, c, i, j) {
        assert i < n - 1 || i == n - 1;
      }
    }
  }

  /** Every two different selected instances are a pair, one way or the other, and nothing else is. */
  lemma SelectionPairs(ids: seq<int>, gateway: Name, x: int, y: int)
    requires Distinct(ids)
    ensures var pairs := PairsUpTo(ids, gateway, |ids|);
            (Connect(Key(x, gateway), Key(y, gateway)) in pairs || Connect(Key(y, gateway), Key(x, gateway)) in pairs)
            <==> x in ids && y in ids && x != y
  {
    var c, d := Connect(Key(x, gateway), Key(y, gateway)), Connect(Key(y, gateway), Key(x, gateway));
    PairsUpToHas(ids, gateway, |ids|, c);
    PairsUpToHas(ids, gateway, |ids|, d);
    if x in ids && y in ids && x != y {
      var i :| 0 <= i < |ids| && ids[i] == x;
      var j :| 0 <= j < |ids| && ids[j] == y;
      assert if i < j then IsPair(ids, gateway, c, i, j) else IsPair(ids, gateway, d, j, i);
    }
  }

  /** The pairs of a selection join two different instances at the gateway. */
  ghost predicate Proper(pairs: seq<Connect>, gateway: Name) {
    forall i :: 0 <= i < |pairs| ==>
      && pairs[i].source.instanceId != pairs[i].target.instanceId
      && pairs[i].source.gatewayName == gateway == pairs[i].target.gatewayName
  }

  lemma SelectionIsProper(ids: seq<int>, gateway: Name)
    requires Distinct(ids)
    ensures Proper(PairsUpTo(ids, gateway, |ids|), gateway)
  {
    var pairs := PairsUpTo(ids, gateway, |ids|);
    forall i | 0 <= i < |pairs|
      ensures pairs[i].source.instanceId != pairs[i].target.instanceId
      ensures pairs[i].source.gatewayName == gateway == pairs[i].target.gatewayName
    {
      assert pairs[i] in pairs;
      PairsUpToHas(ids, gateway, |ids|, pairs[i]);
    }
  }

  // ---------------------------------------------------------------- what a bulk change does

  /** Symmetric edits stay symmetric. */
  lemma {:induction false} PlanKeepsSymmetry(edits: Links, pairs: seq<Connect>, mode: Mode, connect: bool)
    requires Symmetric(edits)
    ensures Symmetric(Plan(edits, pairs, mode, connect).next)
  {
    if pairs != [] {
      var p, c := Plan(edits, pairs[..|pairs| - 1], mode, connect), pairs[|pairs| - 1];
      PlanKeepsSymmetry(edits, pairs[..|pairs| - 1], mode, connect);
      ConnectKeepsSymmetry(p.next, c);
      DisconnectKeepsSymmetry(p.next, c);
    }
  }

  /** In multi-cluster mode a bulk change keeps the rule at both ends of every link. */
  lemma {:induction false} PlanKeepsOneToOne(edits: Links, pairs: seq<Connect>, connect: bool)
    requires AllOneToOne(edits)
    ensures AllOneToOne(Plan(edits, pairs, MultiCluster, connect).next)
  {
    if pairs != [] {
      var p, c := Plan(edits, pairs[..|pairs| - 1], MultiCluster, connect), pairs[|pairs| - 1];
      PlanKeepsOneToOne(edits, pairs[..|pairs| - 1], connect);
      if !connect {
        DisconnectKeepsOneToOne(p.next, c);
      } else if !ViolatesAtAnEnd(p.next, c) {
        ConnectKeepsOneToOne(p.next, c);
      }
    }
  }

  /** The other ends that the pairs give a key. */
  function OtherEnds(pairs: seq<Connect>, k: Key): (links: set<Link>) {
    if pairs == [] then {}
    else
      var c := pairs[|pairs| - 1];
      OtherEnds(pairs[..|pairs| - 1], k)
      + (if k == c.source then {LinkTo(c.target)} else {}) + (if k == c.target then {LinkTo(c.source)} else {})
  }

  /** In one-gate mode linking adds the missing links of the pairs after the links that were there. */
  lemma {:induction false} LinkingAdds(edits: Links, pairs: seq<Connect>, gateway: Name, k: Key)
    requires Proper(pairs, gateway) && gateway != NO_NAME
    ensures var before, after := At(edits, k), At(Plan(edits, pairs, OneGate, true).next, k);
            && before <= after
            && forall link :: link in after <==> link in before || link in OtherEnds(pairs, k)
  {
    if pairs != [] {
      var init, c := pairs[..|pairs| - 1], pairs[|pairs| - 1];
      LinkingAdds(edits, init, gateway, k);
      var p := Plan(edits, init, OneGate, true);
      forall link ensures link in At(ApplyConnect(p.next, c), k) <==>
                          link in At(p.next, k) || (k == c.source && link == LinkTo(c.target))
                                                || (k == c.target && link == LinkTo(c.source))
      {
        ConnectHas(p.next, c, k, link);
      }
    }
  }

  function WithoutAll(targets: seq<Link>, drops: set<Link>): (r: seq<Link>) {
    if targets == [] then []
    else if targets[|targets| - 1] in drops then WithoutAll(targets[..|targets| - 1], drops)
    else WithoutAll(targets[..|targets| - 1], drops) + [targets[|targets| - 1]]
  }

  lemma {:induction false} WithoutNone(targets: seq<Link>)
    ensures WithoutAll(targets, {}) == targets
  {
    if targets != [] { WithoutNone(targets[..|targets| - 1]); }
  }

  lemma {:induction false} WithoutOneMore(targets: seq<Link>, drops: set<Link>, drop: Link)
    ensures WithoutTarget(WithoutAll(targets, drops), drop) == WithoutAll(targets, drops + {drop})
  {
    if targets != [] {
      var init, last := targets[..|targets| - 1], targets[|targets| - 1];
      WithoutOneMore(init, drops, drop);
      var kept := WithoutAll(init, drops);
      assert (kept + [last])[..|kept|] == kept;
    }
  }

  /** Unlinking removes the links of the pairs, and the others keep their order. */
  lemma {:induction false} UnlinkingRemoves(edits: Links, pairs: seq<Connect>, gateway: Name, mode: Mode, k: Key)
    requires Proper(pairs, gateway)
    ensures At(Plan(edits, pairs, mode, false).next, k) == WithoutAll(At(edits, k), OtherEnds(pairs, k))
  {
    if pairs == [] {
      WithoutNone(At(edits, k));
    } else {
      var init, c := pairs[..|pairs| - 1], pairs[|pairs| - 1];
      UnlinkingRemoves(edits, init, gateway, mode, k);
      var drops := OtherEnds(init, k);
      if k == c.source {
        WithoutOneMore(At(edits, k), drops, LinkTo(c.target));
        assert OtherEnds(pairs, k) == drops + {LinkTo(c.target)};
      } else if k == c.target {
        WithoutOneMore(At(edits, k), drops, LinkTo(c.source));
        assert OtherEnds(pairs, k) == drops + {LinkTo(c.source)};
      } else {
        assert OtherEnds(pairs, k) == drops;
      }
    }
  }

  /** The links that a selection asks for at a key: to every other selected instance. */
  function Selected(ids: seq<int>, gateway: Name, k: Key): (links: set<Link>) {
    if k.gatewayName == gateway && k.instanceId in ids
    then set id | id in ids && id != k.instanceId :: Link(id, gateway)
    else {}
  }

  lemma {:induction false} OtherEndsHas(pairs: seq<Connect>, k: Key, link: Link)
    ensures link in OtherEnds(pairs, k) <==>
            Connect(k, Key(link.targetInstanceId, link.targetGateway)) in pairs
            || Connect(Key(link.targetInstanceId, link.targetGateway), k) in pairs
  {
    if pairs != [] {
      OtherEndsHas(pairs[..|pairs| - 1], k, link);
      assert pairs == pairs[..|pairs| - 1] + [pairs[|pairs| - 1]];
      assert LinkTo(Key(link.targetInstanceId, link.targetGateway)) == link;
    }
  }

  lemma SelectionEnds(ids: seq<int>, gateway: Name, k: Key)
    requires Distinct(ids)
    ensures OtherEnds(PairsUpTo(ids, gateway, |ids|), k) == Selected(ids, gateway, k)
  {
    var pairs := PairsUpTo(ids, gateway, |ids|);
    forall link ensures link in OtherEnds(pairs, k) <==> link in Selected(ids, gateway, k) {
      OtherEndsHas(pairs, k, link);
      var to := Key(link.targetInstanceId, link.targetGateway);
      if k.gatewayName == gateway && link.targetGateway == gateway {
        SelectionPairs(ids, gateway, k.instanceId, link.targetInstanceId);
      } else {
        PairsUpToHas(ids, gateway, |ids|, Connect(k, to));
        PairsUpToHas(ids, gateway, |ids|, Connect(to, k));
      }
    }
  }

  /** In one-gate mode, linking a selection makes every ordered pair present and removes nothing. */
  lemma BulkLinkCompletes(edits: Links, ids: seq<int>, gateway: Name, k: Key)
    requires Distinct(ids) && gateway != NO_NAME
    ensures var next := Plan(edits, PairsUpTo(ids, gateway, |ids|), OneGate, true).next;
            && At(edits, k) <= At(next, k)
            && forall link :: link in At(next, k) <==> link in At(edits, k) || link in Selected(ids, gateway, k)
  {
    SelectionIsProper(ids, gateway);
    LinkingAdds(edits, PairsUpTo(ids, gateway, |ids|), gateway, k);
    SelectionEnds(ids, gateway, k);
  }

  /** Unlinking a selection removes exactly the links between its instances, in either mode. */
  lemma BulkUnlinkRemoves(edits: Links, ids: seq<int>, gateway: Name, mode: Mode, k: Key)
    requires Distinct(ids)
    ensures At(Plan(edits, PairsUpTo(ids, gateway, |ids|), mode, false).next, k)
         == WithoutAll(At(edits, k), Selected(ids, gateway, k))
  {
    SelectionIsProper(ids, gateway);
    UnlinkingRemoves(edits, PairsUpTo(ids, gateway, |ids|), gateway, mode, k);
    SelectionEnds(ids, gateway, k);
  }

  /** Nothing is refused in one-gate mode, or when a selection is unlinked. */
  lemma {:induction false} NothingRefused(edits: Links, pairs: seq<Connect>, mode: Mode, connect: bool)
    requires mode == OneGate || !connect
    ensures Plan(edits, pairs, mode, connect).refused == []
  {
    if pairs != [] { NothingRefused(edits, pairs[..|pairs| - 1], mode, connect); }
  }

  // ---------------------------------------------------------------- linking in multi-cluster mode

  /** The end has no link yet, and no other gateway of its instance leads to the instance of the other end. */
  ghost predicate CanTake(edits: Links, end: Key, to: Key) {
    && At(edits, end) == []
    && forall g: Name, link :: g != end.gatewayName && link in At(edits, Key(end.instanceId, g)) ==>
         link.targetInstanceId != to.instanceId
  }

  ghost predicate BothCanTake(edits: Links, c: Connect) {
    CanTake(edits, c.source, c.target) && CanTake(edits, c.target, c.source)
  }

  predicate LinkedBothWays(edits: Links, c: Connect) {
    LinkTo(c.target) in At(edits, c.source) && LinkTo(c.source) in At(edits, c.target)
  }

  lemma CanTakeIsFree(edits: Links, end: Key, to: Key)
    ensures CanTake(edits, end, to) <==> !EndViolates(edits, end, to)
  {
    EndIsFree(edits, end, to);
    forall g: Name
      ensures LeadsTo(At(edits, Key(end.instanceId, g)), to.instanceId) <==>
              exists link :: link in At(edits, Key(end.instanceId, g)) && link.targetInstanceId == to.instanceId
    {
      LeadsToHas(At(edits, Key(end.instanceId, g)), to.instanceId);
    }
  }

  lemma LeadsToHas(targets: seq<Link>, instanceId: int)
    ensures LeadsTo(targets, instanceId) <==> exists link :: link in targets && link.targetInstanceId == instanceId
  {
    if i :| 0 <= i < |targets| && targets[i].targetInstanceId == instanceId {
      assert targets[i] in targets;
    }
  }

  /** The pair's turn: it is linked, and nothing else changes; or it is refused, and no link changes. */
  ghost predicate TakesTurn(p: Planned, r: Planned, c: Connect) {
    if BothCanTake(p.next, c) then
      && r.refused == p.refused
      && At(r.next, c.source) == [LinkTo(c.target)] && At(r.next, c.target) == [LinkTo(c.source)]
      && forall k :: k != c.source && k != c.target ==> At(r.next, k) == At(p.next, k)
    else
      r.refused == p.refused + [c] && r.next == p.next
  }

  lemma OneTurn(p: Planned, c: Connect)
    requires IsProper(c)
    ensures TakesTurn(p, PlanOne(p, c, MultiCluster, true), c)
  {
    CanTakeIsFree(p.next, c.source, c.target);
    CanTakeIsFree(p.next, c.target, c.source);
    if BothCanTake(p.next, c) {
      var r := ApplyConnect(p.next, c);
      forall k ensures At(r, k) == if k == c.source then [LinkTo(c.target)]
                                   else if k == c.target then [LinkTo(c.source)] else At(p.next, k)
      {
        ConnectEnds(p.next, c, k);
      }
    }
  }

  /**
   When a pair's turn comes, it is refused exactly if an end is taken or another gateway of that end's instance
   already leads to the other instance; the state is the one that the pairs before it have led to.
   */
  lemma RefusedIff(edits: Links, pairs: seq<Connect>, i: nat)
    requires i < |pairs| && IsProper(pairs[i])
    ensures TakesTurn(Plan(edits, pairs[..i], MultiCluster, true), Plan(edits, pairs[..i + 1], MultiCluster, true),
                      pairs[i])
  {
    assert pairs[..i + 1][..i] == pairs[..i];
    OneTurn(Plan(edits, pairs[..i], MultiCluster, true), pairs[i]);
  }

  /** Every pair is refused or linked, links stay as they were, and only links of the pairs are new. */
  ghost predicate LinksOrRefuses(edits: Links, pairs: seq<Connect>, r: Planned) {
    && (forall i :: 0 <= i < |pairs| ==> pairs[i] in r.refused || LinkedBothWays(r.next, pairs[i]))
    && (forall j :: 0 <= j < |r.refused| ==> r.refused[j] in pairs)
    && (forall k, link :: link in At(edits, k) ==> link in At(r.next, k))
    && (forall k, link :: link in At(r.next, k) ==> link in At(edits, k) || link in OtherEnds(pairs, k))
  }

  ghost predicate AllProper(pairs: seq<Connect>) {
    forall i :: 0 <= i < |pairs| ==> IsProper(pairs[i])
  }

  /** No turn takes a link away. */
  lemma TurnKeepsLinks(p: Planned, r: Planned, c: Connect, k: Key, link: Link)
    requires TakesTurn(p, r, c) && link in At(p.next, k)
    ensures link in At(r.next, k)
  {
  }

  lemma TurnAddsItsLink(p: Planned, r: Planned, pairs: seq<Connect>, k: Key, link: Link)
    requires pairs != [] && TakesTurn(p, r, pairs[|pairs| - 1]) && link in At(r.next, k)
    ensures link in At(p.next, k) || link in OtherEnds(pairs, k)
  {
  }

  lemma TurnSettlesPair(p: Planned, r: Planned, c: Connect)
    requires TakesTurn(p, r, c)
    ensures c in r.refused || LinkedBothWays(r.next, c)
    ensures forall d :: d in p.refused ==> d in r.refused
    ensures forall d :: d in r.refused ==> d in p.refused || d == c
  {
  }

  lemma PairsSettled(edits: Links, init: seq<Connect>, c: Connect, p: Planned, r: Planned)
    requires LinksOrRefuses(edits, init, p) && TakesTurn(p, r, c)
    ensures var pairs := init + [c];
            && (forall i :: 0 <= i < |pairs| ==> pairs[i] in r.refused || LinkedBothWays(r.next, pairs[i]))
            && (forall j :: 0 <= j < |r.refused| ==> r.refused[j] in pairs)
  {
    var pairs := init + [c];
    TurnSettlesPair(p, r, c);
    forall i | 0 <= i < |pairs| ensures pairs[i] in r.refused || LinkedBothWays(r.next, pairs[i]) {
      assert i < |init| ==> init[i] == pairs[i];
    }
    forall j | 0 <= j < |r.refused| ensures r.refused[j] in pairs {
      assert r.refused[j] in r.refused;
    }
  }

  lemma OneMoreLinksOrRefuses(edits: Links, init: seq<Connect>, c: Connect, p: Planned, r: Planned)
    requires LinksOrRefuses(edits, init, p) && TakesTurn(p, r, c)
    ensures LinksOrRefuses(edits, init + [c], r)
  {
    var pairs := init + [c];
    PairsSettled(edits, init, c, p, r);
    assert pairs[..|pairs| - 1] == init;
    forall k, link | link in At(edits, k) ensures link in At(r.next, k) { TurnKeepsLinks(p, r, c, k, link); }
    forall k, link | link in At(r.next, k) ensures link in At(edits, k) || link in OtherEnds(pairs, k) {
      TurnAddsItsLink(p, r, pairs, k, link);
    }
  }

  lemma {:induction false} LinkingLinksOrRefuses(edits: Links, pairs: seq<Connect>)
    requires AllProper(pairs)
    ensures LinksOrRefuses(edits, pairs, Plan(edits, pairs, MultiCluster, true))
  {
    if pairs != [] {
      var init, c := pairs[..|pairs| - 1], pairs[|pairs| - 1];
      LinkingLinksOrRefuses(edits, init);
      OneTurn(Plan(edits, init, MultiCluster, true), c);
      OneMoreLinksOrRefuses(edits, init, c, Plan(edits, init, MultiCluster, true),
                            Plan(edits, pairs, MultiCluster, true));
      assert init + [c] == pairs;
    }
  }

  lemma SelectionIsAllProper(ids: seq<int>, gateway: Name)
    requires Distinct(ids) && gateway != NO_NAME
    ensures AllProper(PairsUpTo(ids, gateway, |ids|))
  {
    SelectionIsProper(ids, gateway);
  }

  lemma PlanIsSettled(edits: Links, ids: seq<int>, gateway: Name, mode: Mode, connect: bool)
    ensures var r := Plan(edits, PairsUpTo(ids, gateway, |ids|), mode, connect);
            && (mode == OneGate || !connect ==> r.refused == [])
            && (mode == MultiCluster && connect && Distinct(ids) && gateway != NO_NAME ==>
                  LinksOrRefuses(edits, PairsUpTo(ids, gateway, |ids|), r))
  {
    if mode == OneGate || !connect {
      NothingRefused(edits, PairsUpTo(ids, gateway, |ids|), mode, connect);
    } else if Distinct(ids) && gateway != NO_NAME {
      SelectionIsAllProper(ids, gateway);
      LinkingLinksOrRefuses(edits, PairsUpTo(ids, gateway, |ids|));
    }
  }

  /**
   In multi-cluster mode, linking a selection links or refuses each of its pairs, takes no link away, and adds only
   links between selected instances.
   */
  lemma BulkLinksOrRefuses(edits: Links, ids: seq<int>, gateway: Name)
    requires Distinct(ids) && gateway != NO_NAME
    ensures var pairs := PairsUpTo(ids, gateway, |ids|);
            var r := Plan(edits, pairs, MultiCluster, true);
            && (forall i :: 0 <= i < |pairs| ==> pairs[i] in r.refused || LinkedBothWays(r.next, pairs[i]))
            && (forall j :: 0 <= j < |r.refused| ==> r.refused[j] in pairs)
            && (forall k, link :: link in At(edits, k) ==> link in At(r.next, k))
            && (forall k, link :: link in At(r.next, k) ==>
                  link in At(edits, k) || link in Selected(ids, gateway, k))
  {
    var pairs := PairsUpTo(ids, gateway, |ids|);
    SelectionIsAllProper(ids, gateway);
    LinkingLinksOrRefuses(edits, pairs);
    forall k, link | link in At(Plan(edits, pairs, MultiCluster, true).next, k)
      ensures link in At(edits, k) || link in Selected(ids, gateway, k)
    {
      SelectionEnds(ids, gateway, k);
    }
  }

  lemma TurnKeepsPair(p: Planned, r: Planned, c: Connect, d: Connect)
    requires TakesTurn(p, r, c) && LinkedBothWays(p.next, d)
    ensures LinkedBothWays(r.next, d)
  {
    TurnKeepsLinks(p, r, c, d.source, LinkTo(d.target));
    TurnKeepsLinks(p, r, c, d.target, LinkTo(d.source));
  }

  /** A pair that is linked once stays linked through the turns of the others. */
  lemma {:induction false} PlanGoesOn(edits: Links, pairs: seq<Connect>, i: nat, c: Connect)
    requires AllProper(pairs) && i <= |pairs|
    requires LinkedBothWays(Plan(edits, pairs[..i], MultiCluster, true).next, c)
    ensures LinkedBothWays(Plan(edits, pairs, MultiCluster, true).next, c)
    decreases |pairs|
  {
    if i == |pairs| {
      assert pairs[..i] == pairs;
    } else {
      var init, last := pairs[..|pairs| - 1], pairs[|pairs| - 1];
      assert init[..i] == pairs[..i];
      PlanGoesOn(edits, init, i, c);
      OneTurn(Plan(edits, init, MultiCluster, true), last);
      TurnKeepsPair(Plan(edits, init, MultiCluster, true), Plan(edits, pairs, MultiCluster, true), last, c);
    }
  }

  lemma {:induction false} FirstOfRow(ids: seq<int>, gateway: Name, b: nat)
    requires 2 <= b <= |ids|
    ensures |PairsOf(ids, gateway, 0, b)| > 0
    ensures PairsOf(ids, gateway, 0, b)[0] == Connect(Key(ids[0], gateway), Key(ids[1], gateway))
  {
    if b > 2 { FirstOfRow(ids, gateway, b - 1); }
  }

  lemma {:induction false} FirstOfSelection(ids: seq<int>, gateway: Name, n: nat)
    requires 1 <= n <= |ids| && |ids| >= 2
    ensures |PairsUpTo(ids, gateway, n)| > 0
    ensures PairsUpTo(ids, gateway, n)[0] == Connect(Key(ids[0], gateway), Key(ids[1], gateway))
  {
    if n == 1 {
      FirstOfRow(ids, gateway, |ids|);
      assert PairsUpTo(ids, gateway, 0) == [];
    } else {
      FirstOfSelection(ids, gateway, n - 1);
    }
  }

  ghost predicate NoLinks(edits: Links) {
    forall k :: k in edits ==> edits[k] == []
  }

  lemma NothingIsTaken(edits: Links, c: Connect)
    requires NoLinks(edits)
    ensures BothCanTake(edits, c)
  {
  }

  lemma FirstTurnLinks(edits: Links, pairs: seq<Connect>)
    requires NoLinks(edits) && pairs != [] && IsProper(pairs[0])
    ensures LinkedBothWays(Plan(edits, pairs[..1], MultiCluster, true).next, pairs[0])
  {
    NothingIsTaken(edits, pairs[0]);
    RefusedIff(edits, pairs, 0);
    assert pairs[..0] == [];
  }

  /** Where there are no links yet, the first two selected instances are linked. */
  lemma FirstPairIsLinked(edits: Links, ids: seq<int>, gateway: Name)
    requires Distinct(ids) && gateway != NO_NAME && |ids| >= 2 && NoLinks(edits)
    ensures var next := Plan(edits, PairsUpTo(ids, gateway, |ids|), MultiCluster, true).next;
            && Link(ids[1], gateway) in At(next, Key(ids[0], gateway))
            && Link(ids[0], gateway) in At(next, Key(ids[1], gateway))
  {
    var pairs := PairsUpTo(ids, gateway, |ids|);
    SelectionIsAllProper(ids, gateway);
    FirstOfSelection(ids, gateway, |ids|);
    FirstTurnLinks(edits, pairs);
    PlanGoesOn(edits, pairs, 1, pairs[0]);
  }
}
