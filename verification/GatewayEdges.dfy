/**
 The canvas view of the links: one undirected edge for each pair of endpoints, and the use of each gateway.
 */
module GatewayEdges {
  import opened Wrappers
  import opened GatewayLinks
  import opened GatewayText
  import opened GatewayServer

  /** A link with both ends spelled out. */
  datatype Directed = Directed(from: Key, to: Key)

  datatype Edge = Edge(low: Key, high: Key, forward: bool, reverse: bool)

  function TextOfKey(k: Key): (s: string) {
    EndpointKey(k.instanceId, k.gatewayName)
  }

  /** The links of one key; a target without a gateway arrives at the gateway it left from. */
  function LinksFrom(k: Key, targets: seq<Link>): (links: seq<Directed>)
    ensures |links| == |targets|
  {
    seq(|targets|, i requires 0 <= i < |targets| =>
      Directed(k, Key(targets[i].targetInstanceId,
                      if targets[i].targetGateway == NO_NAME then k.gatewayName else targets[i].targetGateway)))
  }

  /** The directed links of the edits, for the order in which their keys come. */
  function DirectedLinks(edits: Links, keys: seq<Key>): (links: seq<Directed>) {
    if keys == [] then []
    else
      var init, k := DirectedLinks(edits, keys[..|keys| - 1]), keys[|keys| - 1];
      if k.gatewayName == NO_NAME then init else init + LinksFrom(k, At(edits, k))
  }

  method CollectLinksFrom(k: Key, targets: seq<Link>) returns (out: seq<Directed>)
    ensures out == LinksFrom(k, targets)
  {
    out := [];
    var i := 0;
    while i < |targets|
      invariant 0 <= i <= |targets| && out == LinksFrom(k, targets)[..i]
    {
      var t := targets[i];
      var gateway := if t.targetGateway == NO_NAME then k.gatewayName else t.targetGateway;
      out := out + [Directed(k, Key(t.targetInstanceId, gateway))];
      i := i + 1;
    }
  }

  method CollectDirectedLinks(edits: Links, keys: seq<Key>) returns (out: seq<Directed>)
    ensures out == DirectedLinks(edits, keys)
  {
    out := [];
    var i := 0;
    while i < |keys|
      invariant 0 <= i <= |keys| && out == DirectedLinks(edits, keys[..i])
    {
      var k := keys[i];
      assert keys[..i + 1][..i] == keys[..i];
      if k.gatewayName != NO_NAME {
        var more := CollectLinksFrom(k, At(edits, k));
        out := out + more;
      }
      i := i + 1;
    }
    assert keys[..|keys|] == keys;
  }

  /** The ends of a link in the order of their texts, and whether that turns it round. */
  function Low(link: Directed): (k: Key) {
    if TextLe(TextOfKey(link.from), TextOfKey(link.to)) then link.from else link.to
  }

  function High(link: Directed): (k: Key) {
    if TextLe(TextOfKey(link.from), TextOfKey(link.to)) then link.to else link.from
  }

  predicate Flipped(link: Directed) {
    !TextLe(TextOfKey(link.from), TextOfKey(link.to))
  }

  datatype EdgeName = EdgeName(text: string)

  function EdgeId(low: Key, high: Key): (id: EdgeName) {
    EdgeName("link:" + (TextOfKey(low) + ['|'] + TextOfKey(high)))
  }

  function IdOf(link: Directed): (id: EdgeName) {
    EdgeId(Low(link), High(link))
  }

  function AddLink(byPair: map<EdgeName, Edge>, link: Directed): (r: map<EdgeName, Edge>) {
    var id := IdOf(link);
    var edge := if id in byPair then byPair[id] else Edge(Low(link), High(link), false, false);
    byPair[id := if Flipped(link) then edge.(reverse := true) else edge.(forward := true)]
  }

  function Edges(links: seq<Directed>): (byPair: map<EdgeName, Edge>) {
    if links == [] then map[] else AddLink(Edges(links[..|links| - 1]), links[|links| - 1])
  }

  method PutEdge(before: map<EdgeName, Edge>, link: Directed) returns (byPair: map<EdgeName, Edge>)
    ensures byPair == AddLink(before, link)
  {
    var flipped := !TextLe(TextOfKey(link.from), TextOfKey(link.to));
    var low := if flipped then link.to else link.from;
    var high := if flipped then link.from else link.to;
    var id := EdgeId(low, high);
    var edge := if id in before then before[id] else Edge(low, high, false, false);
    byPair := before[id := if flipped then edge.(reverse := true) else edge.(forward := true)];
  }

  method BuildEdges(links: seq<Directed>) returns (byPair: map<EdgeName, Edge>)
    ensures byPair == Edges(links)
  {
    byPair := map[];
    var i := 0;
    while i < |links|
      invariant 0 <= i <= |links| && byPair == Edges(links[..i])
    {
      assert links[..i + 1][..i] == links[..i];
      byPair := PutEdge(byPair, links[i]);
      i := i + 1;
    }
    assert links[..|links|] == links;
  }

  // ---------------------------------------------------------------- what the edges say

  /** One of the links has the id and runs, or does not run, against the order of its ends. */
  ghost predicate Goes(links: seq<Directed>, id: EdgeName, flipped: bool) {
    exists i :: 0 <= i < |links| && IdOf(links[i]) == id && Flipped(links[i]) == flipped
  }

  /** One of the links has the id and joins the two endpoints. */
  ghost predicate Joins(links: seq<Directed>, id: EdgeName, low: Key, high: Key) {
    exists i :: 0 <= i < |links| && IdOf(links[i]) == id && Low(links[i]) == low && High(links[i]) == high
  }

  /** The edge has the ends of one link with its id, and the directions of all of them. */
  ghost predicate Sums(links: seq<Directed>, id: EdgeName, edge: Edge) {
    && Joins(links, id, edge.low, edge.high)
    && (edge.forward <==> Goes(links, id, false))
    && (edge.reverse <==> Goes(links, id, true))
  }

  ghost predicate SumsUp(links: seq<Directed>, byPair: map<EdgeName, Edge>) {
    && (forall i :: 0 <= i < |links| ==> IdOf(links[i]) in byPair)
    && (forall id :: id in byPair ==> Sums(links, id, byPair[id]))
  }

  lemma GoesAppend(init: seq<Directed>, last: Directed, id: EdgeName, flipped: bool)
    ensures Goes(init + [last], id, flipped) <==>
            Goes(init, id, flipped) || (IdOf(last) == id && Flipped(last) == flipped)
  {
    var all := init + [last];
    if i :| 0 <= i < |init| && IdOf(init[i]) == id && Flipped(init[i]) == flipped {
      assert all[i] == init[i];
    }
    if IdOf(last) == id && Flipped(last) == flipped {
      assert all[|init|] == last;
    }
  }

  lemma JoinsAppend(init: seq<Directed>, last: Directed, id: EdgeName, low: Key, high: Key)
    ensures Joins(init + [last], id, low, high) <==>
            Joins(init, id, low, high) || (IdOf(last) == id && Low(last) == low && High(last) == high)
  {
    var all := init + [last];
    if i :| 0 <= i < |init| && IdOf(init[i]) == id && Low(init[i]) == low && High(init[i]) == high {
      assert all[i] == init[i];
    }
    if IdOf(last) == id && Low(last) == low && High(last) == high {
      assert all[|init|] == last;
    }
  }

  lemma EdgesAppend(init: seq<Directed>, last: Directed)
    ensures Edges(init + [last]) == AddLink(Edges(init), last)
  {
    assert (init + [last])[..|init|] == init;
  }

  lemma AddLinkSums(init: seq<Directed>, last: Directed, byPair: map<EdgeName, Edge>, id: EdgeName)
    requires SumsUp(init, byPair) && id in AddLink(byPair, last)
    ensures Sums(init + [last], id, AddLink(byPair, last)[id])
  {
    var edge := AddLink(byPair, last)[id];
    GoesAppend(init, last, id, false);
    GoesAppend(init, last, id, true);
    JoinsAppend(init, last, id, edge.low, edge.high);
    if id !in byPair {
      assert !Goes(init, id, false) && !Goes(init, id, true);
    }
  }

  lemma {:induction false} EdgesSumUp(links: seq<Directed>)
    ensures SumsUp(links, Edges(links))
  {
    if links != [] {
      var init, last := links[..|links| - 1], links[|links| - 1];
      assert links == init + [last];
      EdgesSumUp(init);
      EdgesAppend(init, last);
      forall id | id in Edges(links) ensures Sums(links, id, Edges(links)[id]) {
        AddLinkSums(init, last, Edges(init), id);
      }
    }
  }

  /** The directed links that an edge stands for. */
  predicate Shows(edge: Edge, link: Directed) {
    (edge.forward && link == Directed(edge.low, edge.high)) || (edge.reverse && link == Directed(edge.high, edge.low))
  }

  predicate ShownBy(byPair: map<EdgeName, Edge>, link: Directed) {
    exists id :: id in byPair && Shows(byPair[id], link)
  }

  lemma LowHigh(link: Directed)
    ensures TextLe(TextOfKey(Low(link)), TextOfKey(High(link)))
    ensures Flipped(link) ==> link == Directed(High(link), Low(link))
    ensures !Flipped(link) ==> link == Directed(Low(link), High(link))
  {
    TextLeTotal(TextOfKey(link.from), TextOfKey(link.to));
  }

  /** Both directions between two ends are put in the same order. */
  lemma Oriented(low: Key, high: Key)
    requires TextLe(TextOfKey(low), TextOfKey(high))
    ensures Low(Directed(low, high)) == Low(Directed(high, low)) == low
    ensures High(Directed(low, high)) == High(Directed(high, low)) == high
  {
    TextLeTotal(TextOfKey(low), TextOfKey(high));
    if TextOfKey(low) == TextOfKey(high) {
      EndpointKeyInjective(low.instanceId, low.gatewayName, high.instanceId, high.gatewayName);
    }
  }

  /** Every edge has the id of its own ends, which are in order. */
  lemma EdgeIsKeyed(links: seq<Directed>, id: EdgeName)
    requires id in Edges(links)
    ensures var edge := Edges(links)[id];
            id == EdgeId(edge.low, edge.high) && TextLe(TextOfKey(edge.low), TextOfKey(edge.high))
  {
    EdgesSumUp(links);
    var edge := Edges(links)[id];
    assert Sums(links, id, edge);
    var i :| 0 <= i < |links| && IdOf(links[i]) == id && Low(links[i]) == edge.low && High(links[i]) == edge.high;
    LowHigh(links[i]);
  }

  // ---------------------------------------------------------------- when nothing is lost

  /** Links with the same id join the same two endpoints. */
  ghost predicate SamePairs(links: seq<Directed>) {
    forall i, j :: 0 <= i < |links| && 0 <= j < |links| && IdOf(links[i]) == IdOf(links[j]) ==>
      Low(links[i]) == Low(links[j]) && High(links[i]) == High(links[j])
  }

  /** A link that is shown is shown by the edge with its id, which has its ends. */
  lemma ShownByItsEdge(links: seq<Directed>, x: Directed)
    requires ShownBy(Edges(links), x)
    ensures IdOf(x) in Edges(links)
    ensures Edges(links)[IdOf(x)].low == Low(x) && Edges(links)[IdOf(x)].high == High(x)
    ensures Shows(Edges(links)[IdOf(x)], x)
  {
    var id :| id in Edges(links) && Shows(Edges(links)[id], x);
    EdgeIsKeyed(links, id);
    Oriented(Edges(links)[id].low, Edges(links)[id].high);
  }

  lemma AllShownIsSamePairs(links: seq<Directed>)
    requires forall i :: 0 <= i < |links| ==> ShownBy(Edges(links), links[i])
    ensures SamePairs(links)
  {
    forall i, j | 0 <= i < |links| && 0 <= j < |links| && IdOf(links[i]) == IdOf(links[j])
      ensures Low(links[i]) == Low(links[j]) && High(links[i]) == High(links[j])
    {
      ShownByItsEdge(links, links[i]);
      ShownByItsEdge(links, links[j]);
    }
  }

  lemma LinkIsShown(links: seq<Directed>, i: nat)
    requires SamePairs(links) && i < |links|
    ensures ShownBy(Edges(links), links[i])
  {
    var id := IdOf(links[i]);
    EdgesSumUp(links);
    var edge := Edges(links)[id];
    assert Sums(links, id, edge);
    var j :| 0 <= j < |links| && IdOf(links[j]) == id && Low(links[j]) == edge.low && High(links[j]) == edge.high;
    LowHigh(links[i]);
    assert Goes(links, id, Flipped(links[i]));
    assert Shows(edge, links[i]);
  }

  lemma OnlyLinksShown(links: seq<Directed>, x: Directed)
    requires SamePairs(links) && ShownBy(Edges(links), x)
    ensures x in links
  {
    var id :| id in Edges(links) && Shows(Edges(links)[id], x);
    EdgesSumUp(links);
    var edge := Edges(links)[id];
    assert Sums(links, id, edge);
    var j :| 0 <= j < |links| && IdOf(links[j]) == id && Low(links[j]) == edge.low && High(links[j]) == edge.high;
    var reversed := !(edge.forward && x == Directed(edge.low, edge.high));
    assert Goes(links, id, reversed);
    var i :| 0 <= i < |links| && IdOf(links[i]) == id && Flipped(links[i]) == reversed;
    LowHigh(links[i]);
    assert links[i] == x;
  }

  /** Every link is shown. */
  ghost predicate AllShown(links: seq<Directed>) {
    forall i :: 0 <= i < |links| ==> ShownBy(Edges(links), links[i])
  }

  /** The edges stand for the links and for nothing else. */
  ghost predicate ViewIsExact(links: seq<Directed>) {
    forall x :: ShownBy(Edges(links), x) <==> x in links
  }

  /**
   The edges show every link, and equally show every link and nothing else, exactly if links with the same id
   join the same two endpoints.
   */
  lemma EdgesAreExactIff(links: seq<Directed>)
    ensures AllShown(links) <==> SamePairs(links)
    ensures ViewIsExact(links) <==> SamePairs(links)
  {
    if ViewIsExact(links) {
      forall i | 0 <= i < |links| ensures ShownBy(Edges(links), links[i]) { assert links[i] in links; }
    }
    if AllShown(links) { AllShownIsSamePairs(links); }
    if SamePairs(links) {
      forall i | 0 <= i < |links| ensures ShownBy(Edges(links), links[i]) { LinkIsShown(links, i); }
      forall x ensures ShownBy(Edges(links), x) <==> x in links {
        if ShownBy(Edges(links), x) { OnlyLinksShown(links, x); }
      }
    }
  }

  /** No two edges join the same two endpoints. */
  lemma OneEdgeForEachPair(links: seq<Directed>, i: EdgeName, j: EdgeName)
    requires i in Edges(links) && j in Edges(links)
    requires {Edges(links)[i].low, Edges(links)[i].high} == {Edges(links)[j].low, Edges(links)[j].high}
    ensures i == j
  {
    EdgeIsKeyed(links, i);
    EdgeIsKeyed(links, j);
    var e, f := Edges(links)[i], Edges(links)[j];
    assert e.low in {f.low, f.high} && e.high in {f.low, f.high};
    assert f.low in {e.low, e.high} && f.high in {e.low, e.high};
    if e.low != f.low {
      TextLeTotal(TextOfKey(e.low), TextOfKey(e.high));
      EndpointKeyInjective(e.low.instanceId, e.low.gatewayName, e.high.instanceId, e.high.gatewayName);
    }
  }

  // ---------------------------------------------------------------- names that make it so

  predicate NoBar(k: Key) {
    '|' !in k.gatewayName.text
  }

  /** The gateways of both modes have names without the separator. */
  lemma ProgramNamesHaveNoBar(k: Key)
    requires k.gatewayName in MULTI_GATEWAY_NAMES || k.gatewayName in ONE_GATE_NAMES
    ensures NoBar(k)
  {
    var text := k.gatewayName.text;
    forall i | 0 <= i < |text| ensures text[i] != '|' {
      assert text in {"surfexp_gateway_1", "surfexp_gateway_2", "surfexp_gateway_3", "surfexp_gateway_4",
                      "surfexp_gateway_hub"};
    }
  }

  lemma TextHasNoBar(k: Key)
    requires NoBar(k)
    ensures '|' !in TextOfKey(k)
  {
    var digits := Decimal(k.instanceId);
    assert TextOfKey(k) == digits + ['/'] + k.gatewayName.text;
    assert '|' !in digits;
  }

  /** Edges of different pairs have different ids when the lower ends have no separator in their names. */
  lemma EdgeIdInjective(a: Key, b: Key, c: Key, d: Key)
    requires NoBar(a) && NoBar(c) && EdgeId(a, b) == EdgeId(c, d)
    ensures a == c && b == d
  {
    TextHasNoBar(a);
    TextHasNoBar(c);
    assert EdgeId(a, b).text[5..] == TextOfKey(a) + ['|'] + TextOfKey(b);
    assert EdgeId(c, d).text[5..] == TextOfKey(c) + ['|'] + TextOfKey(d);
    SplitIsUnique(TextOfKey(a), TextOfKey(b), TextOfKey(c), TextOfKey(d), '|');
    EndpointKeyInjective(a.instanceId, a.gatewayName, c.instanceId, c.gatewayName);
    EndpointKeyInjective(b.instanceId, b.gatewayName, d.instanceId, d.gatewayName);
  }

  /** It is enough that the lower end of every link has no separator in its name. */
  lemma PlainLowEndsLoseNothing(links: seq<Directed>)
    requires forall i :: 0 <= i < |links| ==> NoBar(Low(links[i]))
    ensures ViewIsExact(links)
  {
    forall i, j | 0 <= i < |links| && 0 <= j < |links| && IdOf(links[i]) == IdOf(links[j])
      ensures Low(links[i]) == Low(links[j]) && High(links[i]) == High(links[j])
    {
      EdgeIdInjective(Low(links[i]), High(links[i]), Low(links[j]), High(links[j]));
    }
    EdgesAreExactIff(links);
  }

  // ---------------------------------------------------------------- names that do not

  /** Gateway 1 of the first instance leads to a gateway whose name the controller does not check. */
  const FIRST := Directed(Key(1, MULTI_GATEWAY_NAMES[0]), Key(2, Name("x|3/surfexp_gateway_2")))

  /** So does gateway 2 of the third instance. */
  const SECOND := Directed(Key(3, MULTI_GATEWAY_NAMES[1]), Key(1, Name("surfexp_gateway_1|2/x")))

  lemma DigitTexts()
    ensures Decimal(1) == "1" && Decimal(2) == "2" && Decimal(3) == "3"
  {
  }

  lemma FirstTexts()
    ensures TextOfKey(FIRST.from) == "1/surfexp_gateway_1"
    ensures TextOfKey(FIRST.to) == "2/x" + ['|'] + "3/surfexp_gateway_2"
  {
    DigitTexts();
    assert "x|3/surfexp_gateway_2" == "x" + ['|'] + "3/surfexp_gateway_2";
  }

  lemma SecondName()
    ensures "surfexp_gateway_1|2/x" == "surfexp_gateway_1" + ['|'] + "2/x"
  {
  }

  lemma KeepsSeparator(a: string, name: string, rest: string)
    ensures a + (name + ['|'] + rest) == (a + name) + ['|'] + rest
  {
  }

  lemma SecondTexts()
    ensures TextOfKey(SECOND.from) == "3/surfexp_gateway_2"
    ensures TextOfKey(SECOND.to) == "1/surfexp_gateway_1" + ['|'] + "2/x"
  {
    DigitTexts();
    SecondName();
    KeepsSeparator("1" + ['/'], "surfexp_gateway_1", "2/x");
  }

  /** Two ways of cutting the same text at a separator. */
  lemma CutTwice(a: string, m: string, c: string)
    ensures a + ['|'] + (m + ['|'] + c) == (a + ['|'] + m) + ['|'] + c
  {
  }

  lemma FirstCharsDecide(a: string, b: string)
    requires a != [] && b != [] && a[0] < b[0]
    ensures TextLe(a, b) && !TextLe(b, a)
  {
  }

  lemma SharedId()
    ensures IdOf(FIRST) == IdOf(SECOND)
    ensures Low(FIRST) == FIRST.from && Low(SECOND) == SECOND.to && High(SECOND) == SECOND.from
    ensures !Flipped(FIRST) && Flipped(SECOND)
  {
    FirstTexts();
    SecondTexts();
    FirstCharsDecide(TextOfKey(FIRST.from), TextOfKey(FIRST.to));
    FirstCharsDecide(TextOfKey(SECOND.to), TextOfKey(SECOND.from));
    CutTwice("1/surfexp_gateway_1", "2/x", "3/surfexp_gateway_2");
  }

  /** The two links share an id: the second is hidden, and the way back of the first, which is no link, is shown. */
  lemma BarsHideALink()
    ensures !SamePairs([FIRST, SECOND])
    ensures !ShownBy(Edges([FIRST, SECOND]), SECOND)
    ensures ShownBy(Edges([FIRST, SECOND]), Directed(FIRST.to, FIRST.from))
    ensures Directed(FIRST.to, FIRST.from) !in [FIRST, SECOND]
  {
    SharedId();
    var links, id := [FIRST, SECOND], IdOf(FIRST);
    assert links[..1] == [FIRST] && [FIRST][..0] == [];
    assert Edges([FIRST]) == AddLink(map[], FIRST) == map[id := Edge(FIRST.from, FIRST.to, true, false)];
    assert Edges(links) == AddLink(Edges([FIRST]), SECOND) == map[id := Edge(FIRST.from, FIRST.to, true, true)];
    assert Shows(Edges(links)[id], Directed(FIRST.to, FIRST.from));
    assert IdOf(links[0]) == IdOf(links[1]) && Low(links[0]) != Low(links[1]);
  }

  function LinkOf(link: Directed): (target: Link) {
    Link(link.to.instanceId, link.to.gatewayName)
  }

  /** The request that gives one gateway one target. */
  function Naming(link: Directed): (request: Request) {
    Request(link.from.instanceId,
            [Submitted(link.from.gatewayName, [Target(Some(link.to.instanceId), link.to.gatewayName)])])
  }

  lemma OneTarget(source: int, name: Name, target: Target)
    requires target.instanceId.Some? && target.instanceId.value != source && target.gateway != NO_NAME
    ensures NormalizeTargets(source, name, [target]) == [Link(target.instanceId.value, target.gateway)]
  {
    assert [target][..0] == [];
    assert NormalizeTargets(source, name, []) == [];
  }

  lemma OneGateway(source: int, active: seq<Name>, entry: Submitted)
    requires entry.gatewayName != NO_NAME && entry.gatewayName in active
    ensures Normalize(source, active, [entry])
         == Good(map[entry.gatewayName := NormalizeTargets(source, entry.gatewayName, entry.targets)])
  {
    assert [entry][..0] == [];
    assert Normalize(source, active, []) == Good(map[]);
  }

  lemma NamingIsNormalized(link: Directed)
    requires link.from.gatewayName in MULTI_GATEWAY_NAMES && link.to.gatewayName != NO_NAME
    requires link.from.instanceId != link.to.instanceId
    ensures Normalize(link.from.instanceId, MULTI_GATEWAY_NAMES, Naming(link).gateways)
         == Good(map[link.from.gatewayName := [LinkOf(link)]])
  {
    var target := Target(Some(link.to.instanceId), link.to.gatewayName);
    NamesAreApart(link.from.gatewayName);
    OneTarget(link.from.instanceId, link.from.gatewayName, target);
    OneGateway(link.from.instanceId, MULTI_GATEWAY_NAMES, Submitted(link.from.gatewayName, [target]));
  }

  lemma FirstLinkIsStored(links: Links, link: Directed, gateways: map<Name, seq<Link>>)
    requires gateways == map[link.from.gatewayName := [LinkOf(link)]]
    requires forall k :: k in links ==> k.instanceId != link.from.instanceId
    ensures Updated(links, link.from.instanceId, gateways) == links[link.from := [LinkOf(link)]]
  {
    var r := Updated(links, link.from.instanceId, gateways);
    forall k ensures (k in r <==> k in links || k == link.from) && (k in r ==> r[k] == At(r, k)) {
      if k.instanceId == link.from.instanceId && k.gatewayName in gateways {
        assert k == link.from && At(r, k) == [LinkOf(link)];
      }
    }
  }

  /** The first link of an instance is accepted, whatever the gateway at its other end is called. */
  lemma FirstLinkIsAccepted(links: Links, known: set<int>, link: Directed)
    requires link.from.gatewayName in MULTI_GATEWAY_NAMES && link.to.gatewayName != NO_NAME
    requires link.from.instanceId != link.to.instanceId && link.from.instanceId in known
    requires forall k :: k in links ==> k.instanceId != link.from.instanceId
    ensures Handle(links, MultiCluster, known, Naming(link)) == Accepted(links[link.from := [LinkOf(link)]])
  {
    var source := link.from.instanceId;
    var gateways := map[link.from.gatewayName := [LinkOf(link)]];
    NamingIsNormalized(link);
    assert Proposed(links, source, gateways) - {link.from.gatewayName} == map[];
    assert !BreaksRule(links, source, gateways);
    FirstLinkIsStored(links, link, gateways);
  }

  /** Every key of the edits comes once. */
  ghost predicate Enumerates(keys: seq<Key>, edits: Links) {
    && (forall k :: k in keys <==> k in edits)
    && (forall i, j :: 0 <= i < j < |keys| ==> keys[i] != keys[j])
  }

  /** The link leads to this end; a missing gateway is the one it leaves from. */
  predicate Arrives(link: Link, from: Key, to: Key) {
    && to.instanceId == link.targetInstanceId
    && to.gatewayName == if link.targetGateway == NO_NAME then from.gatewayName else link.targetGateway
  }

  /** One of the targets of its key arrives at its other end. */
  predicate IsLinkOf(edits: Links, x: Directed) {
    exists link :: link in At(edits, x.from) && Arrives(link, x.from, x.to)
  }

  lemma LinksFromHas(k: Key, targets: seq<Link>, x: Directed)
    ensures x in LinksFrom(k, targets) <==> x.from == k && exists link :: link in targets && Arrives(link, k, x.to)
  {
    var links := LinksFrom(k, targets);
    if x in links {
      var i :| 0 <= i < |links| && links[i] == x;
      assert targets[i] in targets && Arrives(targets[i], k, x.to);
    }
    if x.from == k && exists link :: link in targets && Arrives(link, k, x.to) {
      var link :| link in targets && Arrives(link, k, x.to);
      var i :| 0 <= i < |targets| && targets[i] == link;
      assert links[i] == x;
    }
  }

  /** The directed links are those of the keys that have a gateway name. */
  lemma {:induction false} DirectedLinksHas(edits: Links, keys: seq<Key>, x: Directed)
    ensures x in DirectedLinks(edits, keys) <==> x.from in keys && x.from.gatewayName != NO_NAME && IsLinkOf(edits, x)
  {
    if keys != [] {
      var k := keys[|keys| - 1];
      DirectedLinksHas(edits, keys[..|keys| - 1], x);
      assert keys == keys[..|keys| - 1] + [k];
      LinksFromHas(k, At(edits, k), x);
    }
  }

  /** The edges of the edits show the directed links exactly if no two of them share an id by accident. */
  lemma EdgeViewIsExact(edits: Links, keys: seq<Key>)
    requires Enumerates(keys, edits)
    ensures (forall x :: ShownBy(Edges(DirectedLinks(edits, keys)), x) <==>
                         x.from in edits && x.from.gatewayName != NO_NAME && IsLinkOf(edits, x))
       <==> SamePairs(DirectedLinks(edits, keys))
  {
    var links := DirectedLinks(edits, keys);
    forall x ensures x in links <==> x.from in edits && x.from.gatewayName != NO_NAME && IsLinkOf(edits, x) {
      DirectedLinksHas(edits, keys, x);
    }
    EdgesAreExactIff(links);
  }

  /** The keys are gateways of the program, as everything that is loaded or set has; so are the named targets. */
  ghost predicate NamesProgramGateways(edits: Links) {
    forall k :: k in edits ==> IsProgramName(k.gatewayName) && TargetsProgramGateways(edits[k])
  }

  predicate IsProgramName(name: Name) {
    name in MULTI_GATEWAY_NAMES || name in ONE_GATE_NAMES
  }

  ghost predicate TargetsProgramGateways(targets: seq<Link>) {
    forall i :: 0 <= i < |targets| ==> targets[i].targetGateway == NO_NAME || IsProgramName(targets[i].targetGateway)
  }

  /** It is so when every target too is a gateway of the program, which nobody checks. */
  lemma ProgramTargetsLoseNothing(edits: Links, keys: seq<Key>)
    requires Enumerates(keys, edits) && NamesProgramGateways(edits)
    ensures ViewIsExact(DirectedLinks(edits, keys))
  {
    var links := DirectedLinks(edits, keys);
    forall i | 0 <= i < |links| ensures NoBar(Low(links[i])) {
      assert links[i] in links;
      DirectedLinksHas(edits, keys, links[i]);
      ProgramNamesHaveNoBar(links[i].from);
      ProgramNamesHaveNoBar(links[i].to);
    }
    PlainLowEndsLoseNothing(links);
  }

  const KNOWN: set<int> := {1, 2, 3}

  const REQUESTS: seq<Call> := [Call(MultiCluster, KNOWN, Naming(FIRST)), Call(MultiCluster, KNOWN, Naming(SECOND))]

  const STORED: Links := map[FIRST.from := [LinkOf(FIRST)], SECOND.from := [LinkOf(SECOND)]]

  lemma BothAreAccepted()
    ensures Run(map[], REQUESTS) == STORED
  {
    var none: Links := map[];
    FirstLinkIsAccepted(none, KNOWN, FIRST);
    var one: Links := none[FIRST.from := [LinkOf(FIRST)]];
    FirstLinkIsAccepted(one, KNOWN, SECOND);
    assert REQUESTS[..1] == [REQUESTS[0]] && REQUESTS[..1][..0] == [];
    assert Run(none, []) == none;
    assert Run(none, REQUESTS[..1]) == After(none, REQUESTS[0]) == one;
    assert one[SECOND.from := [LinkOf(SECOND)]] == STORED;
  }

  lemma StoredLinks()
    ensures DirectedLinks(STORED, [FIRST.from, SECOND.from]) == [FIRST, SECOND]
  {
    var keys := [FIRST.from, SECOND.from];
    assert keys[..1] == [FIRST.from] && keys[..1][..0] == [];
    assert LinksFrom(FIRST.from, [LinkOf(FIRST)]) == [FIRST] && LinksFrom(SECOND.from, [LinkOf(SECOND)]) == [SECOND];
    NamesAreApart(FIRST.from.gatewayName);
    NamesAreApart(SECOND.from.gatewayName);
    assert DirectedLinks(STORED, []) == [];
    assert DirectedLinks(STORED, [FIRST.from]) == [] + [FIRST];
    assert DirectedLinks(STORED, keys) == [FIRST] + [SECOND];
  }

  /**
   Two requests that the controller accepts leave it with two links of which the view hides one, and the view
   shows a link that nobody made.
   */
  lemma AcceptedLinksCanBeHidden()
    ensures var links := DirectedLinks(Run(map[], REQUESTS), [FIRST.from, SECOND.from]);
            && links == [FIRST, SECOND] && !ShownBy(Edges(links), SECOND)
            && ShownBy(Edges(links), Directed(FIRST.to, FIRST.from)) && Directed(FIRST.to, FIRST.from) !in links
  {
    BothAreAccepted();
    StoredLinks();
    BarsHideALink();
  }

  // ---------------------------------------------------------------- use of the gateways

  datatype Usage = Usage(outgoing: nat, incoming: nat)

  type Uses = map<int, map<Name, Usage>>

  function UsageAt(uses: Uses, k: Key): (u: Usage) {
    if k.instanceId in uses && k.gatewayName in uses[k.instanceId] then uses[k.instanceId][k.gatewayName]
    else Usage(0, 0)
  }

  function Outgoing(links: seq<Directed>, k: Key): (n: nat) {
    if links == [] then 0
    else Outgoing(links[..|links| - 1], k) + (if links[|links| - 1].from == k then 1 else 0)
  }

  function Incoming(links: seq<Directed>, k: Key): (n: nat) {
    if links == [] then 0
    else Incoming(links[..|links| - 1], k) + (if links[|links| - 1].to == k then 1 else 0)
  }

  function Put(uses: Uses, k: Key, u: Usage): (r: Uses)
    ensures forall x: Key :: UsageAt(r, x) == if x == k then u else UsageAt(uses, x)
  {
    var perInstance := if k.instanceId in uses then uses[k.instanceId] else map[];
    var r := uses[k.instanceId := perInstance[k.gatewayName := u]];
    assert forall x: Key :: x.instanceId == k.instanceId && x.gatewayName == k.gatewayName ==> x == k;
    r
  }

  /** Each gateway is charged with the links that leave it and the links that arrive at it. */
  method GatewayUsage(links: seq<Directed>) returns (uses: Uses)
    ensures forall k: Key :: UsageAt(uses, k) == Usage(Outgoing(links, k), Incoming(links, k))
  {
    uses := map[];
    var i := 0;
    while i < |links|
      invariant 0 <= i <= |links|
      invariant forall k: Key :: UsageAt(uses, k) == Usage(Outgoing(links[..i], k), Incoming(links[..i], k))
    {
      var link := links[i];
      assert links[..i + 1][..i] == links[..i];
      var out := UsageAt(uses, link.from);
      uses := Put(uses, link.from, out.(outgoing := out.outgoing + 1));
      var into := UsageAt(uses, link.to);
      uses := Put(uses, link.to, into.(incoming := into.incoming + 1));
      i := i + 1;
    }
    assert links[..|links|] == links;
  }

  function SumOutgoing(links: seq<Directed>, keys: seq<Key>): (n: nat) {
    if keys == [] then 0 else SumOutgoing(links, keys[..|keys| - 1]) + Outgoing(links, keys[|keys| - 1])
  }

  function SumIncoming(links: seq<Directed>, keys: seq<Key>): (n: nat) {
    if keys == [] then 0 else SumIncoming(links, keys[..|keys| - 1]) + Incoming(links, keys[|keys| - 1])
  }

  lemma {:induction false} SumsOfNothing(keys: seq<Key>)
    ensures SumOutgoing([], keys) == 0 && SumIncoming([], keys) == 0
  {
    if keys != [] { SumsOfNothing(keys[..|keys| - 1]); }
  }

  /** A further link counts once in each sum, where its end is listed. */
  lemma {:induction false} SumsGrow(links: seq<Directed>, link: Directed, keys: seq<Key>)
    requires forall i, j :: 0 <= i < j < |keys| ==> keys[i] != keys[j]
    ensures SumOutgoing(links + [link], keys) == SumOutgoing(links, keys) + (if link.from in keys then 1 else 0)
    ensures SumIncoming(links + [link], keys) == SumIncoming(links, keys) + (if link.to in keys then 1 else 0)
  {
    if keys != [] {
      var init, k := keys[..|keys| - 1], keys[|keys| - 1];
      SumsGrow(links, link, init);
      assert (links + [link])[..|links|] == links;
      assert keys == init + [k] && k !in init;
    }
  }

  /** Over all endpoints, as many links leave as arrive: each of them once. */
  lemma {:induction false} UsageTotals(links: seq<Directed>, keys: seq<Key>)
    requires forall i, j :: 0 <= i < j < |keys| ==> keys[i] != keys[j]
    requires forall i :: 0 <= i < |links| ==> links[i].from in keys && links[i].to in keys
    ensures SumOutgoing(links, keys) == SumIncoming(links, keys) == |links|
  {
    if links == [] {
      SumsOfNothing(keys);
    } else {
      var init, last := links[..|links| - 1], links[|links| - 1];
      UsageTotals(init, keys);
      SumsGrow(init, last, keys);
      assert links == init + [last];
    }
  }
}
