/**
 The texts that the canvas makes of endpoints, and the order in which it compares them.
 */
module GatewayText {
  import opened Sorting
  import opened GatewayLinks

  function Digit(d: nat): (c: char)
    requires d < 10
  {
    ['0', '1', '2', '3', '4', '5', '6', '7', '8', '9'][d]
  }

  function Digits(n: nat): (s: string)
    ensures s != [] && (n >= 10 ==> |s| >= 2)
    ensures forall i :: 0 <= i < |s| ==> '0' <= s[i] <= '9'
  {
    if n < 10 then [Digit(n)] else Digits(n / 10) + [Digit(n % 10)]
  }

  function Decimal(i: int): (s: string)
    ensures s != []
    ensures forall k :: 0 <= k < |s| ==> '0' <= s[k] <= '9' || s[k] == '-'
  {
    if i < 0 then "-" + Digits(-i) else Digits(i)
  }

  lemma {:induction false} DigitsInjective(m: nat, n: nat)
    requires Digits(m) == Digits(n)
    ensures m == n
  {
    if m >= 10 && n >= 10 {
      var a, b := Digits(m), Digits(n);
      assert a[..|a| - 1] == Digits(m / 10) && b[..|b| - 1] == Digits(n / 10);
      assert a[|a| - 1] == Digit(m % 10) && b[|b| - 1] == Digit(n % 10);
      DigitsInjective(m / 10, n / 10);
    } else {
      assert |Digits(m)| == |Digits(n)|;
    }
  }

  lemma DecimalInjective(m: int, n: int)
    requires Decimal(m) == Decimal(n)
    ensures m == n
  {
    var a, b := Decimal(m), Decimal(n);
    assert (a[0] == '-' <==> m < 0) && (b[0] == '-' <==> n < 0);
    if m < 0 {
      assert a[1..] == Digits(-m) && b[1..] == Digits(-n);
      DigitsInjective(-m, -n);
    } else {
      DigitsInjective(m, n);
    }
  }

  /** A text up to the first separator and the text after it can be told apart. */
  lemma SplitIsUnique(a: string, b: string, c: string, d: string, separator: char)
    requires separator !in a && separator !in c && a + [separator] + b == c + [separator] + d
    ensures a == c && b == d
  {
    var x, y := a + [separator] + b, c + [separator] + d;
    assert x[|a|] == separator && y[|c|] == separator;
    assert forall k :: 0 <= k < |a| ==> x[k] == a[k] != separator;
    assert forall k :: 0 <= k < |c| ==> y[k] == c[k] != separator;
    assert |a| == |c|;
    assert a == x[..|a|] && c == y[..|c|];
    assert b == x[|a| + 1..] && d == y[|c| + 1..];
  }

  /** The text of an endpoint, also used to compare targets. */
  function EndpointKey(instanceId: int, gateway: Name): (s: string) {
    Decimal(instanceId) + ['/'] + gateway.text
  }

  /** Different endpoints have different texts. */
  lemma EndpointKeyInjective(i: int, g: Name, j: int, h: Name)
    requires EndpointKey(i, g) == EndpointKey(j, h)
    ensures i == j && g == h
  {
    SplitIsUnique(Decimal(i), g.text, Decimal(j), h.text, '/');
    DecimalInjective(i, j);
  }

  /** The order of texts: character by character, a prefix first. */
  predicate TextLe(a: string, b: string) {
    a == [] || (b != [] && (a[0] < b[0] || (a[0] == b[0] && TextLe(a[1..], b[1..]))))
  }

  function TextOrder(): (string, string) -> bool {
    (a: string, b: string) => TextLe(a, b)
  }

  lemma {:induction false} TextLeTotal(a: string, b: string)
    ensures TextLe(a, b) || TextLe(b, a)
    ensures TextLe(a, b) && TextLe(b, a) ==> a == b
  {
    if a != [] && b != [] {
      TextLeTotal(a[1..], b[1..]);
      assert a == [a[0]] + a[1..] && b == [b[0]] + b[1..];
    }
  }

  lemma {:induction false} TextLeTransitive(a: string, b: string, c: string)
    requires TextLe(a, b) && TextLe(b, c)
    ensures TextLe(a, c)
  {
    if a != [] && a[0] == b[0] && b[0] == c[0] { TextLeTransitive(a[1..], b[1..], c[1..]); }
  }

  lemma TextOrderIsTotal()
    ensures TotalPreorder(TextOrder()) && Antisymmetric(TextOrder())
  {
    forall a: string, b: string ensures TextLe(a, b) || TextLe(b, a) { TextLeTotal(a, b); }
    forall a: string, b: string | TextLe(a, b) && TextLe(b, a) ensures a == b { TextLeTotal(a, b); }
    forall a: string, b: string, c: string | TextLe(a, b) && TextLe(b, c) ensures TextLe(a, c) {
      TextLeTransitive(a, b, c);
    }
  }

  function TextOf(link: Link): (s: string) {
    EndpointKey(link.targetInstanceId, link.targetGateway)
  }

  lemma TextOfInjective(a: Link, b: Link)
    ensures TextOf(a) == TextOf(b) <==> a == b
  {
    if TextOf(a) == TextOf(b) {
      EndpointKeyInjective(a.targetInstanceId, a.targetGateway, b.targetInstanceId, b.targetGateway);
    }
  }

  function MapAll<T, U>(f: T -> U, s: seq<T>): (r: seq<U>)
    ensures |r| == |s| && forall i :: 0 <= i < |s| ==> r[i] == f(s[i])
  {
    seq(|s|, i requires 0 <= i < |s| => f(s[i]))
  }

  /** An injective map keeps multiplicities. */
  lemma {:induction false} InjectiveCounts<T(!new), U>(f: T -> U, s: seq<T>, x: T)
    requires forall y :: f(y) == f(x) ==> y == x
    ensures multiset(MapAll(f, s))[f(x)] == multiset(s)[x]
  {
    if s != [] {
      var init, last := s[..|s| - 1], s[|s| - 1];
      InjectiveCounts(f, init, x);
      assert s == init + [last] && MapAll(f, s) == MapAll(f, init) + [f(last)];
    }
  }

  function TextOfLink(): Link -> string {
    (link: Link) => TextOf(link)
  }

  function Encode(links: seq<Link>): (texts: seq<string>) {
    MapAll(TextOfLink(), links)
  }

  /** The client's comparison of two target lists: equally long and equal text by text once sorted. */
  predicate SameTargets(a: seq<Link>, b: seq<Link>) {
    |a| == |b| && Sort(TextOrder(), Encode(a)) == Sort(TextOrder(), Encode(b))
  }

  lemma EncodeCounts(links: seq<Link>, link: Link)
    ensures multiset(Encode(links))[TextOf(link)] == multiset(links)[link]
  {
    forall y | TextOfLink()(y) == TextOfLink()(link) ensures y == link { TextOfInjective(y, link); }
    InjectiveCounts(TextOfLink(), links, link);
  }

  /** It holds exactly when the lists are permutations of each other. */
  lemma SameTargetsIff(a: seq<Link>, b: seq<Link>)
    ensures SameTargets(a, b) <==> multiset(a) == multiset(b)
  {
    SortKeeps(TextOrder(), Encode(a));
    SortKeeps(TextOrder(), Encode(b));
    if multiset(a) == multiset(b) {
      SameEncoding(a, b);
      TextOrderIsTotal();
      SortSorts(TextOrder(), Encode(a));
      SortSorts(TextOrder(), Encode(b));
      SortedIsUnique(TextOrder(), Sort(TextOrder(), Encode(a)), Sort(TextOrder(), Encode(b)));
      assert |a| == |multiset(a)| == |multiset(b)| == |b|;
    }
    if SameTargets(a, b) {
      forall link ensures multiset(a)[link] == multiset(b)[link] {
        EncodeCounts(a, link);
        EncodeCounts(b, link);
      }
    }
  }

  lemma SameEncoding(a: seq<Link>, b: seq<Link>)
    requires multiset(a) == multiset(b)
    ensures multiset(Encode(a)) == multiset(Encode(b))
  {
    forall text ensures multiset(Encode(a))[text] == multiset(Encode(b))[text] {
      if text in Encode(a) {
        var i :| 0 <= i < |a| && Encode(a)[i] == text;
        EncodeCounts(a, a[i]);
        EncodeCounts(b, a[i]);
      } else if text in Encode(b) {
        var i :| 0 <= i < |b| && Encode(b)[i] == text;
        EncodeCounts(a, b[i]);
        EncodeCounts(b, b[i]);
      }
    }
  }
}
