/** The string a replica hashes when it checkpoints its balances: `{name: amount, name: amount}`,
    names in ascending order. */
module CheckpointText {
  import opened Accounts
  import opened Quorum

  // ---- Names in std::map order ----

  /** Lexicographic order on strings, reflexive. */
  predicate Below(a: string, b: string) {
    a == [] || (b != [] && (a[0] < b[0] || (a[0] == b[0] && Below(a[1..], b[1..]))))
  }

  lemma {:induction false} BelowAntisymmetric(a: string, b: string)
    requires Below(a, b) && Below(b, a)
    ensures a == b
  {
    if a != [] && b != [] {
      BelowAntisymmetric(a[1..], b[1..]);
      assert a == [a[0]] + a[1..] && b == [b[0]] + b[1..];
    }
  }

  lemma {:induction false} BelowTotal(a: string, b: string)
    ensures Below(a, b) || Below(b, a)
  {
    if a != [] && b != [] {
      BelowTotal(a[1..], b[1..]);
    }
  }

  lemma {:induction false} BelowTransitive(a: string, b: string, c: string)
    requires Below(a, b) && Below(b, c)
    ensures Below(a, c)
  {
    if a != [] && a[0] == b[0] && b[0] == c[0] {
      BelowTransitive(a[1..], b[1..], c[1..]);
    }
  }

  predicate IsFirst(x: string, s: set<string>) {
    x in s && forall y | y in s :: Below(x, y)
  }

  lemma {:induction false} FirstExists(s: set<string>)
    requires s != {}
    ensures exists x :: IsFirst(x, s)
  {
    var x := Pick(s);
    BelowTotal(x, x);
    if s == {x} {
      assert IsFirst(x, s);
    } else {
      FirstExists(s - {x});
      var m :| IsFirst(m, s - {x});
      BelowTotal(x, m);
      var least := if Below(x, m) then x else m;
      forall y | y in s
        ensures Below(least, y)
      {
        if y != x && Below(x, m) {
          BelowTransitive(x, m, y);
        }
      }
      assert IsFirst(least, s);
    }
  }

  lemma FirstUnique(x: string, y: string, s: set<string>)
    requires IsFirst(x, s) && IsFirst(y, s)
    ensures x == y
  {
    BelowAntisymmetric(x, y);
  }

  function First(s: set<string>): (x: string)
    requires s != {}
    ensures IsFirst(x, s)
  {
    FirstExists(s);
    assert forall x, y | IsFirst(x, s) && IsFirst(y, s) :: x == y by {
      forall x, y | IsFirst(x, s) && IsFirst(y, s)
        ensures x == y
      {
        FirstUnique(x, y, s);
      }
    }
    var x :| x in s && IsFirst(x, s);
    x
  }

  // ---- Printing ----

  function Digits(n: nat): string {
    (if n < 10 then [] else Digits(n / 10)) + ["0123456789"[n % 10]]
  }

  function Decimal(i: int): string {
    if i < 0 then "-" + Digits(-i) else Digits(i)
  }

  datatype Pair = Pair(name: string, amount: int)

  function Item(p: Pair): string {
    p.name + ": " + Decimal(p.amount) + ", "
  }

  function Body(ps: seq<Pair>): string {
    if ps == [] then [] else Item(ps[0]) + Body(ps[1..])
  }

  function Pairs(b: Balances): (ps: seq<Pair>)
    ensures |ps| == |b|
    decreases |b|
  {
    if b.Keys == {} then
      assert |b| == |b.Keys|; []
    else
      var k := First(b.Keys);
      assert b.Keys == (b - {k}).Keys + {k} && |b| == |b.Keys| && |b - {k}| == |(b - {k}).Keys|;
      [Pair(k, b[k])] + Pairs(b - {k})
  }

  lemma {:induction false} BodyLong(ps: seq<Pair>)
    requires ps != []
    ensures |Body(ps)| >= 2 && Body(ps)[|Body(ps)| - 2..] == ", "
  {
    if |ps| > 1 {
      BodyLong(ps[1..]);
    }
  }

  /** The last comma and space are dropped before the closing brace. */
  function Text(b: Balances): string
    requires b.Keys != {}
  {
    BodyLong(Pairs(b));
    var all := "{" + Body(Pairs(b));
    all[..|all| - 2] + "}"
  }

  lemma {:induction false} BodySnoc(ps: seq<Pair>, p: Pair)
    ensures Body(ps + [p]) == Body(ps) + Item(p)
  {
    if ps == [] {
      assert [p][1..] == [] && Body([p]) == Item(p) + Body([]);
    } else {
      assert (ps + [p])[1..] == ps[1..] + [p];
      BodySnoc(ps[1..], p);
    }
  }

  /** The string, item by item. */
  method Print(b: Balances) returns (text: string)
    requires b.Keys != {}
    ensures text == Text(b)
  {
    hide Item, Decimal;
    var items := Pairs(b);
    text := "{";
    for i := 0 to |items|
      invariant text == "{" + Body(items[..i])
    {
      assert items[..i + 1] == items[..i] + [items[i]];
      BodySnoc(items[..i], items[i]);
      text := text + Item(items[i]);
    }
    assert items[..|items|] == items;
    BodyLong(items);
    text := text[..|text| - 2];
    text := text + "}";
  }

  // ---- Reading back ----

  lemma DigitsPlain(n: nat)
    ensures Digits(n) != []
    ensures forall c | c in Digits(n) :: '0' <= c <= '9'
  {
  }

  lemma DecimalPlain(i: int)
    ensures ',' !in Decimal(i) && ':' !in Decimal(i)
  {
    DigitsPlain(if i < 0 then -i else i);
  }

  lemma DigitInjective(m: nat, n: nat)
    requires m < 10 && n < 10 && "0123456789"[m] == "0123456789"[n]
    ensures m == n
  {
    assert forall i | 0 <= i < 10 :: "0123456789"[i] as int == '0' as int + i;
  }

  lemma {:induction false} DigitsInjective(m: nat, n: nat)
    requires Digits(m) == Digits(n)
    ensures m == n
  {
    var s, t := Digits(m), Digits(n);
    assert s[|s| - 1] == t[|t| - 1];
    DigitInjective(m % 10, n % 10);
    assert s[..|s| - 1] == t[..|t| - 1];
    assert s[..|s| - 1] == if m < 10 then [] else Digits(m / 10);
    assert t[..|t| - 1] == if n < 10 then [] else Digits(n / 10);
    if m >= 10 {
      DigitsPlain(m / 10);
    }
    if n >= 10 {
      DigitsPlain(n / 10);
    }
    if m >= 10 && n >= 10 {
      DigitsInjective(m / 10, n / 10);
    }
  }

  lemma DecimalInjective(i: int, j: int)
    requires Decimal(i) == Decimal(j)
    ensures i == j
  {
    hide Digits;
    DigitsPlain(if i < 0 then -i else i);
    DigitsPlain(if j < 0 then -j else j);
    assert Decimal(i)[0] == Decimal(j)[0];
    assert i >= 0 ==> Decimal(i)[0] in Digits(i);
    assert j >= 0 ==> Decimal(j)[0] in Digits(j);
    if i < 0 {
      assert Decimal(i)[1..] == Digits(-i) && Decimal(j)[1..] == Digits(-j);
      DigitsInjective(-i, -j);
    } else {
      DigitsInjective(i, j);
    }
  }

  /** A separator that neither prefix contains splits equal strings at the same place. */
  lemma SplitAt(a: string, b: string, c: char, x: string, y: string)
    requires c !in a && c !in b
    requires a + [c] + x == b + [c] + y
    ensures a == b && x == y
  {
    var l, r := a + [c] + x, b + [c] + y;
    assert l[|a|] == c && r[|b|] == c;
    if |a| < |b| {
      assert false;
    }
    if |b| < |a| {
      assert false;
    }
    assert a == l[..|a|] && b == r[..|b|];
    assert x == l[|a| + 1..] && y == r[|b| + 1..];
  }

  lemma AmountSplit(v: string, w: string, x: string, y: string)
    requires ',' !in v && ',' !in w
    requires " " + v + ", " + x == " " + w + ", " + y
    ensures v == w && x == y
  {
    assert " " + v + ", " + x == (" " + v) + [','] + (" " + x);
    assert " " + w + ", " + y == (" " + w) + [','] + (" " + y);
    SplitAt(" " + v, " " + w, ',', " " + x, " " + y);
    assert v == (" " + v)[1..] && w == (" " + w)[1..];
    assert x == (" " + x)[1..] && y == (" " + y)[1..];
  }

  /** A name that reads as the end of one item: another name, an amount, and the start of the next item. */
  function Joined(x: string, v: int, y: string): string {
    x + ": " + Decimal(v) + ", " + y
  }

  ghost predicate ReadsAsTwo(name: string) {
    exists x, v, y :: name == Joined(x, v, y)
  }

  /** Where the name and amount of a text's first item end. */
  function Cut(a: string, v: int): nat {
    |a| + |Decimal(v)| + 4
  }

  /** Between the first colon and the cut there is no other colon, and a prefix that reaches the cut reads as two. */
  lemma PrefixOf(a: string, v: int, x: string, k: nat)
    requires |a| < k < |Joined(a, v, x)|
    ensures k < Cut(a, v) ==> Joined(a, v, x)[k] != ':'
    ensures Cut(a, v) <= k ==> ReadsAsTwo(Joined(a, v, x)[..k])
  {
    var text := Joined(a, v, x);
    DecimalPlain(v);
    assert text == a + (": " + Decimal(v) + ", ") + x;
    if k < Cut(a, v) {
      assert text[k] == (": " + Decimal(v) + ", ")[k - |a|];
    } else {
      assert text[..k] == Joined(a, v, text[Cut(a, v)..k]);
    }
  }

  /** Of two names that start the same text, one that does not read as two is not the longer. */
  lemma NameEnds(a: string, v: int, x: string, b: string, w: int, y: string)
    requires Joined(a, v, x) == Joined(b, w, y) && !ReadsAsTwo(b)
    ensures |b| <= |a|
  {
    hide ReadsAsTwo, Decimal;
    var text := Joined(a, v, x);
    assert b == text[..|b|] && text[|b|] == ':';
    if |a| < |b| {
      PrefixOf(a, v, x, |b|);
    }
  }

  lemma ItemSplit(p: Pair, q: Pair, x: string, y: string)
    requires !ReadsAsTwo(p.name) && !ReadsAsTwo(q.name)
    requires Item(p) + x == Item(q) + y
    ensures p == q && x == y
  {
    hide ReadsAsTwo;
    var v, w := Decimal(p.amount), Decimal(q.amount);
    assert Item(p) + x == Joined(p.name, p.amount, x) && Item(q) + y == Joined(q.name, q.amount, y);
    NameEnds(p.name, p.amount, x, q.name, q.amount, y);
    NameEnds(q.name, q.amount, y, p.name, p.amount, x);
    assert Item(p) + x == p.name + (":" + (" " + v + ", " + x));
    assert Item(q) + y == q.name + (":" + (" " + w + ", " + y));
    assert p.name == (Item(p) + x)[..|p.name|] && q.name == (Item(q) + y)[..|q.name|];
    assert " " + v + ", " + x == (Item(p) + x)[|p.name| + 1..] && " " + w + ", " + y == (Item(q) + y)[|q.name| + 1..];
    DecimalPlain(p.amount);
    DecimalPlain(q.amount);
    AmountSplit(v, w, x, y);
    DecimalInjective(p.amount, q.amount);
  }

  ghost predicate PlainNames(ps: seq<Pair>) {
    forall p | p in ps :: !ReadsAsTwo(p.name)
  }

  lemma {:induction false} BodyInjective(ps: seq<Pair>, qs: seq<Pair>)
    requires PlainNames(ps) && PlainNames(qs)
    requires Body(ps) == Body(qs)
    ensures ps == qs
  {
    hide Item, ReadsAsTwo;
    if ps == [] || qs == [] {
      assert ps == [] ==> qs == [] by {
        if ps == [] && qs != [] { BodyLong(qs); }
      }
      assert qs == [] ==> ps == [] by {
        if qs == [] && ps != [] { BodyLong(ps); }
      }
    } else {
      var p, q := ps[0], qs[0];
      ItemSplit(p, q, Body(ps[1..]), Body(qs[1..]));
      BodyInjective(ps[1..], qs[1..]);
      assert ps == [p] + ps[1..] && qs == [q] + qs[1..];
    }
  }

  lemma PairsHead(b: Balances) returns (k: string)
    requires b.Keys != {}
    ensures k in b && Pairs(b) == [Pair(k, b[k])] + Pairs(b - {k}) && |b - {k}| < |b| && k == First(b.Keys)
  {
    k := First(b.Keys);
    assert b.Keys == (b - {k}).Keys + {k} && |b| == |b.Keys| && |b - {k}| == |(b - {k}).Keys|;
  }

  lemma {:induction false} PairsInjective(a: Balances, b: Balances)
    requires Pairs(a) == Pairs(b)
    ensures a == b
    decreases |a|
  {
    hide First;
    if a.Keys == {} || b.Keys == {} {
      assert |a| == |a.Keys| && |b| == |b.Keys|;
      assert a == map[] && b == map[];
    } else {
      var k := PairsHead(a);
      var j := PairsHead(b);
      assert Pairs(a)[0] == Pair(k, a[k]) && Pairs(b)[0] == Pair(j, b[j]);
      assert Pairs(a)[1..] == Pairs(a - {k}) && Pairs(b)[1..] == Pairs(b - {k});
      PairsInjective(a - {k}, b - {k});
      assert a == (a - {k})[k := a[k]] && b == (b - {k})[k := b[k]];
    }
  }

  lemma {:induction false} PairsNames(b: Balances)
    ensures forall p | p in Pairs(b) :: p.name in b
    decreases |b|
  {
    if b.Keys != {} {
      var k := First(b.Keys);
      assert b.Keys == (b - {k}).Keys + {k} && |b| == |b.Keys| && |b - {k}| == |(b - {k}).Keys|;
      PairsNames(b - {k});
    }
  }

  /** No account name contains a colon, a space, a number, a comma and a space in a row. */
  ghost predicate Readable(b: Balances) {
    forall name | name in b :: !ReadsAsTwo(name)
  }

  lemma TextBody(p: string, q: string)
    requires |p| >= 2 && p[|p| - 2..] == ", "
    requires |q| >= 2 && q[|q| - 2..] == ", "
    requires ("{" + p)[..|p| - 1] + "}" == ("{" + q)[..|q| - 1] + "}"
    ensures p == q
  {
    var l, r := ("{" + p)[..|p| - 1], ("{" + q)[..|q| - 1];
    assert |l + "}"| == |r + "}"|;
    assert l == (l + "}")[..|l|] && r == (r + "}")[..|r|];
    assert l[1..] == p[..|p| - 2] && r[1..] == q[..|q| - 2];
    assert p == p[..|p| - 2] + ", " && q == q[..|q| - 2] + ", ";
  }

  /** Equal checkpoint strings come from equal balances, when no account name reads as two. */
  lemma TextInjective(a: Balances, b: Balances)
    requires a.Keys != {} && b.Keys != {}
    requires Readable(a) && Readable(b)
    requires Text(a) == Text(b)
    ensures a == b
  {
    hide ReadsAsTwo;
    BodyLong(Pairs(a));
    BodyLong(Pairs(b));
    TextBody(Body(Pairs(a)), Body(Pairs(b)));
    PairsNames(a);
    PairsNames(b);
    BodyInjective(Pairs(a), Pairs(b));
    PairsInjective(a, b);
  }

  /** With such a name the string no longer determines the balances: every store of two accounts prints like the
      store of one account whose name joins the first item and the second name. */
  lemma JoinedCollides(x: string, v: int, y: string, w: int)
    requires x != y && Below(x, y)
    ensures var a, b := map[x := v, y := w], map[Joined(x, v, y) := w];
            x in a.Keys && Joined(x, v, y) in b.Keys && a != b && Text(a) == Text(b)
  {
    var z := Joined(x, v, y);
    var a := map[x := v, y := w];
    PairsOfTwo(x, v, y, w);
    OnePair(z, w);
    TwoItems(Pair(x, v), Pair(y, w), Pair(z, w));
    assert |z| > |x| && |z| > |y|;
    assert x in a && x !in map[z := w];
  }

  // ---- Exactly which strings determine the balances ----

  /** All of a store's items read as one: every name and amount but the last amount, as a single name. */
  function OneName(ps: seq<Pair>): Pair
    requires ps != []
  {
    if |ps| == 1 then ps[0]
    else Pair(Joined(ps[0].name, ps[0].amount, OneName(ps[1..]).name), OneName(ps[1..]).amount)
  }

  lemma {:induction false} OneItem(ps: seq<Pair>)
    requires ps != []
    ensures Body(ps) == Item(OneName(ps))
    ensures ps[0].name <= OneName(ps).name
  {
    hide Decimal;
    if |ps| == 1 {
      assert ps[1..] == [];
    } else {
      OneItem(ps[1..]);
      var p, q := ps[0], OneName(ps[1..]);
      assert Item(p) + Item(q) == Item(OneName(ps));
    }
  }

  lemma {:induction false} PrefixBelow(x: string, y: string)
    requires x <= y
    ensures Below(x, y)
  {
    if x != [] {
      assert x[0] == y[0];
      PrefixBelow(x[1..], y[1..]);
    }
  }

  /** A name that joins two names in order. */
  ghost predicate JoinsTwo(name: string) {
    exists x, v, y :: x != y && Below(x, y) && name == Joined(x, v, y)
  }

  /** Two or more accounts read as one whose name joins two in order. */
  lemma ManyJoin(b: Balances)
    requires |b| >= 2
    ensures Pairs(b) != [] && JoinsTwo(OneName(Pairs(b)).name)
  {
    hide Joined, First, Decimal;
    assert |b| == |b.Keys|;
    var k := PairsHead(b);
    var rest := b - {k};
    assert |rest| == |rest.Keys| == |b| - 1;
    var j := PairsHead(rest);
    var ps, qs := Pairs(b), Pairs(rest);
    assert ps[1..] == qs && qs[0].name == j;
    OneItem(qs);
    PrefixBelow(j, OneName(qs).name);
    HeadBelow(b, k, j);
    BelowTransitive(k, j, OneName(qs).name);
    if k == OneName(qs).name {
      BelowAntisymmetric(k, j);
    }
    assert OneName(ps).name == Joined(k, b[k], OneName(qs).name);
  }

  lemma HeadBelow(b: Balances, k: string, j: string)
    requires k in b && j in b - {k} && Pairs(b) != [] && Pairs(b)[0].name == k
    ensures Below(k, j) && k != j
  {
    assert k == First(b.Keys);
  }

  lemma AfterSeparator(a: string, c: char, x: string, k: int)
    requires |a| < k < |a + [c] + x|
    ensures (a + [c] + x)[k] in x
  {
    assert (a + [c] + x)[k] == x[k - |a| - 1];
  }

  /** A separator that neither rest contains splits equal strings at the same place. */
  lemma SplitLast(a: string, b: string, c: char, x: string, y: string)
    requires c !in x && c !in y
    requires a + [c] + x == b + [c] + y
    ensures a == b && x == y
  {
    var l, r := a + [c] + x, b + [c] + y;
    assert l[|a|] == c && r[|b|] == c;
    if |a| < |b| {
      AfterSeparator(a, c, x, |b|);
    } else if |b| < |a| {
      AfterSeparator(b, c, y, |a|);
    } else {
      assert a == l[..|a|] && b == r[..|b|];
      assert x == l[|a| + 1..] && y == r[|b| + 1..];
    }
  }

  lemma ItemInjective(p: Pair, q: Pair)
    requires Item(p) == Item(q)
    ensures p == q
  {
    hide Decimal;
    var v, w := Decimal(p.amount), Decimal(q.amount);
    var l, r := p.name + ":", q.name + ":";
    assert Item(p) == l + [' '] + v + ", " && Item(q) == r + [' '] + w + ", ";
    assert l + [' '] + v == Item(p)[..|Item(p)| - 2] && r + [' '] + w == Item(q)[..|Item(q)| - 2];
    DecimalSpace(p.amount);
    DecimalSpace(q.amount);
    SplitLast(l, r, ' ', v, w);
    assert p.name == l[..|l| - 1] && q.name == r[..|r| - 1];
    DecimalInjective(p.amount, q.amount);
  }

  lemma DecimalSpace(i: int)
    ensures ' ' !in Decimal(i)
  {
    DigitsPlain(if i < 0 then -i else i);
  }

  lemma SingleStore(b: Balances) returns (z: string)
    requires |b| == 1
    ensures z in b && b == map[z := b[z]] && Pairs(b) == [Pair(z, b[z])]
  {
    hide First;
    assert |b| == |b.Keys|;
    z := PairsHead(b);
    var rest := b - {z};
    assert |rest| == |rest.Keys| == 0;
    assert rest == map[] && b == map[z := b[z]];
    OnePair(z, b[z]);
  }

  lemma HasPairs(b: Balances)
    requires b.Keys != {}
    ensures Pairs(b) != []
  {
    hide First;
    assert |b| == |b.Keys|;
  }

  lemma SameBody(a: Balances, b: Balances)
    requires a.Keys != {} && b.Keys != {}
    ensures Text(a) == Text(b) <==> Body(Pairs(a)) == Body(Pairs(b))
  {
    hide Body, Pairs;
    HasPairs(a);
    HasPairs(b);
    BodyLong(Pairs(a));
    BodyLong(Pairs(b));
    if Text(a) == Text(b) {
      TextBody(Body(Pairs(a)), Body(Pairs(b)));
    }
  }

  lemma SameReading(a: Balances, b: Balances)
    requires a.Keys != {} && b.Keys != {}
    ensures Pairs(a) != [] && Pairs(b) != []
    ensures Text(a) == Text(b) <==> OneName(Pairs(a)) == OneName(Pairs(b))
  {
    hide Item, Pairs, Body, OneName, Text;
    HasPairs(a);
    HasPairs(b);
    SameBody(a, b);
    OneItem(Pairs(a));
    OneItem(Pairs(b));
    if Body(Pairs(a)) == Body(Pairs(b)) {
      ItemInjective(OneName(Pairs(a)), OneName(Pairs(b)));
    }
  }

  /** Every store of two or more accounts prints like a store of one. */
  lemma PrintsAsOne(b: Balances) returns (z: string, w: int)
    requires |b| >= 2
    ensures b.Keys != {} && z in map[z := w].Keys && Text(map[z := w]) == Text(b) && map[z := w] != b && JoinsTwo(z)
  {
    hide First, Decimal, JoinsTwo, Text;
    assert |b| == |b.Keys|;
    ManyJoin(b);
    var p := OneName(Pairs(b));
    z, w := p.name, p.amount;
    OnePair(z, w);
    assert |map[z := w]| == 1;
    SameReading(map[z := w], b);
  }

  /** A checkpoint string determines the balances if and only if they are those of one account whose name does not
      join two names in order. */
  lemma TextUnique(b: Balances)
    requires b.Keys != {}
    ensures (forall a: Balances | a.Keys != {} && Text(a) == Text(b) :: a == b) <==>
            (|b| == 1 && forall name | name in b :: !JoinsTwo(name))
  {
    hide Text, JoinsTwo, First, Pairs, OneName;
    assert |b| == |b.Keys|;
    if |b| >= 2 {
      var z, w := PrintsAsOne(b);
      var a := map[z := w];
      assert a.Keys != {} && Text(a) == Text(b) && a != b;
    } else {
      assert |b| == 1;
      var z := SingleStore(b);
      if JoinsTwo(z) {
        JoinedTwice(z, b[z]);
      } else {
        forall a: Balances | a.Keys != {} && Text(a) == Text(b)
          ensures a == b
        {
          SoleReading(a, b, z);
        }
      }
    }
  }

  lemma JoinedTwice(z: string, w: int)
    requires JoinsTwo(z)
    ensures exists a: Balances ::
              a.Keys != {} && z in map[z := w].Keys && Text(a) == Text(map[z := w]) && a != map[z := w]
  {
    hide Below, Text, Joined;
    var x, v, y :| x != y && Below(x, y) && z == Joined(x, v, y);
    JoinedCollides(x, v, y, w);
    var a := map[x := v, y := w];
    assert x in a.Keys;
  }

  lemma SoleReading(a: Balances, b: Balances, z: string)
    requires a.Keys != {} && b.Keys != {} && Text(a) == Text(b)
    requires z in b && b == map[z := b[z]] && Pairs(b) == [Pair(z, b[z])] && !JoinsTwo(z)
    ensures a == b
  {
    hide Text, JoinsTwo, First;
    assert |a| == |a.Keys|;
    SameReading(a, b);
    if |a| >= 2 {
      ManyJoin(a);
    } else {
      var y := SingleStore(a);
    }
  }

  // ---- A collision on top of any store ----

  lemma {:induction false} PairsAppend(b: Balances, x: string, v: int)
    requires forall n | n in b :: Below(n, x) && n != x
    ensures Pairs(b[x := v]) == Pairs(b) + [Pair(x, v)]
    decreases |b|
  {
    hide First, Pairs, Below;
    if b.Keys == {} {
      assert b == map[] && b[x := v] == map[x := v];
      NoPairs(b);
      OnePair(x, v);
    } else {
      var k := PairsHead(b);
      var j := PairsHead(b[x := v]);
      FirstStays(b, x, v);
      PairsAppend(b - {k}, x, v);
      assert b[x := v] - {k} == (b - {k})[x := v] && b[x := v][k] == b[k];
    }
  }

  lemma NoPairs(b: Balances)
    requires b.Keys == {}
    ensures Pairs(b) == []
  {
    assert |b| == |b.Keys|;
  }

  lemma FirstStays(b: Balances, x: string, v: int)
    requires b.Keys != {} && forall n | n in b :: Below(n, x) && n != x
    ensures First(b[x := v].Keys) == First(b.Keys) && First(b.Keys) != x
  {
    var k := First(b.Keys);
    assert k in b;
    forall y | y in b[x := v].Keys
      ensures Below(k, y)
    {
      assert y == x || y in b.Keys;
    }
    assert IsFirst(k, b[x := v].Keys);
    FirstUnique(k, First(b[x := v].Keys), b[x := v].Keys);
  }

  lemma AllBelow(b: Balances, x: string, z: string)
    requires Below(x, z) && forall n | n in b :: Below(n, x) && n != x
    ensures z !in b && forall n | n in b :: Below(n, z) && n != z
  {
    hide Below;
    forall n | n in b
      ensures Below(n, z) && n != z
    {
      BelowTransitive(n, x, z);
      if n == z {
        BelowAntisymmetric(x, n);
      }
    }
  }

  lemma SameItems(ps: seq<Pair>, x: string, v: int, y: string, w: int)
    ensures Body(ps + [Pair(x, v)] + [Pair(y, w)]) == Body(ps + [Pair(Joined(x, v, y), w)])
  {
    hide Decimal, Body;
    BodySnoc(ps, Pair(x, v));
    BodySnoc(ps + [Pair(x, v)], Pair(y, w));
    BodySnoc(ps, Pair(Joined(x, v, y), w));
    assert Item(Pair(x, v)) + Item(Pair(y, w)) == Item(Pair(Joined(x, v, y), w));
    assert Body(ps) + Item(Pair(x, v)) + Item(Pair(y, w)) == Body(ps) + (Item(Pair(x, v)) + Item(Pair(y, w)));
  }

  /** On top of any store whose names come first, two accounts print like one whose name joins them. */
  lemma AddedCollide(b: Balances, x: string, v: int, y: string, w: int)
    requires x != y && Below(x, y) && forall n | n in b :: Below(n, x) && n != x
    ensures var a, c := b[x := v][y := w], b[Joined(x, v, y) := w];
            x in a.Keys && Joined(x, v, y) in c.Keys && a != c && Text(a) == Text(c)
  {
    hide First, Decimal, Below, Pairs, Body;
    var z := Joined(x, v, y);
    assert |z| > |x|;
    PrefixBelow(x, z);
    AllBelow(b, x, z);
    AllBelow(b, x, y);
    PairsAppend(b, x, v);
    PairsAppend(b[x := v], y, w);
    PairsAppend(b, z, w);
    SameItems(Pairs(b), x, v, y, w);
    var a, c := b[x := v][y := w], b[z := w];
    assert x in a && x !in c;
    assert y in a && z in c;
  }

  lemma PairsOfTwo(x: string, v: int, y: string, w: int)
    requires x != y && Below(x, y)
    ensures Pairs(map[x := v, y := w]) == [Pair(x, v)] + [Pair(y, w)]
  {
    var a := map[x := v, y := w];
    BelowTotal(x, x);
    assert a.Keys == {x, y};
    assert IsFirst(x, a.Keys);
    FirstUnique(First(a.Keys), x, a.Keys);
    assert a - {x} == map[y := w];
    OnePair(y, w);
  }

  lemma TwoItems(p: Pair, q: Pair, r: Pair)
    requires r.name == Joined(p.name, p.amount, q.name) && r.amount == q.amount
    ensures Body([p] + [q]) == Body([r])
  {
    assert ([p] + [q])[1..] == [q] && [q][1..] == [] && [r][1..] == [];
    assert Body([q]) == Item(q) + Body([]) && Body([r]) == Item(r) + Body([]);
    assert Body([p] + [q]) == Item(p) + Body([q]);
    assert Item(p) + Item(q) == Item(r);
  }

  lemma OnePair(k: string, v: int)
    ensures Pairs(map[k := v]) == [Pair(k, v)]
  {
    var b := map[k := v];
    assert b.Keys == {k} && First(b.Keys) == k;
    assert b - {k} == map[];
  }
}
