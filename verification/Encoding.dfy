/** The two separator encodings that are hashed into identifiers: the result-cache key of
    convert-to-pdf/internal/worker/cache.go and the alert fingerprint of shared/discord/discord.go.
    SHA-256 is taken to be injective, so an identifier is its preimage. */
module Encoding {

  const NUL := '\0'

  /** Byte order on strings, as Go compares them. */
  predicate Le(a: string, b: string) {
    a == [] || (b != [] && (a[0] < b[0] || (a[0] == b[0] && Le(a[1..], b[1..]))))
  }

  /** Strings are compared where they first differ, and one comes before any that goes on after it. */
  lemma {:induction false} LeWhereTheyDiffer(common: string, x: char, y: char, a: string, b: string)
    requires x < y
    ensures Le(common + [x] + a, common + [y] + b) && !Le(common + [y] + b, common + [x] + a)
    ensures Le(common, common + a)
  {
    if common != [] {
      LeWhereTheyDiffer(common[1..], x, y, a, b);
      assert (common + [x] + a)[1..] == common[1..] + [x] + a;
      assert (common + [y] + b)[1..] == common[1..] + [y] + b;
      assert (common + a)[1..] == common[1..] + a;
    }
  }

  lemma {:induction false} LeTotal(a: string, b: string)
    ensures Le(a, b) || Le(b, a)
  {
    if a != [] && b != [] && a[0] == b[0] {
      LeTotal(a[1..], b[1..]);
    }
  }

  lemma {:induction false} LeAntisymmetric(a: string, b: string)
    requires Le(a, b) && Le(b, a)
    ensures a == b
  {
    if a != [] {
      LeAntisymmetric(a[1..], b[1..]);
      assert a == [a[0]] + a[1..] && b == [b[0]] + b[1..];
    }
  }

  lemma {:induction false} LeTransitive(a: string, b: string, c: string)
    requires Le(a, b) && Le(b, c)
    ensures Le(a, c)
  {
    if a != [] && a[0] == b[0] && b[0] == c[0] {
      LeTransitive(a[1..], b[1..], c[1..]);
    }
  }

  ghost predicate Sorted(xs: seq<string>) {
    forall i, j :: 0 <= i < j < |xs| ==> Le(xs[i], xs[j])
  }

  function Insert(x: string, xs: seq<string>): (r: seq<string>)
    requires Sorted(xs)
    ensures Sorted(r) && multiset(r) == multiset(xs) + multiset{x}
  {
    if xs == [] then [x]
    else if Le(x, xs[0]) then
      InsertFirst(x, xs);
      [x] + xs
    else
      var rest := Insert(x, xs[1..]);
      InsertLater(x, xs, rest);
      [xs[0]] + rest
  }

  lemma InsertFirst(x: string, xs: seq<string>)
    requires Sorted(xs) && xs != [] && Le(x, xs[0])
    ensures Sorted([x] + xs)
  {
    forall j | 0 <= j < |xs|
      ensures Le(x, xs[j])
    {
      if j > 0 {
        LeTransitive(x, xs[0], xs[j]);
      }
    }
  }

  lemma InsertLater(x: string, xs: seq<string>, rest: seq<string>)
    requires Sorted(xs) && xs != [] && !Le(x, xs[0])
    requires Sorted(rest) && multiset(rest) == multiset(xs[1..]) + multiset{x}
    ensures Sorted([xs[0]] + rest) && multiset([xs[0]] + rest) == multiset(xs) + multiset{x}
  {
    LeTotal(x, xs[0]);
    forall j | 0 <= j < |rest|
      ensures Le(xs[0], rest[j])
    {
      assert rest[j] in multiset(rest);
      if rest[j] != x {
        assert rest[j] in xs[1..];
      }
    }
    assert xs == [xs[0]] + xs[1..];
  }

  /** sort.Strings. */
  function Sort(xs: seq<string>): (r: seq<string>)
    ensures Sorted(r) && multiset(r) == multiset(xs)
  {
    if xs == [] then []
    else
      assert xs == [xs[0]] + xs[1..];
      Insert(xs[0], Sort(xs[1..]))
  }

  lemma LeReflexive(x: string)
    ensures Le(x, x)
  {
    LeTotal(x, x);
  }

  lemma FirstIsLeast(xs: seq<string>, x: string)
    requires Sorted(xs) && x in xs
    ensures Le(xs[0], x)
  {
    LeReflexive(x);
  }

  /** Two sorted lists of the same elements begin alike. */
  lemma SameFirst(xs: seq<string>, ys: seq<string>)
    requires Sorted(xs) && Sorted(ys) && multiset(xs) == multiset(ys) && xs != [] && ys != []
    ensures xs[0] == ys[0]
  {
    assert xs[0] in multiset(ys) && ys[0] in multiset(xs);
    FirstIsLeast(xs, ys[0]);
    FirstIsLeast(ys, xs[0]);
    LeAntisymmetric(xs[0], ys[0]);
  }

  lemma MultisetOfRest(xs: seq<string>)
    requires xs != []
    ensures multiset(xs[1..]) == multiset(xs) - multiset{xs[0]}
  {
    assert xs == [xs[0]] + xs[1..];
  }

  /** A sorted list is determined by its elements. */
  lemma {:induction false} SortedUnique(xs: seq<string>, ys: seq<string>)
    requires Sorted(xs) && Sorted(ys) && multiset(xs) == multiset(ys)
    ensures xs == ys
  {
    assert |xs| == |multiset(xs)| == |multiset(ys)| == |ys|;
    if xs != [] {
      SameFirst(xs, ys);
      MultisetOfRest(xs);
      MultisetOfRest(ys);
      SortedUnique(xs[1..], ys[1..]);
    }
  }

  // ------------------------------------------------------------ NUL-terminated blocks

  predicate Without(c: char, s: string) {
    c !in s
  }

  /** Each string followed by a NUL byte. */
  function Blocks(xs: seq<string>): string {
    if xs == [] then [] else xs[0] + [NUL] + Blocks(xs[1..])
  }

  /** A terminator that occurs in neither of two strings separates them from what follows. */
  lemma SplitAt(c: char, a: string, x: string, b: string, y: string)
    requires Without(c, a) && Without(c, b)
    requires a + [c] + x == b + [c] + y
    ensures a == b && x == y
  {
    var l, r := a + [c] + x, b + [c] + y;
    assert l[|a|] == c && r[|b|] == c;
    assert forall i :: 0 <= i < |a| ==> l[i] == a[i];
    assert forall i :: 0 <= i < |b| ==> r[i] == b[i];
    assert a == l[..|a|] && b == r[..|b|];
    assert x == l[|a| + 1..] && y == r[|b| + 1..];
  }

  lemma {:induction false} BlocksInjective(xs: seq<string>, ys: seq<string>)
    requires forall s :: s in xs || s in ys ==> Without(NUL, s)
    requires Blocks(xs) == Blocks(ys)
    ensures xs == ys
  {
    if xs != [] && ys != [] {
      SplitAt(NUL, xs[0], Blocks(xs[1..]), ys[0], Blocks(ys[1..]));
      BlocksInjective(xs[1..], ys[1..]);
      assert xs == [xs[0]] + xs[1..] && ys == [ys[0]] + ys[1..];
    }
  }

  lemma {:induction false} BlocksAppend(xs: seq<string>, y: string)
    ensures Blocks(xs + [y]) == Blocks(xs) + y + [NUL]
  {
    if xs == [] {
      assert [y] == [y] + [];
      assert Blocks([y]) == y + [NUL] + Blocks([]);
    } else {
      BlocksAppend(xs[1..], y);
      assert (xs + [y])[1..] == xs[1..] + [y];
    }
  }

  // ------------------------------------------------------------ The result-cache key

  /** What is hashed for a conversion; canon is the canonical form of its options. */
  function CachePreimage(tool: string, canon: string, etags: seq<string>): string {
    tool + [NUL] + canon + [NUL] + Blocks(Sort(etags))
  }

  /** buildCacheKey writes tool, options and sorted ETags one by one. */
  method BuildCachePreimage(tool: string, canon: string, etags: seq<string>) returns (h: string)
    ensures h == CachePreimage(tool, canon, etags)
    ensures exists sorted :: Sorted(sorted) && multiset(sorted) == multiset(etags)
              && h == tool + "\0" + canon + "\0" + Blocks(sorted)
  {
    var sorted := Sort(etags);
    h := tool + [NUL];
    h := h + canon;
    h := h + [NUL];
    ghost var head := h;
    for i := 0 to |sorted|
      invariant h == head + Blocks(sorted[..i])
    {
      BlocksAppend(sorted[..i], sorted[i]);
      assert sorted[..i + 1] == sorted[..i] + [sorted[i]];
      h := h + sorted[i];
      h := h + [NUL];
    }
    assert sorted[..|sorted|] == sorted;
  }

  lemma KeyParts(tool1: string, canon1: string, s1: seq<string>, tool2: string, canon2: string, s2: seq<string>)
    requires Without(NUL, tool1) && Without(NUL, tool2) && Without(NUL, canon1) && Without(NUL, canon2)
    requires forall e :: e in s1 || e in s2 ==> Without(NUL, e)
    requires tool1 + [NUL] + canon1 + [NUL] + Blocks(s1) == tool2 + [NUL] + canon2 + [NUL] + Blocks(s2)
    ensures tool1 == tool2 && canon1 == canon2 && s1 == s2
  {
    var rest1, rest2 := canon1 + [NUL] + Blocks(s1), canon2 + [NUL] + Blocks(s2);
    assert tool1 + [NUL] + rest1 == tool1 + [NUL] + canon1 + [NUL] + Blocks(s1);
    assert tool2 + [NUL] + rest2 == tool2 + [NUL] + canon2 + [NUL] + Blocks(s2);
    SplitAt(NUL, tool1, rest1, tool2, rest2);
    SplitAt(NUL, canon1, Blocks(s1), canon2, Blocks(s2));
    BlocksInjective(s1, s2);
  }

  lemma SortKeepsElements(xs: seq<string>)
    ensures forall x :: x in Sort(xs) <==> x in xs
  {
    var r := Sort(xs);
    assert forall x :: x in r <==> x in multiset(r);
    assert forall x :: x in xs <==> x in multiset(xs);
  }

  /** Two conversions share a cache key exactly if tool and options agree and the inputs are
      the same up to order. */
  lemma CacheKeysAgree(tool1: string, canon1: string, etags1: seq<string>,
                       tool2: string, canon2: string, etags2: seq<string>)
    requires Without(NUL, tool1) && Without(NUL, tool2) && Without(NUL, canon1) && Without(NUL, canon2)
    requires forall e :: e in etags1 || e in etags2 ==> Without(NUL, e)
    ensures CachePreimage(tool1, canon1, etags1) == CachePreimage(tool2, canon2, etags2)
            <==> tool1 == tool2 && canon1 == canon2 && multiset(etags1) == multiset(etags2)
  {
    if CachePreimage(tool1, canon1, etags1) == CachePreimage(tool2, canon2, etags2) {
      SortKeepsElements(etags1);
      SortKeepsElements(etags2);
      KeyParts(tool1, canon1, Sort(etags1), tool2, canon2, Sort(etags2));
    } else if multiset(etags1) == multiset(etags2) {
      SortedUnique(Sort(etags1), Sort(etags2));
    }
  }

  // ------------------------------------------------------------ The alert fingerprint

  ghost function Listing(s: set<string>): (r: seq<string>)
    ensures multiset(r) == multiset(s)
  {
    if s == {} then []
    else
      var x :| x in s;
      assert multiset(s) == multiset(s - {x}) + multiset{x};
      [x] + Listing(s - {x})
  }

  function Pairs(keys: seq<string>, labels: map<string, string>): (r: seq<string>)
    requires forall k :: k in keys ==> k in labels
    ensures |r| == |keys| && forall i :: 0 <= i < |r| ==> r[i] == keys[i] + "=" + labels[keys[i]]
  {
    seq(|keys|, i requires 0 <= i < |keys| => keys[i] + "=" + labels[keys[i]])
  }

  ghost function SortedKeys(labels: map<string, string>): (r: seq<string>)
    ensures Sorted(r) && multiset(r) == multiset(labels.Keys)
    ensures forall k :: k in r <==> k in labels
  {
    var r := Sort(Listing(labels.Keys));
    assert forall k :: k in r <==> k in multiset(r);
    r
  }

  /** What is hashed for an alert. */
  ghost function LabelPreimage(labels: map<string, string>): string {
    Blocks(Pairs(SortedKeys(labels), labels))
  }

  /** The keys in map order, which is arbitrary, then sorted. */
  method CollectKeys(labels: map<string, string>) returns (keys: seq<string>)
    ensures keys == SortedKeys(labels)
  {
    keys := [];
    var left := labels.Keys;
    while left != {}
      invariant left <= labels.Keys
      invariant multiset(keys) == multiset(labels.Keys - left)
      decreases left
    {
      var k :| k in left;
      assert labels.Keys - (left - {k}) == (labels.Keys - left) + {k};
      keys := keys + [k];
      left := left - {k};
    }
    assert labels.Keys - left == labels.Keys;
    keys := Sort(keys);
    SortedUnique(keys, SortedKeys(labels));
  }

  method WriteLabels(keys: seq<string>, labels: map<string, string>) returns (b: string)
    requires forall k :: k in keys ==> k in labels
    ensures b == Blocks(Pairs(keys, labels))
  {
    ghost var pairs := Pairs(keys, labels);
    b := "";
    for i := 0 to |keys|
      invariant b == Blocks(pairs[..i])
    {
      BlocksAppend(pairs[..i], pairs[i]);
      assert pairs[..i + 1] == pairs[..i] + [pairs[i]];
      b := b + keys[i];
      b := b + "=";
      b := b + labels[keys[i]];
      b := b + [NUL];
    }
    assert pairs[..|keys|] == pairs;
  }

  /** fingerprint, up to the final hash: whatever order the map yields its keys in. */
  method Fingerprint(labels: map<string, string>) returns (b: string)
    ensures b == LabelPreimage(labels)
  {
    var keys := CollectKeys(labels);
    b := WriteLabels(keys, labels);
  }

  /** Labels with names from this set and values without NUL, as all text has. */
  ghost predicate LabelSet(names: iset<string>, labels: map<string, string>) {
    forall k :: k in labels ==> k in names && Without(NUL, labels[k])
  }

  ghost predicate NulFree(names: iset<string>) {
    forall n :: n in names ==> Without(NUL, n)
  }

  /** No name is another one with '=' and more behind it. */
  ghost predicate Separable(names: iset<string>) {
    forall n, m :: n in names && m in names ==> !(n + "=" <= m)
  }

  lemma LongerNameExtends(n: string, x: string, m: string, y: string)
    requires n + "=" + x == m + "=" + y && |n| < |m|
    ensures n + "=" <= m
  {
    var r := m + "=" + y;
    assert m == r[..|m|];
    assert n + "=" == r[..|n| + 1];
  }

  /** Where one of two "name=value" strings has its first separator the other has it too. */
  lemma NamesSeparate(names: iset<string>, n: string, x: string, m: string, y: string)
    requires Separable(names) && n in names && m in names && n + "=" + x == m + "=" + y && |n| <= |m|
    ensures n == m && x == y
  {
    if |n| < |m| {
      LongerNameExtends(n, x, m, y);
    } else {
      var l, r := n + "=" + x, m + "=" + y;
      assert n == l[..|n|] && m == r[..|m|];
      assert x == l[|n| + 1..] && y == r[|m| + 1..];
    }
  }

  lemma PairsDetermine(names: iset<string>, ka: seq<string>, a: map<string, string>,
                       kb: seq<string>, b: map<string, string>, i: nat)
    requires Separable(names) && LabelSet(names, a) && LabelSet(names, b) && i < |ka| == |kb|
    requires (forall k :: k in ka ==> k in a) && (forall k :: k in kb ==> k in b)
    requires Pairs(ka, a)[i] == Pairs(kb, b)[i]
    ensures ka[i] == kb[i] && a[ka[i]] == b[kb[i]]
  {
    if |ka[i]| <= |kb[i]| {
      NamesSeparate(names, ka[i], a[ka[i]], kb[i], b[kb[i]]);
    } else {
      NamesSeparate(names, kb[i], b[kb[i]], ka[i], a[ka[i]]);
    }
  }

  lemma PairsAreBlocks(names: iset<string>, keys: seq<string>, labels: map<string, string>)
    requires NulFree(names) && LabelSet(names, labels) && forall k :: k in keys ==> k in labels
    ensures forall s :: s in Pairs(keys, labels) ==> Without(NUL, s)
  {
  }

  lemma SamePairsSameLabels(names: iset<string>, ka: seq<string>, a: map<string, string>,
                            kb: seq<string>, b: map<string, string>)
    requires NulFree(names) && Separable(names) && LabelSet(names, a) && LabelSet(names, b)
    requires (forall k :: k in ka <==> k in a) && (forall k :: k in kb <==> k in b)
    requires Blocks(Pairs(ka, a)) == Blocks(Pairs(kb, b))
    ensures a == b
  {
    PairsAreBlocks(names, ka, a);
    PairsAreBlocks(names, kb, b);
    BlocksInjective(Pairs(ka, a), Pairs(kb, b));
    assert |ka| == |Pairs(ka, a)| == |Pairs(kb, b)| == |kb|;
    forall i | 0 <= i < |ka|
      ensures ka[i] == kb[i] && a[ka[i]] == b[kb[i]]
    {
      PairsDetermine(names, ka, a, kb, b, i);
    }
    assert ka == kb;
    assert a.Keys == b.Keys;
  }

  lemma OneLabel(k: string, v: string)
    ensures LabelPreimage(map[k := v]) == k + "=" + v + [NUL]
  {
    var labels := map[k := v];
    assert labels.Keys == {k};
    assert Sorted([k]);
    assert multiset([k]) == multiset({k});
    SortedUnique(SortedKeys(labels), [k]);
    var p := Pairs([k], labels);
    assert p == [k + "=" + v];
    assert Blocks(p) == p[0] + [NUL] + Blocks(p[1..]);
  }

  /** A name that is another with '=' behind it makes two different alerts look the same. */
  lemma NameCollides(n: string, m: string) returns (a: map<string, string>, b: map<string, string>)
    requires n + "=" <= m && Without(NUL, m)
    ensures a == map[m := ""] && b == map[n := m[|n| + 1..] + "="]
    ensures a != b && Without(NUL, b[n]) && LabelPreimage(a) == LabelPreimage(b)
  {
    var v := m[|n| + 1..] + "=";
    a, b := map[m := ""], map[n := v];
    OneLabel(m, "");
    OneLabel(n, v);
    assert m == n + "=" + m[|n| + 1..];
    assert m + "=" + "" == n + "=" + v;
    assert m in a && m !in b;
  }

  /** Different label sets over some names always have different fingerprints exactly if no name is another with '=' and
      more behind it. */
  lemma FingerprintsSeparateIff(names: iset<string>)
    requires NulFree(names)
    ensures (forall a, b :: LabelSet(names, a) && LabelSet(names, b) && LabelPreimage(a) == LabelPreimage(b) ==> a == b)
            <==> Separable(names)
  {
    if Separable(names) {
      forall a, b | LabelSet(names, a) && LabelSet(names, b) && LabelPreimage(a) == LabelPreimage(b)
        ensures a == b
      {
        SamePairsSameLabels(names, SortedKeys(a), a, SortedKeys(b), b);
      }
    } else {
      var n, m :| n in names && m in names && n + "=" <= m;
      var a, b := NameCollides(n, m);
      assert LabelSet(names, a) && LabelSet(names, b);
    }
  }

  lemma EqualsInside(n: string, m: string)
    requires n + "=" <= m
    ensures !Without('=', m)
  {
    assert m[|n|] == (n + "=")[|n|];
  }

  /** The label names that Prometheus allows have no '='. */
  lemma FingerprintsAgree(names: iset<string>, a: map<string, string>, b: map<string, string>)
    requires NulFree(names) && LabelSet(names, a) && LabelSet(names, b) && forall n :: n in names ==> Without('=', n)
    ensures LabelPreimage(a) == LabelPreimage(b) <==> a == b
  {
    forall n, m | n in names && m in names
      ensures !(n + "=" <= m)
    {
      if n + "=" <= m {
        EqualsInside(n, m);
      }
    }
    FingerprintsSeparateIff(names);
  }
}
