/** Page selections of organize-pdf/processing/processing_free.go: parsePageRange, its grouped twin
    parsePageRangeGroups, and splitEqualGroups. */
module PageRange {
  import opened PageParts
  import opened Text
  import opened Wrappers

  function Interval(first: int, last: int): (r: seq<int>)
    ensures |r| == (if last < first then 0 else last - first + 1)
    ensures forall i :: 0 <= i < |r| ==> r[i] == first + i
  {
    seq(if last < first then 0 else last - first + 1, i => first + i)
  }

  type Range = Option<(nat, nat)>

  function Ranges(parts: seq<string>, maxPages: nat): seq<Range> {
    seq(|parts|, i requires 0 <= i < |parts| => PartRange(parts[i], maxPages))
  }

  /** One group for each range that selects something. */
  function Expand(ranges: seq<Range>): seq<seq<int>> {
    if ranges == [] then []
    else
      var r := ranges[|ranges| - 1];
      Expand(ranges[..|ranges| - 1]) + if r.None? then [] else [Interval(r.value.0, r.value.1)]
  }

  /** The groups these parts select, in order. */
  function GroupsOf(parts: seq<string>, maxPages: nat): seq<seq<int>> {
    Expand(Ranges(parts, maxPages))
  }

  function Groups(rangeStr: string, maxPages: nat): seq<seq<int>> {
    var s := TrimSpace(rangeStr);
    if s == "" || s == "all" then [Interval(1, maxPages)] else GroupsOf(Split(s, ','), maxPages)
  }

  ghost predicate InSome(groups: seq<seq<int>>, p: int) {
    exists g :: g in groups && p in g
  }

  ghost predicate StrictlyAscending(xs: seq<int>) {
    forall i, j :: 0 <= i < j < |xs| ==> xs[i] < xs[j]
  }

  // ------------------------------------------------------------ The two parsers

  /** first, first + 1, ..., last. */
  method Fill(first: int, last: int) returns (pages: seq<int>)
    ensures pages == Interval(first, last)
  {
    pages := [];
    var i := first;
    while i <= last
      invariant first <= i && (i <= last + 1 || pages == [])
      invariant pages == Interval(first, i - 1)
    {
      pages := pages + [i];
      i := i + 1;
    }
  }

  lemma GroupsSnoc(parts: seq<string>, k: nat, maxPages: nat)
    requires k < |parts|
    ensures var r := PartRange(parts[k], maxPages);
            GroupsOf(parts[..k + 1], maxPages)
            == GroupsOf(parts[..k], maxPages) + if r.None? then [] else [Interval(r.value.0, r.value.1)]
  {
    var ranges := Ranges(parts[..k + 1], maxPages);
    assert ranges[..k] == Ranges(parts[..k], maxPages) && ranges[k] == PartRange(parts[k], maxPages);
  }

  // ------------------------------------------------------------ Which groups a selection gives

  /** Group g is what this part spells: pages of the document, from one to another. */
  ghost predicate Gives(part: string, maxPages: nat, g: seq<int>) {
    exists first: nat, last: nat ::
      Selects(part, first, last) && 1 <= first <= last <= maxPages && g == Interval(first, last)
  }

  /** One group for each part that gives any, in order. */
  ghost predicate Listed(parts: seq<string>, maxPages: nat, groups: seq<seq<int>>) {
    if parts == [] then groups == []
    else
      var before, part := parts[..|parts| - 1], parts[|parts| - 1];
      || (groups != [] && Gives(part, maxPages, groups[|groups| - 1])
          && Listed(before, maxPages, groups[..|groups| - 1]))
      || ((forall g :: !Gives(part, maxPages, g)) && Listed(before, maxPages, groups))
  }

  /** The selection, without the white space around it, is empty or "all" and gives one group of all pages; or it gives
      what its comma-separated parts give. */
  ghost predicate GivesGroups(rangeStr: string, maxPages: nat, groups: seq<seq<int>>) {
    exists s :: Trims(rangeStr, s) &&
      if s == "" || s == "all" then groups == [Interval(1, maxPages)]
      else exists parts :: AreParts(s, parts) && Listed(parts, maxPages, groups)
  }

  lemma PartGives(part: string, maxPages: nat)
    requires maxPages <= 0x7FFF_FFFF_FFFF_FFFF
    ensures var r := PartRange(part, maxPages);
            if r.None? then forall g :: !Gives(part, maxPages, g)
            else Gives(part, maxPages, Interval(r.value.0, r.value.1))
  {
    var r := PartRange(part, maxPages);
    if r.Some? {
      PartRangeIff(part, maxPages, r.value.0, r.value.1);
    } else if g :| Gives(part, maxPages, g) {
      var first: nat, last: nat :| Selects(part, first, last) && 1 <= first <= last <= maxPages;
      PartRangeIff(part, maxPages, first, last);
    }
  }

  lemma {:induction false} GroupsListed(parts: seq<string>, maxPages: nat)
    requires maxPages <= 0x7FFF_FFFF_FFFF_FFFF
    ensures Listed(parts, maxPages, GroupsOf(parts, maxPages))
  {
    if parts != [] {
      var n := |parts| - 1;
      GroupsListed(parts[..n], maxPages);
      GroupsSnoc(parts, n, maxPages);
      PartGives(parts[n], maxPages);
      assert parts[..n + 1] == parts;
      var before, groups := GroupsOf(parts[..n], maxPages), GroupsOf(parts, maxPages);
      assert if PartRange(parts[n], maxPages).Some? then groups[..|groups| - 1] == before else groups == before;
    }
  }

  lemma GroupsAreGiven(rangeStr: string, maxPages: nat)
    requires maxPages <= 0x7FFF_FFFF_FFFF_FFFF
    ensures GivesGroups(rangeStr, maxPages, Groups(rangeStr, maxPages))
  {
    var s := TrimSpace(rangeStr);
    TrimSpaceIff(rangeStr, s);
    if s != "" && s != "all" {
      SplitGivesParts(s);
      GroupsListed(Split(s, ','), maxPages);
    }
  }

  method ParsePageRangeGroups(rangeStr: string, maxPages: nat) returns (groups: seq<seq<int>>)
    ensures groups == Groups(rangeStr, maxPages)
    ensures maxPages <= 0x7FFF_FFFF_FFFF_FFFF ==> GivesGroups(rangeStr, maxPages, groups)
  {
    if maxPages <= 0x7FFF_FFFF_FFFF_FFFF {
      GroupsAreGiven(rangeStr, maxPages);
    }
    var s := TrimSpace(rangeStr);
    if s == "" || s == "all" {
      var pages := Fill(1, maxPages);
      return [pages];
    }
    groups := [];
    var parts := Split(s, ',');
    for k := 0 to |parts|
      invariant groups == GroupsOf(parts[..k], maxPages)
    {
      GroupsSnoc(parts, k, maxPages);
      var r := PartRange(parts[k], maxPages);
      if r.None? {
        continue;
      }
      var group := Fill(r.value.0, r.value.1);
      groups := groups + [group];
    }
    assert parts[..|parts|] == parts;
  }

  lemma InSomeAppend(groups: seq<seq<int>>, g: seq<int>, p: int)
    ensures InSome(groups + [g], p) <==> InSome(groups, p) || p in g
  {
    if p in g {
      assert g in groups + [g];
    }
    if InSome(groups, p) {
      var h :| h in groups && p in h;
      assert h in groups + [g];
    }
  }

  ghost predicate Covers(pages: seq<int>, groups: seq<seq<int>>) {
    forall p :: p in pages <==> InSome(groups, p)
  }

  /** The loop over the parts: the pages they select, each once, in the order met. */
  method CollectPages(parts: seq<string>, maxPages: nat) returns (pages: seq<int>, ghost seen: map<int, bool>)
    ensures Fresh(pages, seen, maxPages) && Covers(pages, GroupsOf(parts, maxPages))
  {
    pages := [];
    var seenPages: map<int, bool> := map[];
    for k := 0 to |parts|
      invariant Fresh(pages, seenPages, maxPages)
      invariant Covers(pages, GroupsOf(parts[..k], maxPages))
    {
      GroupsSnoc(parts, k, maxPages);
      var r := PartRange(parts[k], maxPages);
      if r.None? {
        continue;
      }
      ghost var before := pages;
      pages, seenPages := AddPages(pages, seenPages, r.value.0, r.value.1, maxPages);
      CoversMore(before, pages, GroupsOf(parts[..k], maxPages), r.value.0, r.value.1);
    }
    assert parts[..|parts|] == parts;
    seen := seenPages;
  }

  /** The sorted list of the pages in some group. */
  method ParsePageRange(rangeStr: string, maxPages: nat) returns (pages: seq<int>)
    ensures StrictlyAscending(pages)
    ensures forall p :: p in pages ==> 1 <= p <= maxPages
    ensures Covers(pages, Groups(rangeStr, maxPages))
    ensures maxPages <= 0x7FFF_FFFF_FFFF_FFFF ==>
              exists groups :: GivesGroups(rangeStr, maxPages, groups) && Covers(pages, groups)
  {
    if maxPages <= 0x7FFF_FFFF_FFFF_FFFF {
      GroupsAreGiven(rangeStr, maxPages);
    }
    var s := TrimSpace(rangeStr);
    if s == "" || s == "all" {
      pages := Fill(1, maxPages);
      assert Groups(rangeStr, maxPages) == [] + [pages];
      return;
    }
    ghost var seen;
    pages, seen := CollectPages(Split(s, ','), maxPages);
    pages := SortInts(pages);
  }

  /** Append first..last, skipping the pages already seen. */
  method AddPages(pages0: seq<int>, seen0: map<int, bool>, first: nat, last: nat, maxPages: nat)
    returns (pages: seq<int>, seen: map<int, bool>)
    requires Fresh(pages0, seen0, maxPages) && 1 <= first <= last <= maxPages
    ensures Fresh(pages, seen, maxPages)
    ensures forall p :: p in pages <==> p in pages0 || first <= p <= last
  {
    pages, seen := pages0, seen0;
    for i := first to last + 1
      invariant Fresh(pages, seen, maxPages)
      invariant forall p :: p in pages <==> p in pages0 || first <= p < i
    {
      if !(i in seen && seen[i]) {
        pages := pages + [i];
        seen := seen[i := true];
      }
    }
  }

  lemma CoversMore(pages: seq<int>, pages': seq<int>, groups: seq<seq<int>>, first: int, last: int)
    requires Covers(pages, groups) && forall p :: p in pages' <==> p in pages || first <= p <= last
    ensures Covers(pages', groups + [Interval(first, last)])
  {
    forall p
      ensures p in pages' <==> InSome(groups + [Interval(first, last)], p)
    {
      InSomeAppend(groups, Interval(first, last), p);
      InInterval(first, last, p);
    }
  }

  lemma InInterval(first: int, last: int, p: int)
    ensures p in Interval(first, last) <==> first <= p <= last
  {
    if first <= p <= last {
      assert Interval(first, last)[p - first] == p;
    }
  }

  /** The pages so far: in bounds, once each, and marked. */
  ghost predicate Fresh(pages: seq<int>, seen: map<int, bool>, maxPages: nat) {
    && (forall p :: p in pages ==> 1 <= p <= maxPages)
    && (forall p :: p in pages <==> p in seen && seen[p])
    && (forall i, j :: 0 <= i < j < |pages| ==> pages[i] != pages[j])
  }

  /** sort.Ints, on a list without repeats. */
  method SortInts(xs: seq<int>) returns (sorted: seq<int>)
    requires forall i, j :: 0 <= i < j < |xs| ==> xs[i] != xs[j]
    ensures StrictlyAscending(sorted)
    ensures forall p :: p in sorted <==> p in xs
  {
    sorted := [];
    for n := 0 to |xs|
      invariant StrictlyAscending(sorted)
      invariant forall p :: p in sorted <==> p in xs[..n]
    {
      var i := 0;
      while i < |sorted| && sorted[i] < xs[n]
        invariant i <= |sorted|
        invariant forall j :: 0 <= j < i ==> sorted[j] < xs[n]
      {
        i := i + 1;
      }
      assert i < |sorted| ==> sorted[i] in sorted;
      assert forall p :: p in sorted <==> p in sorted[..i] || p in sorted[i..];
      assert xs[..n + 1] == xs[..n] + [xs[n]];
      sorted := sorted[..i] + [xs[n]] + sorted[i..];
    }
  }

  // ------------------------------------------------------------ Printing and reading back

  lemma NotSpaceEnds(s: string)
    requires s != "" && !IsSpace(s[0]) && !IsSpace(s[|s| - 1])
    ensures TrimSpace(s) == s
  {
  }

  function Decimal(n: nat): (s: string)
    ensures s != "" && AllDigits(s)
  {
    var last := [('0' as int + n % 10) as char];
    if n < 10 then last else Decimal(n / 10) + last
  }

  function Decimals(pages: seq<int>): seq<string>
    requires forall i :: 0 <= i < |pages| ==> pages[i] >= 0
  {
    seq(|pages|, i requires 0 <= i < |pages| => Decimal(pages[i]))
  }

  lemma {:induction false} ValueOfDecimal(n: nat)
    ensures Value(Decimal(n)) == n
  {
    var s := Decimal(n);
    if n >= 10 {
      ValueOfDecimal(n / 10);
      assert s[..|s| - 1] == Decimal(n / 10);
    } else {
      assert s[..|s| - 1] == "";
    }
  }

  lemma DecimalPart(n: nat, maxPages: nat)
    requires 1 <= n <= maxPages <= 0x7FFF_FFFF_FFFF_FFFF
    ensures PartRange(Decimal(n), maxPages) == Some((n, n))
  {
    var s := Decimal(n);
    assert IsDigit(s[0]) && IsDigit(s[|s| - 1]);
    NotSpaceEnds(s);
    ValueOfDecimal(n);
    assert '-' !in s;
  }

  lemma {:induction false} JoinEnds(parts: seq<string>)
    requires parts != [] && forall i :: 0 <= i < |parts| ==> parts[i] != "" && AllDigits(parts[i])
    ensures var s := Join(parts); s != "" && IsDigit(s[0]) && IsDigit(s[|s| - 1])
  {
    if |parts| > 1 {
      JoinEnds(parts[1..]);
      assert parts[0] != "" && AllDigits(parts[0]);
    }
  }

  /** In range for this document. */
  ghost predicate InBounds(pages: seq<int>, maxPages: nat) {
    forall i :: 0 <= i < |pages| ==> 1 <= pages[i] <= maxPages
  }

  function Print(pages: seq<int>): string
    requires pages != [] && forall i :: 0 <= i < |pages| ==> pages[i] >= 0
  {
    Join(Decimals(pages))
  }

  function Singletons(pages: seq<int>): seq<seq<int>> {
    seq(|pages|, i requires 0 <= i < |pages| => [pages[i]])
  }

  lemma {:induction false} ExpandSingles(ranges: seq<Range>, pages: seq<int>)
    requires |ranges| == |pages|
    requires forall i :: 0 <= i < |pages| ==> pages[i] >= 0 && ranges[i] == Some((pages[i], pages[i]))
    ensures Expand(ranges) == Singletons(pages)
  {
    if pages != [] {
      var n := |pages| - 1;
      ExpandSingles(ranges[..n], pages[..n]);
      assert Interval(pages[n], pages[n]) == [pages[n]];
      assert Singletons(pages) == Singletons(pages[..n]) + [[pages[n]]];
    }
  }

  /** A printed page list reads back as one group a page, in the order printed. */
  lemma PrintedGroups(pages: seq<int>, maxPages: nat)
    requires pages != [] && InBounds(pages, maxPages) && maxPages <= 0x7FFF_FFFF_FFFF_FFFF
    ensures Groups(Print(pages), maxPages) == Singletons(pages)
  {
    var parts, s := Decimals(pages), Print(pages);
    JoinEnds(parts);
    NotSpaceEnds(s);
    forall i | 0 <= i < |parts|
      ensures ',' !in parts[i]
    {
      assert AllDigits(parts[i]);
    }
    SplitJoin(parts);
    forall i | 0 <= i < |pages|
      ensures Ranges(parts, maxPages)[i] == Some((pages[i], pages[i]))
    {
      DecimalPart(pages[i], maxPages);
    }
    ExpandSingles(Ranges(parts, maxPages), pages);
  }

  lemma AnElement(xs: seq<int>) returns (p: int)
    requires xs != []
    ensures p in xs
  {
    p := xs[0];
  }

  /** Ascending lists with the same elements are equal. */
  lemma {:induction false} AscendingUnique(xs: seq<int>, ys: seq<int>)
    requires StrictlyAscending(xs) && StrictlyAscending(ys) && forall p :: p in xs <==> p in ys
    ensures xs == ys
  {
    if xs == [] {
      if ys != [] {
        var p := AnElement(ys);
      }
    } else {
      assert xs[0] in xs && ys != [] && ys[0] in ys;
      assert xs[0] == ys[0];
      forall p
        ensures p in xs[1..] <==> p in ys[1..]
      {
        assert p in xs[1..] <==> p in xs && p != xs[0];
        assert p in ys[1..] <==> p in ys && p != ys[0];
      }
      AscendingUnique(xs[1..], ys[1..]);
    }
  }

  /** Printing a parsed selection and parsing it again changes nothing. */
  method Reparse(rangeStr: string, maxPages: nat) returns (pages: seq<int>, again: seq<int>)
    requires maxPages <= 0x7FFF_FFFF_FFFF_FFFF
    ensures Covers(pages, Groups(rangeStr, maxPages))
    ensures pages != [] ==> again == pages
  {
    pages := ParsePageRange(rangeStr, maxPages);
    again := [];
    if pages != [] {
      assert InBounds(pages, maxPages) by {
        assert forall i :: 0 <= i < |pages| ==> pages[i] in pages;
      }
      again := ParsePageRange(Print(pages), maxPages);
      PrintedPages(pages, again, maxPages);
    }
  }

  lemma PrintedPages(pages: seq<int>, again: seq<int>, maxPages: nat)
    requires pages != [] && InBounds(pages, maxPages) && maxPages <= 0x7FFF_FFFF_FFFF_FFFF
    requires StrictlyAscending(pages) && StrictlyAscending(again)
    requires Covers(again, Groups(Print(pages), maxPages))
    ensures again == pages
  {
    PrintedGroups(pages, maxPages);
    var groups := Groups(Print(pages), maxPages);
    forall p
      ensures InSome(groups, p) <==> p in pages
    {
      if p in pages {
        var i :| 0 <= i < |pages| && pages[i] == p;
        assert groups[i] == [p] && groups[i] in groups;
      }
    }
    AscendingUnique(again, pages);
  }

  // ------------------------------------------------------------ Equal groups

  function Concat(groups: seq<seq<int>>): seq<int> {
    if groups == [] then [] else Concat(groups[..|groups| - 1]) + groups[|groups| - 1]
  }

  /** How many pages come before group i. */
  function Before(base: nat, extra: nat, i: nat): nat {
    i * base + if i < extra then i else extra
  }

  lemma GroupEnds(base: nat, extra: nat, i: nat)
    ensures Before(base, extra, i + 1) == Before(base, extra, i) + base + if i < extra then 1 else 0
  {
    assert (i + 1) * base == i * base + base;
  }

  lemma IntervalsMeet(a: int, b: int, c: int)
    requires a <= b <= c
    ensures Interval(a, b - 1) + Interval(b, c - 1) == Interval(a, c - 1)
  {
  }

  lemma AllGroupsEnd(pageCount: nat, m: nat)
    requires 0 < m <= pageCount
    ensures pageCount / m >= 1 && pageCount % m < m
    ensures Before(pageCount / m, pageCount % m, m) == pageCount
  {
    assert pageCount == pageCount / m * m + pageCount % m;
    assert pageCount / m * m == m * (pageCount / m);
  }

  ghost predicate Sized(groups: seq<seq<int>>, base: nat, extra: nat) {
    forall k :: 0 <= k < |groups| ==> |groups[k]| == base + if k < extra then 1 else 0
  }

  /** n groups (or one a page) that put pages 1..pageCount end to end, none empty, the longer ones first and
      sizes at most one apart.  pageCount 0 with n > 0 divides by zero in the source. */
  method SplitEqualGroups(pageCount: nat, n: int) returns (groups: seq<seq<int>>)
    requires n > 0 ==> pageCount > 0
    ensures n <= 0 ==> groups == []
    ensures n > 0 ==> |groups| == (if n > pageCount then pageCount else n) && Concat(groups) == Interval(1, pageCount)
    ensures forall i :: 0 <= i < |groups| ==> |groups[i]| > 0
    ensures forall i, j :: 0 <= i < j < |groups| ==> |groups[j]| <= |groups[i]| <= |groups[j]| + 1
  {
    groups := [];
    if n <= 0 {
      return;
    }
    var m: nat := if n > pageCount then pageCount else n;
    var base, extra := pageCount / m, pageCount % m;
    AllGroupsEnd(pageCount, m);
    groups := Deal(base, extra, m);
    assert Sized(groups, base, extra);
  }

  /** The two loops of splitEqualGroups. */
  method Deal(base: nat, extra: nat, m: nat) returns (groups: seq<seq<int>>)
    ensures |groups| == m && Sized(groups, base, extra)
    ensures Concat(groups) == Interval(1, Before(base, extra, m))
  {
    groups := [];
    var page := 1;
    for i := 0 to m
      invariant |groups| == i && page == 1 + Before(base, extra, i)
      invariant Concat(groups) == Interval(1, page - 1)
      invariant Sized(groups, base, extra)
    {
      var size := base;
      if i < extra {
        size := size + 1;
      }
      GroupEnds(base, extra, i);
      var group := Fill(page, page + size - 1);
      IntervalsMeet(1, page, page + size);
      assert (groups + [group])[..i] == groups;
      groups := groups + [group];
      page := page + size;
    }
  }
}
