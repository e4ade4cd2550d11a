/** One part of a page selection, as organize-pdf/processing/processing_free.go reads it, and which parts it accepts. */
module PageParts {
  import opened Text
  import opened Wrappers

  // ------------------------------------------------------------ strings and strconv

  function Split(s: string, sep: char): (parts: seq<string>)
    ensures parts != []
  {
    if s == "" then [""]
    else
      var rest := Split(s[1..], sep);
      if s[0] == sep then [""] + rest else [[s[0]] + rest[0]] + rest[1..]
  }

  predicate IsDigit(c: char) {
    '0' <= c <= '9'
  }

  predicate AllDigits(s: string) {
    forall i :: 0 <= i < |s| ==> IsDigit(s[i])
  }

  function Value(s: string): nat
    requires AllDigits(s)
  {
    if s == "" then 0 else 10 * Value(s[..|s| - 1]) + (s[|s| - 1] as int - '0' as int)
  }

  const MAX_INT := 0x7FFF_FFFF_FFFF_FFFF

  /** strconv.Atoi on a 64-bit platform: an optional sign, then digits, in range. */
  function Atoi(s: string): Option<int> {
    var digits := if s != "" && (s[0] == '+' || s[0] == '-') then s[1..] else s;
    if digits == "" || !AllDigits(digits) then None
    else
      var n := if s[0] == '-' then -(Value(digits) as int) else Value(digits);
      if -MAX_INT - 1 <= n <= MAX_INT then Some(n) else None
  }

  // ------------------------------------------------------------ One comma-separated part

  /** The pages first..last a part selects; none when it is malformed, out of bounds or backwards. */
  function PartRange(part: string, maxPages: nat): (r: Option<(nat, nat)>)
    ensures r.Some? ==> 1 <= r.value.0 <= r.value.1 <= maxPages
  {
    var t := TrimSpace(part);
    if '-' in t then
      var ends := Split(t, '-');
      if |ends| != 2 then None
      else
        var start, end := Atoi(TrimSpace(ends[0])), Atoi(TrimSpace(ends[1]));
        if start.None? || end.None? || start.value < 1 || end.value > maxPages || start.value > end.value then None
        else Some((start.value, end.value))
    else
      var page := Atoi(t);
      if page.None? || page.value < 1 || page.value > maxPages then None else Some((page.value, page.value))
  }

  // ------------------------------------------------------------ Splitting and joining

  function Join(parts: seq<string>): string
    requires parts != []
  {
    if |parts| == 1 then parts[0] else parts[0] + "," + Join(parts[1..])
  }

  lemma {:induction false} SplitPrefix(a: string, sep: char, b: string)
    requires sep !in a
    ensures Split(a + [sep] + b, sep) == [a] + Split(b, sep)
    ensures Split(a, sep) == [a]
  {
    if a == "" {
      assert a + [sep] + b == [sep] + b;
    } else {
      SplitPrefix(a[1..], sep, b);
      var s := a + [sep] + b;
      assert s[1..] == a[1..] + [sep] + b;
      assert a == [a[0]] + a[1..];
    }
  }

  lemma {:induction false} SplitJoin(parts: seq<string>)
    requires parts != [] && forall i :: 0 <= i < |parts| ==> ',' !in parts[i]
    ensures Split(Join(parts), ',') == parts
  {
    if |parts| == 1 {
      SplitPrefix(parts[0], ',', "");
    } else {
      SplitJoin(parts[1..]);
      SplitPrefix(parts[0], ',', Join(parts[1..]));
    }
  }

  /** These are the comma-separated parts of s. */
  ghost predicate AreParts(s: string, parts: seq<string>) {
    parts != [] && (forall i :: 0 <= i < |parts| ==> ',' !in parts[i]) && Join(parts) == s
  }

  lemma {:induction false} SplitGivesParts(s: string)
    ensures AreParts(s, Split(s, ','))
  {
    if s != "" {
      var rest := Split(s[1..], ',');
      SplitGivesParts(s[1..]);
      assert s == [s[0]] + s[1..];
      if s[0] == ',' {
        assert ([""] + rest)[1..] == rest;
        assert s == "" + "," + Join(rest);
      } else {
        var parts := [[s[0]] + rest[0]] + rest[1..];
        assert parts[1..] == rest[1..];
        assert forall i :: 0 < i < |parts| ==> parts[i] == rest[i];
        if |rest| > 1 {
          assert [s[0]] + rest[0] + "," + Join(rest[1..]) == [s[0]] + (rest[0] + "," + Join(rest[1..]));
        }
      }
    }
  }

  /** Two parts are what stands before and after the only separator. */
  lemma {:induction false} SplitInTwo(s: string, sep: char)
    ensures sep !in Split(s, sep)[0]
    ensures |Split(s, sep)| == 1 ==> Split(s, sep)[0] == s
    ensures |Split(s, sep)| == 2 ==>
              sep !in Split(s, sep)[1] && s == Split(s, sep)[0] + [sep] + Split(s, sep)[1]
  {
    if s != "" {
      SplitInTwo(s[1..], sep);
      assert s == [s[0]] + s[1..];
    }
  }

  // ------------------------------------------------------------ Which parts select something

  /** Digits, or '+' and digits, of this value. */
  predicate Numeral(s: string, n: nat) {
    || (s != "" && AllDigits(s) && Value(s) == n)
    || (|s| > 1 && s[0] == '+' && AllDigits(s[1..]) && Value(s[1..]) == n)
  }

  /** A numeral with white space around it. */
  ghost predicate Spells(s: string, n: nat) {
    exists t :: Trims(s, t) && Numeral(t, n)
  }

  /** One numeral for one page, or two with a dash between them for the pages from one to the other. */
  ghost predicate Selects(part: string, first: nat, last: nat) {
    || (first == last && Spells(part, first))
    || exists l, r :: Dashed(part, l, r) && Spells(l, first) && Spells(r, last)
  }

  predicate Dashed(part: string, l: string, r: string) {
    part == l + "-" + r
  }

  lemma AtoiReads(s: string, n: nat)
    requires '-' !in s && n <= MAX_INT
    ensures Atoi(s) == Some(n) <==> Numeral(s, n)
  {
    if s != "" && s[0] != '+' {
      assert s[0] in s;
    }
  }

  lemma NumeralEnds(t: string, n: nat)
    requires Numeral(t, n)
    ensures t != "" && !IsSpace(t[0]) && !IsSpace(t[|t| - 1]) && '-' !in t
  {
    if s :| s == t[1..] && |t| > 1 && t[0] == '+' && AllDigits(s) {
      assert t == [t[0]] + s && t[|t| - 1] == s[|s| - 1];
    }
  }

  lemma NoDashInside(s: string, t: string)
    requires Trims(s, t) && '-' !in s
    ensures '-' !in t
  {
    var l, r :| Around(s, l, t, r);
    assert forall i :: 0 <= i < |t| ==> t[i] == s[|l| + i];
  }

  /** The trimmed text of an end of the range, where it stands in the part. */
  lemma EndSpells(x: string, end: string, y: string, n: nat)
    requires Blank(x) && Blank(y) && '-' !in end && n <= MAX_INT && Atoi(TrimSpace(end)) == Some(n)
    ensures Spells(x + end + y, n)
  {
    var u := TrimSpace(end);
    TrimSpaceIff(end, u);
    NoDashInside(end, u);
    AtoiReads(u, n);
    Padded(x, end, y, u);
  }

  lemma DashedAround(x: string, a: string, b: string, y: string)
    ensures Dashed(x + (a + "-" + b) + y, x + a + "", "" + b + y)
  {
    assert x + (a + "-" + b) + y == (x + a) + "-" + (b + y);
  }

  lemma SelectedSpan(part: string, maxPages: nat, first: nat, last: nat)
    requires maxPages <= MAX_INT && PartRange(part, maxPages) == Some((first, last)) && '-' in TrimSpace(part)
    ensures Selects(part, first, last)
  {
    var t := TrimSpace(part);
    TrimSpaceIff(part, t);
    var x, y :| Around(part, x, t, y);
    var ends := Split(t, '-');
    SplitInTwo(t, '-');
    EndSpells(x, ends[0], "", first);
    EndSpells("", ends[1], y, last);
    DashedAround(x, ends[0], ends[1], y);
  }

  /** An end of the range reads as its numeral. */
  lemma EndReads(s: string, x: string, u: string, y: string, n: nat)
    requires Around(s, x, u, y) && Numeral(u, n) && n <= MAX_INT
    ensures Atoi(TrimSpace(s)) == Some(n) && '-' !in s
  {
    NumeralEnds(u, n);
    TrimsTo(s, u, x, y);
    AtoiReads(u, n);
    forall i | 0 <= i < |s|
      ensures s[i] != '-'
    {
      assert i < |x| ==> s[i] == x[i];
      assert |x| <= i < |x| + |u| ==> s[i] == u[i - |x|];
      assert |x| + |u| <= i ==> s[i] == y[i - |x| - |u|];
    }
  }

  lemma TrimmedSpan(part: string, l: string, r: string, x: string, u: string, y: string, p: string, v: string,
                    q: string)
    requires Dashed(part, l, r) && Around(l, x, u, y) && Around(r, p, v, q)
    requires u != "" && v != "" && Tight(u) && Tight(v)
    ensures TrimSpace(part) == (u + y) + "-" + (p + v)
  {
    var t := (u + y) + "-" + (p + v);
    assert (x + u + y) + "-" + (p + v + q) == x + t + q;
    assert t[0] == u[0] && t[|t| - 1] == v[|v| - 1];
    TrimsTo(part, t, x, q);
  }

  lemma SplitsAtDash(a: string, b: string)
    requires '-' !in a && '-' !in b
    ensures Split(a + "-" + b, '-') == [a, b] && '-' in a + "-" + b
  {
    SplitPrefix(a, '-', b);
    SplitPrefix(b, '-', "");
    assert (a + "-" + b)[|a|] == '-';
  }

  lemma SpanIsSelected(part: string, l: string, r: string, maxPages: nat, first: nat, last: nat)
    requires Dashed(part, l, r) && Spells(l, first) && Spells(r, last)
    requires 1 <= first <= last <= maxPages <= MAX_INT
    ensures PartRange(part, maxPages) == Some((first, last))
  {
    var u :| Trims(l, u) && Numeral(u, first);
    var v :| Trims(r, v) && Numeral(v, last);
    var x, y :| Around(l, x, u, y);
    var p, q :| Around(r, p, v, q);
    NumeralEnds(u, first);
    NumeralEnds(v, last);
    TrimmedSpan(part, l, r, x, u, y, p, v, q);
    assert u + y == "" + u + y && p + v == p + v + "";
    EndReads(u + y, "", u, y, first);
    EndReads(p + v, p, v, "", last);
    SplitsAtDash(u + y, p + v);
  }

  /** A part selects the pages from first to last exactly if they are in bounds, not backwards, and what it spells. */
  lemma PartRangeIff(part: string, maxPages: nat, first: nat, last: nat)
    requires maxPages <= 0x7FFF_FFFF_FFFF_FFFF
    ensures PartRange(part, maxPages) == Some((first, last)) <==>
            1 <= first <= last <= maxPages && Selects(part, first, last)
  {
    var t := TrimSpace(part);
    TrimSpaceIff(part, t);
    if PartRange(part, maxPages) == Some((first, last)) {
      if '-' in t {
        SelectedSpan(part, maxPages, first, last);
      } else {
        AtoiReads(t, first);
      }
    }
    if 1 <= first <= last <= maxPages {
      if first == last && Spells(part, first) {
        var u :| Trims(part, u) && Numeral(u, first);
        TrimSpaceIff(part, u);
        NumeralEnds(u, first);
        AtoiReads(u, first);
      } else if l, r :| Dashed(part, l, r) && Spells(l, first) && Spells(r, last) {
        SpanIsSelected(part, l, r, maxPages, first, last);
      }
    }
  }
}
