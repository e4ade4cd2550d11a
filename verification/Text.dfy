/** Go's strings.TrimSpace and strings.ToLower. */
module Text {
  /** unicode.IsSpace. */
  predicate IsSpace(c: char) {
    || c == '\t' || c == '\n' || c == '\r' || c == ' '
    || c as int in {0x0B, 0x0C, 0x85, 0xA0, 0x1680, 0x2028, 0x2029, 0x202F, 0x205F, 0x3000}
    || 0x2000 <= c as int <= 0x200A
  }

  function TrimLeft(s: string): string {
    if s != "" && IsSpace(s[0]) then TrimLeft(s[1..]) else s
  }

  function TrimRight(s: string): string {
    if s != "" && IsSpace(s[|s| - 1]) then TrimRight(s[..|s| - 1]) else s
  }

  function TrimSpace(s: string): string {
    TrimRight(TrimLeft(s))
  }

  /** strings.ToLower on ASCII letters. */
  function ToLower(s: string): string {
    seq(|s|, i requires 0 <= i < |s| =>
      if 'A' <= s[i] <= 'Z' then (s[i] as int - 'A' as int + 'a' as int) as char else s[i])
  }

  // ------------------------------------------------------------ What they mean

  predicate Blank(s: string) {
    forall i :: 0 <= i < |s| ==> IsSpace(s[i])
  }

  /** s is t with this white space around it. */
  predicate Around(s: string, l: string, t: string, r: string) {
    s == l + t + r && Blank(l) && Blank(r)
  }

  predicate Tight(t: string) {
    t != "" ==> !IsSpace(t[0]) && !IsSpace(t[|t| - 1])
  }

  /** s is t with white space around it, and t neither begins nor ends with any. */
  ghost predicate Trims(s: string, t: string) {
    Tight(t) && exists l, r :: Around(s, l, t, r)
  }

  /** The word, in letters of either case, with white space around it. */
  ghost predicate SpelledAs(s: string, word: string) {
    exists l, m, r :: Around(s, l, m, r) && SameLetters(m, word)
  }

  predicate SameLetters(m: string, word: string) {
    && |m| == |word|
    && forall i :: 0 <= i < |m| ==> m[i] == word[i] || ('A' <= m[i] <= 'Z' && m[i] as int + 32 == word[i] as int)
  }

  lemma {:induction false} TrimLeftIs(s: string, l: string, t: string)
    requires s == l + t && Blank(l) && (t != "" ==> !IsSpace(t[0]))
    ensures TrimLeft(s) == t
  {
    if l == "" {
      assert s == t;
    } else {
      assert s[0] == l[0] && s[1..] == l[1..] + t;
      TrimLeftIs(s[1..], l[1..], t);
    }
  }

  lemma {:induction false} TrimRightIs(s: string, t: string, r: string)
    requires s == t + r && Blank(r) && (t != "" ==> !IsSpace(t[|t| - 1]))
    ensures TrimRight(s) == t
  {
    if r == "" {
      assert s == t;
    } else {
      assert s[|s| - 1] == r[|r| - 1] && s[..|s| - 1] == t + r[..|r| - 1];
      TrimRightIs(s[..|s| - 1], t, r[..|r| - 1]);
    }
  }

  lemma {:induction false} TrimLeftParts(s: string) returns (l: string)
    ensures s == l + TrimLeft(s) && Blank(l) && (TrimLeft(s) != "" ==> !IsSpace(TrimLeft(s)[0]))
  {
    l := "";
    if s != "" && IsSpace(s[0]) {
      var rest := TrimLeftParts(s[1..]);
      l := [s[0]] + rest;
    }
  }

  lemma {:induction false} TrimRightParts(s: string) returns (r: string)
    ensures s == TrimRight(s) + r && Blank(r)
    ensures TrimRight(s) != "" ==> !IsSpace(TrimRight(s)[|TrimRight(s)| - 1])
  {
    r := "";
    if s != "" && IsSpace(s[|s| - 1]) {
      var rest := TrimRightParts(s[..|s| - 1]);
      r := rest + [s[|s| - 1]];
    }
  }

  lemma Trimmed(s: string)
    ensures Trims(s, TrimSpace(s))
  {
    var l := TrimLeftParts(s);
    var t := TrimLeft(s);
    var r := TrimRightParts(t);
    var u := TrimRight(t);
    assert u != "" ==> u[0] == t[0];
    assert Around(s, l, u, r);
  }

  lemma TrimsTo(s: string, t: string, x: string, y: string)
    requires Around(s, x, t, y) && Tight(t)
    ensures TrimSpace(s) == t
  {
    if t == "" {
      TrimLeftIs(s, x + y, "");
    } else {
      assert s == x + (t + y) && (t + y)[0] == t[0];
      TrimLeftIs(s, x, t + y);
      TrimRightIs(t + y, t, y);
    }
  }

  /** A string trims to t, and only to t. */
  lemma TrimSpaceIff(s: string, t: string)
    ensures TrimSpace(s) == t <==> Trims(s, t)
  {
    Trimmed(s);
    if Trims(s, t) {
      var x, y :| Around(s, x, t, y);
      TrimsTo(s, t, x, y);
    }
  }

  lemma NotBlankIff(s: string)
    ensures TrimSpace(s) == "" <==> Blank(s)
  {
    Trimmed(s);
    if Blank(s) {
      TrimsTo(s, "", s, "");
    }
  }

  /** Lower-casing what is left of a name gives a word of small letters exactly if the name spells the word. */
  lemma SpelledAsIff(s: string, word: string)
    requires forall i :: 0 <= i < |word| ==> 'a' <= word[i] <= 'z'
    ensures ToLower(TrimSpace(s)) == word <==> SpelledAs(s, word)
  {
    var t := TrimSpace(s);
    TrimSpaceIff(s, t);
    if ToLower(t) == word {
      assert forall i :: 0 <= i < |t| ==> ToLower(t)[i] == word[i];
      assert SameLetters(t, word);
    }
    if SpelledAs(s, word) {
      var l, m, r :| Around(s, l, m, r) && SameLetters(m, word);
      TrimsTo(s, m, l, r);
      assert ToLower(m) == word;
    }
  }

  lemma Padded(x: string, s: string, y: string, t: string)
    requires Blank(x) && Blank(y) && Trims(s, t)
    ensures Trims(x + s + y, t)
  {
    var l, r :| Around(s, l, t, r);
    assert x + (l + t + r) + y == (x + l) + t + (r + y);
    assert Around(x + s + y, x + l, t, r + y);
  }
}
