/** The alert throttle of shared/discord/discord.go: which re-sent alerts are announced. */
module Alerts {
  import opened Wrappers

  type Fingerprint = string

  datatype Entry = Entry(firing: bool, last: int)

  /** One call of shouldNotify. */
  datatype Call = Call(fp: Fingerprint, firing: bool, now: int)

  /** The throttle's state and answer for one call, on one fingerprint's entry. */
  function Decide(prev: Option<Entry>, repeat: int, firing: bool, now: int): (Option<Entry>, bool) {
    if !firing then (None, prev.Some? && prev.value.firing)
    else if prev.None? || !prev.value.firing || now - prev.value.last >= repeat then (Some(Entry(true, now)), true)
    else (prev, false)
  }

  function Lookup(seen: map<Fingerprint, Entry>, fp: Fingerprint): Option<Entry> {
    if fp in seen then Some(seen[fp]) else None
  }

  /** A fingerprint's entry after these calls, oldest first; calls on other fingerprints do not count. */
  function EntryAfter(repeat: int, calls: seq<Call>, fp: Fingerprint): Option<Entry> {
    if calls == [] then None
    else
      var before, c := EntryAfter(repeat, calls[..|calls| - 1], fp), calls[|calls| - 1];
      if c.fp == fp then Decide(before, repeat, c.firing, c.now).0 else before
  }

  /** Whether call i was announced. */
  predicate Announced(repeat: int, calls: seq<Call>, i: nat)
    requires i < |calls|
  {
    Decide(EntryAfter(repeat, calls[..i], calls[i].fp), repeat, calls[i].firing, calls[i].now).1
  }

  class Throttle {
    const repeat: int
    var seen: map<Fingerprint, Entry>
    ghost var calls: seq<Call>

    constructor (repeat: int)
      ensures Valid() && calls == [] && this.repeat == repeat
    {
      this.repeat := repeat;
      seen, calls := map[], [];
    }

    ghost predicate Valid()
      reads this
    {
      forall fp :: Lookup(seen, fp) == EntryAfter(repeat, calls, fp)
    }

    method ShouldNotify(fp: Fingerprint, firing: bool, now: int) returns (notify: bool)
      requires Valid()
      modifies this
      ensures Valid() && calls == old(calls) + [Call(fp, firing, now)]
      ensures notify == Announced(repeat, calls, |calls| - 1)
    {
      ghost var before := calls;
      calls := calls + [Call(fp, firing, now)];
      assert calls[..|before|] == before;
      assert Lookup(seen, fp) == EntryAfter(repeat, before, fp);
      if !firing {
        if fp in seen && seen[fp].firing {
          seen := seen - {fp};
          return true;
        }
        if fp in seen {
          seen := seen - {fp};
        }
        return false;
      }
      if fp !in seen || !seen[fp].firing || now - seen[fp].last >= repeat {
        seen := seen[fp := Entry(true, now)];
        return true;
      }
      return false;
    }
  }

  // ------------------------------------------------------------ What the history says

  /** Call j is the last one on its fingerprint before call i. */
  ghost predicate Precedes(calls: seq<Call>, j: nat, i: nat) {
    && j < i <= |calls|
    && forall k :: j < k < i ==> calls[k].fp != calls[j].fp
  }

  /** No call on this fingerprint before call i. */
  predicate Unseen(calls: seq<Call>, fp: Fingerprint, i: nat) {
    forall k :: 0 <= k < i && k < |calls| ==> calls[k].fp != fp
  }

  lemma {:induction false} EntryIsFiring(repeat: int, calls: seq<Call>, fp: Fingerprint)
    ensures var e := EntryAfter(repeat, calls, fp); e.Some? ==> e.value.firing
  {
    if calls != [] {
      EntryIsFiring(repeat, calls[..|calls| - 1], fp);
    }
  }

  /** Calls on other fingerprints change nothing. */
  lemma {:induction false} EntrySkips(repeat: int, calls: seq<Call>, j: nat, i: nat, fp: Fingerprint)
    requires j <= i <= |calls| && forall k :: j <= k < i ==> calls[k].fp != fp
    ensures EntryAfter(repeat, calls[..i], fp) == EntryAfter(repeat, calls[..j], fp)
  {
    if j < i {
      EntrySkips(repeat, calls, j, i - 1, fp);
      assert calls[..i][..i - 1] == calls[..i - 1];
    }
  }

  lemma EntryAfterCall(repeat: int, calls: seq<Call>, j: nat, i: nat)
    requires Precedes(calls, j, i)
    ensures EntryAfter(repeat, calls[..i], calls[j].fp)
            == Decide(EntryAfter(repeat, calls[..j], calls[j].fp), repeat, calls[j].firing, calls[j].now).0
  {
    EntrySkips(repeat, calls, j + 1, i, calls[j].fp);
    assert calls[..j + 1][..j] == calls[..j];
  }

  lemma UnseenHasNoEntry(repeat: int, calls: seq<Call>, fp: Fingerprint, i: nat)
    requires i <= |calls| && Unseen(calls, fp, i)
    ensures EntryAfter(repeat, calls[..i], fp) == None
  {
    EntrySkips(repeat, calls, 0, i, fp);
    assert calls[..0] == [];
  }

  /** A resolved call is announced exactly when the call before it on that fingerprint was firing: every episode
      that resolves is announced once. */
  lemma ResolvedOnce(repeat: int, calls: seq<Call>, i: nat)
    requires i < |calls| && !calls[i].firing
    ensures Announced(repeat, calls, i) <==>
            exists j: nat :: Precedes(calls, j, i) && calls[j].fp == calls[i].fp && calls[j].firing
  {
    var fp := calls[i].fp;
    EntryIsFiring(repeat, calls[..i], fp);
    if Unseen(calls, fp, i) {
      UnseenHasNoEntry(repeat, calls, fp, i);
    } else {
      var j := LastCall(calls, fp, i);
      EntryAfterCall(repeat, calls, j, i);
      EntryIsFiring(repeat, calls[..j], fp);
    }
  }

  /** The last call on a fingerprint that has been seen. */
  lemma LastCall(calls: seq<Call>, fp: Fingerprint, i: nat) returns (j: nat)
    requires i <= |calls| && !Unseen(calls, fp, i)
    ensures Precedes(calls, j, i) && calls[j].fp == fp
  {
    j := i - 1;
    while calls[j].fp != fp
      invariant 0 <= j < i && !Unseen(calls, fp, j + 1)
      invariant forall k :: j < k < i ==> calls[k].fp != fp
      decreases j
    {
      j := j - 1;
    }
  }

  /** Call j was announced as firing, and since then its fingerprint has stayed firing unannounced up to call i. */
  ghost predicate LastAnnounced(repeat: int, calls: seq<Call>, j: nat, i: nat) {
    && j < i <= |calls| && calls[j].firing && Announced(repeat, calls, j)
    && forall k :: j < k < i && calls[k].fp == calls[j].fp ==> calls[k].firing && !Announced(repeat, calls, k)
  }

  /** What the entry stands for: its fingerprint's last announced firing call, in an episode still open. */
  lemma {:induction false} EntryIsLastAnnounced(repeat: int, calls: seq<Call>, i: nat, fp: Fingerprint) returns (j: nat)
    requires i <= |calls| && EntryAfter(repeat, calls[..i], fp).Some?
    ensures LastAnnounced(repeat, calls, j, i) && calls[j].fp == fp
    ensures EntryAfter(repeat, calls[..i], fp) == Some(Entry(true, calls[j].now))
  {
    assert calls[..i][..i - 1] == calls[..i - 1];
    if calls[i - 1].fp == fp && Announced(repeat, calls, i - 1) {
      j := i - 1;
    } else {
      j := EntryIsLastAnnounced(repeat, calls, i - 1, fp);
    }
  }

  lemma {:induction false} AnnouncedIsEntry(repeat: int, calls: seq<Call>, j: nat, i: nat)
    requires LastAnnounced(repeat, calls, j, i)
    ensures EntryAfter(repeat, calls[..i], calls[j].fp) == Some(Entry(true, calls[j].now))
  {
    assert calls[..i][..i - 1] == calls[..i - 1];
    if j < i - 1 {
      AnnouncedIsEntry(repeat, calls, j, i - 1);
    }
  }

  /** A firing call is held back exactly when its fingerprint's episode is open and was announced less than
      repeat ago; so notices within an episode are at least repeat apart. */
  lemma FiringHeldBack(repeat: int, calls: seq<Call>, i: nat)
    requires i < |calls| && calls[i].firing
    ensures !Announced(repeat, calls, i) <==>
            exists j: nat :: LastAnnounced(repeat, calls, j, i) && calls[j].fp == calls[i].fp
                             && calls[i].now - calls[j].now < repeat
  {
    var fp := calls[i].fp;
    EntryIsFiring(repeat, calls[..i], fp);
    if !Announced(repeat, calls, i) {
      var j := EntryIsLastAnnounced(repeat, calls, i, fp);
    }
    forall j: nat | LastAnnounced(repeat, calls, j, i) && calls[j].fp == fp && calls[i].now - calls[j].now < repeat
      ensures !Announced(repeat, calls, i)
    {
      AnnouncedIsEntry(repeat, calls, j, i);
    }
  }

  /** Consecutive notices of one open episode. */
  lemma NoticesAreSpaced(repeat: int, calls: seq<Call>, j: nat, i: nat)
    requires i < |calls| && LastAnnounced(repeat, calls, j, i) && calls[i].fp == calls[j].fp && calls[i].firing
    ensures Announced(repeat, calls, i) <==> calls[i].now - calls[j].now >= repeat
  {
    AnnouncedIsEntry(repeat, calls, j, i);
  }

  /** The calls on one fingerprint. */
  function Only(calls: seq<Call>, fp: Fingerprint): seq<Call> {
    if calls == [] then []
    else
      Only(calls[..|calls| - 1], fp)
      + if calls[|calls| - 1].fp == fp then [calls[|calls| - 1]] else []
  }

  lemma {:induction false} EntryOfOwnCalls(repeat: int, calls: seq<Call>, fp: Fingerprint)
    ensures EntryAfter(repeat, calls, fp) == EntryAfter(repeat, Only(calls, fp), fp)
  {
    if calls != [] {
      var n := |calls| - 1;
      EntryOfOwnCalls(repeat, calls[..n], fp);
      var own, before := Only(calls, fp), Only(calls[..n], fp);
      if calls[n].fp == fp {
        assert own == before + [calls[n]] && own[..|own| - 1] == before;
      } else {
        assert own == before;
      }
    }
  }

  /** Fingerprints do not interfere: a call is answered as if only its own fingerprint had ever been seen. */
  lemma OthersDoNotInterfere(repeat: int, calls: seq<Call>, i: nat)
    requires i < |calls|
    ensures var own := Only(calls[..i], calls[i].fp) + [calls[i]];
            Announced(repeat, calls, i) == Announced(repeat, own, |own| - 1)
  {
    var past := Only(calls[..i], calls[i].fp);
    assert (past + [calls[i]])[..|past|] == past;
    EntryOfOwnCalls(repeat, calls[..i], calls[i].fp);
  }

  /** Between two announced resolutions of a fingerprint there is an announced firing: announcements come as one or
      more firings and then at most one resolution. */
  lemma ResolutionsAlternate(repeat: int, calls: seq<Call>, a: nat, b: nat) returns (j: nat)
    requires a < b < |calls| && calls[a].fp == calls[b].fp && !calls[a].firing && !calls[b].firing
    requires Announced(repeat, calls, b)
    ensures a < j < b && calls[j].fp == calls[a].fp && calls[j].firing && Announced(repeat, calls, j)
  {
    j := EntryIsLastAnnounced(repeat, calls, b, calls[b].fp);
  }
}
