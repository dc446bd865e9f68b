/**
  `get_latest` of zomes/hc_zome_trust_atom/src/trust_graph.rs: of the links fetched from a
  base that point at a given target, the one with the greatest timestamp. The code collects
  the matching links, sorts them by timestamp with a stable sort and pops the last one, so
  among links with the same greatest timestamp the one fetched last wins.
*/
module Latest {
  import opened Wrappers
  import opened Utf8
  import opened HoloHash
  import opened Hdk

  /** The links that point at `target`, in the order given. */
  function Matching(links: seq<Link>, target: EntryHash): (r: seq<Link>)
    ensures forall l :: l in r <==> l in links && l.target == target
    ensures |r| <= |links|
    decreases |links|
  {
    if |links| == 0 then []
    else
      var init := links[..|links| - 1];
      var last := links[|links| - 1];
      assert links == init + [last];
      Matching(init, target) + if last.target == target then [last] else []
  }

  /** The links `get_latest(base, target, filter)` chooses from. */
  function Candidates(store: seq<Link>, base: EntryHash, target: EntryHash, filter: Option<seq<byte>>): (r: seq<Link>)
    ensures forall l :: l in r <==> l in store && Selects(l, base, filter) && l.target == target
  {
    Matching(GetLinks(store, base, filter), target)
  }

  predicate SortedByTimestamp(s: seq<Link>)
  {
    forall i, j :: 0 <= i < j < |s| ==> s[i].timestamp <= s[j].timestamp
  }

  /** One step of a stable insertion sort: `x` goes after every element whose timestamp is
      not greater than its own. */
  function InsertByTimestamp(s: seq<Link>, x: Link): (r: seq<Link>)
    requires SortedByTimestamp(s)
    ensures SortedByTimestamp(r)
    ensures |r| == |s| + 1
    ensures multiset(r) == multiset(s) + multiset{x}
    decreases |s|
  {
    if |s| == 0 || s[|s| - 1].timestamp <= x.timestamp then s + [x]
    else
      var init := s[..|s| - 1];
      var last := s[|s| - 1];
      assert s == init + [last];
      var front := InsertByTimestamp(init, x);
      forall l | l in front ensures l.timestamp <= last.timestamp {
        assert l in multiset(front);
        if l != x {
          assert l in multiset(init);
        }
      }
      SortedSnoc(front, last);
      front + [last]
  }

  /** Appending an element no earlier than all others keeps a sequence sorted. */
  lemma SortedSnoc(s: seq<Link>, x: Link)
    requires SortedByTimestamp(s)
    requires forall l :: l in s ==> l.timestamp <= x.timestamp
    ensures SortedByTimestamp(s + [x])
  {
    var r := s + [x];
    forall i, j | 0 <= i < j < |r| ensures r[i].timestamp <= r[j].timestamp {
      assert r[i] == s[i];
      if j < |s| { assert r[j] == s[j]; }
    }
  }

  /** `sort_by(|a, b| a.timestamp.cmp(&b.timestamp))`, a stable sort, as a left fold of
      insertions. */
  function SortByTimestamp(s: seq<Link>): (r: seq<Link>)
    ensures SortedByTimestamp(r)
    ensures multiset(r) == multiset(s)
    ensures |r| == |s|
    decreases |s|
  {
    if |s| == 0 then []
    else
      assert s == s[..|s| - 1] + [s[|s| - 1]];
      InsertByTimestamp(SortByTimestamp(s[..|s| - 1]), s[|s| - 1])
  }

  /** `Vec::pop`. */
  function Pop(s: seq<Link>): (r: Option<Link>)
    ensures r.None? <==> |s| == 0
    ensures r.Some? ==> r.value == s[|s| - 1] && r.value in s
  {
    if |s| == 0 then None else Some(s[|s| - 1])
  }

  /** The index of the last element whose timestamp is the greatest. */
  function LastMaxIndex(s: seq<Link>): (i: nat)
    requires |s| > 0
    ensures i < |s|
    ensures forall j :: 0 <= j < |s| ==> s[j].timestamp <= s[i].timestamp
    ensures forall j :: i < j < |s| ==> s[j].timestamp < s[i].timestamp
    decreases |s|
  {
    if |s| == 1 then 0
    else
      var k := LastMaxIndex(s[..|s| - 1]);
      if s[k].timestamp <= s[|s| - 1].timestamp then |s| - 1 else k
  }

  /** Sorting stably by timestamp and taking the last element picks the last of the links
      with the greatest timestamp. */
  lemma {:induction false} SortedLastIsLastMaximum(s: seq<Link>)
    requires |s| > 0
    ensures Pop(SortByTimestamp(s)) == Some(s[LastMaxIndex(s)])
    decreases |s|
  {
    var init := s[..|s| - 1];
    var x := s[|s| - 1];
    var t := SortByTimestamp(init);
    if |s| > 1 {
      SortedLastIsLastMaximum(init);
      var k := LastMaxIndex(init);
      assert t[|t| - 1] == init[k] == s[k];
    }
  }

  /** `get_latest(base, target, filter)` over a snapshot of the store: the candidates sorted
      by timestamp, then popped. */
  function LatestLink(store: seq<Link>, base: EntryHash, target: EntryHash, filter: Option<seq<byte>>): (r: Option<Link>)
    ensures r.None? <==> forall l :: l in store && Selects(l, base, filter) ==> l.target != target
    ensures r.Some? ==> r.value in store && Selects(r.value, base, filter) && r.value.target == target
  {
    var c := Candidates(store, base, target, filter);
    PopSortedIsCandidate(c);
    Pop(SortByTimestamp(c))
  }

  /** Sorting loses no link, so popping after the sort finds a link exactly when there is one. */
  lemma PopSortedIsCandidate(c: seq<Link>)
    ensures Pop(SortByTimestamp(c)).None? <==> |c| == 0
    ensures Pop(SortByTimestamp(c)).Some? ==> Pop(SortByTimestamp(c)).value in c
    ensures |c| > 0 ==> c[0] in c
  {
    var sorted := SortByTimestamp(c);
    if |c| > 0 {
      assert sorted[|sorted| - 1] in multiset(c);
    }
  }

  /** `get_latest` finds nothing exactly when no fetched link points at the target; otherwise
      it finds a fetched link to the target with the greatest timestamp, the last such link
      in fetch order. */
  lemma LatestLinkIsLastMaximum(store: seq<Link>, base: EntryHash, target: EntryHash, filter: Option<seq<byte>>)
    ensures var r := LatestLink(store, base, target, filter);
      && (r.None? <==> forall l :: l in store && Selects(l, base, filter) ==> l.target != target)
      && (r.Some? ==>
            && r.value in store && Selects(r.value, base, filter) && r.value.target == target
            && forall l :: l in store && Selects(l, base, filter) && l.target == target ==> l.timestamp <= r.value.timestamp)
      && (r.Some? ==>
            var c := Candidates(store, base, target, filter);
            exists i :: 0 <= i < |c| && c[i] == r.value && forall j :: i < j < |c| ==> c[j].timestamp < r.value.timestamp)
  {
    var c := Candidates(store, base, target, filter);
    if |c| == 0 {
      assert forall l :: l in store && Selects(l, base, filter) && l.target == target ==> l in c;
    } else {
      SortedLastIsLastMaximum(c);
      var i := LastMaxIndex(c);
      assert LatestLink(store, base, target, filter) == Some(c[i]);
      assert c[i] in c;
      assert forall l :: l in c ==> l.timestamp <= c[i].timestamp;
    }
  }

  /** Where the insertion puts `x`: after the elements that are not later than it and
      before those that are. */
  /** Inserting before the last link keeps the last link last. */
  lemma InsertBeforeLast(s: seq<Link>, x: Link)
    requires SortedByTimestamp(s) && |s| > 0 && s[|s| - 1].timestamp > x.timestamp
    ensures SortedByTimestamp(s[..|s| - 1])
    ensures InsertByTimestamp(s, x) == InsertByTimestamp(s[..|s| - 1], x) + [s[|s| - 1]]
  {
    var init := s[..|s| - 1];
    forall a, b | 0 <= a < b < |init| ensures init[a].timestamp <= init[b].timestamp {
      assert init[a] == s[a] && init[b] == s[b];
    }
  }

  lemma SpliceBeforeLast(s: seq<Link>, x: Link, j: nat)
    requires j < |s|
    ensures s[..|s| - 1][..j] + [x] + s[..|s| - 1][j..] + [s[|s| - 1]] == s[..j] + [x] + s[j..]
  {
    var init := s[..|s| - 1];
    assert init[..j] == s[..j] && init[j..] + [s[|s| - 1]] == s[j..];
    assert init[..j] + [x] + init[j..] + [s[|s| - 1]] == s[..j] + [x] + (init[j..] + [s[|s| - 1]]);
  }

  lemma {:induction false} InsertPosition(s: seq<Link>, x: Link, j: nat)
    requires SortedByTimestamp(s) && j <= |s|
    requires j == 0 || s[j - 1].timestamp <= x.timestamp
    requires forall k :: j <= k < |s| ==> s[k].timestamp > x.timestamp
    ensures InsertByTimestamp(s, x) == s[..j] + [x] + s[j..]
    decreases |s|
  {
    if j < |s| {
      var init := s[..|s| - 1];
      var last := s[|s| - 1];
      assert j > 0 ==> init[j - 1] == s[j - 1];
      forall k | j <= k < |init| ensures init[k].timestamp > x.timestamp {
        assert init[k] == s[k];
      }
      InsertBeforeLast(s, x);
      InsertPosition(init, x, j);
      SpliceBeforeLast(s, x, j);
    } else {
      assert s[..j] == s && s[j..] == [];
    }
  }

  /** A sequence that agrees with `s` before `j`, holds `x` at `j` and `s` shifted by one
      after it, is `s` with `x` inserted at `j`. */
  lemma Shifted(t: seq<Link>, s: seq<Link>, x: Link, j: nat)
    requires |t| == |s| + 1 && j <= |s|
    requires forall k :: 0 <= k < j ==> t[k] == s[k]
    requires t[j] == x
    requires forall k :: j < k < |t| ==> t[k] == s[k - 1]
    ensures t == s[..j] + [x] + s[j..]
  {
    var u := s[..j] + [x] + s[j..];
    forall k | 0 <= k < |t| ensures t[k] == u[k] {
      if k < j {
        assert u[k] == s[k];
      } else if j < k {
        assert u[k] == s[k - 1];
      }
    }
  }

  lemma SortByTimestampSnoc(s: seq<Link>, i: nat)
    requires i < |s|
    ensures SortByTimestamp(s[..i + 1]) == InsertByTimestamp(SortByTimestamp(s[..i]), s[i])
  {
    assert s[..i + 1][..i] == s[..i];
  }

  /** One round of the in-place sort: `a[i]` moves down into the sorted `a[..i]`. */
  method InsertInPlace(a: array<Link>, i: nat)
    requires i < a.Length && SortedByTimestamp(a[..i])
    modifies a
    ensures a[..i + 1] == InsertByTimestamp(old(a[..i]), old(a[i]))
    ensures forall k :: i < k < a.Length ==> a[k] == old(a[k])
  {
    ghost var sorted := a[..i];
    var x := a[i];
    var j := ShiftLater(a, i, x, sorted);
    a[j] := x;
    PlacedAt(a[..i + 1], sorted, x, j);
  }

  /** A sequence that holds the sorted `s` with `x` placed at its insertion point is the insertion. */
  lemma PlacedAt(t: seq<Link>, s: seq<Link>, x: Link, j: nat)
    requires SortedByTimestamp(s) && |t| == |s| + 1 && j <= |s|
    requires forall k :: 0 <= k < j ==> t[k] == s[k]
    requires t[j] == x
    requires forall k :: j < k < |t| ==> t[k] == s[k - 1]
    requires j == 0 || s[j - 1].timestamp <= x.timestamp
    requires forall k :: j <= k < |s| ==> s[k].timestamp > x.timestamp
    ensures t == InsertByTimestamp(s, x)
  {
    Shifted(t, s, x, j);
    InsertPosition(s, x, j);
  }

  /** The shifting loop of one insertion round: the links of the sorted `a[..i]` later than
      `x` move one place up, leaving a gap at `j`. */
  method ShiftLater(a: array<Link>, i: nat, x: Link, ghost sorted: seq<Link>) returns (j: nat)
    requires i < a.Length && a[..i] == sorted
    modifies a
    ensures j <= i
    ensures forall k :: 0 <= k < j ==> a[k] == sorted[k]
    ensures forall k :: j < k <= i ==> a[k] == sorted[k - 1]
    ensures forall k :: i < k < a.Length ==> a[k] == old(a[k])
    ensures j == 0 || sorted[j - 1].timestamp <= x.timestamp
    ensures forall k :: j <= k < i ==> sorted[k].timestamp > x.timestamp
  {
    j := i;
    while j > 0 && a[j - 1].timestamp > x.timestamp
      invariant 0 <= j <= i
      invariant forall k :: 0 <= k < j ==> a[k] == sorted[k]
      invariant forall k :: j < k <= i ==> a[k] == sorted[k - 1]
      invariant forall k :: i < k < a.Length ==> a[k] == old(a[k])
      invariant forall k :: j <= k < i ==> sorted[k].timestamp > x.timestamp
    {
      a[j] := a[j - 1];
      j := j - 1;
    }
  }

  method SortLinksByTimestamp(a: array<Link>)
    modifies a
    ensures a[..] == SortByTimestamp(old(a[..]))
  {
    ghost var input := a[..];
    var i := 0;
    while i < a.Length
      invariant 0 <= i <= a.Length
      invariant a[..i] == SortByTimestamp(input[..i])
      invariant forall k :: i <= k < a.Length ==> a[k] == input[k]
    {
      InsertInPlace(a, i);
      SortByTimestampSnoc(input, i);
      i := i + 1;
    }
    assert input[..a.Length] == input;
  }

  /** `get_latest`: keep the fetched links that point at `target`, sort them in place by
      timestamp and pop the last. */
  method GetLatest(store: seq<Link>, base: EntryHash, target: EntryHash, filter: Option<seq<byte>>) returns (latest: Option<Link>)
    ensures latest == LatestLink(store, base, target, filter)
  {
    var fetched := GetLinks(store, base, filter);
    var links: seq<Link> := [];
    for i := 0 to |fetched|
      invariant links == Matching(fetched[..i], target)
    {
      assert fetched[..i + 1][..i] == fetched[..i];
      if fetched[i].target == target {
        links := links + [fetched[i]];
      }
    }
    assert fetched[..|fetched|] == fetched;
    var a := new Link[|links|](k requires 0 <= k < |links| => links[k]);
    assert a[..] == links;
    SortLinksByTimestamp(a);
    if a.Length == 0 {
      latest := None;
    } else {
      latest := Some(a[a.Length - 1]);
    }
  }
}
