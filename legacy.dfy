/**
 * The legacy opportunity view of the applicant dashboard (client/src/App.jsx,
 * `checkLegacyEligibility` and `getFilteredLegacyData`): a verdict per
 * historical record against the latest profile, a filter by verdict and a
 * stable sort that puts one verdict first.
 */
module LegacyMatch {
  import opened Wrappers
  import opened ApplicationStore

  datatype Verdict = NA | Eligible | Ineligible

  /** The filter select: 'All', 'Eligible' or 'Ineligible'. */
  datatype FilterMode = All | EligibleOnly | IneligibleOnly

  /** The sort select: 'None', 'EligibleFirst' or 'IneligibleFirst'. */
  datatype SortMode = Unsorted | EligibleFirst | IneligibleFirst

  /** `parseInt(v) || 0` for a column value: a missing value counts as 0. */
  function OrZero(v: Option<int>): int {
    if v.Some? then v.value else 0
  }

  /** The verdict of `item` against the latest profile, if there is one. */
  function VerdictOf(latest: Option<Application>, item: Application): (v: Verdict)
    ensures latest == None <==> v == NA
    ensures latest != None ==> (v == Eligible <==> OrZero(latest.value.turnover) >= OrZero(item.amountRequested))
  {
    if latest == None then NA
    else if OrZero(latest.value.turnover) >= OrZero(item.amountRequested) then Eligible
    else Ineligible
  }

  /** The records of `s` whose verdict is `v` (when `keep`) or is not `v` (when `!keep`), in order. */
  function Select(s: seq<Application>, latest: Option<Application>, v: Verdict, keep: bool): (r: seq<Application>)
    ensures |r| <= |s|
  {
    if s == [] then []
    else
      var init := Select(s[..|s| - 1], latest, v, keep);
      var x := s[|s| - 1];
      if (VerdictOf(latest, x) == v) == keep then init + [x] else init
  }

  /** The `legacyFilter` step: `filter` keeps a copy of every record or only those of one verdict. */
  function Filtered(s: seq<Application>, latest: Option<Application>, mode: FilterMode): seq<Application> {
    match mode
    case All => s
    case EligibleOnly => Select(s, latest, Eligible, true)
    case IneligibleOnly => Select(s, latest, Ineligible, true)
  }

  /** The verdict a sort mode puts first. */
  function Favoured(mode: SortMode): Verdict
    requires mode != Unsorted
  {
    if mode == EligibleFirst then Eligible else Ineligible
  }

  /** The result a stable sort by "has verdict `fav`" must give: those records, then the rest, each in input order. */
  function Partition(s: seq<Application>, latest: Option<Application>, fav: Verdict): seq<Application> {
    Select(s, latest, fav, true) + Select(s, latest, fav, false)
  }

  /** What `getFilteredLegacyData` returns. */
  function View(s: seq<Application>, latest: Option<Application>, filter: FilterMode, sort: SortMode): (r: seq<Application>)
    ensures filter == All && sort == Unsorted ==> r == s
  {
    var data := Filtered(s, latest, filter);
    if sort == Unsorted then data else Partition(data, latest, Favoured(sort))
  }

  // ---------------------------------------------------------------------
  // The comparator passed to `sort`.
  // ---------------------------------------------------------------------

  /** `(statA === statB) ? 0 : (statA === fav ? -1 : 1)` */
  function Compare(latest: Option<Application>, fav: Verdict, a: Application, b: Application): int {
    var statA, statB := VerdictOf(latest, a), VerdictOf(latest, b);
    if statA == statB then 0 else if statA == fav then -1 else 1
  }

  /** 0 for a favoured record, 1 for any other. */
  function Rank(latest: Option<Application>, fav: Verdict, x: Application): nat {
    if VerdictOf(latest, x) == fav then 0 else 1
  }

  function Sign(n: int): int {
    if n < 0 then -1 else if n == 0 then 0 else 1
  }

  /**
   * The comparator is not a consistent order on three verdicts (NA and
   * Ineligible each compare above the other), but within one view the
   * verdicts are all NA or none is, and there it orders by rank.
   */
  lemma CompareIsRankOrder(latest: Option<Application>, fav: Verdict, a: Application, b: Application)
    requires fav != NA
    ensures Compare(latest, fav, a, b) == Sign(Rank(latest, fav, a) - Rank(latest, fav, b))
  {
  }

  // ---------------------------------------------------------------------
  // Properties of the filter and the partition.
  // ---------------------------------------------------------------------

  lemma SelectAppend(s: seq<Application>, latest: Option<Application>, v: Verdict, keep: bool, x: Application)
    ensures Select(s + [x], latest, v, keep) ==
      Select(s, latest, v, keep) + (if (VerdictOf(latest, x) == v) == keep then [x] else [])
  {
    assert (s + [x])[..|s + [x]| - 1] == s;
  }

  /** Every selected record comes from the input and has the selected verdict (or lacks it). */
  lemma {:induction false} SelectMembers(s: seq<Application>, latest: Option<Application>, v: Verdict, keep: bool)
    ensures forall x :: x in Select(s, latest, v, keep) ==> x in s && (VerdictOf(latest, x) == v) == keep
  {
    if s != [] {
      var init := s[..|s| - 1];
      SelectMembers(init, latest, v, keep);
      assert s == init + [s[|s| - 1]];
    }
  }

  /** `idx` lists, in increasing order, positions of `b` that spell out `a`. */
  predicate Embeds(a: seq<Application>, b: seq<Application>, idx: seq<nat>) {
    && |idx| == |a|
    && (forall k :: 0 <= k < |idx| ==> idx[k] < |b| && a[k] == b[idx[k]])
    && (forall k, l :: 0 <= k < l < |idx| ==> idx[k] < idx[l])
  }

  /** `a` is `b` with some elements left out, the rest kept in order. */
  ghost predicate IsSubsequence(a: seq<Application>, b: seq<Application>) {
    exists idx :: Embeds(a, b, idx)
  }

  /** A filtered list keeps the input order: it is a subsequence of the input. */
  lemma {:induction false} SelectIsSubsequence(s: seq<Application>, latest: Option<Application>, v: Verdict, keep: bool)
    ensures IsSubsequence(Select(s, latest, v, keep), s)
  {
    if s == [] {
      assert Embeds([], s, []);
    } else {
      var init, last := s[..|s| - 1], s[|s| - 1];
      assert s == init + [last];
      SelectIsSubsequence(init, latest, v, keep);
      var idx: seq<nat> :| Embeds(Select(init, latest, v, keep), init, idx);
      SelectAppend(init, latest, v, keep, last);
      EmbedsGrow(Select(init, latest, v, keep), init, idx, last);
    }
  }

  /** An embedding survives appending to the host, and extends by the appended element. */
  lemma EmbedsGrow(a: seq<Application>, b: seq<Application>, idx: seq<nat>, y: Application)
    requires Embeds(a, b, idx)
    ensures Embeds(a, b + [y], idx)
    ensures Embeds(a + [y], b + [y], idx + [|b|])
  {
  }

  /** Every record lands on exactly one side of a split by verdict. */
  lemma {:induction false} SelectSplits(s: seq<Application>, latest: Option<Application>, v: Verdict)
    ensures multiset(Select(s, latest, v, true)) + multiset(Select(s, latest, v, false)) == multiset(s)
  {
    if s != [] {
      var init := s[..|s| - 1];
      SelectSplits(init, latest, v);
      assert s == init + [s[|s| - 1]];
    }
  }

  /** A record with the selected verdict is never dropped. */
  lemma SelectKeepsMatches(s: seq<Application>, latest: Option<Application>, v: Verdict, x: Application)
    requires x in s && VerdictOf(latest, x) == v
    ensures x in Select(s, latest, v, true)
  {
    SelectSplits(s, latest, v);
    SelectMembers(s, latest, v, false);
    assert x in multiset(s);
    assert x !in Select(s, latest, v, false);
    assert x !in multiset(Select(s, latest, v, false));
  }

  /** Filtering by a verdict keeps exactly the records with that verdict, in their order. */
  lemma FilterKeepsExactlyVerdict(s: seq<Application>, latest: Option<Application>, mode: FilterMode)
    requires mode != All
    ensures var v := if mode == EligibleOnly then Eligible else Ineligible;
      && (forall x :: x in Filtered(s, latest, mode) <==> x in s && VerdictOf(latest, x) == v)
      && IsSubsequence(Filtered(s, latest, mode), s)
  {
    var v := if mode == EligibleOnly then Eligible else Ineligible;
    SelectMembers(s, latest, v, true);
    forall x | x in s && VerdictOf(latest, x) == v ensures x in Filtered(s, latest, mode) {
      SelectKeepsMatches(s, latest, v, x);
    }
    SelectIsSubsequence(s, latest, v, true);
  }

  /** Without a profile every verdict is NA, so both verdict filters show nothing. */
  lemma {:induction false} NoProfileFiltersEverythingOut(s: seq<Application>, mode: FilterMode)
    requires mode != All
    ensures Filtered(s, None, mode) == []
  {
    if s != [] {
      NoProfileFiltersEverythingOut(s[..|s| - 1], mode);
    }
  }

  /** The sorted view is a permutation of the filtered list. */
  lemma PartitionIsPermutation(s: seq<Application>, latest: Option<Application>, fav: Verdict)
    ensures multiset(Partition(s, latest, fav)) == multiset(s)
  {
    SelectSplits(s, latest, fav);
  }

  /** Every favoured record precedes every other one. */
  lemma PartitionFavouredFirst(s: seq<Application>, latest: Option<Application>, fav: Verdict)
    ensures var r := Partition(s, latest, fav);
      forall i, j :: 0 <= i < j < |r| ==> Rank(latest, fav, r[i]) <= Rank(latest, fav, r[j])
  {
    var r := Partition(s, latest, fav);
    var front := Select(s, latest, fav, true);
    SelectMembers(s, latest, fav, true);
    SelectMembers(s, latest, fav, false);
    forall i, j | 0 <= i < j < |r| ensures Rank(latest, fav, r[i]) <= Rank(latest, fav, r[j]) {
      if i < |front| {
        assert r[i] in front;
      } else {
        assert r[i] == Select(s, latest, fav, false)[i - |front|];
        assert r[j] == Select(s, latest, fav, false)[j - |front|];
      }
    }
  }

  /** Sorting is stable: each group keeps the order it had in the input. */
  lemma PartitionIsStable(s: seq<Application>, latest: Option<Application>, fav: Verdict)
    ensures Select(Partition(s, latest, fav), latest, fav, true) == Select(s, latest, fav, true)
    ensures Select(Partition(s, latest, fav), latest, fav, false) == Select(s, latest, fav, false)
  {
    SelectOfSelect(s, latest, fav, true);
    SelectOfSelect(s, latest, fav, false);
    SelectOfConcat(Select(s, latest, fav, true), Select(s, latest, fav, false), latest, fav, true);
    SelectOfConcat(Select(s, latest, fav, true), Select(s, latest, fav, false), latest, fav, false);
  }

  lemma {:induction false} SelectOfSelect(s: seq<Application>, latest: Option<Application>, v: Verdict, keep: bool)
    ensures Select(Select(s, latest, v, keep), latest, v, keep) == Select(s, latest, v, keep)
    ensures Select(Select(s, latest, v, keep), latest, v, !keep) == []
  {
    if s != [] {
      var init := s[..|s| - 1];
      var x := s[|s| - 1];
      SelectOfSelect(init, latest, v, keep);
      if (VerdictOf(latest, x) == v) == keep {
        SelectAppend(Select(init, latest, v, keep), latest, v, keep, x);
        SelectAppend(Select(init, latest, v, keep), latest, v, !keep, x);
      }
    }
  }

  lemma {:induction false} SelectOfConcat(a: seq<Application>, b: seq<Application>, latest: Option<Application>, v: Verdict, keep: bool)
    ensures Select(a + b, latest, v, keep) == Select(a, latest, v, keep) + Select(b, latest, v, keep)
    decreases |b|
  {
    if b == [] {
      assert a + b == a;
    } else {
      var init, x := b[..|b| - 1], b[|b| - 1];
      var tail := if (VerdictOf(latest, x) == v) == keep then [x] else [];
      assert b == init + [x];
      assert a + b == (a + init) + [x];
      calc {
        Select(a + b, latest, v, keep);
        { SelectAppend(a + init, latest, v, keep, x); }
        Select(a + init, latest, v, keep) + tail;
        { SelectOfConcat(a, init, latest, v, keep); }
        Select(a, latest, v, keep) + Select(init, latest, v, keep) + tail;
        { SelectAppend(init, latest, v, keep, x); }
        Select(a, latest, v, keep) + Select(b, latest, v, keep);
      }
    }
  }

  // ---------------------------------------------------------------------
  // The handler.
  // ---------------------------------------------------------------------

  /** Positions before the favoured block's end hold favoured records, the others do not. */
  lemma PartitionRanks(q: seq<Application>, latest: Option<Application>, fav: Verdict)
    ensures var p, n := Partition(q, latest, fav), |Select(q, latest, fav, true)|;
      n <= |p| && forall k :: 0 <= k < |p| ==> (Rank(latest, fav, p[k]) == 0 <==> k < n)
  {
    var front, back := Select(q, latest, fav, true), Select(q, latest, fav, false);
    var p := front + back;
    SelectMembers(q, latest, fav, true);
    SelectMembers(q, latest, fav, false);
    forall k | 0 <= k < |p| ensures Rank(latest, fav, p[k]) == 0 <==> k < |front| {
      if k < |front| {
        assert p[k] in front;
      } else {
        assert p[k] == back[k - |front|];
        assert p[k] in back;
      }
    }
  }

  /**
   * The in-place `sort` with the verdict comparator. JavaScript's sort is
   * stable, so its result is fixed by the comparator; an insertion sort
   * stands in for the engine's algorithm.
   */
  method SortByVerdict(a: array<Application>, latest: Option<Application>, fav: Verdict)
    requires fav != NA
    modifies a
    ensures a[..] == Partition(old(a[..]), latest, fav)
  {
    ghost var o := a[..];
    var i := 0;
    while i < a.Length
      invariant 0 <= i <= a.Length
      invariant a[..i] == Partition(o[..i], latest, fav)
      invariant a[i..] == o[i..]
    {
      assert a[i] == o[i] && a[i + 1..] == o[i + 1..];
      InsertNext(a, i, latest, fav, o[..i]);
      assert o[..i] + [o[i]] == o[..i + 1];
      i := i + 1;
    }
    assert a[..] == a[..a.Length];
    assert o == o[..a.Length];
  }

  /** One insertion step: `a[i]` moves left past the non-favoured records of the sorted prefix. */
  method InsertNext(a: array<Application>, i: nat, latest: Option<Application>, fav: Verdict, ghost q: seq<Application>)
    requires fav != NA && i < a.Length
    requires a[..i] == Partition(q, latest, fav)
    modifies a
    ensures a[..i + 1] == Partition(q + [old(a[i])], latest, fav)
    ensures a[i + 1..] == old(a[i + 1..])
  {
    var x := a[i];
    var j := OpenSlot(a, i, latest, fav, q);
    a[j] := x;
    InsertionIsPartition(a[..i + 1], q, latest, fav, x, j);
  }

  /**
   * The inner loop of the insertion: shifts the entries ranked after `a[i]`
   * one place right and returns the hole left for `a[i]`, which is the end
   * of the front group when `a[i]` ranks 0 and `i` otherwise.
   */
  method OpenSlot(a: array<Application>, i: nat, latest: Option<Application>, fav: Verdict, ghost q: seq<Application>)
    returns (j: nat)
    requires fav != NA && i < a.Length
    requires a[..i] == Partition(q, latest, fav)
    modifies a
    ensures j <= i
    ensures forall k :: 0 <= k < j ==> a[k] == Partition(q, latest, fav)[k]
    ensures forall k :: j < k <= i ==> a[k] == Partition(q, latest, fav)[k - 1]
    ensures forall k :: i < k < a.Length ==> a[k] == old(a[k])
    ensures Rank(latest, fav, old(a[i])) == 0 ==> j == |Select(q, latest, fav, true)|
    ensures Rank(latest, fav, old(a[i])) != 0 ==> j == i
  {
    ghost var p := Partition(q, latest, fav);
    ghost var front := Select(q, latest, fav, true);
    PartitionRanks(q, latest, fav);
    var x := a[i];
    j := i;
    while j > 0 && Compare(latest, fav, a[j - 1], x) > 0
      invariant |front| <= j <= i
      invariant forall k :: 0 <= k < j ==> a[k] == p[k]
      invariant forall k :: j < k <= i ==> a[k] == p[k - 1]
      invariant forall k :: i < k < a.Length ==> a[k] == old(a[k])
      invariant j < i ==> Rank(latest, fav, x) == 0
    {
      CompareIsRankOrder(latest, fav, a[j - 1], x);
      a[j] := a[j - 1];
      j := j - 1;
    }
    if j > 0 {
      CompareIsRankOrder(latest, fav, a[j - 1], x);
    }
  }

  /** Putting `x` at position `j` of the partition of `q` gives the partition of `q + [x]`. */
  lemma InsertionIsPartition(s: seq<Application>, q: seq<Application>, latest: Option<Application>, fav: Verdict,
                             x: Application, j: nat)
    requires |s| == |Partition(q, latest, fav)| + 1 && j < |s| && s[j] == x
    requires forall k :: 0 <= k < j ==> s[k] == Partition(q, latest, fav)[k]
    requires forall k :: j < k < |s| ==> s[k] == Partition(q, latest, fav)[k - 1]
    requires Rank(latest, fav, x) == 0 ==> j == |Select(q, latest, fav, true)|
    requires Rank(latest, fav, x) != 0 ==> j == |s| - 1
    ensures s == Partition(q + [x], latest, fav)
  {
    var front, back := Select(q, latest, fav, true), Select(q, latest, fav, false);
    var p := front + back;
    SelectAppend(q, latest, fav, true, x);
    SelectAppend(q, latest, fav, false, x);
    if Rank(latest, fav, x) == 0 {
      SpliceAt(s, front, back, x);
    } else {
      SpliceAt(s, p, [], x);
    }
  }

  /** A sequence that agrees with `front + back` around a hole at `|front|` holding `x` is `front + [x] + back`. */
  lemma SpliceAt<T>(s: seq<T>, front: seq<T>, back: seq<T>, x: T)
    requires |s| == |front| + |back| + 1 && s[|front|] == x
    requires forall k :: 0 <= k < |front| ==> s[k] == (front + back)[k]
    requires forall k :: |front| < k < |s| ==> s[k] == (front + back)[k - 1]
    ensures s == front + [x] + back
  {
    var r := front + [x] + back;
    forall k | 0 <= k < |s| ensures s[k] == r[k] {
      if k > |front| {
        assert s[k] == (front + back)[k - 1] == back[k - 1 - |front|];
      }
    }
  }

  /** `getFilteredLegacyData`: copy, filter, then sort in place when a sort mode is chosen. */
  method GetFilteredLegacyData(legacyApps: seq<Application>, latest: Option<Application>,
                               filter: FilterMode, sort: SortMode) returns (data: seq<Application>)
    ensures data == View(legacyApps, latest, filter, sort)
  {
    var filtered := Filtered(legacyApps, latest, filter);
    if sort == Unsorted {
      data := filtered;
    } else {
      var a := new Application[|filtered|](k requires 0 <= k < |filtered| => filtered[k]);
      assert a[..] == filtered;
      SortByVerdict(a, latest, Favoured(sort));
      data := a[..];
    }
  }
}
