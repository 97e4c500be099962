/**
 * The bank staff dashboard (client/src/components/Dashboard.jsx): the KPI
 * figures, the status and sector charts computed from the application list,
 * the row actions, and the optimistic status update.
 */
module AdminDashboard {
  import opened Wrappers
  import opened ApplicationStore

  /** `curr.amountRequested || 0` */
  function Amount(a: Application): int {
    if a.amountRequested.Some? then a.amountRequested.value else 0
  }

  /** The number of applications whose status is exactly `status`. */
  function CountStatus(apps: seq<Application>, status: string): (c: nat)
    ensures c <= |apps|
    ensures c == multiset(Statuses(apps))[status]
  {
    if apps == [] then 0
    else
      var init := apps[..|apps| - 1];
      assert Statuses(apps) == Statuses(init) + [apps[|apps| - 1].status];
      CountStatus(init, status) + (if apps[|apps| - 1].status == status then 1 else 0)
  }

  /** The sum of the requested amounts, a missing amount counting 0. */
  function TotalValue(apps: seq<Application>): int {
    if apps == [] then 0 else TotalValue(apps[..|apps| - 1]) + Amount(apps[|apps| - 1])
  }

  /** The status column of a list. */
  function Statuses(apps: seq<Application>): (r: seq<string>)
    ensures |r| == |apps| && forall i :: 0 <= i < |apps| ==> r[i] == apps[i].status
  {
    seq(|apps|, i requires 0 <= i < |apps| => apps[i].status)
  }

  datatype Stats = Stats(total: nat, pending: nat, value: int)

  /** `calculateStats` */
  function CalculateStats(apps: seq<Application>): (s: Stats)
    ensures s.total == |apps| && s.pending <= s.total
    ensures s.pending == multiset(Statuses(apps))[UnderReview]
  {
    Stats(|apps|, CountStatus(apps, UnderReview), TotalValue(apps))
  }

  // ---------------------------------------------------------------------
  // The status chart
  // ---------------------------------------------------------------------

  datatype ChartEntry = ChartEntry(name: string, value: nat)

  /** `.filter(item => item.value > 0)` */
  function Positive(entries: seq<ChartEntry>): (r: seq<ChartEntry>)
    ensures |r| <= |entries|
  {
    if entries == [] then []
    else (if entries[0].value > 0 then [entries[0]] else []) + Positive(entries[1..])
  }

  /** The four slices before the filter: the label shown and the count of the status it stands for. */
  function Slices(apps: seq<Application>): seq<ChartEntry> {
    [ChartEntry("Approved", CountStatus(apps, Approved)),
     ChartEntry("Rejected", CountStatus(apps, Rejected)),
     ChartEntry("Review", CountStatus(apps, UnderReview)),
     ChartEntry("Revoked", CountStatus(apps, Revoked))]
  }

  /** The status chart of a list. */
  function StatusChart(apps: seq<Application>): seq<ChartEntry> {
    Positive(Slices(apps))
  }

  /** The filter keeps exactly the entries with a positive value, in order. */
  lemma {:induction false} PositiveMembers(entries: seq<ChartEntry>, e: ChartEntry)
    ensures e in Positive(entries) <==> e in entries && e.value > 0
  {
    if entries != [] {
      PositiveMembers(entries[1..], e);
      assert e in entries <==> e == entries[0] || e in entries[1..];
    }
  }

  /** The position of a chart label among the four. */
  function LabelRank(name: string): nat {
    if name == "Approved" then 0 else if name == "Rejected" then 1 else if name == "Review" then 2 else 3
  }

  /** Entries are in the order of their labels among the four. */
  predicate InLabelOrder(entries: seq<ChartEntry>) {
    forall i, j :: 0 <= i < j < |entries| ==> LabelRank(entries[i].name) < LabelRank(entries[j].name)
  }

  /** Kept entries keep their relative order. */
  lemma {:induction false} PositiveOrdered(entries: seq<ChartEntry>)
    requires InLabelOrder(entries)
    ensures InLabelOrder(Positive(entries))
  {
    if entries != [] {
      var tail := entries[1..];
      assert InLabelOrder(tail) by {
        forall i, j | 0 <= i < j < |tail| ensures LabelRank(tail[i].name) < LabelRank(tail[j].name) {
          assert tail[i] == entries[i + 1] && tail[j] == entries[j + 1];
        }
      }
      PositiveOrdered(tail);
      var rest := Positive(tail);
      forall e | e in rest ensures LabelRank(entries[0].name) < LabelRank(e.name) {
        PositiveMembers(tail, e);
        var j :| 0 <= j < |tail| && tail[j] == e;
        assert entries[j + 1] == e;
      }
      var r := Positive(entries);
      if entries[0].value > 0 {
        assert r == [entries[0]] + rest;
        forall i, j | 0 <= i < j < |r| ensures LabelRank(r[i].name) < LabelRank(r[j].name) {
          if i == 0 {
            assert r[j] == rest[j - 1];
            assert rest[j - 1] in rest;
          } else {
            assert r[i] == rest[i - 1] && r[j] == rest[j - 1];
          }
        }
      } else {
        assert r == rest;
      }
    }
  }

  /**
   * An entry is in the chart exactly when it is one of the four slices with
   * a positive count of its status; the slices keep the fixed order.
   */
  lemma StatusChartSpec(apps: seq<Application>)
    ensures forall e :: e in StatusChart(apps) <==> e in Slices(apps) && e.value > 0
    ensures InLabelOrder(StatusChart(apps))
  {
    forall e ensures e in StatusChart(apps) <==> e in Slices(apps) && e.value > 0 {
      PositiveMembers(Slices(apps), e);
    }
    PositiveOrdered(Slices(apps));
  }

  /** Statuses other than the four, such as Archived, never get a slice. */
  lemma ChartedNames(apps: seq<Application>)
    ensures forall e :: e in StatusChart(apps) ==> e.name in ["Approved", "Rejected", "Review", "Revoked"] && e.name != Archived
  {
    StatusChartSpec(apps);
  }

  /** A status that occurs gets its slice, holding its count. */
  lemma ChartedStatuses(apps: seq<Application>)
    ensures CountStatus(apps, UnderReview) > 0 <==> ChartEntry("Review", CountStatus(apps, UnderReview)) in StatusChart(apps)
    ensures CountStatus(apps, Approved) > 0 <==> ChartEntry("Approved", CountStatus(apps, Approved)) in StatusChart(apps)
    ensures CountStatus(apps, Rejected) > 0 <==> ChartEntry("Rejected", CountStatus(apps, Rejected)) in StatusChart(apps)
    ensures CountStatus(apps, Revoked) > 0 <==> ChartEntry("Revoked", CountStatus(apps, Revoked)) in StatusChart(apps)
  {
    var slices := Slices(apps);
    PositiveMembers(slices, slices[0]);
    PositiveMembers(slices, slices[1]);
    PositiveMembers(slices, slices[2]);
    PositiveMembers(slices, slices[3]);
  }

  /** The four counted statuses are distinct, so the slices add up to at most the number of applications. */
  lemma {:induction false} SlicesWithinTotal(apps: seq<Application>)
    ensures CountStatus(apps, Approved) + CountStatus(apps, Rejected) + CountStatus(apps, UnderReview)
            + CountStatus(apps, Revoked) <= |apps|
  {
    if apps != [] {
      SlicesWithinTotal(apps[..|apps| - 1]);
    }
  }

  // ---------------------------------------------------------------------
  // The sector chart
  // ---------------------------------------------------------------------

  /** `curr.sector || 'Unknown'`: a missing or empty sector is grouped as Unknown. */
  function SectorKey(a: Application): (k: string)
    ensures k != ""
  {
    if a.sector.None? || a.sector.value == "" then "Unknown" else a.sector.value
  }

  /** One key of `sectorMap` and its running total. */
  datatype SectorTotal = SectorTotal(name: string, amount: int)

  /** `acc[key] = (acc[key] || 0) + v`, with the object's keys kept in insertion order. */
  function AddTo(acc: seq<SectorTotal>, key: string, v: int): (r: seq<SectorTotal>)
    ensures |r| == |acc| || |r| == |acc| + 1
  {
    if acc == [] then [SectorTotal(key, v)]
    else if acc[0].name == key then [SectorTotal(key, acc[0].amount + v)] + acc[1..]
    else [acc[0]] + AddTo(acc[1..], key, v)
  }

  /** `sectorMap` for a list, before the chart's lakh conversion. */
  function SectorTotals(apps: seq<Application>): seq<SectorTotal> {
    if apps == [] then []
    else AddTo(SectorTotals(apps[..|apps| - 1]), SectorKey(apps[|apps| - 1]), Amount(apps[|apps| - 1]))
  }

  function Sum(acc: seq<SectorTotal>): int {
    if acc == [] then 0 else acc[0].amount + Sum(acc[1..])
  }

  /** The requested amounts of the applications grouped under `key`. */
  function SectorSum(apps: seq<Application>, key: string): int {
    if apps == [] then 0
    else SectorSum(apps[..|apps| - 1], key) + (if SectorKey(apps[|apps| - 1]) == key then Amount(apps[|apps| - 1]) else 0)
  }

  function Names(acc: seq<SectorTotal>): (r: seq<string>)
    ensures |r| == |acc| && forall i :: 0 <= i < |acc| ==> r[i] == acc[i].name
  {
    seq(|acc|, i requires 0 <= i < |acc| => acc[i].name)
  }

  predicate Distinct(names: seq<string>) {
    forall i, j :: 0 <= i < j < |names| ==> names[i] != names[j]
  }

  /** The total of a key in an accumulator, 0 when the key is absent. */
  function Lookup(acc: seq<SectorTotal>, key: string): int {
    if acc == [] then 0 else (if acc[0].name == key then acc[0].amount else 0) + Lookup(acc[1..], key)
  }

  /** Adding to one key adds `v` to the grand total and to that key, adds the key, and touches nothing else. */
  lemma AddToSpec(acc: seq<SectorTotal>, key: string, v: int)
    requires Distinct(Names(acc))
    ensures Sum(AddTo(acc, key, v)) == Sum(acc) + v
    ensures Distinct(Names(AddTo(acc, key, v)))
    ensures forall k :: k in Names(AddTo(acc, key, v)) <==> k in Names(acc) || k == key
    ensures forall k :: Lookup(AddTo(acc, key, v), k) == Lookup(acc, k) + (if k == key then v else 0)
  {
    AddToSum(acc, key, v);
    AddToNames(acc, key, v);
    forall k ensures Lookup(AddTo(acc, key, v), k) == Lookup(acc, k) + (if k == key then v else 0) {
      AddToLookup(acc, key, v, k);
    }
  }

  lemma {:induction false} AddToSum(acc: seq<SectorTotal>, key: string, v: int)
    ensures Sum(AddTo(acc, key, v)) == Sum(acc) + v
  {
    if acc != [] && acc[0].name != key {
      AddToSum(acc[1..], key, v);
    }
  }

  /** The keys after adding are the keys before plus `key`. */
  lemma {:induction false} AddToNamesMembers(acc: seq<SectorTotal>, key: string, v: int)
    ensures forall k :: k in Names(AddTo(acc, key, v)) <==> k in Names(acc) || k == key
  {
    if acc == [] {
      assert Names([SectorTotal(key, v)]) == [key];
    } else if acc[0].name == key {
      assert Names(AddTo(acc, key, v)) == Names(acc);
    } else {
      AddToNamesMembers(acc[1..], key, v);
      assert Names(AddTo(acc, key, v)) == [acc[0].name] + Names(AddTo(acc[1..], key, v));
      assert Names(acc) == [acc[0].name] + Names(acc[1..]);
    }
  }

  /** Adding never repeats a key. */
  lemma {:induction false} AddToNames(acc: seq<SectorTotal>, key: string, v: int)
    requires Distinct(Names(acc))
    ensures Distinct(Names(AddTo(acc, key, v)))
    ensures forall k :: k in Names(AddTo(acc, key, v)) <==> k in Names(acc) || k == key
  {
    AddToNamesMembers(acc, key, v);
    if acc == [] {
      assert Names([SectorTotal(key, v)]) == [key];
    } else if acc[0].name == key {
      assert Names(AddTo(acc, key, v)) == Names(acc);
    } else {
      var rest := acc[1..];
      assert Names(acc) == [acc[0].name] + Names(rest);
      DistinctTail(acc[0].name, Names(rest));
      AddToNames(rest, key, v);
      assert Names(AddTo(acc, key, v)) == [acc[0].name] + Names(AddTo(rest, key, v));
      DistinctCons(acc[0].name, Names(AddTo(rest, key, v)));
    }
  }

  /** The tail of a list without repeats has none, and lacks the head. */
  lemma DistinctTail(x: string, t: seq<string>)
    requires Distinct([x] + t)
    ensures Distinct(t) && x !in t
  {
    var s := [x] + t;
    forall i, j | 0 <= i < j < |t| ensures t[i] != t[j] {
      assert t[i] == s[i + 1] && t[j] == s[j + 1];
    }
    forall i | 0 <= i < |t| ensures t[i] != x {
      assert t[i] == s[i + 1] && x == s[0];
    }
  }

  /** A key not in a list without repeats can be put in front of it. */
  lemma DistinctCons(x: string, t: seq<string>)
    requires Distinct(t) && x !in t
    ensures Distinct([x] + t)
  {
    assert forall i :: 0 < i < |t| + 1 ==> ([x] + t)[i] == t[i - 1];
  }

  lemma {:induction false} AddToLookup(acc: seq<SectorTotal>, key: string, v: int, k: string)
    requires Distinct(Names(acc))
    ensures Lookup(AddTo(acc, key, v), k) == Lookup(acc, k) + (if k == key then v else 0)
  {
    if acc != [] {
      var rest := acc[1..];
      assert Names(rest) == Names(acc)[1..];
      if acc[0].name == key {
        assert key !in Names(rest);
        AbsentKey(rest, key);
        assert AddTo(acc, key, v)[1..] == rest;
      } else {
        AddToLookup(rest, key, v, k);
        assert AddTo(acc, key, v)[1..] == AddTo(rest, key, v);
      }
    }
  }

  /** A key that is not in the accumulator has total 0. */
  lemma {:induction false} AbsentKey(acc: seq<SectorTotal>, key: string)
    requires key !in Names(acc)
    ensures Lookup(acc, key) == 0
  {
    if acc != [] {
      assert Names(acc[1..]) == Names(acc)[1..];
      AbsentKey(acc[1..], key);
    }
  }

  /**
   * The sector map has one entry per sector key occurring in the list, each
   * holding the sum for that key; the entries add up to the total value.
   */
  lemma {:induction false} SectorTotalsSpec(apps: seq<Application>)
    ensures Distinct(Names(SectorTotals(apps)))
    ensures Sum(SectorTotals(apps)) == TotalValue(apps)
    ensures forall k :: k in Names(SectorTotals(apps)) <==> exists i :: 0 <= i < |apps| && SectorKey(apps[i]) == k
    ensures forall k :: Lookup(SectorTotals(apps), k) == SectorSum(apps, k)
  {
    if apps != [] {
      var init := apps[..|apps| - 1];
      var last := apps[|apps| - 1];
      SectorTotalsSpec(init);
      AddToSpec(SectorTotals(init), SectorKey(last), Amount(last));
      forall k ensures k in Names(SectorTotals(apps)) <==> exists i :: 0 <= i < |apps| && SectorKey(apps[i]) == k {
        if exists i :: 0 <= i < |apps| && SectorKey(apps[i]) == k {
          var i :| 0 <= i < |apps| && SectorKey(apps[i]) == k;
          if i < |apps| - 1 {
            assert SectorKey(init[i]) == k;
          }
        }
        if k in Names(SectorTotals(init)) {
          var i :| 0 <= i < |init| && SectorKey(init[i]) == k;
          assert SectorKey(apps[i]) == k;
        }
      }
    } else {
      assert Names([]) == [];
    }
  }

  /** The sector totals add up to the value figure of the KPI cards. */
  lemma SectorTotalsMatchValue(apps: seq<Application>)
    ensures Sum(SectorTotals(apps)) == CalculateStats(apps).value
  {
    SectorTotalsSpec(apps);
  }

  /** `statusCount[s] || 0` */
  function Get(m: map<string, nat>, s: string): nat {
    if s in m then m[s] else 0
  }

  /** `prepareCharts`: one pass over the list filling the status counts and the sector map. */
  method PrepareCharts(data: seq<Application>) returns (statusData: seq<ChartEntry>, sectorData: seq<SectorTotal>)
    ensures statusData == StatusChart(data) && sectorData == SectorTotals(data)
  {
    var statusCount: map<string, nat> := map[];
    var sectorMap: seq<SectorTotal> := [];
    for k := 0 to |data|
      invariant forall s :: Get(statusCount, s) == CountStatus(data[..k], s)
      invariant sectorMap == SectorTotals(data[..k])
    {
      var curr := data[k];
      assert data[..k + 1][..k] == data[..k];
      statusCount := statusCount[curr.status := Get(statusCount, curr.status) + 1];
      sectorMap := AddTo(sectorMap, SectorKey(curr), Amount(curr));
    }
    assert data[..|data|] == data;
    var entries := [
      ChartEntry("Approved", Get(statusCount, Approved)),
      ChartEntry("Rejected", Get(statusCount, Rejected)),
      ChartEntry("Review", Get(statusCount, UnderReview)),
      ChartEntry("Revoked", Get(statusCount, Revoked))];
    statusData := Positive(entries);
    sectorData := sectorMap;
  }

  // ---------------------------------------------------------------------
  // Row actions and the status update
  // ---------------------------------------------------------------------

  datatype RowAction = ApproveOrReject | Processed

  /** What the action column of a row shows. */
  function ActionFor(app: Application): (a: RowAction)
    ensures a == ApproveOrReject <==> app.status == UnderReview
  {
    if app.status == UnderReview then ApproveOrReject else Processed
  }

  /** Changing statuses changes neither the number of applications nor the requested value. */
  lemma {:induction false} StatusUpdateKeepsTotals(apps: seq<Application>, refId: string, status: string)
    ensures CalculateStats(SetStatus(apps, refId, status)).total == CalculateStats(apps).total
    ensures TotalValue(SetStatus(apps, refId, status)) == TotalValue(apps)
  {
    if apps != [] {
      var init := apps[..|apps| - 1];
      StatusUpdateKeepsTotals(init, refId, status);
      assert SetStatus(apps, refId, status)[..|apps| - 1] == SetStatus(init, refId, status);
    }
  }

  /**
   * The optimistic update predicts the refetch: rewriting the newest-first
   * list the page holds gives the list the server returns after applying
   * the same update to its table.
   */
  lemma OptimisticMatchesRefetch(rows: seq<Application>, refId: string, status: string)
    ensures SetStatus(Reverse(rows), refId, status) == Reverse(SetStatus(rows, refId, status))
  {
    var l, r := SetStatus(Reverse(rows), refId, status), Reverse(SetStatus(rows, refId, status));
    forall k | 0 <= k < |rows| ensures l[k] == r[k] {
      ReverseAt(rows, k);
      ReverseAt(SetStatus(rows, refId, status), k);
    }
  }

  /** The dashboard's state. */
  class Dashboard {
    var apps: seq<Application>
    var loading: bool
    var stats: Stats
    var statusData: seq<ChartEntry>
    var sectorData: seq<SectorTotal>

    constructor ()
      ensures apps == [] && loading && stats == Stats(0, 0, 0) && statusData == [] && sectorData == []
    {
      apps := [];
      loading := true;
      stats := Stats(0, 0, 0);
      statusData := [];
      sectorData := [];
    }

    /** `fetchApplications` given the server's answer, or `None` when the request failed. */
    method FetchApplications(response: Option<seq<Application>>)
      modifies this
      ensures !loading
      ensures response.Some? ==>
        && apps == response.value && stats == CalculateStats(apps)
        && statusData == StatusChart(apps) && sectorData == SectorTotals(apps)
      ensures response.None? ==>
        apps == old(apps) && stats == old(stats) && statusData == old(statusData) && sectorData == old(sectorData)
    {
      if response.Some? {
        var data := response.value;
        apps := data;
        stats := CalculateStats(data);
        statusData, sectorData := PrepareCharts(data);
      }
      loading := false;
    }

    /**
     * The optimistic part of `handleStatusUpdate`: only `apps` changes, so the
     * KPI cards and charts wait for the refetch that follows.
     */
    method HandleStatusUpdate(refId: string, newStatus: string)
      modifies this`apps
      ensures apps == SetStatus(old(apps), refId, newStatus)
    {
      apps := SetStatus(apps, refId, newStatus);
    }
  }
}
