/**
 * `/api/summaryTotalKapal` (src/index.ts:163-212): every location's
 * `initial_name` is turned into the URL of that location's own server, the
 * daily vessel count is fetched from each, a failure or a missing count
 * counts as 0, and the per-location counts are summed.
 *
 * `fetch` followed by `response.json()` and the read of
 * `data.data[0]?.total_kapal` is one parameter: from the URL to what came of
 * it. `Promise.all` keeps the order of its input, so the map is sequential.
 */
module Summary {

  import opened Wrappers
  import Strings

  /**
   * What one peer request yields: Failed when the request, the JSON parse or
   * the read of `data.data` throws; otherwise the `total_kapal` of the first
   * row, None when there is no first row or it carries no count.
   */
  datatype FetchOutcome = Failed | Fetched(totalKapal: Option<int>)

  /** One entry of `details`. */
  datatype Detail = Detail(location: string, totalKapal: int)

  /** The `data` of the response: the total and the per-location entries. */
  datatype TotalSummary = TotalSummary(totalKapal: int, details: seq<Detail>)

  // ---------------------------------------------------------------------
  // the peer URL

  const PeerScheme := "https://bebun"
  const PeerDomain := ".cakrawala.id"
  const PeerPath := "/api/getTotalKapalDaily"
  const DateQuery := "?date="

  /**
   * `https://bebun<name in lower case>.cakrawala.id/api/getTotalKapalDaily`,
   * followed by `?date=<date>` only when a date was given.
   */
  function PeerUrl(name: string, date: string): (url: string)
    ensures |url| == |PeerScheme| + |name| + |PeerDomain| + |PeerPath| + (if date == "" then 0 else |DateQuery| + |date|)
    ensures url[..|PeerScheme|] == PeerScheme
    ensures url[|PeerScheme|..|PeerScheme| + |name|] == Strings.ToLower(name)
    ensures url[|PeerScheme| + |name|..|PeerScheme| + |name| + |PeerDomain| + |PeerPath|] == PeerDomain + PeerPath
    ensures date != "" ==> url[|url| - |date|..] == date
    ensures date != "" ==> url[|url| - |date| - |DateQuery|..|url| - |date|] == DateQuery
  {
    var host := PeerScheme + Strings.ToLower(name);
    var base := host + (PeerDomain + PeerPath);
    var url := base + (if date != "" then DateQuery + date else "");
    assert url[..|base|] == base;
    assert base[..|PeerScheme|] == PeerScheme;
    assert base[|PeerScheme|..|host|] == Strings.ToLower(name);
    url
  }

  /** Location names that differ only in letter case address the same peer. */
  lemma PeerUrlIgnoresCase(name: string, date: string)
    ensures PeerUrl(Strings.ToLower(name), date) == PeerUrl(name, date)
  {
    Strings.ToLowerIdempotent(name);
  }

  /** A date is sent only when one is given, and no two dates give the same URL. */
  lemma PeerUrlDateInjective(name: string, d1: string, d2: string)
    requires PeerUrl(name, d1) == PeerUrl(name, d2)
    ensures d1 == d2
  {
    var u := PeerUrl(name, d1);
    if d1 != "" && d2 != "" {
      assert |d1| == |d2|;
      assert d1 == u[|u| - |d1|..] == d2;
    }
  }

  // ---------------------------------------------------------------------
  // the map

  /** `data.data[0]?.total_kapal || 0`, with a thrown error caught as 0. */
  function Metric(o: FetchOutcome): int {
    match o
    case Failed => 0
    case Fetched(None) => 0
    case Fetched(Some(n)) => n
  }

  /** The `details`: one entry per location, in the order of the locations. */
  function Details(locations: seq<string>, date: string, fetch: string -> FetchOutcome): (ds: seq<Detail>)
    ensures |ds| == |locations|
    ensures forall i :: 0 <= i < |locations| ==>
              ds[i] == Detail(locations[i], Metric(fetch(PeerUrl(locations[i], date))))
  {
    seq(|locations|, i requires 0 <= i < |locations| =>
      Detail(locations[i], Metric(fetch(PeerUrl(locations[i], date)))))
  }

  // ---------------------------------------------------------------------
  // the reduce

  /** `items.reduce((sum, item) => sum + item.total_kapal, acc)`: a left fold. */
  function FoldTotal(ds: seq<Detail>, acc: int): int
    decreases |ds|
  {
    if ds == [] then acc else FoldTotal(ds[1..], acc + ds[0].totalKapal)
  }

  /** The sum of the entries' counts, as an independent definition from the right. */
  function SumTotals(ds: seq<Detail>): int
    decreases |ds|
  {
    if ds == [] then 0 else SumTotals(ds[..|ds| - 1]) + ds[|ds| - 1].totalKapal
  }

  lemma {:induction false} SumTotalsAppend(a: seq<Detail>, b: seq<Detail>)
    ensures SumTotals(a + b) == SumTotals(a) + SumTotals(b)
    decreases |b|
  {
    if b == [] {
      assert a + b == a;
    } else {
      var c := a + b;
      assert c[..|c| - 1] == a + b[..|b| - 1];
      assert c[|c| - 1] == b[|b| - 1];
      SumTotalsAppend(a, b[..|b| - 1]);
    }
  }

  /** The fold started at `acc` adds exactly the sum of the entries to `acc`. */
  lemma {:induction false} FoldTotalIsSum(ds: seq<Detail>, acc: int)
    ensures FoldTotal(ds, acc) == acc + SumTotals(ds)
    decreases |ds|
  {
    if ds != [] {
      FoldTotalIsSum(ds[1..], acc + ds[0].totalKapal);
      assert ds == [ds[0]] + ds[1..];
      SumTotalsAppend([ds[0]], ds[1..]);
      assert [ds[0]][..0] == [];
    }
  }

  // ---------------------------------------------------------------------
  // the handler's result

  /**
   * The response data: the details keep the locations' order and names, each
   * count is the zero-substituted metric of that location's peer, and the
   * total is the sum of the counts in the details.
   */
  function SummaryTotalKapal(locations: seq<string>, date: string, fetch: string -> FetchOutcome): (s: TotalSummary)
    ensures |s.details| == |locations|
    ensures forall i :: 0 <= i < |locations| ==>
              && s.details[i].location == locations[i]
              && s.details[i].totalKapal == Metric(fetch(PeerUrl(locations[i], date)))
    ensures s.totalKapal == SumTotals(s.details)
  {
    var ds := Details(locations, date, fetch);
    FoldTotalIsSum(ds, 0);
    TotalSummary(FoldTotal(ds, 0), ds)
  }

  lemma {:induction false} SumTotalsZero(ds: seq<Detail>)
    requires forall i :: 0 <= i < |ds| ==> ds[i].totalKapal == 0
    ensures SumTotals(ds) == 0
    decreases |ds|
  {
    if ds != [] {
      SumTotalsZero(ds[..|ds| - 1]);
    }
  }

  /** When every peer fails, or answers without a count, the total is 0. */
  lemma NoCountsTotalZero(locations: seq<string>, date: string, fetch: string -> FetchOutcome)
    requires forall i :: 0 <= i < |locations| ==>
               fetch(PeerUrl(locations[i], date)) == Failed || fetch(PeerUrl(locations[i], date)) == Fetched(None)
    ensures SummaryTotalKapal(locations, date, fetch).totalKapal == 0
  {
    SumTotalsZero(SummaryTotalKapal(locations, date, fetch).details);
  }

  lemma DetailsAppend(a: seq<string>, b: seq<string>, date: string, fetch: string -> FetchOutcome)
    ensures Details(a + b, date, fetch) == Details(a, date, fetch) + Details(b, date, fetch)
  {
    var d, da, db := Details(a + b, date, fetch), Details(a, date, fetch), Details(b, date, fetch);
    forall i | 0 <= i < |d| ensures d[i] == (da + db)[i] {
      if i < |a| {
        assert (a + b)[i] == a[i];
      } else {
        assert (a + b)[i] == b[i - |a|];
      }
    }
  }

  /**
   * Locations can be split anywhere: the details of the whole list are the two
   * parts' details one after the other, and the total is the sum of the parts' totals.
   */
  lemma SummaryAppend(a: seq<string>, b: seq<string>, date: string, fetch: string -> FetchOutcome)
    ensures SummaryTotalKapal(a + b, date, fetch).details ==
            SummaryTotalKapal(a, date, fetch).details + SummaryTotalKapal(b, date, fetch).details
    ensures SummaryTotalKapal(a + b, date, fetch).totalKapal ==
            SummaryTotalKapal(a, date, fetch).totalKapal + SummaryTotalKapal(b, date, fetch).totalKapal
  {
    DetailsAppend(a, b, date, fetch);
    SumTotalsAppend(Details(a, date, fetch), Details(b, date, fetch));
  }

  /**
   * Three locations: the first peer's request fails, the second answers with
   * a count of 5, the third times out. The total is 5 and the failed ones
   * appear with 0, in the locations' order.
   */
  lemma ThreeLocations(date: string, fetch: string -> FetchOutcome)
    requires fetch(PeerUrl("A", date)) == Failed
    requires fetch(PeerUrl("B", date)) == Fetched(Some(5))
    requires fetch(PeerUrl("C", date)) == Failed
    ensures SummaryTotalKapal(["A", "B", "C"], date, fetch) ==
            TotalSummary(5, [Detail("A", 0), Detail("B", 5), Detail("C", 0)])
  {
    var ds := [Detail("A", 0), Detail("B", 5), Detail("C", 0)];
    assert SummaryTotalKapal(["A", "B", "C"], date, fetch).details == ds;
    assert ds[..2][..1] == [Detail("A", 0)];
    assert ds[..2] == [Detail("A", 0), Detail("B", 5)];
    assert SumTotals(ds) == 5;
  }

  /** Each count lies between 0 and the total when no peer reports a negative count. */
  lemma {:induction false} SumTotalsBounds(ds: seq<Detail>, i: nat)
    requires forall j :: 0 <= j < |ds| ==> ds[j].totalKapal >= 0
    requires i < |ds|
    ensures 0 <= ds[i].totalKapal <= SumTotals(ds)
    decreases |ds|
  {
    var init := ds[..|ds| - 1];
    if i < |ds| - 1 {
      SumTotalsBounds(init, i);
    } else if init != [] {
      SumTotalsBounds(init, 0);
    }
  }
}
