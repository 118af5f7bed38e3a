/**
 * The map page of public/js/maplogic.js: the 24-hour recency filter, the
 * single-pass greedy proximity clustering with running-mean centroids, the
 * colour and radius of each cluster's circle, and the cluster detail list.
 */
module Clustering {
  import opened Js
  import ReportsApi

  /**
   * A report from GET /api/reports as the script reads it: `new Date(created_at)`
   * as epoch milliseconds (None when it does not parse), `Number(latitude)` and
   * `Number(longitude)` (None when NaN), the stored integer decibels, and the
   * description (None when absent).
   */
  datatype Report = Report(
    id: int,
    createdAt: Option<int>,
    latitude: Option<real>,
    longitude: Option<real>,
    decibels: int,
    description: Option<string>)

  const DayMs: int := 24 * 60 * 60 * 1000
  const ClusterDistance: real := 0.0015

  // ----- Recency filter -----

  predicate IsRecent(r: Report, now: int) {
    r.createdAt.Some? && r.createdAt.value >= now - DayMs
  }

  /** `reports.filter(...)` with `timeWindow = now - 24h`. */
  function Recent(rs: seq<Report>, now: int): (kept: seq<Report>)
    ensures |kept| <= |rs|
    ensures forall r :: r in kept <==> r in rs && IsRecent(r, now)
  {
    if rs == [] then [] else (if IsRecent(rs[0], now) then [rs[0]] else []) + Recent(rs[1..], now)
  }

  /** The filter works element by element: it keeps the survivors in their original order. */
  lemma {:induction false} RecentDistributes(a: seq<Report>, b: seq<Report>, now: int)
    ensures Recent(a + b, now) == Recent(a, now) + Recent(b, now)
  {
    if a == [] {
      assert a + b == b;
    } else {
      assert (a + b)[0] == a[0];
      assert (a + b)[1..] == a[1..] + b;
      RecentDistributes(a[1..], b, now);
    }
  }

  // ----- Clusters and what they summarise -----

  /** A cluster object `{ lat, lng, reports, totalDecibels }`. */
  datatype Cluster = Cluster(lat: real, lng: real, reports: seq<Report>, totalDecibels: int)

  /** Neither coordinate is NaN, so the forEach body does not return early. */
  predicate Placeable(r: Report) {
    r.latitude.Some? && r.longitude.Some?
  }

  function LatOf(r: Report): real {
    if r.latitude.Some? then r.latitude.value else 0.0
  }

  function LngOf(r: Report): real {
    if r.longitude.Some? then r.longitude.value else 0.0
  }

  function SumLat(rs: seq<Report>): real {
    if rs == [] then 0.0 else SumLat(rs[..|rs| - 1]) + LatOf(rs[|rs| - 1])
  }

  function SumLng(rs: seq<Report>): real {
    if rs == [] then 0.0 else SumLng(rs[..|rs| - 1]) + LngOf(rs[|rs| - 1])
  }

  function SumDb(rs: seq<Report>): int {
    if rs == [] then 0 else SumDb(rs[..|rs| - 1]) + rs[|rs| - 1].decibels
  }

  /**
   * What a cluster is meant to hold: at least one member, every member with
   * coordinates, the centroid at the arithmetic mean of the members'
   * coordinates and the decibel total equal to the members' sum.
   */
  predicate WellFormed(c: Cluster) {
    && c.reports != []
    && (forall m :: m in c.reports ==> Placeable(m))
    && c.lat == SumLat(c.reports) / |c.reports| as real
    && c.lng == SumLng(c.reports) / |c.reports| as real
    && c.totalDecibels == SumDb(c.reports)
  }

  /** All members of all clusters, counted with multiplicity. */
  function Members(cs: seq<Cluster>): multiset<Report> {
    if cs == [] then multiset{} else Members(cs[..|cs| - 1]) + multiset(cs[|cs| - 1].reports)
  }

  /** The reports the forEach places, in order: those with both coordinates. */
  function Placed(rs: seq<Report>): (ps: seq<Report>)
    ensures |ps| <= |rs|
    ensures forall r :: r in ps ==> r in rs && Placeable(r)
  {
    if rs == [] then []
    else Placed(rs[..|rs| - 1]) + (if Placeable(rs[|rs| - 1]) then [rs[|rs| - 1]] else [])
  }

  // ----- The clustering pass -----

  /** Both coordinates strictly within `clusterDistance` of the cluster's current centroid. */
  predicate Near(c: Cluster, lat: real, lng: real) {
    && -ClusterDistance < lat - c.lat < ClusterDistance
    && -ClusterDistance < lng - c.lng < ClusterDistance
  }

  /** `clusters.find(...)`: the index of the first near cluster, or the number of clusters when none is near. */
  function FirstNear(cs: seq<Cluster>, lat: real, lng: real): (k: nat)
    ensures k <= |cs|
    ensures k < |cs| ==> Near(cs[k], lat, lng)
    ensures forall i :: 0 <= i < k ==> !Near(cs[i], lat, lng)
  {
    if cs == [] then 0
    else if Near(cs[0], lat, lng) then 0
    else 1 + FirstNear(cs[1..], lat, lng)
  }

  /** The found cluster after the push, the decibel sum and the two running-mean updates. */
  function Join(c: Cluster, r: Report): Cluster {
    var n := |c.reports| + 1;
    Cluster((c.lat * (n - 1) as real + LatOf(r)) / n as real,
            (c.lng * (n - 1) as real + LngOf(r)) / n as real,
            c.reports + [r],
            c.totalDecibels + r.decibels)
  }

  function Singleton(r: Report): Cluster {
    Cluster(LatOf(r), LngOf(r), [r], r.decibels)
  }

  /**
   * One step of the forEach: a report with a NaN coordinate is skipped; any
   * other joins the first cluster whose current centroid is near it, leaving
   * every other cluster as it was, or starts a new cluster at the end.
   */
  function Place(cs: seq<Cluster>, r: Report): (ds: seq<Cluster>)
    ensures !Placeable(r) ==> ds == cs
    ensures Placeable(r) && FirstNear(cs, LatOf(r), LngOf(r)) < |cs| ==>
              var k := FirstNear(cs, LatOf(r), LngOf(r));
              && |ds| == |cs|
              && ds[k].reports == cs[k].reports + [r]
              && (forall i :: 0 <= i < |cs| && i != k ==> ds[i] == cs[i])
    ensures Placeable(r) && FirstNear(cs, LatOf(r), LngOf(r)) == |cs| ==>
              && (forall i :: 0 <= i < |cs| ==> !Near(cs[i], LatOf(r), LngOf(r)))
              && ds == cs + [Singleton(r)]
  {
    if !Placeable(r) then cs
    else
      var k := FirstNear(cs, LatOf(r), LngOf(r));
      if k < |cs| then cs[k := Join(cs[k], r)] else cs + [Singleton(r)]
  }

  /** The clusters after the forEach has run over `rs`. */
  function Clusters(rs: seq<Report>): seq<Cluster> {
    if rs == [] then [] else Place(Clusters(rs[..|rs| - 1]), rs[|rs| - 1])
  }

  /** The running-mean update keeps the centroid at the members' mean, and the total at their sum. */
  lemma {:induction false} JoinKeepsWellFormed(c: Cluster, r: Report)
    requires WellFormed(c) && Placeable(r)
    ensures WellFormed(Join(c, r))
  {
    var s := c.reports + [r];
    var n := |s|;
    assert s[..n - 1] == c.reports;
    assert SumLat(s) == SumLat(c.reports) + LatOf(r);
    assert SumLng(s) == SumLng(c.reports) + LngOf(r);
    assert SumDb(s) == c.totalDecibels + r.decibels;
    var m := (n - 1) as real;
    assert m + 1.0 == n as real;
    MeanStep(c.lat, m, SumLat(c.reports), LatOf(r));
    MeanStep(c.lng, m, SumLng(c.reports), LngOf(r));
    var j := Join(c, r);
    assert j.reports == s;
    assert j.lat == (c.lat * m + LatOf(r)) / n as real;
    assert j.lat == SumLat(s) / n as real;
    assert j.lng == SumLng(s) / n as real;
    assert forall x :: x in s ==> x in c.reports || x == r;
  }

  /** The running-mean identity: folding one more value into a mean of m values gives the mean of m + 1. */
  lemma {:induction false} MeanStep(mean: real, m: real, sum: real, x: real)
    requires m > 0.0 && mean == sum / m
    ensures (mean * m + x) / (m + 1.0) == (sum + x) / (m + 1.0)
  {
    assert mean * m == sum;
  }

  lemma {:induction false} MembersAppend(cs: seq<Cluster>, c: Cluster)
    ensures Members(cs + [c]) == Members(cs) + multiset(c.reports)
  {
    assert (cs + [c])[..|cs|] == cs;
  }

  lemma {:induction false} MembersConcat(a: seq<Cluster>, b: seq<Cluster>)
    ensures Members(a + b) == Members(a) + Members(b)
    decreases |b|
  {
    if b == [] {
      assert a + b == a;
    } else {
      var init := b[..|b| - 1];
      assert (a + b)[..|a + b| - 1] == a + init;
      MembersConcat(a, init);
    }
  }

  lemma {:induction false} MembersUpdate(cs: seq<Cluster>, k: nat, c: Cluster)
    requires k < |cs|
    ensures Members(cs[k := c]) + multiset(cs[k].reports) == Members(cs) + multiset(c.reports)
  {
    var front, back := cs[..k], cs[k + 1..];
    assert cs == front + [cs[k]] + back;
    assert cs[k := c] == front + [c] + back;
    MembersConcat(front + [cs[k]], back);
    MembersConcat(front + [c], back);
    MembersAppend(front, cs[k]);
    MembersAppend(front, c);
  }

  lemma {:induction false} MembersContains(cs: seq<Cluster>, i: nat, m: Report)
    requires i < |cs| && m in cs[i].reports
    ensures m in Members(cs)
  {
    if i < |cs| - 1 {
      MembersContains(cs[..|cs| - 1], i, m);
    }
  }

  lemma {:induction false} UpdateKeepsWellFormed(cs: seq<Cluster>, k: nat, c: Cluster)
    requires k < |cs| && WellFormed(c)
    requires forall d :: d in cs ==> WellFormed(d)
    ensures forall d :: d in cs[k := c] ==> WellFormed(d)
  {
    forall d | d in cs[k := c] ensures WellFormed(d) {
      var i :| 0 <= i < |cs| && cs[k := c][i] == d;
      if i != k {
        assert d == cs[i];
      }
    }
  }

  lemma {:induction false} SingletonWellFormed(r: Report)
    requires Placeable(r)
    ensures WellFormed(Singleton(r))
  {
    assert [r][..0] == [];
  }

  /** One step of the pass keeps every cluster well formed and adds the report, if placed, to exactly one cluster. */
  lemma {:induction false} PlaceKeepsInvariant(cs: seq<Cluster>, r: Report)
    requires forall c :: c in cs ==> WellFormed(c)
    ensures forall c :: c in Place(cs, r) ==> WellFormed(c)
    ensures Members(Place(cs, r)) == Members(cs) + (if Placeable(r) then multiset{r} else multiset{})
    ensures |Place(cs, r)| <= |cs| + (if Placeable(r) then 1 else 0)
  {
    if Placeable(r) {
      var k := FirstNear(cs, LatOf(r), LngOf(r));
      if k < |cs| {
        var joined := Join(cs[k], r);
        JoinKeepsWellFormed(cs[k], r);
        MembersUpdate(cs, k, joined);
        var before := multiset(cs[k].reports);
        var upd := Members(cs[k := joined]);
        assert multiset(joined.reports) == before + multiset{r};
        assert upd + before == Members(cs) + multiset(joined.reports);
        forall x ensures upd[x] == (Members(cs) + multiset{r})[x] {
          assert (upd + before)[x] == (Members(cs) + multiset(joined.reports))[x];
        }
        assert Place(cs, r) == cs[k := joined];
        UpdateKeepsWellFormed(cs, k, joined);
      } else {
        SingletonWellFormed(r);
        MembersAppend(cs, Singleton(r));
      }
    }
  }

  /**
   * The pass loses and duplicates nothing: the clusters' members are exactly
   * the placed reports, with multiplicity; every cluster is well formed; and
   * there are never more clusters than placed reports.
   */
  lemma {:induction false} ClustersInvariant(rs: seq<Report>)
    ensures forall c :: c in Clusters(rs) ==> WellFormed(c)
    ensures Members(Clusters(rs)) == multiset(Placed(rs))
    ensures |Clusters(rs)| <= |Placed(rs)|
  {
    if rs != [] {
      var init, r := rs[..|rs| - 1], rs[|rs| - 1];
      ClustersInvariant(init);
      PlaceKeepsInvariant(Clusters(init), r);
      assert Clusters(rs) == Place(Clusters(init), r);
      assert Placed(rs) == Placed(init) + (if Placeable(r) then [r] else []);
    }
  }

  /** Every clustered report passed the recency filter. */
  lemma {:induction false} ClusteredReportsAreRecent(reports: seq<Report>, now: int, c: Cluster, m: Report)
    requires c in Clusters(Recent(reports, now)) && m in c.reports
    ensures m in reports && IsRecent(m, now)
  {
    var rs := Recent(reports, now);
    var cs := Clusters(rs);
    var i :| 0 <= i < |cs| && cs[i] == c;
    MembersContains(cs, i, m);
    ClustersInvariant(rs);
    assert m in multiset(Placed(rs));
  }

  /** `clusters.find(...)`: the scan for the first cluster near the point. */
  method Find(clusters: seq<Cluster>, lat: real, lng: real) returns (k: nat)
    ensures k == FirstNear(clusters, lat, lng)
  {
    k := 0;
    while k < |clusters| && !Near(clusters[k], lat, lng)
      invariant 0 <= k <= |clusters|
      invariant forall m :: 0 <= m < k ==> !Near(clusters[m], lat, lng)
    {
      k := k + 1;
    }
  }

  /** `fetchReportsAndDrawHeatmap`: the filter, then the forEach with its `find`. */
  method BuildClusters(reports: seq<Report>, now: int) returns (clusters: seq<Cluster>)
    ensures clusters == Clusters(Recent(reports, now))
    ensures forall c :: c in clusters ==> WellFormed(c)
    ensures Members(clusters) == multiset(Placed(Recent(reports, now)))
    ensures |clusters| <= |Placed(Recent(reports, now))|
  {
    var recent := Recent(reports, now);
    clusters := [];
    var i := 0;
    while i < |recent|
      invariant 0 <= i <= |recent|
      invariant clusters == Clusters(recent[..i])
    {
      clusters := PlaceReport(clusters, recent[i]);
      assert recent[..i + 1][..i] == recent[..i];
      i := i + 1;
    }
    assert recent[..|recent|] == recent;
    ClustersInvariant(recent);
  }

  /** The body of the forEach for one report. */
  method PlaceReport(clusters: seq<Cluster>, r: Report) returns (ds: seq<Cluster>)
    ensures ds == Place(clusters, r)
  {
    ds := clusters;
    if r.latitude.Some? && r.longitude.Some? {
      var lat, lng := r.latitude.value, r.longitude.value;
      assert lat == LatOf(r) && lng == LngOf(r);
      var k := Find(clusters, lat, lng);
      if k < |clusters| {
        var found := clusters[k];
        var members := found.reports + [r];
        var n := |members|;
        var joined := Cluster((found.lat * (n - 1) as real + lat) / n as real,
                              (found.lng * (n - 1) as real + lng) / n as real,
                              members,
                              found.totalDecibels + r.decibels);
        assert joined == Join(found, r);
        ds := clusters[k := joined];
      } else {
        ds := clusters + [Cluster(lat, lng, [r], r.decibels)];
      }
    }
  }

  /** Two reports about 14 m apart end up in one cluster centred on their midpoint. */
  lemma {:induction false} ScenarioTwoNearbyReportsMerge(t: int)
    ensures var r1 := Report(1, Some(t), Some(41.330), Some(19.820), 60, None);
            var r2 := Report(2, Some(t), Some(41.3301), Some(19.8201), 70, None);
            Clusters([r1, r2]) == [Cluster(41.33005, 19.82005, [r1, r2], 130)]
  {
    var r1 := Report(1, Some(t), Some(41.330), Some(19.820), 60, None);
    var r2 := Report(2, Some(t), Some(41.3301), Some(19.8201), 70, None);
    assert [r1, r2][..1] == [r1];
    assert [r1][..0] == [];
    assert Clusters([r1]) == [Singleton(r1)];
    assert Near(Singleton(r1), 41.3301, 19.8201);
    assert FirstNear([Singleton(r1)], 41.3301, 19.8201) == 0;
    assert Join(Singleton(r1), r2) == Cluster(41.33005, 19.82005, [r1, r2], 130);
  }

  // ----- Drawing a cluster -----

  /** `Math.round(cl.totalDecibels / count)` */
  function AverageDb(c: Cluster): int
    requires c.reports != []
  {
    Round(c.totalDecibels as real / |c.reports| as real)
  }

  lemma {:induction false} SumDbBounds(rs: seq<Report>, lo: int, hi: int)
    requires forall m :: m in rs ==> lo <= m.decibels <= hi
    ensures |rs| * lo <= SumDb(rs) <= |rs| * hi
  {
    if rs != [] {
      assert forall m :: m in rs[..|rs| - 1] ==> m in rs;
      SumDbBounds(rs[..|rs| - 1], lo, hi);
      assert rs[|rs| - 1] in rs;
      assert |rs| * lo == (|rs| - 1) * lo + lo;
      assert |rs| * hi == (|rs| - 1) * hi + hi;
    }
  }

  /** The rounded average lies between the quietest and the loudest member, so it is again a valid stored value. */
  lemma {:induction false} AverageWithinMembers(c: Cluster, lo: int, hi: int)
    requires WellFormed(c)
    requires forall m :: m in c.reports ==> lo <= m.decibels <= hi
    ensures lo <= AverageDb(c) <= hi
  {
    var n := |c.reports|;
    SumDbBounds(c.reports, lo, hi);
    var avg := c.totalDecibels as real / n as real;
    MeanBetween(c.totalDecibels, n, lo, hi);
    RoundBetween(avg, lo, hi);
  }

  lemma {:induction false} MeanBetween(total: int, n: int, lo: int, hi: int)
    requires n > 0 && n * lo <= total <= n * hi
    ensures lo as real <= total as real / n as real <= hi as real
  {
    var q := total as real / n as real;
    assert q * n as real == total as real;
    assert lo as real * n as real <= q * n as real;
    assert q * n as real <= hi as real * n as real;
  }

  const Green: string := "#4caf50"
  const Amber: string := "#ffc107"
  const Orange: string := "#ff9800"
  const Red: string := "#f44336"

  /** The circle colour of a cluster from its rounded average. */
  function CircleColour(avgDb: int): string {
    if avgDb <= 50 then Green
    else if avgDb <= 80 then Amber
    else if avgDb <= 100 then Orange
    else Red
  }

  /** The circle colours follow the server's severity bands one to one. */
  lemma {:induction false} CircleColourFollowsSeverity(avgDb: int)
    ensures CircleColour(avgDb) == Green <==> ReportsApi.SeverityOf(avgDb) == ReportsApi.Quiet
    ensures CircleColour(avgDb) == Amber <==> ReportsApi.SeverityOf(avgDb) == ReportsApi.Normal
    ensures CircleColour(avgDb) == Orange <==> ReportsApi.SeverityOf(avgDb) == ReportsApi.Loud
    ensures CircleColour(avgDb) == Red <==> ReportsApi.SeverityOf(avgDb) == ReportsApi.VeryHigh
  {
  }

  /** The options of the cluster's circle that the model keeps. */
  datatype Circle = Circle(centerLat: real, centerLng: real, radius: int, colour: string)

  function ClusterCircle(c: Cluster): (circle: Circle)
    requires c.reports != []
    ensures circle.radius == 40 + 5 * |c.reports|
    ensures circle.colour == CircleColour(AverageDb(c))
    ensures circle.centerLat == c.lat && circle.centerLng == c.lng
  {
    Circle(c.lat, c.lng, 40 + |c.reports| * 5, CircleColour(AverageDb(c)))
  }

  /** A circle is 5 m wider for every member a report adds. */
  lemma {:induction false} RadiusGrowsPerMember(c: Cluster, r: Report)
    requires c.reports != []
    ensures ClusterCircle(Join(c, r)).radius == ClusterCircle(c).radius + 5
  {
  }

  // ----- The detail list -----

  predicate Dated(rs: seq<Report>) {
    forall r :: r in rs ==> r.createdAt.Some?
  }

  function Stamp(r: Report): int
    requires r.createdAt.Some?
  {
    r.createdAt.value
  }

  predicate NewestFirstOrdered(rs: seq<Report>)
    requires Dated(rs)
  {
    forall i, j :: 0 <= i < j < |rs| ==> Stamp(rs[i]) >= Stamp(rs[j])
  }

  /** Put `r`, which came before every report of `sorted`, in front of those no newer than it. */
  function Insert(r: Report, sorted: seq<Report>): (res: seq<Report>)
    requires r.createdAt.Some? && Dated(sorted)
    ensures multiset(res) == multiset(sorted) + multiset{r}
    ensures Dated(res)
  {
    if sorted == [] || Stamp(sorted[0]) <= Stamp(r) then [r] + sorted
    else
      assert sorted == [sorted[0]] + sorted[1..];
      [sorted[0]] + Insert(r, sorted[1..])
  }

  lemma {:induction false} InsertOrdered(r: Report, sorted: seq<Report>)
    requires r.createdAt.Some? && Dated(sorted) && NewestFirstOrdered(sorted)
    ensures NewestFirstOrdered(Insert(r, sorted))
  {
    if !(sorted == [] || Stamp(sorted[0]) <= Stamp(r)) {
      var rest := Insert(r, sorted[1..]);
      InsertOrdered(r, sorted[1..]);
      HeadNoOlderThanInserted(r, sorted);
      var res := [sorted[0]] + rest;
      assert Insert(r, sorted) == res;
      forall i, j | 0 <= i < j < |res| ensures Stamp(res[i]) >= Stamp(res[j]) {
        assert res[j] == rest[j - 1];
        if i > 0 {
          assert res[i] == rest[i - 1];
        }
      }
    }
  }

  /** When `r` goes past the head, the head is no older than anything in the rest after insertion. */
  lemma {:induction false} HeadNoOlderThanInserted(r: Report, sorted: seq<Report>)
    requires r.createdAt.Some? && Dated(sorted) && NewestFirstOrdered(sorted)
    requires sorted != [] && Stamp(sorted[0]) > Stamp(r)
    ensures forall k :: 0 <= k < |Insert(r, sorted[1..])| ==> Stamp(Insert(r, sorted[1..])[k]) <= Stamp(sorted[0])
  {
    var tail := sorted[1..];
    var rest := Insert(r, tail);
    forall k | 0 <= k < |rest| ensures Stamp(rest[k]) <= Stamp(sorted[0]) {
      var x := rest[k];
      assert x in multiset(rest);
      if x != r {
        assert x in multiset(tail);
        var m :| 0 <= m < |tail| && tail[m] == x;
        assert sorted[m + 1] == x;
      }
    }
  }

  /**
   * `reports.sort((a, b) => new Date(b.created_at) - new Date(a.created_at))`:
   * the members newest first, ties in their original order. Every member has a
   * timestamp, since it passed the recency filter.
   */
  function NewestFirst(rs: seq<Report>): (sorted: seq<Report>)
    requires Dated(rs)
    ensures multiset(sorted) == multiset(rs)
    ensures Dated(sorted) && NewestFirstOrdered(sorted)
  {
    if rs == [] then []
    else
      assert rs == [rs[0]] + rs[1..];
      var tail := NewestFirst(rs[1..]);
      InsertOrdered(rs[0], tail);
      Insert(rs[0], tail)
  }

  /** The reports stamped `t`, in the order they appear. */
  function StampedAt(rs: seq<Report>, t: int): (ties: seq<Report>)
    requires Dated(rs)
    ensures |ties| <= |rs|
  {
    if rs == [] then []
    else (if Stamp(rs[0]) == t then [rs[0]] else []) + StampedAt(rs[1..], t)
  }

  /** Inserting `r` puts it in front of every report already there with the same stamp. */
  lemma {:induction false} InsertKeepsTies(r: Report, sorted: seq<Report>, t: int)
    requires r.createdAt.Some? && Dated(sorted)
    ensures StampedAt(Insert(r, sorted), t) == (if Stamp(r) == t then [r] else []) + StampedAt(sorted, t)
  {
    var res := Insert(r, sorted);
    if sorted == [] || Stamp(sorted[0]) <= Stamp(r) {
      assert res == [r] + sorted;
      assert res[0] == r && res[1..] == sorted;
    } else {
      var rest := Insert(r, sorted[1..]);
      InsertKeepsTies(r, sorted[1..], t);
      assert res == [sorted[0]] + rest;
      assert res[0] == sorted[0] && res[1..] == rest;
      var head := if Stamp(sorted[0]) == t then [sorted[0]] else [];
      assert StampedAt(res, t) == head + StampedAt(rest, t);
      assert StampedAt(sorted, t) == head + StampedAt(sorted[1..], t);
      assert Stamp(r) == t ==> head == [];
    }
  }

  /**
   * The sort is stable: the reports sharing a timestamp come out in the order
   * they went in, as `Array.prototype.sort` has been required to keep them
   * since ECMAScript 2019.
   */
  lemma {:induction false} NewestFirstKeepsTies(rs: seq<Report>, t: int)
    requires Dated(rs)
    ensures StampedAt(NewestFirst(rs), t) == StampedAt(rs, t)
  {
    if rs != [] {
      assert rs == [rs[0]] + rs[1..];
      NewestFirstKeepsTies(rs[1..], t);
      InsertKeepsTies(rs[0], NewestFirst(rs[1..]), t);
    }
  }

  /** The report the info window shows, `sort(...)[0]`, is the newest member. */
  lemma {:induction false} LatestIsNewest(rs: seq<Report>, m: Report)
    requires Dated(rs) && rs != [] && m in rs
    ensures NewestFirst(rs) != [] && Stamp(NewestFirst(rs)[0]) >= Stamp(m)
  {
    var sorted := NewestFirst(rs);
    assert m in multiset(sorted);
    var i :| 0 <= i < |sorted| && sorted[i] == m;
  }

  /** `description.replace(/</g, '&lt;')` */
  function EscapeLt(s: string): (t: string)
    ensures '<' !in t
    ensures |t| >= |s|
  {
    if s == [] then []
    else (if s[0] == '<' then "&lt;" else [s[0]]) + EscapeLt(s[1..])
  }

  /** Escaping works character by character. */
  lemma {:induction false} EscapeDistributes(a: string, b: string)
    ensures EscapeLt(a + b) == EscapeLt(a) + EscapeLt(b)
  {
    if a == [] {
      assert a + b == b;
    } else {
      var first := if a[0] == '<' then "&lt;" else [a[0]];
      assert (a + b)[0] == a[0];
      assert (a + b)[1..] == a[1..] + b;
      EscapeDistributes(a[1..], b);
      calc {
        EscapeLt(a + b);
        first + EscapeLt(a[1..] + b);
        first + (EscapeLt(a[1..]) + EscapeLt(b));
        (first + EscapeLt(a[1..])) + EscapeLt(b);
        EscapeLt(a) + EscapeLt(b);
      }
    }
  }


  /** A description without `<` is shown as it is. */
  lemma {:induction false} EscapeKeepsPlainText(s: string)
    requires '<' !in s
    ensures EscapeLt(s) == s
  {
    if s != [] {
      EscapeKeepsPlainText(s[1..]);
    }
  }

  /** The decibel colour of one list item. */
  function ItemColour(db: int): string {
    if db > 80 then "#F44336" else if db > 50 then "#FF9800" else "#4CAF50"
  }

  /** The list colours merge the server's two loudest bands into red. */
  lemma {:induction false} ItemColourFollowsSeverity(db: int)
    ensures ItemColour(db) == "#F44336" <==> ReportsApi.SeverityOf(db) in {ReportsApi.Loud, ReportsApi.VeryHigh}
    ensures ItemColour(db) == "#FF9800" <==> ReportsApi.SeverityOf(db) == ReportsApi.Normal
    ensures ItemColour(db) == "#4CAF50" <==> ReportsApi.SeverityOf(db) == ReportsApi.Quiet
  {
  }

  /** One entry of the detail list: its decibels, their colour and the escaped description. */
  datatype Item = Item(id: int, decibels: int, colour: string, text: string)

  /** The list entry of one member. */
  function ItemOf(r: Report): Item {
    Item(r.id, r.decibels, ItemColour(r.decibels),
         EscapeLt(if r.description.Some? then r.description.value else ""))
  }

  /** `showClusterModal`: the members newest first, each with `Math.round(r.decibels || 0)`, its colour and the escaped description. */
  function ModalItems(c: Cluster): (items: seq<Item>)
    requires Dated(c.reports)
    ensures |items| == |c.reports| == |NewestFirst(c.reports)|
    ensures forall i :: 0 <= i < |items| ==> items[i] == ItemOf(NewestFirst(c.reports)[i])
    ensures forall i :: 0 <= i < |items| ==> '<' !in items[i].text && items[i].colour == ItemColour(items[i].decibels)
  {
    var sorted := NewestFirst(c.reports);
    assert |sorted| == |multiset(sorted)| == |multiset(c.reports)| == |c.reports|;
    seq(|sorted|, i requires 0 <= i < |sorted| => ItemOf(sorted[i]))
  }

  /** The list shows every member. */
  lemma {:induction false} ModalListsEveryMember(c: Cluster)
    requires Dated(c.reports)
    ensures forall m :: m in c.reports ==> ItemOf(m) in ModalItems(c)
  {
    var sorted := NewestFirst(c.reports);
    var items := ModalItems(c);
    forall m | m in c.reports ensures ItemOf(m) in items {
      assert m in multiset(sorted);
      var i :| 0 <= i < |sorted| && sorted[i] == m;
      assert items[i] == ItemOf(sorted[i]);
    }
  }

  /** The list shows only members. */
  lemma {:induction false} ModalListsOnlyMembers(c: Cluster)
    requires Dated(c.reports)
    ensures forall it :: it in ModalItems(c) ==> exists m :: m in c.reports && it == ItemOf(m)
  {
    var sorted := NewestFirst(c.reports);
    var items := ModalItems(c);
    forall it | it in items ensures exists m :: m in c.reports && it == ItemOf(m) {
      var i :| 0 <= i < |items| && items[i] == it;
      var m := sorted[i];
      assert m in multiset(sorted);
      assert m in c.reports && it == ItemOf(m);
    }
  }
}
