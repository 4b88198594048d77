/** The administrator's dashboard (`AdminDashboardPage`): the growth chart
    merges the companies series with the users series point by point, and
    is drawn only with more than one point. */
module AdminDashboardPage {
  import opened Common

  /** `GrowthPoint`: a date and a count. */
  datatype GrowthPoint = GrowthPoint(date: string, count: int)

  /** One point of the chart. */
  datatype ChartPoint = ChartPoint(date: string, companies: int, users: int)

  /** `users_growth[i]?.count || 0`: the users count at the same position,
      or zero past the end of the users series (a zero count is zero
      either way). */
  function UsersAt(usersGrowth: seq<GrowthPoint>, i: nat): (r: int)
    ensures i < |usersGrowth| ==> r == usersGrowth[i].count
    ensures i >= |usersGrowth| ==> r == 0
  {
    if i < |usersGrowth| && usersGrowth[i].count != 0 then usersGrowth[i].count else 0
  }

  /** `chartData`: one point per entry of the companies series, in order,
      with that entry's date and count and the users count at the same
      position. */
  function ChartData(companiesGrowth: seq<GrowthPoint>, usersGrowth: seq<GrowthPoint>): (r: seq<ChartPoint>)
    ensures |r| == |companiesGrowth|
    ensures forall i :: 0 <= i < |r| ==>
      r[i].date == companiesGrowth[i].date && r[i].companies == companiesGrowth[i].count &&
      r[i].users == UsersAt(usersGrowth, i)
  {
    if companiesGrowth == [] then []
    else
      var rest := ChartData(companiesGrowth[1..], if usersGrowth == [] then [] else usersGrowth[1..]);
      assert forall i :: 1 <= i < |companiesGrowth| ==>
        UsersAt(usersGrowth, i) == UsersAt(if usersGrowth == [] then [] else usersGrowth[1..], i - 1);
      [ChartPoint(companiesGrowth[0].date, companiesGrowth[0].count, UsersAt(usersGrowth, 0))] + rest
  }

  /** Users points past the end of the companies series are never drawn. */
  lemma ExtraUsersIgnored(companiesGrowth: seq<GrowthPoint>, usersGrowth: seq<GrowthPoint>, extra: seq<GrowthPoint>)
    requires |usersGrowth| >= |companiesGrowth|
    ensures ChartData(companiesGrowth, usersGrowth + extra) == ChartData(companiesGrowth, usersGrowth)
  {
    var a := ChartData(companiesGrowth, usersGrowth + extra);
    var b := ChartData(companiesGrowth, usersGrowth);
    assert forall i :: 0 <= i < |a| ==> a[i] == b[i];
  }

  /** With an empty users series, every users point is zero. */
  lemma MissingUsersAreZero(companiesGrowth: seq<GrowthPoint>)
    ensures forall p :: p in ChartData(companiesGrowth, []) ==> p.users == 0
  {
    var r := ChartData(companiesGrowth, []);
    forall p | p in r
      ensures p.users == 0
    {
      var i :| 0 <= i < |r| && r[i] == p;
    }
  }

  /** The chart is drawn only with more than one point. */
  function Chart(companiesGrowth: seq<GrowthPoint>, usersGrowth: seq<GrowthPoint>): (r: Option<seq<ChartPoint>>)
    ensures r.Some? <==> |companiesGrowth| > 1
    ensures r.Some? ==> r.value == ChartData(companiesGrowth, usersGrowth)
  {
    var points := ChartData(companiesGrowth, usersGrowth);
    if |points| > 1 then Some(points) else None
  }
}
