/**
 * `src/trackers/analytics.py`: response, interview and weekly figures over
 * the tracked applications.  The application list and today's date are
 * parameters; a date is a day number, so that `date - timedelta(days=n)`
 * is `date - n`.
 */
module Analytics {
  import opened TextUtil

  /** The two fields of a tracked application the figures read. */
  datatype Application = Application(dateApplied: int, status: string)

  /** `status in ['Interview', 'Offer']`. */
  predicate IsInterview(status: string) {
    status == "Interview" || status == "Offer"
  }

  /** Applied on or after `cutoff`. */
  function AppliedFrom(cutoff: int): Application -> bool {
    (a: Application) => a.dateApplied >= cutoff
  }

  /** Past the `'Applied'` status. */
  function Responded(): Application -> bool {
    (a: Application) => a.status != "Applied"
  }

  /** Reached an interview or an offer. */
  function Interviewed(): Application -> bool {
    (a: Application) => IsInterview(a.status)
  }


  // ---------------------------------------------------------------------
  // Rates
  // ---------------------------------------------------------------------

  datatype ResponseStats = ResponseStats(totalApplications: nat, responded: nat, responseRate: real, periodDays: int)

  /**
   * `calculate_response_rate(days)` on `today`: among the applications dated
   * on or after `today - days`, the share that moved past 'Applied'.
   */
  function CalculateResponseRate(apps: seq<Application>, today: int, days: int): (r: ResponseStats)
    ensures r.totalApplications == |Filter(apps, AppliedFrom(today - days))|
    ensures r.responded <= r.totalApplications
    ensures r.responseRate == Percentage(r.responded, r.totalApplications)
    ensures r.totalApplications == 0 ==> r.responseRate == 0.0
    ensures 0.0 <= r.responseRate <= 100.0
    ensures r.periodDays == days
  {
    var recent := Filter(apps, AppliedFrom(today - days));
    var responded := Filter(recent, Responded());
    ResponseStats(|recent|, |responded|, Percentage(|responded|, |recent|), days)
  }

  /**
   * Exactly the recent applications are counted, and among them exactly
   * those that moved past 'Applied' count as responses.
   */
  lemma {:induction false} ResponseRateCountsRecent(apps: seq<Application>, today: int, days: int)
    ensures var recent := Filter(apps, AppliedFrom(today - days));
      (forall a :: a in recent <==> a in apps && a.dateApplied >= today - days) &&
      (forall a :: a in Filter(recent, Responded()) <==> a in recent && a.status != "Applied") &&
      CalculateResponseRate(apps, today, days).responded + |Reject(recent, Responded())| ==
        CalculateResponseRate(apps, today, days).totalApplications
  {
    var recent := Filter(apps, AppliedFrom(today - days));
    FilterMembers(apps, AppliedFrom(today - days));
    FilterMembers(recent, Responded());
    FilterRejectSplit(recent, Responded());
  }

  datatype InterviewStats = InterviewStats(totalApplications: nat, interviews: nat, interviewRate: real)

  /** `calculate_interview_rate()`: the share of all applications that reached an interview or an offer. */
  function CalculateInterviewRate(apps: seq<Application>): (r: InterviewStats)
    ensures r.totalApplications == |apps|
    ensures r.interviews <= r.totalApplications
    ensures r.interviewRate == Percentage(r.interviews, r.totalApplications)
    ensures r.totalApplications == 0 ==> r.interviewRate == 0.0
    ensures 0.0 <= r.interviewRate <= 100.0
  {
    var interviews := Filter(apps, Interviewed());
    InterviewStats(|apps|, |interviews|, Percentage(|interviews|, |apps|))
  }

  /** The interviews counted are exactly the applications whose status is Interview or Offer. */
  lemma InterviewsAreInterviewStatuses(apps: seq<Application>)
    ensures forall a :: a in Filter(apps, Interviewed()) <==> a in apps && IsInterview(a.status)
    ensures CalculateInterviewRate(apps).interviews + |Reject(apps, Interviewed())| == |apps|
  {
    FilterMembers(apps, Interviewed());
    FilterRejectSplit(apps, Interviewed());
  }

  // ---------------------------------------------------------------------
  // Weekly trends
  // ---------------------------------------------------------------------

  /** The number of applications dated within the half-open window `[lo, hi)`. */
  function CountWithin(apps: seq<Application>, lo: int, hi: int): nat {
    if apps == [] then 0
    else CountWithin(apps[..|apps| - 1], lo, hi) + (if lo <= apps[|apps| - 1].dateApplied < hi then 1 else 0)
  }

  /** The number of those that reached an interview or an offer. */
  function InterviewsWithin(apps: seq<Application>, lo: int, hi: int): (n: nat)
    ensures n <= CountWithin(apps, lo, hi)
  {
    if apps == [] then 0
    else
      var last := apps[|apps| - 1];
      InterviewsWithin(apps[..|apps| - 1], lo, hi) + (if lo <= last.dateApplied < hi && IsInterview(last.status) then 1 else 0)
  }

  /** One week's figures (dates as day numbers). */
  datatype WeekTrend = WeekTrend(week: string, startDate: int, endDate: int, applications: nat, interviews: nat)

  /** The `i`-th week back from `today` (0 is the week ending today): the applications in `[start, end)`. */
  function WeekOf(apps: seq<Application>, today: int, i: nat): (w: WeekTrend)
    ensures w.startDate == today - 7 * (i + 1) && w.endDate == today - 7 * i
    ensures w.week == "Week " + NatToString(i + 1)
    ensures w.applications == CountWithin(apps, w.startDate, w.endDate)
    ensures w.interviews <= w.applications
  {
    var start := today - 7 * (i + 1);
    var end := today - 7 * i;
    WeekTrend("Week " + NatToString(i + 1), start, end, CountWithin(apps, start, end), InterviewsWithin(apps, start, end))
  }

  /** `get_weekly_trends(weeks)`: one entry per week back from `today`, oldest first. */
  function WeeklyTrends(apps: seq<Application>, today: int, weeks: int): (r: seq<WeekTrend>)
    ensures |r| == Max(0, weeks)
    decreases weeks
  {
    if weeks <= 0 then [] else [WeekOf(apps, today, weeks - 1)] + WeeklyTrends(apps, today, weeks - 1)
  }

  /** Entry `j` of the list, counted from the oldest, is week `|r| - 1 - j` back from today. */
  lemma {:induction false} WeeklyTrendsEntries(apps: seq<Application>, today: int, weeks: int)
    ensures forall j :: 0 <= j < Max(0, weeks) ==>
      WeeklyTrends(apps, today, weeks)[j] == WeekOf(apps, today, Max(0, weeks) - 1 - j)
    decreases weeks
  {
    if weeks > 0 {
      var r := WeeklyTrends(apps, today, weeks);
      var rest := WeeklyTrends(apps, today, weeks - 1);
      WeeklyTrendsEntries(apps, today, weeks - 1);
      assert r == [WeekOf(apps, today, weeks - 1)] + rest;
      forall j | 1 <= j < |r|
        ensures r[j] == WeekOf(apps, today, |r| - 1 - j)
      {
        assert r[j] == rest[j - 1];
      }
    }
  }

  /** The loop of `get_weekly_trends`: the weeks newest first, then reversed. */
  method GetWeeklyTrends(apps: seq<Application>, today: int, weeks: int) returns (trends: seq<WeekTrend>)
    ensures trends == WeeklyTrends(apps, today, weeks)
  {
    var newestFirst: seq<WeekTrend> := [];
    var i := 0;
    while i < weeks
      invariant 0 <= i <= Max(0, weeks)
      invariant |newestFirst| == i
      invariant forall k :: 0 <= k < i ==> newestFirst[k] == WeekOf(apps, today, k)
    {
      var weekStart := today - 7 * (i + 1);
      var weekEnd := today - 7 * i;
      var week := WeekTrend("Week " + NatToString(i + 1), weekStart, weekEnd,
                            CountWithin(apps, weekStart, weekEnd), InterviewsWithin(apps, weekStart, weekEnd));
      assert week == WeekOf(apps, today, i);
      newestFirst := newestFirst + [week];
      i := i + 1;
    }
    trends := seq(|newestFirst|, j requires 0 <= j < |newestFirst| => newestFirst[|newestFirst| - 1 - j]);
    ghost var spec := WeeklyTrends(apps, today, weeks);
    WeeklyTrendsEntries(apps, today, weeks);
    assert forall j :: 0 <= j < |trends| ==> trends[j] == spec[j];
  }

  /**
   * The weeks tile the period: each lasts seven days, each ends where the
   * next begins, and the last ends today, so no day is in two weeks.
   */
  lemma WeeksAreConsecutive(apps: seq<Application>, today: int, weeks: int)
    ensures var r := WeeklyTrends(apps, today, weeks);
      (forall j :: 0 <= j < |r| ==> r[j].endDate - r[j].startDate == 7) &&
      (forall j :: 0 <= j < |r| - 1 ==> r[j].endDate == r[j + 1].startDate) &&
      (|r| > 0 ==> r[|r| - 1].endDate == today && r[0].startDate == today - 7 * |r|)
  {
    WeeklyTrendsEntries(apps, today, weeks);
  }

  /** An application dated within the period is counted in exactly one week. */
  lemma WeeksAreDisjoint(apps: seq<Application>, today: int, weeks: int, d: int)
    ensures var r := WeeklyTrends(apps, today, weeks);
      forall j, k :: 0 <= j < k < |r| ==> !(r[j].startDate <= d < r[j].endDate && r[k].startDate <= d < r[k].endDate)
  {
    WeeklyTrendsEntries(apps, today, weeks);
  }

  /** The total of a list of weeks' application counts. */
  function TotalApplications(ws: seq<WeekTrend>): nat {
    if ws == [] then 0 else ws[0].applications + TotalApplications(ws[1..])
  }

  /** Counting over `[lo, hi)` is counting over `[lo, mid)` and `[mid, hi)`. */
  lemma {:induction false} WindowSplit(apps: seq<Application>, lo: int, mid: int, hi: int)
    requires lo <= mid <= hi
    ensures CountWithin(apps, lo, hi) == CountWithin(apps, lo, mid) + CountWithin(apps, mid, hi)
  {
    if apps != [] {
      WindowSplit(apps[..|apps| - 1], lo, mid, hi);
    }
  }

  /** An empty window counts nothing. */
  lemma {:induction false} EmptyWindow(apps: seq<Application>, d: int)
    ensures CountWithin(apps, d, d) == 0
  {
    if apps != [] {
      EmptyWindow(apps[..|apps| - 1], d);
    }
  }

  /**
   * The weekly counts add up to the number of applications dated in the
   * whole period, the last `7 * weeks` days before today.
   */
  lemma {:induction false} WeeklyTotal(apps: seq<Application>, today: int, weeks: nat)
    ensures TotalApplications(WeeklyTrends(apps, today, weeks)) == CountWithin(apps, today - 7 * weeks, today)
  {
    var r := WeeklyTrends(apps, today, weeks);
    if weeks > 0 {
      var m := weeks - 1;
      var lo := today - 7 * weeks;
      var mid := today - 7 * m;
      var oldest := WeekOf(apps, today, m);
      var rest := WeeklyTrends(apps, today, m);
      assert r == [oldest] + rest;
      assert r[1..] == rest;
      WeeklyTotal(apps, today, m);
      WindowSplit(apps, lo, mid, today);
    } else {
      EmptyWindow(apps, today);
    }
  }
}
