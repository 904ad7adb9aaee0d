/**
 * The dashboard's counters: this month's personal-mass quota as stored in a
 * tracker record, the number of masses, the number of active series, and each
 * series' progress.
 */
module Dashboard {
  import opened Wrappers
  import opened Seqs
  import opened Domain
  import opened Reports
  import opened MassEntry

  /** The quota shown when no tracker record matches. */
  const DefaultRequired: int := 3

  function TrackerFor(priestId: string, month: int, year: int): Tracker -> bool {
    (t: Tracker) => t.priestId == priestId && t.month == month && t.year == year
  }

  /** The first tracker record of this user, month and year, if any. */
  function FindTracker(trackers: seq<Tracker>, priestId: string, month: int, year: int): (r: Option<Tracker>)
    ensures r.Some? ==> r.value in trackers && r.value.priestId == priestId && r.value.month == month && r.value.year == year
    ensures r.None? <==> forall t :: t in trackers ==> !(t.priestId == priestId && t.month == month && t.year == year)
    ensures r.Some? ==>
      exists i :: 0 <= i < |trackers| && trackers[i] == r.value && forall j :: 0 <= j < i ==> !TrackerFor(priestId, month, year)(trackers[j])
  {
    Find(trackers, TrackerFor(priestId, month, year))
  }

  /** JavaScript's logical or on a number: the default when the value is 0, the value otherwise. */
  function OrDefault(x: int, d: int): (r: int)
    ensures r == x || r == d
    ensures x != 0 ==> r == x
    ensures r == d <== x == 0
    ensures r != 0 <== x != 0 || d != 0
  {
    if x != 0 then x else d
  }

  /** The "completed / required" pair on the quota card. */
  datatype QuotaView = QuotaView(completed: int, required: int)

  /** The quota card: the matching tracker's counts, with 0 and 3 standing in for missing (or zero) values. */
  function QuotaDisplay(trackers: seq<Tracker>, priestId: string, month: int, year: int): (q: QuotaView)
    ensures FindTracker(trackers, priestId, month, year).None? ==> q == QuotaView(0, DefaultRequired)
    ensures FindTracker(trackers, priestId, month, year).Some? ==>
      var t := FindTracker(trackers, priestId, month, year).value;
      q.completed == t.completedCount && q.required == (if t.requiredCount == 0 then DefaultRequired else t.requiredCount)
    ensures q.required != 0
  {
    match FindTracker(trackers, priestId, month, year)
    case None => QuotaView(0, DefaultRequired)
    case Some(t) => QuotaView(OrDefault(t.completedCount, 0), OrDefault(t.requiredCount, DefaultRequired))
  }

  /** A user with no tracker record for the month sees "0 / 3". */
  lemma NoTrackerShowsDefault(trackers: seq<Tracker>, priestId: string, month: int, year: int)
    requires forall t :: t in trackers ==> t.priestId != priestId || t.month != month || t.year != year
    ensures QuotaDisplay(trackers, priestId, month, year) == QuotaView(0, 3)
  {
  }

  /** "Total Masses Celebrated": the number of the user's masses, which is also the sum of the all-time summary's entries. */
  function TotalCelebrated(masses: seq<Mass>, priestId: string): (n: nat)
    ensures forall acc :: Summarises(acc, UserMasses(masses, priestId)) ==> n == Total(acc)
    ensures n <= |masses|
  {
    var ms := UserMasses(masses, priestId);
    assert forall acc :: Summarises(acc, ms) ==> |ms| == Total(acc) by {
      forall acc | Summarises(acc, ms) ensures |ms| == Total(acc) {
        SummaryTotal(acc, ms);
      }
    }
    |ms|
  }

  const IsActiveSeries: BulkSeries -> bool := (s: BulkSeries) => s.isActive

  /** "Active Bulk Series": how many of the user's series are active. */
  function ActiveSeriesCount(series: seq<BulkSeries>, priestId: string): (n: nat)
    ensures n <= |UserSeries(series, priestId)|
    ensures n == |UserSeries(series, priestId)| <==> forall s :: s in UserSeries(series, priestId) ==> s.isActive
    ensures n == 0 <==> forall s :: s in series && s.assignedPriestId == priestId ==> !s.isActive
  {
    FilterKeepsAll(UserSeries(series, priestId), IsActiveSeries);
    FilterEmpty(UserSeries(series, priestId), IsActiveSeries);
    |Filter(UserSeries(series, priestId), IsActiveSeries)|
  }

  /** The dashboard's active-series count is the number of series the entry form can record against. */
  lemma ActiveCountMatchesEntryForm(series: seq<BulkSeries>, priestId: string)
    ensures ActiveSeriesCount(series, priestId) == |ActiveBulkSeries(series, priestId)|
  {
    FilterFilter(series, AssignedTo(priestId), IsActiveSeries, ActiveFor(priestId));
  }

  /** "Progress": how many of the series' masses have been celebrated. */
  function Progress(s: BulkSeries): (p: int)
    ensures p + s.remainingMasses == s.totalMasses
    ensures 0 <= s.remainingMasses <= s.totalMasses ==> 0 <= p <= s.totalMasses
    ensures p == 0 <==> s.remainingMasses == s.totalMasses
  {
    s.totalMasses - s.remainingMasses
  }
}
