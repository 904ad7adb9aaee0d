/**
 * The records the application keeps in memory: masses, bulk intention
 * series and personal-mass trackers, and the per-user views of them that
 * every screen starts from.
 */
module Domain {
  import opened Seqs

  /** The five values the mass-type selector offers; `Tag` is the string the record stores. */
  datatype MassType = Personal | Deceased | BulkProvince | BulkGeneralate | Special {
    function Tag(): string {
      match this
      case Personal => "personal"
      case Deceased => "deceased"
      case BulkProvince => "bulk_province"
      case BulkGeneralate => "bulk_generalate"
      case Special => "special"
    }

    /** Whether the type's stored tag begins with `bulk_`. */
    predicate IsBulk() {
      "bulk_" <= Tag()
    }
  }

  /** Where a bulk series' intentions come from. */
  datatype SeriesSource = Province | Generalate

  /** A calendar date; `month` runs 1..12, as the source numbers months. */
  datatype Date = Date(year: int, month: int, day: int)

  /** Chronological order on dates: `a` is no later than `b`. */
  predicate OnOrBefore(a: Date, b: Date) {
    || a.year < b.year
    || (a.year == b.year && a.month < b.month)
    || (a.year == b.year && a.month == b.month && a.day <= b.day)
  }

  /** The date order the newest-first sort relies on: reflexive, total, antisymmetric and transitive. */
  lemma DateOrder(a: Date, b: Date, c: Date)
    ensures OnOrBefore(a, a)
    ensures OnOrBefore(a, b) || OnOrBefore(b, a)
    ensures OnOrBefore(a, b) && OnOrBefore(b, a) ==> a == b
    ensures OnOrBefore(a, b) && OnOrBefore(b, c) ==> OnOrBefore(a, c)
  {
  }

  /** A stored mass, with the fields the reports read. */
  datatype Mass = Mass(
    id: string,
    priestId: string,
    date: Date,
    massType: MassType,
    intentionSource: string,
    intentionDetails: string)

  /** A batch of intentions assigned to one priest. */
  datatype BulkSeries = BulkSeries(
    id: string,
    source: SeriesSource,
    totalMasses: int,
    remainingMasses: int,
    intentionDescription: string,
    assignedPriestId: string,
    isActive: bool)

  /** A stored monthly personal-mass quota record. */
  datatype Tracker = Tracker(
    priestId: string,
    month: int,
    year: int,
    completedCount: int,
    requiredCount: int)

  /** Exactly the two bulk variants carry the `bulk_` prefix. */
  lemma BulkTypes(t: MassType)
    ensures t.IsBulk() <==> t == BulkProvince || t == BulkGeneralate
  {
    match t
    case Personal => assert t.Tag()[0] != 'b';
    case Deceased => assert t.Tag()[0] != 'b';
    case Special => assert t.Tag()[0] != 'b';
    case BulkProvince => assert t.Tag()[..5] == "bulk_";
    case BulkGeneralate => assert t.Tag()[..5] == "bulk_";
  }

  function OwnedBy(priestId: string): Mass -> bool {
    (m: Mass) => m.priestId == priestId
  }

  function AssignedTo(priestId: string): BulkSeries -> bool {
    (s: BulkSeries) => s.assignedPriestId == priestId
  }

  /** The current user's masses, in ledger order. */
  function UserMasses(masses: seq<Mass>, priestId: string): (r: seq<Mass>)
    ensures forall m :: m in r ==> m in masses && m.priestId == priestId
    ensures forall m :: m in masses && m.priestId == priestId ==> m in r
    ensures multiset(r) <= multiset(masses)
    ensures forall m :: m in masses ==> multiset(r)[m] == if m.priestId == priestId then multiset(masses)[m] else 0
  {
    FilterCounts(masses, OwnedBy(priestId));
    Filter(masses, OwnedBy(priestId))
  }

  /** The series assigned to the current user, in list order. */
  function UserSeries(series: seq<BulkSeries>, priestId: string): (r: seq<BulkSeries>)
    ensures forall s :: s in r ==> s in series && s.assignedPriestId == priestId
    ensures forall s :: s in series && s.assignedPriestId == priestId ==> s in r
    ensures forall s :: s in series ==> multiset(r)[s] == if s.assignedPriestId == priestId then multiset(series)[s] else 0
  {
    FilterCounts(series, AssignedTo(priestId));
    Filter(series, AssignedTo(priestId))
  }
}
