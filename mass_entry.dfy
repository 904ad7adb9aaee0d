/**
 * The mass entry form: which bulk series it offers, and the record its
 * submit handler hands on for storing. When a bulk mass names one of the
 * user's active series, the record carries that series' remaining count as
 * `serialNumber` and its description as `intentionDetails`.
 */
module MassEntry {
  import opened Wrappers
  import opened Seqs
  import opened Domain

  /** The form's fields; `bulkSeriesId` is "" when no series is chosen. */
  datatype MassForm = MassForm(
    date: Date,
    massType: MassType,
    intentionSource: string,
    intentionDetails: string,
    bulkSeriesId: string,
    isFixedDate: bool)

  /** The record built on submit: the form's fields plus an optional `serialNumber`. */
  datatype MassData = MassData(
    date: Date,
    massType: MassType,
    intentionSource: string,
    intentionDetails: string,
    bulkSeriesId: string,
    isFixedDate: bool,
    serialNumber: Option<int>)

  /** The shallow copy of the form the handler starts from: every form field, no serial number. */
  function Spread(form: MassForm): MassData {
    MassData(form.date, form.massType, form.intentionSource, form.intentionDetails,
             form.bulkSeriesId, form.isFixedDate, None)
  }

  function ActiveFor(priestId: string): BulkSeries -> bool {
    (s: BulkSeries) => s.assignedPriestId == priestId && s.isActive
  }

  function FromSource(source: SeriesSource): BulkSeries -> bool {
    (s: BulkSeries) => s.source == source
  }

  function HasId(id: string): BulkSeries -> bool {
    (s: BulkSeries) => s.id == id
  }

  /** The series the form works with: those assigned to the user that are still active. */
  function ActiveBulkSeries(series: seq<BulkSeries>, priestId: string): (r: seq<BulkSeries>)
    ensures forall s :: s in r ==> s in series && s.assignedPriestId == priestId && s.isActive
    ensures forall s :: s in series && s.assignedPriestId == priestId && s.isActive ==> s in r
    ensures forall s :: s in series ==>
      multiset(r)[s] == if s.assignedPriestId == priestId && s.isActive then multiset(series)[s] else 0
  {
    FilterCounts(series, ActiveFor(priestId));
    Filter(series, ActiveFor(priestId))
  }

  /** The source the series selector filters on: `bulk_province` gives province, any other type generalate. */
  function SourceFor(t: MassType): (r: SeriesSource)
    ensures t.IsBulk() ==> (r == Province <==> t == BulkProvince) && (r == Generalate <==> t == BulkGeneralate)
  {
    BulkTypes(t);
    if t == BulkProvince then Province else Generalate
  }

  /** The options of the series selector for a given mass type. */
  function OfferedSeries(series: seq<BulkSeries>, priestId: string, t: MassType): (r: seq<BulkSeries>)
    ensures forall s :: s in r ==>
      s in series && s.assignedPriestId == priestId && s.isActive && s.source == SourceFor(t)
    ensures forall s :: s in series && s.assignedPriestId == priestId && s.isActive && s.source == SourceFor(t) ==> s in r
    ensures t == BulkProvince ==> forall s :: s in r ==> s.source == Province
    ensures t == BulkGeneralate ==> forall s :: s in r ==> s.source == Generalate
  {
    Filter(ActiveBulkSeries(series, priestId), FromSource(SourceFor(t)))
  }

  /** The first active series whose id is the chosen one, if any. */
  function FindSeries(active: seq<BulkSeries>, id: string): (r: Option<BulkSeries>)
    ensures r.Some? ==> r.value in active && r.value.id == id
    ensures r.None? <==> forall s :: s in active ==> s.id != id
    ensures r.Some? ==>
      exists i :: 0 <= i < |active| && active[i] == r.value && forall j :: 0 <= j < i ==> active[j].id != id
  {
    Find(active, HasId(id))
  }

  /** Whether the submit handler fills the record from a series, and from which one. */
  function SeriesForSubmit(form: MassForm, active: seq<BulkSeries>): Option<BulkSeries> {
    if form.massType.IsBulk() && form.bulkSeriesId != "" then FindSeries(active, form.bulkSeriesId) else None
  }

  /** The record the submit handler builds, as a value. */
  function Assembled(form: MassForm, active: seq<BulkSeries>): MassData {
    match SeriesForSubmit(form, active)
    case Some(s) => Spread(form).(serialNumber := Some(s.remainingMasses), intentionDetails := s.intentionDescription)
    case None => Spread(form)
  }

  /** The submit handler: copy the form, then fill in the series' serial number and description when it applies. */
  method BuildMassData(form: MassForm, series: seq<BulkSeries>, priestId: string) returns (massData: MassData)
    ensures massData == Assembled(form, ActiveBulkSeries(series, priestId))
    ensures massData.serialNumber.Some? <==>
      form.massType.IsBulk() && form.bulkSeriesId != "" &&
      exists s :: s in series && s.id == form.bulkSeriesId && s.assignedPriestId == priestId && s.isActive
    ensures massData.serialNumber.Some? ==>
      exists s :: s in series && s.id == form.bulkSeriesId && s.assignedPriestId == priestId && s.isActive &&
        massData.serialNumber.value == s.remainingMasses && massData.intentionDetails == s.intentionDescription
    ensures massData.serialNumber.None? ==> massData == Spread(form)
    ensures massData.(serialNumber := None, intentionDetails := form.intentionDetails) == Spread(form)
  {
    var active := ActiveBulkSeries(series, priestId);
    massData := Spread(form);
    if form.massType.IsBulk() && form.bulkSeriesId != "" {
      var found := FindSeries(active, form.bulkSeriesId);
      if found.Some? {
        massData := massData.(serialNumber := Some(found.value.remainingMasses));
        massData := massData.(intentionDetails := found.value.intentionDescription);
      }
    }
  }

  /** For a bulk type with a chosen id that names an active series: the record carries the first such series' remaining count and description. */
  lemma AssembledFromSeries(form: MassForm, active: seq<BulkSeries>)
    requires form.massType.IsBulk() && form.bulkSeriesId != ""
    requires exists s :: s in active && s.id == form.bulkSeriesId
    ensures exists i ::
      && 0 <= i < |active| && active[i].id == form.bulkSeriesId
      && (forall j :: 0 <= j < i ==> active[j].id != form.bulkSeriesId)
      && Assembled(form, active).serialNumber == Some(active[i].remainingMasses)
      && Assembled(form, active).intentionDetails == active[i].intentionDescription
  {
    var r := Find(active, HasId(form.bulkSeriesId));
    var i :| 0 <= i < |active| && active[i] == r.value && HasId(form.bulkSeriesId)(active[i])
      && forall j :: 0 <= j < i ==> !HasId(form.bulkSeriesId)(active[j]);
  }

  /** A non-bulk type, an empty series id, or an id no active series has: the record is the form unchanged, without a serial number. */
  lemma AssembledUnchanged(form: MassForm, active: seq<BulkSeries>)
    requires || !form.massType.IsBulk()
             || form.bulkSeriesId == ""
             || forall s :: s in active ==> s.id != form.bulkSeriesId
    ensures Assembled(form, active) == Spread(form)
    ensures Assembled(form, active).serialNumber.None?
  {
  }

  /** When series ids are unique, choosing an offered series records exactly that series' count and description. */
  lemma OfferedChoiceIsRecorded(form: MassForm, series: seq<BulkSeries>, priestId: string, chosen: BulkSeries)
    requires forall a, b :: a in series && b in series && a.id == b.id ==> a == b
    requires form.massType.IsBulk()
    requires chosen in OfferedSeries(series, priestId, form.massType)
    requires form.bulkSeriesId == chosen.id && chosen.id != ""
    ensures Assembled(form, ActiveBulkSeries(series, priestId))
         == Spread(form).(serialNumber := Some(chosen.remainingMasses), intentionDetails := chosen.intentionDescription)
  {
  }
}
