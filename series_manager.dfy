/**
 * The bulk series form's submit gate: it refuses a missing count or a blank
 * description, then a count that does not parse or is not positive, and
 * otherwise hands on the source, the count and the trimmed description.
 */
module SeriesManager {
  import opened Wrappers
  import opened Domain
  import opened Text

  /** What the gate hands to the series-creation callback. */
  datatype SeriesRequest = SeriesRequest(source: SeriesSource, totalMasses: int, intentionDescription: string)

  /** The two refusals: "Please fill in all fields" and "Please enter a valid number of masses". */
  datatype SeriesError = MissingFields | InvalidCount

  /**
   * The gate, given the form's source, its raw count text, its description and
   * `parseInt` of the count text (None for NaN).
   */
  function ValidateSeries(source: SeriesSource, totalMassesText: string, intentionDescription: string,
                          parsedCount: Option<int>): (r: Result<SeriesRequest, SeriesError>)
    ensures r == Err(MissingFields) <==> totalMassesText == "" || Trim(intentionDescription) == ""
    ensures r == Err(InvalidCount) <==>
      totalMassesText != "" && Trim(intentionDescription) != "" && (parsedCount.None? || parsedCount.value <= 0)
    ensures r.Ok? ==>
      && r.value.source == source
      && parsedCount == Some(r.value.totalMasses) && r.value.totalMasses > 0
      && r.value.intentionDescription == Trim(intentionDescription)
    ensures r.Ok? ==>
      var d := r.value.intentionDescription;
      d != [] && !IsSpace(d[0]) && !IsSpace(d[|d| - 1])
  {
    if totalMassesText == "" || Trim(intentionDescription) == "" then
      Err(MissingFields)
    else if parsedCount.None? || parsedCount.value <= 0 then
      Err(InvalidCount)
    else
      Ok(SeriesRequest(source, parsedCount.value, Trim(intentionDescription)))
  }

  /** A description that is all white space is refused whatever the count. */
  lemma BlankDescriptionRefused(source: SeriesSource, totalMassesText: string, intentionDescription: string,
                                parsedCount: Option<int>)
    requires forall k :: 0 <= k < |intentionDescription| ==> IsSpace(intentionDescription[k])
    ensures ValidateSeries(source, totalMassesText, intentionDescription, parsedCount) == Err(MissingFields)
  {
  }

  /**
   * Submitting what the gate emitted, with the same count text, is accepted again unchanged.
   * The source never re-submits; the lemma is here because it says the emitted request is
   * already in the gate's normal form (trimmed description, positive count).
   */
  lemma RevalidateEmitted(source: SeriesSource, totalMassesText: string, intentionDescription: string,
                          parsedCount: Option<int>)
    requires ValidateSeries(source, totalMassesText, intentionDescription, parsedCount).Ok?
    ensures var req := ValidateSeries(source, totalMassesText, intentionDescription, parsedCount).value;
      ValidateSeries(req.source, totalMassesText, req.intentionDescription, Some(req.totalMasses)) == Ok(req)
  {
  }

  /** The gate sets no upper bound: every positive count passes once both fields are filled in. */
  lemma PositiveCountAccepted(source: SeriesSource, totalMassesText: string, intentionDescription: string, n: int)
    requires totalMassesText != "" && Trim(intentionDescription) != "" && n > 0
    ensures ValidateSeries(source, totalMassesText, intentionDescription, Some(n))
         == Ok(SeriesRequest(source, n, Trim(intentionDescription)))
  {
  }

  /**
   * An instance of `PositiveCountAccepted`, kept because it names the case that matters:
   * a count of 5000, above the maximum of 1000 that the count input advertises, passes the gate.
   */
  lemma NoUpperBound()
    ensures ValidateSeries(Province, "5000", "For deceased Sisters", Some(5000))
         == Ok(SeriesRequest(Province, 5000, "For deceased Sisters"))
  {
    var d := "For deceased Sisters";
    assert !IsSpace(d[0]) && !IsSpace(d[|d| - 1]);
    assert TrimStart(d) == d;
    assert TrimEnd(d) == d;
    PositiveCountAccepted(Province, "5000", d, 5000);
  }
}
