/**
 The rows that flow through the patient driver. Readings are nullable reals in
 mg/dL; after normalisation a reading may also hold the sentinel value.
 */
module Records {
  import opened Options

  /** The marker written into a reading that failed the range check. */
  const Sentinel: real := -2.0

  /** The plausible clinical range of a glucose reading: 0 < v <= 999. */
  predicate InRange(v: real)
  {
    0.0 < v <= 999.0
  }

  /** A reading that was not measured, or was measured within range. */
  predicate PlausibleReading(x: Option<real>)
  {
    x.None? || InRange(x.value)
  }

  /** One row of the daily CSV batch, under the fixed input schema. */
  datatype RawRecord = RawRecord(
    patientId: Option<int>,
    firstName: Option<string>,
    lastName: Option<string>,
    email: Option<string>,
    address: Option<string>,
    glucoseT1: Option<real>,
    glucoseT2: Option<real>,
    glucoseT3: Option<real>,
    cancerPresent: Option<bool>,
    atrophyPresent: Option<int>)
  {
    /** Every reading is null or within range. */
    predicate Plausible()
    {
      PlausibleReading(glucoseT1) && PlausibleReading(glucoseT2) && PlausibleReading(glucoseT3)
    }
  }

  /** A row with the identifying columns projected away. */
  datatype Redacted = Redacted(
    patientId: Option<int>,
    mgDlT1: Option<real>,
    mgDlT2: Option<real>,
    mgDlT3: Option<real>,
    cancerPresent: Option<bool>,
    atrophyPresent: Option<int>)

  /** A redacted row after range checking and flag coercion. */
  datatype Normalized = Normalized(
    patientId: Option<int>,
    mgDlT1: Option<real>,
    mgDlT2: Option<real>,
    mgDlT3: Option<real>,
    cancerPresent: int,
    atrophyPresent: Option<int>)
  {
    /** Some reading carries the sentinel. */
    predicate HasSentinel()
    {
      mgDlT1 == Some(Sentinel) || mgDlT2 == Some(Sentinel) || mgDlT3 == Some(Sentinel)
    }

    /** Every reading is null or within range. */
    predicate Plausible()
    {
      PlausibleReading(mgDlT1) && PlausibleReading(mgDlT2) && PlausibleReading(mgDlT3)
    }

    /** All three readings are present. */
    predicate AllMeasured()
    {
      mgDlT1.Some? && mgDlT2.Some? && mgDlT3.Some?
    }
  }

  /**
   A normalised row with the three derived columns appended: the rounded mean,
   the glucose level label and the batch date.
   */
  datatype Enriched = Enriched(
    row: Normalized,
    glucoseMean: Option<real>,
    glucoseLevel: string,
    measurementDate: string)
}
