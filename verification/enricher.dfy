/** The derived columns: glucose mean, glucose level and measurement date. */
module Enricher {
  import opened Options
  import opened Sql
  import opened Records
  import Seqs

  const Normal: string := "normal"
  const Prediabetes: string := "prediabetes"
  const Diabetes: string := "diabetes"
  const NotApplicable: string := "not applicable"

  /** Every label the level column can take. */
  const Levels: set<string> := {Normal, Prediabetes, Diabetes, NotApplicable}

  /**
   `round((t1 + t2 + t3) / 3, 1)`. Addition propagates NULL, so one missing
   reading makes the mean NULL; it is never an average of fewer readings.
   */
  function Mean(t1: Option<real>, t2: Option<real>, t3: Option<real>): (m: Option<real>)
    ensures m.None? <==> t1.None? || t2.None? || t3.None?
    ensures m.Some? ==> m.value == RoundTenth((t1.value + t2.value + t3.value) / 3.0)
  {
    Round(Divide(Plus(Plus(t1, t2), t3), 3.0))
  }

  function Min3(a: real, b: real, c: real): (m: real)
  {
    if a <= b && a <= c then a else if b <= c then b else c
  }

  function Max3(a: real, b: real, c: real): (m: real)
  {
    if a >= b && a >= c then a else if b >= c then b else c
  }

  /**
   A present mean is a whole number of tenths lying between the smallest and
   the largest reading, up to the rounding step of 0.05.
   */
  lemma MeanBetweenReadings(a: real, b: real, c: real)
    ensures var m := Mean(Some(a), Some(b), Some(c)).value;
            OnTenths(m) && Min3(a, b, c) - 0.05 <= m <= Max3(a, b, c) + 0.05
  {
  }

  /** The mean of three in-range readings lies within [0, 999]. */
  lemma MeanOfPlausibleInRange(a: real, b: real, c: real)
    requires InRange(a) && InRange(b) && InRange(c)
    ensures 0.0 <= Mean(Some(a), Some(b), Some(c)).value <= 999.0
  {
  }

  /**
   The first-match chain on the rounded mean. A NULL mean makes every
   comparison Unknown, so it reaches `otherwise`; so do the exact value 140
   and every value from 199 to 200 inclusive.
   */
  function GlucoseLevel(m: Option<real>): (l: string)
    ensures l in Levels
    ensures l == Normal <==> m.Some? && m.value < 140.0
    ensures l == Prediabetes <==> m.Some? && 140.0 < m.value < 199.0
    ensures l == Diabetes <==> m.Some? && m.value > 200.0
    ensures l == NotApplicable <==> m.None? || m.value == 140.0 || 199.0 <= m.value <= 200.0
  {
    When(Less(m, 140.0), Normal,
    When(And(Greater(m, 140.0), Less(m, 199.0)), Prediabetes,
    When(Greater(m, 200.0), Diabetes,
    NotApplicable)))
  }

  /** The derived columns of an enriched row agree with its readings. */
  predicate Consistent(e: Enriched)
  {
    && e.glucoseMean == Mean(e.row.mgDlT1, e.row.mgDlT2, e.row.mgDlT3)
    && e.glucoseLevel == GlucoseLevel(e.glucoseMean)
  }

  /** Appends mean, level and the batch date to a row, leaving the row itself untouched. */
  function Enrich(n: Normalized, date: string): (e: Enriched)
    ensures e.row == n && e.measurementDate == date
    ensures Consistent(e)
    ensures e.glucoseMean.Some? <==> n.AllMeasured()
    ensures e.glucoseLevel in Levels
    ensures e.glucoseMean.None? ==> e.glucoseLevel == NotApplicable
  {
    var mean := Mean(n.mgDlT1, n.mgDlT2, n.mgDlT3);
    Enriched(n, mean, GlucoseLevel(mean), date)
  }

  /** Enrichment keeps the count and order of rows and stamps one date on all of them. */
  function EnrichAll(ns: seq<Normalized>, date: string): (r: seq<Enriched>)
    ensures |r| == |ns|
    ensures forall i :: 0 <= i < |ns| ==> r[i].row == ns[i] && r[i].measurementDate == date
    ensures forall i :: 0 <= i < |ns| ==> Consistent(r[i])
  {
    Seqs.Map((n: Normalized) => Enrich(n, date), ns)
  }
}
