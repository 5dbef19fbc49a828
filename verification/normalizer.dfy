/**
 Range checking of the readings, coercion of the cancer flag, and the filter
 that drops every row holding the sentinel.
 */
module Normalizer {
  import opened Options
  import opened Sql
  import opened Records
  import Seqs

  /**
   `when((t <= 0) | (t > 999), -2).otherwise(t)`. A NULL reading makes the
   condition Unknown, so it falls through to `otherwise` and stays NULL.
   */
  function NormalizeReading(x: Option<real>): (r: Option<real>)
    ensures x.None? ==> r.None?
    ensures x.Some? && InRange(x.value) ==> r == x
    ensures x.Some? && !InRange(x.value) ==> r == Some(Sentinel)
  {
    When(Or(AtMost(x, 0.0), Greater(x, 999.0)), Some(Sentinel), x)
  }

  /** The sentinel lies outside the range, so normalising twice changes nothing. */
  lemma NormalizeReadingIdempotent(x: Option<real>)
    ensures NormalizeReading(NormalizeReading(x)) == NormalizeReading(x)
  {
  }

  /**
   `when(cancer_present == True, 1).otherwise(0)`: a NULL flag compares as
   Unknown and so collapses to 0 together with false.
   */
  function CancerIndicator(c: Option<bool>): (r: int)
    ensures r == 0 || r == 1
    ensures r == 1 <==> c == Some(true)
  {
    When(Equal(c, true), 1, 0)
  }

  function Normalize(rd: Redacted): (n: Normalized)
    ensures n.patientId == rd.patientId && n.atrophyPresent == rd.atrophyPresent
    ensures n.mgDlT1 == NormalizeReading(rd.mgDlT1)
    ensures n.mgDlT2 == NormalizeReading(rd.mgDlT2)
    ensures n.mgDlT3 == NormalizeReading(rd.mgDlT3)
    ensures n.cancerPresent == 1 <==> rd.cancerPresent == Some(true)
    ensures n.cancerPresent == 0 <==> rd.cancerPresent != Some(true)
  {
    Normalized(rd.patientId,
               NormalizeReading(rd.mgDlT1),
               NormalizeReading(rd.mgDlT2),
               NormalizeReading(rd.mgDlT3),
               CancerIndicator(rd.cancerPresent),
               rd.atrophyPresent)
  }

  /**
   After normalisation every reading is in one of three states: NULL, in
   range, or the sentinel.
   */
  lemma NormalizeTriState(rd: Redacted)
    ensures var n := Normalize(rd);
            (PlausibleReading(n.mgDlT1) || n.mgDlT1 == Some(Sentinel)) &&
            (PlausibleReading(n.mgDlT2) || n.mgDlT2 == Some(Sentinel)) &&
            (PlausibleReading(n.mgDlT3) || n.mgDlT3 == Some(Sentinel))
  {
  }

  function NormalizeAll(rds: seq<Redacted>): (r: seq<Normalized>)
    ensures |r| == |rds|
    ensures forall i :: 0 <= i < |rds| ==> r[i] == Normalize(rds[i])
  {
    Seqs.Map(Normalize, rds)
  }

  /** One conjunct of the filter string: `(t <> -2.0 OR t IS NULL)`. */
  function NotRejected(x: Option<real>): (t: Truth)
    ensures t != Unknown
    ensures t == True <==> x != Some(Sentinel)
  {
    Or(NotEqual(x, Sentinel), IsNull(x))
  }

  /** The filter condition of the driver, evaluated the way `filter` does: only True keeps a row. */
  function Accept(n: Normalized): (b: bool)
    ensures b <==> !n.HasSentinel()
  {
    And(And(NotRejected(n.mgDlT1), NotRejected(n.mgDlT2)), NotRejected(n.mgDlT3)) == True
  }

  /** A row is kept exactly when each of its raw readings was NULL or in range. */
  lemma AcceptIffPlausible(rd: Redacted)
    ensures Accept(Normalize(rd)) <==>
            PlausibleReading(rd.mgDlT1) && PlausibleReading(rd.mgDlT2) && PlausibleReading(rd.mgDlT3)
  {
  }

  /** A NULL reading alone never gets a row dropped. */
  lemma NullsAreKept(n: Normalized)
    requires n.Plausible()
    ensures Accept(n)
  {
  }

  /** Drops every row holding the sentinel and keeps the others, in order. */
  function DropRejected(ns: seq<Normalized>): (r: seq<Normalized>)
    ensures |r| <= |ns|
    ensures forall i :: 0 <= i < |r| ==> !r[i].HasSentinel() && r[i] in ns
    ensures forall i :: 0 <= i < |ns| && !ns[i].HasSentinel() ==> ns[i] in r
    ensures forall n :: multiset(r)[n] == if n.HasSentinel() then 0 else multiset(ns)[n]
  {
    Seqs.FilterMultiplicity(Accept, ns);
    Seqs.Filter(Accept, ns)
  }

  /**
   After normalising and filtering a batch, no sentinel is left and every
   reading is NULL or in range.
   */
  lemma SurvivorsArePlausible(rds: seq<Redacted>)
    ensures forall n :: n in DropRejected(NormalizeAll(rds)) ==> n.Plausible() && !n.HasSentinel()
  {
  }

  /** A batch with no out-of-range reading, NULLs included, passes the filter whole. */
  lemma PlausibleBatchKept(ns: seq<Normalized>)
    requires forall i :: 0 <= i < |ns| ==> ns[i].Plausible()
    ensures DropRejected(ns) == ns
  {
    Seqs.FilterKeepsAll(Accept, ns);
  }
}
