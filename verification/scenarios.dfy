/** Single-row batches that pin down the documented behaviour of the run. */
module Scenarios {
  import opened Options
  import opened Records
  import Enricher
  import Pipeline

  function Row(t1: Option<real>, t2: Option<real>, t3: Option<real>, cancer: Option<bool>): (raw: RawRecord)
  {
    RawRecord(Some(7), Some("Ada"), Some("Lee"), Some("ada@example.org"), Some("1 Main St"),
              t1, t2, t3, cancer, Some(0))
  }

  /** A reading of -5 is sentineled, and the whole row is dropped. */
  lemma NonPositiveReadingDropsRow()
    ensures Pipeline.Run([Row(Some(150.0), Some(160.0), Some(-5.0), Some(false))], Pipeline.SourceDate)
         == Pipeline.Output([], [])
  {
  }

  /** A reading above 999 is sentineled too, and the row is dropped. */
  lemma HighReadingDropsRow()
    ensures Pipeline.Run([Row(Some(1000.0), None, None, None)], Pipeline.SourceDate)
         == Pipeline.Output([], [])
  {
  }

  /** A missed reading keeps the row, with no mean, labelled "not applicable", in the incomplete output. */
  lemma MissedReadingIsIncomplete()
    ensures var out := Pipeline.Run([Row(Some(100.0), Some(110.0), None, None)], Pipeline.SourceDate);
            && out.complete == []
            && |out.incomplete| == 1
            && out.incomplete[0].glucoseMean == None
            && out.incomplete[0].glucoseLevel == Enricher.NotApplicable
            && out.incomplete[0].row.cancerPresent == 0
  {
  }

  /** Readings 80, 90 and 100 give a mean of 90.0, "normal", in the complete output. */
  lemma NormalRowIsComplete()
    ensures var out := Pipeline.Run([Row(Some(80.0), Some(90.0), Some(100.0), Some(false))], Pipeline.SourceDate);
            && out.incomplete == []
            && |out.complete| == 1
            && out.complete[0].glucoseMean == Some(90.0)
            && out.complete[0].glucoseLevel == Enricher.Normal
            && out.complete[0].measurementDate == "2020-10-28"
  {
  }

  /** Readings of 150 give "prediabetes", and a true cancer flag becomes 1. */
  lemma PrediabetesRow()
    ensures var out := Pipeline.Run([Row(Some(150.0), Some(150.0), Some(150.0), Some(true))], Pipeline.SourceDate);
            && |out.complete| == 1
            && out.complete[0].glucoseMean == Some(150.0)
            && out.complete[0].glucoseLevel == Enricher.Prediabetes
            && out.complete[0].row.cancerPresent == 1
  {
  }

  /**
   The label is taken from the rounded mean: readings 140, 140 and 139.9 average
   below 140 but round to 140.0, which falls in the gap and is "not applicable".
   */
  lemma RoundingReachesGap()
    ensures (140.0 + 140.0 + 139.9) / 3.0 < 140.0
    ensures var out := Pipeline.Run([Row(Some(140.0), Some(140.0), Some(139.9), None)], Pipeline.SourceDate);
            && |out.complete| == 1
            && out.complete[0].glucoseMean == Some(140.0)
            && out.complete[0].glucoseLevel == Enricher.NotApplicable
  {
  }

  /** A mean between 199 and 200 inclusive has no real category. */
  lemma UpperGapIsNotApplicable()
    ensures var out := Pipeline.Run([Row(Some(199.5), Some(199.5), Some(199.5), None)], Pipeline.SourceDate);
            && |out.complete| == 1
            && out.complete[0].glucoseLevel == Enricher.NotApplicable
  {
  }
}
