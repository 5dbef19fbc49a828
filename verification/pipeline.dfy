/**
 The whole daily run of the patient driver, from the loaded rows to the two
 outputs, as one function of the batch and its date.
 */
module Pipeline {
  import opened Records
  import Seqs
  import Redactor
  import Normalizer
  import Enricher
  import Partitioner

  /** The date the driver is pinned to; any other date may be passed to Run. */
  const SourceDate: string := "2020-10-28"

  /** The two datasets the run writes: rows without and rows with missed readings. */
  datatype Output = Output(complete: seq<Enriched>, incomplete: seq<Enriched>)

  /** Redaction, normalisation, rejection and enrichment of a batch. */
  function EnrichedBatch(raws: seq<RawRecord>, date: string): (r: seq<Enriched>)
    ensures |r| <= |raws|
    ensures forall i :: 0 <= i < |r| ==> r[i].row.Plausible() && !r[i].row.HasSentinel()
    ensures forall i :: 0 <= i < |r| ==> r[i].measurementDate == date && Enricher.Consistent(r[i])
  {
    var redacted := Redactor.RedactAll(raws);
    var normalized := Normalizer.NormalizeAll(redacted);
    var accepted := Normalizer.DropRejected(normalized);
    Normalizer.SurvivorsArePlausible(redacted);
    Enricher.EnrichAll(accepted, date)
  }

  /**
   The complete output holds the rows with all three readings, each with a
   mean; the incomplete output holds the others, each without a mean and
   labelled "not applicable". Together they are the enriched batch, with no
   row in both.
   */
  function Run(raws: seq<RawRecord>, date: string): (out: Output)
    ensures forall e :: e in out.complete ==> e.row.AllMeasured() && e.glucoseMean.Some?
    ensures forall e :: e in out.incomplete ==>
              !e.row.AllMeasured() && e.glucoseMean.None? && e.glucoseLevel == Enricher.NotApplicable
    ensures multiset(out.complete) + multiset(out.incomplete) == multiset(EnrichedBatch(raws, date))
    ensures forall e :: e in out.complete ==> e !in out.incomplete
  {
    var enriched := EnrichedBatch(raws, date);
    Partitioner.PartitionIsTotalAndDisjoint(enriched);
    Partitioner.MeanFollowsCompleteness(enriched);
    Output(Partitioner.Complete(enriched), Partitioner.Incomplete(enriched))
  }

  /** What the run does to one row that survives. */
  function Process(raw: RawRecord, date: string): (e: Enriched)
  {
    Enricher.Enrich(Normalizer.Normalize(Redactor.Redact(raw)), date)
  }

  /**
   Per-row independence: the enriched batch is exactly the rows whose raw
   readings were each NULL or in range, in input order, each processed on
   its own.
   */
  lemma {:induction false} EnrichedBatchIsPerRow(raws: seq<RawRecord>, date: string)
    ensures EnrichedBatch(raws, date)
         == Seqs.Map((raw: RawRecord) => Process(raw, date),
                     Seqs.Filter((raw: RawRecord) => raw.Plausible(), raws))
  {
    var plausible := (raw: RawRecord) => raw.Plausible();
    forall raw: RawRecord
      ensures Normalizer.Accept(Normalizer.Normalize(Redactor.Redact(raw))) == plausible(raw)
    {
      Normalizer.AcceptIffPlausible(Redactor.Redact(raw));
    }
    Seqs.FilterMap(Normalizer.Accept, Normalizer.Normalize, (rd: Redacted) => Normalizer.Accept(Normalizer.Normalize(rd)),
                   Redactor.RedactAll(raws));
    Seqs.FilterMap((rd: Redacted) => Normalizer.Accept(Normalizer.Normalize(rd)), Redactor.Redact, plausible, raws);
    var kept := Seqs.Filter(plausible, raws);
    Seqs.MapFusion(Redactor.Redact, Normalizer.Normalize,
                   (raw: RawRecord) => Normalizer.Normalize(Redactor.Redact(raw)), kept);
    Seqs.MapFusion((raw: RawRecord) => Normalizer.Normalize(Redactor.Redact(raw)),
                   (n: Normalized) => Enricher.Enrich(n, date),
                   (raw: RawRecord) => Process(raw, date), kept);
  }

  /** The rows that reach the outputs are exactly the rows whose readings are all NULL or in range. */
  lemma OutputCount(raws: seq<RawRecord>, date: string)
    ensures var out := Run(raws, date);
            |out.complete| + |out.incomplete| == |Seqs.Filter((raw: RawRecord) => raw.Plausible(), raws)|
  {
    EnrichedBatchIsPerRow(raws, date);
    Partitioner.PartitionIsTotalAndDisjoint(EnrichedBatch(raws, date));
  }

  /**
   No sentinel reaches either output: every reading written is NULL or in
   range. Every written row carries the batch date and a label from the four
   levels, "not applicable" whenever the mean is NULL.
   */
  lemma OutputRowsAreClean(raws: seq<RawRecord>, date: string)
    ensures var out := Run(raws, date);
            forall e :: e in out.complete + out.incomplete ==>
              && e.row.Plausible() && !e.row.HasSentinel()
              && e.measurementDate == date
              && e.glucoseLevel in Enricher.Levels
              && (e.glucoseMean.None? ==> e.glucoseLevel == Enricher.NotApplicable)
  {
  }
}
