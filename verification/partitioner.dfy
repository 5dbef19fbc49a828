/** The split of the enriched batch into rows without and with missed readings. */
module Partitioner {
  import opened Sql
  import opened Records
  import Enricher
  import Seqs

  /** `mg_dl_t1 IS NOT NULL AND mg_dl_t2 IS NOT NULL AND mg_dl_t3 IS NOT NULL`. */
  function IsComplete(e: Enriched): (b: bool)
    ensures b <==> e.row.AllMeasured()
  {
    And(And(IsNotNull(e.row.mgDlT1), IsNotNull(e.row.mgDlT2)), IsNotNull(e.row.mgDlT3)) == True
  }

  /**
   `mg_dl_t1 IS NULL OR mg_dl_t2 IS NULL OR mg_dl_t3 IS NULL`. Since IS NULL
   is never Unknown, this is exactly the negation of the complete condition.
   */
  function IsIncomplete(e: Enriched): (b: bool)
    ensures b <==> !e.row.AllMeasured()
    ensures b <==> !IsComplete(e)
  {
    Or(Or(IsNull(e.row.mgDlT1), IsNull(e.row.mgDlT2)), IsNull(e.row.mgDlT3)) == True
  }

  /** The rows written to the "without missed readings" output. */
  function Complete(es: seq<Enriched>): (r: seq<Enriched>)
    ensures forall i :: 0 <= i < |r| ==> r[i].row.AllMeasured() && r[i] in es
    ensures forall i :: 0 <= i < |es| && es[i].row.AllMeasured() ==> es[i] in r
    ensures forall e :: multiset(r)[e] == if e.row.AllMeasured() then multiset(es)[e] else 0
  {
    Seqs.FilterMultiplicity(IsComplete, es);
    Seqs.Filter(IsComplete, es)
  }

  /** The rows written to the "with missed readings" output. */
  function Incomplete(es: seq<Enriched>): (r: seq<Enriched>)
    ensures forall i :: 0 <= i < |r| ==> !r[i].row.AllMeasured() && r[i] in es
    ensures forall i :: 0 <= i < |es| && !es[i].row.AllMeasured() ==> es[i] in r
    ensures forall e :: multiset(r)[e] == if e.row.AllMeasured() then 0 else multiset(es)[e]
  {
    Seqs.FilterMultiplicity(IsIncomplete, es);
    Seqs.Filter(IsIncomplete, es)
  }

  /**
   The two outputs partition the batch: they share no row, and together they
   hold every row exactly as often as the batch does.
   */
  lemma PartitionIsTotalAndDisjoint(es: seq<Enriched>)
    ensures multiset(Complete(es)) + multiset(Incomplete(es)) == multiset(es)
    ensures |Complete(es)| + |Incomplete(es)| == |es|
    ensures forall e :: e in Complete(es) ==> e !in Incomplete(es)
  {
    Seqs.FilterComplement(IsComplete, IsIncomplete, es);
  }

  /**
   In a consistently enriched batch, a complete row has a mean and so a level
   decided by the thresholds, and an incomplete row has neither.
   */
  lemma MeanFollowsCompleteness(es: seq<Enriched>)
    requires forall i :: 0 <= i < |es| ==> Enricher.Consistent(es[i])
    ensures forall e :: e in Complete(es) ==> e.glucoseMean.Some?
    ensures forall e :: e in Incomplete(es) ==>
              e.glucoseMean.None? && e.glucoseLevel == Enricher.NotApplicable
  {
  }
}
