/** Removal of protected health information: a projection onto the clinical columns. */
module Redactor {
  import opened Options
  import opened Records
  import Seqs

  /**
   Keeps the identifier, the three readings (renamed to mg_dl_t1..t3), the
   cancer flag (renamed to cancer_present) and atrophy_present.
   */
  function Redact(raw: RawRecord): (r: Redacted)
    ensures r.patientId == raw.patientId
    ensures r.mgDlT1 == raw.glucoseT1 && r.mgDlT2 == raw.glucoseT2 && r.mgDlT3 == raw.glucoseT3
    ensures r.cancerPresent == raw.cancerPresent
    ensures r.atrophyPresent == raw.atrophyPresent
  {
    Redacted(raw.patientId, raw.glucoseT1, raw.glucoseT2, raw.glucoseT3,
             raw.cancerPresent, raw.atrophyPresent)
  }

  /** The redacted row carries no trace of the name, email or address columns. */
  lemma RedactForgetsIdentity(raw: RawRecord, first: Option<string>, last: Option<string>,
                              email: Option<string>, address: Option<string>)
    ensures Redact(raw.(firstName := first, lastName := last, email := email, address := address))
         == Redact(raw)
  {
  }

  function RedactAll(raws: seq<RawRecord>): (r: seq<Redacted>)
    ensures |r| == |raws|
    ensures forall i :: 0 <= i < |raws| ==> r[i] == Redact(raws[i])
  {
    Seqs.Map(Redact, raws)
  }
}
