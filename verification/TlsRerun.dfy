/** A rotation request that was killed and is repeated has to pass its gate once more
    (src/utils/internal_tls_bootstrap.py). */
module TlsRerun {
  import opened Outcomes
  import opened InternalTls
  import opened TlsFencing
  import opened TlsRollout
  import opened TlsGates
  import TlsRecovery

  /** A gate that let a Pod pass lets it pass again behind the record of its own request,
      now as one that may still be on the phase before. */
  lemma FitsOwnRecord(stored: CaSecret, record: CaSecret, req: Request, a: Annotation)
    requires req.phase != Stable && Fits(stored, req, a) && RecordFor(req, record)
    ensures OwnRecord(record, req) && Fits(record, req, a)
  {
  }

  lemma DecisionIsForRequest(site: Site, s: TlsRecovery.Store, req: Request, spare: KeyId)
    requires |s.leaves| == |site.dnsNames| && TlsRecovery.RunOutcome(site, s, req, spare).ok
    ensures RecordFor(req, TlsRecovery.Decision(site, s, req, spare).value.record)
  {
  }

  /** Wherever the first run of a gated request was killed, the gate of its rerun passes
      every Pod that the first gate passed. */
  lemma RerunPassesGate(site: Site, s: TlsRecovery.Store, req: Request, spare: KeyId, budget: nat, spare2: KeyId, a: Annotation)
    requires |s.leaves| == |site.dnsNames| && WellFormedRecord(TlsRecovery.CaContents(s)) && TlsRecovery.NotYetUsed(s, spare)
    requires TlsRecovery.RunOutcome(site, s, req, spare).ok && req.phase != Stable
    requires Fits(TlsRecovery.CaContents(s), req, a)
    ensures
      var s1 := TlsRecovery.Killed(s, TlsRecovery.RunOutcome(site, s, req, spare).writes, budget);
      && TlsRecovery.RunOutcome(site, s1, req, spare2).ok
      && Fits(TlsRecovery.CaContents(s1), req, a) && AnnotationAllowed(TlsRecovery.CaContents(s1), req, a)
      && (budget > |TlsRecovery.Creations(s)| ==> OwnRecord(TlsRecovery.CaContents(s1), req))
  {
    if budget <= |TlsRecovery.Creations(s)| {
      TlsRecovery.KilledBeforeCaWrite(site, s, req, spare, budget, spare2);
    } else {
      TlsRecovery.KilledAfterCaWrite(site, s, req, spare, budget, spare2);
      DecisionIsForRequest(site, s, req, spare);
      FitsOwnRecord(TlsRecovery.CaContents(s), TlsRecovery.Decision(site, s, req, spare).value.record, req, a);
    }
    AllowedWhenFit(TlsRecovery.CaContents(TlsRecovery.Killed(s, TlsRecovery.RunOutcome(site, s, req, spare).writes, budget)), req, a);
  }
}
