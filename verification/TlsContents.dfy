/** What a bootstrap run grants and writes, field by field (src/utils/internal_tls_bootstrap.py).
    Times are in minutes. */
module TlsContents {
  import opened Outcomes
  import opened InternalTls
  import opened TlsRecovery

  /** A server certificate that a client trusting the key accepts under exactly the names of
      the service, now and for thirty more days. */
  predicate Serves(site: Site, leaf: LeafSecret, key: KeyId, dnsName: string, now: int) {
    && leaf.pair.Some?
    && leaf.pair.value.signer == key
    && leaf.pair.value.issuer == "OSMO internal CA"
    && leaf.pair.value.names == {dnsName, dnsName + "." + site.namespace_, dnsName + "." + site.namespace_ + ".svc"}
    && leaf.pair.value.notBefore <= now
    && now + 30 * 24 * 60 < leaf.pair.value.notAfter
  }

  lemma MatchesWhenServing(site: Site, leaf: LeafSecret, ca: CaPair, dnsName: string, now: int)
    ensures LeafMatches(site, leaf, ca, dnsName, now) <==> Serves(site, leaf, ca.key, dnsName, now)
  {
  }

  // ---------- what a complete run leaves ----------

  /** The Secrets after a run that is not killed. */
  function Left(site: Site, s: Store, req: Request, spare: KeyId): (s': Store)
    requires |s.leaves| == |site.dnsNames|
    ensures |s'.leaves| == |s.leaves|
  {
    Finished(s, RunOutcome(site, s, req, spare).writes)
  }

  /** Every leaf Secret serves its name under the active CA and carries the requested nonce;
      the trust Secret is the active CA and the one other CA that is stored, if any. */
  lemma RunLeavesServingLeaves(site: Site, s: Store, req: Request, spare: KeyId)
    requires |s.leaves| == |site.dnsNames| && WellFormedRecord(CaContents(s)) && RunOutcome(site, s, req, spare).ok
    ensures
      var s' := Left(site, s, req, spare);
      && s'.ca.Some? && s'.ca.value.CaRecord? && s'.ca.value.current.Some?
      && s'.trust == Some(
           [s'.ca.value.current.value.key]
           + (if s'.ca.value.pending.Some? then [s'.ca.value.pending.value.key] else [])
           + (if s'.ca.value.previous.Some? then [s'.ca.value.previous.value.key] else []))
      && forall i | 0 <= i < |s'.leaves| ::
           && s'.leaves[i].Some? && s'.leaves[i].value.nonce == Some(req.nonce)
           && Serves(site, s'.leaves[i].value, s'.ca.value.current.value.key, site.dnsNames[i], req.now)
  {
    FullRunSettles(site, s, req, spare);
    var s' := Left(site, s, req, spare);
    forall i | 0 <= i < |s'.leaves|
      ensures
        && s'.leaves[i].Some? && s'.leaves[i].value.nonce == Some(req.nonce)
        && Serves(site, s'.leaves[i].value, s'.ca.value.current.value.key, site.dnsNames[i], req.now)
    {
      assert LeafSettled(site, s', req, i);
    }
    GrantedRecordIsWellFormed(site, CaContents(s), LeafContents(s), req, spare);
    BundleIsCurrentAndOther(s'.ca.value);
  }

  lemma GrantedRecordIsWellFormed(site: Site, ca: CaSecret, leaves: seq<LeafSecret>, req: Request, spare: KeyId)
    requires |leaves| == |site.dnsNames| && WellFormedRecord(ca) && Decide(site, ca, leaves, req, spare).Granted?
    ensures WellFormedRecord(Decide(site, ca, leaves, req, spare).value.record)
  {
  }

  lemma BundleIsCurrentAndOther(record: CaSecret)
    requires WellFormedRecord(record) && record.current.Some?
    ensures
      BundleOf(record) ==
      [record.current.value.key]
      + (if record.pending.Some? then [record.pending.value.key] else [])
      + (if record.previous.Some? then [record.previous.value.key] else [])
  {
  }

  /** A leaf that was already like that keeps its content, unless the run makes another CA
      the active one; any other leaf is new, and valid for 397 days. */
  lemma OnlyOtherLeavesAreRewritten(site: Site, s: Store, req: Request, spare: KeyId, i: nat)
    requires |s.leaves| == |site.dnsNames| && WellFormedRecord(CaContents(s)) && RunOutcome(site, s, req, spare).ok
    requires i < |s.leaves|
    ensures
      var s' := Left(site, s, req, spare);
      && s'.ca.Some? && s'.ca.value.CaRecord? && s'.ca.value.current.Some? && s'.leaves[i].Some?
      && if s.leaves[i].Some? && s.leaves[i].value.nonce == Some(req.nonce)
            && Serves(site, s.leaves[i].value, s'.ca.value.current.value.key, site.dnsNames[i], req.now)
            && (req.phase == Activate ==> CaContents(s).previous.Some?)
         then s'.leaves[i] == s.leaves[i]
         else
           && s'.leaves[i].value.pair.Some?
           && s'.leaves[i].value.pair.value.notBefore == req.now - 5
           && s'.leaves[i].value.pair.value.notAfter == req.now + 397 * 24 * 60
  {
    FullRunSettles(site, s, req, spare);
    var s', plan := Left(site, s, req, spare), Decision(site, s, req, spare).value;
    assert s'.leaves[i] == Some(LeafAfter(site, plan, LeafContents(s)[i], site.dnsNames[i], req));
    assert plan.force <==> req.phase == Activate && CaContents(s).previous.None?;
    if s.leaves[i].Some? {
      MatchesWhenServing(site, s.leaves[i].value, plan.record.current.value, site.dnsNames[i], req.now);
    }
  }

  /** A restore is asked for rather than anything created in place of a missing Secret. */
  lemma NothingIsCreatedWhenForbidden(site: Site, s: Store, req: Request, spare: KeyId)
    requires |s.leaves| == |site.dnsNames| && req.failIfMissing
    requires s.ca.None? || s.trust.None? || exists i :: 0 <= i < |s.leaves| && s.leaves[i].None?
    ensures !RunOutcome(site, s, req, spare).ok && Left(site, s, req, spare) == s
  {
  }

  // ---------- what a request is granted ----------

  predicate ValidNow(ca: Option<CaPair>, now: int) {
    ca.Some? ==> ca.value.notBefore <= now && now < ca.value.notAfter
  }

  /** What the phase asks of the stored CAs and of the leaves. */
  predicate PhaseFits(site: Site, ca: CaSecret, leaves: seq<LeafSecret>, req: Request, key: KeyId)
    requires ca.CaRecord? && |leaves| == |site.dnsNames|
  {
    match req.phase
    case Stable => ca.pending.None? && ca.previous.None?
    case Prepare => ca.previous.None? && (ca.pending.None? || ca.rotationId == req.rotationId)
    case Activate => ca.rotationId == req.rotationId && (ca.previous.Some? || ca.pending.Some?)
    case Retire =>
      && ca.rotationId == req.rotationId && ca.pending.None?
      && forall i | 0 <= i < |leaves| :: Serves(site, leaves[i], key, site.dnsNames[i], req.now)
  }

  /** A request is granted exactly then. An expired previous CA is no obstacle. */
  lemma GrantedWhenFit(site: Site, ca: CaSecret, leaves: seq<LeafSecret>, req: Request, spare: KeyId)
    requires |leaves| == |site.dnsNames|
    ensures
      Decide(site, ca, leaves, req, spare).Granted? <==>
        && ca.CaRecord? && (ca.current.Some? || !req.failIfMissing)
        && ValidNow(ca.current, req.now) && ValidNow(ca.pending, req.now)
        && PhaseFits(site, ca, leaves, req, if ca.current.Some? then ca.current.value.key else spare)
  {
    if ca.CaRecord? {
      var current := if ca.current.Some? then ca.current.value else GenerateCa(spare, req.now);
      forall i | 0 <= i < |leaves|
        ensures LeafMatches(site, leaves[i], current, site.dnsNames[i], req.now) <==> Serves(site, leaves[i], current.key, site.dnsNames[i], req.now)
      {
        MatchesWhenServing(site, leaves[i], current, site.dnsNames[i], req.now);
      }
      assert EveryLeafMatches(site, leaves, current, req.now) <==>
        forall i | 0 <= i < |leaves| :: Serves(site, leaves[i], current.key, site.dnsNames[i], req.now);
    }
  }

  /** The CAs stored by a granted request: those there were, changing places at the first
      `activate`, and new ones, valid for 825 days, only where one was missing. */
  lemma StoredCas(site: Site, ca: CaSecret, leaves: seq<LeafSecret>, req: Request, spare: KeyId)
    requires |leaves| == |site.dnsNames| && Decide(site, ca, leaves, req, spare).Granted?
    ensures
      var record := Decide(site, ca, leaves, req, spare).value.record;
      var current := if ca.current.Some? then ca.current.value else CaPair(spare, req.now - 5, req.now + 825 * 24 * 60);
      && record.CaRecord? && record.phase == req.phase
      && record.rotationId == (if req.phase == Prepare then req.rotationId else ca.rotationId)
      && (req.phase == Stable ==> record.current == Some(current) && record.pending == None && record.previous == None)
      && (req.phase == Prepare ==>
            && record.current == Some(current) && record.previous == None
            && record.pending ==
               if ca.pending.Some? then ca.pending else Some(CaPair(spare + 1, req.now - 5, req.now + 825 * 24 * 60)))
      && (req.phase == Activate && ca.previous.None? ==>
            record.current == ca.pending && record.pending == None && record.previous == Some(current))
      && (req.phase == Activate && ca.previous.Some? ==>
            record.current == Some(current) && record.pending == ca.pending && record.previous == ca.previous)
      && (req.phase == Retire ==> record.current == Some(current) && record.pending == None && record.previous == None)
  {
  }
}
