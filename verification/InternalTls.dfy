/** The decisions of `reconcile` in src/utils/internal_tls_bootstrap.py on certificates
    abstracted to a key id, a signer and a validity interval. Times are in minutes. */
module InternalTls {
  import opened Outcomes

  type KeyId = nat

  const FIVE_MINUTES := 5
  const THIRTY_DAYS := 30 * 24 * 60
  const CA_DAYS := 825 * 24 * 60
  const LEAF_DAYS := 397 * 24 * 60
  const CA_SUBJECT := "OSMO internal CA"

  /** A self-signed CA certificate with its private key. */
  datatype CaPair = CaPair(key: KeyId, notBefore: int, notAfter: int)

  /** A leaf certificate with its private key: who signed it and what it claims. */
  datatype LeafPair = LeafPair(signer: KeyId, issuer: string, names: set<string>, notBefore: int, notAfter: int)

  datatype Phase = Stable | Prepare | Activate | Retire

  /** Contents of the CA Secret. `Damaged` is a certificate without its key, a key of
      another certificate, or undecodable metadata. */
  datatype CaSecret =
    | Damaged
    | CaRecord(current: Option<CaPair>, pending: Option<CaPair>, previous: Option<CaPair>, rotationId: string, phase: Phase)

  /** A Secret that was created but not yet filled. */
  const BLANK_CA := CaRecord(None, None, None, "", Stable)

  /** Contents of a leaf Secret; `pair` is absent when there is no usable key pair. */
  datatype LeafSecret = LeafSecret(pair: Option<LeafPair>, nonce: Option<string>)

  const BLANK_LEAF := LeafSecret(None, None)

  datatype Request = Request(phase: Phase, rotationId: string, nonce: string, failIfMissing: bool, now: int)

  /** The fixed part of a deployment: the DNS name of every leaf, and the namespace. */
  datatype Site = Site(dnsNames: seq<string>, namespace_: string)

  function GenerateCa(key: KeyId, now: int): CaPair {
    CaPair(key, now - FIVE_MINUTES, now + CA_DAYS)
  }

  function ExpectedNames(site: Site, dnsName: string): set<string> {
    {dnsName, dnsName + "." + site.namespace_, dnsName + "." + site.namespace_ + ".svc"}
  }

  function GenerateLeaf(site: Site, ca: CaPair, dnsName: string, now: int): LeafPair {
    LeafPair(ca.key, CA_SUBJECT, ExpectedNames(site, dnsName), now - FIVE_MINUTES, now + LEAF_DAYS)
  }

  /** `_leaf_matches_contract`: signed by `ca`, valid now and for thirty more days, for
      exactly the expected names. */
  predicate LeafMatches(site: Site, leaf: LeafSecret, ca: CaPair, dnsName: string, now: int) {
    && leaf.pair.Some?
    && var pair := leaf.pair.value;
    && pair.signer == ca.key
    && pair.issuer == CA_SUBJECT
    && pair.notBefore <= now
    && now + THIRTY_DAYS < pair.notAfter
    && pair.names == ExpectedNames(site, dnsName)
  }

  predicate EveryLeafMatches(site: Site, leaves: seq<LeafSecret>, ca: CaPair, now: int)
    requires |leaves| == |site.dnsNames|
  {
    forall i | 0 <= i < |leaves| :: LeafMatches(site, leaves[i], ca, site.dnsNames[i], now)
  }

  predicate CurrentlyValid(ca: CaPair, now: int) {
    ca.notBefore <= now < ca.notAfter
  }

  /** What one run will write: the CA record, and whether every leaf is rewritten. */
  datatype Plan = Plan(record: CaSecret, force: bool)

  /** The branch of `reconcile` on the requested phase, given what the run read. `spare`
      and `spare + 1` are the ids of keys it may generate. */
  function Decide(site: Site, ca: CaSecret, leaves: seq<LeafSecret>, req: Request, spare: KeyId): Attempt<Plan>
    requires |leaves| == |site.dnsNames|
  {
    if ca.Damaged? then
      Refused
    else if ca.current.None? && req.failIfMissing then
      Refused
    else
      var current := if ca.current.Some? then ca.current.value else GenerateCa(spare, req.now);
      if !CurrentlyValid(current, req.now) || (ca.pending.Some? && !CurrentlyValid(ca.pending.value, req.now)) then
        Refused
      else
        match req.phase
        case Stable =>
          if ca.pending.Some? || ca.previous.Some? then Refused
          else Granted(Plan(CaRecord(Some(current), None, None, ca.rotationId, Stable), false))
        case Prepare =>
          if ca.previous.Some? || (ca.pending.Some? && ca.rotationId != req.rotationId) then Refused
          else
            var pending := if ca.pending.Some? then ca.pending.value else GenerateCa(spare + 1, req.now);
            Granted(Plan(CaRecord(Some(current), Some(pending), None, req.rotationId, Prepare), false))
        case Activate =>
          if ca.rotationId != req.rotationId then Refused
          else if ca.previous.Some? then
            Granted(Plan(CaRecord(Some(current), ca.pending, ca.previous, ca.rotationId, Activate), false))
          else if ca.pending.None? then Refused
          else
            Granted(Plan(CaRecord(ca.pending, None, Some(current), ca.rotationId, Activate), true))
        case Retire =>
          if ca.rotationId != req.rotationId || ca.pending.Some? then Refused
          else if !EveryLeafMatches(site, leaves, current, req.now) then Refused
          else Granted(Plan(CaRecord(Some(current), None, None, ca.rotationId, Retire), false))
  }

  /** The certificates concatenated into the trust Secret for a record. */
  function BundleOf(record: CaSecret): seq<KeyId>
    requires record.CaRecord? && record.current.Some?
  {
    [record.current.value.key] +
    if record.pending.Some? then [record.pending.value.key]
    else if record.previous.Some? then [record.previous.value.key]
    else []
  }

  /** Whether the leaf loop of `reconcile` replaces a leaf it read as `leaf`. */
  predicate NeedsNewLeaf(site: Site, plan: Plan, leaf: LeafSecret, dnsName: string, req: Request)
    requires plan.record.CaRecord? && plan.record.current.Some?
  {
    plan.force || leaf.nonce != Some(req.nonce) || !LeafMatches(site, leaf, plan.record.current.value, dnsName, req.now)
  }

  function NewLeaf(site: Site, plan: Plan, dnsName: string, req: Request): LeafSecret
    requires plan.record.CaRecord? && plan.record.current.Some?
  {
    LeafSecret(Some(GenerateLeaf(site, plan.record.current.value, dnsName, req.now)), Some(req.nonce))
  }

  // ---------- what the decisions promise ----------

  /** Never both a pending and a previous CA: pending exactly in `prepare`, previous
      exactly in `activate`. */
  predicate WellFormedRecord(ca: CaSecret) {
    && ca.CaRecord?
    && (ca.pending.Some? <==> ca.phase == Prepare)
    && (ca.previous.Some? <==> ca.phase == Activate)
    && (ca.current.None? ==> ca == BLANK_CA)
  }

  /** A leaf just generated passes the very check that decides whether it is replaced. */
  lemma NewLeafMatches(site: Site, plan: Plan, dnsName: string, req: Request)
    requires plan.record.CaRecord? && plan.record.current.Some?
    ensures LeafMatches(site, NewLeaf(site, plan, dnsName, req), plan.record.current.value, dnsName, req.now)
    ensures !NeedsNewLeaf(site, plan.(force := false), NewLeaf(site, plan, dnsName, req), dnsName, req)
  {
  }
}
