/** The successive contents of the CA Secret, indexed by its version, and what every
    history obeys whatever runs produced it (src/utils/internal_tls_bootstrap.py). */
module CaHistory {
  import opened Outcomes
  import opened InternalTls

  type History = seq<CaSecret>

  /** Key of the active CA; 0 before there is one. Real keys are at least 1. */
  function Cur(ca: CaSecret): KeyId {
    if ca.CaRecord? && ca.current.Some? then ca.current.value.key else 0
  }

  /** Oldest CA that a leaf may still be signed by: the previous one while it is kept. */
  function Oldest(ca: CaSecret): KeyId {
    if ca.CaRecord? && ca.previous.Some? then ca.previous.value.key else Cur(ca)
  }

  /** Neither a pending nor a previous CA: no rotation is under way. */
  predicate Closed(ca: CaSecret) {
    ca.CaRecord? && ca.pending.None? && ca.previous.None?
  }

  /** `key` is among the certificates of the trust Secret written for this record. */
  predicate Bundled(ca: CaSecret, key: KeyId) {
    ca.CaRecord? && ca.current.Some? && key in BundleOf(ca)
  }

  predicate Ordered(ca: CaSecret) {
    && WellFormedRecord(ca)
    && (ca.current.Some? ==> 1 <= Cur(ca))
    && (ca.pending.Some? ==> ca.current.Some? && Cur(ca) < ca.pending.value.key)
    && (ca.previous.Some? ==> ca.current.Some? && ca.previous.value.key < Cur(ca))
  }

  predicate KeysBelow(ca: CaSecret, bound: KeyId) {
    && Cur(ca) < bound
    && (ca.CaRecord? && ca.pending.Some? ==> ca.pending.value.key < bound)
    && (ca.CaRecord? && ca.previous.Some? ==> ca.previous.value.key < bound)
  }

  /** One write of the CA Secret, as seen by comparing the contents before and after. */
  predicate Evolves(a: CaSecret, b: CaSecret) {
    && Ordered(a) && Ordered(b) && b.current.Some?
    && (b.phase != Activate && a.current.Some? ==> b.current == a.current)
    && match b.phase
       case Stable => Closed(a) && b.rotationId == a.rotationId
       case Prepare => a.previous.None? && (a.pending.Some? ==> b.pending == a.pending && b.rotationId == a.rotationId)
       case Activate =>
         && b.rotationId == a.rotationId
         && if a.previous.Some? then b.current == a.current && b.previous == a.previous
            else a.pending.Some? && b.current == a.pending && b.previous == a.current
       case Retire => a.pending.None? && b.rotationId == a.rotationId
  }

  predicate EvolvesAt(h: History, v: nat)
    requires 0 < v < |h|
  {
    Evolves(h[v - 1], h[v])
  }

  predicate IsHistory(h: History) {
    && (|h| > 0 ==> h[0] == BLANK_CA)
    && forall v | 0 < v < |h| :: EvolvesAt(h, v)
  }

  lemma HistoryAt(h: History, v: nat)
    requires IsHistory(h) && v < |h|
    ensures Ordered(h[v])
    ensures 0 < v ==> Evolves(h[v - 1], h[v]) && h[v].current.Some?
  {
    if 0 < v {
      assert EvolvesAt(h, v);
    }
  }

  /** Every decision taken on the latest record, with keys never used before, is an
      evolution: this ties the shape above to the branches of the program. */
  lemma DecisionsEvolve(site: Site, ca: CaSecret, leaves: seq<LeafSecret>, req: Request, spare: KeyId)
    requires |leaves| == |site.dnsNames|
    requires Ordered(ca) && KeysBelow(ca, spare) && 1 <= spare
    requires Decide(site, ca, leaves, req, spare).Granted?
    ensures
      var plan := Decide(site, ca, leaves, req, spare).value;
      && Evolves(ca, plan.record)
      && KeysBelow(plan.record, spare + 2)
      && plan.record.phase == req.phase
      && (req.phase != Stable ==> plan.record.rotationId == req.rotationId)
      && (plan.force <==> req.phase == Activate && ca.previous.None?)
      && (req.phase == Retire && ca.previous.Some? ==> EveryLeafMatches(site, leaves, ca.current.value, req.now))
  {
  }

  // ---------- order of the keys ----------

  lemma {:induction false} CurGrows(h: History, u: nat, v: nat)
    requires IsHistory(h) && u <= v < |h|
    ensures Cur(h[u]) <= Cur(h[v])
  {
    if u < v {
      CurGrows(h, u, v - 1);
      HistoryAt(h, v);
    }
  }

  lemma {:induction false} OldestGrows(h: History, u: nat, v: nat)
    requires IsHistory(h) && u <= v < |h|
    ensures Oldest(h[u]) <= Oldest(h[v])
  {
    if u < v {
      OldestGrows(h, u, v - 1);
      HistoryAt(h, v);
    }
  }

  /** An active CA of the past that is not older than what version `v` keeps is one of
      the two keys that version `v` keeps, hence in its bundle. */
  lemma {:induction false} KeptKeyIsBundled(h: History, u: nat, v: nat)
    requires IsHistory(h) && 0 < u <= v < |h|
    requires Oldest(h[v]) <= Cur(h[u])
    ensures Cur(h[u]) == Oldest(h[v]) || Cur(h[u]) == Cur(h[v])
    ensures Bundled(h[v], Cur(h[u]))
  {
    HistoryAt(h, v);
    CurGrows(h, u, v);
    if u < v && h[v].previous.Some? {
      HistoryAt(h, v - 1);
      if h[v - 1].previous.Some? {
        KeptKeyIsBundled(h, u, v - 1);
      } else {
        CurGrows(h, u, v - 1);
      }
    }
  }

  // ---------- rotation ids ----------

  /** Version `v` opens a rotation: it is the first to hold its pending CA. */
  predicate Opens(h: History, v: nat)
    requires v < |h|
  {
    0 < v && h[v].CaRecord? && h[v].pending.Some? && h[v - 1].CaRecord? && h[v - 1].pending.None?
  }

  /** Version `v` makes the pending CA the active one. */
  predicate Switches(h: History, v: nat)
    requires v < |h|
  {
    0 < v && h[v].CaRecord? && h[v].previous.Some? && h[v - 1].CaRecord? && h[v - 1].previous.None?
  }

  /** Rotation ids are unique: no rotation is opened under an id stored before. */
  predicate FreshIds(h: History) {
    forall v, u | 0 <= u < v < |h| && Opens(h, v) && h[u].CaRecord? :: h[u].rotationId != h[v].rotationId
  }

  lemma FreshIdsOfPrefix(h: History, n: nat)
    requires n <= |h| && FreshIds(h)
    ensures FreshIds(h[..n])
  {
    forall v, u | 0 <= u < v < n && Opens(h[..n], v) && h[u].CaRecord?
      ensures h[u].rotationId != h[v].rotationId
    {
      assert Opens(h, v);
    }
  }

  function Openings(h: History, id: string): nat {
    if |h| <= 1 then 0
    else Openings(h[..|h| - 1], id) + if Opens(h, |h| - 1) && h[|h| - 1].rotationId == id then 1 else 0
  }

  function Switchings(h: History, id: string): nat {
    if |h| <= 1 then 0
    else Switchings(h[..|h| - 1], id) + if Switches(h, |h| - 1) && h[|h| - 1].rotationId == id then 1 else 0
  }

  predicate PendingUnder(ca: CaSecret, id: string) {
    ca.CaRecord? && ca.pending.Some? && ca.rotationId == id
  }

  lemma HistoryPrefix(h: History, n: nat)
    requires IsHistory(h) && n <= |h|
    ensures IsHistory(h[..n])
  {
    forall v | 0 < v < n ensures EvolvesAt(h[..n], v) { assert EvolvesAt(h, v); }
  }

  /** However runs repeat their phases, the active CA changes under an id exactly as often
      as a CA was generated under it, less the one still pending. */
  lemma {:induction false} SwitchesBalanceOpenings(h: History, id: string)
    requires IsHistory(h) && |h| > 0
    ensures Openings(h, id) == Switchings(h, id) + if PendingUnder(h[|h| - 1], id) then 1 else 0
  {
    if |h| > 1 {
      var last := |h| - 1;
      HistoryPrefix(h, last);
      SwitchesBalanceOpenings(h[..last], id);
      HistoryAt(h, last);
      HistoryAt(h, last - 1);
    }
  }

  lemma {:induction false} OpenedAtMostOnce(h: History, id: string)
    requires IsHistory(h) && FreshIds(h)
    ensures Openings(h, id) <= 1
    ensures Openings(h, id) == 1 ==> exists u :: 0 <= u < |h| && h[u].CaRecord? && h[u].rotationId == id
  {
    if |h| > 1 {
      var last := |h| - 1;
      HistoryPrefix(h, last);
      FreshIdsOfPrefix(h, last);
      OpenedAtMostOnce(h[..last], id);
      if Openings(h[..last], id) == 1 {
        var u :| 0 <= u < last && h[..last][u].CaRecord? && h[..last][u].rotationId == id;
        assert h[u].rotationId == id;
      }
      if Opens(h, last) && h[last].rotationId == id {
        assert h[last].CaRecord?;
      }
    }
  }

  /** With unique rotation ids the active CA changes at most once per id. */
  lemma ActiveCaChangesAtMostOnce(h: History, id: string)
    requires IsHistory(h) && |h| > 0 && FreshIds(h)
    ensures Switchings(h, id) <= 1
    ensures PendingUnder(h[|h| - 1], id) ==> Switchings(h, id) == 0
  {
    SwitchesBalanceOpenings(h, id);
    OpenedAtMostOnce(h, id);
  }

  lemma SwitchingsOfExtension(h: History, ca: CaSecret, id: string)
    requires |h| > 0
    ensures
      Switchings(h + [ca], id) == Switchings(h, id) +
      if ca.CaRecord? && ca.previous.Some? && ca.rotationId == id && h[|h| - 1].CaRecord? && h[|h| - 1].previous.None? then 1 else 0
  {
    assert (h + [ca])[..|h|] == h;
  }

  /** Some version up to `v` retired the rotation of this id. */
  predicate RetiredBy(h: History, v: nat, id: string)
    requires v < |h|
  {
    exists w | 0 <= w <= v :: h[w].CaRecord? && h[w].phase == Retire && h[w].rotationId == id
  }

  /** Once stored, an id stays with its open rotation until that is retired. */
  lemma {:induction false} OpenUntilRetired(h: History, u: nat, v: nat, id: string)
    requires IsHistory(h) && u <= v < |h| && id != ""
    requires h[u].CaRecord? && h[u].rotationId == id
    ensures RetiredBy(h, v, id) || (h[v].CaRecord? && h[v].rotationId == id && !Closed(h[v]))
    decreases v
  {
    HistoryAt(h, v);
    if u < v {
      OpenUntilRetired(h, u, v - 1, id);
    } else if u > 0 && h[v].phase == Stable {
      OpenUntilRetired(h, v - 1, v - 1, id);
    }
  }

  /** A version that opens a rotation under an id stored before comes after its retirement. */
  lemma ReopenedAfterRetire(h: History, u: nat, v: nat)
    requires IsHistory(h) && u < v < |h| && Opens(h, v) && h[v].rotationId != ""
    requires h[u].CaRecord? && h[u].rotationId == h[v].rotationId
    ensures RetiredBy(h, v - 1, h[v].rotationId)
  {
    OpenUntilRetired(h, u, v - 1, h[v].rotationId);
    HistoryAt(h, v);
  }

  // ---------- no way back to an earlier phase of the same id ----------

  predicate PreparedUnder(ca: CaSecret, id: string) {
    ca.CaRecord? && ca.phase == Prepare && ca.rotationId == id
  }

  predicate ActivatedUnder(ca: CaSecret, id: string) {
    ca.CaRecord? && ca.phase == Activate && ca.rotationId == id
  }

  predicate SameCas(a: CaSecret, b: CaSecret) {
    a.CaRecord? && b.CaRecord? && a.current == b.current && a.pending == b.pending && a.previous == b.previous
  }

  /** `a` holds as pending and current what `b` holds as current and previous. */
  predicate SwitchedTo(a: CaSecret, b: CaSecret) {
    a.CaRecord? && b.CaRecord? && a.pending == b.current && a.current == b.previous
  }

  lemma BeforePrepared(h: History, u: nat, v: nat, id: string)
    requires IsHistory(h) && FreshIds(h) && u < v < |h|
    requires h[u].CaRecord? && h[u].rotationId == id && PreparedUnder(h[v], id)
    ensures PreparedUnder(h[v - 1], id) && SameCas(h[v - 1], h[v])
  {
    HistoryAt(h, v);
    assert !Opens(h, v);
  }

  lemma BeforeActivated(h: History, v: nat, id: string)
    requires IsHistory(h) && v < |h| && ActivatedUnder(h[v], id)
    ensures 0 < v
    ensures
      || (ActivatedUnder(h[v - 1], id) && SameCas(h[v - 1], h[v]))
      || (PreparedUnder(h[v - 1], id) && SwitchedTo(h[v - 1], h[v]))
  {
    HistoryAt(h, v);
  }

  /** Between two versions prepared under one id, the same CA stays pending. */
  lemma {:induction false} PreparedInterval(h: History, u: nat, x: nat, v: nat, id: string)
    requires IsHistory(h) && FreshIds(h) && u <= x <= v < |h|
    requires h[u].CaRecord? && h[u].rotationId == id && PreparedUnder(h[v], id)
    ensures PreparedUnder(h[x], id) && SameCas(h[x], h[v])
    decreases v
  {
    if x < v {
      BeforePrepared(h, u, v, id);
      PreparedInterval(h, u, x, v - 1, id);
    }
  }

  /** Between two versions activated under one id, the active and previous CA stay. */
  lemma {:induction false} ActivatedInterval(h: History, u: nat, x: nat, v: nat, id: string)
    requires IsHistory(h) && FreshIds(h) && u <= x <= v < |h|
    requires h[u].CaRecord? && h[u].rotationId == id && h[u].phase != Prepare && ActivatedUnder(h[v], id)
    ensures ActivatedUnder(h[x], id) && SameCas(h[x], h[v])
    decreases v
  {
    if x < v {
      BeforeActivated(h, v, id);
      if PreparedUnder(h[v - 1], id) {
        PreparedInterval(h, u, u, v - 1, id);
        assert false;
      }
      ActivatedInterval(h, u, x, v - 1, id);
    }
  }

  /** From prepared to activated under one id, every version keeps both CAs. */
  lemma {:induction false} RotationInterval(h: History, u: nat, x: nat, v: nat, id: string)
    requires IsHistory(h) && FreshIds(h) && u <= x <= v < |h|
    requires PreparedUnder(h[u], id) && ActivatedUnder(h[v], id)
    ensures
      || (PreparedUnder(h[x], id) && SwitchedTo(h[x], h[v]))
      || (ActivatedUnder(h[x], id) && SameCas(h[x], h[v]))
    decreases v
  {
    if x < v {
      BeforeActivated(h, v, id);
      if ActivatedUnder(h[v - 1], id) {
        RotationInterval(h, u, x, v - 1, id);
      } else {
        PreparedInterval(h, u, x, v - 1, id);
      }
    }
  }

  lemma RotationKeepsBoth(h: History, u: nat, x: nat, v: nat, id: string)
    requires IsHistory(h) && FreshIds(h) && u <= x <= v < |h|
    requires PreparedUnder(h[u], id) && ActivatedUnder(h[v], id)
    ensures Bundled(h[x], Cur(h[v])) && Bundled(h[x], Oldest(h[v]))
  {
    RotationInterval(h, u, x, v, id);
    HistoryAt(h, x);
    HistoryAt(h, v);
  }
}
