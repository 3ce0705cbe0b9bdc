/** What the gate before a rotation has found out about each consumer, in terms of the stored
    record and of the Pods (src/utils/internal_tls_bootstrap.py). */
module TlsGates {
  import opened Outcomes
  import opened InternalTls
  import opened TlsProtocol
  import opened TlsFencing
  import opened TlsRollout

  /** The record is already the one that the request asks for. */
  predicate OwnRecord(stored: CaSecret, req: Request) {
    stored.CaRecord? && stored.phase == req.phase && stored.rotationId == req.rotationId
  }

  /** The phase that must be stored before: `prepare` follows the stable phase under any id,
      `activate` and `retire` follow the phase before them under the same id. */
  predicate FollowsOn(stored: CaSecret, req: Request) {
    && stored.CaRecord?
    && match req.phase
       case Prepare => stored.phase == Stable
       case Activate => stored.phase == Prepare && stored.rotationId == req.rotationId
       case Retire => stored.phase == Activate && stored.rotationId == req.rotationId
       case Stable => false
  }

  /** Where the request's own record is stored, a Pod may still be on the phase before, and
      before `prepare` that is the stable phase of any id. */
  predicate OnOwnPhases(req: Request, a: Annotation) {
    match req.phase
    case Prepare => (a.id == req.rotationId && a.phase == Prepare) || a.phase == Stable
    case Activate => a.id == req.rotationId && (a.phase == Activate || a.phase == Prepare)
    case Retire => a.id == req.rotationId && (a.phase == Retire || a.phase == Activate)
    case Stable => false
  }

  /** A Pod with this annotation may be there when the request is let through: on exactly the
      record's id and phase, unless the record is already the request's own. */
  predicate Fits(stored: CaSecret, req: Request, a: Annotation) {
    if OwnRecord(stored, req) then OnOwnPhases(req, a)
    else FollowsOn(stored, req) && a.id == stored.rotationId && a.phase == stored.phase
  }

  /** The Deployment has a Pod, and every Pod of it is on a phase that fits. */
  predicate FoundFit(c: Cluster, stored: CaSecret, req: Request, d: nat) {
    && (exists p | p in c.pods :: c.pods[p].deployment == d)
    && forall p | p in c.pods && c.pods[p].deployment == d :: Fits(stored, req, c.pods[p].annotation)
  }

  /** For every rotation request the gate passes a Deployment exactly then. */
  lemma PassesWhenFit(c: Cluster, gate: Gate, d: nat)
    requires gate.read < |c.base.ca| && gate.req.phase != Stable
    ensures DeploymentPasses(c, gate, d) <==> FoundFit(c, c.base.ca[gate.read], gate.req, d)
  {
    var stored := c.base.ca[gate.read];
    forall a: Annotation ensures AnnotationAllowed(stored, gate.req, a) <==> Fits(stored, gate.req, a) { AllowedWhenFit(stored, gate.req, a); }
  }

  lemma AllowedWhenFit(stored: CaSecret, req: Request, a: Annotation)
    requires req.phase != Stable
    ensures AnnotationAllowed(stored, req, a) <==> Fits(stored, req, a)
  {
  }

  // ---------- over whole rollouts ----------

  /** At instant `i` the record was the latest one, which the gate read. */
  predicate ReadAt(t: Trace, i: nat, record: CaSecret) {
    i < |t.states| && |t.states[i].base.ca| > 0 && Latest(t.states[i].base) == record
  }

  /** At instant `j`, no earlier than that, the Deployment was found fit. */
  predicate FitAt(t: Trace, i: nat, j: nat, record: CaSecret, req: Request, d: nat) {
    i <= j < |t.states| && ReadAt(t, i, record) && FoundFit(t.states[j], record, req, d)
  }

  ghost predicate WasFit(t: Trace, k: nat, i: nat, record: CaSecret, req: Request, d: nat) {
    exists j: nat :: j <= k && FitAt(t, i, j, record, req, d)
  }

  ghost predicate CheckedSince(t: Trace, k: nat, i: nat, record: CaSecret, gate: Gate) {
    i <= k && ReadAt(t, i, record) && forall d | d in gate.verified :: WasFit(t, k, i, record, gate.req, d)
  }

  ghost predicate Checked(t: Trace, k: nat, gate: Gate)
    requires k < |t.states|
  {
    && gate.read < |t.states[k].base.ca| && gate.req.phase != Stable
    && exists i: nat :: CheckedSince(t, k, i, t.states[k].base.ca[gate.read], gate)
  }

  lemma RecordsStay(fleet: Fleet, policy: Policy, t: Trace, k: nat)
    requires Rollout(fleet, policy, t) && k < |t.moves|
    ensures t.states[k].base.ca <= t.states[k + 1].base.ca
  {
    assert MovesAt(fleet, policy, t, k);
  }

  lemma CheckedStays(t: Trace, k: nat, gate: Gate)
    requires k + 1 < |t.states| && t.states[k].base.ca <= t.states[k + 1].base.ca && Checked(t, k, gate)
    ensures Checked(t, k + 1, gate)
  {
    var record := t.states[k].base.ca[gate.read];
    assert t.states[k + 1].base.ca[gate.read] == record;
    var i: nat :| CheckedSince(t, k, i, record, gate);
    forall d | d in gate.verified
      ensures WasFit(t, k + 1, i, record, gate.req, d)
    {
      assert WasFit(t, k, i, record, gate.req, d);
    }
    assert CheckedSince(t, k + 1, i, record, gate);
  }

  lemma CheckedMore(t: Trace, k: nat, gate: Gate, d: nat)
    requires k < |t.states| && Checked(t, k, gate) && FoundFit(t.states[k], t.states[k].base.ca[gate.read], gate.req, d)
    ensures Checked(t, k, gate.(verified := gate.verified + {d}))
  {
    var record := t.states[k].base.ca[gate.read];
    var i: nat :| CheckedSince(t, k, i, record, gate);
    assert FitAt(t, i, k, record, gate.req, d);
    assert CheckedSince(t, k, i, record, gate.(verified := gate.verified + {d}));
  }

  lemma {:induction false} GatesAreChecked(fleet: Fleet, policy: Policy, t: Trace, k: nat, r: nat)
    requires Rollout(fleet, policy, t) && k < |t.states| && r in t.states[k].gates
    ensures Checked(t, k, t.states[k].gates[r])
    decreases k
  {
    if k > 0 {
      assert MovesAt(fleet, policy, t, k - 1);
      RecordsStay(fleet, policy, t, k - 1);
      var c, c', move := t.states[k - 1], t.states[k], t.moves[k - 1];
      if r !in c.gates {
        assert CheckedSince(t, k, k, c'.base.ca[c'.gates[r].read], c'.gates[r]);
      } else {
        GatesAreChecked(fleet, policy, t, k - 1, r);
        CheckedStays(t, k - 1, c.gates[r]);
        if move.VerifyDeployment? && move.run == r {
          PassesWhenFit(c, c.gates[r], move.deployment);
          CheckedMore(t, k, c.gates[r], move.deployment);
        }
      }
    }
  }

  lemma {:induction false} LaunchedThroughGate(fleet: Fleet, policy: Policy, t: Trace, k: nat, r: nat)
    requires Rollout(fleet, policy, t) && k < |t.states| && r in t.states[k].base.runs
    ensures Launched(fleet, t.states[k], r)
    decreases k
  {
    if k > 0 {
      assert MovesAt(fleet, policy, t, k - 1);
      var c, move := t.states[k - 1], t.moves[k - 1];
      if move.Proceed? { StepKeepsRequests(fleet.site, c.base, move.step, t.states[k].base); }
      if r in c.base.runs { LaunchedThroughGate(fleet, policy, t, k - 1, r); }
    }
  }

  /** Under any policy: before a rotation run was launched, its gate read what was then the
      latest record, and later found each Deployment, at some instant, on a phase that fits
      that record. */
  lemma LaunchedRunsWereGated(fleet: Fleet, policy: Policy, t: Trace, k: nat, r: nat, d: nat)
    requires Rollout(fleet, policy, t) && k < |t.states| && r in t.states[k].base.runs && d < fleet.deployments
    requires t.states[k].base.runs[r].req.phase != Stable
    ensures
      exists record, i: nat, j: nat ::
        && record in t.states[k].base.ca && i <= j <= k
        && ReadAt(t, i, record) && FoundFit(t.states[j], record, t.states[k].base.runs[r].req, d)
  {
    LaunchedThroughGate(fleet, policy, t, k, r);
    GatesAreChecked(fleet, policy, t, k, r);
    var gate := t.states[k].gates[r];
    assert Passed(fleet, gate) && d in gate.verified;
    var record := t.states[k].base.ca[gate.read];
    var i: nat :| CheckedSince(t, k, i, record, gate);
    assert WasFit(t, k, i, record, gate.req, d);
    var j: nat :| j <= k && FitAt(t, i, j, record, gate.req, d);
  }
}
