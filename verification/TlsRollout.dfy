/** CA rotation with its consumers: gated runs interleaved with Pods that start, load,
    reload and go away. `verify_transition_rollout` and `verify_rollout` of
    src/utils/internal_tls_bootstrap.py gate the runs, Deployment by Deployment. */
module TlsRollout {
  import opened Outcomes
  import opened InternalTls
  import opened CaHistory
  import opened TlsProtocol
  import opened TlsFencing

  /** The `checksum/internal-tls-ca-phase` annotation, `id:phase`. */
  datatype Annotation = Annotation(id: string, phase: Phase)

  /** An active Pod: the bundle it loaded and the signer of the leaf it serves. */
  datatype Pod = Pod(deployment: nat, annotation: Annotation, bundle: Option<seq<KeyId>>, leaf: Option<KeyId>)

  /** A run before `reconcile`: the CA version its gate read and the Deployments it passed. */
  datatype Gate = Gate(req: Request, read: nat, verified: set<nat>)

  datatype Cluster = Cluster(base: State, gates: map<nat, Gate>, pods: map<nat, Pod>, completed: set<Annotation>)

  /** The consumers: how many Deployments there are and which leaf each serves. */
  datatype Fleet = Fleet(site: Site, deployments: nat, leafOf: map<nat, nat>)

  predicate FleetOk(fleet: Fleet) {
    0 < fleet.deployments && forall d | d in fleet.leafOf :: fleet.leafOf[d] < |fleet.site.dnsNames|
  }

  // ---------- the gate ----------

  function Predecessor(phase: Phase): Phase {
    match phase
    case Activate => Prepare
    case Retire => Activate
    case _ => Stable
  }

  /** `Complete`: every Pod must carry the stored id and phase. `Converging`: the phase is
      already stored, and Pods of it or of its predecessor may be left. */
  datatype GateMode = Complete | Converging

  function TransitionGate(stored: CaSecret, req: Request): Attempt<GateMode> {
    if stored.Damaged? then Refused
    else if stored.phase == req.phase && stored.rotationId == req.rotationId then Granted(Converging)
    else if stored.phase != Predecessor(req.phase) then Refused
    else if req.phase != Prepare && stored.rotationId != req.rotationId then Refused
    else Granted(Complete)
  }

  predicate AnnotationAllowed(stored: CaSecret, req: Request, a: Annotation) {
    match TransitionGate(stored, req)
    case Refused => false
    case Granted(Complete) => a == Annotation(stored.rotationId, stored.phase)
    case Granted(Converging) =>
      || a == Annotation(req.rotationId, req.phase)
      || a == Annotation(req.rotationId, Predecessor(req.phase))
      || (req.phase == Prepare && a.phase == Stable)
  }

  predicate DeploymentPasses(c: Cluster, gate: Gate, d: nat)
    requires gate.read < |c.base.ca|
  {
    && (exists p | p in c.pods :: c.pods[p].deployment == d)
    && forall p | p in c.pods && c.pods[p].deployment == d :: AnnotationAllowed(c.base.ca[gate.read], gate.req, c.pods[p].annotation)
  }

  predicate Passed(fleet: Fleet, gate: Gate) {
    forall d: nat | d < fleet.deployments :: d in gate.verified
  }

  // ---------- steps ----------

  datatype Move =
    | ReadGate(run: nat, req: Request)
    | VerifyDeployment(run: nat, deployment: nat)
    | Launch(run: nat, req: Request)
    | Abandon(run: nat)
    | Proceed(step: Step)
    | CreatePod(pod: nat, deployment: nat, annotation: Annotation)
    | LoadTrust(pod: nat)
    | LoadLeaf(pod: nat)
    | RemovePod(pod: nat)

  predicate ClusterInit(fleet: Fleet, c: Cluster) {
    Init(fleet.site, c.base) && c.gates == map[] && c.pods == map[] && c.completed == {}
  }

  /** A run of this id and phase is completed by the step, if any. */
  function JustCompleted(s: State, step: Step, s': State): set<Annotation> {
    if step.WriteLeaf? && step.run in s'.runs && s'.runs[step.run].progress.Completed? then
      {Annotation(s'.runs[step.run].req.rotationId, s'.runs[step.run].req.phase)}
    else {}
  }

  predicate ReadsGate(c: Cluster, r: nat, req: Request, c': Cluster) {
    && r !in c.gates && r !in c.base.runs && req.phase != Stable && req.rotationId != "" && |c.base.ca| > 0
    && TransitionGate(Latest(c.base), req).Granted?
    && c' == c.(gates := c.gates[r := Gate(req, |c.base.ca| - 1, {})])
  }

  predicate Verifies(fleet: Fleet, c: Cluster, r: nat, d: nat, c': Cluster) {
    && r in c.gates && r !in c.base.runs && d < fleet.deployments && c.gates[r].read < |c.base.ca|
    && DeploymentPasses(c, c.gates[r], d)
    && c' == c.(gates := c.gates[r := c.gates[r].(verified := c.gates[r].verified + {d})])
  }

  predicate Abandons(c: Cluster, r: nat, c': Cluster) {
    r in c.gates && r !in c.base.runs && c' == c.(gates := c.gates - {r})
  }

  predicate Launches(fleet: Fleet, c: Cluster, r: nat, req: Request, c': Cluster) {
    && (if r in c.gates then c.gates[r].req == req && Passed(fleet, c.gates[r]) else req.phase == Stable)
    && Starts(c.base, r, req, c'.base) && c' == c.(base := c'.base)
  }

  /** Pods annotated `id:phase` are only created once a run for that id and phase has
      completed: the bootstrap Job is a pre-upgrade hook of the same Helm values. */
  predicate Creates(fleet: Fleet, c: Cluster, p: nat, d: nat, a: Annotation, c': Cluster) {
    p !in c.pods && d < fleet.deployments && a in c.completed && c' == c.(pods := c.pods[p := Pod(d, a, None, None)])
  }

  predicate Removes(c: Cluster, p: nat, c': Cluster) {
    p in c.pods && c' == c.(pods := c.pods - {p})
  }

  /** Loading may happen at any time and again: a start, a restart or a refresh of the mount. */
  predicate LoadsTrust(c: Cluster, p: nat, c': Cluster) {
    p in c.pods && c' == c.(pods := c.pods[p := c.pods[p].(bundle := c.base.trust.bundle)])
  }

  predicate LoadsLeaf(fleet: Fleet, c: Cluster, p: nat, c': Cluster)
    requires FleetOk(fleet) && |c.base.leaves| == |fleet.site.dnsNames|
  {
    && p in c.pods && c.pods[p].deployment in fleet.leafOf
    && var leaf := c.base.leaves[fleet.leafOf[c.pods[p].deployment]].data;
    c' == c.(pods := c.pods[p := c.pods[p].(leaf := if leaf.pair.Some? then Some(Signer(leaf)) else None)])
  }

  predicate WithStep(c: Cluster, step: Step, c': Cluster) {
    c' == c.(base := c'.base, completed := c.completed + JustCompleted(c.base, step, c'.base))
  }

  ghost predicate Moves(fleet: Fleet, c: Cluster, move: Move, c': Cluster)
    requires FleetOk(fleet) && |c.base.leaves| == |fleet.site.dnsNames|
  {
    match move
    case ReadGate(r, req) => ReadsGate(c, r, req, c')
    case VerifyDeployment(r, d) => Verifies(fleet, c, r, d, c')
    case Launch(r, req) => Launches(fleet, c, r, req, c')
    case Abandon(r) => Abandons(c, r, c')
    case Proceed(step) => !step.Start? && Next(fleet.site, c.base, step, c'.base) && WithStep(c, step, c')
    case CreatePod(p, d, a) => Creates(fleet, c, p, d, a, c')
    case LoadTrust(p) => LoadsTrust(c, p, c')
    case LoadLeaf(p) => LoadsLeaf(fleet, c, p, c')
    case RemovePod(p) => Removes(c, p, c')
  }

  // ---------- the operator's part ----------

  predicate Asks(req: Request, phase: Phase, id: string) {
    req.phase == phase && req.rotationId == id
  }

  /** A process that may still write the CA Secret: at its gate, or not past its reads. */
  predicate InFlight(c: Cluster, r: nat) {
    r in c.base.runs ==> c.base.runs[r].progress.Reading?
  }

  /** Two rules for starting rotation processes. `idsOnce`: no `prepare` of an id once a
      `retire` of it was started. `drained`: no `retire` while a `prepare` of its id is in
      flight. */
  datatype Policy = Policy(idsOnce: bool, drained: bool)

  const ORDERLY := Policy(true, true)

  predicate Permits(policy: Policy, c: Cluster, move: Move) {
    move.ReadGate? ==>
      && (policy.idsOnce && move.req.phase == Prepare ==>
            forall r | r in c.gates :: !Asks(c.gates[r].req, Retire, move.req.rotationId))
      && (policy.drained && move.req.phase == Retire ==>
            forall r | r in c.gates && Asks(c.gates[r].req, Prepare, move.req.rotationId) :: !InFlight(c, r))
  }

  /** Every leaf served by an active Pod is signed by a CA in the bundle of every active Pod. */
  predicate Trusting(c: Cluster) {
    forall p, q | p in c.pods && q in c.pods && c.pods[p].leaf.Some? && c.pods[q].bundle.Some? ::
      c.pods[p].leaf.value in c.pods[q].bundle.value
  }

  // ---------- the invariant ----------

  /** Version `v`, already in the trust Secret, witnesses a completed run. */
  predicate WitnessedBy(s: State, a: Annotation, v: nat) {
    && v <= s.trust.author < |s.ca|
    && (a.phase == Prepare ==> PreparedUnder(s.ca[v], a.id))
    && (a.phase == Activate ==>
      && ActivatedUnder(s.ca[v], a.id)
      && forall i | 0 <= i < |s.leaves| :: Cur(s.ca[v]) <= Signer(s.leaves[i].data))
  }

  ghost predicate CompletedOk(c: Cluster) {
    && (c.completed != {} ==> c.base.trust.bundle.Some?)
    && forall a | a in c.completed :: exists v: nat :: WitnessedBy(c.base, a, v)
  }

  /** The CAs in use now are in the trust Secret, and in every bundle still to be written. */
  predicate BundlesCover(s: State)
    requires |s.ca| > 0
  {
    forall u | 0 < u < |s.ca| && s.trust.author <= u :: Bundled(s.ca[u], Cur(Latest(s))) && Bundled(s.ca[u], Oldest(Latest(s)))
  }

  predicate PodOk(fleet: Fleet, c: Cluster, pod: Pod)
    requires |c.base.ca| > 0
  {
    var now := Latest(c.base);
    && pod.deployment < fleet.deployments
    && pod.annotation in c.completed
    && (pod.bundle.Some? ==> Cur(now) in pod.bundle.value && Oldest(now) in pod.bundle.value)
    && (pod.leaf.Some? ==> pod.leaf.value == Cur(now) || pod.leaf.value == Oldest(now))
    && (pod.annotation.phase == Prepare && PreparedUnder(now, pod.annotation.id) ==> HasPending(now, pod))
    && (pod.annotation.phase == Activate && ActivatedUnder(now, pod.annotation.id) ==> ServesCurrent(now, pod))
  }

  predicate HasPending(now: CaSecret, pod: Pod) {
    pod.bundle.Some? && now.CaRecord? && now.pending.Some? ==> now.pending.value.key in pod.bundle.value
  }

  predicate ServesCurrent(now: CaSecret, pod: Pod) {
    pod.leaf.Some? ==> pod.leaf.value == Cur(now)
  }

  /** What a gate has learned stays true for as long as the CA record stays in the phase
      that the gated run will leave. */
  predicate GateOk(c: Cluster, gate: Gate)
    requires |c.base.ca| > 0
  {
    var now := Latest(c.base);
    var id := gate.req.rotationId;
    && gate.read < |c.base.ca|
    && TransitionGate(c.base.ca[gate.read], gate.req).Granted?
    && (gate.req.phase == Activate && PreparedUnder(now, id) && gate.verified != {} ==>
      && Annotation(id, Prepare) in c.completed
      && forall p | p in c.pods && c.pods[p].deployment in gate.verified :: HasPending(now, c.pods[p]))
    && (gate.req.phase == Retire && ActivatedUnder(now, id) && gate.verified != {} ==>
      && Annotation(id, Activate) in c.completed
      && forall p | p in c.pods && c.pods[p].deployment in gate.verified :: ServesCurrent(now, c.pods[p]))
  }

  predicate Launched(fleet: Fleet, c: Cluster, r: nat)
    requires r in c.base.runs
  {
    c.base.runs[r].req.phase != Stable ==>
      r in c.gates && c.gates[r].req == c.base.runs[r].req && Passed(fleet, c.gates[r])
  }

  /** The rules leave no `prepare` that could write after a `retire` of its id. */
  predicate PreparesDone(c: Cluster) {
    forall q, r | q in c.gates && r in c.gates && c.gates[q].req.phase == Prepare && Asks(c.gates[r].req, Retire, c.gates[q].req.rotationId) ::
      !InFlight(c, q)
  }

  predicate RetireStarted(c: Cluster, id: string) {
    exists r | r in c.gates :: r in c.base.runs && Asks(c.gates[r].req, Retire, id)
  }

  /** If version `u` was written by a `retire`, then that run is still on record. */
  predicate RetireStartedAt(c: Cluster, u: nat)
    requires u < |c.base.ca|
  {
    c.base.ca[u].CaRecord? && c.base.ca[u].phase == Retire ==> RetireStarted(c, c.base.ca[u].rotationId)
  }

  predicate RetiresStarted(c: Cluster) {
    forall u | 0 <= u < |c.base.ca| :: RetireStartedAt(c, u)
  }

  ghost predicate InOrder(c: Cluster) {
    && PreparesDone(c) && RetiresStarted(c) && FreshIds(c.base.ca)
    && forall r | r in c.gates :: c.gates[r].req.phase != Stable && c.gates[r].req.rotationId != ""
  }

  ghost predicate ClusterInv(fleet: Fleet, c: Cluster) {
    && Inv(fleet.site, c.base) && InOrder(c)
    && CompletedOk(c)
    && (|c.base.ca| == 0 ==> c.gates == map[] && c.pods == map[] && c.completed == {})
    && (|c.base.ca| > 0 ==>
      && BundlesCover(c.base)
      && (forall p | p in c.pods :: PodOk(fleet, c, c.pods[p]))
      && forall r | r in c.gates :: GateOk(c, c.gates[r]))
    && forall r | r in c.base.runs :: Launched(fleet, c, r)
  }

  lemma InvIsTrusting(fleet: Fleet, c: Cluster)
    requires ClusterInv(fleet, c)
    ensures Trusting(c)
  {
    forall p, q | p in c.pods && q in c.pods && c.pods[p].leaf.Some? && c.pods[q].bundle.Some?
      ensures c.pods[p].leaf.value in c.pods[q].bundle.value
    {
      assert PodOk(fleet, c, c.pods[p]) && PodOk(fleet, c, c.pods[q]);
    }
  }

  // ---------- what completed runs and passed gates entail now ----------

  lemma TrustHasPending(c: Cluster, id: string)
    requires SecretsTracked(c) && PreparedUnder(Latest(c.base), id) && Annotation(id, Prepare) in c.completed
    ensures forall u | c.base.trust.author <= u < |c.base.ca| :: SameCas(c.base.ca[u], Latest(c.base))
    ensures Latest(c.base).pending.Some? && c.base.trust.bundle.Some? && Latest(c.base).pending.value.key in c.base.trust.bundle.value
  {
    var h := c.base.ca;
    var v: nat :| WitnessedBy(c.base, Annotation(id, Prepare), v);
    forall u | c.base.trust.author <= u < |h|
      ensures SameCas(h[u], Latest(c.base))
    {
      PreparedInterval(h, v, u, |h| - 1, id);
    }
    HistoryAt(h, |h| - 1);
    assert SameCas(h[c.base.trust.author], Latest(c.base));
  }

  lemma LeavesAreCurrent(c: Cluster, id: string)
    requires SecretsTracked(c) && ActivatedUnder(Latest(c.base), id) && Annotation(id, Activate) in c.completed
    ensures forall i | 0 <= i < |c.base.leaves| :: Cur(Latest(c.base)) <= Signer(c.base.leaves[i].data)
  {
    var h := c.base.ca;
    var v: nat :| WitnessedBy(c.base, Annotation(id, Activate), v);
    ActivatedInterval(h, v, v, |h| - 1, id);
  }

  /** The facts about Secrets and completed runs that the lemmas here start from. */
  ghost predicate SecretsTracked(c: Cluster) {
    && |c.base.ca| > 0 && IsHistory(c.base.ca) && FreshIds(c.base.ca) && CompletedOk(c)
    && (c.base.trust.bundle.Some? ==>
      && 0 < c.base.trust.author < |c.base.ca| && c.base.ca[c.base.trust.author].CaRecord?
      && c.base.ca[c.base.trust.author].current.Some?
      && c.base.trust.bundle.value == BundleOf(c.base.ca[c.base.trust.author]))
  }

  /** A gated `activate` or `retire` saw its own rotation id in the CA Secret. */
  lemma GateSawItsId(c: Cluster, gate: Gate)
    requires |c.base.ca| > 0 && GateOk(c, gate) && (gate.req.phase == Activate || gate.req.phase == Retire)
    ensures
      var stored := c.base.ca[gate.read];
      && stored.CaRecord? && stored.rotationId == gate.req.rotationId
      && (stored.phase == gate.req.phase || stored.phase == Predecessor(gate.req.phase))
  {
  }

  lemma VerifiedHavePending(fleet: Fleet, c: Cluster, gate: Gate, d: nat)
    requires ClusterInv(fleet, c) && |c.base.ca| > 0
    requires GateOk(c, gate) && DeploymentPasses(c, gate, d)
    requires gate.req.phase == Activate && PreparedUnder(Latest(c.base), gate.req.rotationId)
    ensures Annotation(gate.req.rotationId, Prepare) in c.completed
    ensures forall p | p in c.pods && c.pods[p].deployment == d :: HasPending(Latest(c.base), c.pods[p])
  {
    var p0 :| p0 in c.pods && c.pods[p0].deployment == d;
    assert PodOk(fleet, c, c.pods[p0]);
    GateSawItsId(c, gate);
    PreparedInterval(c.base.ca, gate.read, gate.read, |c.base.ca| - 1, gate.req.rotationId);
    forall p | p in c.pods && c.pods[p].deployment == d
      ensures HasPending(Latest(c.base), c.pods[p])
    {
      assert PodOk(fleet, c, c.pods[p]);
    }
  }

  lemma VerifiedServeCurrent(fleet: Fleet, c: Cluster, gate: Gate, d: nat)
    requires ClusterInv(fleet, c) && |c.base.ca| > 0
    requires GateOk(c, gate) && DeploymentPasses(c, gate, d)
    requires gate.req.phase == Retire && ActivatedUnder(Latest(c.base), gate.req.rotationId)
    ensures Annotation(gate.req.rotationId, Activate) in c.completed
    ensures forall p | p in c.pods && c.pods[p].deployment == d :: ServesCurrent(Latest(c.base), c.pods[p])
  {
    var p0 :| p0 in c.pods && c.pods[p0].deployment == d;
    assert PodOk(fleet, c, c.pods[p0]);
    GateSawItsId(c, gate);
    ActivatedInterval(c.base.ca, gate.read, gate.read, |c.base.ca| - 1, gate.req.rotationId);
    forall p | p in c.pods && c.pods[p].deployment == d
      ensures ServesCurrent(Latest(c.base), c.pods[p])
    {
      assert PodOk(fleet, c, c.pods[p]);
    }
  }

  lemma VerifyKeepsGate(fleet: Fleet, c: Cluster, gate: Gate, d: nat)
    requires ClusterInv(fleet, c) && |c.base.ca| > 0
    requires GateOk(c, gate) && DeploymentPasses(c, gate, d)
    ensures GateOk(c, gate.(verified := gate.verified + {d}))
  {
    if gate.req.phase == Activate && PreparedUnder(Latest(c.base), gate.req.rotationId) {
      VerifiedHavePending(fleet, c, gate, d);
    }
    if gate.req.phase == Retire && ActivatedUnder(Latest(c.base), gate.req.rotationId) {
      VerifiedServeCurrent(fleet, c, gate, d);
    }
  }

  // ---------- gate and Pod moves keep the invariant ----------

  /** Launched gates stay, so a `retire` on record stays started. */
  lemma RetireStaysStarted(c: Cluster, c': Cluster, id: string)
    requires RetireStarted(c, id)
    requires
      forall r | r in c.gates && r in c.base.runs :: r in c'.gates && r in c'.base.runs && c'.gates[r].req == c.gates[r].req
    ensures RetireStarted(c', id)
  {
    var r :| r in c.gates && r in c.base.runs && Asks(c.gates[r].req, Retire, id);
    assert r in c'.gates && Asks(c'.gates[r].req, Retire, id);
  }

  lemma RetiresStayStarted(c: Cluster, c': Cluster)
    requires RetiresStarted(c) && c'.base.ca == c.base.ca
    requires
      forall r | r in c.gates && r in c.base.runs :: r in c'.gates && r in c'.base.runs && c'.gates[r].req == c.gates[r].req
    ensures RetiresStarted(c')
  {
    forall u | 0 <= u < |c'.base.ca|
      ensures RetireStartedAt(c', u)
    {
      assert RetireStartedAt(c, u);
      if c.base.ca[u].CaRecord? && c.base.ca[u].phase == Retire { RetireStaysStarted(c, c', c.base.ca[u].rotationId); }
    }
  }

  lemma PreparesStayDone(c: Cluster, c': Cluster)
    requires PreparesDone(c)
    requires forall q | q in c'.gates :: q in c.gates && c'.gates[q].req == c.gates[q].req && (InFlight(c', q) ==> InFlight(c, q))
    ensures PreparesDone(c')
  {
  }

  lemma ReadGateKeepsOrder(c: Cluster, r: nat, req: Request, c': Cluster)
    requires InOrder(c) && ReadsGate(c, r, req, c') && Permits(ORDERLY, c, ReadGate(r, req))
    ensures InOrder(c')
  {
    RetiresStayStarted(c, c');
  }

  /** Gates may go, or verify more, and runs may start behind them. */
  lemma OlderGatesKeepOrder(c: Cluster, c': Cluster)
    requires InOrder(c) && c'.base.ca == c.base.ca
    requires
      forall r | r in c.gates && r in c.base.runs :: r in c'.gates && r in c'.base.runs && c'.gates[r].req == c.gates[r].req
    requires forall q | q in c'.gates :: q in c.gates && c'.gates[q].req == c.gates[q].req && (InFlight(c', q) ==> InFlight(c, q))
    ensures InOrder(c')
  {
    RetiresStayStarted(c, c');
    PreparesStayDone(c, c');
  }

  lemma ChangedGatesKeepInv(fleet: Fleet, c: Cluster, c': Cluster)
    requires ClusterInv(fleet, c) && InOrder(c') && |c.base.ca| > 0 && c' == c.(gates := c'.gates)
    requires forall g | g in c'.gates :: GateOk(c', c'.gates[g])
    requires
      forall r | r in c.gates && r in c.base.runs ::
        r in c'.gates && c'.gates[r].req == c.gates[r].req && c.gates[r].verified <= c'.gates[r].verified
    ensures ClusterInv(fleet, c')
  {
    SamePods(fleet, c, c');
    SameBaseKeepsInv(fleet, c, c');
  }

  lemma ReadGateKeepsInv(fleet: Fleet, c: Cluster, r: nat, req: Request, c': Cluster)
    requires ClusterInv(fleet, c) && ReadsGate(c, r, req, c') && Permits(ORDERLY, c, ReadGate(r, req))
    ensures ClusterInv(fleet, c')
  {
    ReadGateKeepsOrder(c, r, req, c');
    assert GateOk(c, c'.gates[r]);
    OneGateChanged(c, r, c');
    ChangedGatesKeepInv(fleet, c, c');
  }

  lemma VerifyKeepsInv(fleet: Fleet, c: Cluster, r: nat, d: nat, c': Cluster)
    requires ClusterInv(fleet, c) && Verifies(fleet, c, r, d, c')
    ensures ClusterInv(fleet, c')
  {
    VerifiesKeepsOrder(fleet, c, r, d, c');
    assert GateOk(c, c.gates[r]);
    VerifyKeepsGate(fleet, c, c.gates[r], d);
    OneGateChanged(c, r, c');
    ChangedGatesKeepInv(fleet, c, c');
  }

  lemma VerifiesKeepsOrder(fleet: Fleet, c: Cluster, r: nat, d: nat, c': Cluster)
    requires InOrder(c) && Verifies(fleet, c, r, d, c')
    ensures InOrder(c') && |c.base.ca| > 0
  {
    OlderGatesKeepOrder(c, c');
  }

  lemma OneGateChanged(c: Cluster, r: nat, c': Cluster)
    requires |c.base.ca| > 0 && (forall g | g in c.gates :: GateOk(c, c.gates[g])) && r in c'.gates && GateOk(c, c'.gates[r])
    requires c' == c.(gates := c.gates[r := c'.gates[r]])
    ensures forall g | g in c'.gates :: GateOk(c', c'.gates[g])
  {
    forall g | g in c'.gates
      ensures GateOk(c', c'.gates[g])
    {
      if g != r { assert GateOk(c, c.gates[g]); }
    }
  }

  lemma AbandonKeepsInv(fleet: Fleet, c: Cluster, r: nat, c': Cluster)
    requires ClusterInv(fleet, c) && Abandons(c, r, c')
    ensures ClusterInv(fleet, c')
  {
    OlderGatesKeepOrder(c, c');
    SameGates(c, c');
    ChangedGatesKeepInv(fleet, c, c');
  }

  lemma SamePods(fleet: Fleet, c: Cluster, c': Cluster)
    requires |c.base.ca| > 0 && forall p | p in c.pods :: PodOk(fleet, c, c.pods[p])
    requires c'.base.ca == c.base.ca && c'.pods == c.pods && c'.completed == c.completed
    ensures forall p | p in c'.pods :: PodOk(fleet, c', c'.pods[p])
  {
    forall p | p in c'.pods ensures PodOk(fleet, c', c'.pods[p]) { assert PodOk(fleet, c, c.pods[p]); }
  }

  /** Gates stay as they are when Pods come that have loaded nothing, or go. */
  lemma SameGates(c: Cluster, c': Cluster)
    requires |c.base.ca| > 0 && forall g | g in c.gates :: GateOk(c, c.gates[g])
    requires c'.base.ca == c.base.ca && c'.completed == c.completed
    requires forall g | g in c'.gates :: g in c.gates && c'.gates[g] == c.gates[g]
    requires
      forall p | p in c'.pods :: if p in c.pods then c'.pods[p] == c.pods[p] else c'.pods[p].bundle.None? && c'.pods[p].leaf.None?
    ensures forall g | g in c'.gates :: GateOk(c', c'.gates[g])
  {
    forall g | g in c'.gates ensures GateOk(c', c'.gates[g]) { assert GateOk(c, c.gates[g]); }
  }

  lemma LaunchKeepsInv(fleet: Fleet, c: Cluster, r: nat, req: Request, c': Cluster)
    requires ClusterInv(fleet, c) && Launches(fleet, c, r, req, c')
    ensures ClusterInv(fleet, c')
  {
    StartKeepsInv(fleet.site, c.base, r, req, c'.base);
    LaunchKeepsOrder(fleet, c, r, req, c');
    LaunchedStay(fleet, c, r, req, c');
    OnlyRunsChanged(fleet, c, c');
  }

  lemma LaunchKeepsOrder(fleet: Fleet, c: Cluster, r: nat, req: Request, c': Cluster)
    requires InOrder(c) && Launches(fleet, c, r, req, c')
    ensures InOrder(c')
  {
    OlderGatesKeepOrder(c, c');
  }

  lemma OnlyRunsChanged(fleet: Fleet, c: Cluster, c': Cluster)
    requires ClusterInv(fleet, c) && Inv(fleet.site, c'.base) && InOrder(c') && c' == c.(base := c.base.(runs := c'.base.runs))
    requires forall q | q in c'.base.runs :: Launched(fleet, c', q)
    ensures ClusterInv(fleet, c')
  {
    if |c.base.ca| > 0 {
      SamePods(fleet, c, c');
      SameGates(c, c');
    }
    SameCompleted(c, c');
  }

  lemma LaunchedStay(fleet: Fleet, c: Cluster, r: nat, req: Request, c': Cluster)
    requires Launches(fleet, c, r, req, c') && forall q | q in c.base.runs :: Launched(fleet, c, q)
    ensures forall q | q in c'.base.runs :: Launched(fleet, c', q)
  {
    forall q | q in c'.base.runs
      ensures Launched(fleet, c', q)
    {
      if q != r { assert Launched(fleet, c, q); }
    }
  }

  lemma SameCompleted(c: Cluster, c': Cluster)
    requires CompletedOk(c) && c'.completed == c.completed
    requires c'.base.ca == c.base.ca && c'.base.trust == c.base.trust && c'.base.leaves == c.base.leaves
    ensures CompletedOk(c')
  {
    forall a | a in c'.completed
      ensures exists v: nat :: WitnessedBy(c'.base, a, v)
    {
      var v: nat :| WitnessedBy(c.base, a, v);
      assert WitnessedBy(c'.base, a, v);
    }
  }

  /** What a Pod that loads now gets is compatible with everything known about it. */
  lemma LoadedTrustIsOk(fleet: Fleet, c: Cluster, pod: Pod)
    requires ClusterInv(fleet, c) && SecretsTracked(c) && PodOk(fleet, c, pod)
    ensures PodOk(fleet, c, pod.(bundle := c.base.trust.bundle))
  {
    var now := Latest(c.base);
    if pod.annotation.phase == Prepare && PreparedUnder(now, pod.annotation.id) {
      TrustHasPending(c, pod.annotation.id);
    }
    assert Bundled(c.base.ca[c.base.trust.author], Cur(now)) && Bundled(c.base.ca[c.base.trust.author], Oldest(now));
  }

  lemma LoadedLeafIsOk(fleet: Fleet, c: Cluster, pod: Pod, i: nat)
    requires ClusterInv(fleet, c) && SecretsTracked(c) && PodOk(fleet, c, pod) && i < |c.base.leaves|
    requires c.base.leaves[i].data.pair.Some?
    ensures PodOk(fleet, c, pod.(leaf := Some(Signer(c.base.leaves[i].data))))
  {
    var cell := c.base.leaves[i];
    assert LeafOk(c.base, cell);
    KeptKeyIsBundled(c.base.ca, cell.author, |c.base.ca| - 1);
    HistoryAt(c.base.ca, |c.base.ca| - 1);
    if pod.annotation.phase == Activate && ActivatedUnder(Latest(c.base), pod.annotation.id) {
      LeavesAreCurrent(c, pod.annotation.id);
    }
  }

  /** A gate that passed a Deployment keeps holding when one of its Pods loads. */
  lemma GateSurvivesLoad(fleet: Fleet, c: Cluster, gate: Gate, p: nat, pod': Pod)
    requires ClusterInv(fleet, c) && SecretsTracked(c) && GateOk(c, gate) && p in c.pods
    requires pod'.deployment == c.pods[p].deployment
    requires pod'.bundle == c.pods[p].bundle || pod'.bundle == c.base.trust.bundle
    requires
      || pod'.leaf == c.pods[p].leaf || pod'.leaf.None?
      || exists i :: 0 <= i < |c.base.leaves| && c.base.leaves[i].data.pair.Some? && pod'.leaf == Some(Signer(c.base.leaves[i].data))
    ensures GateOk(c.(pods := c.pods[p := pod']), gate)
  {
    var now := Latest(c.base);
    var id := gate.req.rotationId;
    if gate.verified != {} {
      if gate.req.phase == Activate && PreparedUnder(now, id) {
        TrustHasPending(c, id);
      }
      if gate.req.phase == Retire && ActivatedUnder(now, id) {
        LeavesAreCurrent(c, id);
        forall i | 0 <= i < |c.base.leaves| && c.base.leaves[i].data.pair.Some?
          ensures Signer(c.base.leaves[i].data) == Cur(now)
        {
          assert LeafOk(c.base, c.base.leaves[i]);
          CurGrows(c.base.ca, c.base.leaves[i].author, |c.base.ca| - 1);
        }
      }
    }
  }

  lemma SameBaseKeepsInv(fleet: Fleet, c: Cluster, c': Cluster)
    requires ClusterInv(fleet, c) && c'.base == c.base && c'.completed == c.completed && |c.base.ca| > 0
    requires forall r | r in c'.gates :: GateOk(c', c'.gates[r])
    requires forall p | p in c'.pods :: PodOk(fleet, c', c'.pods[p])
    requires
      forall r | r in c.gates && r in c.base.runs ::
        r in c'.gates && c'.gates[r].req == c.gates[r].req && c.gates[r].verified <= c'.gates[r].verified
    requires InOrder(c')
    ensures ClusterInv(fleet, c')
  {
    forall r | r in c'.base.runs ensures Launched(fleet, c', r) { assert Launched(fleet, c, r); }
    SameCompleted(c, c');
  }

  lemma NewPodsKeepInv(fleet: Fleet, c: Cluster, c': Cluster)
    requires ClusterInv(fleet, c) && |c.base.ca| > 0
    requires c'.base == c.base && c'.gates == c.gates && c'.completed == c.completed
    requires
      forall p | p in c'.pods ::
        if p in c.pods then c'.pods[p] == c.pods[p]
        else c'.pods[p].deployment < fleet.deployments && c'.pods[p].annotation in c.completed && c'.pods[p].bundle.None? && c'.pods[p].leaf.None?
    ensures ClusterInv(fleet, c')
  {
    OlderGatesKeepOrder(c, c');
    SameGates(c, c');
    forall p | p in c'.pods
      ensures PodOk(fleet, c', c'.pods[p])
    {
      if p in c.pods { assert PodOk(fleet, c, c.pods[p]); }
    }
    SameBaseKeepsInv(fleet, c, c');
  }

  /** One Pod loads: what it had, the bundle stored now, or a leaf stored now. */
  lemma LoadKeepsInv(fleet: Fleet, c: Cluster, p: nat, pod': Pod, c': Cluster)
    requires ClusterInv(fleet, c) && SecretsTracked(c) && p in c.pods && c' == c.(pods := c.pods[p := pod'])
    requires PodOk(fleet, c, pod') && pod'.deployment == c.pods[p].deployment
    requires pod'.bundle == c.pods[p].bundle || pod'.bundle == c.base.trust.bundle
    requires
      || pod'.leaf == c.pods[p].leaf || pod'.leaf.None?
      || exists i :: 0 <= i < |c.base.leaves| && c.base.leaves[i].data.pair.Some? && pod'.leaf == Some(Signer(c.base.leaves[i].data))
    ensures ClusterInv(fleet, c')
  {
    OlderGatesKeepOrder(c, c');
    forall r | r in c'.gates ensures GateOk(c', c'.gates[r]) { GateSurvivesLoad(fleet, c, c.gates[r], p, pod'); }
    forall q | q in c'.pods
      ensures PodOk(fleet, c', c'.pods[q])
    {
      if q != p { assert PodOk(fleet, c, c.pods[q]); }
    }
    SameBaseKeepsInv(fleet, c, c');
  }

  lemma LoadTrustKeepsInv(fleet: Fleet, c: Cluster, p: nat, c': Cluster)
    requires ClusterInv(fleet, c) && LoadsTrust(c, p, c')
    ensures ClusterInv(fleet, c')
  {
    assert PodOk(fleet, c, c.pods[p]) && SecretsTracked(c);
    LoadedTrustIsOk(fleet, c, c.pods[p]);
    LoadKeepsInv(fleet, c, p, c'.pods[p], c');
  }

  lemma LoadLeafKeepsInv(fleet: Fleet, c: Cluster, p: nat, c': Cluster)
    requires FleetOk(fleet) && ClusterInv(fleet, c) && LoadsLeaf(fleet, c, p, c')
    ensures ClusterInv(fleet, c')
  {
    assert PodOk(fleet, c, c.pods[p]) && SecretsTracked(c);
    if c'.pods[p].leaf.Some? { LoadedLeafIsOk(fleet, c, c.pods[p], fleet.leafOf[c.pods[p].deployment]); }
    LoadKeepsInv(fleet, c, p, c'.pods[p], c');
  }

  // ---------- steps of runs keep the invariant ----------

  lemma WitnessesGrow(s: State, s': State, a: Annotation)
    requires Grew(s, s') && s'.trust.author < |s'.ca|
    requires exists v: nat :: WitnessedBy(s, a, v)
    ensures exists v: nat :: WitnessedBy(s', a, v)
  {
    var v: nat :| WitnessedBy(s, a, v);
    forall i | 0 <= i < |s'.leaves| ensures Signer(s.leaves[i].data) <= Signer(s'.leaves[i].data) { assert CellGrew(s.leaves[i], s'.leaves[i]); }
    assert WitnessedBy(s', a, v);
  }

  lemma CompletionIsWitnessed(site: Site, s: State, r: nat)
    requires Inv(site, s) && r in s.runs && s.runs[r].progress.Completed?
    ensures s.trust.bundle.Some?
    ensures WitnessedBy(s, Annotation(s.runs[r].req.rotationId, s.runs[r].req.phase), s.runs[r].progress.caVersion)
  {
    assert RunOk(site, s, s.runs[r]);
  }

  /** What the lemmas below need to know of a step of a run. */
  ghost predicate Stepped(fleet: Fleet, c: Cluster, step: Step, c': Cluster) {
    var s, s' := c.base, c'.base;
    && WithStep(c, step, c') && Inv(fleet.site, s') && Grew(s, s')
    && s'.runs.Keys == s.runs.Keys
    && (forall r | r in s.runs :: s'.runs[r].req == s.runs[r].req && (s'.runs[r].progress.Reading? ==> s.runs[r].progress.Reading?))
    && (s'.ca == s.ca || (|s.ca| == 0 && s'.ca == [BLANK_CA]) || (step.WriteCa? && Recorded(s, step.run, s')))
  }

  /** Run `r`, which was still reading, has written a new CA record. */
  predicate Recorded(s: State, r: nat, s': State) {
    && r in s.runs && s.runs[r].progress.Reading? && r in s'.runs
    && |s.ca| > 0 && |s'.ca| == |s.ca| + 1 && s.ca <= s'.ca && s'.trust == s.trust && s'.leaves == s.leaves
    && RecordFor(s'.runs[r].req, Latest(s'))
  }

  lemma StepIsSummed(fleet: Fleet, c: Cluster, step: Step, c': Cluster)
    requires Inv(fleet.site, c.base) && !step.Start? && Next(fleet.site, c.base, step, c'.base) && WithStep(c, step, c')
    ensures Stepped(fleet, c, step, c')
  {
    StepKeepsInv(fleet.site, c.base, step, c'.base);
    StepKeepsRequests(fleet.site, c.base, step, c'.base);
    ReadingEnds(fleet.site, c.base, step, c'.base);
    if step.WriteCa? && c'.base.ca != c.base.ca {
      WriteCaShape(fleet.site, c.base, step.run, c'.base);
    } else {
      OnlyWriteCaAddsRecords(fleet.site, c.base, step, c'.base);
    }
  }

  lemma ProceedKeepsCompleted(fleet: Fleet, c: Cluster, step: Step, c': Cluster)
    requires ClusterInv(fleet, c) && Stepped(fleet, c, step, c')
    ensures CompletedOk(c')
  {
    forall a | a in c'.completed
      ensures exists v: nat :: WitnessedBy(c'.base, a, v)
    {
      if a in c.completed {
        var v: nat :| WitnessedBy(c.base, a, v);
        WitnessesGrow(c.base, c'.base, a);
      } else {
        CompletionIsWitnessed(fleet.site, c'.base, step.run);
      }
    }
    if c.completed != {} {
      assert c'.base.trust.author > 0;
    }
  }

  lemma ProceedKeepsLaunched(fleet: Fleet, c: Cluster, step: Step, c': Cluster)
    requires ClusterInv(fleet, c) && Stepped(fleet, c, step, c')
    ensures forall r | r in c'.base.runs :: Launched(fleet, c', r)
  {
    forall r | r in c'.base.runs ensures Launched(fleet, c', r) { assert Launched(fleet, c, r); }
  }

  // ---------- steps of runs keep the order of phases ----------

  lemma ReadingEnds(site: Site, s: State, step: Step, s': State)
    requires |s.leaves| == |site.dnsNames| && Next(site, s, step, s') && !step.Start?
    ensures s'.runs.Keys == s.runs.Keys
    ensures forall r | r in s.runs && s'.runs[r].progress.Reading? :: s.runs[r].progress.Reading?
  {
  }

  /** No rotation is reopened: a `prepare` that could do so would still be in flight although
      a `retire` of its id was started. */
  lemma NewRecordKeepsIdsFresh(c: Cluster, r: nat, h: History)
    requires InOrder(c) && IsHistory(h) && |h| == |c.base.ca| + 1 && c.base.ca <= h
    requires r in c.base.runs && c.base.runs[r].progress.Reading?
    requires
      var record := h[|h| - 1];
      record.CaRecord? && (record.phase != Stable ==> r in c.gates && Asks(c.gates[r].req, record.phase, record.rotationId))
    ensures FreshIds(h)
  {
    forall v, u | 0 <= u < v < |h| && Opens(h, v) && h[u].CaRecord?
      ensures h[u].rotationId != h[v].rotationId
    {
      if v < |c.base.ca| {
        assert Opens(c.base.ca, v);
      } else if h[u].rotationId == h[v].rotationId {
        HistoryAt(h, v);
        OpenedByDonePrepare(c, h, u, v);
        RetireEndsPrepares(c, r, h[v].rotationId);
      }
    }
  }

  lemma RetireEndsPrepares(c: Cluster, r: nat, id: string)
    requires PreparesDone(c) && RetireStarted(c, id) && r in c.gates && Asks(c.gates[r].req, Prepare, id)
    ensures !InFlight(c, r)
  {
  }

  lemma OpenedByDonePrepare(c: Cluster, h: History, u: nat, v: nat)
    requires RetiresStarted(c) && IsHistory(h) && |h| == |c.base.ca| + 1 && c.base.ca <= h
    requires u < v == |h| - 1 && Opens(h, v) && h[u].CaRecord? && h[u].rotationId == h[v].rotationId != ""
    ensures h[v].phase == Prepare && RetireStarted(c, h[v].rotationId)
  {
    HistoryAt(h, v);
    ReopenedAfterRetire(h, u, v);
    var w :| 0 <= w <= v - 1 && h[w].CaRecord? && h[w].phase == Retire && h[w].rotationId == h[v].rotationId;
    assert c.base.ca[w] == h[w] && RetireStartedAt(c, w);
  }

  lemma OrderAfterRecord(c: Cluster, r: nat, c': Cluster)
    requires InOrder(c) && IsHistory(c'.base.ca) && |c'.base.ca| == |c.base.ca| + 1 && c.base.ca <= c'.base.ca && c'.gates == c.gates
    requires r in c.base.runs && c.base.runs[r].progress.Reading? && c'.base.runs.Keys == c.base.runs.Keys
    requires forall q | q in c.base.runs && c'.base.runs[q].progress.Reading? :: c.base.runs[q].progress.Reading?
    requires
      var record := Latest(c'.base);
      record.CaRecord? && (record.phase != Stable ==> r in c.gates && Asks(c.gates[r].req, record.phase, record.rotationId))
    ensures InOrder(c')
  {
    NewRecordKeepsIdsFresh(c, r, c'.base.ca);
    PreparesStayDone(c, c');
    forall u | 0 <= u < |c'.base.ca|
      ensures RetireStartedAt(c', u)
    {
      if u < |c.base.ca| {
        assert RetireStartedAt(c, u) && c'.base.ca[u] == c.base.ca[u];
        if c.base.ca[u].CaRecord? && c.base.ca[u].phase == Retire { RetireStaysStarted(c, c', c.base.ca[u].rotationId); }
      }
    }
  }

  lemma ProceedKeepsOrder(fleet: Fleet, c: Cluster, step: Step, c': Cluster)
    requires ClusterInv(fleet, c) && Stepped(fleet, c, step, c')
    ensures InOrder(c')
  {
    if |c'.base.ca| > |c.base.ca| > 0 {
      assert Launched(fleet, c, step.run);
      OrderAfterRecord(c, step.run, c');
    } else {
      OrderAfterOtherStep(c, c');
    }
  }

  lemma OrderAfterOtherStep(c: Cluster, c': Cluster)
    requires InOrder(c) && c'.gates == c.gates && c'.base.runs.Keys == c.base.runs.Keys
    requires c'.base.ca == c.base.ca || (|c.base.ca| == 0 && c'.base.ca == [BLANK_CA])
    requires forall q | q in c.base.runs && c'.base.runs[q].progress.Reading? :: c.base.runs[q].progress.Reading?
    ensures InOrder(c')
  {
    PreparesStayDone(c, c');
    if c'.base.ca == c.base.ca { RetiresStayStarted(c, c'); }
  }

  /** A step that leaves the CA Secret alone, or only creates it. */
  lemma SameRecordKeepsInv(fleet: Fleet, c: Cluster, c': Cluster)
    requires ClusterInv(fleet, c) && Inv(fleet.site, c'.base) && Grew(c.base, c'.base) && CompletedOk(c')
    requires c'.gates == c.gates && c'.pods == c.pods && c.completed <= c'.completed
    requires forall r | r in c'.base.runs :: Launched(fleet, c', r)
    requires |c'.base.ca| == |c.base.ca| || (|c.base.ca| == 0 && |c'.base.ca| == 1)
    requires InOrder(c')
    ensures ClusterInv(fleet, c')
  {
    if |c.base.ca| > 0 {
      assert c'.base.ca == c.base.ca;
      forall r | r in c'.gates ensures GateOk(c', c'.gates[r]) { assert GateOk(c, c.gates[r]); }
      forall p | p in c'.pods ensures PodOk(fleet, c', c'.pods[p]) { assert PodOk(fleet, c, c.pods[p]); }
    } else {
      assert c'.completed == {} || (0 < c'.base.trust.author < |c'.base.ca|);
    }
  }

  // ---------- a new CA record ----------

  /** The new record makes the pending CA the active one. */
  predicate IsSwitch(a: CaSecret, b: CaSecret) {
    a.CaRecord? && b.CaRecord? && a.previous.None? && b.previous.Some?
  }

  /** The situation right after run `r` wrote a new CA record. */
  ghost predicate NewRecord(fleet: Fleet, c: Cluster, r: nat, c': Cluster) {
    && FleetOk(fleet) && ClusterInv(fleet, c) && Inv(fleet.site, c'.base)
    && |c.base.ca| > 0 && |c'.base.ca| == |c.base.ca| + 1 && c.base.ca <= c'.base.ca && InOrder(c')
    && c' == c.(base := c'.base)
    && c'.base.trust == c.base.trust && c'.base.leaves == c.base.leaves
    && r in c'.base.runs && Launched(fleet, c', r) && RecordFor(c'.base.runs[r].req, Latest(c'.base))
  }

  /** What one change of the record means for the two keys that it keeps. */
  lemma EvolvedKeys(a: CaSecret, b: CaSecret)
    requires Evolves(a, b)
    ensures a.current.Some? && !IsSwitch(a, b) ==> Cur(b) == Cur(a) && (Oldest(b) == Oldest(a) || Oldest(b) == Cur(a))
    ensures IsSwitch(a, b) ==> a.pending.Some? && Cur(b) == a.pending.value.key && Oldest(b) == Cur(a) && PreparedUnder(a, b.rotationId)
  {
  }

  lemma RunsStarted(fleet: Fleet, c: Cluster)
    requires ClusterInv(fleet, c) && c.completed != {}
    ensures |c.base.ca| > 0 && Latest(c.base).CaRecord? && Latest(c.base).current.Some?
  {
    HistoryAt(c.base.ca, |c.base.ca| - 1);
  }

  lemma NewRecordEvolves(fleet: Fleet, c: Cluster, r: nat, c': Cluster)
    requires NewRecord(fleet, c, r, c')
    ensures Evolves(Latest(c.base), Latest(c'.base)) && FreshIds(c.base.ca) && SecretsTracked(c)
    ensures c.completed != {} ==> Latest(c.base).current.Some?
    ensures
      var a, b := Latest(c.base), Latest(c'.base);
      a.current.Some? && !IsSwitch(a, b) ==> Cur(b) == Cur(a) && (Oldest(b) == Oldest(a) || Oldest(b) == Cur(a))
    ensures
      var a, b := Latest(c.base), Latest(c'.base);
      IsSwitch(a, b) ==> a.pending.Some? && Cur(b) == a.pending.value.key && Oldest(b) == Cur(a) && PreparedUnder(a, b.rotationId)
  {
    HistoryAt(c'.base.ca, |c.base.ca|);
    assert c'.base.ca[|c.base.ca| - 1] == Latest(c.base);
    EvolvedKeys(Latest(c.base), Latest(c'.base));
    if c.completed != {} { RunsStarted(fleet, c); }
  }

  /** The CA is only switched once every Pod that loaded a bundle, and the trust Secret
      itself, hold the new one. */
  lemma SwitchIsCovered(fleet: Fleet, c: Cluster, r: nat, c': Cluster)
    requires NewRecord(fleet, c, r, c') && IsSwitch(Latest(c.base), Latest(c'.base))
    ensures HoldEverywhere(c, Cur(Latest(c'.base)))
    ensures forall p | p in c.pods :: HasPending(Latest(c.base), c.pods[p])
    ensures forall u | c.base.trust.author <= u < |c.base.ca| :: SameCas(c.base.ca[u], Latest(c.base))
    ensures c.completed != {}
  {
    NewRecordEvolves(fleet, c, r, c');
    var gate := c'.gates[r];
    assert GateOk(c, gate) && Launched(fleet, c', r);
    assert 0 in gate.verified;
    TrustHasPending(c, gate.req.rotationId);
    forall p | p in c.pods
      ensures HasPending(Latest(c.base), c.pods[p])
    {
      assert PodOk(fleet, c, c.pods[p]);
    }
  }

  /** The trust Secret and every bundle that a Pod has loaded hold the key. */
  predicate HoldEverywhere(c: Cluster, key: KeyId) {
    && c.base.trust.bundle.Some? && key in c.base.trust.bundle.value
    && forall p | p in c.pods && c.pods[p].bundle.Some? :: key in c.pods[p].bundle.value
  }

  /** The previous CA is only dropped once every Pod serves a leaf of the active one. */
  lemma RetirementIsCovered(fleet: Fleet, c: Cluster, r: nat, c': Cluster)
    requires NewRecord(fleet, c, r, c')
    requires Latest(c.base).CaRecord? && Latest(c.base).previous.Some? && Latest(c'.base).previous.None?
    ensures forall p | p in c.pods :: ServesCurrent(Latest(c.base), c.pods[p])
  {
    NewRecordEvolves(fleet, c, r, c');
    var gate := c'.gates[r];
    assert GateOk(c, gate) && Launched(fleet, c', r);
    assert 0 in gate.verified;
    forall p | p in c.pods
      ensures ServesCurrent(Latest(c.base), c.pods[p])
    {
      assert PodOk(fleet, c, c.pods[p]);
    }
  }

  lemma OldBundleCovers(fleet: Fleet, c: Cluster, r: nat, c': Cluster, u: nat)
    requires NewRecord(fleet, c, r, c') && 0 < u < |c.base.ca| && c'.base.trust.author <= u
    ensures Bundled(c.base.ca[u], Cur(Latest(c'.base))) && Bundled(c.base.ca[u], Oldest(Latest(c'.base)))
  {
    var a, b := Latest(c.base), Latest(c'.base);
    NewRecordEvolves(fleet, c, r, c');
    assert Bundled(c.base.ca[u], Cur(a)) && Bundled(c.base.ca[u], Oldest(a));
    HistoryAt(c.base.ca, |c.base.ca| - 1);
    if IsSwitch(a, b) {
      SwitchIsCovered(fleet, c, r, c');
      assert SameCas(c.base.ca[u], a);
    }
  }

  lemma NewRecordKeepsBundles(fleet: Fleet, c: Cluster, r: nat, c': Cluster)
    requires NewRecord(fleet, c, r, c')
    ensures BundlesCover(c'.base)
  {
    var b := Latest(c'.base);
    HistoryAt(c'.base.ca, |c.base.ca|);
    forall u | 0 < u < |c'.base.ca| && c'.base.trust.author <= u
      ensures Bundled(c'.base.ca[u], Cur(b)) && Bundled(c'.base.ca[u], Oldest(b))
    {
      if u < |c.base.ca| { OldBundleCovers(fleet, c, r, c', u); }
    }
  }

  /** No rotation is re-opened or re-activated under an id that a completed run or a gate
      already stands for. */
  lemma NoStalePhase(fleet: Fleet, c: Cluster, r: nat, c': Cluster, id: string, u: nat)
    requires NewRecord(fleet, c, r, c')
    requires u < |c.base.ca| && c.base.ca[u].CaRecord? && c.base.ca[u].rotationId == id
    ensures PreparedUnder(Latest(c'.base), id) ==> PreparedUnder(Latest(c.base), id) && SameCas(Latest(c.base), Latest(c'.base))
    ensures
      ActivatedUnder(Latest(c'.base), id) && c.base.ca[u].phase != Prepare ==>
        ActivatedUnder(Latest(c.base), id) && SameCas(Latest(c.base), Latest(c'.base))
  {
    var h' := c'.base.ca;
    var v := |c.base.ca|;
    assert h'[u] == c.base.ca[u] && h'[v - 1] == Latest(c.base) && h'[v] == Latest(c'.base);
    if PreparedUnder(h'[v], id) {
      BeforePrepared(h', u, v, id);
    }
    if ActivatedUnder(h'[v], id) && c.base.ca[u].phase != Prepare {
      ActivatedInterval(h', u, v - 1, v, id);
    }
  }

  lemma NewRecordKeepsPod(fleet: Fleet, c: Cluster, r: nat, c': Cluster, p: nat)
    requires NewRecord(fleet, c, r, c') && p in c.pods
    ensures PodOk(fleet, c', c'.pods[p])
  {
    var a, b := Latest(c.base), Latest(c'.base);
    var pod := c.pods[p];
    assert PodOk(fleet, c, pod);
    NewRecordEvolves(fleet, c, r, c');
    if IsSwitch(a, b) {
      SwitchIsCovered(fleet, c, r, c');
    } else if a.previous.Some? && b.previous.None? {
      RetirementIsCovered(fleet, c, r, c');
    }
    if pod.annotation.phase == Prepare || pod.annotation.phase == Activate {
      var v: nat :| WitnessedBy(c.base, pod.annotation, v);
      NoStalePhase(fleet, c, r, c', pod.annotation.id, v);
    }
  }

  lemma NewRecordKeepsGate(fleet: Fleet, c: Cluster, r: nat, c': Cluster, g: nat)
    requires NewRecord(fleet, c, r, c') && g in c.gates
    ensures GateOk(c', c'.gates[g])
  {
    var gate := c.gates[g];
    assert GateOk(c, gate);
    if gate.req.phase == Activate || gate.req.phase == Retire {
      GateSawItsId(c, gate);
      NoStalePhase(fleet, c, r, c', gate.req.rotationId, gate.read);
    }
  }

  lemma NewRecordKeepsInv(fleet: Fleet, c: Cluster, r: nat, c': Cluster)
    requires NewRecord(fleet, c, r, c') && CompletedOk(c')
    requires forall q | q in c'.base.runs :: Launched(fleet, c', q)
    ensures ClusterInv(fleet, c')
  {
    NewRecordKeepsBundles(fleet, c, r, c');
    forall p | p in c'.pods ensures PodOk(fleet, c', c'.pods[p]) { NewRecordKeepsPod(fleet, c, r, c', p); }
    forall g | g in c'.gates ensures GateOk(c', c'.gates[g]) { NewRecordKeepsGate(fleet, c, r, c', g); }
  }

  // ---------- every move, every behaviour ----------

  lemma ProceedKeepsInv(fleet: Fleet, c: Cluster, step: Step, c': Cluster)
    requires FleetOk(fleet) && ClusterInv(fleet, c) && Stepped(fleet, c, step, c')
    ensures ClusterInv(fleet, c')
  {
    ProceedKeepsCompleted(fleet, c, step, c');
    ProceedKeepsLaunched(fleet, c, step, c');
    ProceedKeepsOrder(fleet, c, step, c');
    if |c'.base.ca| > |c.base.ca| > 0 {
      NewRecordKeepsInv(fleet, c, step.run, c');
    } else {
      SameRecordKeepsInv(fleet, c, c');
    }
  }

  lemma OnlyWriteCaAddsRecords(site: Site, s: State, step: Step, s': State)
    requires |s.leaves| == |site.dnsNames| && Next(site, s, step, s') && (!step.WriteCa? || s'.ca == s.ca)
    ensures s'.ca == s.ca || (|s.ca| == 0 && s'.ca == [BLANK_CA])
  {
  }

  lemma MoveKeepsInv(fleet: Fleet, c: Cluster, move: Move, c': Cluster)
    requires FleetOk(fleet) && ClusterInv(fleet, c) && Moves(fleet, c, move, c') && Permits(ORDERLY, c, move)
    ensures ClusterInv(fleet, c')
  {
    match move
    case Proceed(step) =>
      StepIsSummed(fleet, c, step, c');
      ProceedKeepsInv(fleet, c, step, c');
    case Launch(r, req) => LaunchKeepsInv(fleet, c, r, req, c');
    case ReadGate(r, req) => ReadGateKeepsInv(fleet, c, r, req, c');
    case VerifyDeployment(r, d) => VerifyKeepsInv(fleet, c, r, d, c');
    case Abandon(r) => AbandonKeepsInv(fleet, c, r, c');
    case CreatePod(p, d, a) => NewPodsKeepInv(fleet, c, c');
    case RemovePod(p) => NewPodsKeepInv(fleet, c, c');
    case LoadTrust(p) => LoadTrustKeepsInv(fleet, c, p, c');
    case LoadLeaf(p) => LoadLeafKeepsInv(fleet, c, p, c');
  }

  datatype Trace = Trace(states: seq<Cluster>, moves: seq<Move>)

  /** What a cluster may go through under a policy, from a cluster without any Secret. */
  ghost predicate Rollout(fleet: Fleet, policy: Policy, t: Trace) {
    && FleetOk(fleet)
    && |t.states| == |t.moves| + 1
    && ClusterInit(fleet, t.states[0])
    && (forall k | 0 <= k < |t.states| :: |t.states[k].base.leaves| == |fleet.site.dnsNames|)
    && forall k | 0 <= k < |t.moves| :: MovesAt(fleet, policy, t, k)
  }

  ghost predicate MovesAt(fleet: Fleet, policy: Policy, t: Trace, k: nat)
    requires FleetOk(fleet) && k < |t.moves| && |t.states| == |t.moves| + 1 && |t.states[k].base.leaves| == |fleet.site.dnsNames|
  {
    Moves(fleet, t.states[k], t.moves[k], t.states[k + 1]) && Permits(policy, t.states[k], t.moves[k])
  }

  lemma {:induction false} RolloutKeepsInv(fleet: Fleet, t: Trace, k: nat)
    requires Rollout(fleet, ORDERLY, t) && k < |t.states|
    ensures ClusterInv(fleet, t.states[k])
  {
    if k > 0 {
      RolloutKeepsInv(fleet, t, k - 1);
      assert MovesAt(fleet, ORDERLY, t, k - 1);
      MoveKeepsInv(fleet, t.states[k - 1], t.moves[k - 1], t.states[k]);
    }
  }

  // ---------- main results ----------

  /** Under the two rules rotation never breaks trust, over any number of rotations, however
      runs are interleaved, stalled or killed and whenever Pods start, load or go away. */
  lemma RotationNeverBreaksTrust(fleet: Fleet, t: Trace, k: nat)
    requires Rollout(fleet, ORDERLY, t) && k < |t.states|
    ensures Trusting(t.states[k])
  {
    RolloutKeepsInv(fleet, t, k);
    InvIsTrusting(fleet, t.states[k]);
  }

  lemma HistoryInOrder(fleet: Fleet, c: Cluster, id: string)
    requires ClusterInv(fleet, c) && |c.base.ca| > 0
    ensures IsHistory(c.base.ca) && FreshIds(c.base.ca) && Switchings(c.base.ca, id) <= 1
    ensures PendingUnder(Latest(c.base), id) ==> Switchings(c.base.ca, id) == 0
  {
    ActiveCaChangesAtMostOnce(c.base.ca, id);
  }

  /** Under the two rules no rotation is reopened under an id stored before, so the active
      CA changes at most once under an id. */
  lemma EachIdSwitchesOnce(fleet: Fleet, t: Trace, k: nat, id: string)
    requires Rollout(fleet, ORDERLY, t) && k < |t.states| && |t.states[k].base.ca| > 0
    ensures IsHistory(t.states[k].base.ca) && FreshIds(t.states[k].base.ca)
    ensures Switchings(t.states[k].base.ca, id) <= 1
    ensures PendingUnder(Latest(t.states[k].base), id) ==> Switchings(t.states[k].base.ca, id) == 0
  {
    RolloutKeepsInv(fleet, t, k);
    HistoryInOrder(fleet, t.states[k], id);
  }

  /** Under the two rules every bundle between a prepared and an activated version of one id
      holds both CAs of the rotation. */
  lemma RotationBundlesBoth(fleet: Fleet, t: Trace, k: nat, u: nat, x: nat, v: nat, id: string)
    requires Rollout(fleet, ORDERLY, t) && k < |t.states| && u <= x <= v < |t.states[k].base.ca|
    requires PreparedUnder(t.states[k].base.ca[u], id) && ActivatedUnder(t.states[k].base.ca[v], id)
    ensures
      var h := t.states[k].base.ca;
      Bundled(h[x], Cur(h[v])) && Bundled(h[x], Oldest(h[v]))
  {
    RolloutKeepsInv(fleet, t, k);
    RotationKeepsBoth(t.states[k].base.ca, u, x, v, id);
  }

  lemma NewRecordAt(fleet: Fleet, t: Trace, k: nat)
    requires Rollout(fleet, ORDERLY, t) && k < |t.moves| && |t.states[k + 1].base.ca| > |t.states[k].base.ca| > 0
    ensures t.moves[k].Proceed? && t.moves[k].step.WriteCa? && NewRecord(fleet, t.states[k], t.moves[k].step.run, t.states[k + 1])
  {
    var c, c' := t.states[k], t.states[k + 1];
    RolloutKeepsInv(fleet, t, k);
    assert MovesAt(fleet, ORDERLY, t, k) && t.moves[k].Proceed?;
    StepIsSummed(fleet, c, t.moves[k].step, c');
    ProceedKeepsOrder(fleet, c, t.moves[k].step, c');
    ProceedKeepsLaunched(fleet, c, t.moves[k].step, c');
  }

  /** When a run makes the pending CA the active one, every Pod with a bundle holds it, and
      so does the trust Secret. */
  lemma EverySwitchIsCovered(fleet: Fleet, t: Trace, k: nat)
    requires Rollout(fleet, ORDERLY, t) && k < |t.moves|
    requires |t.states[k + 1].base.ca| > |t.states[k].base.ca| > 0
    requires IsSwitch(Latest(t.states[k].base), Latest(t.states[k + 1].base))
    ensures HoldEverywhere(t.states[k], Cur(Latest(t.states[k + 1].base)))
  {
    NewRecordAt(fleet, t, k);
    SwitchIsCovered(fleet, t.states[k], t.moves[k].step.run, t.states[k + 1]);
  }

  /** When a run drops the previous CA, every Pod serves a leaf of the active one. */
  lemma EveryRetirementIsCovered(fleet: Fleet, t: Trace, k: nat)
    requires Rollout(fleet, ORDERLY, t) && k < |t.moves|
    requires |t.states[k + 1].base.ca| > |t.states[k].base.ca| > 0
    requires Latest(t.states[k].base).CaRecord? && Latest(t.states[k].base).previous.Some?
    requires Latest(t.states[k + 1].base).CaRecord? && Latest(t.states[k + 1].base).previous.None?
    ensures forall p | p in t.states[k].pods :: ServesCurrent(Latest(t.states[k].base), t.states[k].pods[p])
  {
    NewRecordAt(fleet, t, k);
    RetirementIsCovered(fleet, t.states[k], t.moves[k].step.run, t.states[k + 1]);
  }
}
