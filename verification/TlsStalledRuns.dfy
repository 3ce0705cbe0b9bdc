/** Why the two rules of `TlsRollout` are needed: the program does not check that a
    rotation is not reopened, so a `prepare` that stalls, or one that comes again, lets a
    stalled `activate` switch to a CA that no consumer has loaded. */
module TlsStalledRuns {
  import opened Outcomes
  import opened InternalTls
  import opened CaHistory
  import opened TlsProtocol
  import opened TlsFencing
  import opened TlsRollout

  /** One Deployment that serves one leaf, and one rotation id. */
  const NAME := "osmo"
  const SITE := Site([NAME], "ns")
  const FLEET := Fleet(SITE, 1, map[0 := 0])
  const ID := "rotation"

  function Asked(phase: Phase, id: string): Request {
    Request(phase, id, "nonce", false, 0)
  }

  function End(t: Trace): Cluster
    requires t.states != []
  {
    t.states[|t.states| - 1]
  }

  lemma Then(policy: Policy, t: Trace, move: Move, c: Cluster) returns (t': Trace)
    requires Rollout(FLEET, policy, t) && |End(t).base.leaves| == 1 == |c.base.leaves|
    requires Moves(FLEET, End(t), move, c) && Permits(policy, End(t), move)
    ensures Rollout(FLEET, policy, t') && End(t') == c
  {
    t' := Trace(t.states + [c], t.moves + [move]);
    forall k | 0 <= k < |t'.moves|
      ensures MovesAt(FLEET, policy, t', k)
    {
      if k < |t.moves| {
        assert MovesAt(FLEET, policy, t, k);
      }
    }
  }

  // ---------- one run without interruption ----------

  lemma ThenStep(policy: Policy, t: Trace, step: Step, s: State) returns (t': Trace)
    requires Rollout(FLEET, policy, t) && |End(t).base.leaves| == 1 == |s.leaves|
    requires !step.Start? && Next(SITE, End(t).base, step, s)
    ensures Rollout(FLEET, policy, t')
    ensures End(t') == End(t).(base := s, completed := End(t).completed + JustCompleted(End(t).base, step, s))
  {
    var c := End(t);
    t' := Then(policy, t, Proceed(step), c.(base := s, completed := c.completed + JustCompleted(c.base, step, s)));
  }

  /** The Secrets as a run sees them, created blank where missing. */
  function Seen(s: State): State
    requires |s.leaves| == 1
  {
    s.(ca := if |s.ca| == 0 then [BLANK_CA] else s.ca,
       trust := if s.trust.version == 0 then s.trust.(version := 1) else s.trust,
       leaves := [if s.leaves[0].version == 0 then s.leaves[0].(version := 1) else s.leaves[0]])
  }

  function ReadBy(s: State, req: Request): Run
    requires |s.leaves| == 1
  {
    var o := Seen(s);
    Run(req, Some(|o.ca| - 1), Some(o.trust.version), map[0 := LeafSeen(o.leaves[0].version, o.leaves[0].data)], Reading)
  }

  predicate Planned(s: State, req: Request, plan: Plan)
    requires |s.leaves| == 1
  {
    && plan.record.CaRecord? && plan.record.current.Some?
    && Decide(SITE, Latest(Seen(s)), [Seen(s).leaves[0].data], req, s.nextKey) == Granted(plan)
  }

  function LeafAfter(leaf: LeafSecret, plan: Plan, req: Request): LeafSecret
    requires plan.record.CaRecord? && plan.record.current.Some?
  {
    if NeedsNewLeaf(SITE, plan, leaf, NAME, req) then NewLeaf(SITE, plan, NAME, req) else leaf
  }

  function CellAfter(cell: LeafCell, plan: Plan, req: Request, author: nat): LeafCell
    requires plan.record.CaRecord? && plan.record.current.Some?
  {
    if NeedsNewLeaf(SITE, plan, cell.data, NAME, req) then LeafCell(cell.version + 1, NewLeaf(SITE, plan, NAME, req), author) else cell
  }

  function AfterRun(s: State, r: nat, req: Request, plan: Plan): State
    requires |s.leaves| == 1 && plan.record.CaRecord? && plan.record.current.Some?
  {
    var o := Seen(s);
    o.(ca := o.ca + [plan.record],
       trust := TrustCell(o.trust.version + 1, Some(BundleOf(plan.record)), |o.ca|),
       leaves := [CellAfter(o.leaves[0], plan, req, |o.ca|)],
       nextKey := s.nextKey + 2,
       runs := s.runs[r := ReadBy(s, req).(progress := Completed(|o.ca|, plan))])
  }

  lemma Observe(policy: Policy, t: Trace, r: nat, req: Request) returns (t': Trace)
    requires Rollout(FLEET, policy, t) && |End(t).base.leaves| == 1 && !req.failIfMissing
    requires r in End(t).base.runs && End(t).base.runs[r] == Run(req, None, None, map[], Reading)
    ensures Rollout(FLEET, policy, t')
    ensures End(t') == End(t).(base := Seen(End(t).base).(runs := End(t).base.runs[r := ReadBy(End(t).base, req)]))
  {
    var s := End(t).base;
    var s1 := ObserveCaStep(s, r);
    t' := ThenStep(policy, t, ObserveCa(r), s1);
    var s2 := ObserveTrustStep(s1, r);
    t' := ThenStep(policy, t', ObserveTrust(r), s2);
    var s3 := ObserveLeafStep(s2, r, 0);
    t' := ThenStep(policy, t', ObserveLeaf(r, 0), s3);
    assert s3.runs[r] == ReadBy(s, req);
    assert s3 == Seen(s).(runs := s.runs[r := ReadBy(s, req)]);
  }

  predicate Ready(s: State, r: nat, run: Run, plan: Plan) {
    && |s.leaves| == 1 && r in s.runs && s.runs[r] == run
    && |s.ca| > 0 && s.leaves[0].version > 0 && s.trust.version > 0
    && run == ReadBy(s, run.req) && Planned(s, run.req, plan)
  }

  function AfterTrust(s: State, r: nat, run: Run, plan: Plan): State
    requires plan.record.CaRecord? && plan.record.current.Some?
  {
    s.(ca := s.ca + [plan.record], nextKey := s.nextKey + 2,
       trust := TrustCell(s.trust.version + 1, Some(BundleOf(plan.record)), |s.ca|),
       runs := s.runs[r := run.(progress := WritingLeaf(|s.ca|, plan, 0))])
  }

  lemma WriteTwo(policy: Policy, t: Trace, r: nat, run: Run, plan: Plan) returns (t': Trace)
    requires Rollout(FLEET, policy, t) && Ready(End(t).base, r, run, plan)
    ensures Rollout(FLEET, policy, t') && End(t') == End(t).(base := AfterTrust(End(t).base, r, run, plan))
  {
    var s := End(t).base;
    assert LeavesSeen(SITE, run) == [s.leaves[0].data];
    var s1 := WriteCaStep(SITE, s, r);
    assert s1.runs[r] == run.(progress := WritingTrust(|s.ca|, plan));
    t' := ThenStep(policy, t, WriteCa(r), s1);
    t' := ThenStep(policy, t', WriteTrust(r), WriteTrustStep(s1, r));
    assert WriteTrustStep(s1, r) == AfterTrust(s, r, run, plan);
  }

  lemma WriteLeaves(policy: Policy, t: Trace, r: nat, run: Run, plan: Plan, next: State) returns (t': Trace)
    requires Rollout(FLEET, policy, t) && |End(t).base.leaves| == 1 && r in End(t).base.runs && End(t).base.runs[r] == run
    requires run.progress.WritingLeaf? && run.progress.next == 0 && run.progress.plan == plan && SawEverything(SITE, run)
    requires plan.record.CaRecord? && plan.record.current.Some?
    requires run.leafSeen[0] == LeafSeen(End(t).base.leaves[0].version, End(t).base.leaves[0].data)
    requires
      var s := End(t).base;
      next == s.(leaves := [CellAfter(s.leaves[0], plan, run.req, run.progress.caVersion)],
                 runs := s.runs[r := run.(progress := Completed(run.progress.caVersion, plan))])
    ensures Rollout(FLEET, policy, t')
    ensures End(t') == End(t).(base := next, completed := End(t).completed + {Annotation(run.req.rotationId, run.req.phase)})
  {
    var s1 := WriteLeafStep(SITE, End(t).base, r);
    assert s1.runs[r] == run.(progress := WritingLeaf(run.progress.caVersion, plan, 1));
    t' := ThenStep(policy, t, WriteLeaf(r), s1);
    var s2 := WriteLeafStep(SITE, s1, r);
    assert s2 == next;
    t' := ThenStep(policy, t', WriteLeaf(r), s2);
  }

  lemma Write(policy: Policy, t: Trace, r: nat, run: Run, plan: Plan) returns (t': Trace)
    requires Rollout(FLEET, policy, t) && Ready(End(t).base, r, run, plan)
    ensures Rollout(FLEET, policy, t')
    ensures
      var c := End(t);
      End(t') == c.(base := AfterRun(c.base, r, run.req, plan), completed := c.completed + {Annotation(run.req.rotationId, run.req.phase)})
  {
    var s := End(t).base;
    t' := WriteTwo(policy, t, r, run, plan);
    var s1 := End(t').base;
    var next := AfterRun(s, r, run.req, plan);
    assert next == s1.(leaves := [CellAfter(s.leaves[0], plan, run.req, |s.ca|)],
                       runs := s1.runs[r := s1.runs[r].(progress := Completed(|s.ca|, plan))]);
    t' := WriteLeaves(policy, t', r, s1.runs[r], plan, next);
  }

  lemma ReadyWhenSeen(s: State, r: nat, req: Request, plan: Plan)
    requires |s.leaves| == 1 && Planned(s, req, plan)
    ensures
      var run := ReadBy(s, req);
      var o := Seen(s).(runs := s.runs[r := run]);
      Ready(o, r, run, plan) && AfterRun(o, r, req, plan) == AfterRun(s, r, req, plan)
  {
    var o := Seen(s).(runs := s.runs[r := ReadBy(s, req)]);
    assert Seen(o) == o && ReadBy(o, req) == ReadBy(s, req);
    assert o.runs[r := ReadBy(s, req).(progress := Completed(|o.ca|, plan))] == s.runs[r := ReadBy(s, req).(progress := Completed(|o.ca|, plan))];
  }

  lemma LaunchRun(policy: Policy, t: Trace, r: nat, req: Request) returns (t': Trace)
    requires Rollout(FLEET, policy, t) && |End(t).base.leaves| == 1 && r !in End(t).base.runs
    requires if r in End(t).gates then End(t).gates[r].req == req && Passed(FLEET, End(t).gates[r]) else req.phase == Stable
    ensures Rollout(FLEET, policy, t')
    ensures End(t') == End(t).(base := End(t).base.(runs := End(t).base.runs[r := Run(req, None, None, map[], Reading)]))
  {
    var s := End(t).base.(runs := End(t).base.runs[r := Run(req, None, None, map[], Reading)]);
    t' := Then(policy, t, Launch(r, req), End(t).(base := s));
  }

  /** A run from its launch to its end, with nothing in between. */
  lemma RunAlone(policy: Policy, t: Trace, r: nat, req: Request, plan: Plan) returns (t': Trace)
    requires Rollout(FLEET, policy, t) && |End(t).base.leaves| == 1 && r !in End(t).base.runs && !req.failIfMissing
    requires if r in End(t).gates then End(t).gates[r].req == req && Passed(FLEET, End(t).gates[r]) else req.phase == Stable
    requires Planned(End(t).base, req, plan)
    ensures Rollout(FLEET, policy, t')
    ensures
      var c := End(t);
      End(t') == c.(base := AfterRun(c.base, r, req, plan), completed := c.completed + {Annotation(req.rotationId, req.phase)})
  {
    var s := End(t).base;
    t' := LaunchRun(policy, t, r, req);
    var started := End(t').base;
    t' := Observe(policy, t', r, req);
    assert Seen(started).(runs := started.runs[r := ReadBy(started, req)]) == Seen(s).(runs := s.runs[r := ReadBy(s, req)]);
    ReadyWhenSeen(s, r, req, plan);
    t' := Write(policy, t', r, ReadBy(s, req), plan);
  }

  // ---------- a cluster with one Pod, between runs ----------

  /** What the trace needs to know of a cluster: the Secrets' contents and the Pods. */
  ghost predicate Scene(c: Cluster, record: CaSecret, leaf: LeafSecret, key: KeyId, pods: map<nat, Pod>) {
    && |c.base.ca| > 0 && Latest(c.base) == record && record.CaRecord? && record.current.Some?
    && |c.base.leaves| == 1 && c.base.leaves[0].data == leaf && c.base.leaves[0].version > 0
    && c.base.nextKey == key && c.base.trust.version > 0 && c.base.trust.bundle == Some(BundleOf(record))
    && c.pods == pods
  }

  function Turns(a: CaSecret, b: CaSecret): nat {
    if a.CaRecord? && b.CaRecord? && b.previous.Some? && b.rotationId == ID && a.previous.None? then 1 else 0
  }

  lemma SceneAfterRun(c: Cluster, r: nat, req: Request, plan: Plan, record: CaSecret, leaf: LeafSecret, key: KeyId, pods: map<nat, Pod>)
    requires Scene(c, record, leaf, key, pods) && plan.record.CaRecord? && plan.record.current.Some?
    ensures
      var c' := c.(base := AfterRun(c.base, r, req, plan), completed := c.completed + {Annotation(req.rotationId, req.phase)});
      && Scene(c', plan.record, LeafAfter(leaf, plan, req), key + 2, pods)
      && c'.base.runs.Keys == c.base.runs.Keys + {r} && c'.base.runs[r].progress.Completed?
      && (forall q | q in c.base.runs && q != r :: c'.base.runs[q] == c.base.runs[q])
      && Switchings(c'.base.ca, ID) == Switchings(c.base.ca, ID) + Turns(record, plan.record)
  {
    SwitchingsOfExtension(c.base.ca, plan.record, ID);
    assert Seen(c.base).ca == c.base.ca;
  }

  lemma RunScene(policy: Policy, t: Trace, r: nat, req: Request, plan: Plan, record: CaSecret, leaf: LeafSecret, key: KeyId, pods: map<nat, Pod>)
    returns (t': Trace)
    requires Rollout(FLEET, policy, t) && Scene(End(t), record, leaf, key, pods) && r !in End(t).base.runs && !req.failIfMissing
    requires if r in End(t).gates then End(t).gates[r] == Gate(req, End(t).gates[r].read, {0}) else req.phase == Stable
    requires Decide(SITE, record, [leaf], req, key) == Granted(plan) && plan.record.CaRecord? && plan.record.current.Some?
    ensures Rollout(FLEET, policy, t') && Scene(End(t'), plan.record, LeafAfter(leaf, plan, req), key + 2, pods)
    ensures End(t').gates == End(t).gates && End(t').completed == End(t).completed + {Annotation(req.rotationId, req.phase)}
    ensures End(t').base.runs.Keys == End(t).base.runs.Keys + {r} && End(t').base.runs[r].progress.Completed?
    ensures forall q | q in End(t).base.runs && q != r :: End(t').base.runs[q] == End(t).base.runs[q]
    ensures Switchings(End(t').base.ca, ID) == Switchings(End(t).base.ca, ID) + Turns(record, plan.record)
  {
    assert [Seen(End(t).base).leaves[0].data] == [leaf] && Seen(End(t).base).ca == End(t).base.ca;
    t' := RunAlone(policy, t, r, req, plan);
    SceneAfterRun(End(t), r, req, plan, record, leaf, key, pods);
  }

  /** Reading the CA Secret at the gate and finding the one Deployment on an allowed phase. */
  lemma PassGate(policy: Policy, t: Trace, r: nat, req: Request, record: CaSecret, leaf: LeafSecret, key: KeyId, p: nat, pod: Pod)
    returns (t': Trace)
    requires Rollout(FLEET, policy, t) && Scene(End(t), record, leaf, key, map[p := pod]) && pod.deployment == 0
    requires r !in End(t).gates && r !in End(t).base.runs && req.phase != Stable && req.rotationId != ""
    requires TransitionGate(record, req).Granted? && AnnotationAllowed(record, req, pod.annotation)
    requires Permits(policy, End(t), ReadGate(r, req))
    ensures Rollout(FLEET, policy, t')
    ensures End(t') == End(t).(gates := End(t).gates[r := Gate(req, |End(t).base.ca| - 1, {0})])
  {
    var c := End(t);
    var c1 := c.(gates := c.gates[r := Gate(req, |c.base.ca| - 1, {})]);
    t' := Then(policy, t, ReadGate(r, req), c1);
    assert p in c1.pods && c1.pods[p].deployment == 0;
    assert DeploymentPasses(c1, c1.gates[r], 0);
    assert {} + {0} == {0};
    var c2 := c.(gates := c.gates[r := Gate(req, |c.base.ca| - 1, {0})]);
    assert c2.gates == c1.gates[r := c1.gates[r].(verified := c1.gates[r].verified + {0})];
    t' := Then(policy, t', VerifyDeployment(r, 0), c2);
  }

  lemma AddPod(policy: Policy, t: Trace, p: nat, a: Annotation) returns (t': Trace)
    requires Rollout(FLEET, policy, t) && |End(t).base.leaves| == 1 && p !in End(t).pods && a in End(t).completed
    ensures Rollout(FLEET, policy, t')
    ensures End(t') == End(t).(pods := End(t).pods[p := Pod(0, a, None, None)])
  {
    t' := Then(policy, t, CreatePod(p, 0, a), End(t).(pods := End(t).pods[p := Pod(0, a, None, None)]));
  }

  /** The Deployment rolls: a rolled Pod starts and loads the trust Secret, the old one goes. */
  lemma Roll(policy: Policy, t: Trace, p: nat, q: nat, a: Annotation, record: CaSecret, leaf: LeafSecret, key: KeyId, pod: Pod) returns (t': Trace)
    requires Rollout(FLEET, policy, t) && Scene(End(t), record, leaf, key, map[p := pod]) && p != q && a in End(t).completed
    ensures Rollout(FLEET, policy, t') && Scene(End(t'), record, leaf, key, map[q := Pod(0, a, Some(BundleOf(record)), None)])
    ensures End(t') == End(t).(pods := map[q := Pod(0, a, Some(BundleOf(record)), None)])
  {
    var c, rolled := End(t), Pod(0, a, Some(BundleOf(record)), None);
    t' := AddPod(policy, t, q, a);
    t' := Then(policy, t', LoadTrust(q), c.(pods := c.pods[q := rolled]));
    assert c.pods[q := rolled] - {p} == map[q := rolled];
    t' := Then(policy, t', RemovePod(p), c.(pods := map[q := rolled]));
  }

  // ---------- the decisions on the way ----------

  function K(key: KeyId): CaPair {
    GenerateCa(key, 0)
  }

  function Idle(key: KeyId, id: string, phase: Phase): CaSecret {
    CaRecord(Some(K(key)), None, None, id, phase)
  }

  function Prepared(key: KeyId, pending: KeyId): CaSecret {
    CaRecord(Some(K(key)), Some(K(pending)), None, ID, Prepare)
  }

  function Activated(key: KeyId, previous: KeyId): CaSecret {
    CaRecord(Some(K(key)), None, Some(K(previous)), ID, Activate)
  }

  lemma StartDecided()
    ensures Decide(SITE, BLANK_CA, [BLANK_LEAF], Asked(Stable, ""), 1) == Granted(Plan(Idle(1, "", Stable), false))
  {
  }

  lemma PrepareDecided(key: KeyId, id: string, phase: Phase, leaf: LeafSecret, spare: KeyId)
    ensures Decide(SITE, Idle(key, id, phase), [leaf], Asked(Prepare, ID), spare) == Granted(Plan(Prepared(key, spare + 1), false))
  {
  }

  lemma ActivateDecided(key: KeyId, pending: KeyId, leaf: LeafSecret, spare: KeyId)
    ensures Decide(SITE, Prepared(key, pending), [leaf], Asked(Activate, ID), spare) == Granted(Plan(Activated(pending, key), true))
  {
  }

  function ForcedLeaf(key: KeyId, previous: KeyId): LeafSecret {
    NewLeaf(SITE, Plan(Activated(key, previous), true), NAME, Asked(Activate, ID))
  }

  lemma RetireDecided(key: KeyId, previous: KeyId, spare: KeyId)
    ensures
      Decide(SITE, Activated(key, previous), [ForcedLeaf(key, previous)], Asked(Retire, ID), spare)
      == Granted(Plan(Idle(key, ID, Retire), false))
    ensures LeafAfter(ForcedLeaf(key, previous), Plan(Idle(key, ID, Retire), false), Asked(Retire, ID)) == ForcedLeaf(key, previous)
  {
    var plan := Plan(Activated(key, previous), true);
    NewLeafMatches(SITE, plan, NAME, Asked(Activate, ID));
    assert LeafMatches(SITE, ForcedLeaf(key, previous), K(key), NAME, 0);
  }

  lemma SettleDecided(key: KeyId, leaf: LeafSecret, spare: KeyId)
    ensures Decide(SITE, Idle(key, ID, Retire), [leaf], Asked(Stable, ID), spare) == Granted(Plan(Idle(key, ID, Stable), false))
  {
  }

  // ---------- the trace ----------

  function PodOn(phase: Phase, bundle: Option<seq<KeyId>>): Pod {
    Pod(0, Annotation(ID, phase), bundle, None)
  }

  // The first rotation, as the only one of an orderly cluster or as the start of a trace that
  // breaks a rule. `stale`: a second `prepare` passes its gate with the first, and stalls.

  lemma Installed(policy: Policy) returns (t: Trace, leaf: LeafSecret)
    ensures Rollout(FLEET, policy, t) && Scene(End(t), Idle(1, "", Stable), leaf, 3, map[10 := Pod(0, Annotation("", Stable), None, None)])
    ensures End(t).gates == map[] && End(t).base.runs.Keys == {1} && |End(t).base.ca| == 2 && Switchings(End(t).base.ca, ID) == 0
  {
    var s := State([], TrustCell(0, None, 0), [LeafCell(0, BLANK_LEAF, 0)], 1, map[]);
    t := Trace([Cluster(s, map[], map[], {})], []);
    var plan := Plan(Idle(1, "", Stable), false);
    StartDecided();
    assert [Seen(s).leaves[0].data] == [BLANK_LEAF] && Latest(Seen(s)) == BLANK_CA;
    t := RunAlone(policy, t, 1, Asked(Stable, ""), plan);
    leaf := LeafAfter(BLANK_LEAF, plan, Asked(Stable, ""));
    assert End(t).base.ca == [BLANK_CA] + [plan.record];
    SwitchingsOfExtension([BLANK_CA], plan.record, ID);
    t := AddPod(policy, t, 10, Annotation("", Stable));
  }

  lemma FirstGates(policy: Policy, stale: bool) returns (t: Trace, leaf: LeafSecret)
    requires stale ==> !policy.drained
    ensures Rollout(FLEET, policy, t) && Scene(End(t), Idle(1, "", Stable), leaf, 3, map[10 := Pod(0, Annotation("", Stable), None, None)])
    ensures End(t).gates.Keys == if !stale then {3} else {2, 3}
    ensures forall r | r in End(t).gates :: End(t).gates[r] == Gate(Asked(Prepare, ID), 1, {0})
    ensures End(t).base.runs.Keys == {1} && Switchings(End(t).base.ca, ID) == 0
  {
    var record, pod := Idle(1, "", Stable), Pod(0, Annotation("", Stable), None, None);
    t, leaf := Installed(policy);
    if stale { t := PassGate(policy, t, 2, Asked(Prepare, ID), record, leaf, 3, 10, pod); }
    t := PassGate(policy, t, 3, Asked(Prepare, ID), record, leaf, 3, 10, pod);
  }

  lemma FirstPrepared(policy: Policy, stale: bool) returns (t: Trace, leaf: LeafSecret)
    requires stale ==> !policy.drained
    ensures Rollout(FLEET, policy, t) && Scene(End(t), Prepared(1, 4), leaf, 5, map[11 := PodOn(Prepare, Some([1, 4]))])
    ensures End(t).gates.Keys == if !stale then {3} else {2, 3}
    ensures forall r | r in End(t).gates :: End(t).gates[r] == Gate(Asked(Prepare, ID), 1, {0})
    ensures End(t).base.runs.Keys == {1, 3} && End(t).base.runs[3].progress.Completed? && Switchings(End(t).base.ca, ID) == 0
  {
    var record, pod, plan := Idle(1, "", Stable), Pod(0, Annotation("", Stable), None, None), Plan(Prepared(1, 4), false);
    t, leaf := FirstGates(policy, stale);
    PrepareDecided(1, "", Stable, leaf, 3);
    t := RunScene(policy, t, 3, Asked(Prepare, ID), plan, record, leaf, 3, map[10 := pod]);
    leaf := LeafAfter(leaf, plan, Asked(Prepare, ID));
    assert BundleOf(plan.record) == [1, 4];
    t := Roll(policy, t, 10, 11, Annotation(ID, Prepare), plan.record, leaf, 5, pod);
  }

  lemma ActivateGates(policy: Policy, stale: bool) returns (t: Trace, leaf: LeafSecret)
    requires stale ==> !policy.drained
    ensures Rollout(FLEET, policy, t) && Scene(End(t), Prepared(1, 4), leaf, 5, map[11 := PodOn(Prepare, Some([1, 4]))])
    ensures End(t).gates.Keys == if !stale then {3, 4, 5} else {2, 3, 4, 5}
    ensures forall r | r in End(t).gates :: End(t).gates[r] == Gate(Asked(if r < 4 then Prepare else Activate, ID), End(t).gates[r].read, {0})
    ensures End(t).base.runs.Keys == {1, 3} && End(t).base.runs[3].progress.Completed? && Switchings(End(t).base.ca, ID) == 0
  {
    t, leaf := FirstPrepared(policy, stale);
    t := PassGate(policy, t, 4, Asked(Activate, ID), Prepared(1, 4), leaf, 5, 11, PodOn(Prepare, Some([1, 4])));
    t := PassGate(policy, t, 5, Asked(Activate, ID), Prepared(1, 4), leaf, 5, 11, PodOn(Prepare, Some([1, 4])));
  }

  lemma FirstActivated(policy: Policy, stale: bool) returns (t: Trace)
    requires stale ==> !policy.drained
    ensures Rollout(FLEET, policy, t) && Scene(End(t), Activated(4, 1), ForcedLeaf(4, 1), 7, map[12 := PodOn(Activate, Some([4, 1]))])
    ensures End(t).gates.Keys == if !stale then {3, 4, 5} else {2, 3, 4, 5}
    ensures forall r | r in End(t).gates :: End(t).gates[r] == Gate(Asked(if r < 4 then Prepare else Activate, ID), End(t).gates[r].read, {0})
    ensures End(t).base.runs.Keys == {1, 3, 5} && End(t).base.runs[3].progress.Completed? && Switchings(End(t).base.ca, ID) == 1
    ensures Annotation(ID, Activate) in End(t).completed
  {
    var leaf;
    t, leaf := ActivateGates(policy, stale);
    var pod, plan := PodOn(Prepare, Some([1, 4])), Plan(Activated(4, 1), true);
    ActivateDecided(1, 4, leaf, 5);
    t := RunScene(policy, t, 5, Asked(Activate, ID), plan, Prepared(1, 4), leaf, 5, map[11 := pod]);
    assert BundleOf(plan.record) == [4, 1];
    t := Roll(policy, t, 11, 12, Annotation(ID, Activate), plan.record, ForcedLeaf(4, 1), 7, pod);
  }

  lemma RetireGate(policy: Policy, stale: bool) returns (t: Trace)
    requires stale ==> !policy.drained
    ensures Rollout(FLEET, policy, t) && Scene(End(t), Activated(4, 1), ForcedLeaf(4, 1), 7, map[12 := PodOn(Activate, Some([4, 1]))])
    ensures End(t).gates.Keys == if !stale then {3, 4, 5, 6} else {2, 3, 4, 5, 6}
    ensures End(t).gates[4] == Gate(Asked(Activate, ID), End(t).gates[4].read, {0})
    ensures End(t).gates[6] == Gate(Asked(Retire, ID), End(t).gates[6].read, {0})
    ensures stale ==> End(t).gates[2] == Gate(Asked(Prepare, ID), End(t).gates[2].read, {0})
    ensures End(t).base.runs.Keys == {1, 3, 5} && Switchings(End(t).base.ca, ID) == 1
    ensures Annotation(ID, Activate) in End(t).completed
  {
    t := FirstActivated(policy, stale);
    t := PassGate(policy, t, 6, Asked(Retire, ID), Activated(4, 1), ForcedLeaf(4, 1), 7, 12, PodOn(Activate, Some([4, 1])));
  }

  lemma FirstRetired(policy: Policy, stale: bool) returns (t: Trace)
    requires stale ==> !policy.drained
    ensures Rollout(FLEET, policy, t) && Scene(End(t), Idle(4, ID, Retire), ForcedLeaf(4, 1), 9, map[13 := PodOn(Retire, Some([4]))])
    ensures End(t).gates.Keys == if !stale then {3, 4, 5, 6} else {2, 3, 4, 5, 6}
    ensures End(t).gates[4] == Gate(Asked(Activate, ID), End(t).gates[4].read, {0})
    ensures stale ==> End(t).gates[2] == Gate(Asked(Prepare, ID), End(t).gates[2].read, {0})
    ensures End(t).base.runs.Keys == {1, 3, 5, 6} && Switchings(End(t).base.ca, ID) == 1
    ensures Annotation(ID, Activate) in End(t).completed
  {
    t := RetireGate(policy, stale);
    var pod, plan := PodOn(Activate, Some([4, 1])), Plan(Idle(4, ID, Retire), false);
    RetireDecided(4, 1, 7);
    t := RunScene(policy, t, 6, Asked(Retire, ID), plan, Activated(4, 1), ForcedLeaf(4, 1), 7, map[12 := pod]);
    assert BundleOf(plan.record) == [4];
    t := Roll(policy, t, 12, 13, Annotation(ID, Retire), plan.record, ForcedLeaf(4, 1), 9, pod);
  }

  /** A rotation under both rules, from the installation to its retirement, while a second
      `activate` stalls behind its gate. */
  lemma OrderlyRotation() returns (t: Trace)
    ensures Rollout(FLEET, ORDERLY, t) && Switchings(End(t).base.ca, ID) == 1
    ensures Latest(End(t).base) == Idle(4, ID, Retire) && End(t).pods == map[13 := PodOn(Retire, Some([4]))]
  {
    t := FirstRetired(ORDERLY, false);
  }

  // ---------- the second rotation under the same id ----------

  /** `late`: the second `prepare` is started after the retirement; otherwise it is started
      before and stalls. Either breaks one of the two rules and keeps the other. */
  function Broken(late: bool): Policy {
    Policy(!late, late)
  }

  /** The same id again: the retired rotation is settled and a `prepare` passes its gate. */
  lemma StartedAgain() returns (t: Trace, leaf: LeafSecret)
    ensures Rollout(FLEET, Broken(true), t) && Scene(End(t), Idle(4, ID, Stable), leaf, 11, map[14 := PodOn(Stable, Some([4]))])
    ensures End(t).gates.Keys == {2, 3, 4, 5, 6} && End(t).base.runs.Keys == {1, 3, 5, 6, 7}
    ensures End(t).gates[2] == Gate(Asked(Prepare, ID), End(t).gates[2].read, {0})
    ensures End(t).gates[4] == Gate(Asked(Activate, ID), End(t).gates[4].read, {0})
    ensures Switchings(End(t).base.ca, ID) == 1 && Annotation(ID, Activate) in End(t).completed
  {
    var policy := Broken(true);
    t := FirstRetired(policy, false);
    var record, plan, pod := Idle(4, ID, Retire), Plan(Idle(4, ID, Stable), false), PodOn(Retire, Some([4]));
    SettleDecided(4, ForcedLeaf(4, 1), 9);
    t := RunScene(policy, t, 7, Asked(Stable, ID), plan, record, ForcedLeaf(4, 1), 9, map[13 := pod]);
    leaf := LeafAfter(ForcedLeaf(4, 1), plan, Asked(Stable, ID));
    assert BundleOf(plan.record) == [4];
    t := Roll(policy, t, 13, 14, Annotation(ID, Stable), plan.record, leaf, 11, pod);
    t := PassGate(policy, t, 2, Asked(Prepare, ID), plan.record, leaf, 11, 14, PodOn(Stable, Some([4])));
  }

  /** The second `prepare` has passed its gate and finds the first rotation retired. */
  lemma Reopening(late: bool) returns (t: Trace, phase: Phase, leaf: LeafSecret, key: KeyId, p: nat, pod: Pod)
    ensures Rollout(FLEET, Broken(late), t) && Scene(End(t), Idle(4, ID, phase), leaf, key, map[p := pod])
    ensures key >= 9 && p < 20 && pod.bundle == Some([4])
    ensures 2 in End(t).gates && 4 in End(t).gates && 2 !in End(t).base.runs && 4 !in End(t).base.runs
    ensures End(t).gates[2] == Gate(Asked(Prepare, ID), End(t).gates[2].read, {0})
    ensures End(t).gates[4] == Gate(Asked(Activate, ID), End(t).gates[4].read, {0})
    ensures Switchings(End(t).base.ca, ID) == 1 && Annotation(ID, Activate) in End(t).completed
  {
    if late {
      t, leaf := StartedAgain();
      phase, key, p, pod := Stable, 11, 14, PodOn(Stable, Some([4]));
    } else {
      t := FirstRetired(Broken(false), true);
      phase, leaf, key, p, pod := Retire, ForcedLeaf(4, 1), 9, 13, PodOn(Retire, Some([4]));
    }
  }

  lemma SecondActivated(late: bool) returns (t: Trace, key: KeyId, leaf: LeafSecret, p: nat, pod: Pod)
    ensures Rollout(FLEET, Broken(late), t) && Scene(End(t), Activated(key, 4), leaf, key + 3, map[p := pod])
    ensures key > 9 && p < 20 && pod.bundle == Some([4]) && leaf.pair.Some? && Signer(leaf) == key
    ensures Switchings(End(t).base.ca, ID) == 2 && Annotation(ID, Activate) in End(t).completed
  {
    var phase, spare;
    t, phase, leaf, spare, p, pod := Reopening(late);
    key := spare + 1;
    PrepareDecided(4, ID, phase, leaf, spare);
    var reopened := Plan(Prepared(4, key), false);
    t := RunScene(Broken(late), t, 2, Asked(Prepare, ID), reopened, Idle(4, ID, phase), leaf, spare, map[p := pod]);
    leaf := LeafAfter(leaf, reopened, Asked(Prepare, ID));
    ActivateDecided(4, key, leaf, spare + 2);
    var switched := Plan(Activated(key, 4), true);
    t := RunScene(Broken(late), t, 4, Asked(Activate, ID), switched, reopened.record, leaf, spare + 2, map[p := pod]);
    leaf := LeafAfter(leaf, switched, Asked(Activate, ID));
  }

  /** Keeping either rule alone is not enough. The `prepare` reopens the retired rotation,
      the stalled `activate` switches to the CA it generated, and a new Pod serves a leaf
      that the Pod there before cannot verify: the active CA changed twice under one id. */
  lemma ReopenedRotationBreaksTrust(late: bool) returns (t: Trace)
    ensures Rollout(FLEET, Broken(late), t)
    ensures !Trusting(End(t)) && Switchings(End(t).base.ca, ID) == 2
  {
    var key, leaf, p, pod;
    t, key, leaf, p, pod := SecondActivated(late);
    t := AddPod(Broken(late), t, 20, Annotation(ID, Activate));
    var served := Pod(0, Annotation(ID, Activate), None, Some(key));
    t := Then(Broken(late), t, LoadLeaf(20), End(t).(pods := End(t).pods[20 := served]));
    assert End(t).pods[20].leaf == Some(key) && End(t).pods[p].bundle == Some([4]);
  }

  // ---------- both rules, and no less ----------

  predicate Implies(a: Policy, b: Policy) {
    (b.idsOnce ==> a.idsOnce) && (b.drained ==> a.drained)
  }

  lemma RolloutOfStricter(fleet: Fleet, a: Policy, b: Policy, t: Trace)
    requires Implies(a, b) && Rollout(fleet, a, t)
    ensures Rollout(fleet, b, t)
  {
    forall k | 0 <= k < |t.moves| ensures MovesAt(fleet, b, t, k) { assert MovesAt(fleet, a, t, k); }
  }

  ghost predicate KeepsTrust(policy: Policy) {
    forall fleet: Fleet, t: Trace, k: nat | Rollout(fleet, policy, t) && k < |t.states| :: Trusting(t.states[k])
  }

  /** Trust is kept in every rollout under a policy exactly when it has both rules. */
  lemma TrustNeedsBothRules(policy: Policy)
    ensures KeepsTrust(policy) <==> policy == ORDERLY
  {
    if policy == ORDERLY {
      forall fleet: Fleet, t: Trace, k: nat | Rollout(fleet, policy, t) && k < |t.states|
        ensures Trusting(t.states[k])
      {
        RotationNeverBreaksTrust(fleet, t, k);
      }
    } else {
      var t := ReopenedRotationBreaksTrust(!policy.idsOnce);
      RolloutOfStricter(FLEET, Broken(!policy.idsOnce), policy, t);
      assert !Trusting(t.states[|t.states| - 1]);
    }
  }
}
