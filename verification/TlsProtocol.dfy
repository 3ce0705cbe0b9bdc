/** Any number of `reconcile` runs of src/utils/internal_tls_bootstrap.py, interleaved
    call by call. Every API read, create and replace is one step; a run may stop after any
    step. Nothing restricts which runs are started, nor how long one stalls. */
module TlsProtocol {
  import opened Outcomes
  import opened InternalTls
  import opened CaHistory

  /** The trust Secret. `version` counts its writes, 0 while it does not exist; `author` is
      the CA version of the run that wrote `bundle`, 0 while it is blank. */
  datatype TrustCell = TrustCell(version: nat, bundle: Option<seq<KeyId>>, author: nat)

  datatype LeafCell = LeafCell(version: nat, data: LeafSecret, author: nat)

  /** What a run remembers of a leaf Secret it read. */
  datatype LeafSeen = LeafSeen(version: nat, data: LeafSecret)

  /** How far a run got: still reading, or past its CA write (`caVersion` is the version
      it wrote) with the trust Secret and then leaf 0, 1, ... to write. */
  datatype Progress =
    | Reading
    | WritingTrust(caVersion: nat, plan: Plan)
    | WritingLeaf(caVersion: nat, plan: Plan, next: nat)
    | Completed(caVersion: nat, plan: Plan)
    | Stopped

  datatype Run = Run(req: Request, caSeen: Option<nat>, trustSeen: Option<nat>, leafSeen: map<nat, LeafSeen>, progress: Progress)

  /** The CA Secret is kept with its whole history; its version is the last index. */
  datatype State = State(ca: History, trust: TrustCell, leaves: seq<LeafCell>, nextKey: KeyId, runs: map<nat, Run>)

  predicate Init(site: Site, s: State) {
    && s.ca == []
    && s.trust == TrustCell(0, None, 0)
    && |s.leaves| == |site.dnsNames|
    && (forall i | 0 <= i < |s.leaves| :: s.leaves[i] == LeafCell(0, BLANK_LEAF, 0))
    && s.nextKey == 1
    && s.runs == map[]
  }

  function Latest(s: State): CaSecret
    requires |s.ca| > 0
  {
    s.ca[|s.ca| - 1]
  }

  // ---------- steps ----------

  datatype Step =
    | Start(run: nat, req: Request)
    | ObserveCa(run: nat)
    | ObserveTrust(run: nat)
    | ObserveLeaf(run: nat, leaf: nat)
    | WriteCa(run: nat)
    | WriteTrust(run: nat)
    | WriteLeaf(run: nat)
    | Stop(run: nat)

  /** A run has read every Secret it needs. */
  predicate SawEverything(site: Site, run: Run) {
    && run.caSeen.Some? && run.trustSeen.Some?
    && forall i | 0 <= i < |site.dnsNames| :: i in run.leafSeen
  }

  function LeavesSeen(site: Site, run: Run): (leaves: seq<LeafSecret>)
    requires SawEverything(site, run)
    ensures |leaves| == |site.dnsNames|
  {
    seq(|site.dnsNames|, i requires 0 <= i < |site.dnsNames| => run.leafSeen[i].data)
  }

  /** Looking at a Secret: read it, or create it blank when it is missing and the request
      allows that. The order in which a run looks at Secrets is left open: the program reads
      all of them first and then creates the missing ones, re-reading on a conflict. */
  function ObserveCaStep(s: State, r: nat): State
    requires r in s.runs
  {
    var run := s.runs[r];
    if |s.ca| == 0 && run.req.failIfMissing then
      s.(runs := s.runs[r := run.(progress := Stopped)])
    else
      var ca := if |s.ca| == 0 then [BLANK_CA] else s.ca;
      s.(ca := ca, runs := s.runs[r := run.(caSeen := Some(|ca| - 1))])
  }

  function ObserveTrustStep(s: State, r: nat): State
    requires r in s.runs
  {
    var run := s.runs[r];
    if s.trust.version == 0 && run.req.failIfMissing then
      s.(runs := s.runs[r := run.(progress := Stopped)])
    else
      var trust := if s.trust.version == 0 then s.trust.(version := 1) else s.trust;
      s.(trust := trust, runs := s.runs[r := run.(trustSeen := Some(trust.version))])
  }

  function ObserveLeafStep(s: State, r: nat, i: nat): State
    requires r in s.runs && i < |s.leaves|
  {
    var run := s.runs[r];
    if s.leaves[i].version == 0 && run.req.failIfMissing then
      s.(runs := s.runs[r := run.(progress := Stopped)])
    else
      var cell := if s.leaves[i].version == 0 then s.leaves[i].(version := 1) else s.leaves[i];
      s.(leaves := s.leaves[i := cell],
         runs := s.runs[r := run.(leafSeen := run.leafSeen[i := LeafSeen(cell.version, cell.data)])])
  }

  /** Decide on what was read, then replace the CA Secret if it is still the one read. */
  function WriteCaStep(site: Site, s: State, r: nat): State
    requires r in s.runs && SawEverything(site, s.runs[r]) && s.runs[r].caSeen.value < |s.ca|
  {
    var run := s.runs[r];
    var plan := Decide(site, s.ca[run.caSeen.value], LeavesSeen(site, run), run.req, s.nextKey);
    if plan.Refused? || run.caSeen.value != |s.ca| - 1 then
      s.(nextKey := s.nextKey + 2, runs := s.runs[r := run.(progress := Stopped)])
    else
      s.(ca := s.ca + [plan.value.record], nextKey := s.nextKey + 2,
         runs := s.runs[r := run.(progress := WritingTrust(|s.ca|, plan.value))])
  }

  function WriteTrustStep(s: State, r: nat): State
    requires r in s.runs && s.runs[r].progress.WritingTrust? && s.runs[r].trustSeen.Some?
    requires var record := s.runs[r].progress.plan.record; record.CaRecord? && record.current.Some?
  {
    var run := s.runs[r];
    var WritingTrust(caVersion, plan) := run.progress;
    if run.trustSeen.value != s.trust.version then
      s.(runs := s.runs[r := run.(progress := Stopped)])
    else
      s.(trust := TrustCell(s.trust.version + 1, Some(BundleOf(plan.record)), caVersion),
         runs := s.runs[r := run.(progress := WritingLeaf(caVersion, plan, 0))])
  }

  /** One turn of the leaf loop: skip a leaf that is fine, else replace it if unchanged. */
  function WriteLeafStep(site: Site, s: State, r: nat): State
    requires r in s.runs && s.runs[r].progress.WritingLeaf? && SawEverything(site, s.runs[r])
    requires |s.leaves| == |site.dnsNames|
    requires var record := s.runs[r].progress.plan.record; record.CaRecord? && record.current.Some?
  {
    var run := s.runs[r];
    var WritingLeaf(caVersion, plan, i) := run.progress;
    if i >= |site.dnsNames| then
      s.(runs := s.runs[r := run.(progress := Completed(caVersion, plan))])
    else
      var moved := s.(runs := s.runs[r := run.(progress := WritingLeaf(caVersion, plan, i + 1))]);
      if !NeedsNewLeaf(site, plan, run.leafSeen[i].data, site.dnsNames[i], run.req) then
        moved
      else if run.leafSeen[i].version != s.leaves[i].version then
        s.(runs := s.runs[r := run.(progress := Stopped)])
      else
        moved.(leaves := s.leaves[i := LeafCell(s.leaves[i].version + 1, NewLeaf(site, plan, site.dnsNames[i], run.req), caVersion)])
  }

  predicate Starts(s: State, r: nat, req: Request, s': State) {
    r !in s.runs && s' == s.(runs := s.runs[r := Run(req, None, None, map[], Reading)])
  }

  ghost predicate Next(site: Site, s: State, step: Step, s': State)
    requires |s.leaves| == |site.dnsNames|
  {
    match step
    case Start(r, req) => Starts(s, r, req, s')
    case ObserveCa(r) => r in s.runs && s.runs[r].progress.Reading? && s.runs[r].caSeen.None? && s' == ObserveCaStep(s, r)
    case ObserveTrust(r) => r in s.runs && s.runs[r].progress.Reading? && s.runs[r].trustSeen.None? && s' == ObserveTrustStep(s, r)
    case ObserveLeaf(r, i) =>
      r in s.runs && s.runs[r].progress.Reading? && i < |s.leaves| && i !in s.runs[r].leafSeen && s' == ObserveLeafStep(s, r, i)
    case WriteCa(r) =>
      && r in s.runs && s.runs[r].progress.Reading? && SawEverything(site, s.runs[r])
      && s.runs[r].caSeen.value < |s.ca| && s' == WriteCaStep(site, s, r)
    case WriteTrust(r) =>
      && r in s.runs && s.runs[r].progress.WritingTrust? && s.runs[r].trustSeen.Some?
      && s.runs[r].progress.plan.record.CaRecord? && s.runs[r].progress.plan.record.current.Some?
      && s' == WriteTrustStep(s, r)
    case WriteLeaf(r) =>
      && r in s.runs && s.runs[r].progress.WritingLeaf? && SawEverything(site, s.runs[r])
      && s.runs[r].progress.plan.record.CaRecord? && s.runs[r].progress.plan.record.current.Some?
      && s' == WriteLeafStep(site, s, r)
    case Stop(r) => r in s.runs && s' == s.(runs := s.runs[r := s.runs[r].(progress := Stopped)])
  }
}
