/** Compare-and-swap fencing: whatever runs interleave, stall or stop, a written leaf
    Secret is signed by a CA of the trust Secret after every single API call. */
module TlsFencing {
  import opened Outcomes
  import opened InternalTls
  import opened CaHistory
  import opened TlsProtocol

  /** The key a leaf Secret is signed by; 0 while it holds no certificate. */
  function Signer(leaf: LeafSecret): KeyId {
    if leaf.pair.Some? then leaf.pair.value.signer else 0
  }

  predicate LeafOk(s: State, cell: LeafCell) {
    && (cell.version == 0 ==> cell.data == BLANK_LEAF)
    && (cell.data.pair.None? ==> cell.data == BLANK_LEAF && cell.author == 0)
    && (cell.data.pair.Some? ==>
      && 0 < cell.author <= s.trust.author < |s.ca|
      && Signer(cell.data) == Cur(s.ca[cell.author])
      && Oldest(Latest(s)) <= Signer(cell.data))
  }

  predicate SecretsOk(site: Site, s: State) {
    && |s.leaves| == |site.dnsNames|
    && IsHistory(s.ca)
    && 1 <= s.nextKey
    && (|s.ca| > 0 ==> KeysBelow(Latest(s), s.nextKey))
    && (s.trust.bundle.None? ==> s.trust.author == 0)
    && (s.trust.version == 0 ==> s.trust.bundle.None?)
    && (s.trust.bundle.Some? ==>
      && 0 < s.trust.author < |s.ca| && s.ca[s.trust.author].CaRecord? && s.ca[s.trust.author].current.Some?
      && s.trust.bundle.value == BundleOf(s.ca[s.trust.author]))
    && forall i | 0 <= i < |s.leaves| :: LeafOk(s, s.leaves[i])
  }

  predicate SeenOk(seen: LeafSeen, cell: LeafCell) {
    && 0 < seen.version <= cell.version
    && (seen.version == cell.version ==> seen.data == cell.data)
    && Signer(seen.data) <= Signer(cell.data)
  }

  /** A run past CA write `v` whose view of leaf `i` is current is newer than the leaf, and
      its CA is one that the latest record still keeps. */
  predicate Fenced(s: State, run: Run, v: nat, i: nat)
    requires i < |s.leaves| && i in run.leafSeen && v < |s.ca|
  {
    run.leafSeen[i].version == s.leaves[i].version ==> s.leaves[i].author < v && Oldest(Latest(s)) <= Cur(s.ca[v])
  }

  /** CA version `v` is what the run wrote, for the phase and id it was asked for. */
  predicate PlanOk(s: State, req: Request, v: nat, plan: Plan) {
    0 < v < |s.ca| && s.ca[v] == plan.record && RecordFor(req, plan.record)
  }

  predicate RecordFor(req: Request, record: CaSecret) {
    && record.CaRecord? && record.current.Some?
    && record.phase == req.phase
    && (req.phase != Stable ==> record.rotationId == req.rotationId)
  }

  predicate ProgressOk(site: Site, s: State, run: Run)
    requires |s.leaves| == |site.dnsNames|
  {
    match run.progress
    case Reading => true
    case Stopped => true
    case WritingTrust(v, plan) =>
      && SawEverything(site, run) && PlanOk(s, run.req, v, plan)
      && (run.trustSeen.value == s.trust.version ==> s.trust.author < v)
      && forall i | 0 <= i < |s.leaves| :: Fenced(s, run, v, i)
    case WritingLeaf(v, plan, next) =>
      && SawEverything(site, run) && PlanOk(s, run.req, v, plan) && v <= s.trust.author && next <= |s.leaves|
      && (forall i | next <= i < |s.leaves| :: Fenced(s, run, v, i))
      && forall i | 0 <= i < next :: Cur(s.ca[v]) <= Signer(s.leaves[i].data)
    case Completed(v, plan) =>
      && PlanOk(s, run.req, v, plan) && v <= s.trust.author
      && forall i | 0 <= i < |s.leaves| :: Cur(s.ca[v]) <= Signer(s.leaves[i].data)
  }

  predicate RunOk(site: Site, s: State, run: Run)
    requires |s.leaves| == |site.dnsNames|
  {
    && (run.caSeen.Some? ==> run.caSeen.value < |s.ca|)
    && (run.trustSeen.Some? ==> 0 < run.trustSeen.value <= s.trust.version)
    && (forall i | i in run.leafSeen :: i < |s.leaves| && SeenOk(run.leafSeen[i], s.leaves[i]))
    && ProgressOk(site, s, run)
  }

  predicate Inv(site: Site, s: State) {
    SecretsOk(site, s) && forall r | r in s.runs :: RunOk(site, s, s.runs[r])
  }

  // ---------- what one step may do to the Secrets ----------

  predicate CellGrew(c: LeafCell, c': LeafCell) {
    && c.version <= c'.version
    && (c.version == c'.version ==> c == c')
    && Signer(c.data) <= Signer(c'.data)
  }

  predicate Grew(s: State, s': State) {
    && s.ca <= s'.ca
    && s.trust.version <= s'.trust.version
    && s.trust.author <= s'.trust.author
    && (s.trust.version == s'.trust.version ==> s.trust == s'.trust)
    && |s.leaves| == |s'.leaves|
    && forall i | 0 <= i < |s.leaves| :: CellGrew(s.leaves[i], s'.leaves[i])
  }

  /** A run that did not move keeps its invariant, provided its fences survive a new CA
      record. */
  lemma OtherRunsKeepOk(site: Site, s: State, s': State, run: Run)
    requires SecretsOk(site, s) && RunOk(site, s, run)
    requires Grew(s, s') && FencesSurvive(s, s')
    ensures RunOk(site, s', run)
  {
    forall i | i in run.leafSeen
      ensures i < |s'.leaves| && SeenOk(run.leafSeen[i], s'.leaves[i])
    {
      assert CellGrew(s.leaves[i], s'.leaves[i]);
    }
    if !run.progress.Reading? && !run.progress.Stopped? {
      forall i | 0 <= i < |s.leaves|
        ensures CellGrew(s.leaves[i], s'.leaves[i])
      {
      }
      if !run.progress.Completed? {
        var v := run.progress.caVersion;
        var from := if run.progress.WritingLeaf? then run.progress.next else 0;
        forall i | from <= i < |s.leaves|
          ensures Fenced(s', run, v, i)
        {
          assert Fenced(s, run, v, i);
          assert CellGrew(s.leaves[i], s'.leaves[i]);
        }
      }
    }
  }

  predicate FencesSurvive(s: State, s': State) {
    |s'.ca| > |s.ca| && |s.ca| > 0 ==>
      forall i, v | 0 <= i < |s.leaves| && 0 < v < |s.ca| && s.leaves[i].author < v && Oldest(Latest(s)) <= Cur(s.ca[v]) ::
        Oldest(Latest(s')) <= Cur(s.ca[v])
  }

  /** A step of run `r` keeps the invariant if it does so for the Secrets and for `r`. */
  lemma OneRunMoved(site: Site, s: State, r: nat, s': State)
    requires Inv(site, s) && Grew(s, s') && FencesSurvive(s, s')
    requires SecretsOk(site, s') && r in s'.runs && RunOk(site, s', s'.runs[r])
    requires s'.runs == s.runs[r := s'.runs[r]]
    ensures Inv(site, s')
  {
    forall q | q in s'.runs
      ensures RunOk(site, s', s'.runs[q])
    {
      if q != r {
        OtherRunsKeepOk(site, s, s', s.runs[q]);
      }
    }
  }

  // ---------- the steps, one by one ----------

  lemma SameSecretsKeepOk(site: Site, s: State, s': State)
    requires SecretsOk(site, s)
    requires s'.ca == s.ca && s'.trust == s.trust && s'.leaves == s.leaves && s.nextKey <= s'.nextKey
    ensures SecretsOk(site, s') && Grew(s, s') && FencesSurvive(s, s')
  {
    forall i | 0 <= i < |s'.leaves| ensures LeafOk(s', s'.leaves[i]) { assert LeafOk(s, s.leaves[i]); }
  }

  lemma StartKeepsInv(site: Site, s: State, r: nat, req: Request, s': State)
    requires Inv(site, s) && Starts(s, r, req, s')
    ensures Inv(site, s') && Grew(s, s')
  {
    SameSecretsKeepOk(site, s, s');
    OneRunMoved(site, s, r, s');
  }

  lemma StopKeepsInv(site: Site, s: State, r: nat, s': State)
    requires Inv(site, s) && Next(site, s, Stop(r), s')
    ensures Inv(site, s') && Grew(s, s')
  {
    SameSecretsKeepOk(site, s, s');
    assert RunOk(site, s, s.runs[r]);
    OneRunMoved(site, s, r, s');
  }

  lemma ObserveCaKeepsInv(site: Site, s: State, r: nat, s': State)
    requires Inv(site, s) && Next(site, s, ObserveCa(r), s')
    ensures Inv(site, s') && Grew(s, s')
  {
    assert RunOk(site, s, s.runs[r]);
    forall i | 0 <= i < |s'.leaves| ensures LeafOk(s', s'.leaves[i]) { assert LeafOk(s, s.leaves[i]); }
    assert Grew(s, s');
    OneRunMoved(site, s, r, s');
  }

  lemma ObserveTrustKeepsInv(site: Site, s: State, r: nat, s': State)
    requires Inv(site, s) && Next(site, s, ObserveTrust(r), s')
    ensures Inv(site, s') && Grew(s, s')
  {
    assert RunOk(site, s, s.runs[r]);
    forall i | 0 <= i < |s'.leaves| ensures LeafOk(s', s'.leaves[i]) { assert LeafOk(s, s.leaves[i]); }
    OneRunMoved(site, s, r, s');
  }

  lemma ObserveLeafKeepsInv(site: Site, s: State, r: nat, i: nat, s': State)
    requires Inv(site, s) && Next(site, s, ObserveLeaf(r, i), s')
    ensures Inv(site, s') && Grew(s, s')
  {
    assert RunOk(site, s, s.runs[r]);
    forall j | 0 <= j < |s'.leaves|
      ensures LeafOk(s', s'.leaves[j]) && CellGrew(s.leaves[j], s'.leaves[j])
    {
      assert LeafOk(s, s.leaves[j]);
    }
    var seen := s'.runs[r].leafSeen;
    forall j | j in seen
      ensures j < |s'.leaves| && SeenOk(seen[j], s'.leaves[j])
    {
      if j != i {
        assert SeenOk(s.runs[r].leafSeen[j], s.leaves[j]);
      }
    }
    OneRunMoved(site, s, r, s');
  }

  /** The next CA record keeps every CA that a leaf is signed by, or that a run newer than
      some leaf may still sign with. */
  predicate NewRecordOk(s: State, record: CaSecret)
    requires |s.ca| > 0
  {
    && Evolves(Latest(s), record) && KeysBelow(record, s.nextKey + 2)
    && (forall i | 0 <= i < |s.leaves| && s.leaves[i].data.pair.Some? :: Oldest(record) <= Signer(s.leaves[i].data))
    && forall i, v | 0 <= i < |s.leaves| && 0 < v < |s.ca| && s.leaves[i].author < v && Oldest(Latest(s)) <= Cur(s.ca[v]) ::
        Oldest(record) <= Cur(s.ca[v])
  }

  /** `retire` succeeds only if no leaf it read, hence no leaf at all, is left on an older
      CA; every other phase keeps the oldest CA that was kept. */
  lemma NewRecordKeepsSigners(site: Site, s: State, r: nat, record: CaSecret)
    requires Inv(site, s) && r in s.runs && SawEverything(site, s.runs[r])
    requires |s.ca| > 0 && s.runs[r].caSeen == Some(|s.ca| - 1)
    requires
      var plan := Decide(site, Latest(s), LeavesSeen(site, s.runs[r]), s.runs[r].req, s.nextKey);
      plan.Granted? && plan.value.record == record
    ensures NewRecordOk(s, record) && RecordFor(s.runs[r].req, record)
  {
    var run := s.runs[r];
    var ca := Latest(s);
    HistoryAt(s.ca, |s.ca| - 1);
    DecisionsEvolve(site, ca, LeavesSeen(site, run), run.req, s.nextKey);
    if run.req.phase == Retire && ca.previous.Some? {
      RetireFoundNoOldLeaf(site, s, run, ca.current.value);
      RetireKeepsSigners(site, s, record);
    } else {
      OtherPhasesKeepSigners(site, s, record);
    }
  }

  lemma RetireKeepsSigners(site: Site, s: State, record: CaSecret)
    requires SecretsOk(site, s) && |s.ca| > 0 && Evolves(Latest(s), record) && KeysBelow(record, s.nextKey + 2)
    requires record.phase == Retire && Latest(s).previous.Some?
    requires forall i | 0 <= i < |s.leaves| :: Cur(Latest(s)) <= Signer(s.leaves[i].data)
    ensures NewRecordOk(s, record)
  {
    forall i, v | 0 <= i < |s.leaves| && 0 < v < |s.ca| && s.leaves[i].author < v
      ensures Oldest(record) <= Cur(s.ca[v])
    {
      assert LeafOk(s, s.leaves[i]);
      CurGrows(s.ca, s.leaves[i].author, v);
    }
  }

  lemma OtherPhasesKeepSigners(site: Site, s: State, record: CaSecret)
    requires SecretsOk(site, s) && |s.ca| > 0 && Evolves(Latest(s), record) && KeysBelow(record, s.nextKey + 2)
    requires record.phase != Retire || Latest(s).previous.None?
    ensures NewRecordOk(s, record)
  {
    var ca := Latest(s);
    if ca.current.Some? {
      assert Oldest(record) == Oldest(ca);
      forall i | 0 <= i < |s.leaves| && s.leaves[i].data.pair.Some?
        ensures Oldest(record) <= Signer(s.leaves[i].data)
      {
        assert LeafOk(s, s.leaves[i]);
      }
    } else {
      HistoryAt(s.ca, |s.ca| - 1);
      assert |s.ca| == 1;
      forall i | 0 <= i < |s.leaves| ensures s.leaves[i].data.pair.None? { assert LeafOk(s, s.leaves[i]); }
    }
  }

  lemma RetireFoundNoOldLeaf(site: Site, s: State, run: Run, current: CaPair)
    requires SecretsOk(site, s) && RunOk(site, s, run) && SawEverything(site, run)
    requires EveryLeafMatches(site, LeavesSeen(site, run), current, run.req.now)
    ensures forall i | 0 <= i < |s.leaves| :: current.key <= Signer(s.leaves[i].data)
  {
    forall i | 0 <= i < |s.leaves|
      ensures current.key <= Signer(s.leaves[i].data)
    {
      assert LeafMatches(site, LeavesSeen(site, run)[i], current, site.dnsNames[i], run.req.now);
      assert SeenOk(run.leafSeen[i], s.leaves[i]);
    }
  }

  /** The CA write in plain terms: it happens or not, and then `r` holds the new version. */
  lemma WriteCaShape(site: Site, s: State, r: nat, s': State)
    requires Inv(site, s) && Next(site, s, WriteCa(r), s')
    ensures r in s.runs && r in s'.runs && s'.runs == s.runs[r := s'.runs[r]] && SawEverything(site, s.runs[r])
    ensures s'.trust == s.trust && s'.leaves == s.leaves && s'.nextKey == s.nextKey + 2
    ensures s'.runs[r] == s.runs[r].(progress := s'.runs[r].progress)
    ensures
      || (s'.ca == s.ca && s'.runs[r].progress == Stopped)
      || exists plan ::
        && s'.runs[r].progress == WritingTrust(|s.ca|, plan) && s'.ca == s.ca + [plan.record]
        && |s.ca| > 0 && RecordFor(s.runs[r].req, plan.record)
        && NewRecordOk(s, plan.record)
  {
    var run := s.runs[r];
    assert RunOk(site, s, run);
    if s'.ca != s.ca {
      var plan := s'.runs[r].progress.plan;
      NewRecordKeepsSigners(site, s, r, plan.record);
      HistoryAt(s.ca, |s.ca| - 1);
      assert s'.runs[r].progress == WritingTrust(|s.ca|, plan) && s'.ca == s.ca + [plan.record];
    }
  }

  lemma WriteCaKeepsInv(site: Site, s: State, r: nat, s': State)
    requires Inv(site, s) && Next(site, s, WriteCa(r), s')
    ensures Inv(site, s') && Grew(s, s')
  {
    WriteCaShape(site, s, r, s');
    NewVersionKeepsInv(site, s, r, s');
  }

  lemma NewVersionKeepsInv(site: Site, s: State, r: nat, s': State)
    requires Inv(site, s)
    requires r in s.runs && r in s'.runs && s'.runs == s.runs[r := s'.runs[r]] && SawEverything(site, s.runs[r])
    requires s'.trust == s.trust && s'.leaves == s.leaves && s'.nextKey == s.nextKey + 2
    requires s'.runs[r] == s.runs[r].(progress := s'.runs[r].progress)
    requires
      || (s'.ca == s.ca && s'.runs[r].progress == Stopped)
      || exists plan ::
        && s'.runs[r].progress == WritingTrust(|s.ca|, plan) && s'.ca == s.ca + [plan.record]
        && |s.ca| > 0 && RecordFor(s.runs[r].req, plan.record)
        && NewRecordOk(s, plan.record)
    ensures Inv(site, s') && Grew(s, s')
  {
    assert RunOk(site, s, s.runs[r]);
    if s'.ca == s.ca {
      SameSecretsKeepOk(site, s, s');
    } else {
      NewRecordKeepsSecrets(site, s, s'.ca[|s.ca|], s');
      NewRecordIsFenced(site, s, s.runs[r], s'.runs[r].progress, s');
    }
    OneRunMoved(site, s, r, s');
  }

  lemma NewRecordKeepsSecrets(site: Site, s: State, record: CaSecret, s': State)
    requires SecretsOk(site, s) && |s.ca| > 0 && NewRecordOk(s, record)
    requires s'.ca == s.ca + [record] && s'.trust == s.trust && s'.leaves == s.leaves && s'.nextKey == s.nextKey + 2
    ensures SecretsOk(site, s') && Grew(s, s') && FencesSurvive(s, s')
  {
    forall v | 0 < v < |s'.ca|
      ensures EvolvesAt(s'.ca, v)
    {
      if v < |s.ca| {
        assert EvolvesAt(s.ca, v);
      }
    }
    forall i | 0 <= i < |s'.leaves| ensures LeafOk(s', s'.leaves[i]) { assert LeafOk(s, s.leaves[i]); }
  }

  lemma NewRecordIsFenced(site: Site, s: State, run: Run, next: Progress, s': State)
    requires SecretsOk(site, s) && RunOk(site, s, run) && SawEverything(site, run)
    requires SecretsOk(site, s') && s'.trust == s.trust && s'.leaves == s.leaves && |s'.ca| == |s.ca| + 1 && |s.ca| > 0
    requires next.WritingTrust? && next.caVersion == |s.ca| && next.plan.record == s'.ca[|s.ca|]
    requires RecordFor(run.req, next.plan.record)
    ensures RunOk(site, s', run.(progress := next))
  {
    HistoryAt(s'.ca, |s.ca|);
    forall i | 0 <= i < |s.leaves|
      ensures Fenced(s', run.(progress := next), |s.ca|, i)
    {
      assert LeafOk(s, s.leaves[i]);
    }
    forall i | i in run.leafSeen
      ensures i < |s'.leaves| && SeenOk(run.leafSeen[i], s'.leaves[i])
    {
    }
  }

  lemma WriteTrustKeepsInv(site: Site, s: State, r: nat, s': State)
    requires Inv(site, s) && Next(site, s, WriteTrust(r), s')
    ensures Inv(site, s') && Grew(s, s')
  {
    var run := s.runs[r];
    assert RunOk(site, s, run);
    var v := run.progress.caVersion;
    forall i | 0 <= i < |s'.leaves|
      ensures LeafOk(s', s'.leaves[i]) && Fenced(s', s'.runs[r], v, i)
    {
      assert LeafOk(s, s.leaves[i]) && Fenced(s, run, v, i);
    }
    assert Grew(s, s');
    OneRunMoved(site, s, r, s');
  }

  /** One turn of the leaf loop in plain terms. */
  predicate LeafTurn(s: State, run: Run, next: Progress, s': State)
    requires run.progress.WritingLeaf?
  {
    var WritingLeaf(v, plan, i) := run.progress;
    && s'.ca == s.ca && s'.trust == s.trust && s'.nextKey == s.nextKey && |s'.leaves| == |s.leaves|
    && if i >= |s.leaves| then s'.leaves == s.leaves && next == Completed(v, plan)
       else
         && i in run.leafSeen
         && (next == Stopped || next == WritingLeaf(v, plan, i + 1))
         && if s'.leaves == s.leaves then next == Stopped || Signer(run.leafSeen[i].data) == Cur(plan.record)
            else
              && next != Stopped
              && run.leafSeen[i].version == s.leaves[i].version
              && s'.leaves == s.leaves[i := s'.leaves[i]]
              && s'.leaves[i].version == s.leaves[i].version + 1
              && s'.leaves[i].author == v
              && s'.leaves[i].data.pair.Some?
              && Signer(s'.leaves[i].data) == Cur(plan.record)
  }

  lemma WriteLeafShape(site: Site, s: State, r: nat, s': State)
    requires |s.leaves| == |site.dnsNames| && Next(site, s, WriteLeaf(r), s')
    ensures r in s'.runs && s.runs[r].progress.WritingLeaf?
    ensures s'.runs[r] == s.runs[r].(progress := s'.runs[r].progress)
    ensures s'.runs == s.runs[r := s'.runs[r]]
    ensures LeafTurn(s, s.runs[r], s'.runs[r].progress, s')
  {
    var run := s.runs[r];
    var i := run.progress.next;
    if i < |s.leaves| && NeedsNewLeaf(site, run.progress.plan, run.leafSeen[i].data, site.dnsNames[i], run.req)
      && run.leafSeen[i].version == s.leaves[i].version
    {
      assert s'.leaves[i].version != s.leaves[i].version;
    }
  }

  lemma WriteLeafKeepsInv(site: Site, s: State, r: nat, s': State)
    requires Inv(site, s) && Next(site, s, WriteLeaf(r), s')
    ensures Inv(site, s') && Grew(s, s')
  {
    WriteLeafShape(site, s, r, s');
    LeafTurnKeepsInv(site, s, r, s');
  }

  lemma LeafTurnKeepsInv(site: Site, s: State, r: nat, s': State)
    requires Inv(site, s) && r in s.runs && r in s'.runs && s.runs[r].progress.WritingLeaf?
    requires s'.runs[r] == s.runs[r].(progress := s'.runs[r].progress)
    requires s'.runs == s.runs[r := s'.runs[r]]
    requires LeafTurn(s, s.runs[r], s'.runs[r].progress, s')
    ensures Inv(site, s') && Grew(s, s')
  {
    var run := s.runs[r];
    assert RunOk(site, s, run);
    LeafTurnKeepsSecrets(site, s, run, s'.runs[r].progress, s');
    LeafTurnKeepsRun(site, s, run, s'.runs[r].progress, s');
    OneRunMoved(site, s, r, s');
  }

  /** The leaf a run replaces is older than the run, and the run's CA is still kept. */
  lemma LeafTurnKeepsSecrets(site: Site, s: State, run: Run, next: Progress, s': State)
    requires SecretsOk(site, s) && RunOk(site, s, run) && run.progress.WritingLeaf?
    requires LeafTurn(s, run, next, s')
    ensures SecretsOk(site, s') && Grew(s, s') && FencesSurvive(s, s')
  {
    if s'.leaves == s.leaves {
      SameSecretsKeepOk(site, s, s');
    } else {
      var WritingLeaf(v, plan, i) := run.progress;
      assert Fenced(s, run, v, i) && LeafOk(s, s.leaves[i]);
      CurGrows(s.ca, s.leaves[i].author, v);
      forall j | 0 <= j < |s'.leaves|
        ensures LeafOk(s', s'.leaves[j]) && CellGrew(s.leaves[j], s'.leaves[j])
      {
        assert LeafOk(s, s.leaves[j]);
      }
    }
  }

  lemma LeafTurnKeepsRun(site: Site, s: State, run: Run, next: Progress, s': State)
    requires SecretsOk(site, s) && RunOk(site, s, run) && run.progress.WritingLeaf?
    requires LeafTurn(s, run, next, s') && Grew(s, s') && FencesSurvive(s, s')
    ensures RunOk(site, s', run.(progress := next))
  {
    var WritingLeaf(v, plan, i) := run.progress;
    OtherRunsKeepOk(site, s, s', run);
    if i < |s.leaves| {
      assert SeenOk(run.leafSeen[i], s'.leaves[i]);
    }
    ProgressAdvances(site, s', run, next);
  }

  lemma ProgressAdvances(site: Site, s: State, run: Run, next: Progress)
    requires |s.leaves| == |site.dnsNames| && RunOk(site, s, run) && run.progress.WritingLeaf?
    requires
      var WritingLeaf(v, plan, i) := run.progress;
      || next.Stopped?
      || (i == |s.leaves| && next == Completed(v, plan))
      || (i < |s.leaves| && next == WritingLeaf(v, plan, i + 1) && Cur(s.ca[v]) <= Signer(s.leaves[i].data))
    ensures RunOk(site, s, run.(progress := next))
  {
    var run' := run.(progress := next);
    var WritingLeaf(v, plan, i) := run.progress;
    if next.WritingLeaf? {
      forall j | i + 1 <= j < |s.leaves| ensures Fenced(s, run', v, j) { assert Fenced(s, run, v, j); }
    }
  }

  lemma StepKeepsInv(site: Site, s: State, step: Step, s': State)
    requires Inv(site, s) && Next(site, s, step, s')
    ensures Inv(site, s') && Grew(s, s')
  {
    match step
    case WriteCa(r) => WriteCaKeepsInv(site, s, r, s');
    case WriteTrust(r) => WriteTrustKeepsInv(site, s, r, s');
    case WriteLeaf(r) => WriteLeafKeepsInv(site, s, r, s');
    case ObserveCa(r) => ObserveCaKeepsInv(site, s, r, s');
    case ObserveTrust(r) => ObserveTrustKeepsInv(site, s, r, s');
    case ObserveLeaf(r, i) => ObserveLeafKeepsInv(site, s, r, i, s');
    case Start(r, req) => StartKeepsInv(site, s, r, req, s');
    case Stop(r) => StopKeepsInv(site, s, r, s');
  }

  lemma StepKeepsRequests(site: Site, s: State, step: Step, s': State)
    requires |s.leaves| == |site.dnsNames| && Next(site, s, step, s')
    ensures forall r | r in s.runs :: r in s'.runs && s'.runs[r].req == s.runs[r].req
    ensures !step.Start? ==> s'.runs.Keys == s.runs.Keys
  {
  }

  // ---------- the theorem ----------

  /** Every leaf Secret that holds a certificate is signed by a CA of the trust Secret. */
  predicate LeavesTrusted(s: State) {
    forall i | 0 <= i < |s.leaves| && s.leaves[i].data.pair.Some? ::
      s.trust.bundle.Some? && Signer(s.leaves[i].data) in s.trust.bundle.value
  }

  lemma InvTrustsLeaves(site: Site, s: State)
    requires Inv(site, s)
    ensures LeavesTrusted(s)
  {
    forall i | 0 <= i < |s.leaves| && s.leaves[i].data.pair.Some?
      ensures s.trust.bundle.Some? && Signer(s.leaves[i].data) in s.trust.bundle.value
    {
      assert LeafOk(s, s.leaves[i]);
      OldestGrows(s.ca, s.trust.author, |s.ca| - 1);
      KeptKeyIsBundled(s.ca, s.leaves[i].author, s.trust.author);
    }
  }

  /** A behaviour: states linked by steps, from a cluster without any of the Secrets. */
  ghost predicate Behaviour(site: Site, states: seq<State>, steps: seq<Step>) {
    && |states| == |steps| + 1
    && Init(site, states[0])
    && (forall k | 0 <= k < |states| :: |states[k].leaves| == |site.dnsNames|)
    && forall k | 0 <= k < |steps| :: Next(site, states[k], steps[k], states[k + 1])
  }

  lemma {:induction false} BehaviourKeepsInv(site: Site, states: seq<State>, steps: seq<Step>, k: nat)
    requires Behaviour(site, states, steps) && k < |states|
    ensures Inv(site, states[k])
  {
    if k > 0 {
      BehaviourKeepsInv(site, states, steps, k - 1);
      StepKeepsInv(site, states[k - 1], steps[k - 1], states[k]);
    }
  }

  /** Fencing, over every interleaving of any number of runs. */
  lemma EveryWrittenLeafIsTrusted(site: Site, states: seq<State>, steps: seq<Step>, k: nat)
    requires Behaviour(site, states, steps) && k < |states|
    ensures LeavesTrusted(states[k])
  {
    BehaviourKeepsInv(site, states, steps, k);
    InvTrustsLeaves(site, states[k]);
  }

  /** In every behaviour the CA record has a pending CA exactly in `prepare` and a previous
      one exactly in `activate`, and its changes of active CA balance its new CAs. */
  lemma EveryRecordIsWellFormed(site: Site, states: seq<State>, steps: seq<Step>, k: nat, id: string)
    requires Behaviour(site, states, steps) && k < |states| && |states[k].ca| > 0
    ensures WellFormedRecord(Latest(states[k]))
    ensures Openings(states[k].ca, id) == Switchings(states[k].ca, id) + if PendingUnder(Latest(states[k]), id) then 1 else 0
  {
    BehaviourKeepsInv(site, states, steps, k);
    HistoryAt(states[k].ca, |states[k].ca| - 1);
    SwitchesBalanceOpenings(states[k].ca, id);
  }
}
