/** One `reconcile` run at a time, killed after any of its API writes and then repeated
    (src/utils/internal_tls_bootstrap.py). */
module TlsRecovery {
  import opened Outcomes
  import opened InternalTls

  /** The Secrets of a release; None is a missing Secret, an empty bundle a blank one. */
  datatype Store = Store(ca: Option<CaSecret>, trust: Option<seq<KeyId>>, leaves: seq<Option<LeafSecret>>)

  datatype Write =
    | CreateCa
    | CreateTrust
    | CreateLeaf(leaf: nat)
    | PutCa(record: CaSecret)
    | PutTrust(bundle: seq<KeyId>)
    | PutLeaf(leaf: nat, data: LeafSecret)

  function Apply(s: Store, w: Write): (s': Store)
    ensures |s'.leaves| == |s.leaves|
  {
    match w
    case CreateCa => s.(ca := Some(BLANK_CA))
    case CreateTrust => s.(trust := Some([]))
    case CreateLeaf(i) => if i < |s.leaves| then s.(leaves := s.leaves[i := Some(BLANK_LEAF)]) else s
    case PutCa(record) => s.(ca := Some(record))
    case PutTrust(bundle) => s.(trust := Some(bundle))
    case PutLeaf(i, data) => if i < |s.leaves| then s.(leaves := s.leaves[i := Some(data)]) else s
  }

  /** The Secrets after a run that is killed once `budget` of its writes are done. */
  function Killed(s: Store, ws: seq<Write>, budget: nat): (s': Store)
    ensures |s'.leaves| == |s.leaves|
    decreases budget
  {
    if ws == [] || budget == 0 then s else Killed(Apply(s, ws[0]), ws[1..], budget - 1)
  }

  /** The Secrets after all the writes. */
  function Finished(s: Store, ws: seq<Write>): Store {
    Killed(s, ws, |ws|)
  }

  lemma {:induction false} KilledConcatenation(s: Store, a: seq<Write>, b: seq<Write>, budget: nat)
    ensures Killed(s, a + b, budget) == if budget < |a| then Killed(s, a, budget) else Killed(Finished(s, a), b, budget - |a|)
    decreases |a|
  {
    if a == [] {
      assert a + b == b;
    } else if budget > 0 {
      assert (a + b)[1..] == a[1..] + b;
      KilledConcatenation(Apply(s, a[0]), a[1..], b, budget - 1);
    }
  }

  lemma {:induction false} SpareBudgetIsUnused(s: Store, ws: seq<Write>, budget: nat)
    requires |ws| <= budget
    ensures Killed(s, ws, budget) == Finished(s, ws)
    decreases |ws|
  {
    if ws != [] {
      SpareBudgetIsUnused(Apply(s, ws[0]), ws[1..], budget - 1);
    }
  }

  lemma KilledFirst(s: Store, w: Write, ws: seq<Write>, budget: nat)
    requires budget > 0
    ensures Killed(s, [w] + ws, budget) == Killed(Apply(s, w), ws, budget - 1)
  {
    assert ([w] + ws)[1..] == ws;
  }

  // ---------- what a run writes ----------

  function MissingLeaves(leaves: seq<Option<LeafSecret>>, from: nat): seq<Write>
    requires from <= |leaves|
    decreases |leaves| - from
  {
    if from == |leaves| then []
    else (if leaves[from].None? then [CreateLeaf(from)] else []) + MissingLeaves(leaves, from + 1)
  }

  /** `_prepare_secrets`: the missing Secrets, CA first, then trust, then the leaves. */
  function Creations(s: Store): seq<Write> {
    (if s.ca.None? then [CreateCa] else []) + (if s.trust.None? then [CreateTrust] else []) + MissingLeaves(s.leaves, 0)
  }

  function OrBlank(leaf: Option<LeafSecret>): LeafSecret {
    if leaf.Some? then leaf.value else BLANK_LEAF
  }

  function LeafContents(s: Store): (leaves: seq<LeafSecret>)
    ensures |leaves| == |s.leaves|
  {
    seq(|s.leaves|, i requires 0 <= i < |s.leaves| => OrBlank(s.leaves[i]))
  }

  function CaContents(s: Store): CaSecret {
    if s.ca.Some? then s.ca.value else BLANK_CA
  }

  function LeafWrites(site: Site, plan: Plan, leaves: seq<LeafSecret>, req: Request, from: nat): seq<Write>
    requires |leaves| == |site.dnsNames| && from <= |leaves|
    requires plan.record.CaRecord? && plan.record.current.Some?
    decreases |leaves| - from
  {
    if from == |leaves| then []
    else
      (if NeedsNewLeaf(site, plan, leaves[from], site.dnsNames[from], req)
       then [PutLeaf(from, NewLeaf(site, plan, site.dnsNames[from], req))] else [])
      + LeafWrites(site, plan, leaves, req, from + 1)
  }

  function PlannedWrites(site: Site, s: Store, plan: Plan, req: Request): seq<Write>
    requires |s.leaves| == |site.dnsNames|
    requires plan.record.CaRecord? && plan.record.current.Some?
  {
    [PutCa(plan.record), PutTrust(BundleOf(plan.record))] + LeafWrites(site, plan, LeafContents(s), req, 0)
  }

  datatype Outcome = Outcome(writes: seq<Write>, ok: bool)

  function Missing(s: Store): bool {
    s.ca.None? || s.trust.None? || exists i :: 0 <= i < |s.leaves| && s.leaves[i].None?
  }

  function Decision(site: Site, s: Store, req: Request, spare: KeyId): Attempt<Plan>
    requires |s.leaves| == |site.dnsNames|
  {
    Decide(site, CaContents(s), LeafContents(s), req, spare)
  }

  /** All API writes of a run that is not killed, and whether it ends without an error. */
  function RunOutcome(site: Site, s: Store, req: Request, spare: KeyId): Outcome
    requires |s.leaves| == |site.dnsNames|
  {
    if req.failIfMissing && Missing(s) then Outcome([], false)
    else
      match Decision(site, s, req, spare)
      case Refused => Outcome(Creations(s), false)
      case Granted(plan) =>
        if plan.record.CaRecord? && plan.record.current.Some? then
          Outcome(Creations(s) + PlannedWrites(site, s, plan, req), true)
        else Outcome(Creations(s), false)
  }

  // ---------- the program ----------

  /** The API server as one run sees it. `budget` counts the writes that are still carried
      out before the run is killed. */
  class SecretApi {
    var ca: Option<CaSecret>
    var trust: Option<seq<KeyId>>
    var leaves: seq<Option<LeafSecret>>
    var budget: nat

    function Contents(): Store
      reads this
    {
      Store(ca, trust, leaves)
    }

    constructor (s: Store, budget: nat)
      ensures Contents() == s && this.budget == budget
    {
      this.ca, this.trust, this.leaves, this.budget := s.ca, s.trust, s.leaves, budget;
    }

    /** One create or replace call; false when the run is killed before it. */
    method Perform(w: Write) returns (alive: bool)
      modifies this
      ensures alive <==> old(budget) > 0
      ensures alive ==> Contents() == Apply(old(Contents()), w) && budget == old(budget) - 1
      ensures !alive ==> Contents() == old(Contents()) && budget == 0
    {
      if budget == 0 {
        return false;
      }
      alive := true;
      budget := budget - 1;
      match w {
        case CreateCa => ca := Some(BLANK_CA);
        case CreateTrust => trust := Some([]);
        case CreateLeaf(i) => if i < |leaves| { leaves := leaves[i := Some(BLANK_LEAF)]; }
        case PutCa(record) => ca := Some(record);
        case PutTrust(bundle) => trust := Some(bundle);
        case PutLeaf(i, data) => if i < |leaves| { leaves := leaves[i := Some(data)]; }
      }
    }

    /** `_prepare_secrets`: create what is missing, in the order of the names. */
    method PrepareSecrets() returns (alive: bool)
      modifies this
      ensures
        var ws := Creations(old(Contents()));
        && (alive <==> |ws| <= old(budget))
        && Contents() == Killed(old(Contents()), ws, old(budget))
        && budget == if alive then old(budget) - |ws| else 0
    {
      ghost var start, writes := Contents(), Creations(Contents());
      ghost var missing := MissingLeaves(leaves, 0);
      ghost var trustFirst := if trust.None? then [CreateTrust] else [];
      if ca.None? {
        assert writes == [CreateCa] + (trustFirst + missing);
        alive := Perform(CreateCa);
        if !alive { return; }
        KilledFirst(start, CreateCa, trustFirst + missing, old(budget));
      }
      ghost var start1, budget1 := Contents(), budget;
      assert Killed(start, writes, old(budget)) == Killed(start1, trustFirst + missing, budget1);
      if trust.None? {
        alive := Perform(CreateTrust);
        if !alive { return; }
        KilledFirst(start1, CreateTrust, missing, budget1);
      }
      assert trustFirst == [] ==> trustFirst + missing == missing;
      alive := CreateLeaves();
    }

    method CreateLeaves() returns (alive: bool)
      modifies this
      ensures
        var ws := MissingLeaves(old(leaves), 0);
        && (alive <==> |ws| <= old(budget))
        && Contents() == Killed(old(Contents()), ws, old(budget))
        && budget == if alive then old(budget) - |ws| else 0
    {
      ghost var start, all := Contents(), MissingLeaves(leaves, 0);
      var i := 0;
      while i < |leaves|
        invariant 0 <= i <= |leaves| == |start.leaves|
        invariant forall j | i <= j < |leaves| :: leaves[j] == start.leaves[j]
        invariant Killed(start, all, old(budget)) == Killed(Contents(), MissingLeaves(start.leaves, i), budget)
        invariant |all| - old(budget) == |MissingLeaves(start.leaves, i)| - budget
      {
        if leaves[i].None? {
          ghost var before := Contents();
          KilledFirstIfAny(before, CreateLeaf(i), MissingLeaves(start.leaves, i + 1), budget);
          alive := Perform(CreateLeaf(i));
          if !alive { return; }
        } else {
          assert MissingLeaves(start.leaves, i) == MissingLeaves(start.leaves, i + 1);
        }
        i := i + 1;
      }
      return true;
    }

    /** `reconcile`: rebinds the three CAs, then writes the CA Secret, the trust Secret and
        each leaf Secret that needs it. */
    method Reconcile(site: Site, req: Request, spare: KeyId) returns (ok: bool)
      requires |leaves| == |site.dnsNames|
      modifies this
      ensures
        var outcome := RunOutcome(site, old(Contents()), req, spare);
        && Contents() == Killed(old(Contents()), outcome.writes, old(budget))
        && (ok <==> outcome.ok && |outcome.writes| <= old(budget))
    {
      ghost var start, budget0 := Contents(), budget;
      if req.failIfMissing && (ca.None? || trust.None? || exists i :: 0 <= i < |leaves| && leaves[i].None?) {
        return false;
      }
      var alive := PrepareSecrets();
      ghost var creations := Creations(start);
      KilledIsPrefix(site, start, req, spare, budget0);
      if !alive {
        return false;
      }
      SpareBudgetIsUnused(start, creations, budget0);
      CreationsFillBlanks(start);
      var plan := MakePlan(site, req, spare);
      if plan.Refused? {
        return false;
      }
      assert LeafContents(start) == LeafContents(Contents());
      ok := WriteAll(site, req, plan.value);
    }

    /** The decision of `reconcile`, taken on the Secrets it has just prepared. */
    method MakePlan(site: Site, req: Request, spare: KeyId) returns (plan: Attempt<Plan>)
      requires |leaves| == |site.dnsNames|
      requires ca.Some? && forall i | 0 <= i < |leaves| :: leaves[i].Some?
      ensures plan == Decision(site, Contents(), req, spare)
      ensures plan.Granted? ==> plan.value.record.CaRecord? && plan.value.record.current.Some?
    {
      var record := ca.value;
      if record.Damaged? || (record.current.None? && req.failIfMissing) {
        return Refused;
      }
      var current := if record.current.Some? then record.current.value else GenerateCa(spare, req.now);
      var pending, previous, rotationId, force := record.pending, record.previous, record.rotationId, false;
      if !CurrentlyValid(current, req.now) || (pending.Some? && !CurrentlyValid(pending.value, req.now)) {
        return Refused;
      }
      match req.phase {
        case Stable =>
          if pending.Some? || previous.Some? { return Refused; }
        case Prepare =>
          if previous.Some? || (pending.Some? && rotationId != req.rotationId) { return Refused; }
          if pending.None? { pending := Some(GenerateCa(spare + 1, req.now)); }
          rotationId := req.rotationId;
        case Activate =>
          if rotationId != req.rotationId { return Refused; }
          if previous.None? {
            if pending.None? { return Refused; }
            previous, current, pending, force := Some(current), pending.value, None, true;
          }
        case Retire =>
          if rotationId != req.rotationId || pending.Some? { return Refused; }
          var i := 0;
          while i < |leaves|
            invariant 0 <= i <= |leaves|
            invariant forall j | 0 <= j < i :: LeafMatches(site, LeafContents(Contents())[j], current, site.dnsNames[j], req.now)
          {
            if !LeafMatches(site, leaves[i].value, current, site.dnsNames[i], req.now) {
              return Refused;
            }
            i := i + 1;
          }
          previous := None;
      }
      return Granted(Plan(CaRecord(Some(current), pending, previous, rotationId, req.phase), force));
    }

    /** The writes of `reconcile` once it has decided. */
    method WriteAll(site: Site, req: Request, plan: Plan) returns (ok: bool)
      requires |leaves| == |site.dnsNames|
      requires plan.record.CaRecord? && plan.record.current.Some?
      requires forall i | 0 <= i < |leaves| :: leaves[i].Some?
      modifies this
      ensures
        var writes := PlannedWrites(site, old(Contents()), plan, req);
        && Contents() == Killed(old(Contents()), writes, old(budget))
        && (ok <==> |writes| <= old(budget))
    {
      ghost var start, all := Contents(), PlannedWrites(site, Contents(), plan, req);
      ghost var leafWrites := LeafWrites(site, plan, LeafContents(start), req, 0);
      var seen := leaves;
      ok := Perform(PutCa(plan.record));
      if !ok { return; }
      ghost var start1, budget1 := Contents(), budget;
      assert all == [PutCa(plan.record)] + ([PutTrust(BundleOf(plan.record))] + leafWrites);
      KilledFirst(start, PutCa(plan.record), [PutTrust(BundleOf(plan.record))] + leafWrites, old(budget));
      ok := Perform(PutTrust(BundleOf(plan.record)));
      if !ok { return; }
      KilledFirst(start1, PutTrust(BundleOf(plan.record)), leafWrites, budget1);
      assert LeafContents(Store(None, None, seen)) == LeafContents(start);
      ok := WriteLeaves(site, req, plan, seen);
    }

    /** The leaf loop of `reconcile`, on the leaf Secrets as they were read. */
    method WriteLeaves(site: Site, req: Request, plan: Plan, seen: seq<Option<LeafSecret>>) returns (ok: bool)
      requires |seen| == |site.dnsNames|
      requires plan.record.CaRecord? && plan.record.current.Some?
      requires forall i | 0 <= i < |seen| :: seen[i].Some?
      modifies this
      ensures
        var writes := LeafWrites(site, plan, LeafContents(Store(None, None, seen)), req, 0);
        && Contents() == Killed(old(Contents()), writes, old(budget))
        && (ok <==> |writes| <= old(budget))
    {
      ghost var data := LeafContents(Store(None, None, seen));
      ghost var start, all := Contents(), LeafWrites(site, plan, data, req, 0);
      var i := 0;
      while i < |seen|
        invariant 0 <= i <= |seen|
        invariant Killed(start, all, old(budget)) == Killed(Contents(), LeafWrites(site, plan, data, req, i), budget)
        invariant |all| - old(budget) == |LeafWrites(site, plan, data, req, i)| - budget
      {
        assert seen[i].value == data[i];
        if NeedsNewLeaf(site, plan, seen[i].value, site.dnsNames[i], req) {
          var leaf := NewLeaf(site, plan, site.dnsNames[i], req);
          KilledFirstIfAny(Contents(), PutLeaf(i, leaf), LeafWrites(site, plan, data, req, i + 1), budget);
          ok := Perform(PutLeaf(i, leaf));
          if !ok { return; }
        } else {
          assert LeafWrites(site, plan, data, req, i) == LeafWrites(site, plan, data, req, i + 1);
        }
        i := i + 1;
      }
      return true;
    }
  }

  lemma FinishedOne(s: Store, w: Write)
    ensures Finished(s, [w]) == Apply(s, w)
  {
    KilledFirst(s, w, [], 1);
    assert [w] + [] == [w];
  }

  lemma KilledFirstIfAny(s: Store, w: Write, ws: seq<Write>, budget: nat)
    ensures Killed(s, [w] + ws, budget) == if budget == 0 then s else Killed(Apply(s, w), ws, budget - 1)
  {
    if budget > 0 {
      KilledFirst(s, w, ws, budget);
    }
  }

  lemma KilledIsPrefix(site: Site, s: Store, req: Request, spare: KeyId, budget: nat)
    requires |s.leaves| == |site.dnsNames| && !(req.failIfMissing && Missing(s))
    ensures
      var outcome := RunOutcome(site, s, req, spare);
      var creations := Creations(s);
      && (budget < |creations| ==> Killed(s, outcome.writes, budget) == Killed(s, creations, budget) && budget < |outcome.writes|)
      && (outcome.ok ==>
        var planned := PlannedWrites(site, s, Decision(site, s, req, spare).value, req);
        && outcome.writes == creations + planned
        && (|creations| <= budget ==> Killed(s, outcome.writes, budget) == Killed(Finished(s, creations), planned, budget - |creations|)))
      && (!outcome.ok ==> outcome.writes == creations)
  {
    var outcome := RunOutcome(site, s, req, spare);
    if outcome.ok {
      KilledConcatenation(s, Creations(s), PlannedWrites(site, s, Decision(site, s, req, spare).value, req), budget);
    }
  }

  // ---------- creations ----------

  lemma {:induction false} MissingLeavesFillBlanks(s: Store, leaves: seq<Option<LeafSecret>>, from: nat)
    requires from <= |leaves| == |s.leaves|
    requires forall i | from <= i < |leaves| :: s.leaves[i] == leaves[i]
    ensures
      var s' := Finished(s, MissingLeaves(leaves, from));
      && s'.ca == s.ca && s'.trust == s.trust
      && (forall i | 0 <= i < from :: s'.leaves[i] == s.leaves[i])
      && forall i | from <= i < |leaves| :: s'.leaves[i] == Some(OrBlank(leaves[i]))
    decreases |leaves| - from
  {
    if from < |leaves| {
      var rest := MissingLeaves(leaves, from + 1);
      if leaves[from].None? {
        KilledFirst(s, CreateLeaf(from), rest, |rest| + 1);
        MissingLeavesFillBlanks(Apply(s, CreateLeaf(from)), leaves, from + 1);
      } else {
        assert MissingLeaves(leaves, from) == rest;
        MissingLeavesFillBlanks(s, leaves, from + 1);
      }
    }
  }

  /** After the creations every Secret exists, and reads as it did before or blank. */
  lemma CreationsFillBlanks(s: Store)
    ensures
      var s' := Finished(s, Creations(s));
      && s'.ca == Some(CaContents(s)) && s'.trust == Some(if s.trust.Some? then s.trust.value else [])
      && forall i | 0 <= i < |s.leaves| :: s'.leaves[i] == Some(LeafContents(s)[i])
  {
    var a := if s.ca.None? then [CreateCa] else [];
    var b := if s.trust.None? then [CreateTrust] else [];
    var m := MissingLeaves(s.leaves, 0);
    KilledConcatenation(s, a + b, m, |a + b + m|);
    KilledConcatenation(s, a, b, |a + b|);
    var s1 := if s.ca.None? then Apply(s, CreateCa) else s;
    if s.ca.None? { FinishedOne(s, CreateCa); }
    if s.trust.None? { FinishedOne(s1, CreateTrust); }
    assert Finished(s, a) == s1;
    MissingLeavesFillBlanks(Finished(s1, b), s.leaves, 0);
  }

  // ---------- recovery ----------

  /** A record that the same request decides to write again, unchanged. */
  predicate Repeatable(record: CaSecret, req: Request) {
    && record.CaRecord? && record.current.Some? && CurrentlyValid(record.current.value, req.now)
    && record.phase == req.phase
    && (req.phase != Stable ==> record.rotationId == req.rotationId)
    && (record.pending.Some? <==> req.phase == Prepare)
    && (record.previous.Some? <==> req.phase == Activate)
    && (record.pending.Some? ==> CurrentlyValid(record.pending.value, req.now))
  }

  /** The state a request asks for: one bundle of the current CA and of the one pending or
      previous CA, and every leaf signed by the current CA with the requested nonce. */
  predicate Settled(site: Site, s: Store, req: Request)
    requires |s.leaves| == |site.dnsNames|
  {
    && s.ca.Some? && Repeatable(s.ca.value, req)
    && s.trust == Some(BundleOf(s.ca.value))
    && forall i | 0 <= i < |s.leaves| :: LeafSettled(site, s, req, i)
  }

  predicate LeafSettled(site: Site, s: Store, req: Request, i: nat)
    requires |s.leaves| == |site.dnsNames| && i < |s.leaves|
    requires s.ca.Some? && s.ca.value.CaRecord? && s.ca.value.current.Some?
  {
    && s.leaves[i].Some?
    && s.leaves[i].value.nonce == Some(req.nonce)
    && LeafMatches(site, s.leaves[i].value, s.ca.value.current.value, site.dnsNames[i], req.now)
  }

  /** The CA record of a granted decision is decided upon again by the same request. */
  lemma GrantedIsRepeatable(site: Site, ca: CaSecret, leaves: seq<LeafSecret>, req: Request, spare: KeyId)
    requires |leaves| == |site.dnsNames| && WellFormedRecord(ca)
    requires Decide(site, ca, leaves, req, spare).Granted?
    ensures Repeatable(Decide(site, ca, leaves, req, spare).value.record, req)
  {
  }

  lemma RepeatedDecision(site: Site, record: CaSecret, leaves: seq<LeafSecret>, req: Request, spare: KeyId)
    requires |leaves| == |site.dnsNames| && Repeatable(record, req)
    requires req.phase == Retire ==> EveryLeafMatches(site, leaves, record.current.value, req.now)
    ensures Decide(site, record, leaves, req, spare) == Granted(Plan(record, false))
  {
  }

  /** A leaf after the loop: rewritten where that is needed, otherwise as it was read. */
  function LeafAfter(site: Site, plan: Plan, leaf: LeafSecret, dnsName: string, req: Request): LeafSecret
    requires plan.record.CaRecord? && plan.record.current.Some?
  {
    if NeedsNewLeaf(site, plan, leaf, dnsName, req) then NewLeaf(site, plan, dnsName, req) else leaf
  }

  lemma {:induction false} LeafWritesDone(site: Site, s: Store, plan: Plan, data: seq<LeafSecret>, req: Request, from: nat, budget: nat)
    requires |s.leaves| == |data| == |site.dnsNames| && from <= |data|
    requires plan.record.CaRecord? && plan.record.current.Some?
    requires forall i | from <= i < |data| :: s.leaves[i] == Some(data[i])
    ensures
      var ws := LeafWrites(site, plan, data, req, from);
      var s' := Killed(s, ws, budget);
      && s'.ca == s.ca && s'.trust == s.trust
      && (forall i | 0 <= i < from :: s'.leaves[i] == s.leaves[i])
      && (forall i | from <= i < |data| ::
        s'.leaves[i] == Some(data[i]) || s'.leaves[i] == Some(LeafAfter(site, plan, data[i], site.dnsNames[i], req)))
      && (|ws| <= budget ==> forall i | from <= i < |data| ::
        s'.leaves[i] == Some(LeafAfter(site, plan, data[i], site.dnsNames[i], req)))
    decreases |data| - from
  {
    if from < |data| {
      var rest := LeafWrites(site, plan, data, req, from + 1);
      if NeedsNewLeaf(site, plan, data[from], site.dnsNames[from], req) {
        var w := PutLeaf(from, NewLeaf(site, plan, site.dnsNames[from], req));
        KilledFirstIfAny(s, w, rest, budget);
        if budget > 0 {
          LeafWritesDone(site, Apply(s, w), plan, data, req, from + 1, budget - 1);
        }
      } else {
        assert LeafWrites(site, plan, data, req, from) == rest;
        LeafWritesDone(site, s, plan, data, req, from + 1, budget);
      }
    }
  }

  /** What is in the Secrets once a run is past its CA write. */
  lemma AfterCaWrite(site: Site, s: Store, plan: Plan, req: Request, budget: nat)
    requires |s.leaves| == |site.dnsNames| && plan.record.CaRecord? && plan.record.current.Some?
    requires forall i | 0 <= i < |s.leaves| :: s.leaves[i].Some?
    requires s.ca.Some? && s.trust.Some? && budget > 0
    ensures
      var ws := PlannedWrites(site, s, plan, req);
      var s' := Killed(s, ws, budget);
      && s'.ca == Some(plan.record) && s'.trust.Some?
      && (forall i | 0 <= i < |s.leaves| ::
        || s'.leaves[i] == s.leaves[i]
        || s'.leaves[i] == Some(LeafAfter(site, plan, s.leaves[i].value, site.dnsNames[i], req)))
      && (|ws| <= budget ==>
        && s'.trust == Some(BundleOf(plan.record))
        && forall i | 0 <= i < |s.leaves| ::
          s'.leaves[i] == Some(LeafAfter(site, plan, s.leaves[i].value, site.dnsNames[i], req)))
  {
    var data := LeafContents(s);
    var leafWrites := LeafWrites(site, plan, data, req, 0);
    var put := PutTrust(BundleOf(plan.record));
    assert PlannedWrites(site, s, plan, req) == [PutCa(plan.record)] + ([put] + leafWrites);
    KilledFirst(s, PutCa(plan.record), [put] + leafWrites, budget);
    var s1 := Apply(s, PutCa(plan.record));
    KilledFirstIfAny(s1, put, leafWrites, budget - 1);
    if budget > 1 {
      LeafWritesDone(site, Apply(s1, put), plan, data, req, 0, budget - 2);
    }
  }

  /** A run that is not killed leaves what its request asks for. */
  lemma FullRunSettles(site: Site, s: Store, req: Request, spare: KeyId)
    requires |s.leaves| == |site.dnsNames| && WellFormedRecord(CaContents(s))
    requires RunOutcome(site, s, req, spare).ok
    ensures Settled(site, Finished(s, RunOutcome(site, s, req, spare).writes), req)
    ensures Finished(s, RunOutcome(site, s, req, spare).writes).ca == Some(Decision(site, s, req, spare).value.record)
    ensures
      forall i | 0 <= i < |s.leaves| ::
        Finished(s, RunOutcome(site, s, req, spare).writes).leaves[i]
        == Some(LeafAfter(site, Decision(site, s, req, spare).value, LeafContents(s)[i], site.dnsNames[i], req))
  {
    var writes := RunOutcome(site, s, req, spare).writes;
    var plan := Decision(site, s, req, spare).value;
    var s0 := Finished(s, Creations(s));
    KilledIsPrefix(site, s, req, spare, |writes|);
    CreationsFillBlanks(s);
    assert LeafContents(s0) == LeafContents(s);
    var ws := PlannedWrites(site, s0, plan, req);
    AfterCaWrite(site, s0, plan, req, |ws|);
    GrantedIsRepeatable(site, CaContents(s), LeafContents(s), req, spare);
    var s' := Finished(s0, ws);
    forall i | 0 <= i < |s'.leaves|
      ensures LeafSettled(site, s', req, i)
    {
      NewLeafMatches(site, plan, site.dnsNames[i], req);
    }
  }

  /** Once settled, the same request rewrites no leaf and changes nothing. */
  lemma SettledIsFixed(site: Site, s: Store, req: Request, spare: KeyId)
    requires |s.leaves| == |site.dnsNames| && Settled(site, s, req)
    ensures RunOutcome(site, s, req, spare) == Outcome([PutCa(s.ca.value), PutTrust(BundleOf(s.ca.value))], true)
    ensures Finished(s, RunOutcome(site, s, req, spare).writes) == s
  {
    var data := LeafContents(s);
    var plan := Plan(s.ca.value, false);
    forall i | 0 <= i < |s.leaves|
      ensures s.leaves[i].Some? && !NeedsNewLeaf(site, plan, data[i], site.dnsNames[i], req)
    {
      assert LeafSettled(site, s, req, i);
    }
    RepeatedDecision(site, s.ca.value, data, req, spare);
    NoLeafWrites(site, plan, data, req, 0);
    NothingMissing(s.leaves, 0);
    var put := PutTrust(BundleOf(s.ca.value));
    assert [PutCa(s.ca.value), put] == [PutCa(s.ca.value)] + [put];
    KilledFirst(s, PutCa(s.ca.value), [put], 2);
    FinishedOne(Apply(s, PutCa(s.ca.value)), put);
  }

  lemma {:induction false} NoLeafWrites(site: Site, plan: Plan, data: seq<LeafSecret>, req: Request, from: nat)
    requires |data| == |site.dnsNames| && from <= |data| && plan.record.CaRecord? && plan.record.current.Some?
    requires forall i | from <= i < |data| :: !NeedsNewLeaf(site, plan, data[i], site.dnsNames[i], req)
    ensures LeafWrites(site, plan, data, req, from) == []
    decreases |data| - from
  {
    if from < |data| {
      NoLeafWrites(site, plan, data, req, from + 1);
    }
  }

  lemma {:induction false} NothingMissing(leaves: seq<Option<LeafSecret>>, from: nat)
    requires from <= |leaves| && forall i | from <= i < |leaves| :: leaves[i].Some?
    ensures MissingLeaves(leaves, from) == []
    decreases |leaves| - from
  {
    if from < |leaves| {
      NothingMissing(leaves, from + 1);
    }
  }

  /** Killed among its creations, a run leaves the CA and the leaves as a rerun would see
      them anyway. */
  lemma {:induction false} PartlyCreated(s: Store, ws: seq<Write>, budget: nat)
    requires forall w | w in ws :: w == CreateCa || w == CreateTrust || w.CreateLeaf?
    requires CreateCa in ws ==> s.ca.None?
    requires forall i: nat | CreateLeaf(i) in ws :: i < |s.leaves| && s.leaves[i].None?
    requires NoRepeats(ws)
    ensures
      var s' := Killed(s, ws, budget);
      CaContents(s') == CaContents(s) && LeafContents(s') == LeafContents(s)
    decreases |ws|
  {
    if ws != [] && budget > 0 {
      var s1 := Apply(s, ws[0]);
      assert LeafContents(s1) == LeafContents(s);
      forall i: nat | CreateLeaf(i) in ws[1..]
        ensures i < |s1.leaves| && s1.leaves[i].None?
      {
        assert CreateLeaf(i) in ws;
      }
      PartlyCreated(s1, ws[1..], budget - 1);
    }
  }

  predicate NoRepeats(ws: seq<Write>) {
    forall i, j | 0 <= i < j < |ws| :: ws[i] != ws[j]
  }

  lemma {:induction false} MissingLeavesAreBlank(leaves: seq<Option<LeafSecret>>, from: nat)
    requires from <= |leaves|
    ensures
      var ws := MissingLeaves(leaves, from);
      && (forall w | w in ws :: w.CreateLeaf? && from <= w.leaf < |leaves| && leaves[w.leaf].None?)
      && NoRepeats(ws)
    decreases |leaves| - from
  {
    if from < |leaves| {
      MissingLeavesAreBlank(leaves, from + 1);
    }
  }

  lemma CreationsChangeNothingSeen(s: Store, budget: nat)
    ensures
      var s' := Killed(s, Creations(s), budget);
      CaContents(s') == CaContents(s) && LeafContents(s') == LeafContents(s)
  {
    MissingLeavesAreBlank(s.leaves, 0);
    var a := (if s.ca.None? then [CreateCa] else []) + (if s.trust.None? then [CreateTrust] else []);
    var ws := MissingLeaves(s.leaves, 0);
    assert Creations(s) == a + ws;
    forall i, j | 0 <= i < j < |a + ws|
      ensures (a + ws)[i] != (a + ws)[j]
    {
      if |a| <= i {
        assert ws[i - |a|] != ws[j - |a|];
      } else if |a| <= j {
        assert ws[j - |a|] in ws;
      }
    }
    PartlyCreated(s, Creations(s), budget);
  }

  /** Crash recovery. However many of its writes a run got through, repeating its request
      settles the Secrets, keeps the CA record the first run wrote, and leaves nothing for
      a third run to change. */
  lemma RerunRecovers(site: Site, s: Store, req: Request, spare: KeyId, budget: nat, spare2: KeyId, spare3: KeyId)
    requires |s.leaves| == |site.dnsNames| && WellFormedRecord(CaContents(s)) && NotYetUsed(s, spare)
    requires RunOutcome(site, s, req, spare).ok
    ensures
      var first := RunOutcome(site, s, req, spare);
      var s1 := Killed(s, first.writes, budget);
      var second := RunOutcome(site, s1, req, spare2);
      var s2 := Finished(s1, second.writes);
      && second.ok
      && Settled(site, s2, req)
      && (budget > |Creations(s)| ==> s1.ca == s2.ca == Some(Decision(site, s, req, spare).value.record))
      && RunOutcome(site, s2, req, spare3) == Outcome([PutCa(s2.ca.value), PutTrust(BundleOf(s2.ca.value))], true)
      && Finished(s2, RunOutcome(site, s2, req, spare3).writes) == s2
  {
    var first := RunOutcome(site, s, req, spare);
    var s1 := Killed(s, first.writes, budget);
    if budget <= |Creations(s)| {
      KilledBeforeCaWrite(site, s, req, spare, budget, spare2);
    } else {
      KilledAfterCaWrite(site, s, req, spare, budget, spare2);
    }
    FullRunSettles(site, s1, req, spare2);
    SettledIsFixed(site, Finished(s1, RunOutcome(site, s1, req, spare2).writes), req, spare3);
  }

  /** Key ids are never reused: no leaf is signed by a key yet to be generated. */
  predicate NotYetUsed(s: Store, spare: KeyId) {
    forall i | 0 <= i < |s.leaves| && s.leaves[i].Some? && s.leaves[i].value.pair.Some? ::
      s.leaves[i].value.pair.value.signer < spare
  }

  lemma GrantedForAnyKey(site: Site, s: Store, req: Request, spare: KeyId, spare2: KeyId)
    requires |s.leaves| == |site.dnsNames| && NotYetUsed(s, spare) && WellFormedRecord(CaContents(s))
    requires Decision(site, s, req, spare).Granted?
    ensures Decision(site, s, req, spare2).Granted?
  {
    if |s.leaves| > 0 {
      assert !LeafMatches(site, LeafContents(s)[0], GenerateCa(spare, req.now), site.dnsNames[0], req.now);
    }
  }

  /** Killed before its CA write, a run has only created Secrets blank. */
  lemma KilledWhileCreating(site: Site, s: Store, req: Request, spare: KeyId, budget: nat)
    requires |s.leaves| == |site.dnsNames| && RunOutcome(site, s, req, spare).ok && budget <= |Creations(s)|
    ensures Killed(s, RunOutcome(site, s, req, spare).writes, budget) == Killed(s, Creations(s), budget)
  {
    var plan := Decision(site, s, req, spare).value;
    KilledConcatenation(s, Creations(s), PlannedWrites(site, s, plan, req), budget);
  }

  lemma NothingMissingWhenGranted(site: Site, s: Store, req: Request, spare: KeyId)
    requires |s.leaves| == |site.dnsNames| && RunOutcome(site, s, req, spare).ok && req.failIfMissing
    ensures Creations(s) == []
  {
    NothingMissing(s.leaves, 0);
  }

  lemma SameViewSameOutcome(site: Site, s: Store, s1: Store, req: Request, spare: KeyId)
    requires |s.leaves| == |s1.leaves| == |site.dnsNames|
    requires CaContents(s1) == CaContents(s) && LeafContents(s1) == LeafContents(s)
    requires Decision(site, s, req, spare).Granted? && !(req.failIfMissing && Missing(s1)) && WellFormedRecord(CaContents(s))
    ensures RunOutcome(site, s1, req, spare).ok
  {
  }

  lemma KilledBeforeCaWrite(site: Site, s: Store, req: Request, spare: KeyId, budget: nat, spare2: KeyId)
    requires |s.leaves| == |site.dnsNames| && WellFormedRecord(CaContents(s)) && NotYetUsed(s, spare)
    requires RunOutcome(site, s, req, spare).ok && budget <= |Creations(s)|
    ensures
      var s1 := Killed(s, RunOutcome(site, s, req, spare).writes, budget);
      CaContents(s1) == CaContents(s) && RunOutcome(site, s1, req, spare2).ok
  {
    var s1 := Killed(s, RunOutcome(site, s, req, spare).writes, budget);
    KilledWhileCreating(site, s, req, spare, budget);
    CreationsChangeNothingSeen(s, budget);
    GrantedForAnyKey(site, s, req, spare, spare2);
    if req.failIfMissing {
      NothingMissingWhenGranted(site, s, req, spare);
      assert s1 == s;
    }
    SameViewSameOutcome(site, s, s1, req, spare2);
  }

  lemma KilledAfterCaWrite(site: Site, s: Store, req: Request, spare: KeyId, budget: nat, spare2: KeyId)
    requires |s.leaves| == |site.dnsNames| && WellFormedRecord(CaContents(s))
    requires RunOutcome(site, s, req, spare).ok && budget > |Creations(s)|
    ensures
      var s1 := Killed(s, RunOutcome(site, s, req, spare).writes, budget);
      var record := Decision(site, s, req, spare).value.record;
      && s1.ca == Some(record) && WellFormedRecord(record)
      && RunOutcome(site, s1, req, spare2).ok && Decision(site, s1, req, spare2) == Granted(Plan(record, false))
  {
    var plan := Decision(site, s, req, spare).value;
    var s0 := Finished(s, Creations(s));
    var s1 := Killed(s, RunOutcome(site, s, req, spare).writes, budget);
    KilledIsPrefix(site, s, req, spare, budget);
    CreationsFillBlanks(s);
    assert LeafContents(s0) == LeafContents(s);
    AfterCaWrite(site, s0, plan, req, budget - |Creations(s)|);
    GrantedIsRepeatable(site, CaContents(s), LeafContents(s), req, spare);
    forall i | 0 <= i < |s1.leaves|
      ensures s1.leaves[i].Some?
      ensures req.phase == Retire ==> LeafMatches(site, LeafContents(s1)[i], plan.record.current.value, site.dnsNames[i], req.now)
    {
      NewLeafMatches(site, plan, site.dnsNames[i], req);
      if req.phase == Retire {
        assert LeafMatches(site, LeafContents(s)[i], plan.record.current.value, site.dnsNames[i], req.now);
      }
    }
    RepeatedDecision(site, plan.record, LeafContents(s1), req, spare2);
  }
}
