/** `restart_pods_if_needed` and `_record_rollout_identity` of
    src/utils/identity_bootstrap.py: consumer Pods are restarted before the identity of the
    credentials they run with is recorded on the tracking Secrets. */
module RolloutRecord {
  import opened Outcomes

  const MAX_ATTEMPTS := 5

  type Identity = string

  /** `started` is the step at which the Pod came up and could first read credentials. */
  datatype Pod = Pod(started: nat, ready: bool, terminating: bool)

  /** A tracking Secret: its version and the rollout annotation. */
  datatype Cell = Cell(version: nat, recorded: Option<Identity>)

  datatype Progress =
    | Checking(seen: seq<Option<Identity>>)
    | Listing
    | Deleting(todo: set<string>)
    | Polling
    | Recording(next: nat, attempts: nat)
    | Replacing(next: nat, version: nat, attempts: nat)
    | Returned
    | Failed

  /** `seen`, `original` and `polled` remember what the run read: the annotations it
      checked, the Pods it listed first, and the Pods of its last poll. */
  datatype Run = Run(identity: Identity, tracking: seq<string>, seen: seq<Option<Identity>>,
                     original: Option<set<string>>, polled: map<string, Pod>, progress: Progress)

  datatype State = State(clock: nat, stored: map<Identity, nat>, secrets: map<string, Cell>, pods: map<string, Pod>, runs: map<nat, Run>)

  datatype Step =
    | StoreCredentials(identity: Identity)
    | TouchSecret(name: string, keep: bool)
    | StartPod(uid: string)
    | ChangePod(uid: string, ready: bool, terminating: bool)
    | RemovePod(uid: string)
    | Begin(run: nat, identity: Identity, tracking: seq<string>)
    | Check(run: nat)
    | List(run: nat)
    | Delete(run: nat, uid: string)
    | Poll(run: nat)
    | Record(run: nat)
    | Replace(run: nat)
    | Die(run: nat)

  // ---------- the poll ----------

  /** The Pods that count as replaced: listed at least one, none of them from the first
      listing, all ready and none terminating. */
  predicate Replaced(original: set<string>, pods: map<string, Pod>) {
    pods != map[] && forall uid | uid in pods :: uid !in original && pods[uid].ready && !pods[uid].terminating
  }

  /** A Pod as the API lists it; `identity` is its uid, or its name if it has none. */
  datatype PodView = PodView(hasMetadata: bool, identity: string, ready: bool, terminating: bool)

  predicate ViewOf(view: PodView, pods: map<string, Pod>) {
    view.hasMetadata && view.identity in pods && Pod(pods[view.identity].started, view.ready, view.terminating) == pods[view.identity]
  }

  /** The list the API returns for these Pods. */
  ghost predicate Lists(views: seq<PodView>, pods: map<string, Pod>) {
    && (forall i | 0 <= i < |views| :: ViewOf(views[i], pods))
    && (forall uid | uid in pods :: exists i :: 0 <= i < |views| && views[i].identity == uid)
  }

  /** What the counting loop below tests. */
  predicate AllReplaced(original: set<string>, views: seq<PodView>) {
    views != [] && forall p | p in views :: p.hasMetadata && p.identity !in original && p.ready && !p.terminating
  }

  /** The loop on the list is the condition on the Pods that the protocol uses. */
  lemma PollMeansReplaced(original: set<string>, views: seq<PodView>, pods: map<string, Pod>)
    requires Lists(views, pods)
    ensures AllReplaced(original, views) <==> Replaced(original, pods)
  {
    if AllReplaced(original, views) {
      assert views[0].identity in pods && views[0] in views;
      forall uid | uid in pods
        ensures uid !in original && pods[uid].ready && !pods[uid].terminating
      {
        var i :| 0 <= i < |views| && views[i].identity == uid;
        assert ViewOf(views[i], pods) && views[i] in views;
      }
    }
    if Replaced(original, pods) {
      var uid :| uid in pods;
      var i :| 0 <= i < |views| && views[i].identity == uid;
      forall p | p in views ensures p.hasMetadata && p.identity !in original && p.ready && !p.terminating { assert ViewOf(p, pods); }
    }
  }

  /** The counting loop of the poll, on Pods that may lack metadata. */
  method PollSucceeds(original: set<string>, pods: seq<PodView>) returns (done: bool)
    ensures done <==> AllReplaced(original, pods)
  {
    var readyReplacements, originalPodsRemain := 0, false;
    var i := 0;
    while i < |pods|
      invariant 0 <= i <= |pods| && 0 <= readyReplacements <= i
      invariant originalPodsRemain <==> exists j :: 0 <= j < i && pods[j].hasMetadata && pods[j].identity in original
      invariant readyReplacements == i <==>
        forall j | 0 <= j < i :: pods[j].hasMetadata && pods[j].identity !in original && pods[j].ready && !pods[j].terminating
    {
      if pods[i].hasMetadata {
        if pods[i].identity in original {
          originalPodsRemain := true;
        } else if !pods[i].terminating && pods[i].ready {
          readyReplacements := readyReplacements + 1;
        }
      }
      i := i + 1;
    }
    return pods != [] && !originalPodsRemain && readyReplacements == |pods|;
  }

  // ---------- steps ----------

  function With(s: State, r: nat, run: Run): State {
    s.(clock := s.clock + 1, runs := s.runs[r := run])
  }

  function Marked(pods: map<string, Pod>, uid: string): map<string, Pod> {
    if uid in pods then pods[uid := pods[uid].(terminating := true)] else pods
  }

  /** Some tracking Secret did not carry the identity. */
  predicate Mismatch(seen: seq<Option<Identity>>, id: Identity) {
    exists i :: 0 <= i < |seen| && seen[i] != Some(id)
  }

  /** One read of the first loop; once all are read, return early if all carry the identity. */
  function AfterCheck(s: State, run: Run): Run
    requires run.progress.Checking?
  {
    var k := |run.progress.seen|;
    if k < |run.tracking| && run.tracking[k] !in s.secrets then run.(progress := Failed)
    else
      var seen := if k < |run.tracking| then run.progress.seen + [s.secrets[run.tracking[k]].recorded] else run.progress.seen;
      if |seen| < |run.tracking| then run.(progress := Checking(seen), seen := seen)
      else if Mismatch(seen, run.identity) then run.(progress := Listing, seen := seen)
      else run.(progress := Returned, seen := seen)
  }

  function AfterList(s: State, run: Run): Run {
    var listed := s.pods.Keys;
    run.(original := Some(listed), progress := if listed == {} then Recording(0, MAX_ATTEMPTS) else Deleting(listed))
  }

  function AfterPoll(s: State, run: Run): Run
    requires run.original.Some?
  {
    if Replaced(run.original.value, s.pods) then run.(polled := s.pods, progress := Recording(0, MAX_ATTEMPTS)) else run
  }

  /** `_record_rollout_identity`: read, then replace unless the identity is already there. */
  function AfterRecord(s: State, run: Run): Run
    requires run.progress.Recording?
  {
    var Recording(k, attempts) := run.progress;
    if k >= |run.tracking| then run.(progress := Returned)
    else if attempts == 0 || run.tracking[k] !in s.secrets then run.(progress := Failed)
    else if s.secrets[run.tracking[k]].recorded == Some(run.identity) then run.(progress := Recording(k + 1, MAX_ATTEMPTS))
    else run.(progress := Replacing(k, s.secrets[run.tracking[k]].version, attempts))
  }

  function AfterReplace(s: State, r: nat): State
    requires r in s.runs && s.runs[r].progress.Replacing? && s.runs[r].progress.next < |s.runs[r].tracking|
  {
    var run := s.runs[r];
    var Replacing(k, version, attempts) := run.progress;
    var name := run.tracking[k];
    if name in s.secrets && s.secrets[name].version == version then
      With(s, r, run.(progress := Recording(k + 1, MAX_ATTEMPTS))).(secrets := s.secrets[name := Cell(version + 1, Some(run.identity))])
    else
      With(s, r, run.(progress := Recording(k, if attempts == 0 then 0 else attempts - 1)))
  }

  predicate Next(s: State, step: Step, s': State) {
    match step
    case StoreCredentials(id) =>
      s' == s.(clock := s.clock + 1, stored := if id in s.stored then s.stored else s.stored[id := s.clock])
    case TouchSecret(name, keep) =>
      && s' == s.(clock := s.clock + 1, secrets := s.secrets[name :=
        if name in s.secrets then Cell(s.secrets[name].version + 1, if keep then s.secrets[name].recorded else None) else Cell(1, None)])
    case StartPod(uid) => uid !in s.pods && s' == s.(clock := s.clock + 1, pods := s.pods[uid := Pod(s.clock, false, false)])
    case ChangePod(uid, ready, terminating) =>
      && uid in s.pods && (s.pods[uid].terminating ==> terminating)
      && s' == s.(clock := s.clock + 1, pods := s.pods[uid := Pod(s.pods[uid].started, ready, terminating)])
    case RemovePod(uid) => s' == s.(clock := s.clock + 1, pods := s.pods - {uid})
    case Begin(r, id, tracking) =>
      && r !in s.runs && id in s.stored && tracking != []
      && s' == With(s, r, Run(id, tracking, [], None, map[], Checking([])))
    case Check(r) => r in s.runs && s.runs[r].progress.Checking? && s' == With(s, r, AfterCheck(s, s.runs[r]))
    case List(r) => r in s.runs && s.runs[r].progress.Listing? && s' == With(s, r, AfterList(s, s.runs[r]))
    case Delete(r, uid) =>
      && r in s.runs && s.runs[r].progress.Deleting? && uid in s.runs[r].progress.todo
      && var todo := s.runs[r].progress.todo - {uid};
      s' == With(s, r, s.runs[r].(progress := if todo == {} then Polling else Deleting(todo))).(pods := Marked(s.pods, uid))
    case Poll(r) =>
      r in s.runs && s.runs[r].progress.Polling? && s.runs[r].original.Some? && s' == With(s, r, AfterPoll(s, s.runs[r]))
    case Record(r) => r in s.runs && s.runs[r].progress.Recording? && s' == With(s, r, AfterRecord(s, s.runs[r]))
    case Replace(r) =>
      && r in s.runs && s.runs[r].progress.Replacing? && s.runs[r].progress.next < |s.runs[r].tracking|
      && s' == AfterReplace(s, r)
    case Die(r) => r in s.runs && s' == With(s, r, s.runs[r].(progress := Failed))
  }

  // ---------- the invariant ----------

  /** Every Pod outside `except` came up after the credentials behind `id` were stored. */
  predicate StartedAfter(s: State, id: Identity, except: set<string>) {
    id in s.stored && forall uid | uid in s.pods && uid !in except :: s.stored[id] < s.pods[uid].started
  }

  /** The run has seen the Pods restarted: none were listed, or a later poll found only
      ready Pods that were not in the first listing. */
  predicate SawRestart(run: Run) {
    run.original.Some? && (run.original.value == {} || Replaced(run.original.value, run.polled))
  }

  predicate RunOk(s: State, run: Run) {
    && run.identity in s.stored && s.stored[run.identity] < s.clock && run.tracking != []
    && match run.progress
       case Checking(seen) =>
         && run.seen == seen && |seen| < |run.tracking| && run.original.None?
         && (Some(run.identity) in seen ==> StartedAfter(s, run.identity, {}))
       case Listing => Mismatch(run.seen, run.identity) && run.original.None?
       case Deleting(_) => Mismatch(run.seen, run.identity) && run.original.Some? && run.original.value != {} && StartedAfter(s, run.identity, run.original.value)
       case Polling => Mismatch(run.seen, run.identity) && run.original.Some? && run.original.value != {} && StartedAfter(s, run.identity, run.original.value)
       case Recording(_, _) => Mismatch(run.seen, run.identity) && SawRestart(run) && StartedAfter(s, run.identity, {})
       case Replacing(_, _, _) => Mismatch(run.seen, run.identity) && SawRestart(run) && StartedAfter(s, run.identity, {})
       case Returned =>
         && StartedAfter(s, run.identity, {})
         && (SawRestart(run) || (run.original.None? && |run.seen| == |run.tracking| && !Mismatch(run.seen, run.identity)))
       case Failed => true
  }

  predicate Inv(s: State) {
    && (forall id | id in s.stored :: s.stored[id] < s.clock)
    && (forall uid | uid in s.pods :: s.pods[uid].started < s.clock)
    && (forall name | name in s.secrets && s.secrets[name].recorded.Some? :: StartedAfter(s, s.secrets[name].recorded.value, {}))
    && forall r | r in s.runs :: RunOk(s, s.runs[r])
  }

  /** Pods only appear at the present, credentials keep the time they were stored. */
  predicate Later(s: State, s': State) {
    && s'.clock == s.clock + 1
    && (forall id | id in s.stored :: id in s'.stored && s'.stored[id] == s.stored[id])
    && forall uid | uid in s'.pods :: (uid in s.pods && s'.pods[uid].started == s.pods[uid].started) || s'.pods[uid].started == s.clock
  }

  lemma StartedAfterStays(s: State, s': State, id: Identity, except: set<string>)
    requires Inv(s) && Later(s, s') && StartedAfter(s, id, except)
    ensures StartedAfter(s', id, except)
  {
  }

  lemma RunStaysOk(s: State, s': State, run: Run)
    requires Inv(s) && Later(s, s') && RunOk(s, run)
    ensures RunOk(s', run)
  {
    if StartedAfter(s, run.identity, {}) { StartedAfterStays(s, s', run.identity, {}); }
    if run.original.Some? && StartedAfter(s, run.identity, run.original.value) {
      StartedAfterStays(s, s', run.identity, run.original.value);
    }
  }

  lemma CheckKeepsOk(s: State, run: Run)
    requires Inv(s) && RunOk(s, run) && run.progress.Checking?
    ensures RunOk(s, AfterCheck(s, run))
  {
    var k := |run.progress.seen|;
    if run.tracking[k] in s.secrets {
      var recorded := s.secrets[run.tracking[k]].recorded;
      var seen := run.progress.seen + [recorded];
      assert recorded == Some(run.identity) ==> StartedAfter(s, run.identity, {});
      assert seen[k] == recorded;
    }
  }

  lemma ListKeepsOk(s: State, run: Run)
    requires Inv(s) && RunOk(s, run) && run.progress.Listing?
    ensures RunOk(s, AfterList(s, run))
  {
  }

  lemma PollKeepsOk(s: State, run: Run)
    requires Inv(s) && RunOk(s, run) && run.progress.Polling?
    ensures RunOk(s, AfterPoll(s, run))
  {
  }

  lemma RecordKeepsOk(s: State, run: Run)
    requires Inv(s) && RunOk(s, run) && run.progress.Recording?
    ensures RunOk(s, AfterRecord(s, run))
  {
  }

  lemma ReplaceKeepsOk(s: State, r: nat)
    requires Inv(s) && r in s.runs && RunOk(s, s.runs[r]) && s.runs[r].progress.Replacing?
    requires s.runs[r].progress.next < |s.runs[r].tracking|
    ensures AfterReplace(s, r).runs.Keys == s.runs.Keys && RunOk(s, AfterReplace(s, r).runs[r])
  {
  }

  lemma DeleteOrDieKeepsOk(s: State, run: Run, next: Progress)
    requires Inv(s) && RunOk(s, run)
    requires next.Failed? || (run.progress.Deleting? && (next.Deleting? || next.Polling?))
    ensures RunOk(s, run.(progress := next))
  {
  }

  lemma RunStepKeepsOk(s: State, step: Step, s': State, r: nat)
    requires Inv(s) && Next(s, step, s') && r in s.runs && r in s'.runs && s'.runs[r] != s.runs[r]
    ensures RunOk(s', s'.runs[r])
  {
    StepIsLater(s, step, s');
    RunStepKeepsOkNow(s, step, s', r);
    RunStaysOk(s, s', s'.runs[r]);
  }

  lemma RunStepKeepsOkNow(s: State, step: Step, s': State, r: nat)
    requires Inv(s) && Next(s, step, s') && r in s.runs && r in s'.runs && s'.runs[r] != s.runs[r]
    ensures RunOk(s, s'.runs[r])
  {
    var run := s.runs[r];
    match step {
      case Check(_) => CheckKeepsOk(s, run);
      case List(_) => ListKeepsOk(s, run);
      case Poll(_) => PollKeepsOk(s, run);
      case Record(_) => RecordKeepsOk(s, run);
      case Replace(_) => ReplaceKeepsOk(s, r);
      case Delete(_, _) => DeleteOrDieKeepsOk(s, run, s'.runs[r].progress);
      case Die(_) => DeleteOrDieKeepsOk(s, run, Failed);
      case _ =>
    }
  }

  lemma RecordedStaysOk(s: State, step: Step, s': State, name: string)
    requires Inv(s) && Next(s, step, s') && name in s'.secrets && s'.secrets[name].recorded.Some?
    ensures StartedAfter(s', s'.secrets[name].recorded.value, {})
  {
    StepIsLater(s, step, s');
    if name in s.secrets && s.secrets[name].recorded == s'.secrets[name].recorded {
      StartedAfterStays(s, s', s'.secrets[name].recorded.value, {});
    } else {
      assert step.Replace? && RunOk(s, s.runs[step.run]);
      StartedAfterStays(s, s', s.runs[step.run].identity, {});
    }
  }

  lemma StepKeepsInv(s: State, step: Step, s': State)
    requires Inv(s) && Next(s, step, s')
    ensures Inv(s')
  {
    StepIsLater(s, step, s');
    forall r | r in s'.runs
      ensures RunOk(s', s'.runs[r])
    {
      if r in s.runs {
        if s'.runs[r] == s.runs[r] { RunStaysOk(s, s', s.runs[r]); } else { RunStepKeepsOk(s, step, s', r); }
      } else {
        NewRunIsOk(s, step, s', r);
      }
    }
    forall name | name in s'.secrets && s'.secrets[name].recorded.Some?
      ensures StartedAfter(s', s'.secrets[name].recorded.value, {})
    {
      RecordedStaysOk(s, step, s', name);
    }
  }

  lemma NewRunIsOk(s: State, step: Step, s': State, r: nat)
    requires Inv(s) && Next(s, step, s') && r !in s.runs && r in s'.runs
    ensures RunOk(s', s'.runs[r])
  {
  }

  lemma StepIsForward(s: State, step: Step, s': State)
    requires Next(s, step, s')
    ensures Later(s, s')
    ensures forall id | id in s'.stored && id !in s.stored :: s'.stored[id] == s.clock
  {
  }

  lemma StepIsLater(s: State, step: Step, s': State)
    requires Inv(s) && Next(s, step, s')
    ensures Later(s, s')
    ensures forall id | id in s'.stored :: s'.stored[id] < s'.clock
    ensures forall uid | uid in s'.pods :: s'.pods[uid].started < s'.clock
  {
    StepIsForward(s, step, s');
    forall id | id in s'.stored ensures s'.stored[id] < s'.clock { assert id in s.stored ==> s.stored[id] < s.clock; }
  }

  /** Any Pods and Secrets, but nothing recorded yet. */
  predicate Init(s: State) {
    && s.runs == map[]
    && (forall id | id in s.stored :: s.stored[id] < s.clock)
    && (forall uid | uid in s.pods :: s.pods[uid].started < s.clock)
    && forall name | name in s.secrets :: s.secrets[name].recorded.None?
  }

  ghost predicate Behaviour(states: seq<State>, steps: seq<Step>) {
    && |states| == |steps| + 1
    && Init(states[0])
    && forall k | 0 <= k < |steps| :: Next(states[k], steps[k], states[k + 1])
  }

  lemma {:induction false} BehaviourKeepsInv(states: seq<State>, steps: seq<Step>, k: nat)
    requires Behaviour(states, steps) && k < |states|
    ensures Inv(states[k])
  {
    if k > 0 {
      BehaviourKeepsInv(states, steps, k - 1);
      StepKeepsInv(states[k - 1], steps[k - 1], states[k]);
    }
  }

  // ---------- the theorems ----------

  /** Whenever a tracking Secret carries an identity, every Pod then existing started after
      the credentials behind it were stored, whichever runs recorded it or died doing so. */
  lemma RecordedMeansRestarted(states: seq<State>, steps: seq<Step>, k: nat, name: string)
    requires Behaviour(states, steps) && k < |states|
    requires name in states[k].secrets && states[k].secrets[name].recorded.Some?
    ensures StartedAfter(states[k], states[k].secrets[name].recorded.value, {})
  {
    BehaviourKeepsInv(states, steps, k);
  }

  /** An annotation is written only by a run that saw the Pods restarted. */
  lemma RecordsOnlyAfterRestart(states: seq<State>, steps: seq<Step>, k: nat, name: string)
    requires Behaviour(states, steps) && k < |steps|
    requires name in states[k + 1].secrets && states[k + 1].secrets[name].recorded.Some?
    requires name !in states[k].secrets || states[k].secrets[name].recorded != states[k + 1].secrets[name].recorded
    ensures steps[k].Replace? && steps[k].run in states[k].runs
    ensures
      var run := states[k].runs[steps[k].run];
      && states[k + 1].secrets[name].recorded == Some(run.identity)
      && SawRestart(run)
      && Mismatch(run.seen, run.identity)
  {
    BehaviourKeepsInv(states, steps, k);
    assert Next(states[k], steps[k], states[k + 1]);
    assert RunOk(states[k], states[k].runs[steps[k].run]);
  }

  /** A run that returns leaves only Pods started after its credentials were stored. It
      skips the restart exactly when every tracking Secret it read carried its identity, so
      that a recording cut short leads to another restart. */
  lemma ReturnMeansRestarted(states: seq<State>, steps: seq<Step>, k: nat, r: nat)
    requires Behaviour(states, steps) && k < |states|
    requires r in states[k].runs && states[k].runs[r].progress.Returned?
    ensures
      var run := states[k].runs[r];
      && StartedAfter(states[k], run.identity, {})
      && (run.original.None? ==> |run.seen| == |run.tracking| && !Mismatch(run.seen, run.identity))
      && (run.original.Some? ==> SawRestart(run))
  {
    BehaviourKeepsInv(states, steps, k);
    assert RunOk(states[k], states[k].runs[r]);
  }

  lemma MismatchMeans(seen: seq<Option<Identity>>, id: Identity)
    ensures Mismatch(seen, id) <==> exists other | other in seen :: other != Some(id)
  {
    if Mismatch(seen, id) {
      var i :| 0 <= i < |seen| && seen[i] != Some(id);
      assert seen[i] in seen;
    }
  }

  /** The last check decides: a restart exactly when some tracking Secret does not carry the
      identity. */
  lemma CheckDecides(s: State, s': State, r: nat)
    requires Next(s, Check(r), s') && RunOk(s, s.runs[r])
    ensures r in s'.runs
    ensures
      var run, run' := s.runs[r], s'.runs[r];
      if run.tracking[|run.seen|] !in s.secrets then run'.progress.Failed?
      else
        && run'.seen == run.seen + [s.secrets[run.tracking[|run.seen|]].recorded]
        && run'.progress ==
           if |run'.seen| < |run.tracking| then Checking(run'.seen)
           else if exists other | other in run'.seen :: other != Some(run.identity) then Listing
           else Returned
  {
    MismatchMeans(s'.runs[r].seen, s.runs[r].identity);
  }

  /** A poll goes on to record exactly when there are Pods and each is new, ready and not
      terminating. */
  lemma PollDecides(s: State, s': State, r: nat)
    requires Next(s, Poll(r), s') && RunOk(s, s.runs[r])
    ensures r in s'.runs
    ensures
      var run, run' := s.runs[r], s'.runs[r];
      if |s.pods| > 0 && (forall uid | uid in s.pods :: s.pods[uid].ready && !s.pods[uid].terminating && uid !in run.original.value)
      then run'.progress == Recording(0, 5) else run' == run
  {
    assert |s.pods| == 0 <==> s.pods == map[];
  }

  // ---------- conflicts while recording ----------

  /** Step `j` is a write of run `r` to its tracking Secret `n` that met a conflict. */
  predicate ConflictAt(states: seq<State>, steps: seq<Step>, j: nat, r: nat, n: nat)
    requires j < |steps| && |states| == |steps| + 1
  {
    && steps[j] == Replace(r) && r in states[j].runs && r in states[j + 1].runs
    && states[j].runs[r].progress.Replacing? && states[j].runs[r].progress.next == n
    && states[j + 1].runs[r].progress.Recording? && states[j + 1].runs[r].progress.next == n
  }

  function Conflicts(states: seq<State>, steps: seq<Step>, k: nat, r: nat, n: nat): nat
    requires k <= |steps| && |states| == |steps| + 1
  {
    if k == 0 then 0 else Conflicts(states, steps, k - 1, r, n) + if ConflictAt(states, steps, k - 1, r, n) then 1 else 0
  }

  /** The attempts left and the conflicts so far make five; later Secrets saw none. */
  ghost predicate Counted(states: seq<State>, steps: seq<Step>, k: nat, r: nat)
    requires k <= |steps| && |states| == |steps| + 1
  {
    if r !in states[k].runs then forall m: nat :: Conflicts(states, steps, k, r, m) == 0
    else
      match states[k].runs[r].progress
      case Recording(n, a) => Conflicts(states, steps, k, r, n) + a == 5 && forall m: nat | m > n :: Conflicts(states, steps, k, r, m) == 0
      case Replacing(n, _, a) =>
        a > 0 && Conflicts(states, steps, k, r, n) + a == 5 && forall m: nat | m > n :: Conflicts(states, steps, k, r, m) == 0
      case Returned => true
      case Failed => true
      case _ => forall m: nat :: Conflicts(states, steps, k, r, m) == 0
  }

  /** How a run gets on, as far as its attempts to record are concerned. */
  predicate Advances(p: Progress, p': Progress) {
    p' == Failed || p' == p ||
    match p
    case Recording(n, a) => p' == Recording(n + 1, 5) || (p'.Replacing? && p'.next == n && p'.attempts == a && a > 0) || p' == Returned
    case Replacing(n, _, a) => p' == Recording(n + 1, 5) || p' == Recording(n, if a == 0 then 0 else a - 1)
    case Returned => false
    case Failed => false
    case _ => p' == Recording(0, 5) || !(p'.Recording? || p'.Replacing?)
  }

  lemma RunAdvances(s: State, step: Step, s': State, r: nat)
    requires Next(s, step, s')
    ensures r in s.runs ==> r in s'.runs && Advances(s.runs[r].progress, s'.runs[r].progress)
    ensures r !in s.runs && r in s'.runs ==> s'.runs[r].progress.Checking?
    ensures
      r in s.runs && s.runs[r].progress.Replacing? && s'.runs[r].progress.Recording? && s'.runs[r].progress.next == s.runs[r].progress.next ==>
        step == Replace(r)
  {
  }

  lemma {:induction false} ConflictsAreCounted(states: seq<State>, steps: seq<Step>, k: nat, r: nat)
    requires Behaviour(states, steps) && k < |states|
    ensures Counted(states, steps, k, r)
  {
    if k > 0 {
      ConflictsAreCounted(states, steps, k - 1, r);
      assert Next(states[k - 1], steps[k - 1], states[k]);
      RunAdvances(states[k - 1], steps[k - 1], states[k], r);
      CountedNext(states, steps, k, r);
    }
  }

  lemma CountedNext(states: seq<State>, steps: seq<Step>, k: nat, r: nat)
    requires 0 < k <= |steps| && |states| == |steps| + 1 && Counted(states, steps, k - 1, r)
    requires r in states[k - 1].runs ==> r in states[k].runs && Advances(states[k - 1].runs[r].progress, states[k].runs[r].progress)
    requires r !in states[k - 1].runs && r in states[k].runs ==> states[k].runs[r].progress.Checking?
    requires
      var s, s' := states[k - 1], states[k];
      r in s.runs && s.runs[r].progress.Replacing? && s'.runs[r].progress.Recording? && s'.runs[r].progress.next == s.runs[r].progress.next ==>
        steps[k - 1] == Replace(r)
    ensures Counted(states, steps, k, r)
  {
    forall m: nat
      ensures Conflicts(states, steps, k, r, m) == Conflicts(states, steps, k - 1, r, m) + if ConflictAt(states, steps, k - 1, r, m) then 1 else 0
    {
    }
  }

  /** A run gives up recording on a Secret that is there only after five conflicts on it. */
  lemma GivesUpAfterFiveConflicts(states: seq<State>, steps: seq<Step>, k: nat, r: nat)
    requires Behaviour(states, steps) && k < |steps| && steps[k] == Record(r) && r in states[k].runs
    requires states[k].runs[r].progress.Recording? && r in states[k + 1].runs && states[k + 1].runs[r].progress.Failed?
    ensures
      var run := states[k].runs[r];
      var n := run.progress.next;
      n < |run.tracking| && (run.tracking[n] in states[k].secrets ==> Conflicts(states, steps, k, r, n) == 5)
  {
    ConflictsAreCounted(states, steps, k, r);
    assert Next(states[k], steps[k], states[k + 1]);
  }
}
