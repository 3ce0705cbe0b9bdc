/** `_reconcile_hash_secret` of src/utils/identity_bootstrap.py: many runs merge password
    hashes into one Secret, each keeping what it read beneath what it wants. */
module HashMerge {
  import opened Outcomes

  const MAX_ATTEMPTS := 5

  type Hashes = map<string, string>

  /** `legacy`: still labelled by an earlier manager, to be adopted by a rewrite. */
  datatype Content = Content(hashes: Hashes, legacy: bool)

  /** Every content of the Secret; empty while it is missing. */
  type Stored = seq<Content>

  /** What a run holds after reading the given contents: each read goes beneath the hashes
      held so far, and the desired hashes stay on top. */
  function Merged(views: seq<Hashes>, desired: Hashes): Hashes {
    if views == [] then desired else views[|views| - 1] + Merged(views[..|views| - 1], desired)
  }

  predicate Holds(hashes: Hashes, desired: Hashes) {
    forall k | k in desired :: k in hashes && hashes[k] == desired[k]
  }

  /** The first read that has key `k`. */
  predicate FirstRead(views: seq<Hashes>, k: string, i: nat) {
    i < |views| && k in views[i] && forall j | 0 <= j < i :: k !in views[j]
  }

  /** Exactly what a merge holds: the desired hashes, and for every other key the value of
      the earliest read that had it. */
  lemma {:induction false} MergedHolds(views: seq<Hashes>, desired: Hashes, k: string)
    ensures Holds(Merged(views, desired), desired)
    ensures k in Merged(views, desired) <==> k in desired || exists i :: 0 <= i < |views| && k in views[i]
    ensures forall i: nat | k !in desired && FirstRead(views, k, i) :: Merged(views, desired)[k] == views[i][k]
  {
    if views != [] {
      var most := views[..|views| - 1];
      MergedHolds(most, desired, k);
      forall q | q in desired
        ensures q in Merged(views, desired) && Merged(views, desired)[q] == desired[q]
      {
        assert q in Merged(most, desired);
      }
      forall i: nat | k !in desired && FirstRead(views, k, i)
        ensures Merged(views, desired)[k] == views[i][k]
      {
        if i < |most| {
          assert FirstRead(most, k, i);
        }
      }
      if k in Merged(most, desired) && k !in desired {
        var i :| 0 <= i < |most| && k in most[i];
        assert k in views[i];
      }
    }
  }

  /** Without a conflict there is a single read, and no value of another key is changed. */
  lemma OneReadIsKept(read: Hashes, desired: Hashes)
    ensures Merged([read], desired) == read + desired
  {
    assert [read][..0] == [];
    assert Merged([], desired) == desired;
  }

  /** A key of some read has a first one. */
  lemma {:induction false} HasFirstRead(views: seq<Hashes>, k: string, n: nat) returns (i: nat)
    requires n < |views| && k in views[n]
    ensures i <= n && FirstRead(views, k, i)
    decreases n
  {
    if j :| 0 <= j < n && k in views[j] {
      i := HasFirstRead(views, k, j);
    } else {
      i := n;
    }
  }

  /** A merge written over the last content read leaves a key it does not want unchanged
      exactly when the first read of that key saw the same value. */
  lemma MergeKeepsKey(views: seq<Hashes>, desired: Hashes, k: string, i: nat)
    requires views != [] && k in views[|views| - 1] && k !in desired && FirstRead(views, k, i)
    ensures k in Merged(views, desired)
    ensures Merged(views, desired)[k] == views[|views| - 1][k] <==> views[i][k] == views[|views| - 1][k]
  {
    MergedHolds(views, desired, k);
  }

  // ---------- any number of runs ----------

  datatype Progress =
    | Reading
    | Creating
    | Replacing(version: nat)
    | Returned(content: Content)
    | Failed

  /** `views` records the contents read, in order; the program only keeps their merge. */
  datatype Run = Run(desired: Hashes, views: seq<Hashes>, hashes: Hashes, attempts: nat, progress: Progress)

  datatype State = State(stored: Stored, runs: map<nat, Run>)

  datatype Step = Begin(run: nat, desired: Hashes) | Read(run: nat) | Write(run: nat) | Die(run: nat)

  function AfterRead(h: Stored, run: Run): Run {
    if |h| == 0 then run.(progress := Creating)
    else
      var existing := h[|h| - 1];
      var hashes := existing.hashes + run.hashes;
      var run' := run.(views := run.views + [existing.hashes], hashes := hashes);
      if !existing.legacy && existing.hashes == hashes then run'.(progress := Returned(existing))
      else run'.(progress := Replacing(|h| - 1))
  }

  predicate WriteSucceeds(h: Stored, run: Run) {
    match run.progress
    case Creating => |h| == 0
    case Replacing(v) => v + 1 == |h|
    case _ => false
  }

  function Retry(run: Run): Run {
    if run.attempts <= 1 then run.(attempts := 0, progress := Failed)
    else run.(attempts := run.attempts - 1, progress := Reading)
  }

  function AfterWrite(s: State, r: nat): State
    requires r in s.runs
  {
    var run := s.runs[r];
    var written := Content(run.hashes, false);
    if WriteSucceeds(s.stored, run) then State(s.stored + [written], s.runs[r := run.(progress := Returned(written))])
    else s.(runs := s.runs[r := Retry(run)])
  }

  predicate Next(s: State, step: Step, s': State) {
    match step
    case Begin(r, desired) =>
      r !in s.runs && s' == s.(runs := s.runs[r := Run(desired, [], desired, MAX_ATTEMPTS, Reading)])
    case Read(r) =>
      r in s.runs && s.runs[r].progress.Reading? && s' == s.(runs := s.runs[r := AfterRead(s.stored, s.runs[r])])
    case Write(r) =>
      r in s.runs && (s.runs[r].progress.Creating? || s.runs[r].progress.Replacing?) && s' == AfterWrite(s, r)
    case Die(r) => r in s.runs && s' == s.(runs := s.runs[r := s.runs[r].(progress := Failed)])
  }

  /** Version `v` still has every key of the version before it. */
  predicate KeysKeptAt(h: Stored, v: nat)
    requires 0 < v < |h|
  {
    h[v - 1].hashes.Keys <= h[v].hashes.Keys
  }

  predicate KeysKept(h: Stored) {
    forall v | 0 < v < |h| :: KeysKeptAt(h, v)
  }

  predicate RunOk(h: Stored, run: Run) {
    && run.hashes == Merged(run.views, run.desired)
    && (run.views != [] ==> |h| > 0)
    && (run.progress.Creating? ==> run.views == [])
    && (run.progress.Replacing? ==>
      && run.progress.version < |h| && h[run.progress.version].hashes.Keys <= run.hashes.Keys
      && run.views != [] && run.views[|run.views| - 1] == h[run.progress.version].hashes)
    && (run.progress.Returned? ==> run.progress.content in h && run.progress.content.hashes == run.hashes)
  }

  predicate Inv(s: State) {
    KeysKept(s.stored) && forall r | r in s.runs :: RunOk(s.stored, s.runs[r])
  }

  lemma ReadKeepsRun(h: Stored, run: Run)
    requires RunOk(h, run) && run.progress.Reading?
    ensures RunOk(h, AfterRead(h, run))
  {
    if |h| > 0 {
      var views := run.views + [h[|h| - 1].hashes];
      assert views[..|run.views|] == run.views;
    }
  }

  lemma WriteKeepsInv(s: State, r: nat)
    requires Inv(s) && r in s.runs && (s.runs[r].progress.Creating? || s.runs[r].progress.Replacing?)
    ensures Inv(AfterWrite(s, r)) && s.stored <= AfterWrite(s, r).stored
  {
    var run, s' := s.runs[r], AfterWrite(s, r);
    assert RunOk(s.stored, run);
    forall v | 0 < v < |s'.stored|
      ensures KeysKeptAt(s'.stored, v)
    {
      if v < |s.stored| { assert KeysKeptAt(s.stored, v); }
    }
    forall q | q in s'.runs
      ensures RunOk(s'.stored, s'.runs[q])
    {
      if q != r {
        assert RunOk(s.stored, s.runs[q]);
      } else if WriteSucceeds(s.stored, run) {
        assert s'.stored[|s.stored|] in s'.stored;
      }
    }
  }

  lemma StepKeepsInv(s: State, step: Step, s': State)
    requires Inv(s) && Next(s, step, s')
    ensures Inv(s') && s.stored <= s'.stored
  {
    if step.Write? {
      WriteKeepsInv(s, step.run);
    } else {
      if step.Read? {
        assert RunOk(s.stored, s.runs[step.run]);
        ReadKeepsRun(s.stored, s.runs[step.run]);
      }
      forall q | q in s'.runs
        ensures RunOk(s'.stored, s'.runs[q])
      {
        if q in s.runs { assert RunOk(s.stored, s.runs[q]); }
      }
    }
  }

  /** Starts with the Secret missing, or with whatever an earlier release left in it. */
  ghost predicate Behaviour(states: seq<State>, steps: seq<Step>) {
    && |states| == |steps| + 1
    && |states[0].stored| <= 1 && states[0].runs == map[]
    && forall k | 0 <= k < |steps| :: Next(states[k], steps[k], states[k + 1])
  }

  lemma {:induction false} BehaviourKeepsInv(states: seq<State>, steps: seq<Step>, j: nat, k: nat)
    requires Behaviour(states, steps) && j <= k < |states|
    ensures Inv(states[k]) && states[j].stored <= states[k].stored
  {
    if k > 0 {
      BehaviourKeepsInv(states, steps, if j < k then j else k - 1, k - 1);
      StepKeepsInv(states[k - 1], steps[k - 1], states[k]);
    }
  }

  lemma {:induction false} KeysStay(h: Stored, u: nat, v: nat)
    requires KeysKept(h) && u <= v < |h|
    ensures h[u].hashes.Keys <= h[v].hashes.Keys
  {
    if u < v {
      KeysStay(h, u, v - 1);
      assert KeysKeptAt(h, v);
    }
  }

  /** No write ever drops a key, in any interleaving of any number of runs. */
  lemma NoHashIsRemoved(states: seq<State>, steps: seq<Step>, j: nat, k: nat)
    requires Behaviour(states, steps) && j <= k < |states| && |states[j].stored| > 0
    ensures |states[k].stored| > 0
    ensures
      var a, b := states[j].stored, states[k].stored;
      a[|a| - 1].hashes.Keys <= b[|b| - 1].hashes.Keys
  {
    BehaviourKeepsInv(states, steps, j, k);
    KeysStay(states[k].stored, |states[j].stored| - 1, |states[k].stored| - 1);
  }

  /** A run returns only on a content of the Secret that holds all its desired hashes, and
      that content is exactly the merge of what it read. */
  lemma ReturnedRunIsHeld(states: seq<State>, steps: seq<Step>, k: nat, r: nat)
    requires Behaviour(states, steps) && k < |states|
    requires r in states[k].runs && states[k].runs[r].progress.Returned?
    ensures
      var run := states[k].runs[r];
      && run.progress.content in states[k].stored
      && Holds(run.progress.content.hashes, run.desired)
      && run.progress.content.hashes == Merged(run.views, run.desired)
  {
    BehaviourKeepsInv(states, steps, k, k);
    var run := states[k].runs[r];
    assert RunOk(states[k].stored, run);
    MergedHolds(run.views, run.desired, "");
  }

  /** The write of a run replaces a content, and keeps every key the run does not want. */
  predicate KeepsOthers(replaced: Hashes, written: Hashes, desired: Hashes) {
    forall k | k in replaced && k !in desired :: k in written && written[k] == replaced[k]
  }

  /** Every key the run does not want had, when it was first read, the value it has now. */
  ghost predicate FirstReadsCurrent(views: seq<Hashes>, replaced: Hashes, desired: Hashes) {
    forall k, i: nat | k in replaced && k !in desired && FirstRead(views, k, i) :: views[i][k] == replaced[k]
  }

  /** A committed write leaves all keys that its run does not want unchanged exactly when
      what the run first read of each of them is still current. */
  lemma CommitKeepsOthersWhenCurrent(states: seq<State>, steps: seq<Step>, k: nat, r: nat)
    requires Behaviour(states, steps) && k < |steps| && steps[k] == Write(r)
    requires |states[k].stored| > 0 && r in states[k].runs && WriteSucceeds(states[k].stored, states[k].runs[r])
    ensures
      var run, replaced := states[k].runs[r], states[k].stored[|states[k].stored| - 1].hashes;
      && states[k + 1].stored == states[k].stored + [Content(Merged(run.views, run.desired), false)]
      && (KeepsOthers(replaced, Merged(run.views, run.desired), run.desired) <==> FirstReadsCurrent(run.views, replaced, run.desired))
  {
    BehaviourKeepsInv(states, steps, k, k);
    assert Next(states[k], steps[k], states[k + 1]);
    var run, replaced := states[k].runs[r], states[k].stored[|states[k].stored| - 1].hashes;
    assert RunOk(states[k].stored, run) && run.views[|run.views| - 1] == replaced;
    var written := Merged(run.views, run.desired);
    forall key, i: nat | key in replaced && key !in run.desired && FirstRead(run.views, key, i)
      ensures key in written && (written[key] == replaced[key] <==> run.views[i][key] == replaced[key])
    {
      MergeKeepsKey(run.views, run.desired, key, i);
    }
    forall key | key in replaced && key !in run.desired
      ensures exists i: nat :: FirstRead(run.views, key, i)
    {
      var i := HasFirstRead(run.views, key, |run.views| - 1);
    }
  }

  function Begun(desired: Hashes): Run {
    Run(desired, [], desired, MAX_ATTEMPTS, Reading)
  }

  lemma ReadToReplace(h: Stored, run: Run, hashes: Hashes, k: string)
    requires |h| > 0 && hashes == h[|h| - 1].hashes + run.hashes
    requires k in hashes && (k !in h[|h| - 1].hashes || h[|h| - 1].hashes[k] != hashes[k])
    ensures
      AfterRead(h, run)
      == run.(views := run.views + [h[|h| - 1].hashes], hashes := hashes, progress := Replacing(|h| - 1))
  {
  }

  /** A run that has read `before`, over which it would write `hashes`. */
  function ReadOnce(desired: Hashes, before: Hashes, hashes: Hashes): Run {
    Begun(desired).(views := [] + [before], hashes := hashes, progress := Replacing(0))
  }

  /** Two runs read the same content, and the second one commits. */
  lemma OtherCommits(before: Hashes, first: Hashes, both: Hashes, second: Hashes, k: string, other: string)
    returns (states: seq<State>, steps: seq<Step>)
    requires before + first == both && before + second == second
    requires other in both && other !in before && k in before && k in second && before[k] != second[k]
    ensures Behaviour(states, steps)
    ensures
      states[|states| - 1] ==
      State([Content(before, false), Content(second, false)],
            map[0 := ReadOnce(first, before, both), 1 := ReadOnce(second, before, second).(progress := Returned(Content(second, false)))])
  {
    var h, a, b := [Content(before, false)], Begun(first), Begun(second);
    ReadToReplace(h, a, both, other);
    ReadToReplace(h, b, second, k);
    states, steps := [State(h, map[])], [];
    states, steps := Then(states, steps, Begin(0, first), State(h, map[0 := a]));
    states, steps := Then(states, steps, Begin(1, second), State(h, map[0 := a, 1 := b]));
    var a' := ReadOnce(first, before, both);
    states, steps := Then(states, steps, Read(0), State(h, map[0 := a', 1 := b]));
    var b' := ReadOnce(second, before, second);
    states, steps := Then(states, steps, Read(1), State(h, map[0 := a', 1 := b']));
    var b'' := b'.(progress := Returned(Content(second, false)));
    states, steps := Then(states, steps, Write(1), State([Content(before, false), Content(second, false)], map[0 := a', 1 := b'']));
  }

  /** The condition can fail: a run that does not want `k` puts its older value back over
      the newer one that another run committed between the first run's two reads. */
  lemma ConflictMayRevertOthers(k: string, other: string, older: string, newer: string, own: string) returns (states: seq<State>, steps: seq<Step>)
    requires k != other && older != newer
    ensures Behaviour(states, steps)
    ensures
      var last := states[|states| - 1];
      && 0 in last.runs && last.runs[0].desired == map[other := own] && last.runs[0].progress.Returned?
      && |last.stored| == 3
      && last.stored[1].hashes == map[k := newer] && last.stored[2].hashes == map[k := older, other := own]
  {
    var before, first, second, both := map[k := older], map[other := own], map[k := newer], map[k := older, other := own];
    assert before + first == both && before + second == second && second + both == both;
    states, steps := OtherCommits(before, first, both, second, k, other);
    var h, done := [Content(before, false), Content(second, false)], states[|states| - 1].runs[1];
    var a2 := Retry(ReadOnce(first, before, both));
    states, steps := Then(states, steps, Write(0), State(h, map[0 := a2, 1 := done]));
    var a3 := a2.(views := a2.views + [second], progress := Replacing(1));
    ReadToReplace(h, a2, both, k);
    states, steps := Then(states, steps, Read(0), State(h, map[0 := a3, 1 := done]));
    var a4 := a3.(progress := Returned(Content(both, false)));
    states, steps := Then(states, steps, Write(0), State(h + [Content(both, false)], map[0 := a4, 1 := done]));
  }

  lemma Then(states: seq<State>, steps: seq<Step>, step: Step, s: State) returns (states': seq<State>, steps': seq<Step>)
    requires Behaviour(states, steps) && Next(states[|states| - 1], step, s)
    ensures Behaviour(states', steps') && states'[|states'| - 1] == s
  {
    states', steps' := states + [s], steps + [step];
  }

  // ---------- the retry loop ----------

  /** What other runs write before the read and before the write of attempt `a`. */
  function At(interference: seq<(seq<Hashes>, seq<Hashes>)>, a: nat): (seq<Hashes>, seq<Hashes>) {
    if a < |interference| then interference[a] else ([], [])
  }

  /** The undisturbed effect of a run: created, left alone, or replaced by the merge. */
  function MergedInto(stored: Stored, desired: Hashes): Stored {
    if |stored| == 0 then [Content(desired, false)]
    else
      var latest := stored[|stored| - 1];
      if !latest.legacy && latest.hashes + desired == latest.hashes then stored
      else stored + [Content(latest.hashes + desired, false)]
  }

  class HashServer {
    var stored: Stored

    constructor (stored: Stored)
      ensures this.stored == stored
    {
      this.stored := stored;
    }

    /** Writes of other runs between two calls: each puts hashes on top of the latest content. */
    method Others(additions: seq<Hashes>)
      requires KeysKept(stored)
      modifies this
      ensures KeysKept(stored) && old(stored) <= stored && |stored| == |old(stored)| + |additions|
    {
      var k := 0;
      while k < |additions|
        invariant k <= |additions| && |stored| == |old(stored)| + k
        invariant KeysKept(stored) && old(stored) <= stored
      {
        var below := if |stored| == 0 then map[] else stored[|stored| - 1].hashes;
        Extend(stored, Content(below + additions[k], false));
        stored := stored + [Content(below + additions[k], false)];
        k := k + 1;
      }
    }

    /** The write over the content just read, after what other runs do first. */
    method Commit(views: seq<Hashes>, hashes: Hashes, between: seq<Hashes>) returns (written: bool)
      requires KeysKept(stored) && AllWere(stored, views) && KeysKept(stored + [Content(hashes, false)])
      modifies this
      ensures KeysKept(stored) && old(stored) <= stored && AllWere(stored, views)
      ensures written ==> |stored| > 0 && stored[|stored| - 1] == Content(hashes, false)
      ensures between == [] ==> written && stored == old(stored) + [Content(hashes, false)]
    {
      WereStays(stored, views);
      var version := |stored|;
      ghost var read := stored;
      Others(between);
      written := |stored| == version;
      if written {
        assert stored == read;
        stored := stored + [Content(hashes, false)];
      }
    }

    /** The read: what is there goes beneath, and nothing is to be done where that is it. */
    method ReadOver(desired: Hashes, views: seq<Hashes>, hashes: Hashes) returns (done: bool, views': seq<Hashes>, hashes': Hashes)
      requires KeysKept(stored) && hashes == Merged(views, desired) && AllWere(stored, views)
      ensures hashes' == Merged(views', desired) && AllWere(stored, views') && |views'| <= |views| + 1
      ensures done ==> |stored| > 0 && stored[|stored| - 1] == Content(hashes', false)
      ensures KeysKept(stored + [Content(hashes', false)])
      ensures MergedInto(stored, hashes) == if done then stored else stored + [Content(hashes', false)]
    {
      done, views', hashes' := false, views, hashes;
      if |stored| > 0 {
        var existing := stored[|stored| - 1];
        ReadGoesBeneath(stored, views, desired, existing);
        views' := views + [existing.hashes];
        hashes' := existing.hashes + hashes;
        done := !existing.legacy && existing.hashes == hashes';
      }
      assert stored == [] ==> stored + [Content(hashes', false)] == [Content(hashes', false)];
      Extend(stored, Content(hashes', false));
    }

    /** One pass of the loop, other runs writing before its read and before its write. */
    method TryOnce(desired: Hashes, views: seq<Hashes>, hashes: Hashes, before: seq<Hashes>, between: seq<Hashes>)
      returns (returned: bool, views': seq<Hashes>, hashes': Hashes)
      requires KeysKept(stored) && hashes == Merged(views, desired) && AllWere(stored, views)
      modifies this
      ensures KeysKept(stored) && old(stored) <= stored
      ensures hashes' == Merged(views', desired) && AllWere(stored, views') && |views'| <= |views| + 1
      ensures returned ==> |stored| > 0 && stored[|stored| - 1] == Content(hashes', false)
      ensures between == [] ==> returned
      ensures before == [] && between == [] ==> stored == MergedInto(old(stored), hashes)
    {
      WereStays(stored, views);
      Others(before);
      var done;
      done, views', hashes' := ReadOver(desired, views, hashes);
      if done { return true, views', hashes'; }
      returned := Commit(views', hashes', between);
    }

    /** The bounded loop. `views` lists the contents the run read. It survives conflicts: one
        undisturbed attempt of five is enough. What is returned is the latest content, and no
        longer that of an earlier manager. */
    method Reconcile(desired: Hashes, interference: seq<(seq<Hashes>, seq<Hashes>)>) returns (result: Attempt<Hashes>, views: seq<Hashes>)
      requires KeysKept(stored)
      modifies this
      ensures KeysKept(stored) && old(stored) <= stored
      ensures AllWere(stored, views)
      ensures result.Granted? ==> result.value == Merged(views, desired) && Holds(result.value, desired)
      ensures result.Granted? ==> |stored| > 0 && stored[|stored| - 1] == Content(result.value, false)
      ensures (exists a | 0 <= a < 5 :: At(interference, a).1 == []) ==> result.Granted?
      ensures interference == [] ==> |views| <= 1 && stored == MergedInto(old(stored), desired)
    {
      views := [];
      var hashes := desired;
      var attempt := 0;
      while attempt < MAX_ATTEMPTS
        invariant 0 <= attempt <= MAX_ATTEMPTS && KeysKept(stored) && old(stored) <= stored
        invariant hashes == Merged(views, desired) && AllWere(stored, views)
        invariant forall a | 0 <= a < attempt :: At(interference, a).1 != []
        invariant interference == [] ==> attempt == 0 && views == [] && stored == old(stored)
      {
        var (before, between) := At(interference, attempt);
        var returned;
        returned, views, hashes := TryOnce(desired, views, hashes, before, between);
        if returned {
          MergedHolds(views, desired, "");
          return Granted(hashes), views;
        }
        attempt := attempt + 1;
      }
      return Refused, views;
    }
  }

  /** Some content of the Secret had exactly these hashes. */
  ghost predicate Was(h: Stored, hashes: Hashes) {
    exists v :: 0 <= v < |h| && h[v].hashes == hashes
  }

  ghost predicate AllWere(h: Stored, views: seq<Hashes>) {
    forall i | 0 <= i < |views| :: Was(h, views[i])
  }

  lemma WereStays(h: Stored, views: seq<Hashes>)
    requires AllWere(h, views)
    ensures forall h': Stored | h <= h' :: AllWere(h', views)
  {
    forall h': Stored, i | h <= h' && 0 <= i < |views|
      ensures Was(h', views[i])
    {
      assert Was(h, views[i]);
      var v :| 0 <= v < |h| && h[v].hashes == views[i];
      assert h'[v].hashes == views[i];
    }
  }

  lemma ReadGoesBeneath(h: Stored, views: seq<Hashes>, desired: Hashes, existing: Content)
    requires AllWere(h, views) && |h| > 0 && existing == h[|h| - 1]
    ensures AllWere(h, views + [existing.hashes]) && Was(h, existing.hashes)
    ensures Merged(views + [existing.hashes], desired) == existing.hashes + Merged(views, desired)
    ensures Holds(existing.hashes + Merged(views, desired), desired)
  {
    assert (views + [existing.hashes])[..|views|] == views;
    MergedHolds(views, desired, "");
    assert h[|h| - 1].hashes == existing.hashes;
  }

  lemma Extend(h: Stored, c: Content)
    requires KeysKept(h) && (|h| > 0 ==> h[|h| - 1].hashes.Keys <= c.hashes.Keys)
    ensures KeysKept(h + [c])
  {
    forall v | 0 < v < |h + [c]|
      ensures KeysKeptAt(h + [c], v)
    {
      if v < |h| { assert KeysKeptAt(h, v); }
    }
  }
}
