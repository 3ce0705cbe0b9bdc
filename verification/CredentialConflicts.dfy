/** When the concurrent reconcilers of src/utils/identity_bootstrap.py lose a write, and when
    they give up. */
module CredentialConflicts {
  import opened CredentialRotation

  /** Step `j` is a write of run `r` that changes nothing. */
  predicate LostAt(states: seq<State>, steps: seq<Step>, j: nat, r: nat)
    requires j < |steps| && |states| == |steps| + 1
  {
    steps[j] == Write(r) && states[j + 1].stored == states[j].stored
  }

  function Lost(states: seq<State>, steps: seq<Step>, k: nat, r: nat): nat
    requires k <= |steps| && |states| == |steps| + 1
  {
    if k == 0 then 0 else Lost(states, steps, k - 1, r) + if LostAt(states, steps, k - 1, r) then 1 else 0
  }

  predicate Active(run: Run) {
    run.progress.Reading? || run.progress.Creating? || run.progress.Replacing?
  }

  predicate Awaiting(run: Run) {
    run.progress.Creating? || run.progress.Replacing?
  }

  /** What a step does to one run. */
  lemma RunNext(width: nat, s: State, step: Step, s': State, r: nat)
    requires Next(width, s, step, s')
    ensures r in s.runs && step != Write(r) ==> r in s'.runs && s'.runs[r].attempts == s.runs[r].attempts
    ensures r in s.runs && step != Write(r) && step != Read(r) ==> s'.runs[r].progress.Failed? || s'.runs[r] == s.runs[r]
    ensures r in s.runs && step == Read(r) ==> s.runs[r].progress.Reading? && s'.runs[r] == s.runs[r].(progress := AfterRead(s, s.runs[r]))
    ensures r in s.runs && step == Write(r) ==> Awaiting(s.runs[r]) && s' == AfterWrite(s, r)
    ensures r !in s.runs ==> step != Write(r) && step != Read(r) && (r in s'.runs ==> s'.runs[r].attempts == 5)
  {
  }

  /** The attempts left and the writes lost make five. */
  predicate Counted(states: seq<State>, steps: seq<Step>, k: nat, r: nat)
    requires k <= |steps| && |states| == |steps| + 1
  {
    if r !in states[k].runs then Lost(states, steps, k, r) == 0
    else
      && Lost(states, steps, k, r) + states[k].runs[r].attempts == 5
      && (Active(states[k].runs[r]) ==> states[k].runs[r].attempts > 0)
  }

  lemma {:induction false} AttemptsAreCounted(width: nat, states: seq<State>, steps: seq<Step>, k: nat, r: nat)
    requires Behaviour(width, states, steps) && k < |states|
    ensures Counted(states, steps, k, r)
  {
    if k > 0 {
      AttemptsAreCounted(width, states, steps, k - 1, r);
      assert Next(width, states[k - 1], steps[k - 1], states[k]);
      RunNext(width, states[k - 1], steps[k - 1], states[k], r);
    }
  }

  /** A run fails by itself only when it reads a Secret that it may not create or must not
      set back, or at its fifth lost write, and then it does. */
  lemma FailsExactly(width: nat, states: seq<State>, steps: seq<Step>, k: nat, r: nat)
    requires Behaviour(width, states, steps) && k < |steps| && r in states[k].runs && steps[k] in {Read(r), Write(r)}
    ensures r in states[k + 1].runs
    ensures
      var run := states[k].runs[r];
      states[k + 1].runs[r].progress.Failed? <==>
        if steps[k].Read? then !MayGoOn(states[k].stored, run.allowInitial, run.request) else Lost(states, steps, k + 1, r) == 5
  {
    AttemptsAreCounted(width, states, steps, k, r);
    assert Next(width, states[k], steps[k], states[k + 1]);
    RunNext(width, states[k], steps[k], states[k + 1], r);
  }

  lemma {:induction false} WaitsUnchanged(width: nat, states: seq<State>, steps: seq<Step>, j: nat, k: nat, r: nat)
    requires Behaviour(width, states, steps) && j < k < |states| && r in states[j].runs && steps[j] == Read(r)
    requires forall i | j < i < k :: steps[i] != Read(r)
    ensures r in states[k].runs
    ensures Awaiting(states[k].runs[r]) ==> states[k].runs[r] == states[j].runs[r].(progress := AfterRead(states[j], states[j].runs[r]))
  {
    assert Next(width, states[k - 1], steps[k - 1], states[k]);
    if k > j + 1 { WaitsUnchanged(width, states, steps, j, k - 1, r); }
    RunNext(width, states[k - 1], steps[k - 1], states[k], r);
  }

  /** The write after a read is lost exactly when something was stored in between; otherwise
      it stores one more content and the run returns that. */
  lemma LostExactly(width: nat, states: seq<State>, steps: seq<Step>, j: nat, k: nat, r: nat)
    requires Behaviour(width, states, steps) && j < k < |steps| && steps[j] == Read(r) && steps[k] == Write(r)
    requires forall i | j < i < k :: steps[i] != Read(r)
    ensures LostAt(states, steps, k, r) <==> states[k].stored != states[j].stored
    ensures
      !LostAt(states, steps, k, r) ==>
        && r in states[k + 1].runs && states[k + 1].runs[r].progress.Returned?
        && states[k + 1].stored == states[k].stored + [states[k + 1].runs[r].progress.credentials]
  {
    assert Next(width, states[j], steps[j], states[j + 1]) && Next(width, states[k], steps[k], states[k + 1]);
    WaitsUnchanged(width, states, steps, j, k, r);
    BehaviourKeepsInv(width, states, steps, j, k);
    assert RunOk(width, states[k], states[k].runs[r]);
    RunNext(width, states[k], steps[k], states[k + 1], r);
  }
}
