/** When the concurrent hash merges of src/utils/identity_bootstrap.py lose a write, and when
    they give up. */
module HashConflicts {
  import opened HashMerge

  /** Step `j` is a write of run `r` that changes nothing. */
  predicate LostAt(states: seq<State>, steps: seq<Step>, j: nat, r: nat)
    requires j < |steps| && |states| == |steps| + 1
  {
    steps[j] == Write(r) && states[j + 1].stored == states[j].stored
  }

  function Lost(states: seq<State>, steps: seq<Step>, k: nat, r: nat): nat
    requires k <= |steps| && |states| == |steps| + 1
  {
    if k == 0 then 0 else Lost(states, steps, k - 1, r) + if LostAt(states, steps, k - 1, r) then 1 else 0
  }

  predicate Active(run: Run) {
    run.progress.Reading? || run.progress.Creating? || run.progress.Replacing?
  }

  predicate Awaiting(run: Run) {
    run.progress.Creating? || run.progress.Replacing?
  }

  /** What a step does to one run. */
  lemma RunNext(s: State, step: Step, s': State, r: nat)
    requires Next(s, step, s')
    ensures r in s.runs && step != Write(r) ==> r in s'.runs && s'.runs[r].attempts == s.runs[r].attempts
    ensures r in s.runs && step != Write(r) && step != Read(r) ==> s'.runs[r].progress.Failed? || s'.runs[r] == s.runs[r]
    ensures r in s.runs && step == Read(r) ==> s.runs[r].progress.Reading? && s'.runs[r] == AfterRead(s.stored, s.runs[r])
    ensures r in s.runs && step == Write(r) ==> Awaiting(s.runs[r]) && s' == AfterWrite(s, r)
    ensures r !in s.runs ==> step != Write(r) && step != Read(r) && (r in s'.runs ==> s'.runs[r].attempts == 5)
  {
  }

  /** The attempts left and the writes lost make five. */
  predicate Counted(states: seq<State>, steps: seq<Step>, k: nat, r: nat)
    requires k <= |steps| && |states| == |steps| + 1
  {
    if r !in states[k].runs then Lost(states, steps, k, r) == 0
    else
      && Lost(states, steps, k, r) + states[k].runs[r].attempts == 5
      && (Active(states[k].runs[r]) ==> states[k].runs[r].attempts > 0)
  }

  lemma {:induction false} AttemptsAreCounted(states: seq<State>, steps: seq<Step>, k: nat, r: nat)
    requires Behaviour(states, steps) && k < |states|
    ensures Counted(states, steps, k, r)
  {
    if k > 0 {
      AttemptsAreCounted(states, steps, k - 1, r);
      assert Next(states[k - 1], steps[k - 1], states[k]);
      RunNext(states[k - 1], steps[k - 1], states[k], r);
    }
  }

  /** A run fails by itself exactly at its fifth lost write. */
  lemma FailsExactly(states: seq<State>, steps: seq<Step>, k: nat, r: nat)
    requires Behaviour(states, steps) && k < |steps| && r in states[k].runs && steps[k] in {Read(r), Write(r)}
    ensures r in states[k + 1].runs
    ensures states[k + 1].runs[r].progress.Failed? <==> steps[k].Write? && Lost(states, steps, k + 1, r) == 5
  {
    AttemptsAreCounted(states, steps, k, r);
    assert Next(states[k], steps[k], states[k + 1]);
    RunNext(states[k], steps[k], states[k + 1], r);
  }

  lemma {:induction false} WaitsUnchanged(states: seq<State>, steps: seq<Step>, j: nat, k: nat, r: nat)
    requires Behaviour(states, steps) && j < k < |states| && r in states[j].runs && steps[j] == Read(r)
    requires forall i | j < i < k :: steps[i] != Read(r)
    ensures r in states[k].runs
    ensures Awaiting(states[k].runs[r]) ==> states[k].runs[r] == AfterRead(states[j].stored, states[j].runs[r])
  {
    assert Next(states[k - 1], steps[k - 1], states[k]);
    if k > j + 1 { WaitsUnchanged(states, steps, j, k - 1, r); }
    RunNext(states[k - 1], steps[k - 1], states[k], r);
  }

  /** The write after a read is lost exactly when something was stored in between; otherwise
      it stores one more content and the run returns that. */
  lemma LostExactly(states: seq<State>, steps: seq<Step>, j: nat, k: nat, r: nat)
    requires Behaviour(states, steps) && j < k < |steps| && steps[j] == Read(r) && steps[k] == Write(r)
    requires forall i | j < i < k :: steps[i] != Read(r)
    ensures LostAt(states, steps, k, r) <==> states[k].stored != states[j].stored
    ensures
      !LostAt(states, steps, k, r) ==>
        && r in states[k + 1].runs && states[k + 1].runs[r].progress.Returned?
        && states[k + 1].stored == states[k].stored + [states[k + 1].runs[r].progress.content]
  {
    assert Next(states[j], steps[j], states[j + 1]) && Next(states[k], steps[k], states[k + 1]);
    WaitsUnchanged(states, steps, j, k, r);
    BehaviourKeepsInv(states, steps, j, k);
    assert RunOk(states[k].stored, states[k].runs[r]);
    RunNext(states[k], steps[k], states[k + 1], r);
  }
}
