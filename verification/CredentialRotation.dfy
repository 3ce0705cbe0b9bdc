/** `_reconcile_oauth` and `_reconcile_admin` of src/utils/identity_bootstrap.py: bounded
    optimistic retries that rotate the components of one credential Secret by generation
    number. An OAuth Secret has two components, an admin Secret one. */
module CredentialRotation {
  import opened Outcomes

  const MAX_ATTEMPTS := 5

  /** A generated value is abstracted to the number of the generator call that made it. */
  datatype Component = Component(generation: nat, value: nat)

  type Credentials = seq<Component>

  /** Every content the Secret has had; empty while it is missing. */
  type Stored = seq<Credentials>

  type Generations = seq<nat>

  function Latest(h: Stored): Credentials
    requires |h| > 0
  {
    h[|h| - 1]
  }

  predicate CarryGenerations(c: Credentials, g: Generations) {
    |c| == |g| && forall i | 0 <= i < |g| :: c[i].generation == g[i]
  }

  /** `_generation` for every component: a request may not go back. */
  predicate MayRequest(c: Credentials, g: Generations) {
    |c| == |g| && forall i | 0 <= i < |g| :: c[i].generation <= g[i]
  }

  function Generated(g: Generations, next: nat): (c: Credentials)
    ensures CarryGenerations(c, g)
  {
    seq(|g|, i requires 0 <= i < |g| => Component(g[i], next + i))
  }

  /** Regenerate the components whose generation differs from the requested one. */
  function Rotated(c: Credentials, g: Generations, next: nat): (r: Credentials)
    requires |c| == |g|
    ensures CarryGenerations(r, g)
  {
    seq(|g|, i requires 0 <= i < |g| => if c[i].generation == g[i] then c[i] else Component(g[i], next + i))
  }

  // ---------- histories of the Secret ----------

  predicate Evolves(a: Credentials, b: Credentials) {
    && |a| == |b|
    && forall i | 0 <= i < |a| :: b[i] == a[i] || (a[i].generation < b[i].generation && a[i].value < b[i].value)
  }

  predicate EvolvesAt(h: Stored, v: nat)
    requires 0 < v < |h|
  {
    Evolves(h[v - 1], h[v])
  }

  predicate IsHistory(h: Stored, width: nat, next: nat) {
    && (forall v | 0 <= v < |h| :: |h[v]| == width)
    && (forall v | 0 < v < |h| :: EvolvesAt(h, v))
    && (|h| > 0 ==> forall i | 0 <= i < width :: Latest(h)[i].value < next)
  }

  lemma CreationIsHistory(g: Generations, next: nat)
    ensures IsHistory([Generated(g, next)], |g|, next + |g|)
  {
  }

  lemma RotationIsHistory(h: Stored, g: Generations, next: nat)
    requires IsHistory(h, |g|, next) && |h| > 0 && MayRequest(Latest(h), g)
    ensures IsHistory(h + [Rotated(Latest(h), g, next)], |g|, next + |g|)
  {
    var h' := h + [Rotated(Latest(h), g, next)];
    forall v | 0 < v < |h'|
      ensures EvolvesAt(h', v)
    {
      if v < |h| { assert EvolvesAt(h, v); }
    }
  }

  /** Generations never decrease, and a component keeps its bytes exactly as long as it
      keeps its generation, whatever happens to the other components. */
  lemma {:induction false} BytesFollowGeneration(h: Stored, width: nat, next: nat, u: nat, v: nat, i: nat)
    requires IsHistory(h, width, next) && u <= v < |h| && i < width
    ensures h[u][i].generation <= h[v][i].generation
    ensures h[u][i].generation == h[v][i].generation <==> h[u][i].value == h[v][i].value
    ensures h[u][i].value <= h[v][i].value
  {
    if u < v {
      BytesFollowGeneration(h, width, next, u, v - 1, i);
      assert EvolvesAt(h, v);
    }
  }

  // ---------- any number of reconcilers ----------

  datatype Progress =
    | Reading
    | Creating
    | Replacing(version: nat)
    | Returned(credentials: Credentials)
    | Failed

  datatype Run = Run(request: Generations, allowInitial: bool, attempts: nat, progress: Progress)

  datatype State = State(stored: Stored, next: nat, runs: map<nat, Run>)

  datatype Step = Begin(run: nat, request: Generations, allowInitial: bool) | Read(run: nat) | Write(run: nat) | Die(run: nat)

  function AfterRead(s: State, run: Run): Progress {
    if |s.stored| == 0 then
      if run.allowInitial then Creating else Failed
    else if !MayRequest(Latest(s.stored), run.request) then Failed
    else if CarryGenerations(Latest(s.stored), run.request) then Returned(Latest(s.stored))
    else Replacing(|s.stored| - 1)
  }

  /** A conflict uses up one attempt. */
  function Retry(run: Run): Run {
    if run.attempts <= 1 then run.(attempts := 0, progress := Failed)
    else run.(attempts := run.attempts - 1, progress := Reading)
  }

  predicate WriteSucceeds(s: State, run: Run) {
    match run.progress
    case Creating => |s.stored| == 0
    case Replacing(v) => |s.stored| > 0 && v == |s.stored| - 1 && |Latest(s.stored)| == |run.request|
    case _ => false
  }

  function AfterWrite(s: State, r: nat): State
    requires r in s.runs
  {
    var run := s.runs[r];
    if WriteSucceeds(s, run) then
      var written := if |s.stored| == 0 then Generated(run.request, s.next) else Rotated(Latest(s.stored), run.request, s.next);
      State(s.stored + [written], s.next + |run.request|, s.runs[r := run.(progress := Returned(written))])
    else
      s.(runs := s.runs[r := Retry(run)])
  }

  predicate Next(width: nat, s: State, step: Step, s': State) {
    match step
    case Begin(r, g, allow) =>
      && r !in s.runs && |g| == width && (forall i | 0 <= i < width :: 1 <= g[i])
      && s' == s.(runs := s.runs[r := Run(g, allow, MAX_ATTEMPTS, Reading)])
    case Read(r) =>
      && r in s.runs && s.runs[r].progress.Reading? && s.runs[r].attempts > 0
      && s' == s.(runs := s.runs[r := s.runs[r].(progress := AfterRead(s, s.runs[r]))])
    case Write(r) =>
      && r in s.runs && (s.runs[r].progress.Creating? || s.runs[r].progress.Replacing?)
      && s' == AfterWrite(s, r)
    case Die(r) => r in s.runs && s' == s.(runs := s.runs[r := s.runs[r].(progress := Failed)])
  }

  predicate IsStored(h: Stored, c: Credentials) {
    c in h
  }

  predicate RunOk(width: nat, s: State, run: Run) {
    && |run.request| == width
    && (run.progress.Returned? ==> CarryGenerations(run.progress.credentials, run.request) && IsStored(s.stored, run.progress.credentials))
    && (run.progress.Replacing? ==>
      run.progress.version < |s.stored| && MayRequest(s.stored[run.progress.version], run.request))
  }

  predicate Inv(width: nat, s: State) {
    IsHistory(s.stored, width, s.next) && forall r | r in s.runs :: RunOk(width, s, s.runs[r])
  }

  lemma WriteKeepsInv(width: nat, s: State, r: nat)
    requires Inv(width, s) && r in s.runs && (s.runs[r].progress.Creating? || s.runs[r].progress.Replacing?)
    ensures Inv(width, AfterWrite(s, r)) && s.stored <= AfterWrite(s, r).stored
  {
    var run, s' := s.runs[r], AfterWrite(s, r);
    assert RunOk(width, s, run);
    if WriteSucceeds(s, run) {
      if |s.stored| == 0 {
        CreationIsHistory(run.request, s.next);
        assert s'.stored == [Generated(run.request, s.next)];
      } else {
        RotationIsHistory(s.stored, run.request, s.next);
      }
      assert Latest(s'.stored) in s'.stored;
    }
    forall q | q in s'.runs
      ensures RunOk(width, s', s'.runs[q])
    {
      if q != r { assert RunOk(width, s, s.runs[q]); }
    }
  }

  lemma StepKeepsInv(width: nat, s: State, step: Step, s': State)
    requires Inv(width, s) && Next(width, s, step, s')
    ensures Inv(width, s') && s.stored <= s'.stored
  {
    if step.Write? {
      WriteKeepsInv(width, s, step.run);
    } else {
      forall q | q in s'.runs
        ensures RunOk(width, s', s'.runs[q])
      {
        if q in s.runs { assert RunOk(width, s, s.runs[q]); }
      }
    }
  }

  ghost predicate Behaviour(width: nat, states: seq<State>, steps: seq<Step>) {
    && |states| == |steps| + 1
    && states[0].stored == [] && states[0].runs == map[]
    && forall k | 0 <= k < |steps| :: Next(width, states[k], steps[k], states[k + 1])
  }

  lemma {:induction false} BehaviourKeepsInv(width: nat, states: seq<State>, steps: seq<Step>, j: nat, k: nat)
    requires Behaviour(width, states, steps) && j <= k < |states|
    ensures Inv(width, states[k]) && states[j].stored <= states[k].stored
  {
    if k > 0 {
      BehaviourKeepsInv(width, states, steps, if j < k then j else k - 1, k - 1);
      StepKeepsInv(width, states[k - 1], steps[k - 1], states[k]);
    }
  }

  /** Credential agreement. Runs that return agree on the bytes of every component they
      were both asked to bring to the same generation; asked for the same generations,
      they return the same credentials. */
  lemma ReturnedRunsAgree(width: nat, states: seq<State>, steps: seq<Step>, j: nat, k: nat, q: nat, r: nat)
    requires Behaviour(width, states, steps) && j <= k < |states|
    requires q in states[j].runs && states[j].runs[q].progress.Returned?
    requires r in states[k].runs && states[k].runs[r].progress.Returned?
    ensures
      var a, b := states[j].runs[q], states[k].runs[r];
      && |a.progress.credentials| == |a.request| == |b.request| == |b.progress.credentials| == width
      && (forall i | 0 <= i < width ::
        a.request[i] == b.request[i] <==> a.progress.credentials[i].value == b.progress.credentials[i].value)
      && (a.request == b.request ==> a.progress.credentials == b.progress.credentials)
  {
    BehaviourKeepsInv(width, states, steps, j, j);
    BehaviourKeepsInv(width, states, steps, j, k);
    var a, b := states[j].runs[q], states[k].runs[r];
    assert RunOk(width, states[j], a) && RunOk(width, states[k], b);
    var h := states[k].stored;
    var u :| 0 <= u < |states[j].stored| && states[j].stored[u] == a.progress.credentials;
    var v :| 0 <= v < |h| && h[v] == b.progress.credentials;
    assert h[u] == a.progress.credentials;
    forall i | 0 <= i < width
      ensures a.request[i] == b.request[i] <==> a.progress.credentials[i].value == b.progress.credentials[i].value
    {
      if u <= v { BytesFollowGeneration(h, width, states[k].next, u, v, i); }
      else { BytesFollowGeneration(h, width, states[k].next, v, u, i); }
    }
  }

  /** Stored generations never decrease, and rotating some components keeps the others. */
  lemma StoredGenerationsGrow(width: nat, states: seq<State>, steps: seq<Step>, j: nat, k: nat, i: nat)
    requires Behaviour(width, states, steps) && j <= k < |states| && |states[j].stored| > 0 && i < width
    ensures |states[k].stored| > 0 && |Latest(states[j].stored)| == |Latest(states[k].stored)| == width
    ensures
      var a, b := Latest(states[j].stored)[i], Latest(states[k].stored)[i];
      a.generation <= b.generation && (a.generation == b.generation <==> a.value == b.value)
  {
    BehaviourKeepsInv(width, states, steps, j, k);
    var h := states[k].stored;
    BytesFollowGeneration(h, width, states[k].next, |states[j].stored| - 1, |h| - 1, i);
  }

  /** No component is requested beyond `g`. */
  predicate Within(request: Generations, g: Generations) {
    |request| == |g| ==> forall i | 0 <= i < |g| :: request[i] <= g[i]
  }

  predicate AllWithin(requests: seq<Generations>, g: Generations) {
    forall k | 0 <= k < |requests| :: Within(requests[k], g)
  }

  predicate InBounds(stored: Stored, bound: Generations) {
    |stored| > 0 ==> MayRequest(Latest(stored), bound)
  }

  /** The Secret is there, and not beyond the request, or the run may create it. */
  predicate MayGoOn(stored: Stored, allowInitial: bool, request: Generations) {
    InBounds(stored, request) && (|stored| > 0 || allowInitial)
  }

  datatype Intent = Fail | Return(credentials: Credentials) | Put(credentials: Credentials)

  /** What a run does once it has read the Secret, with newly generated bytes from `next` on. */
  function IntentOn(stored: Stored, allowInitial: bool, request: Generations, next: nat): Intent {
    if |stored| == 0 then (if allowInitial then Put(Generated(request, next)) else Fail)
    else if !MayRequest(Latest(stored), request) then Fail
    else if CarryGenerations(Latest(stored), request) then Return(Latest(stored))
    else Put(Rotated(Latest(stored), request, next))
  }

  lemma IntentIsSound(stored: Stored, allowInitial: bool, request: Generations, next: nat)
    requires IsHistory(stored, |request|, next)
    ensures
      match IntentOn(stored, allowInitial, request, next)
      case Fail => !MayGoOn(stored, allowInitial, request)
      case Return(c) => c in stored && CarryGenerations(c, request)
      case Put(c) =>
        && CarryGenerations(c, request) && IsHistory(stored + [c], |request|, next + |request|)
        && IsHistory(stored, |request|, next + |request|)
  {
    if |stored| == 0 {
      CreationIsHistory(request, next);
      assert stored + [Generated(request, next)] == [Generated(request, next)];
    } else if MayRequest(Latest(stored), request) {
      RotationIsHistory(stored, request, next);
    }
  }

  /** What other runs ask for before call `k`; calls beyond the last list are undisturbed. */
  function At(interference: seq<seq<Generations>>, k: nat): seq<Generations> {
    if k < |interference| then interference[k] else []
  }

  // ---------- the retry loop ----------

  /** The API server, with other runs writing between the calls of the one modelled. */
  class SecretServer {
    var stored: Stored
    var next: nat

    predicate Valid(width: nat)
      reads this
    {
      IsHistory(stored, width, next)
    }

    constructor ()
      ensures stored == [] && next == 0
    {
      stored, next := [], 0;
    }

    /** Other runs bring the Secret to the requested generations, where that is allowed. */
    method Others(width: nat, requests: seq<Generations>, ghost bound: Generations)
      requires Valid(width)
      modifies this
      ensures Valid(width) && old(stored) <= stored && old(next) <= next
      ensures requests == [] ==> stored == old(stored) && next == old(next)
      ensures |bound| == width && AllWithin(requests, bound) && InBounds(old(stored), bound) ==> InBounds(stored, bound)
    {
      var k := 0;
      while k < |requests|
        invariant Valid(width) && old(stored) <= stored && old(next) <= next
        invariant requests == [] ==> stored == old(stored) && next == old(next)
        invariant |bound| == width && AllWithin(requests, bound) && InBounds(old(stored), bound) ==> InBounds(stored, bound)
      {
        var g := requests[k];
        assert AllWithin(requests, bound) ==> Within(g, bound);
        if |g| == width {
          if |stored| == 0 {
            CreationIsHistory(g, next);
            stored, next := [Generated(g, next)], next + |g|;
          } else if MayRequest(Latest(stored), g) {
            RotationIsHistory(stored, g, next);
            stored, next := stored + [Rotated(Latest(stored), g, next)], next + |g|;
          }
        }
        k := k + 1;
      }
    }

    /** `_write_secret` for the content read as version `version`, None for a create; false
        on a conflict. */
    method WriteSecret(version: Option<nat>, c: Credentials) returns (written: bool)
      modifies this
      ensures written <==> |old(stored)| == if version.Some? then version.value + 1 else 0
      ensures stored == if written then old(stored) + [c] else old(stored)
      ensures next == old(next)
    {
      written := |stored| == if version.Some? then version.value + 1 else 0;
      if written {
        stored := stored + [c];
      }
    }

    /** The write over the content just read, after what other runs do first. */
    method Commit(request: Generations, c: Credentials, between: seq<Generations>) returns (written: bool)
      requires Valid(|request|) && IsHistory(stored + [c], |request|, next) && CarryGenerations(c, request)
      modifies this
      ensures Valid(|request|) && old(stored) <= stored && old(next) <= next
      ensures written ==> c in stored && Latest(stored) == c
      ensures between == [] ==> written && stored == old(stored) + [c]
      ensures InBounds(old(stored), request) && AllWithin(between, request) ==> InBounds(stored, request)
      ensures !written ==> |stored| > 0
    {
      ghost var read := stored;
      var existing := if |stored| == 0 then None else Some(|stored| - 1);
      Others(|request|, between, request);
      written := WriteSecret(existing, c);
      if written {
        assert stored == read + [c] && stored[|read|] == c;
      }
    }

    /** One pass of the loop, other runs writing before its read and before its write; `None`
        when it ends in a conflict. */
    method TryOnce(request: Generations, allowInitial: bool, before: seq<Generations>, between: seq<Generations>)
      returns (outcome: Option<Attempt<Credentials>>)
      requires Valid(|request|)
      modifies this
      ensures Valid(|request|) && old(stored) <= stored && old(next) <= next
      ensures outcome == None ==> between != []
      ensures outcome.Some? && outcome.value.Granted? ==>
        outcome.value.value in stored && CarryGenerations(outcome.value.value, request)
      ensures MayGoOn(old(stored), allowInitial, request) && AllWithin(before, request) && AllWithin(between, request) ==>
        outcome != Some(Refused) && MayGoOn(stored, allowInitial, request)
      ensures |old(stored)| == 0 && !allowInitial && before == [] ==> outcome == Some(Refused) && stored == []
      ensures |old(stored)| > 0 && !MayRequest(old(Latest(stored)), request) ==> outcome == Some(Refused)
      ensures before == [] && between == [] && MayGoOn(old(stored), allowInitial, request) ==>
        && outcome.Some? && outcome.value.Granted?
        && (|old(stored)| == 0 ==> stored == [outcome.value.value] && outcome.value.value == Generated(request, old(next)))
        && (|old(stored)| > 0 ==>
              stored == if CarryGenerations(old(Latest(stored)), request) then old(stored) else old(stored) + [outcome.value.value])
    {
      Others(|request|, before, request);
      if |old(stored)| > 0 && !MayRequest(old(Latest(stored)), request) { GenerationsNeverGoBack(stored, request, next, |old(stored)| - 1); }
      var intent := IntentOn(stored, allowInitial, request, next);
      IntentIsSound(stored, allowInitial, request, next);
      match intent {
        case Fail => return Some(Refused);
        case Return(c) => return Some(Granted(c));
        case Put(c) =>
          // The generator calls are used up whether or not the write goes through.
          next := next + |request|;
          var written := Commit(request, c, between);
          return if written then Some(Granted(c)) else None;
      }
    }

    /** `interference` says what other runs do before each of this run's API calls: list
        `2 * a` before the read of attempt `a`, list `2 * a + 1` between its read and write.
        The run survives conflicts: it fails only if it would have to create the Secret but may
        not, some request goes beyond its own, or each of five attempts meets a conflict. */
    method Reconcile(request: Generations, allowInitial: bool, interference: seq<seq<Generations>>) returns (result: Attempt<Credentials>)
      requires Valid(|request|)
      modifies this
      ensures Valid(|request|) && old(stored) <= stored
      ensures result.Granted? ==> result.value in stored && CarryGenerations(result.value, request)
      ensures
        && MayGoOn(old(stored), allowInitial, request)
        && (forall k | 0 <= k < |interference| :: AllWithin(interference[k], request))
        && (exists a | 0 <= a < 5 :: At(interference, 2 * a + 1) == [])
        ==> result.Granted?
      ensures |old(stored)| == 0 && !allowInitial && interference == [] ==> result.Refused? && stored == []
      ensures |old(stored)| > 0 && !MayRequest(old(Latest(stored)), request) ==> result.Refused?
      ensures MayGoOn(old(stored), allowInitial, request) && interference == [] ==>
        && result.Granted?
        && (|old(stored)| == 0 ==> stored == [result.value] && result.value == Generated(request, old(next)))
        && (|old(stored)| > 0 ==>
              stored == if CarryGenerations(old(Latest(stored)), request) then old(stored) else old(stored) + [result.value])
    {
      var attempt := 0;
      ghost var fair := MayGoOn(stored, allowInitial, request) && forall k | 0 <= k < |interference| :: AllWithin(interference[k], request);
      while attempt < MAX_ATTEMPTS
        invariant 0 <= attempt <= MAX_ATTEMPTS && Valid(|request|) && old(stored) <= stored
        invariant fair ==> MayGoOn(stored, allowInitial, request)
        invariant forall a | 0 <= a < attempt :: At(interference, 2 * a + 1) != []
        invariant interference == [] ==> attempt == 0 && stored == old(stored) && next == old(next)
        invariant |old(stored)| > 0 && !MayRequest(old(Latest(stored)), request) ==> attempt == 0 && stored == old(stored)
      {
        var outcome := TryOnce(request, allowInitial, At(interference, 2 * attempt), At(interference, 2 * attempt + 1));
        if outcome.Some? { return outcome.value; }
        attempt := attempt + 1;
      }
      return Refused;
    }
  }

  lemma GenerationsNeverGoBack(h: Stored, g: Generations, next: nat, u: nat)
    requires IsHistory(h, |g|, next) && u < |h| && !MayRequest(h[u], g)
    ensures !MayRequest(Latest(h), g)
  {
    var i :| 0 <= i < |g| && g[i] < h[u][i].generation;
    BytesFollowGeneration(h, |g|, next, u, |h| - 1, i);
  }
}
