/** `calculate_pod_status` of src/operator/backend_listener.py and its helpers: the task
    status and exit code reported for a Pod. */
module PodStatus {
  import opened Outcomes

  datatype Status =
    | SCHEDULING | INITIALIZING | RUNNING | COMPLETED
    | FAILED | FAILED_START_ERROR | FAILED_EVICTED | FAILED_PREEMPTED | FAILED_BACKEND_ERROR | FAILED_IMAGE_PULL
  {
    predicate Failed() {
      !SCHEDULING? && !INITIALIZING? && !RUNNING? && !COMPLETED?
    }

    predicate Unfinished() {
      SCHEDULING? || INITIALIZING? || RUNNING?
    }
  }

  const BACKEND_ERROR_CODE := 3001
  const START_ERROR_CODE := 3003
  const EVICTED_CODE := 3004
  const PREEMPTED_CODE := 3006
  const UNKNOWN_CODE := 4000

  /** A reason that is not set is the empty string. `ctrlCode` is the number under `code`
      when the termination message is a JSON object that has one. */
  datatype ContainerState =
    | Up
    | Waiting(reason: string)
    | Terminated(reason: string, exitCode: int, ctrlCode: Option<int>)

  datatype Container = Container(name: string, state: ContainerState)

  datatype Condition = Condition(kind: string, status: string, reason: string, since: Option<int>)

  datatype Pod = Pod(
    phase: string,
    reason: string,
    conditions: seq<Condition>,
    initContainers: seq<Container>,
    containers: seq<Container>)

  datatype Verdict = Verdict(status: Status, exitCode: Option<int>)

  // ---------- containers ----------

  predicate Contains(s: string, part: string) {
    part <= s || (s != [] && Contains(s[1..], part))
  }

  const WAITING_REASONS := ["Failed", "BackOff", "Error", "ErrImagePull", "ImagePullBackOff", "ContainerStatusUnknown"]

  predicate WaitsOnError(c: Container) {
    c.state.Waiting? && exists i | 0 <= i < |WAITING_REASONS| :: Contains(c.state.reason, WAITING_REASONS[i])
  }

  /** The default is for reasons the table does not list. */
  function WaitingCode(reason: string): int {
    match reason
    case "ImagePullBackOff" => 301
    case "ErrImagePull" => 302
    case "ContainerCreateConfigError" => 303
    case "CrashLoopBackOff" => 304
    case "ContainerStatusUnknown" => 305
    case _ => 999
  }

  /** `get_container_exit_code`. */
  function Adjusted(name: string, code: int): int {
    match name
    case "osmo-init" => 255 + code
    case "preflight-test" => 1000 + code
    case "osmo-ctrl" => 2000 + code
    case _ => code
  }

  predicate HasFailed(c: Container) {
    c.state.Terminated? && c.state.reason != "Completed"
  }

  function FailureCode(c: Container): int
    requires HasFailed(c)
  {
    if c.name == "osmo-ctrl" && c.state.ctrlCode.Some? then c.state.ctrlCode.value else c.state.exitCode
  }

  /** The two dicts of `get_container_failure_message`, by container name. */
  function Codes(cs: seq<Container>): map<string, int> {
    if cs == [] then map[]
    else
      var c, before := cs[|cs| - 1], Codes(cs[..|cs| - 1]);
      if HasFailed(c) then before[c.name := FailureCode(c)] else before
  }

  function Reasons(cs: seq<Container>): map<string, string> {
    if cs == [] then map[]
    else
      var c, before := cs[|cs| - 1], Reasons(cs[..|cs| - 1]);
      if HasFailed(c) then before[c.name := c.state.reason] else before
  }

  /** `code` is what `get_exit_code` reports for these codes: their adjusted maximum. */
  ghost predicate IsReported(codes: map<string, int>, code: Option<int>) {
    && (code.None? <==> codes == map[])
    && (code.Some? ==>
          && (exists n :: n in codes && Adjusted(n, codes[n]) == code.value)
          && forall n | n in codes :: Adjusted(n, codes[n]) <= code.value)
  }

  // ---------- the declarative verdict ----------

  predicate Preempted(pod: Pod) {
    exists i | 0 <= i < |pod.conditions| ::
      pod.conditions[i].status == "True" && pod.conditions[i].reason == "PreemptionByScheduler"
  }

  predicate Disrupted(pod: Pod) {
    exists i | 0 <= i < |pod.conditions| ::
      pod.conditions[i].kind == "DisruptionTarget" && pod.conditions[i].status == "True"
  }

  predicate StuckIn(c: Condition, now: int, limit: int) {
    c.kind == "Ready" && c.status == "False" && c.since.Some? && now - c.since.value > limit
  }

  predicate Stuck(pod: Pod, now: int, limit: int) {
    exists i | 0 <= i < |pod.conditions| :: StuckIn(pod.conditions[i], now, limit)
  }

  predicate KnownPhase(phase: string) {
    phase in {"Pending", "Running", "Succeeded", "Failed", "StartError"}
  }

  predicate IsPreparing(c: Container) {
    c.state.Waiting? && c.state.reason in {"ContainerCreating", "PodInitializing"}
  }

  predicate Preparing(pod: Pod) {
    exists i | 0 <= i < |pod.initContainers| :: IsPreparing(pod.initContainers[i])
  }

  predicate EndsPod(c: Container) {
    c.state.Terminated? && (c.name == "osmo-ctrl" || c.state.reason == "StartError")
  }

  predicate NeedsCleanup(pod: Pod) {
    exists i | 0 <= i < |pod.containers| :: EndsPod(pod.containers[i])
  }

  predicate OutOfMemory(pod: Pod) {
    var reasons := Reasons(pod.initContainers + pod.containers);
    exists n | n in reasons :: reasons[n] == "OOMKilled"
  }

  /** Position of the first container waiting on an error, or the length. */
  function FirstWaiting(cs: seq<Container>): (i: nat)
    ensures i <= |cs|
    ensures i < |cs| ==> WaitsOnError(cs[i])
    ensures forall j | 0 <= j < i :: !WaitsOnError(cs[j])
  {
    if cs == [] || WaitsOnError(cs[0]) then 0 else 1 + FirstWaiting(cs[1..])
  }

  function FromWaiting(pod: Pod, now: int, c: Container): Verdict
    requires c.state.Waiting?
  {
    var code := Some(Adjusted(c.name, WaitingCode(c.state.reason)));
    var lost := Verdict(FAILED_BACKEND_ERROR, Some(BACKEND_ERROR_CODE));
    match c.state.reason
    case "ErrImagePull" => Verdict(FAILED_IMAGE_PULL, code)
    case "ImagePullBackOff" => Verdict(FAILED_IMAGE_PULL, code)
    case "CreateContainerConfigError" => if Stuck(pod, now, 10 * 60) then lost else Verdict(SCHEDULING, None)
    case "ContainerStatusUnknown" => if Stuck(pod, now, 30 * 60) then lost else Verdict(SCHEDULING, None)
    case _ => Verdict(FAILED, code)
  }

  ghost predicate FromPhase(pod: Pod, v: Verdict)
    requires KnownPhase(pod.phase)
  {
    var codes := Codes(pod.initContainers + pod.containers);
    if pod.phase == "Pending" then v == Verdict(SCHEDULING, None)
    else if pod.phase == "Succeeded" then v == Verdict(COMPLETED, Some(0))
    else if pod.phase == "Running" then
      if NeedsCleanup(pod) && codes != map[] then v.status == FAILED && IsReported(codes, v.exitCode)
      else v == Verdict(RUNNING, None)
    else if OutOfMemory(pod) then v == Verdict(FAILED_EVICTED, Some(EVICTED_CODE))
    else
      && v.status == (if pod.phase == "Failed" then FAILED else FAILED_START_ERROR)
      && if codes == map[] then v.exitCode == Some(UNKNOWN_CODE) else IsReported(codes, v.exitCode)
  }

  /** The verdict by falling priority: preemption, the Pod's own reason, DisruptionTarget, a
      container waiting on an error, init containers still being prepared, the phase. */
  ghost predicate Decides(pod: Pod, now: int, v: Attempt<Verdict>) {
    var chain := pod.containers + pod.initContainers;
    var waiting := FirstWaiting(chain);
    if Preempted(pod) then v == Granted(Verdict(FAILED_PREEMPTED, Some(PREEMPTED_CODE)))
    else if !KnownPhase(pod.phase) then v == Refused
    else if pod.reason == "Evicted" then v == Granted(Verdict(FAILED_EVICTED, Some(EVICTED_CODE)))
    else if pod.reason == "StartError" then v == Granted(Verdict(FAILED_START_ERROR, Some(START_ERROR_CODE)))
    else if pod.reason == "UnexpectedAdmissionError" || Disrupted(pod) then
      v == Granted(Verdict(FAILED_BACKEND_ERROR, Some(BACKEND_ERROR_CODE)))
    else if waiting < |chain| then v == Granted(FromWaiting(pod, now, chain[waiting]))
    else if Preparing(pod) then v == Granted(Verdict(INITIALIZING, None))
    else v.Granted? && FromPhase(pod, v.value)
  }

  // ---------- the procedure ----------

  datatype WaitingStatus = NotOnError | OnError(reason: string, codes: map<string, int>)

  datatype ErrorInfo = ErrorInfo(codes: map<string, int>, reasons: map<string, string>)

  /** `PodErrorInfo.get_exit_code`. */
  method GetExitCode(codes: map<string, int>) returns (code: Option<int>)
    ensures IsReported(codes, code)
  {
    code := None;
    var rest := codes.Keys;
    while rest != {}
      invariant rest <= codes.Keys
      invariant code.None? <==> rest == codes.Keys
      invariant code.Some? ==> exists n :: n in codes && Adjusted(n, codes[n]) == code.value
      invariant code.Some? ==> forall n | n in codes && n !in rest :: Adjusted(n, codes[n]) <= code.value
    {
      var n :| n in rest;
      var adjusted := Adjusted(n, codes[n]);
      if code.None? || adjusted > code.value { code := Some(adjusted); }
      rest := rest - {n};
    }
    assert codes.Keys == {} <==> codes == map[];
  }

  lemma OneCodeReported(n: string, code: int, reported: Option<int>)
    requires IsReported(map[n := code], reported)
    ensures reported == Some(Adjusted(n, code))
  {
    assert n in map[n := code];
  }

  method GetContainerWaitingErrorInfo(pod: Pod) returns (w: WaitingStatus)
    ensures
      var chain := pod.containers + pod.initContainers;
      var i := FirstWaiting(chain);
      w == if i < |chain| then OnError(chain[i].state.reason, map[chain[i].name := WaitingCode(chain[i].state.reason)])
           else NotOnError
  {
    var chain := pod.containers + pod.initContainers;
    var k := 0;
    while k < |chain|
      invariant 0 <= k <= |chain| && FirstWaiting(chain) >= k
    {
      if WaitsOnError(chain[k]) {
        return OnError(chain[k].state.reason, map[chain[k].name := WaitingCode(chain[k].state.reason)]);
      }
      k := k + 1;
    }
    return NotOnError;
  }

  method GetContainerFailureMessage(pod: Pod) returns (info: ErrorInfo)
    ensures info == ErrorInfo(Codes(pod.initContainers + pod.containers), Reasons(pod.initContainers + pod.containers))
  {
    var chain := pod.initContainers + pod.containers;
    var codes: map<string, int>, reasons: map<string, string> := map[], map[];
    var k := 0;
    while k < |chain|
      invariant 0 <= k <= |chain| && codes == Codes(chain[..k]) && reasons == Reasons(chain[..k])
    {
      assert chain[..k + 1][..k] == chain[..k];
      var c := chain[k];
      if c.state.Terminated? && c.state.reason != "Completed" {
        var code := c.state.exitCode;
        if c.name == "osmo-ctrl" && c.state.ctrlCode.Some? { code := c.state.ctrlCode.value; }
        codes := codes[c.name := code];
        reasons := reasons[c.name := c.state.reason];
      }
      k := k + 1;
    }
    assert chain[..k] == chain;
    return ErrorInfo(codes, reasons);
  }

  method CheckRunningPodContainers(pod: Pod) returns (codes: map<string, int>)
    ensures codes == if NeedsCleanup(pod) then Codes(pod.initContainers + pod.containers) else map[]
  {
    var k := 0;
    while k < |pod.containers|
      invariant 0 <= k <= |pod.containers| && forall j | 0 <= j < k :: !EndsPod(pod.containers[j])
    {
      if EndsPod(pod.containers[k]) {
        var info := GetContainerFailureMessage(pod);
        return info.codes;
      }
      k := k + 1;
    }
    return map[];
  }

  /** The scan of the conditions for a container that stays stuck. */
  method AfterTimeout(pod: Pod, now: int, limit: int) returns (v: Verdict)
    ensures
      v == if Stuck(pod, now, limit) then Verdict(FAILED_BACKEND_ERROR, Some(BACKEND_ERROR_CODE)) else Verdict(SCHEDULING, None)
  {
    v := Verdict(SCHEDULING, None);
    var k := 0;
    while k < |pod.conditions|
      invariant 0 <= k <= |pod.conditions| && v == Verdict(SCHEDULING, None)
      invariant forall j | 0 <= j < k :: !StuckIn(pod.conditions[j], now, limit)
    {
      if StuckIn(pod.conditions[k], now, limit) {
        return Verdict(FAILED_BACKEND_ERROR, Some(BACKEND_ERROR_CODE));
      }
      k := k + 1;
    }
  }

  /** The part of the procedure that looks at the phase and the init containers. */
  method StartingPoint(pod: Pod) returns (v: Verdict)
    requires KnownPhase(pod.phase)
    ensures if Preparing(pod) then v == Verdict(INITIALIZING, None) else FromPhase(pod, v)
  {
    var status :=
      match pod.phase
      case "Pending" => SCHEDULING
      case "Running" => RUNNING
      case "Succeeded" => COMPLETED
      case "Failed" => FAILED
      case _ => FAILED_START_ERROR;
    if Preparing(pod) { status := INITIALIZING; }
    var exitCode: Option<int> := None;
    if status == RUNNING {
      var codes := CheckRunningPodContainers(pod);
      if codes != map[] {
        exitCode := GetExitCode(codes);
        status := FAILED;
      }
    } else if status.Failed() {
      var info := GetContainerFailureMessage(pod);
      exitCode := GetExitCode(info.codes);
      if exitCode.None? { exitCode := Some(UNKNOWN_CODE); }
      if exists n | n in info.reasons :: info.reasons[n] == "OOMKilled" {
        status, exitCode := FAILED_EVICTED, Some(EVICTED_CODE);
      }
    } else if status == COMPLETED {
      exitCode := Some(0);
    }
    return Verdict(status, exitCode);
  }

  /** Later findings override earlier ones; the preemption check alone returns at once. */
  method CalculatePodStatus(pod: Pod, now: int) returns (v: Attempt<Verdict>)
    ensures Decides(pod, now, v)
  {
    if Preempted(pod) {
      return Granted(Verdict(FAILED_PREEMPTED, Some(PREEMPTED_CODE)));
    }
    var waiting := GetContainerWaitingErrorInfo(pod);
    if !KnownPhase(pod.phase) { return Refused; }
    var verdict := StartingPoint(pod);
    if waiting.OnError? {
      var exitCode := GetExitCode(waiting.codes);
      forall n, code | waiting.codes == map[n := code]
        ensures exitCode == Some(Adjusted(n, code))
      {
        OneCodeReported(n, code, exitCode);
      }
      if waiting.reason in ["ErrImagePull", "ImagePullBackOff"] {
        verdict := Verdict(FAILED_IMAGE_PULL, exitCode);
      } else if waiting.reason == "CreateContainerConfigError" {
        verdict := AfterTimeout(pod, now, 10 * 60);
      } else if waiting.reason == "ContainerStatusUnknown" {
        verdict := AfterTimeout(pod, now, 30 * 60);
      } else {
        verdict := Verdict(FAILED, exitCode);
      }
    }
    if pod.reason == "Evicted" {
      verdict := Verdict(FAILED_EVICTED, Some(EVICTED_CODE));
    } else if pod.reason == "StartError" {
      verdict := Verdict(FAILED_START_ERROR, Some(START_ERROR_CODE));
    } else if pod.reason == "UnexpectedAdmissionError" {
      verdict := Verdict(FAILED_BACKEND_ERROR, Some(BACKEND_ERROR_CODE));
    } else if Disrupted(pod) {
      verdict := Verdict(FAILED_BACKEND_ERROR, Some(BACKEND_ERROR_CODE));
    }
    return Granted(verdict);
  }

  // ---------- what the verdict guarantees ----------

  /** There is no exit code exactly while the task is unfinished, and a completed task has
      exit code 0. */
  lemma ExitCodeMatchesStatus(pod: Pod, now: int, v: Attempt<Verdict>)
    requires Decides(pod, now, v)
    ensures v.Refused? <==> !Preempted(pod) && !KnownPhase(pod.phase)
    ensures v.Granted? ==> (v.value.exitCode.None? <==> v.value.status.Unfinished())
    ensures v.Granted? && v.value.status == COMPLETED ==> v.value.exitCode == Some(0)
  {
  }

  lemma ReportedIsUnique(codes: map<string, int>, a: Option<int>, b: Option<int>)
    requires IsReported(codes, a) && IsReported(codes, b)
    ensures a == b
  {
  }

  /** The priority list leaves no freedom: a Pod has one verdict. */
  lemma VerdictIsUnique(pod: Pod, now: int, a: Attempt<Verdict>, b: Attempt<Verdict>)
    requires Decides(pod, now, a) && Decides(pod, now, b)
    ensures a == b
  {
    if a.Granted? && b.Granted? {
      var codes := Codes(pod.initContainers + pod.containers);
      if IsReported(codes, a.value.exitCode) && IsReported(codes, b.value.exitCode) {
        ReportedIsUnique(codes, a.value.exitCode, b.value.exitCode);
      }
    }
  }

  /** Terminated other than by completion. */
  predicate EndedBadly(c: Container) {
    c.state.Terminated? && c.state.reason != "Completed"
  }

  lemma {:induction false} AnyCodeMeansFailure(cs: seq<Container>)
    ensures Codes(cs) != map[] <==> exists i :: 0 <= i < |cs| && EndedBadly(cs[i])
  {
    if cs != [] {
      var last := |cs| - 1;
      AnyCodeMeansFailure(cs[..last]);
      assert forall i | 0 <= i < last :: cs[i] == cs[..last][i];
      if HasFailed(cs[last]) { assert EndedBadly(cs[last]) && cs[last].name in Codes(cs); }
    }
  }

  /** Neither the Pod's conditions nor its own reason decide. */
  predicate NoCauseOfItsOwn(pod: Pod) {
    && (forall i | 0 <= i < |pod.conditions| :: pod.conditions[i].status == "True" ==>
          pod.conditions[i].reason != "PreemptionByScheduler" && pod.conditions[i].kind != "DisruptionTarget")
    && pod.reason !in {"Evicted", "StartError", "UnexpectedAdmissionError"}
  }

  /** Nothing overrides the phase. */
  predicate NothingOverrides(pod: Pod) {
    && NoCauseOfItsOwn(pod)
    && (forall i | 0 <= i < |pod.containers| :: !WaitsOnError(pod.containers[i]))
    && forall i | 0 <= i < |pod.initContainers| ::
         !WaitsOnError(pod.initContainers[i])
         && pod.initContainers[i].state != Waiting("ContainerCreating") && pod.initContainers[i].state != Waiting("PodInitializing")
  }

  lemma NothingOverridesMeans(pod: Pod)
    ensures
      NothingOverrides(pod) <==>
        && !Preempted(pod) && !Disrupted(pod) && !Preparing(pod)
        && pod.reason !in {"Evicted", "StartError", "UnexpectedAdmissionError"}
        && FirstWaiting(pod.containers + pod.initContainers) == |pod.containers + pod.initContainers|
  {
    var chain, n := pod.containers + pod.initContainers, |pod.containers|;
    assert forall i | 0 <= i < n :: chain[i] == pod.containers[i];
    assert forall i | 0 <= i < |pod.initContainers| :: chain[n + i] == pod.initContainers[i];
    assert FirstWaiting(chain) == |chain| <==> forall i | 0 <= i < |chain| :: !WaitsOnError(chain[i]);
  }

  /** The control container or a start has ended, and some container has ended badly. */
  predicate IsCut(pod: Pod) {
    && (exists i | 0 <= i < |pod.containers| ::
          pod.containers[i].state.Terminated? && (pod.containers[i].name == "osmo-ctrl" || pod.containers[i].state.reason == "StartError"))
    && ((exists i | 0 <= i < |pod.initContainers| :: EndedBadly(pod.initContainers[i]))
        || exists i | 0 <= i < |pod.containers| :: EndedBadly(pod.containers[i]))
  }

  lemma CutMeans(pod: Pod)
    ensures IsCut(pod) <==> NeedsCleanup(pod) && Codes(pod.initContainers + pod.containers) != map[]
  {
    var all, n := pod.initContainers + pod.containers, |pod.initContainers|;
    AnyCodeMeansFailure(all);
    assert forall i | 0 <= i < n :: all[i] == pod.initContainers[i];
    assert forall i | 0 <= i < |pod.containers| :: all[n + i] == pod.containers[i];
  }

  lemma RunningByPhase(pod: Pod, v: Verdict)
    requires KnownPhase(pod.phase) && FromPhase(pod, v)
    ensures v.status == RUNNING <==> pod.phase == "Running" && !IsCut(pod)
    ensures pod.phase == "Running" && IsCut(pod) ==> v.status == FAILED
  {
    CutMeans(pod);
  }

  /** A task runs exactly when the phase says so, nothing overrides it and it is not cut;
      a Pod in that phase that is cut has failed. */
  lemma RunningExactly(pod: Pod, now: int, v: Attempt<Verdict>)
    requires Decides(pod, now, v)
    ensures v.Granted? && v.value.status == RUNNING <==> pod.phase == "Running" && NothingOverrides(pod) && !IsCut(pod)
    ensures pod.phase == "Running" && NothingOverrides(pod) && IsCut(pod) ==> v.Granted? && v.value.status == FAILED
  {
    NothingOverridesMeans(pod);
    if v.Granted? && KnownPhase(pod.phase) && FromPhase(pod, v.value) { RunningByPhase(pod, v.value); }
  }

  /** A control container that ended badly ends the task. */
  lemma EndedControlFails(pod: Pod, now: int, v: Attempt<Verdict>, i: nat)
    requires Decides(pod, now, v) && pod.phase == "Running" && NothingOverrides(pod)
    requires i < |pod.containers| && pod.containers[i].name == "osmo-ctrl" && EndedBadly(pod.containers[i])
    ensures v.Granted? && v.value.status == FAILED && v.value.exitCode.Some?
  {
    RunningExactly(pod, now, v);
    ExitCodeMatchesStatus(pod, now, v);
  }

  predicate PreemptedByScheduler(c: Condition) {
    c.status == "True" && c.reason == "PreemptionByScheduler"
  }

  predicate TargetOfDisruption(c: Condition) {
    c.status == "True" && c.kind == "DisruptionTarget"
  }

  lemma ConditionsMean(pod: Pod)
    ensures Preempted(pod) <==> exists c | c in pod.conditions :: PreemptedByScheduler(c)
    ensures Disrupted(pod) <==> exists c | c in pod.conditions :: TargetOfDisruption(c)
  {
    assert forall i | 0 <= i < |pod.conditions| :: pod.conditions[i] in pod.conditions;
    if Preempted(pod) {
      var i :| 0 <= i < |pod.conditions| && pod.conditions[i].status == "True" && pod.conditions[i].reason == "PreemptionByScheduler";
      assert PreemptedByScheduler(pod.conditions[i]);
    }
    if Disrupted(pod) {
      var i :| 0 <= i < |pod.conditions| && pod.conditions[i].kind == "DisruptionTarget" && pod.conditions[i].status == "True";
      assert TargetOfDisruption(pod.conditions[i]);
    }
  }

  /** The causes that precede all containers, each with its own code. */
  lemma CausesInOrder(pod: Pod, now: int, v: Attempt<Verdict>)
    requires Decides(pod, now, v)
    ensures
      var preempted := exists c | c in pod.conditions :: PreemptedByScheduler(c);
      var disrupted := exists c | c in pod.conditions :: TargetOfDisruption(c);
      && (preempted ==> v == Granted(Verdict(FAILED_PREEMPTED, Some(3006))))
      && (!preempted && v.Granted? ==>
            && v.value.status != FAILED_PREEMPTED
            && (pod.reason == "Evicted" ==> v.value == Verdict(FAILED_EVICTED, Some(3004)))
            && (pod.reason == "StartError" ==> v.value == Verdict(FAILED_START_ERROR, Some(3003)))
            && (pod.reason == "UnexpectedAdmissionError" ==> v.value == Verdict(FAILED_BACKEND_ERROR, Some(3001)))
            && (pod.reason !in {"Evicted", "StartError"} && disrupted ==> v.value == Verdict(FAILED_BACKEND_ERROR, Some(3001))))
  {
    ConditionsMean(pod);
  }

  lemma FirstWaitingIs(cs: seq<Container>, i: nat)
    requires i < |cs| && WaitsOnError(cs[i]) && forall j | 0 <= j < i :: !WaitsOnError(cs[j])
    ensures FirstWaiting(cs) == i
  {
  }

  /** By what kind of container it is. */
  function PullCode(c: Container): int
    requires c.state.Waiting?
  {
    (if c.state.reason == "ImagePullBackOff" then 301 else 302)
    + (if c.name == "osmo-init" then 255 else if c.name == "preflight-test" then 1000 else if c.name == "osmo-ctrl" then 2000 else 0)
  }

  lemma PullFailure(pod: Pod, now: int, c: Container)
    requires c.state in {Waiting("ImagePullBackOff"), Waiting("ErrImagePull")}
    ensures FromWaiting(pod, now, c) == Verdict(FAILED_IMAGE_PULL, Some(PullCode(c)))
  {
  }

  lemma PullWaits(c: Container)
    requires c.state in {Waiting("ImagePullBackOff"), Waiting("ErrImagePull")}
    ensures WaitsOnError(c)
  {
    var k := if c.state.reason == "ErrImagePull" then 3 else 4;
    assert Contains(c.state.reason, WAITING_REASONS[k]);
  }

  /** Images that cannot be pulled: the first container that waits gives the code. */
  lemma ImagePullCodes(pod: Pod, now: int, v: Attempt<Verdict>, i: nat)
    requires Decides(pod, now, v) && NoCauseOfItsOwn(pod)
    requires pod.phase in {"Pending", "Running", "Succeeded", "Failed", "StartError"}
    requires i < |pod.containers| && forall j | 0 <= j < i :: pod.containers[j].state.Up?
    requires pod.containers[i].state in {Waiting("ImagePullBackOff"), Waiting("ErrImagePull")}
    ensures v == Granted(Verdict(FAILED_IMAGE_PULL, Some(PullCode(pod.containers[i]))))
  {
    var chain := pod.containers + pod.initContainers;
    PullFailure(pod, now, pod.containers[i]);
    PullWaits(pod.containers[i]);
    assert chain[i] == pod.containers[i];
    FirstWaitingIs(chain, i);
  }

  lemma {:induction false} ContainsAt(s: string, part: string, k: nat)
    requires k <= |s| && part <= s[k..]
    ensures Contains(s, part)
  {
    if k > 0 {
      assert s[1..][k - 1..] == s[k..];
      ContainsAt(s[1..], part, k - 1);
    }
  }

  predicate NotReadyFor(c: Condition, now: int, seconds: int) {
    c.kind == "Ready" && c.status == "False" && c.since.Some? && c.since.value + seconds < now
  }

  lemma StuckMeans(pod: Pod, now: int, seconds: int)
    ensures Stuck(pod, now, seconds) <==> exists c | c in pod.conditions :: NotReadyFor(c, now, seconds)
  {
    assert forall i | 0 <= i < |pod.conditions| :: pod.conditions[i] in pod.conditions;
    if Stuck(pod, now, seconds) {
      var i :| 0 <= i < |pod.conditions| && StuckIn(pod.conditions[i], now, seconds);
      assert NotReadyFor(pod.conditions[i], now, seconds);
    }
  }

  lemma StuckWaits(c: Container)
    requires c.state in {Waiting("CreateContainerConfigError"), Waiting("ContainerStatusUnknown")}
    ensures WaitsOnError(c)
  {
    if c.state.reason == "CreateContainerConfigError" {
      assert "CreateContainerConfigError"[21..] == "Error";
      ContainsAt("CreateContainerConfigError", "Error", 21);
      assert WAITING_REASONS[2] == "Error";
    } else {
      assert WAITING_REASONS[5] == "ContainerStatusUnknown";
    }
  }

  /** Containers that may still recover: the task is back at scheduling until the Pod has not
      been ready for more than ten minutes, or thirty for an unknown state. */
  lemma StuckIsLost(pod: Pod, now: int, v: Attempt<Verdict>, i: nat)
    requires Decides(pod, now, v) && NoCauseOfItsOwn(pod)
    requires pod.phase in {"Pending", "Running", "Succeeded", "Failed", "StartError"}
    requires i < |pod.containers| && forall j | 0 <= j < i :: pod.containers[j].state.Up?
    requires pod.containers[i].state in {Waiting("CreateContainerConfigError"), Waiting("ContainerStatusUnknown")}
    ensures
      var seconds := if pod.containers[i].state.reason == "CreateContainerConfigError" then 600 else 1800;
      v == Granted(
        if exists c | c in pod.conditions :: NotReadyFor(c, now, seconds) then Verdict(FAILED_BACKEND_ERROR, Some(3001))
        else Verdict(SCHEDULING, None))
  {
    var chain := pod.containers + pod.initContainers;
    StuckWaits(pod.containers[i]);
    StuckMeans(pod, now, 600);
    StuckMeans(pod, now, 1800);
    assert chain[i] == pod.containers[i];
    FirstWaitingIs(chain, i);
  }

  predicate UniqueNames(cs: seq<Container>) {
    forall i, j | 0 <= i < j < |cs| :: cs[i].name != cs[j].name
  }

  lemma {:induction false} CodesByContainer(cs: seq<Container>, n: string)
    ensures n in Codes(cs) <==> exists i :: 0 <= i < |cs| && cs[i].name == n && HasFailed(cs[i])
    ensures
      UniqueNames(cs) ==>
        forall i | 0 <= i < |cs| && cs[i].name == n && HasFailed(cs[i]) :: n in Codes(cs) && Codes(cs)[n] == FailureCode(cs[i])
  {
    if cs != [] {
      var last := |cs| - 1;
      CodesByContainer(cs[..last], n);
      assert forall i | 0 <= i < last :: cs[i] == cs[..last][i];
    }
  }

  /** What the reported code is in terms of the containers: the largest adjusted code of a
      failed one. */
  lemma ReportedIsWorstFailure(cs: seq<Container>, code: int)
    requires UniqueNames(cs)
    ensures
      IsReported(Codes(cs), Some(code)) <==>
        && (exists i :: 0 <= i < |cs| && HasFailed(cs[i]) && Adjusted(cs[i].name, FailureCode(cs[i])) == code)
        && forall i | 0 <= i < |cs| && HasFailed(cs[i]) :: Adjusted(cs[i].name, FailureCode(cs[i])) <= code
  {
    forall n
      ensures n in Codes(cs) <==> exists i :: 0 <= i < |cs| && cs[i].name == n && HasFailed(cs[i])
    {
      CodesByContainer(cs, n);
    }
    forall i | 0 <= i < |cs| && HasFailed(cs[i])
      ensures cs[i].name in Codes(cs) && Codes(cs)[cs[i].name] == FailureCode(cs[i])
    {
      CodesByContainer(cs, cs[i].name);
    }
  }

  lemma {:induction false} ReasonIsOfFailure(cs: seq<Container>, n: string) returns (i: nat)
    requires n in Reasons(cs)
    ensures i < |cs| && HasFailed(cs[i]) && Reasons(cs)[n] == cs[i].state.reason
  {
    var last := |cs| - 1;
    if HasFailed(cs[last]) && cs[last].name == n {
      i := last;
    } else {
      i := ReasonIsOfFailure(cs[..last], n);
    }
  }

  lemma {:induction false} FailureHasReason(cs: seq<Container>, i: nat)
    requires UniqueNames(cs) && i < |cs| && HasFailed(cs[i])
    ensures cs[i].name in Reasons(cs) && Reasons(cs)[cs[i].name] == cs[i].state.reason
  {
    if i < |cs| - 1 { FailureHasReason(cs[..|cs| - 1], i); }
  }

  predicate RanOutOfMemory(c: Container) {
    c.state.Terminated? && c.state.reason == "OOMKilled"
  }

  lemma OutOfMemoryMeans(pod: Pod)
    requires UniqueNames(pod.initContainers + pod.containers)
    ensures OutOfMemory(pod) <==> exists c | c in pod.initContainers + pod.containers :: RanOutOfMemory(c)
  {
    var all := pod.initContainers + pod.containers;
    if OutOfMemory(pod) {
      var n :| n in Reasons(all) && Reasons(all)[n] == "OOMKilled";
      var i := ReasonIsOfFailure(all, n);
      assert all[i] in all && RanOutOfMemory(all[i]);
    }
    if c :| c in all && RanOutOfMemory(c) {
      var i :| 0 <= i < |all| && all[i] == c;
      FailureHasReason(all, i);
    }
  }

  /** In a failed Pod that nothing overrides, a container killed for its memory counts as an
      eviction, exactly. */
  lemma OutOfMemoryIsEviction(pod: Pod, now: int, v: Attempt<Verdict>)
    requires Decides(pod, now, v) && NothingOverrides(pod) && pod.phase in {"Failed", "StartError"}
    requires UniqueNames(pod.initContainers + pod.containers)
    ensures v == Granted(Verdict(FAILED_EVICTED, Some(3004))) <==> exists c | c in pod.initContainers + pod.containers :: RanOutOfMemory(c)
  {
    NothingOverridesMeans(pod);
    OutOfMemoryMeans(pod);
  }
}
