# Verified models of the OSMO bootstrap jobs, backend listener and config tools

This project models the parts of OSMO where several steps, several processes or hostile
inputs have to work together, and proves what they guarantee. `dafny verify dfyconfig.toml`
checks all of it.

**Internal TLS rotation** (`InternalTls`, `CaHistory`, `TlsProtocol`, `TlsFencing`,
`TlsRollout`, `TlsGates`, `TlsStalledRuns`, `TlsRecovery`, `TlsContents`, `TlsRerun`). A CA
moves through stable, prepare, activate and retire. Certificates are key ids with a signer,
names and a validity interval. `TlsProtocol` is a state machine in which any number of
`reconcile` runs interleave call by call and may stop after any call; `TlsFencing` proves that
the order of reads and writes and the `resourceVersion` checks keep every stored leaf trusted;
`TlsRollout` adds the gate and the consumer Pods and proves that under two rules for starting
processes no rotation breaks trust between them; `TlsGates` says in terms of records and Pods
what each gate has found out; `TlsStalledRuns` builds the rollouts that do when either rule is
dropped; `TlsRecovery` is the job as a class that can be killed after any write, and with
`TlsRerun` proves that rerunning it gets past its gate and recovers; `TlsContents` says field by
field what the job grants and leaves.

**Identity credentials** (`CredentialDigest`, `DigestBytes`, `CredentialRotation`,
`CredentialConflicts`, `HashMerge`, `HashConflicts`, `RolloutRecord`). The digest input is a
decodable encoding; concurrent reconcilers agree on credentials by generation; hash merges never
drop a key; a rollout is recorded only after the consumers were restarted.

**Backend listener** (`UnackBuffer`, `Delivery`, `NodeConditions`, `PodStatus`). The buffer
of unacknowledged messages and the reconnecting sender that uses it; the rules that decide
whether a node is available; the status and exit code reported for a Pod.

**Config export** (`Text`, `ConfigTree`, `SecretMapping`, `Paging`). Masked values in a config
tree are replaced by Secret references; users are enumerated page by page.

**Rank barrier** (`RankBarrier`) and **collapsible code blocks** (`BlockParser`,
`BlockMarks`, `BlockWalkers`, `PrintedText`, `RenderedNesting`). A start-up barrier over TCP, and
a parser with its printer and renderer.

Code that changes state step by step is a class or a method with loops, proved against a
specification function; the theorems are about those functions, or about every run of a
state machine whose steps use them. Protocols with several processes are state machines: each
API call, or each stretch of a handler between two awaits, is one step.

## Assumptions

- Keys are fresh: an id given to a generated key or credential was never used before.
- Rotation processes are started by two rules (`TlsRollout.Permits`), which can be checked when
  a process is started: no `prepare` of an id once a `retire` of it was started (and not given
  up at its gate), and no `retire` while a `prepare` of its id is in flight, that is at its gate
  or not past its reads. The first is the unique id that
  `deployments/charts/osmo/README.md:1337` asks for; the second is asked for nowhere, though
  deleting the old Job before a new one usually brings it about
  (`deployments/charts/osmo/templates/internal-tls-bootstrap.yaml:35-42`). Processes of the
  other phases may stall for any time. `TlsStalledRuns.TrustNeedsBothRules`: trust is kept in
  every rollout if and only if both rules are.
- Outside the stable phase the rotation id is not empty
  (`deployments/charts/osmo/templates/validate-values.yaml:565-566`).
- Secrets are not deleted, the set of leaves is fixed, and a `resourceVersion` is not reused.
  Every replace makes a new version. Where Kubernetes keeps the version because a replace
  changed nothing, a stale writer that the models refuse would go on, over the same contents.
- A Pod annotated `id:phase` is created only after a bootstrap run for that id and phase has
  completed. This is the order of the Helm hooks, not something the modelled code checks.
- Where a run is repeated (`TlsRecovery`), its clock reading is the same.

## Where the code surprises

- `src/utils/internal_tls_bootstrap.py:747-763`: nothing keeps a stalled `prepare` from reopening
  its own rotation after `retire`. A stalled `activate` then switches to a CA that no consumer
  has loaded, the active CA changes twice under one id, and a Pod serves a leaf that another
  cannot verify (`TlsStalledRuns.ReopenedRotationBreaksTrust`).
- `deployments/upgrades/export_configs_to_helm.py:605-616`: a mapping whose target is a list or a
  scalar replaces it whole. A dict keeps its unmasked values, except that the reference
  overwrites fields named `secretName` and `secretKey` (`SecretMapping.ReplacementLeaves`).
- `deployments/upgrades/export_configs_to_helm.py:297`: a server that states no total has its
  first page taken for the whole list (`Paging.MissingTotalStopsEarly`).
- `src/operator/backend_listener.py:199-226`: the limit on unacknowledged messages holds with one
  sender and for no bound at all with two, and `gather` leaves a sender behind on reconnect.
- `src/operator/backend_listener.py:1612-1645`: all sender tasks share the variable that holds the
  newest connection, so one left behind goes on with the new connection. No message misses a
  working connection, but a new one may go out in the middle of the replay of older ones
  (`Delivery.ReplayMayBeMixed`).
- `src/utils/identity_bootstrap.py:316`: after a conflict a hash merge may put back an older value
  of a key that it was not asked to set (`HashMerge.ConflictMayRevertOthers`).
- `src/utils/identity_bootstrap.py:80-89`: a domain with NUL characters collides with another input
  (`CredentialDigest.NulsInDomainCollide`); the program only uses fixed names.
- `src/operator/backend_listener.py:69`: the code 303 is listed under `ContainerCreateConfigError`,
  but the reason tested elsewhere is `CreateContainerConfigError`, which therefore has code 999.
- `cookbook/dnn_training/torchrun_multinode/osmo_barrier.py:57-64`: after OK was sent to all, a
  connection that has not yet named its rank can still make `run` return failure.
- `docs/_extensions/collapsible_code_block.py:301`: an unlabelled block alone inside another one is
  dropped from the code but not from the rendering (`BlockWalkers.UnlabelledBlockDisagrees`).

## Model

| member | source | states |
|---|---|---|
| `CaHistory.DecisionsEvolve` | `src/utils/internal_tls_bootstrap.py:742-798` | Every granted decision is one of the allowed changes of the CA record: the active CA changes only by activate, to the pending one, keeping the old one as previous |
| `CaHistory.SwitchesBalanceOpenings` | `src/utils/internal_tls_bootstrap.py:742-798` | However phases are repeated, the active CA changed under an id exactly as often as a CA was generated under it, less the pending one |
| `TlsRollout.EachIdSwitchesOnce` | `src/utils/internal_tls_bootstrap.py:754-763` | Under the two rules no rotation is reopened under an id stored before; the active CA changes at most once per id, and not at all while the id's CA is pending |
| `CaHistory.ReopenedAfterRetire` | `src/utils/internal_tls_bootstrap.py:742-798` | In any history, a version that opens a rotation under an id stored before comes after a retirement of that id |
| `CaHistory.KeptKeyIsBundled` | `src/utils/internal_tls_bootstrap.py:786-805` | A former active CA not older than the oldest CA a version keeps is in that version's bundle |
| `TlsRollout.RotationBundlesBoth` | `src/utils/internal_tls_bootstrap.py:747-763` | Under the two rules, between a prepared and an activated version of one id every bundle holds both the old and the new CA |
| `TlsFencing.StepKeepsInv` | `src/utils/internal_tls_bootstrap.py:688-843` | Every step of any run keeps the fencing invariant: a stale writer fails on the CA, the trust or a leaf version |
| `TlsFencing.RetireFoundNoOldLeaf` | `src/utils/internal_tls_bootstrap.py:769-782` | If the retire check passed on what a run read, no leaf Secret is signed by an older CA even now |
| `TlsFencing.EveryWrittenLeafIsTrusted` | `src/utils/internal_tls_bootstrap.py:394-476` | After every single API write of any interleaving, the signer of every written leaf is in the trust Secret |
| `TlsFencing.EveryRecordIsWellFormed` | `src/utils/internal_tls_bootstrap.py:715-798` | In every reachable state pending exists exactly in prepare, previous exactly in activate, and CA changes balance CA generations per id |
| `TlsRollout.EverySwitchIsCovered` | `src/utils/internal_tls_bootstrap.py:754-763` | In every rollout under the two rules, when the active CA changes, every Pod with a bundle and the trust Secret already hold the new one |
| `TlsRollout.EveryRetirementIsCovered` | `src/utils/internal_tls_bootstrap.py:764-782` | In every rollout under the two rules, when the previous CA is dropped, every Pod serves a leaf of the active one |
| `TlsRollout.NewRecordKeepsIdsFresh` | `src/utils/internal_tls_bootstrap.py:747-753` | A run still reading, behind its gate, cannot reopen a rotation: by the rules no retire of its id was started |
| `TlsRollout.MoveKeepsInv` | `src/utils/internal_tls_bootstrap.py:208-263` | The cluster invariant survives every move the rules permit: gate read and check, launch, abandoned gate, run step, Pod start, load and removal |
| `TlsGates.PassesWhenFit` | `src/utils/internal_tls_bootstrap.py:147-180` | A gate passes a Deployment exactly when it has a Pod and every Pod of it is on exactly the stored id and phase, which must be the predecessor of the requested one, or, where the stored record is already the requested one, on that phase or the one before |
| `TlsGates.LaunchedRunsWereGated` | `src/utils/internal_tls_bootstrap.py:208-264` | In every rollout, under any policy, before a rotation run was launched its gate read the latest record and later found each Deployment fit for that record |
| `TlsRollout.RotationNeverBreaksTrust` | `src/utils/internal_tls_bootstrap.py:742-843` | In every state of every rollout under the two rules, every leaf served by an active Pod is signed by a CA in the bundle of every active Pod, over any number of rotations |
| `TlsStalledRuns.OrderlyRotation` | `src/utils/internal_tls_bootstrap.py:208-263` | A complete rotation is a rollout under the two rules, also with a stalled `activate`: the main result is about something |
| `TlsStalledRuns.ReopenedRotationBreaksTrust` | `src/utils/internal_tls_bootstrap.py:742-763` | Complete rollouts, one keeping each rule without the other, that end with trust broken and two changes of the active CA under one id |
| `TlsStalledRuns.TrustNeedsBothRules` | `src/utils/internal_tls_bootstrap.py:208-263` | Trust is kept in every rollout under a policy exactly when the policy has both rules |
| `TlsRecovery.SecretApi.PrepareSecrets` | `src/utils/internal_tls_bootstrap.py:394-422` | Exactly the missing Secrets are created blank, in order, up to where the run is killed |
| `TlsRecovery.SecretApi.WriteAll` | `src/utils/internal_tls_bootstrap.py:798-843` | The state after a run killed anywhere is a prefix of the writes CA, trust, needed leaves |
| `TlsRecovery.SecretApi.Reconcile` | `src/utils/internal_tls_bootstrap.py:669-843` | The whole job: final Secrets and success in terms of the specified writes and the point of the kill |
| `TlsRecovery.FullRunSettles` | `src/utils/internal_tls_bootstrap.py:786-843` | A complete run ends with the record decided, a bundle of current plus pending or previous, and each leaf kept or rewritten as decided |
| `TlsContents.RunLeavesServingLeaves` | `src/utils/internal_tls_bootstrap.py:582-624` | After a successful run every leaf has the key of the active CA as signer, its subject as issuer, exactly the three names of the service, a validity that includes now and goes beyond thirty more days, and the requested nonce |
| `TlsContents.OnlyOtherLeavesAreRewritten` | `src/utils/internal_tls_bootstrap.py:814-843` | A leaf that already had all that keeps its content unless another CA becomes active; every other leaf is new and valid for 397 days |
| `TlsContents.NothingIsCreatedWhenForbidden` | `src/utils/internal_tls_bootstrap.py:407-414` | With `fail_if_missing` and any Secret missing the run fails and changes nothing |
| `TlsContents.GrantedWhenFit` | `src/utils/internal_tls_bootstrap.py:685-785` | A request is granted exactly when the stored CAs are whole, current and pending ones are valid now, and the phase fits: id, pending, previous and, for retire, every leaf serving under the active CA |
| `TlsContents.StoredCas` | `src/utils/internal_tls_bootstrap.py:742-798` | Which CAs a granted request stores, in terms of those there were; new ones only where one was missing, valid for 825 days |
| `TlsRecovery.SettledIsFixed` | `src/utils/internal_tls_bootstrap.py:814-843` | A further run of the request writes the CA and trust Secrets as they are and no leaf |
| `TlsRecovery.RerunRecovers` | `src/utils/internal_tls_bootstrap.py:669-843` | Cut a run after any prefix of its writes: the rerun succeeds, keeps the CAs persisted, settles, and a third run changes nothing |
| `TlsRerun.RerunPassesGate` | `src/utils/internal_tls_bootstrap.py:221-264` | Wherever a gated run was killed, its rerun is granted and the gate of the rerun passes every Pod annotation that fitted the first gate, behind the request's own record once the CA write was done |
| `CredentialDigest.DigestInput` | `src/utils/identity_bootstrap.py:80-89` | The bytes fed to the hash are the encoding of domain and values; a domain that is not ASCII or a value of 2^64 bytes or more is refused |
| `CredentialDigest.EncodingRoundTrip` | `src/utils/identity_bootstrap.py:80-89` | Decoding the digest input gives back the domain and the whole value list |
| `CredentialDigest.DecodedIsEncoding` | `src/utils/identity_bootstrap.py:80-89` | Whatever bytes decode are the encoding of what they decode to |
| `CredentialDigest.EncodingIsInjective` | `src/utils/identity_bootstrap.py:80-89` | For NUL-free ASCII domains and values shorter than 2^64 bytes, inputs are equal exactly when domains and values are |
| `CredentialDigest.NulsInDomainCollide` | `src/utils/identity_bootstrap.py:80-89` | Without the NUL condition two different inputs feed the same bytes |
| `DigestBytes.EncodingStarts` | `src/utils/identity_bootstrap.py:82-85` | The fed bytes start with the version literal, a NUL, the characters of the domain and a NUL; the values follow |
| `DigestBytes.LengthComesFirst` | `src/utils/identity_bootstrap.py:86-88` | A value is preceded by eight bytes that read its length from the most significant byte on |
| `CredentialRotation.SecretServer.Reconcile` | `src/utils/identity_bootstrap.py:455-587` | The retry loop: what it returns is stored and carries the requested generations, and a request to go back is refused. It survives conflicts: if the Secret exists or may be created, no request goes beyond its own and one of five attempts is undisturbed, it returns. Undisturbed it creates the Secret, or rotates exactly what is due |
| `CredentialRotation.BytesFollowGeneration` | `src/utils/identity_bootstrap.py:542-570` | In every history generations never decrease and a component's bytes change exactly when its generation does, so rotating one keeps the other |
| `CredentialRotation.StoredGenerationsGrow` | `src/utils/identity_bootstrap.py:455-587` | The same for what is stored at any two instants of concurrent runs |
| `CredentialRotation.ReturnedRunsAgree` | `src/utils/identity_bootstrap.py:455-587` | Two returned runs have equal bytes of a component exactly when they asked for the same generation of it |
| `CredentialRotation.GenerationsNeverGoBack` | `src/utils/identity_bootstrap.py:139-154` | A request once behind the stored generation stays refused |
| `CredentialConflicts.LostExactly` | `src/utils/identity_bootstrap.py:542-583` | In every behaviour the write after a read is lost exactly when something was stored in between; otherwise it stores one more content, which the run returns |
| `CredentialConflicts.FailsExactly` | `src/utils/identity_bootstrap.py:455-587` | In every behaviour a run fails by itself exactly when it reads a Secret that it may not create or must not set back, or at its fifth lost write |
| `HashMerge.HashServer.Reconcile` | `src/utils/identity_bootstrap.py:294-333` | The retry loop against any interference: the Secret's keys only grow; one undisturbed attempt of five is enough to return; what is returned is the latest content, merges what was read, and holds every desired hash; undisturbed, what is stored is exactly the merge of one read |
| `HashMerge.MergedHolds` | `src/utils/identity_bootstrap.py:312-318` | What a write contains: the desired hashes win, every key read is there, and another key has the value of its first read |
| `HashMerge.OneReadIsKept` | `src/utils/identity_bootstrap.py:312-318` | Without a conflict the write is what was read, updated with the desired hashes |
| `HashMerge.CommitKeepsOthersWhenCurrent` | `src/utils/identity_bootstrap.py:312-330` | A committed write leaves every key its run does not want unchanged exactly when the value first read of each is still current |
| `HashMerge.ConflictMayRevertOthers` | `src/utils/identity_bootstrap.py:316` | A behaviour in which one run commits a newer value and another, which does not want that key, then commits the older one and returns |
| `HashMerge.NoHashIsRemoved` | `src/utils/identity_bootstrap.py:294-333` | No committed write of concurrent runs removes a key |
| `HashMerge.ReturnedRunIsHeld` | `src/utils/identity_bootstrap.py:294-333` | What a returned run wrote or read was stored and held all its desired hashes, whatever conflicts it met |
| `HashConflicts.LostExactly` | `src/utils/identity_bootstrap.py:294-333` | In every behaviour of concurrent merges the write after a read is lost exactly when something was stored in between |
| `HashConflicts.FailsExactly` | `src/utils/identity_bootstrap.py:294-333` | In every behaviour a merge fails by itself exactly at its fifth lost write |
| `RolloutRecord.PollSucceeds` | `src/utils/identity_bootstrap.py:723-754` | The counting loop is satisfied exactly when Pods are listed and each is new, ready and not terminating |
| `RolloutRecord.PollMeansReplaced` | `src/utils/identity_bootstrap.py:723-754` | On a list of the Pods that is the condition under which a run goes on to record |
| `RolloutRecord.CheckDecides` | `src/utils/identity_bootstrap.py:677-690` | After its last check a run restarts the Pods exactly when some tracking Secret does not carry the identity, and returns otherwise |
| `RolloutRecord.PollDecides` | `src/utils/identity_bootstrap.py:723-754` | A poll goes on to record exactly when there are Pods and each is new, ready and not terminating |
| `RolloutRecord.RecordsOnlyAfterRestart` | `src/utils/identity_bootstrap.py:632-764` | The annotation changes only in the write of a run that saw every first-listed Pod replaced (or listed none) and had found a mismatch |
| `RolloutRecord.RecordedMeansRestarted` | `src/utils/identity_bootstrap.py:632-764` | While an identity is recorded on a tracking Secret, every Pod still listed started after its credentials were stored |
| `RolloutRecord.ReturnMeansRestarted` | `src/utils/identity_bootstrap.py:665-764` | The same holds for the requested identity whenever a run has returned, also when it found nothing to do |
| `RolloutRecord.GivesUpAfterFiveConflicts` | `src/utils/identity_bootstrap.py:632-662` | In every behaviour a run gives up recording on a Secret that is there only after exactly five conflicts on it |
| `UnackBuffer.UnackMessages.AddMessage` | `src/operator/backend_listener.py:212-218` | The new buffer and flag; with room for one more the bound is kept and the flag says exactly whether there is room |
| `UnackBuffer.UnackMessages.RemoveMessage` | `src/operator/backend_listener.py:220-226` | The same for an acknowledgement; an unknown one changes nothing |
| `UnackBuffer.PutKeepsOrder` | `src/operator/backend_listener.py:212-218` | A new uuid comes last, a repeated one keeps its place, no other key moves |
| `UnackBuffer.DeleteKeepsOrder` | `src/operator/backend_listener.py:220-226` | A removal drops one key and keeps the order of all others |
| `Delivery.NoMessageIsLost` | `src/operator/backend_listener.py:1608-1692` | In every reachable state a submitted message is queued, held by a sender, unacknowledged in the buffer, or acknowledged |
| `Delivery.HealthyConnectionCarries` | `src/operator/backend_listener.py:1608-1645` | On every working connection whose list has been taken, with any lingering senders, each unacknowledged message is on the wire, in the rest of the replay, or being sent there by some task |
| `Delivery.ReconnectReplaysUnacked` | `src/operator/backend_listener.py:1629-1631` | The replayed list is the buffer in insertion order, and the wire opens with an interleaving of it and of what sender tasks put there before the replay was over: with the list alone exactly if they put nothing |
| `Delivery.ReplayIsPrefixUnlessMixed` | `src/operator/backend_listener.py:1629-1631` | The list comes first on the wire if and only if no task put a message there before the replay was over or the list was empty, unless such a message was itself on the list |
| `Delivery.ReplayComesFirst` | `src/operator/backend_listener.py:1608-1645` | It comes first where no sender lingered at the connection |
| `Delivery.ReplayMayBeMixed` | `src/operator/backend_listener.py:1608-1645` | A complete behaviour in which a lingering sender puts a new message between two replayed ones |
| `Delivery.OneSenderIsBounded` | `src/operator/backend_listener.py:199-226` | With at most one sender task the count never exceeds the limit and the flag says exactly whether it is below |
| `Delivery.WaitingMeansFull` | `src/operator/backend_listener.py:212-226` | With any number of senders, one is held back only while the buffer is at a positive limit or beyond |
| `Delivery.BackpressureNeedsOneSender` | `src/operator/backend_listener.py:199-226` | For a positive limit: bounded by it for every run with at most one sender, and by nothing with more |
| `NodeConditions.ConditionsController.SetRules` | `src/operator/backend_listener.py:270-293` | A rule set replaces the old one exactly when none of its rules matches Ready with a status other than True; otherwise nothing changes |
| `NodeConditions.ConditionsController.IsNodeAvailable` | `src/operator/backend_listener.py:421-445` | Available exactly when schedulable and every condition is unmatched or allowed by some matching rule; a cordoned node never is |
| `NodeConditions.RulesInForce` | `src/operator/backend_listener.py:290-319` | The effective rules are the configured ones, followed by the demand that Ready be True unless one of them matches Ready and every pattern before it is valid and does not |
| `NodeConditions.UnconfiguredAvailability` | `src/operator/backend_listener.py:421-445` | Without configured rules a node is available exactly when it is not cordoned and every Ready condition it has is True |
| `NodeConditions.EffectiveRulesGuardReady` | `src/operator/backend_listener.py:295-319` | Under every accepted rule set some effective rule matches Ready, and each that does demands True |
| `NodeConditions.ReadyCannotBeOverridden` | `src/operator/backend_listener.py:270-319` | Under every accepted rule set and any pattern engine a node whose Ready condition is not True is unavailable |
| `NodeConditions.ReadyTrueIsFine` | `src/operator/backend_listener.py:421-445` | A Ready condition that is True never makes a node unavailable |
| `PodStatus.CalculatePodStatus` | `src/operator/backend_listener.py:857-985` | The procedure of successive overrides yields the verdict of a declarative priority list: preemption, Pod reason, DisruptionTarget, waiting error, preparation, phase |
| `PodStatus.VerdictIsUnique` | `src/operator/backend_listener.py:857-985` | That list decides every Pod in one way |
| `PodStatus.CausesInOrder` | `src/operator/backend_listener.py:870-985` | Preemption comes first, then the reasons of the Pod itself, then a disruption, each with its own status and code |
| `PodStatus.StuckIsLost` | `src/operator/backend_listener.py:857-985` | A container that waits for its configuration or is in an unknown state puts the task back to scheduling until the Pod was not ready for more than 600 or 1800 seconds, and then it has failed |
| `PodStatus.OutOfMemoryIsEviction` | `src/operator/backend_listener.py:857-985` | In a failed Pod that nothing overrides, the task counts as evicted exactly when a container was killed for its memory |
| `PodStatus.ExitCodeMatchesStatus` | `src/operator/backend_listener.py:857-985` | No exit code exactly for scheduling, initializing and running; completed carries 0; an unknown phase fails unless preempted |
| `PodStatus.GetExitCode` | `src/operator/backend_listener.py:96-117` | The largest of the codes after each container's offset, none exactly when there are no codes |
| `PodStatus.ReportedIsWorstFailure` | `src/operator/backend_listener.py:385-418` | With distinct container names, the reported code is the largest adjusted code of a failed container |
| `PodStatus.RunningExactly` | `src/operator/backend_listener.py:857-985` | A task is reported running exactly when the phase says so, no condition, reason or waiting container overrides it, and not both osmo-ctrl (or a start) has ended and some container has ended badly; in the last case it has failed |
| `PodStatus.EndedControlFails` | `src/operator/backend_listener.py:368-382` | A running Pod that nothing overrides whose osmo-ctrl ended other than by completion is reported failed, with an exit code |
| `PodStatus.ImagePullCodes` | `src/operator/backend_listener.py:330-365` | An image that cannot be pulled is reported with code 301 or 302 plus the offset of the first container that waits |
| `PodStatus.GetContainerWaitingErrorInfo` | `src/operator/backend_listener.py:330-365` | The first container, main ones before init ones, that waits on an error |
| `Text.SplitAfterJoin` | `deployments/upgrades/export_configs_to_helm.py:398-407` | Formatting dot-free parts and parsing them again gives the parts back |
| `Text.JoinAfterSplit` | `deployments/upgrades/export_configs_to_helm.py:398-407` | Parsing a dotted path and formatting it again gives the path back |
| `ConfigTree.WalkFindsMasked` | `deployments/upgrades/export_configs_to_helm.py:384-395` | The walk reports exactly the paths of masked values |
| `SecretMapping.LoadSecretMappings` | `deployments/upgrades/export_configs_to_helm.py:410-460` | A file is accepted exactly when every entry is acceptable and no path is a prefix of another. The result has one mapping for each entry, in order: its path joined is the entry's, and name and key are the entry's own |
| `SecretMapping.AcceptableExactly` | `deployments/upgrades/export_configs_to_helm.py:420-457` | An entry is acceptable exactly when it has three strings of the right form, character by character, and no other key |
| `SecretMapping.NamesByCharacter` | `deployments/upgrades/export_configs_to_helm.py:77-81` | A Secret name is accepted exactly when, character by character, it has lower-case letters and digits, dashes and single dots in between, no more than 253 of them and never 64 without a dot |
| `SecretMapping.PathsByCharacter` | `deployments/upgrades/export_configs_to_helm.py:398-403` | A path is accepted exactly when no dot is at an end or beside another |
| `SecretMapping.RemovalIsComplete` | `deployments/upgrades/export_configs_to_helm.py:564-577` | Removal leaves nothing masked at any depth |
| `SecretMapping.RemovalKeepsUnmasked` | `deployments/upgrades/export_configs_to_helm.py:564-577` | Every unmasked value is kept, at its path renumbered past the masked items of lists |
| `SecretMapping.RemovalInventsNothing` | `deployments/upgrades/export_configs_to_helm.py:564-577` | Every value found after removal is one that was there |
| `SecretMapping.ItemsKeptInOrder` | `deployments/upgrades/export_configs_to_helm.py:571-576` | The unmasked items of a list are kept in their order |
| `SecretMapping.ReplacementLeaves` | `deployments/upgrades/export_configs_to_helm.py:605-611` | What is found where a target was replaced: the reference's two fields and, for a dict, exactly its unmasked leaves below other keys |
| `SecretMapping.DictFieldKept` | `deployments/upgrades/export_configs_to_helm.py:605-611` | An unmasked leaf below dict keys keeps its place if and only if its first key is not one the reference sets (or holds that very value) |
| `SecretMapping.ListElementLost` | `deployments/upgrades/export_configs_to_helm.py:605-611` | An unmasked element beside a masked one, and an unmasked scalar, are lost when a mapping targets them |
| `SecretMapping.EditExtendsSubstitution` | `deployments/upgrades/export_configs_to_helm.py:594-616` | One in-place edit beside the earlier ones amounts to one more entry of a simultaneous substitution, and finds its target as it was |
| `SecretMapping.ApplySecretMappings` | `deployments/upgrades/export_configs_to_helm.py:580-623` | Succeeds exactly when every mapping covers a masked path and every masked path is covered; the result is the simultaneous substitution, with nothing masked |
| `SecretMapping.MappedLeaves` | `deployments/upgrades/export_configs_to_helm.py:605-616` | Below each mapped path of the result are exactly those leaves: the reference's fields and the fields kept of a dict |
| `SecretMapping.LoadedLeaves` | `deployments/upgrades/export_configs_to_helm.py:410-623` | After load and apply, the leaves below each entry's path are exactly its own Secret name and key and the fields kept of a dict |
| `SecretMapping.OutsideIsUnchanged` | `deployments/upgrades/export_configs_to_helm.py:580-623` | A value at a path that overlaps no mapped path is unchanged; one above keeps its keys or length |
| `SecretMapping.OrderDoesNotMatter` | `deployments/upgrades/export_configs_to_helm.py:580-623` | Success and result depend on the mappings only, not on their order |
| `Paging.EnumerateUsers` | `deployments/upgrades/export_configs_to_helm.py:275-311` | Terminates for any server; returns the users of the unique request after which the list is complete (distinct ids, one constant total reached), and fails exactly when there is none |
| `Paging.CompletionIsUnique` | `deployments/upgrades/export_configs_to_helm.py:275-311` | There is at most one such request |
| `Paging.CompletionByReplies` | `deployments/upgrades/export_configs_to_helm.py:275-311` | A list is complete after n requests exactly when each got a page stating the one total (or none, with just that many users collected), no id is malformed or there twice, all but the last brought something and left something, and the last reached the total |
| `Paging.HonestListIsComplete` | `deployments/upgrades/export_configs_to_helm.py:275-311` | Against a server that hands out nonempty pieces of one list and states its length, the result is that list, in order |
| `Paging.MissingTotalStopsEarly` | `deployments/upgrades/export_configs_to_helm.py:297-308` | Without a stated total only the first page can be returned |
| `RankBarrier.SyncServer.AddRank` | `cookbook/dnn_training/torchrun_multinode/osmo_barrier.py:73-84` | The new set of ranks and flags, duplicates and ranks out of range included |
| `RankBarrier.SyncServer.Broadcast` | `cookbook/dnn_training/torchrun_multinode/osmo_barrier.py:55-61` | Every connection on record is sent the same verdict, whether nothing has failed |
| `RankBarrier.StepKeepsInv` | `cookbook/dnn_training/torchrun_multinode/osmo_barrier.py:66-116` | While nothing failed, the ranks on record are in range and each belongs to one live connection |
| `RankBarrier.OkMeansAllConnected` | `cookbook/dnn_training/torchrun_multinode/osmo_barrier.py:42-84` | For more than one node an OK implies an earlier instant when the connected ranks were exactly 1 to n - 1, each over its own connection |
| `RankBarrier.EveryoneIsTold` | `cookbook/dnn_training/torchrun_multinode/osmo_barrier.py:55-61` | The broadcast reaches every live connection with one verdict |
| `RankBarrier.VerdictsDisagreeAfterLateLine` | `cookbook/dnn_training/torchrun_multinode/osmo_barrier.py:42-64` | What `run` returns differs from what it sent exactly when it sent OK and a handler then read a bad first line |
| `RankBarrier.VerdictsCanDisagree` | `cookbook/dnn_training/torchrun_multinode/osmo_barrier.py:42-64` | A run of two nodes in which that happens |
| `BlockParser.ParseCollapsibleContent` | `docs/_extensions/collapsible_code_block.py:103-209` | The nested loops terminate and compute the parse function |
| `BlockParser.ParseIsLossless` | `docs/_extensions/collapsible_code_block.py:103-209` | Every input line is in exactly one place of the result, in order |
| `BlockParser.ParseIsWellFormed` | `docs/_extensions/collapsible_code_block.py:125-191` | A block takes a directive, the blank and option lines after it and then exactly its content: blank or deeper lines, up to the last that is followed by no more |
| `BlockParser.ParseOfFlattened` | `docs/_extensions/collapsible_code_block.py:103-209` | Writing out any items of that shape and parsing them gives them back |
| `BlockMarks.DirectiveExactly` | `docs/_extensions/collapsible_code_block.py:121-124` | A line is a directive exactly when it is indentation, two dots, white space, the name and a tail; indent and label are the indentation and the stripped tail |
| `BlockMarks.HeaderExactly` | `docs/_extensions/collapsible_code_block.py:130-150` | A header goes on exactly over lines that are white space or whose text starts with a colon |
| `BlockMarks.DeeperExactly` | `docs/_extensions/collapsible_code_block.py:159-186` | A line is content of a block exactly when it has text behind more white space than the directive |
| `BlockMarks.OpenExactly` | `docs/_extensions/collapsible_code_block.py:140-141` | A block is open exactly when one of its option lines is `:open:` |
| `BlockMarks.IndentExactly` | `docs/_extensions/collapsible_code_block.py:142-145` | The indent of a block is the number of the last option line that gives one |
| `BlockWalkers.ExtractRawCode` | `docs/_extensions/collapsible_code_block.py:263-310` | The code is the specified lines joined, through the split and join of nested code |
| `BlockWalkers.Translator.RenderContent` | `docs/_extensions/collapsible_code_block.py:313-388` | The events appended and the new line index |
| `BlockWalkers.ExtractCounts` | `docs/_extensions/collapsible_code_block.py:263-310` | At most one line an item; exactly one each, with the item's own text, when and only when no nested code is dropped |
| `PrintedText.ExtractPrints` | `docs/_extensions/collapsible_code_block.py:276-310` | Every printed line is known exactly: code has lost the directive's indent plus two if it had as much, a label is at its directive's adjusted indent, and what is not blank is moved by the adjusted indents and indent options of all blocks around it; hollow content prints nothing |
| `PrintedText.PrintedFromSource` | `docs/_extensions/collapsible_code_block.py:276-310` | The same for any source lines; without hollow content there is one line for each item, in order |
| `BlockWalkers.RenderedShowsPreorder` | `docs/_extensions/collapsible_code_block.py:313-388` | Rendering uses one line an item and shows the line of its number in each |
| `RenderedNesting.RenderedNests` | `docs/_extensions/collapsible_code_block.py:334-388` | At each line shown, the blocks open are those around its item, and all are closed again before what comes after |
| `BlockWalkers.WalkersAgree` | `docs/_extensions/collapsible_code_block.py:212-388` | For every parse result both use the same line numbers exactly when no block has hollow content; then every item is shown its own line |
| `BlockWalkers.LabelledIsNotHollow` | `docs/_extensions/collapsible_code_block.py:263-310` | Labels on all blocks are enough for that |
| `BlockWalkers.UnlabelledBlockDisagrees` | `docs/_extensions/collapsible_code_block.py:301` | Two input lines for which they differ |

## Left out

- Cryptography, PEM, bcrypt, base64, JSON Web Tokens and the digest function itself: abstract ids, signers and fresh values.
- Kubernetes transport errors other than a conflict: they stop a run, which the models allow at any point.
- TlsRollout.RotationNeverBreaksTrust: assumes the two rules for starting processes and that annotated Pods follow a completed run, neither of which the code checks; without the rules it is false.
- TlsRollout: replica counts, observed generations and frozen autoscalers in `verify_rollout`. Leaving these checks out lets more runs pass the gate, so the safety results hold with them too.
- TlsRecovery.RerunRecovers: one run at a time with the same request and clock; concurrent runs are in TlsFencing.
- Retention annotations, ownership labels and immutable Secret types in the bootstrap jobs; Helm rollback; a changing set of leaves; deletion of Secrets.
- CredentialRotation: validation of the decoded credentials, and the Secret's other annotations.
- RolloutRecord: an empty list of tracking Secrets, for which the program returns at once; the poll's deadline is a stop at any point.
- Delivery: the contents of log and init messages, progress files, message types other than acknowledgements, and exceptions that end `websocket_connect` itself. A message counts as on the wire when its send returns or its replay step is taken.
- NodeConditions: the regex engine is any partial relation. The lock is left out; each method is one step. A rule set is a list of pairs rather than a dict.
- PodStatus: message texts; a terminated container whose reason is absent, for which building the error object raises; one clock reading serves a whole call.
- `PodList`, the status and condition caches, and the last status sent: they make no stronger promise than their bodies.
- SecretMapping.ApplySecretMappings: trees are values, so sharing of subtrees is not modelled, which JSON cannot express; what a failed call leaves half edited is not modelled, as the caller stops.
- ConfigTree: `isdigit` is restricted to ASCII digits; a path that covers a masked value has no others.
- Paging: the token and role scan after the enumeration.
- RankBarrier: the status printer, the failure text and the client.
- BlockParser: white space and digits are ASCII, and `header` is kept in the items although the program drops those lines.
- BlockWalkers: HTML text, block ids and pygments; WalkersAgree assumes that highlighting keeps the number of lines.
- `src/operator/backend_worker.py`, the CLI, UI configuration and training scripts.
