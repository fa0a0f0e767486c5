# Verified model of the auth broker's governance

The broker is a confidential-computing service whose authority is one signing key, held only in enclave memory. This
project models the parts that keep that authority in one place and proves properties of them:

* **Replica custody.** A primary and a custodian hold one lineage key. Every change runs in a commit that mutates the
  state, takes a new serial, pushes a sealed snapshot to the custodian, and reverts if no acknowledgement comes back.
  `Replication` is a transition system of two slots and a network that loses, delays and repeats messages, syncs,
  acknowledgements and custody bundles alike; `ReplicationSafety` holds its invariant, `ReplicationTheorems` and
  `CommitTheorems` what follows over every run, and `ReplicationLimits` a run for each assumption that shows what is
  lost without it.
* **Successor activation.** A predecessor certifies a candidate, the candidate applies a sealed bundle or declines, and
  the predecessor finalizes, aborts, or reopens after an expiry abort. `Handoff` joins the predecessor with any number
  of candidates, each reading its own clock; `HandoffSafety`, `HandoffTheorems` and `HandoffLimits` are its invariant,
  theorems and limits. `ReplicatedHandoff` joins the two systems: the predecessor is a pair of replicas, and what they
  release is what the handoff sees of it; `ReplicatedTheorems` says what survives crashes, re-keying and promotion.
* **Lineage, admissions and routes.** `Lineage`, `LineageMonitor`, `Admissions`, `RouteRegistry`; `RouteTrust` says from
  their own fields whose routes are served, and `Generations` follows
  admissions and routes through any number of handoffs.
* **Arithmetic and encoding.** `MintBudget` (token bucket over a pruned ledger), `RateLimit` (sliding window),
  `JsonText`, `JsonReader`, `KeyOrder`, `CanonicalJson` and `CanonicalTheorems` (canonical JSON).
* **The process.** `Governance` gives each commit's effect as a function on the replicated record (`Mutate`), and
  `GovernanceHistory` what every history of such changes keeps. `GovernanceProcess.GovernanceState` is the module-level
  state record as a class whose methods assign its fields as the source does, each proved against those functions;
  `ProcessProtocol` ties one call of its commit to the protocol's two steps.

`dafny verify dfyconfig.toml` checks everything.

## Assumptions

* Cryptography is ideal: a digest is the digested value, a fingerprint is injective, an envelope is a payload with its
  signer, a signature cannot be forged, and a sealed state opens only with the private half of the key it names.
* Serving custody is one step (`atomicServe`). The code awaits between exporting the snapshot and recording the peer
  (src/governance-replica-custody.js:189-204); `ReplicationLimits.SealAndRecordApart` shows a released change lost when
  a commit falls in between.
* A custodian serves custody only when no sync it would still accept is on its way to it (`drained`): a sync a crashed
  primary sent before has arrived, is lost, has expired (two minutes, src/governance-replica-custody.js:51) or carries
  a serial the custodian has passed. `ReplicationLimits.StaleSyncStillInFlight` shows the loss otherwise. After a commit
  that went through this always holds (`CommitTheorems.RestartedPrimaryRecovers`).
* A replaced primary is stopped before the promoted replica restarts and asks it for custody (`stopped`).
  `ReplicationLimits.ReplacedPrimaryLeftRunning` shows a fork otherwise.
* A custodian is not promoted while a custody bundle it sealed can still be applied (`settled`). The code does not
  check this: the promotion probe sees a requester that is still inactive (src/governance-replica-custody.js:360-372),
  and only the requester's timeout of fifteen seconds (src/governance-replica-custody.js:53) ends the wait.
  `ReplicationLimits.PromotedWhileServing` shows a second primary that lacks a released change otherwise.
* Custody requests may be handled late, after the process that sent them has crashed or has been re-keyed
  (`ServeLateRequest`); the key holder then records that process as its peer, as the code does
  (src/governance-replica-custody.js:165-204). Nothing released is lost by it, but see "A primary can be stranded" below.
* "Released" means returned by a successful commit; a custodian that serves custody or is promoted releases what it
  holds. The manifest reads the state without the lock, so it may show a change that is later reverted.
* A peer is always recorded with an address. A custodian commits nothing, because it serves no route that does
  (src/governance-state.js:175-184). A promotion may happen at any time a custodian is active: the quiet period and the
  probes of src/governance-replica-custody.js:352-374 only make it rarer.
* In a handoff, a reading is taken at the start of an operation and takes effect with its commit
  (src/governance-state.js:528, 613 and 683, 733). No reading runs ahead of a common clock by more than a given skew, and
  what a candidate reads when it applies is not behind it: the skew covers how far two clocks differ plus how long an
  apply waits in the commit queue. The predecessor's readings may be arbitrarily old when they take effect. The theorems
  ask for at most the abort grace of five minutes where an abort on expiry is involved, and late finalize for at most one
  minute. `HandoffLimits` shows that neither bound can be widened. What concerns declines, recorded proofs, tenants and
  retirement holds whatever the clocks say.
* In a handoff, every bundle a candidate receives was sealed by the predecessor. Nothing in the code checks this: the
  candidate decrypts with a sender key taken from the request (src/governance-state.js:718-721) and the associated data
  is public. `HandoffLimits.ForgedTenantsPass` shows a bundle with other tenants applied and finalized.
* In `ReplicatedHandoff`, a commit is begun only after the checks its operation makes on the record of the replica that
  runs it: the offer is the certified candidate's, a decline or proof was signed by its candidate, a proof passes the
  finalize checks (`Vetted`).
* The attestation, arbitration, hard-veto and compliance checks of a candidate are inputs: a `Certify` change stands
  for a candidate that passed them, and `approved` for a genesis adjudication that did.

## Where the code differs from its comments or from what one would expect

* src/tls-mint-log.js:17-20 says that seven days of history suffice because a bucket full at the window edge owes
  nothing to older mints. The level computed from the pruned ledger is never lower than the one from the whole history,
  but it can be higher (`MintBudget.PruningCanRaiseTheLevel`); the two are equal exactly when the bucket has since been
  full, or has been drained even without the older mints (`MintBudget.DroppingIsExactWhenForgotten`).
* src/governance-state.js:722-726 takes the transferred epoch unchecked; the successor holds its lineage properly
  exactly when the sender was honest about it (`Candidate.ApplyHoldsLineageIffEpochHonest`).
* A tenant admitted between an expiry abort and the finalize that reopens the activation stays with the retired
  predecessor and is unknown to the successor, in every run (`HandoffTheorems.LateAdmissionIsLost`,
  `HandoffLimits.AdmissionAfterExpiryAbortIsLost`).
* A primary can be stranded: a custody request of a crashed incarnation, handled after its successor has enrolled as
  custodian, makes the primary record the dead process as peer (`ReplicationLimits.LateRequestStrands`). It then releases
  no commit until a process restarts, the custodian is promoted or a request of the custodian's is handled
  (`CommitTheorems.StrandedReleasesNothing`). A primary whose recorded peer is its custodian is never stuck
  (`CommitTheorems.NextCommitSucceeds`).
* canonicalize assigns to a plain object, so a member named `__proto__` leaves no trace in a digest input
  (`CanonicalTheorems.ProtoMemberIsUndigested`); without such members canonical text identifies values exactly.

## Model

| member | source | states |
|---|---|---|
| ReplicationSafety.StepKeepsInv | src/governance-state.js:1349-1366 | Every event (begin, deliver, release, fail, restart, loss of any message, serving, serving a late request, applying a bundle, promotion) keeps the joint invariant: records replay their histories, the custodian is at the log's tip or one ahead, a leader's base is the tip, a bundle on its way to a waiting process is the tip, a replaced primary is fenced |
| ReplicationTheorems.ReleasedFormOneHistory | src/governance-state.js:1344-1348 | In every run, any two released histories, by whichever replica, are prefixes of one another, also while two replicas believe they are primary |
| ReplicationTheorems.RekeyedHoldsEverythingReleased | src/governance-state.js:1460-1484 | A process that applies a custody bundle at any point of any run, in either role and however late it arrives, is the replay of a history that contains every change released before |
| ReplicationTheorems.CustodyComesFromGoverningKeys | src/governance-state.js:1400-1403 | In every run, under any assumptions, a custody bundle carries an active or activating state; a retired or inactive process serves nobody, in time or late; one whose key governs serves the fresh process beside it |
| CommitTheorems.RestartedPrimaryRecovers | src/governance-replica-custody.js:163-207 | After any run, let a commit go through and the primary crash: its custodian may serve the restarted process at once, and that comes back as primary with the commit and everything before it |
| ReplicationTheorems.PromotedHoldsEverythingReleased | src/governance-state.js:1518-1526 | A custodian promoted at any point of any run holds every change released before and is then primary |
| ReplicationTheorems.CustodianIsAtMostOneAhead | src/governance-state.js:1495-1514 | In every run the custodian's record is the last released one or has exactly one further change |
| Replica.CustodianOnlyMovesForward | src/governance-state.js:1495-1514 | Whatever snapshots anyone sends it, a custodian's serial never falls, its lineage only grows, an epoch's key stays, and an older snapshot is refused for good |
| ReplicationTheorems.ReplacedIsNeverAcknowledgedAgain | src/governance-state.js:1516-1526 | After a promotion replaced a primary, no acknowledgement addressed to it appears that was not on the network already |
| ReplicationTheorems.LateReleaseAddsNothing | src/governance-state.js:1516-1526 | What a replaced primary still releases late is already a prefix of the log, and the log does not move |
| CommitTheorems.CommitRaisesSerialForGood | src/governance-state.js:1352-1362 | Whatever becomes of a commit and whatever follows in the run, the process never again has a serial as low as before it |
| CommitTheorems.SerialsNeverRepeat | src/governance-state.js:1344-1348 | In every run no process ever sends two different syncs with one serial, however far apart and whatever is lost between |
| CommitTheorems.WaitingCommitIsUndisturbed | src/governance-state.js:1336-1341 | While a commit waits, no event but its outcome or a crash touches the replica |
| CommitTheorems.FailedCommitRestoresEverything | src/governance-state.js:1359-1362 | A failed commit leaves every replicated field as the replay of the history before it; the serial stays |
| CommitTheorems.NextCommitSucceeds | src/governance-replica-custody.js:271-296 | After any run whatever, if the leader's recorded peer is the custodian in the other slot, a commit whose sync and reply both arrive is released and held by both replicas |
| CommitTheorems.StrandedReleasesNothing | src/governance-replica-custody.js:262-296 | If its recorded peer is anybody else, nothing is released in any further run until a process restarts, the custodian is promoted or a request of the custodian's is handled |
| CommitTheorems.OwnRequestHeals | src/governance-replica-custody.js:198-204 | A request of the custodian's own, handled between commits, ends it: the next commit can succeed again |
| ReplicationTheorems.EveryHolderHoldsTheLineage | src/governance-state.js:1423-1446 | In every run each key holder has a lineage that verifies, epoch equal to its length, and its own key as current key |
| ReplicationTheorems.RecordedProofSurvives | src/governance-state.js:787-824 | Once a released state records the successor's proof, no replica re-keyed or promoted later is active; retired stays retired |
| ReplicationTheorems.ReleasedPolicyOnlyGrows | src/governance-state.js:1080-1099 | Between released states a tenant's minimum route version never falls and its key list never changes |
| ReplicationLimits.SealAndRecordApart | src/governance-replica-custody.js:189-204 | If sealing and recording the peer are two steps, some run from every initial world loses a released change |
| ReplicationLimits.ReplacedPrimaryLeftRunning | src/governance-replica-custody.js:165-207 | If a replaced primary may re-key the promoted replica after its restart, two released histories can disagree |
| ReplicationLimits.StaleSyncStillInFlight | src/governance-state.js:1503-1505 | If a crashed incarnation's sync is still in flight at a re-key, it can overwrite a released change |
| ReplicationLimits.PromotedWhileServing | src/governance-replica-custody.js:352-374 | If a custodian is promoted between serving and the arrival of its bundle, the bundle makes a second primary that lacks a released change |
| ReplicationLimits.LateRequestStrands | src/governance-replica-custody.js:165-204 | From every initial world, under all assumptions, a request handled after its sender crashed strands a primary whose custodian is enrolled |
| ProcessProtocol.CommitIsBeginThenEnd | src/governance-state.js:1349-1366 | One call of the process's commit has the outcome of the protocol's begin followed by release, or by failure |
| ProcessProtocol.AcceptedCustodyHoldsLineage | src/governance-state.js:1460-1484 | For a fresh replica and a well-formed bound snapshot, custody is accepted exactly when the key holds the snapshot's lineage |
| GovernanceProcess.GovernanceState.constructor | src/governance-state.js:70-141 | A booted process is fresh: inactive, no lineage, no tenants, no readiness, no peer |
| GovernanceProcess.GovernanceState.ApplyReplicaSnapshot | src/governance-state.js:1433-1446 | Every replicated field and the serial become the snapshot's |
| GovernanceProcess.GovernanceState.RunClosure | src/governance-state.js:613-657 | The field assignments of each commit closure have exactly the effect, and the refusals, of `Mutate` |
| GovernanceProcess.GovernanceState.Commit | src/governance-state.js:1349-1366 | Succeeds exactly when the closure does and, if a custodian is enrolled, it acknowledges; otherwise only the serial changes |
| GovernanceProcess.GovernanceState.BootstrapGenesis | src/governance-state.js:345-361 | A fresh process that bootstraps becomes a holder of a one-certificate lineage; a refused or unacknowledged one is unchanged but for the serial |
| GovernanceProcess.GovernanceState.CompleteActivation | src/governance-state.js:613-661 | The bundle returned carries exactly the tenants held at certification; nothing is returned unless the pending activation was acknowledged |
| GovernanceProcess.GovernanceState.FinalizeActivation | src/governance-state.js:765-853 | A refused proof changes nothing; otherwise the state is that of one or both commits, and after a failure it is as before or has the proof recorded; the retirement returned names this key and epoch, the prover's key and the next epoch |
| GovernanceProcess.GovernanceState.IssueTenantAdmission | src/governance-state.js:399-437 | An admission is returned exactly when active, well formed, replacing no key and acknowledged, and names the lineage it was issued under |
| GovernanceProcess.GovernanceState.IssueActivationReadiness | src/governance-state.js:902-933 | A fresh candidate remembers the nonce, forgetting its oldest beyond eight; a declined nonce gets no readiness |
| GovernanceProcess.GovernanceState.DeclineActivation | src/governance-state.js:937-952 | Only a candidate that has not applied declines; the nonce is refused from then on |
| GovernanceProcess.GovernanceState.ApplyActivationBundle | src/governance-state.js:683-763 | The candidate applies exactly when every check passes and its commit is acknowledged; otherwise it is unchanged but for the serial |
| GovernanceProcess.GovernanceState.ApplyReplicaCustodyTransfer | src/governance-state.js:1460-1484 | Takes the sender's key, state and the given role, or changes nothing |
| GovernanceProcess.GovernanceState.VerifyReplicaSnapshot | src/governance-state.js:1423-1431 | Accepts exactly snapshots of a held status whose lineage verifies and has the stated epoch, and returns the key it names |
| GovernanceProcess.GovernanceState.ApplyReplicaSync | src/governance-state.js:1495-1514 | Only a keyed custodian applies, and only strictly newer state that extends its own lineage |
| GovernanceProcess.GovernanceState.PromoteReplicaToPrimary | src/governance-state.js:1518-1526 | Only an active custodian becomes primary, and it drops its peer |
| GovernanceProcess.GovernanceState.ServeCustodyRequest | src/governance-replica-custody.js:165-207 | Serves exactly while its key governs, active or activating a successor, never once retired; the requester gets the current state and the opposite role and becomes the recorded peer |
| GovernanceProcess.GovernanceState.PullCustodyFromPeer | src/governance-replica-custody.js:210-256 | A fresh process takes the key and current state of a peer whose key governs, in the opposite role, and each records the other; from a retired peer it takes nothing, and both stay as they were |
| HandoffTheorems.NeverAppliedAfterAbort | src/governance-state.js:707-712 | In every run no certificate is applied after its candidate's decline, whatever the clocks say, nor after an abort on expiry if skew is within the abort grace |
| HandoffTheorems.EarlierSuccessorWasUnseen | src/governance-state.js:998-1001 | Every activated successor but the one certified last was aborted on expiry and its proof was never recorded; within the abort grace it had applied before that abort |
| HandoffTheorems.TwoSuccessorsOnlyIfOneUnseen | src/governance-state.js:964-1010 | Two successors are both activated only if one of them was aborted on expiry and stayed unseen, having applied before within the abort grace |
| HandoffTheorems.DeclinesAloneAllowOneSuccessor | src/governance-state.js:974-983 | With aborts on declines only, at most one certificate, for one candidate, is ever activated, whatever the clocks say |
| HandoffTheorems.GenuineDeclineAborts | src/governance-state.js:964-1001 | In every run, any decline the candidate of the pending activation has signed for its nonce aborts it while no proof is recorded: active again, nothing pending or to reopen, tenants as they were |
| HandoffTheorems.DeclinedActivationAborts | src/governance-state.js:937-1001 | A waiting candidate that declines can still abort after anything else has happened, unless an abort or a recorded proof came first |
| HandoffTheorems.RetiresOnlyForActiveSuccessor | src/governance-state.js:776-803 | A predecessor records a proof, or retires, only for a successor that is active and whose lineage is the predecessor's plus its certificate, whatever the clocks say |
| HandoffTheorems.RetirementNamesSuccessor | src/governance-state.js:826-843 | The retirement a retired predecessor serves is of its own key and epoch in favour of the key and epoch of the successor certified last, under its own signature |
| HandoffTheorems.LateFinalizeSucceeds | src/governance-state.js:765-803 | The proof of any successful apply passes every finalize check at any later time, also after an expiry abort, while nothing newer was certified and skew is at most a minute; the commits then retire |
| HandoffTheorems.HandoffConservesTenants | src/governance-state.js:638-660 | At every point of every run, predecessor and activated successor both hold at least the tenants the successor was activated with, under the same keys and no lower minimum; unless its certificate was aborted on expiry, the predecessor holds exactly those, so the successor holds everything the predecessor does |
| HandoffTheorems.SuccessorStartsWithTenants | src/governance-state.js:733-742 | An apply starts the named candidate with exactly the bundle's tenants, which within the abort grace are exactly the predecessor's at that moment |
| HandoffTheorems.NoAdmissionWhileActivating | src/governance-state.js:428-435 | From certification on, over any further run, the predecessor's tenants stay as they were until an abort is logged, or for good |
| HandoffTheorems.LateAdmissionIsLost | src/governance-state.js:804-815 | In every run without a skew above the abort grace, or without expiry aborts, a tenant first admitted after the expiry abort of a certificate is missing from the bundle that activated its successor |
| ReplicatedTheorems.ReplicatedIsOne | src/governance-state.js:1336-1366 | Every run of candidates and a replicated predecessor (crashes, lost and late messages, reverts, re-keying, promotion) is a run of the replicas and a run of the handoff at once, the handoff's predecessor being the replay of the log's tip |
| ReplicatedTheorems.ReleasedAbortIsFinal | src/governance-state.js:964-1010 | Once any replica has released an abort, no candidate applies the certificate later, whatever crashes or takes over; one declined never was applied, one aborted on expiry only before, within the abort grace |
| ReplicatedTheorems.ReleasedProofHasSuccessor | src/governance-state.js:787-824 | If any replica ever released a record with the proof, or a retired one, the last certified candidate is active, keeps its proof and holds the extended lineage |
| ReplicatedTheorems.TwoSuccessorsOnlyIfOneUnseenByAll | src/governance-state.js:964-1010 | Two successors of a replicated predecessor are both activated only if one was aborted on expiry and no replica ever released its proof |
| ReplicatedTheorems.LeaderCanFinalize | src/governance-state.js:765-803 | Whichever replica leads, however it came by the key, can between commits finalize with the proof the successor keeps, with skew of at most a minute, and then retires |
| ReplicatedTheorems.ReplicatedHandoffConservesTenants | src/governance-state.js:638-660 | Every key holder that was not replaced, and the successor, hold at least the tenants it was activated with; a leader between commits exactly those, unless its certificate was aborted on expiry |
| HandoffLimits.WiderSkewAppliesAfterAbort | src/governance-state.js:989-993 | With any larger skew, some run from every initial state applies a certificate after its expiry abort |
| HandoffLimits.WiderSkewRefusesProof | src/governance-state.js:795-802 | With skew above a minute, some run makes the proof of a successful apply fail the finalize checks |
| HandoffLimits.AdmissionAfterExpiryAbortIsLost | src/governance-state.js:804-815 | Some run does finalize a successor that lacks a tenant admitted after the expiry abort |
| HandoffLimits.ForgedTenantsPass | src/governance-state.js:713-742 | A bundle of the last certificate with forged tenants is applied like the genuine one, in any run, and its proof finalizes exactly when the epoch was kept |
| Candidate.ApplyHoldsLineageIffEpochHonest | src/governance-state.js:722-742 | After an accepted bundle the candidate holds its lineage properly exactly when the transferred epoch is the lineage's length |
| Candidate.ApplySucceedsExactly | src/governance-state.js:683-732 | A bundle is applied exactly by a waiting candidate that is named, ready and has not declined, if it is sealed to it and bound to the certificate, with a valid unexpired lineage that ends in the certificate and names its key |
| GovernanceHistory.ReplayKeepsHolder | src/governance-state.js:350-357 | Every history keeps a holder's lineage, epoch and key, and the consistency of status with pending and expired activations |
| GovernanceHistory.ProofRecordedForGood | src/governance-state.js:802-824 | Once the proof is recorded no later point of any history is active, and retired is absorbing |
| GovernanceHistory.NoChangeOfCourseAfterProof | src/governance-state.js:964-972 | After a recorded proof no later certify, admit or abort succeeds |
| GovernanceHistory.ReplayExtendsPolicy | src/governance-state.js:1101-1109 | Every history keeps each admitted tenant, its key list and its revocations, and never lowers its minimum |
| GovernanceHistory.MinimumCoversEveryAdmission | src/governance-state.js:1080-1099 | A tenant's minimum is at least that of every admission in the history, and its keys are those of each |
| GovernanceHistory.MinimumWasAdmitted | src/governance-state.js:1080-1099 | And it is no higher than needed: it was there at the start, is the default, or was admitted |
| GovernanceHistory.FinalizeRecordsProof | src/governance-state.js:802-823 | Once the checks pass, the first commit succeeds and records the proof, from a pending or a reopened activation |
| GovernanceHistory.FinalizeCommitsRetire | src/governance-state.js:802-843 | Once the checks pass, every commit succeeds and they retire the predecessor with the tenants it had |
| GovernanceHistory.FinalizeSucceedsExactly | src/governance-state.js:765-803 | Finalize accepts exactly the candidate's own signature of the proof for the pending or reopened activation, made within a minute of the certificate's life |
| GovernanceHistory.AbortSucceedsExactly | src/governance-state.js:964-1010 | An abort succeeds exactly on the candidate's own signed decline of the pending nonce, or five minutes after expiry, and only while no proof is recorded |
| GovernanceHistory.CertifySucceedsExactly | src/governance-state.js:613-657 | An active holder's certificate extends its valid lineage by the candidate's key, names the candidate in every other respect and lasts ten minutes |
| GovernanceHistory.AdmitSucceedsExactly | src/governance-state.js:428-436 | An admission is recorded exactly by an active holder, for its own lineage, under the algorithm, key id and public key the tenant has, if it is known; other tenants stay |
| Lineage.VerifyLineage | src/governance-certificates.js:299-334 | Accepts exactly valid chains (and fresh ones, if asked), with their length, current key and payloads |
| Lineage.WalkDecidesValidity | src/governance-certificates.js:299-334 | Walking the certificates accepts a chain exactly when genesis is self-signed at epoch 1 and each link is signed by the key before it |
| Lineage.KeyAtEpochIsVerifiedKey | src/governance-state.js:1121-1131 | The key read off certificate e is the key verification reaches on the first e certificates |
| LineageMonitor.ValidateGovernanceLineage | verifier/main.go:435-491 | The Go loop accepts exactly valid lineages whose certificates carry their model metadata, and describes the last certificate: its key, image and model policy |
| LineageMonitor.CheckersAgree | verifier/main.go:435-491 | What Go accepts verifyLineage accepts with the same epoch and key; verifyLineage accepts more only for missing metadata |
| LineageMonitor.MonitorAcceptsExactly | verifier/main.go:435-516 | A monitor accepts exactly valid described lineages that are the pinned one, have the certificates asked for, and extend the pinned predecessor by one |
| LineageMonitor.MonitorRunGrowsByOne | verifier/main.go:493-516 | A monitor that pins each accepted lineage as predecessor accepts only lineages one certificate longer each time |
| LineageMonitor.MonitorSeesNoKeyReplaced | verifier/main.go:493-516 | Over such a run the key of an epoch, once seen, is the same in everything accepted later |
| Admissions.IssuedAdmissionVerifiesExactly | src/governance-state.js:439-476 | What a key holder issues verifies exactly under lineages that extend the issuing one, until it expires, while the tenant's policy allows it |
| Admissions.AdmissionVerifiesExactly | src/governance-state.js:439-476 | Whoever made it, an envelope verifies exactly if it is the signature, by the key in charge at its epoch of this lineage, of a well-stated unexpired admission under this lineage that the tenant's policy does not stand against |
| Admissions.AssertTenantAdmissionInput | src/governance-certificates.js:361-403 | The loop over keys with its set of seen ids finds a fault exactly in an ill-stated admission |
| Admissions.AdmittedVerifiesUntilRaised | src/governance-state.js:462-474 | Once admitted it verifies at every later point of its issuer's history exactly until expiry or a higher minimum |
| Generations.AppliedIsHandover | src/governance-state.js:722-742 | Applying the bundle of a certification makes a holder that starts with the tenants held at certification and an extended lineage |
| Generations.AdmissionVerifiesAcrossHandoffs | src/governance-state.js:439-476 | Through any number of handoffs an admission verifies at each later generation exactly until expiry or a higher minimum admitted by any generation since |
| Generations.AcceptedRouteRespectsEarlierGenerations | src/route-registry.js:221-256 | No route document accepted by a later generation is below a minimum an earlier one admitted before handing over |
| RouteRegistry.AcceptedRouteRespectsEveryMinimum | src/route-registry.js:221-256 | Every accepted route document has a version at least as high as every minimum its tenant was ever admitted with |
| RouteRegistry.BuildRegistryState | src/route-registry.js:107-167 | The build is the fold over documents and then bundle; summary i of a successful one is document i's route if it is the first valid one for its place and else its refusal with the reason, then comes each bundle route; a strict build fails exactly as the fold does or, if a document is refused, with the first refusal |
| RouteTrust.RouteVerifiesExactly | src/route-registry.js:169-219 | A bundle route is accepted exactly if the first key its tenant's anchor lists under the named id and algorithm signed its very payload, and it is of a known kind, in time and not below the minimum |
| RouteTrust.DocumentVerifiesExactly | src/route-registry.js:221-256 | A document is accepted exactly if the key in charge admitted its tenant, that admission stands, and a key the admission lists signed a route in force within its hosts and audiences |
| RouteTrust.ServedRouteIsTrusted | src/route-registry.js:107-167 | Every route a successful build serves stands at its own tenant or repository and is that of such a document or such a bundle route |
| RouteRegistry.FilledExactlyWhenServed | src/route-registry.js:121-141 | A place in the maps is filled exactly when some document is valid for it on its own |
| RouteRegistry.FirstValidWins | src/route-registry.js:121-141 | And it holds the first such document |
| RouteRegistry.BundleSucceedsExactly | src/route-registry.js:143-149 | A bundle is accepted exactly when each of its routes is valid and finds its place free; the maps then hold each of them, and otherwise what the documents left |
| RouteRegistry.DocumentSurvivesBundle | src/route-registry.js:121-149 | The maps of a successful build hold, at each place, the first document valid for it |
| RouteRegistry.BundleFillsTheRest | src/route-registry.js:121-149 | Or else the one bundle route valid for it, and otherwise nothing |
| RouteRegistry.RefusedDocumentsLeaveNoTrace | src/route-registry.js:128-141 | Leaving out a refused document, invalid or duplicate, changes neither map |
| RouteRegistry.RefusedDocumentsLeaveBuildUnchanged | src/route-registry.js:107-167 | Nor whether the whole build succeeds, nor the maps it ends with |
| MintBudget.TokensAvailable | src/tls-mint-log.js:82-99 | The loop computes the bucket level, which lies between empty and full |
| MintBudget.DroppingHistoryNeverLowers | src/tls-mint-log.js:17-20 | Dropping the oldest mints never lowers the level |
| MintBudget.DroppingIsExactWhenForgotten | src/tls-mint-log.js:17-20 | And leaves it unchanged exactly when the bucket was full again since, or drained without them |
| MintBudget.PruningCanRaiseTheLevel | src/tls-mint-log.js:71-99 | Pruning to the window can raise the level: a concrete ledger |
| MintBudget.NextTokenTimeIsExact | src/tls-mint-log.js:128-129 | The reported time is the first instant the level reaches one token, at most one refill interval away |
| MintBudget.RefusalEndsExactly | src/tls-mint-log.js:111-137 | While the window stays as it is, a refused mint is let through exactly from the reported instant on |
| MintBudget.PrunedLedgerIsWindow | src/tls-mint-log.js:71-76 | Though pruned on every read and write, the ledger the guard sees is exactly the window of the whole history |
| MintBudget.MintsInAnyStretch | src/tls-mint-log.js:111-156 | If every mint passed the guard, a stretch of length d within the window holds at most max + d·max/window mints |
| MintBudget.AtMostTwiceCapacityPerWindow | src/tls-mint-log.js:111-156 | Hence at most twice the capacity in any seven days |
| MintBudget.MintLog.AssertMintWithinWeeklyBudget | src/tls-mint-log.js:111-137 | Refuses exactly when the bucket of the pruned ledger holds less than a token, never with fewer mints in the window than the capacity; the time it reports is at most a refill interval away and the first at which it would not refuse; a read error lets the mint through |
| MintBudget.MintLog.RecordSuccessfulMint | src/tls-mint-log.js:142-156 | Appends the mint to the pruned ledger, whatever was stored, so a ledger of every mint so far stays one; an I/O error changes nothing |
| RateLimit.Limiter.ConsumeRateLimit | src/governance-routes.js:766-780 | Keeps the window's stamps of this key and no other bucket changes; allows exactly below the limit |
| RateLimit.AtMostMaxPerWindow | src/governance-routes.js:766-780 | Over any run of calls at most max are allowed in every window |
| RateLimit.RetryDelayIsExact | src/governance-routes.js:769-775 | A refused caller is served by its next call exactly when the delay has passed; the seconds told are the least that cover it |
| JsonText.StringReadsBack | src/canonical-json.js:22-24 | A quoted string, lone surrogates included, reads back as itself and tells where it ends |
| JsonText.EscapesExactly | src/canonical-json.js:22-24 | Each code unit is written as QuoteJSONString prescribes: named escapes, lower-case hexadecimal for other controls and lone surrogates, itself otherwise |
| JsonReader.ReadsBack | src/canonical-json.js:22-24 | Every plain value is read back from its text by a JSON reader, whatever follows it |
| JsonReader.Unambiguous | src/canonical-json.js:22-24 | So distinct values have distinct texts, whatever follows them |
| KeyOrder.SortedIsUnique | src/canonical-json.js:13-18 | There is one sorted list of the same members |
| KeyOrder.KeyOrderExactly | src/canonical-json.js:13-18 | Array indices, numerals below 2^32 - 1, come first and by number; other keys by the first code unit in which they differ |
| CanonicalJson.Canonicalize | src/canonical-json.js:3-20 | The recursion and its loop over sorted keys build the canonical form, member order as JavaScript lists it |
| CanonicalTheorems.CanonicalTextIsMeaning | src/canonical-json.js:3-24 | Canonical texts are equal exactly when the values are, apart from member order, undefined members and `__proto__` |
| CanonicalTheorems.CanonicalTextIsValue | src/canonical-json.js:3-24 | Without members named `__proto__`, equal digest inputs are exactly equal values |
| CanonicalTheorems.CanonicalTextIsInOrder | src/canonical-json.js:12-18 | At every depth the canonical form lists the members of an object in that order |
| CanonicalTheorems.CanonicalTextReadsBack | src/canonical-json.js:3-24 | The digest input, read back, is the canonical form |
| CanonicalTheorems.CanonIsIdempotent | src/canonical-json.js:3-20 | Canonicalizing twice changes nothing more |
| CanonicalTheorems.MemberOrderIsIgnored | src/canonical-json.js:12-18 | Members in any other order give the same text |
| CanonicalTheorems.ProtoMemberIsUndigested | src/canonical-json.js:12-17 | A member named `__proto__` leaves no trace in the text |

## Left out

- HTTP handlers, TLS and ACME ordering, notification, storage, key-management and model-service clients: I/O over services that cannot be seen.
- Cryptography itself, attestation claims and token checks: ideal, as above.
- Successor adjudication, image inspection, source evidence, hard vetoes and compliance predicates: external judgement, an input to certification.
- Single-use challenges, heartbeats, health fields, monitor counters and rate limits of the custody endpoints: branch-by-branch checks that would add easy members.
- Route-version bookkeeping (src/governance-state.js:478-490) and self-healing proposals: they change outside commits and carry no committed guarantee.
- The Go checker's parsing of untyped JSON and its numeric conversions: lineages are typed values with integer epochs.
- Certificate fields that no modelled check reads (policy version, temperature, attestation and decision digests, route bundle digests).
- The patterns for tenant UUIDs, hostnames, repository names, URLs and PEM texts: one flag of a route payload, or the caller's duty for an admission.
- Interleaving inside one process: the promise queue runs one commit at a time, so a method of `GovernanceState` is one call; what may happen between a commit's sync and its outcome is in `Replication`.
- The bundle that carries a sync or custody snapshot is the snapshot itself, addressed to one activation key; expiry and timeouts appear as loss of the message at any time.
- HandoffTheorems.HandoffConservesTenants: speaks of bundles the predecessor sealed, because the code accepts others; see HandoffLimits.ForgedTenantsPass.
- A successor's own replicas: in `ReplicatedHandoff` the predecessor is replicated, while each candidate's changes take effect at once.
- ReplicatedTheorems.ReplicatedIsOne: holds under the four replication assumptions above.
- ReplicationTheorems.RekeyedHoldsEverythingReleased: holds under the four assumptions above, each shown to be needed.
- MintBudget.TokensAvailable: instants and levels are real numbers, so floating-point rounding is not modelled; ledger entries are already parsed, ascending ISO texts being ordered like their instants.
- CanonicalJson.Canonicalize: values are JSON trees with distinct keys and finite numbers given by their text; undefined array items and a top-level undefined are not modelled.
- JsonReader.Unambiguous: a number is the text JavaScript writes for it, so that -0 and 0 are one number.
- Validation of the configured trust anchors and of the bundle's schema (src/route-registry.js:385-425): the anchors of bundle routes are given valid.
- RateLimit.Limiter.ConsumeRateLimit: asks for a positive limit, as every configured profile has.
- GovernanceProcess.GovernanceState.ApplyActivationBundle: the closure's second look at status and declines coincides with the first, since nothing runs in between.
- GovernanceProcess.GovernanceState.FinalizeActivation: the acknowledgement of each of its two commits is an input, and crashes between them are in `Replication`.
