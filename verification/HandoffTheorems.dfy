/** What a handoff guarantees over whole runs, and how far clocks may drift. */
module HandoffTheorems {
  import opened Lineage
  import opened Governance
  import opened GovernanceHistory
  import opened Candidate
  import opened Handoff
  import opened HandoffSafety

  lemma StepKeepsInv(j: Joint, e: Event)
    requires Inv(j)
    ensures Inv(Step(j, e))
  {
    match e
    case Tick(to) => TickKeepsInv(j, to);
    case Housekeeping(change) => HousekeepingKeepsInv(j, change);
    case CertifyCandidate(candidate, nonce, now) => CertifyKeepsInv(j, candidate, nonce, now);
    case AbortPending(request, now) => AbortKeepsInv(j, request, now);
    case RecordSuccessorProof(proof) => RecordKeepsInv(j, proof);
    case RetirePredecessor(proof, now) => RetireKeepsInv(j, proof, now);
    case IssueReadiness(candidate, nonce) => ReadinessKeepsInv(j, candidate, nonce);
    case DeclineNonce(candidate, nonce, now) => DeclineKeepsInv(j, candidate, nonce, now);
    case ApplyBundle(candidate, certificate, bundle, nonce, now) =>
      ApplyKeepsInv(j, candidate, certificate, bundle, nonce, now);
    case SuccessorChange(candidate, change) => SuccessorKeepsInv(j, candidate, change);
  }

  /** A state some run reaches. */
  predicate Reached(start: Joint, events: seq<Event>, j: Joint) {
    Initial(start) && j == Run(start, events)
  }

  lemma StepKeepsSkew(j: Joint, e: Event)
    ensures Step(j, e).skew == j.skew
  {
  }

  lemma {:induction false} ReachedKeepsInv(start: Joint, events: seq<Event>, j: Joint)
    requires Reached(start, events, j)
    ensures Inv(j) && j.skew == start.skew
  {
    if |events| == 0 {
      InvInitially(start);
    } else {
      var before := Run(start, events[..|events| - 1]);
      StepKeepsSkew(before, events[|events| - 1]);
      ReachedKeepsInv(start, events[..|events| - 1], before);
      StepKeepsInv(before, events[|events| - 1]);
    }
  }

  // ---------------------------------------------------------------------
  // At most one successor, but for one case
  // ---------------------------------------------------------------------

  /** No certificate is applied after its candidate's decline, however far clocks are apart, nor after an abort
      on expiry if they are within the abort grace of each other. */
  lemma NeverAppliedAfterAbort(start: Joint, events: seq<Event>, j: Joint, i: nat, k: nat)
    requires Reached(start, events, j) && i < k < |j.log| && j.log[k].Activated?
    ensures j.log[i] != AbortedOnDecline(j.log[k].bundle.aad.successorPayload)
    ensures start.skew <= ABORT_GRACE_MS ==> j.log[i] != AbortedOnExpiry(j.log[k].bundle.aad.successorPayload)
  {
    ReachedKeepsInv(start, events, j);
  }

  /** The predecessor aborted the certificate on expiry and never saw the proof. */
  predicate Unseen(log: seq<Happening>, p: Payload) {
    AbortedOnExpiry(p) in log && Recorded(p) !in log && Finished(p) !in log
  }

  /** And the candidate had applied it before. */
  predicate AppliedUnseen(log: seq<Happening>, b: Sealed) {
    && Unseen(log, b.aad.successorPayload)
    && exists i, k :: 0 <= i < k < |log| && log[i] == Activated(b) && log[k] == AbortedOnExpiry(b.aad.successorPayload)
  }

  /** Every activated successor other than the one certified last was aborted on expiry and stayed unseen; within
      the abort grace it had applied before that abort. */
  lemma EarlierSuccessorWasUnseen(start: Joint, events: seq<Event>, j: Joint, b: Sealed)
    requires Reached(start, events, j)
    requires Activated(b) in j.log
    requires j.last.None? || b.aad.successorPayload != j.last.value.aad.successorPayload
    ensures Unseen(j.log, b.aad.successorPayload)
    ensures start.skew <= ABORT_GRACE_MS ==> AppliedUnseen(j.log, b)
  {
    ReachedKeepsInv(start, events, j);
    var p := b.aad.successorPayload;
    assert HappeningOk(j, Activated(b));
    assert AbortedIn(j.log, p);
    NotDeclined(j, p);
    NotLastNotRecorded(j, p);
    if start.skew <= ABORT_GRACE_MS {
      AbortedAfterApplying(j.log, b);
    }
  }

  lemma AbortedAfterApplying(log: seq<Happening>, b: Sealed)
    requires NoneAfterExpiry(log) && Activated(b) in log && Unseen(log, b.aad.successorPayload)
    ensures AppliedUnseen(log, b)
  {
    var i :| 0 <= i < |log| && log[i] == Activated(b);
    var k :| 0 <= k < |log| && log[k] == AbortedOnExpiry(b.aad.successorPayload);
    assert i < k;
  }

  lemma NotDeclined(j: Joint, p: Payload)
    requires Inv(j) && ProofHeld(j, p)
    ensures AbortedOnDecline(p) !in j.log
  {
  }

  lemma NotLastNotRecorded(j: Joint, p: Payload)
    requires Inv(j) && (j.last.None? || p != j.last.value.aad.successorPayload)
    ensures Recorded(p) !in j.log && Finished(p) !in j.log
  {
  }

  /** Two successors of one predecessor are both activated only if one of them was aborted on expiry, unseen. */
  lemma TwoSuccessorsOnlyIfOneUnseen(start: Joint, events: seq<Event>, j: Joint, b: Sealed, c: Sealed)
    requires Reached(start, events, j)
    requires Activated(b) in j.log && Activated(c) in j.log && b.aad.successorPayload != c.aad.successorPayload
    ensures Unseen(j.log, b.aad.successorPayload) || Unseen(j.log, c.aad.successorPayload)
    ensures start.skew <= ABORT_GRACE_MS ==> AppliedUnseen(j.log, b) || AppliedUnseen(j.log, c)
  {
    if j.last.Some? && b.aad.successorPayload == j.last.value.aad.successorPayload {
      EarlierSuccessorWasUnseen(start, events, j, c);
    } else {
      EarlierSuccessorWasUnseen(start, events, j, b);
    }
  }

  /** With aborts on declines only, at most one certificate, for one candidate, is ever activated, whatever the
      clocks say. */
  lemma DeclinesAloneAllowOneSuccessor(start: Joint, events: seq<Event>, j: Joint, b: Sealed, c: Sealed)
    requires Reached(start, events, j)
    requires forall h :: h in j.log ==> !h.AbortedOnExpiry?
    requires Activated(b) in j.log && Activated(c) in j.log
    ensures b.aad.successorPayload == c.aad.successorPayload && b.sealedTo == c.sealedTo
  {
    if b.aad.successorPayload != c.aad.successorPayload {
      TwoSuccessorsOnlyIfOneUnseen(start, events, j, b, c);
    }
    ReachedKeepsInv(start, events, j);
    assert HappeningOk(j, Activated(b)) && HappeningOk(j, Activated(c));
    assert BundleOk(j, b) && BundleOk(j, c);
  }

  // ---------------------------------------------------------------------
  // Aborting
  // ---------------------------------------------------------------------

  /** The predecessor is active again, with nothing pending and nothing to reopen; only the abort was added. */
  predicate BackToActive(before: Joint, after: Joint, p: Payload) {
    && after.pred.status == Active && after.pred.pending.None? && after.pred.expired.None?
    && after.pred.tenants == before.pred.tenants && after.pred.lineage == before.pred.lineage
    && after.log == before.log + [AbortedOnDecline(p)] && after.cands == before.cands
  }

  /** Every decline the candidate of the pending activation has signed for its nonce aborts it, as long as its proof
      was not recorded. */
  lemma GenuineDeclineAborts(start: Joint, events: seq<Event>, j: Joint, decline: Envelope, now: Time)
    requires Reached(start, events, j) && NotAhead(j, now)
    requires j.pred.pending.Some? && j.pred.pending.value.activationProof.None?
    requires decline in j.signed && decline.payload.Decline?
    requires decline.payload.activationNonce == j.pred.pending.value.activationNonce
    requires decline.signature.signer == j.pred.pending.value.candidatePublicKeyPem
    ensures BackToActive(j, Step(j, AbortPending(ByDecline(decline), now)), j.pred.pending.value.successorPayload)
  {
    ReachedKeepsInv(start, events, j);
    DeclineIsItsCandidates(j, decline);
    DeclineAborts(j, decline, now);
  }

  lemma DeclineAborts(j: Joint, decline: Envelope, now: Time)
    requires Holder(j.key, j.pred) && NotAhead(j, now) && decline in j.signed && j.pred.pending.Some?
    requires j.pred.pending.value.activationProof.None? && DeclineOf(decline, j.pred.pending.value)
    ensures BackToActive(j, Step(j, AbortPending(ByDecline(decline), now)), j.pred.pending.value.successorPayload)
  {
    AbortSucceedsExactly(j.key, j.pred, ByDecline(decline), now);
    AbortEffect(j.key, j.pred, ByDecline(decline), now);
  }

  lemma DeclineIsItsCandidates(j: Joint, decline: Envelope)
    requires Inv(j) && j.pred.pending.Some? && decline in j.signed && decline.payload.Decline?
    requires decline.payload.activationNonce == j.pred.pending.value.activationNonce
    requires decline.signature.signer == j.pred.pending.value.candidatePublicKeyPem
    ensures DeclineOf(decline, j.pred.pending.value)
  {
    assert SignedTruly(j, decline) && BundleOk(j, j.last.value);
    var pending := j.pred.pending.value;
    VerifiesExactlyIfSigned(decline, pending.candidatePublicKeyPem);
    assert decline == Sign(Decline(pending.activationNonce, pending.candidateImageDigest,
                                   KeyIdOf(pending.candidatePublicKeyPem), decline.payload.declinedAt),
                           pending.candidatePublicKeyPem);
  }

  lemma StepKeepsSigned(j: Joint, e: Event)
    ensures j.signed <= Step(j, e).signed
  {
  }

  lemma {:induction false} RunKeepsSigned(start: Joint, events: seq<Event>, more: seq<Event>)
    ensures Run(start, events).signed <= Run(start, events + more).signed
  {
    if |more| == 0 {
      assert events + more == events;
    } else {
      var earlier := events + more[..|more| - 1];
      assert (events + more)[..|events + more| - 1] == earlier;
      RunKeepsSigned(start, events, more[..|more| - 1]);
      StepKeepsSigned(Run(start, earlier), more[|more| - 1]);
    }
  }

  /** What a candidate that still waits signs when it declines. */
  lemma DeclineIsSigned(j: Joint, candidate: Pem, nonce: Nonce, t: Time)
    requires CandidatesOk(j) && candidate in j.cands && j.cands[candidate].gov.status == Inactive
    ensures var after := Step(j, DeclineNonce(candidate, nonce, t));
            && Sign(Decline(nonce, j.cands[candidate].imageDigest, KeyIdOf(candidate), t), candidate) in after.signed
            && nonce in after.cands[candidate].declined && after.pred == j.pred
  {
  }

  /** A candidate that waits can always make the predecessor active again. Whatever happens after it has declined the
      pending activation, its decline aborts it, unless an abort or a recorded proof came first. */
  lemma DeclinedActivationAborts(start: Joint, events: seq<Event>, j: Joint, t: Time, more: seq<Event>, k: Joint,
                                 now: Time)
    requires Reached(start, events, j) && j.pred.pending.Some?
    requires var pending := j.pred.pending.value;
             var decline := DeclineNonce(pending.candidatePublicKeyPem, pending.activationNonce, t);
             && pending.candidatePublicKeyPem in j.cands
             && j.cands[pending.candidatePublicKeyPem].gov.status == Inactive
             && k == Run(start, events + [decline] + more) && NotAhead(k, now)
             && k.pred.pending.Some? && k.pred.pending.value.activationProof.None?
             && k.pred.pending.value.successorPayload == pending.successorPayload
    ensures var pending := j.pred.pending.value;
            var decline := Sign(Decline(pending.activationNonce, pending.candidateImageDigest,
                                        KeyIdOf(pending.candidatePublicKeyPem), t), pending.candidatePublicKeyPem);
            BackToActive(k, Step(k, AbortPending(ByDecline(decline), now)), pending.successorPayload)
  {
    var pending := j.pred.pending.value;
    var declined := events + [DeclineNonce(pending.candidatePublicKeyPem, pending.activationNonce, t)];
    ReachedKeepsInv(start, events, j);
    ReachedKeepsInv(start, declined + more, k);
    assert declined[..|declined| - 1] == events;
    assert BundleOk(j, j.last.value);
    SamePayloadSameCandidate(j, k);
    DeclineIsSigned(j, pending.candidatePublicKeyPem, pending.activationNonce, t);
    RunKeepsSigned(start, declined, more);
    GenuineDeclineAborts(start, declined + more, k,
                         Sign(Decline(pending.activationNonce, pending.candidateImageDigest,
                                      KeyIdOf(pending.candidatePublicKeyPem), t), pending.candidatePublicKeyPem), now);
  }

  lemma SamePayloadSameCandidate(j: Joint, k: Joint)
    requires Holder(j.key, j.pred) && Holder(k.key, k.pred) && j.pred.pending.Some? && k.pred.pending.Some?
    requires k.pred.pending.value.successorPayload == j.pred.pending.value.successorPayload
    ensures k.pred.pending.value.candidatePublicKeyPem == j.pred.pending.value.candidatePublicKeyPem
    ensures k.pred.pending.value.activationNonce == j.pred.pending.value.activationNonce
    ensures k.pred.pending.value.candidateImageDigest == j.pred.pending.value.candidateImageDigest
  {
  }

  // ---------------------------------------------------------------------
  // Finalizing
  // ---------------------------------------------------------------------

  /** A predecessor records a proof, and retires, only for a successor that did become active, that keeps the
      proof, and that holds the lineage extended by its own certificate. */
  lemma RetiresOnlyForActiveSuccessor(start: Joint, events: seq<Event>, j: Joint)
    requires Reached(start, events, j) && ProofRecorded(j.pred)
    ensures j.last.Some? && ProofHeld(j, j.last.value.aad.successorPayload)
    ensures var p := j.last.value.aad.successorPayload;
            && Recorded(p) in j.log
            && j.cands[Named(p)].gov.status != Inactive
            && Holder(Named(p), j.cands[Named(p)].gov)
            && j.cands[Named(p)].gov.lineage == j.pred.lineage + [Sign(p, j.key)]
  {
    ReachedKeepsInv(start, events, j);
    var p := j.last.value.aad.successorPayload;
    assert HappeningOk(j, Recorded(p));
  }

  /** Once retired, the predecessor serves one retirement: of its own key at its own epoch, in favour of the key and
      epoch of the successor certified last, under its own signature. */
  lemma RetirementNamesSuccessor(start: Joint, events: seq<Event>, j: Joint)
    requires Reached(start, events, j) && j.pred.status == Retired
    ensures j.last.Some? && j.last.value.aad.successorPayload.Successor?
    ensures var p := j.last.value.aad.successorPayload;
            && Finished(p) in j.log && j.pred.latestRetirementCertificate.Some?
            && var certificate := j.pred.latestRetirementCertificate.value;
               && certificate == Sign(certificate.payload, j.key) && certificate.payload.Retirement?
               && certificate.payload.retiredGovernanceKeyId == KeyIdOf(j.key)
               && certificate.payload.retiredEpoch == |j.pred.lineage|
               && certificate.payload.successorGovernanceKeyId == KeyIdOf(Named(p))
               && certificate.payload.successorEpoch == |j.pred.lineage| + 1
               && certificate.payload.successorPayload == p
  {
    ReachedKeepsInv(start, events, j);
    var p := j.last.value.aad.successorPayload;
    assert HappeningOk(j, Finished(p)) && BundleOk(j, j.last.value);
  }

  /** Late finalize is complete: with clocks within a minute of each other, the proof a successor keeps passes
      every finalize check at any later time, after expiry and after an expiry abort, while its certificate
      is the last one issued and the predecessor has not retired; the commits that follow retire it. */
  lemma LateFinalizeSucceeds(start: Joint, events: seq<Event>, j: Joint, b: Sealed, now: Time)
    requires Reached(start, events, j) && start.skew <= PROVED_AT_SKEW_MS
    requires Activated(b) in j.log && j.pred.status != Retired
    requires j.last.Some? && b.aad.successorPayload == j.last.value.aad.successorPayload
    ensures ProofHeld(j, b.aad.successorPayload)
    ensures var proof := j.cands[Named(b.aad.successorPayload)].gov.latestActivationProof.value;
            && FinalizeCheck(j.pred, proof).Ok?
            && var changes := FinalizeChanges(j.pred, FinalizeCheck(j.pred, proof).value, proof, now);
               Replay(j.key, j.pred, changes).status == Retired
  {
    ReachedKeepsInv(start, events, j);
    var p := b.aad.successorPayload;
    assert HappeningOk(j, Activated(b));
    NotDeclined(j, p);
    var proof := j.cands[Named(p)].gov.latestActivationProof.value;
    var pending := Finalizable(j.pred).value;
    assert CertifiedHere(j.key, j.pred.epoch, pending) && pending.successorPayload == p;
    ValidExtension(j.pred.lineage, pending.certificate);
    FinalizeCommitsRetire(j.key, j.pred, proof, now);
  }

  // ---------------------------------------------------------------------
  // Tenants
  // ---------------------------------------------------------------------

  /** Predecessor and successor both always hold at least the tenants the successor was activated with, under the
      same keys and at no lower minimum; unless the certificate was aborted on expiry, the predecessor holds
      exactly those, and so the successor holds everything the predecessor does. */
  lemma HandoffConservesTenants(start: Joint, events: seq<Event>, j: Joint, b: Sealed)
    requires Reached(start, events, j) && Activated(b) in j.log
    ensures b.aad.successorPayload.Successor? && Named(b.aad.successorPayload) in j.cands
    ensures var successor := j.cands[Named(b.aad.successorPayload)].gov;
            && PolicyExtends(b.tenants, j.pred.tenants) && PolicyExtends(b.tenants, successor.tenants)
            && (b !in j.outdated || AbortedOnExpiry(b.aad.successorPayload) !in j.log ==>
                  b.tenants == j.pred.tenants && PolicyExtends(j.pred.tenants, successor.tenants))
  {
    ReachedKeepsInv(start, events, j);
    assert HappeningOk(j, Activated(b)) && BundleOk(j, b);
    NotDeclined(j, b.aad.successorPayload);
  }

  /** An apply that is logged starts the named candidate with exactly the bundle's tenants: those the predecessor
      still has, unless its certificate was aborted on expiry. */
  lemma SuccessorStartsWithTenants(start: Joint, events: seq<Event>, j: Joint, candidate: Pem, certificate: Envelope,
                                   b: Sealed, nonce: Nonce, now: Time)
    requires Reached(start, events, j)
    requires Step(j, ApplyBundle(candidate, certificate, b, nonce, now)).log != j.log
    ensures var after := Step(j, ApplyBundle(candidate, certificate, b, nonce, now));
            && after.log == j.log + [Activated(b)]
            && b.aad.successorPayload.Successor? && candidate == Named(b.aad.successorPayload)
            && candidate in after.cands && after.cands[candidate].gov.tenants == b.tenants
            && (Calm(j) || b !in j.outdated ==> b.tenants == after.pred.tenants)
  {
    ReachedKeepsInv(start, events, j);
    AppliedStartsWithTenants(j, candidate, certificate, b, nonce, now);
  }

  lemma AppliedStartsWithTenants(j: Joint, candidate: Pem, certificate: Envelope, b: Sealed, nonce: Nonce, now: Time)
    requires Inv(j) && Step(j, ApplyBundle(candidate, certificate, b, nonce, now)).log != j.log
    ensures var after := Step(j, ApplyBundle(candidate, certificate, b, nonce, now));
            && after.log == j.log + [Activated(b)]
            && b.aad.successorPayload.Successor? && candidate == Named(b.aad.successorPayload)
            && candidate in after.cands && after.cands[candidate].gov.tenants == b.tenants
            && (Calm(j) || b !in j.outdated ==> b.tenants == after.pred.tenants)
  {
    WhatApplyMeans(j, candidate, certificate, b, nonce, now);
  }

  /** An active successor goes on as any key holder: whatever it may commit takes effect, and its certificate, its
      proof and what it has declined stay. */
  lemma SuccessorGoesOn(start: Joint, events: seq<Event>, j: Joint, candidate: Pem, change: Change)
    requires Reached(start, events, j) && candidate in j.cands && j.cands[candidate].gov.status != Inactive
    ensures candidate in Step(j, SuccessorChange(candidate, change)).cands
    ensures var c, after := j.cands[candidate], Step(j, SuccessorChange(candidate, change)).cands[candidate];
            && after.gov == (match Mutate(candidate, c.gov, change) case Ok(g) => g case Err(_) => c.gov)
            && Holder(candidate, after.gov) && after.gov.latestActivationProof == c.gov.latestActivationProof
            && after.gov.lineage == c.gov.lineage && after.declined == c.declined
  {
    ReachedKeepsInv(start, events, j);
    SuccessorCommits(j, candidate, change);
  }

  lemma SuccessorCommits(j: Joint, candidate: Pem, change: Change)
    requires candidate in j.cands && j.cands[candidate].gov.status != Inactive && j.cands[candidate].key == candidate
    requires Holder(candidate, j.cands[candidate].gov)
    ensures candidate in Step(j, SuccessorChange(candidate, change)).cands
    ensures var c, after := j.cands[candidate], Step(j, SuccessorChange(candidate, change)).cands[candidate];
            && after.gov == (match Mutate(candidate, c.gov, change) case Ok(g) => g case Err(_) => c.gov)
            && Holder(candidate, after.gov) && after.gov.latestActivationProof == c.gov.latestActivationProof
            && after.gov.lineage == c.gov.lineage && after.declined == c.declined
  {
    var c := j.cands[candidate];
    if Mutate(candidate, c.gov, change).Ok? {
      MutateKeepsHolder(candidate, c.gov, change);
    }
  }

  /** No abort was logged since. */
  predicate NoAbortSince(before: seq<Happening>, log: seq<Happening>) {
    forall i :: |before| <= i < |log| ==> !log[i].AbortedOnDecline? && !log[i].AbortedOnExpiry?
  }

  /** Either an abort was logged, or the predecessor is as little active as before, with the tenants it had. */
  predicate Frozen(j: Joint, after: Joint) {
    NoAbortSince(j.log, after.log) ==> after.pred.status != Active && after.pred.tenants == j.pred.tenants
  }

  lemma HousekeepingKeepsFrozen(j: Joint, change: Change)
    requires j.pred.status != Active
    ensures Frozen(j, Step(j, Housekeeping(change)))
  {
  }

  lemma AbortKeepsFrozen(j: Joint, request: AbortRequest, now: Time)
    requires j.pred.status != Active
    ensures Frozen(j, Step(j, AbortPending(request, now)))
  {
    var after := Step(j, AbortPending(request, now));
    if after != j {
      assert after.log[|j.log|].AbortedOnDecline? || after.log[|j.log|].AbortedOnExpiry?;
    }
  }

  lemma FinalizeKeepsFrozen(j: Joint, proof: Envelope, now: Time)
    requires Holder(j.key, j.pred) && j.pred.status != Active
    ensures Frozen(j, Step(j, RecordSuccessorProof(proof))) && Frozen(j, Step(j, RetirePredecessor(proof, now)))
  {
  }

  lemma OthersLeavePredecessor(j: Joint, e: Event)
    requires e.Tick? || e.IssueReadiness? || e.DeclineNonce? || e.ApplyBundle? || e.SuccessorChange?
    ensures Step(j, e).pred == j.pred
  {
  }

  lemma CertifyKeepsFrozen(j: Joint, candidate: Pem, nonce: Nonce, now: Time)
    requires j.pred.status != Active
    ensures Step(j, CertifyCandidate(candidate, nonce, now)) == j
  {
  }

  lemma StepKeepsFrozen(j: Joint, e: Event)
    requires Holder(j.key, j.pred) && j.pred.status != Active
    ensures Frozen(j, Step(j, e))
  {
    match e
    case Housekeeping(change) => HousekeepingKeepsFrozen(j, change);
    case AbortPending(request, now) => AbortKeepsFrozen(j, request, now);
    case RecordSuccessorProof(proof) => FinalizeKeepsFrozen(j, proof, 0);
    case RetirePredecessor(proof, now) => FinalizeKeepsFrozen(j, proof, now);
    case CertifyCandidate(candidate, nonce, now) => CertifyKeepsFrozen(j, candidate, nonce, now);
    case _ => OthersLeavePredecessor(j, e);
  }

  /** From certification on, whatever happens, until the next abort or for good, the predecessor admits nobody:
      its tenants stay as they were. */
  lemma {:induction false} NoAdmissionWhileActivating(start: Joint, events: seq<Event>, j: Joint, more: seq<Event>)
    requires Reached(start, events, j) && j.pred.status != Active
    ensures j.log <= Run(j, more).log && Inv(Run(j, more)) && Frozen(j, Run(j, more))
  {
    if |more| == 0 {
      ReachedKeepsInv(start, events, j);
    } else {
      var before, e := Run(j, more[..|more| - 1]), more[|more| - 1];
      NoAdmissionWhileActivating(start, events, j, more[..|more| - 1]);
      StepKeepsInv(before, e);
      FrozenOnwards(j, before, e);
    }
  }

  lemma FrozenOnwards(j: Joint, before: Joint, e: Event)
    requires Inv(before) && j.log <= before.log && Frozen(j, before)
    ensures j.log <= Step(before, e).log && Frozen(j, Step(before, e))
  {
    var after := Step(before, e);
    StepKeepsLog(before, e);
    if NoAbortSince(j.log, after.log) {
      NoAbortBetween(j.log, before.log, after.log);
      StepKeepsFrozen(before, e);
    }
  }

  lemma NoAbortBetween(first: seq<Happening>, middle: seq<Happening>, last: seq<Happening>)
    requires first <= middle <= last && NoAbortSince(first, last)
    ensures NoAbortSince(first, middle) && NoAbortSince(middle, last)
  {
    assert forall i :: 0 <= i < |middle| ==> middle[i] == last[i];
  }

  lemma StepKeepsLog(j: Joint, e: Event)
    ensures j.log <= Step(j, e).log
  {
  }

  // ---------------------------------------------------------------------
  // Tenants admitted after an expiry abort
  // ---------------------------------------------------------------------

  lemma {:induction false} RunKeepsLog(start: Joint, events: seq<Event>, more: seq<Event>)
    ensures Run(start, events).log <= Run(start, events + more).log
  {
    if |more| == 0 {
      assert events + more == events;
    } else {
      var earlier := events + more[..|more| - 1];
      assert (events + more)[..|events + more| - 1] == earlier;
      RunKeepsLog(start, events, more[..|more| - 1]);
      StepKeepsLog(Run(start, earlier), more[|more| - 1]);
    }
  }

  lemma ActivatedBeforeAbort(early: seq<Happening>, log: seq<Happening>, b: Sealed)
    requires NoneAfterExpiry(log) && early <= log
    requires Activated(b) in log && AbortedOnExpiry(b.aad.successorPayload) in early
    ensures Activated(b) in early
  {
    var i :| 0 <= i < |log| && log[i] == Activated(b);
    var k :| 0 <= k < |early| && early[k] == AbortedOnExpiry(b.aad.successorPayload);
    assert log[k] == early[k];
    assert early[i] == Activated(b);
  }

  /** In every run, a tenant first admitted after the abort on expiry of a certificate is missing from the
      successor that certificate activated, also when its finalize is reopened later. */
  lemma LateAdmissionIsLost(start: Joint, events: seq<Event>, more: seq<Event>, b: Sealed, tenant: string)
    requires Initial(start) && Calm(Run(start, events + more))
    requires AbortedOnExpiry(b.aad.successorPayload) in Run(start, events).log
    requires tenant !in Run(start, events).pred.tenants && Activated(b) in Run(start, events + more).log
    ensures tenant !in b.tenants
  {
    var mid, end := Run(start, events), Run(start, events + more);
    ReachedKeepsInv(start, events + more, end);
    ReachedKeepsInv(start, events, mid);
    RunKeepsLog(start, events, more);
    ActivatedBeforeAbort(mid.log, end.log, b);
    assert HappeningOk(mid, Activated(b)) && BundleOk(mid, b);
  }
}
