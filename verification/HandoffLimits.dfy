/** The clock bounds of the handoff theorems cannot be widened, and the one admission a
    handoff can lose. Each run is built from any initial world with a candidate in it. */
module HandoffLimits {
  import opened Prelude
  import opened Lineage
  import opened Governance
  import opened GovernanceHistory
  import opened Candidate
  import opened Handoff
  import opened HandoffSafety
  import opened HandoffTheorems

  lemma Then(start: Joint, events: seq<Event>, now: Joint, e: Event) returns (longer: seq<Event>, next: Joint)
    requires now == Run(start, events)
    ensures longer == events + [e] && next == Step(now, e) && next == Run(start, longer)
  {
    longer, next := events + [e], Step(now, e);
    assert longer[..|longer| - 1] == events;
  }

  function OfferOf(c: Candidate, nonce: Nonce): Offer {
    Offer(c.key, c.activationKey, c.imageDigest, nonce)
  }

  /** The candidate shows readiness and is certified at the predecessor's reading `certifiedAt`. */
  lemma CertifiedRun(start: Joint, candidate: Pem, nonce: Nonce, certifiedAt: Time)
    returns (events: seq<Event>, j: Joint, pending: Pending)
    requires Initial(start) && candidate in start.cands && Reads(start, certifiedAt)
    ensures j == Run(start, events)
    ensures pending == PendingFor(start.key, start.pred.epoch, OfferOf(start.cands[candidate], nonce), certifiedAt)
    ensures j.clock == start.clock && j.skew == start.skew && j.key == start.key
    ensures j.pred == start.pred.(status := ActivatingSuccessor, pending := Some(pending),
                                  latestSuccessorCertificate := Some(pending.certificate))
    ensures candidate in j.cands && j.cands[candidate] == start.cands[candidate].(readiness := [nonce])
    ensures j.sealed == {SealFor(start.key, start.pred, pending)} && j.signed == {}
    ensures j.log == [Certified(pending.successorPayload)]
  {
    var c := start.cands[candidate];
    pending := PendingFor(start.key, start.pred.epoch, OfferOf(c, nonce), certifiedAt);
    events, j := Then(start, [], start, IssueReadiness(candidate, nonce));
    assert [] + [nonce] == [nonce];
    events, j := Then(start, events, j, CertifyCandidate(candidate, nonce, certifiedAt));
    assert [] + [Certified(pending.successorPayload)] == [Certified(pending.successorPayload)];
  }

  /** A fresh, ready candidate can apply its own bundle while the certificate is fresh. */
  lemma FreshBundleApplies(key: Pem, g: Gov, c: Candidate, nonce: Nonce, certifiedAt: Time, now: Time)
    requires Holder(key, g) && c.gov == FRESH && nonce in c.readiness && nonce !in c.declined
    requires now < certifiedAt + CERTIFICATE_TTL_MS
    ensures var pending := PendingFor(key, g.epoch, OfferOf(c, nonce), certifiedAt);
            ApplyCheck(c, pending.certificate, SealFor(key, g, pending), nonce, now).Ok?
  {
    var pending := PendingFor(key, g.epoch, OfferOf(c, nonce), certifiedAt);
    ValidExtension(g.lineage, pending.certificate);
  }

  /** With clocks more than the abort grace apart, an expired certificate can be applied after its abort. */
  lemma WiderSkewAppliesAfterAbort(start: Joint, candidate: Pem, nonce: Nonce) returns (events: seq<Event>, j: Joint)
    requires Initial(start) && candidate in start.cands && start.skew > ABORT_GRACE_MS
    ensures j == Run(start, events) && !NoneAfterExpiry(j.log)
  {
    var pending, late;
    events, j, pending, late := AbortedTooSoon(start, candidate, nonce);
    var bundle := SealFor(start.key, start.pred, pending);
    FreshBundleApplies(start.key, start.pred, j.cands[candidate], nonce, start.clock, late);
    events, j := Then(start, events, j, ApplyBundle(candidate, pending.certificate, bundle, nonce, late));
    assert j.log[1] == AbortedOnExpiry(j.log[2].bundle.aad.successorPayload);
  }

  /** The predecessor's clock runs ahead by more than the abort grace: it aborts before the candidate's reading
      `late` reaches the certificate's expiry. */
  lemma AbortedTooSoon(start: Joint, candidate: Pem, nonce: Nonce)
    returns (events: seq<Event>, j: Joint, pending: Pending, late: Time)
    requires Initial(start) && candidate in start.cands && start.skew > ABORT_GRACE_MS
    ensures j == Run(start, events) && Reads(j, late) && late < start.clock + CERTIFICATE_TTL_MS
    ensures pending == PendingFor(start.key, start.pred.epoch, OfferOf(start.cands[candidate], nonce), start.clock)
    ensures candidate in j.cands && j.cands[candidate] == start.cands[candidate].(readiness := [nonce])
    ensures SealFor(start.key, start.pred, pending) in j.sealed
    ensures j.log == [Certified(pending.successorPayload), AbortedOnExpiry(pending.successorPayload)]
  {
    var abortable := start.clock + CERTIFICATE_TTL_MS + ABORT_GRACE_MS;
    late := Max(start.clock, abortable - start.skew);
    events, j, pending := CertifiedRun(start, candidate, nonce, start.clock);
    events, j := Then(start, events, j, Tick(late));
    events, j := Then(start, events, j, AbortPending(ByExpiry(nonce), abortable));
  }

  /** With clocks more than a minute apart, the proof of a successful apply can fail the finalize checks for good. */
  lemma WiderSkewRefusesProof(start: Joint, candidate: Pem, nonce: Nonce) returns (events: seq<Event>, j: Joint)
    requires Initial(start) && candidate in start.cands && start.skew > PROVED_AT_SKEW_MS
    ensures j == Run(start, events) && candidate in j.cands && j.cands[candidate].gov.status == Active
    ensures j.cands[candidate].gov.latestActivationProof.Some?
    ensures FinalizeCheck(j.pred, j.cands[candidate].gov.latestActivationProof.value) == Err(ProofOutOfTime)
  {
    var pending;
    events, j, pending := CertifiedRun(start, candidate, nonce, start.clock + start.skew);
    var bundle := SealFor(start.key, start.pred, pending);
    FreshBundleApplies(start.key, start.pred, j.cands[candidate], nonce, start.clock + start.skew, start.clock);
    events, j := Then(start, events, j, ApplyBundle(candidate, pending.certificate, bundle, nonce, start.clock));
  }

  /** The candidate applies in time. */
  lemma AppliedRun(start: Joint, candidate: Pem, nonce: Nonce)
    returns (events: seq<Event>, j: Joint, pending: Pending, proof: Envelope)
    requires Initial(start) && candidate in start.cands
    ensures j == Run(start, events) && j.key == start.key && j.clock == start.clock
    ensures pending == PendingFor(start.key, start.pred.epoch, OfferOf(start.cands[candidate], nonce), start.clock)
    ensures j.pred == start.pred.(status := ActivatingSuccessor, pending := Some(pending),
                                  latestSuccessorCertificate := Some(pending.certificate))
    ensures Holder(j.key, j.pred) && Activated(SealFor(start.key, start.pred, pending)) in j.log
    ensures proof in j.signed
    ensures var b := SealFor(start.key, start.pred, pending);
            proof == Sign(ProofPayload(start.cands[candidate], b, nonce, start.clock), candidate)
  {
    events, j, pending := CertifiedRun(start, candidate, nonce, start.clock);
    var b := SealFor(start.key, start.pred, pending);
    FreshBundleApplies(start.key, start.pred, j.cands[candidate], nonce, start.clock, start.clock);
    proof := Sign(ProofPayload(j.cands[candidate], b, nonce, start.clock), candidate);
    MutateKeepsHolder(start.key, start.pred, Certify(OfferOf(start.cands[candidate], nonce), start.clock));
    events, j := Then(start, events, j, ApplyBundle(candidate, pending.certificate, b, nonce, start.clock));
    assert j.log[1] == Activated(b);
  }

  /** And nobody tells the predecessor, which aborts on expiry. */
  lemma UnseenRun(start: Joint, candidate: Pem, nonce: Nonce)
    returns (events: seq<Event>, j: Joint, pending: Pending, proof: Envelope)
    requires Initial(start) && candidate in start.cands
    ensures j == Run(start, events) && j.key == start.key
    ensures pending == PendingFor(start.key, start.pred.epoch, OfferOf(start.cands[candidate], nonce), start.clock)
    ensures Reads(j, start.clock + CERTIFICATE_TTL_MS + ABORT_GRACE_MS)
    ensures Holder(j.key, j.pred) && j.pred.status == Active && j.pred.expired == Some(pending)
    ensures j.pred.lineage == start.pred.lineage && j.pred.epoch == start.pred.epoch
    ensures j.pred.tenants == start.pred.tenants
    ensures Activated(SealFor(start.key, start.pred, pending)) in j.log
    ensures proof in j.signed
    ensures var b := SealFor(start.key, start.pred, pending);
            proof == Sign(ProofPayload(start.cands[candidate], b, nonce, start.clock), candidate)
  {
    var abortable := start.clock + CERTIFICATE_TTL_MS + ABORT_GRACE_MS;
    events, j, pending, proof := AppliedRun(start, candidate, nonce);
    events, j := Then(start, events, j, Tick(abortable));
    MutateKeepsHolder(start.key, j.pred, Abort(ByExpiry(nonce), abortable));
    events, j := Then(start, events, j, AbortPending(ByExpiry(nonce), abortable));
  }

  /** A tenant admitted between an expiry abort and the finalize that reopens it is missing from the successor. */
  lemma AdmissionAfterExpiryAbortIsLost(start: Joint, candidate: Pem, nonce: Nonce, admission: Envelope)
    returns (events: seq<Event>, j: Joint, b: Sealed)
    requires Initial(start) && candidate in start.cands
    requires admission.payload.Admission? && admission.payload.governanceLineage == start.pred.lineage
    requires admission.payload.tenant !in start.pred.tenants
    ensures j == Run(start, events) && j.pred.status == Retired
    ensures Activated(b) in j.log && Finished(b.aad.successorPayload) in j.log
    ensures admission.payload.tenant in j.pred.tenants && admission.payload.tenant !in b.tenants
  {
    var pending, proof;
    events, j, pending, proof := UnseenRun(start, candidate, nonce);
    b := SealFor(start.key, start.pred, pending);
    MutateKeepsHolder(j.key, j.pred, Admit(admission));
    events, j := Then(start, events, j, Housekeeping(Admit(admission)));
    UnseenProofPasses(start, j.pred, candidate, nonce);
    ReopensAndRetires(j, pending, proof, b, start.clock + CERTIFICATE_TTL_MS + ABORT_GRACE_MS);
    events, j := Then(start, events, j, RecordSuccessorProof(proof));
    events, j := Then(start, events, j, RetirePredecessor(proof, start.clock + CERTIFICATE_TTL_MS + ABORT_GRACE_MS));
  }

  lemma UnseenProofPasses(start: Joint, g: Gov, candidate: Pem, nonce: Nonce)
    requires Initial(start) && candidate in start.cands
    requires var c := start.cands[candidate];
             var pending := PendingFor(start.key, start.pred.epoch, OfferOf(c, nonce), start.clock);
             g.status == Active && g.expired == Some(pending)
    requires g.lineage == start.pred.lineage && g.epoch == start.pred.epoch
    ensures var pending := PendingFor(start.key, start.pred.epoch, OfferOf(start.cands[candidate], nonce), start.clock);
            FinalizeCheck(g, Sign(ProofPayload(start.cands[candidate], SealFor(start.key, start.pred, pending), nonce,
                                               start.clock), candidate)) == Ok(pending)
  {
    ValidExtension(g.lineage, g.expired.value.certificate);
  }

  /** A genuine proof of an activation that was aborted on expiry reopens it and retires the predecessor. */
  lemma ReopensAndRetires(j: Joint, pending: Pending, proof: Envelope, b: Sealed, now: Time)
    requires Holder(j.key, j.pred) && j.pred.status == Active && j.pred.expired == Some(pending) && proof in j.signed
    requires Activated(b) in j.log && b.aad.successorPayload == pending.successorPayload
    requires FinalizeCheck(j.pred, proof) == Ok(pending)
    ensures var done := Step(Step(j, RecordSuccessorProof(proof)), RetirePredecessor(proof, now));
            && done.pred.status == Retired && done.pred.tenants == j.pred.tenants
            && Activated(b) in done.log && Finished(pending.successorPayload) in done.log
  {
    FinalizeRecordsProof(j.key, j.pred, proof, 0);
  }

  // ---------------------------------------------------------------------
  // Nothing authenticates the sender of a bundle
  // ---------------------------------------------------------------------

  /** A bundle with other tenants and another epoch, sealed by somebody else to the same candidate. */
  function Forged(b: Sealed, tenants: map<string, TenantEntry>, epoch: int): Sealed {
    b.(tenants := tenants, epoch := epoch)
  }

  /** The candidate cannot tell a forged bundle from the predecessor's: it applies the one exactly when it would
      apply the other, and then holds the forged tenants. */
  lemma ForgedTenantsApply(c: Candidate, certificate: Envelope, b: Sealed, tenants: map<string, TenantEntry>,
                           epoch: int,
                           nonce: Nonce, now: Time)
    ensures ApplyCheck(c, certificate, Forged(b, tenants, epoch), nonce, now) ==
              ApplyCheck(c, certificate, b, nonce, now)
    ensures Applied(c, certificate, Forged(b, tenants, epoch), nonce, now).gov.tenants == tenants
    ensures var same := ProofPayload(c, Forged(b, tenants, epoch), nonce, now) == ProofPayload(c, b, nonce, now);
            same <==> epoch == b.epoch
  {
  }

  /** Nor can the predecessor: in any run it accepts the proof of a candidate that applied a forged bundle of its
      last certificate exactly when the forger kept the epoch, and retires for it. So the successor has the
      predecessor's tenants only if the bundle it applied was the predecessor's. */
  lemma ForgedTenantsPass(start: Joint, events: seq<Event>, j: Joint, candidate: Pem, certificate: Envelope, b: Sealed,
                          tenants: map<string, TenantEntry>, epoch: int, nonce: Nonce, now: Time)
    requires Reached(start, events, j) && start.skew <= PROVED_AT_SKEW_MS && Reads(j, now) && j.pred.status != Retired
    requires candidate in j.cands && b in j.sealed && j.last.Some?
    requires b.aad.successorPayload == j.last.value.aad.successorPayload
    requires ApplyCheck(j.cands[candidate], certificate, b, nonce, now).Ok?
    ensures var c := j.cands[candidate];
            var fake := Forged(b, tenants, epoch);
            var proof := Sign(ProofPayload(c, fake, nonce, now), c.key);
            && ApplyCheck(c, certificate, fake, nonce, now).Ok?
            && Applied(c, certificate, fake, nonce, now).gov.tenants == tenants
            && (FinalizeCheck(j.pred, proof).Ok? <==> epoch == b.epoch)
  {
    var c := j.cands[candidate];
    ForgedTenantsApply(c, certificate, b, tenants, epoch, nonce, now);
    GenuineProofPasses(start, events, j, candidate, certificate, b, nonce, now);
    ReachedKeepsInv(start, events, j);
    assert BundleOk(j, b);
  }

  lemma GenuineProofPasses(start: Joint, events: seq<Event>, j: Joint, candidate: Pem, certificate: Envelope, b: Sealed,
                           nonce: Nonce, now: Time)
    requires Reached(start, events, j) && start.skew <= PROVED_AT_SKEW_MS && Reads(j, now) && j.pred.status != Retired
    requires candidate in j.cands && b in j.sealed && j.last.Some?
    requires b.aad.successorPayload == j.last.value.aad.successorPayload
    requires ApplyCheck(j.cands[candidate], certificate, b, nonce, now).Ok?
    ensures var c := j.cands[candidate];
            FinalizeCheck(j.pred, Sign(ProofPayload(c, b, nonce, now), c.key)).Ok?
  {
    var apply := ApplyBundle(candidate, certificate, b, nonce, now);
    var longer, next := Then(start, events, j, apply);
    ReachedKeepsInv(start, events, j);
    WhatApplyMeans(j, candidate, certificate, b, nonce, now);
    ApplyingKeepsProof(j, candidate, certificate, b, nonce, now);
    LateFinalizeSucceeds(start, longer, next, b, now);
  }

  lemma ApplyingKeepsProof(j: Joint, candidate: Pem, certificate: Envelope, b: Sealed, nonce: Nonce, now: Time)
    requires Reads(j, now) && candidate in j.cands && b in j.sealed
    requires ApplyCheck(j.cands[candidate], certificate, b, nonce, now).Ok?
    ensures var next := Step(j, ApplyBundle(candidate, certificate, b, nonce, now));
            && Activated(b) in next.log && next.pred == j.pred && next.last == j.last && candidate in next.cands
            && next.cands[candidate].gov.latestActivationProof ==
                 Some(Sign(ProofPayload(j.cands[candidate], b, nonce, now), j.cands[candidate].key))
  {
    assert Step(j, ApplyBundle(candidate, certificate, b, nonce, now)).log[|j.log|] == Activated(b);
  }
}
