/** The joint invariant of a handoff over predecessor, candidates and clocks. */
module HandoffSafety {
  import opened Prelude
  import opened Lineage
  import opened Governance
  import opened GovernanceHistory
  import opened Candidate
  import opened Handoff

  predicate AbortedIn(log: seq<Happening>, payload: Payload) {
    AbortedOnDecline(payload) in log || AbortedOnExpiry(payload) in log
  }

  /** The key of the candidate a certificate names. */
  function Named(payload: Payload): Pem
    requires payload.Successor?
  {
    payload.successorGovernancePublicKeyPem
  }

  predicate CertifiedByPredecessor(j: Joint, p: Payload) {
    && p.Successor?
    && Named(p) in j.cands
    && p == SuccessorPayload(j.key, j.pred.epoch,
                             Offer(Named(p), j.cands[Named(p)].activationKey, j.cands[Named(p)].imageDigest,
                                   p.candidateAttestationNonce), p.issuedAt)
    && p.issuedAt <= j.clock + j.skew
  }

  /** Every bundle was sealed by this key, at this epoch, for a candidate of this run. */
  predicate BundleOk(j: Joint, b: Sealed) {
    var p := b.aad.successorPayload;
    && CertifiedByPredecessor(j, p)
    && b.sealedTo == p.successorActivationPublicKeyPem
    && b.aad == Aad(p, KeyIdOf(j.key), KeyIdOf(Named(p)), p.candidateImageDigest, p.candidateAttestationNonce)
    && b.lineage == j.pred.lineage + [Sign(p, j.key)]
    && b.epoch == j.pred.epoch + 1
    && PolicyExtends(b.tenants, j.pred.tenants)
  }

  predicate AllBundles(j: Joint, bundles: set<Sealed>) {
    forall b :: b in bundles ==> BundleOk(j, b)
  }

  /** Bundles of certificates other than the last were aborted. */
  predicate EarlierAborted(j: Joint) {
    forall b :: b in j.sealed ==>
      && j.last.Some?
      && (b.aad.successorPayload != j.last.value.aad.successorPayload ==> AbortedIn(j.log, b.aad.successorPayload))
  }

  /** The predecessor has the tenants a bundle was sealed with until an admission, which comes after an abort. */
  predicate TenantsKept(j: Joint) {
    && (forall b :: b in j.outdated ==> AbortedIn(j.log, b.aad.successorPayload))
    && (forall b :: b in j.sealed && b !in j.outdated ==> b.tenants == j.pred.tenants)
  }

  /** What the predecessor is doing is about the certificate it issued last. */
  predicate PredOk(j: Joint) {
    var g := j.pred;
    && Holder(j.key, g)
    && (j.last.None? ==> g.status == Active && g.expired.None? && j.log == [])
    && (j.last.Some? ==>
          var p := j.last.value.aad.successorPayload;
          && j.last.value in j.sealed
          && (g.pending.Some? ==> g.pending.value.successorPayload == p)
          && (g.expired.Some? ==> g.expired.value.successorPayload == p && AbortedOnExpiry(p) in j.log)
          && (g.status == Active && g.expired.None? ==> AbortedOnDecline(p) in j.log)
          && (ProofRecorded(g) ==> Recorded(p) in j.log)
          && (g.status == Retired ==> Finished(p) in j.log))
  }

  predicate HappeningOk(j: Joint, h: Happening) {
    match h
    case Certified(p) => true
    case Activated(b) =>
      && b in j.sealed && ProofHeld(j, b.aad.successorPayload)
      && PolicyExtends(b.tenants, j.cands[Named(b.aad.successorPayload)].gov.tenants)
    case AbortedOnDecline(p) =>
      p.Successor? && Named(p) in j.cands && p.candidateAttestationNonce in j.cands[Named(p)].declined
    case AbortedOnExpiry(p) => p.Successor? && p.expiresAt + ABORT_GRACE_MS <= j.clock + j.skew
    case Recorded(p) =>
      j.last.Some? && p == j.last.value.aad.successorPayload && ProofRecorded(j.pred) && ProofHeld(j, p)
    case Finished(p) =>
      && j.last.Some? && p == j.last.value.aad.successorPayload && j.pred.status == Retired
      && p.Successor? && RetiredFor(j.key, j.pred, p)
  }

  /** The retirement that is served names this key and epoch, and the successor's. */
  predicate RetiredFor(key: Pem, g: Gov, p: Payload)
    requires p.Successor?
  {
    && g.latestRetirementCertificate.Some? && g.latestRetirementCertificate.value.payload.Retirement?
    && g.latestRetirementCertificate.value ==
         RetirementOf(key, g.lineage, p, g.latestRetirementCertificate.value.payload.retiredAt)
  }

  predicate AllHappenings(j: Joint, log: seq<Happening>) {
    forall h :: h in log ==> HappeningOk(j, h)
  }

  predicate CandidatesOk(j: Joint) {
    forall k :: k in j.cands ==>
      && j.cands[k].key == k
      && (if j.cands[k].gov.status == Inactive then j.cands[k].gov == FRESH else Holder(k, j.cands[k].gov))
  }

  /** The candidate a certificate names has become active by it, and keeps its proof. */
  predicate ProofHeld(j: Joint, p: Payload) {
    && CertifiedByPredecessor(j, p)
    && (var c := j.cands[Named(p)];
        && c.gov.status != Inactive
        && p.candidateAttestationNonce !in c.declined
        && c.gov.lineage == j.pred.lineage + [Sign(p, j.key)]
        && c.gov.latestActivationProof.Some?
        && ProvesActivation(j, p, c.gov.latestActivationProof.value))
  }

  predicate ProvesActivation(j: Joint, p: Payload, proof: Envelope)
    requires p.Successor?
  {
    && proof.payload.ActivationProof?
    && proof == Sign(ActivationProof(j.pred.epoch + 1, KeyIdOf(Named(p)), p, p.candidateAttestationNonce,
                                     p.candidateImageDigest, j.pred.lineage + [Sign(p, j.key)],
                                     proof.payload.provedAt), Named(p))
    && p.issuedAt - j.skew <= proof.payload.provedAt < p.expiresAt
  }

  /** What candidates have signed is true. */
  predicate SignedTruly(j: Joint, s: Envelope) {
    && s.signature.signer in j.cands
    && VerifyEnvelope(s, s.signature.signer)
    && (s.payload.Decline? ==>
          && s.payload.activationNonce in j.cands[s.signature.signer].declined
          && s.payload.candidateImageDigest == j.cands[s.signature.signer].imageDigest
          && s.payload.governanceKeyId == KeyIdOf(s.signature.signer))
    && (s.payload.ActivationProof? ==> ProofHeld(j, s.payload.successorPayload))
  }

  predicate AllSigned(j: Joint, signed: set<Envelope>) {
    forall s :: s in signed ==> SignedTruly(j, s)
  }

  /** No activation follows an abort of the same certificate. */
  predicate NoneAfterDecline(log: seq<Happening>) {
    forall i, k :: 0 <= i < k < |log| && log[k].Activated? ==>
      log[i] != AbortedOnDecline(log[k].bundle.aad.successorPayload)
  }

  predicate NoneAfterExpiry(log: seq<Happening>) {
    forall i, k :: 0 <= i < k < |log| && log[k].Activated? ==>
      log[i] != AbortedOnExpiry(log[k].bundle.aad.successorPayload)
  }

  /** Clocks are within the abort grace of each other, or nothing was aborted on expiry. */
  predicate Calm(j: Joint) {
    j.skew <= ABORT_GRACE_MS || forall h :: h in j.log ==> !h.AbortedOnExpiry?
  }

  /** What holds however far clocks are apart, and what holds if they are not too far apart. */
  predicate Inv(j: Joint) {
    && PredOk(j) && CandidatesOk(j) && EarlierAborted(j) && TenantsKept(j) && NoneAfterDecline(j.log)
    && AllBundles(j, j.sealed) && AllHappenings(j, j.log) && AllSigned(j, j.signed)
    && (Calm(j) ==> NoneAfterExpiry(j.log))
  }

  predicate StaysRetired(before: Gov, after: Gov) {
    after.status == Retired && after.latestRetirementCertificate == before.latestRetirementCertificate
  }

  /** `after` keeps everything the facts above depend on. */
  predicate Continues(before: Joint, after: Joint) {
    && before.key == after.key && before.skew == after.skew && before.clock <= after.clock
    && before.pred.lineage == after.pred.lineage && before.pred.epoch == after.pred.epoch
    && PolicyExtends(before.pred.tenants, after.pred.tenants)
    && (ProofRecorded(before.pred) ==> before.last == after.last && ProofRecorded(after.pred))
    && (before.pred.status == Retired ==> StaysRetired(before.pred, after.pred))
    && before.sealed <= after.sealed
    && (forall k :: k in before.cands ==>
          && k in after.cands
          && after.cands[k].activationKey == before.cands[k].activationKey
          && after.cands[k].imageDigest == before.cands[k].imageDigest
          && before.cands[k].declined <= after.cands[k].declined
          && (before.cands[k].gov.status != Inactive ==>
                && after.cands[k].gov.status != Inactive
                && after.cands[k].declined == before.cands[k].declined
                && after.cands[k].gov.lineage == before.cands[k].gov.lineage
                && PolicyExtends(before.cands[k].gov.tenants, after.cands[k].gov.tenants)
                && after.cands[k].gov.latestActivationProof == before.cands[k].gov.latestActivationProof))
  }

  /** What an active successor keeps. */
  predicate LivesOn(c: Candidate, later: Candidate) {
    && later.gov.status != Inactive && later.declined == c.declined && later.gov.lineage == c.gov.lineage
    && PolicyExtends(c.gov.tenants, later.gov.tenants)
    && later.gov.latestActivationProof == c.gov.latestActivationProof
  }

  /** One candidate moves on; the predecessor and the other candidates are as they were. */
  lemma CandidateContinues(before: Joint, after: Joint, c: Candidate, later: Candidate)
    requires c.key in before.cands && before.cands[c.key] == c
    requires after == before.(cands := before.cands[c.key := later], signed := after.signed, log := after.log)
    requires later.activationKey == c.activationKey && later.imageDigest == c.imageDigest
    requires c.declined <= later.declined && (c.gov.status != Inactive ==> LivesOn(c, later))
    ensures Continues(before, after)
  {
  }

  lemma HeldProofsStay(before: Joint, after: Joint)
    requires Continues(before, after)
    ensures forall p :: ProofHeld(before, p) ==> ProofHeld(after, p)
  {
  }

  lemma FactsStay(before: Joint, after: Joint)
    requires Continues(before, after)
    requires AllBundles(before, before.sealed) && AllHappenings(before, before.log) && AllSigned(before, before.signed)
    ensures AllBundles(after, before.sealed) && AllHappenings(after, before.log) && AllSigned(after, before.signed)
  {
    HeldProofsStay(before, after);
    forall h | h in before.log ensures HappeningOk(after, h) {
      assert HappeningOk(before, h);
    }
    forall s | s in before.signed ensures SignedTruly(after, s) {
      assert SignedTruly(before, s);
    }
  }

  /** The log gains a happening that is so, and no activation of an aborted certificate. */
  lemma LogGrows(log: seq<Happening>, after: Joint, h: Happening)
    requires NoneAfterDecline(log) && AllHappenings(after, log) && HappeningOk(after, h) && after.log == log + [h]
    requires h.Activated? ==> AbortedOnDecline(h.bundle.aad.successorPayload) !in log
    ensures NoneAfterDecline(after.log) && AllHappenings(after, after.log)
    ensures NoneAfterExpiry(log) && (h.Activated? ==> AbortedOnExpiry(h.bundle.aad.successorPayload) !in log)
            ==> NoneAfterExpiry(after.log)
  {
  }

  lemma InvInitially(j: Joint)
    requires Initial(j)
    ensures Inv(j)
  {
  }

  lemma TickKeepsInv(j: Joint, to: Time)
    requires Inv(j)
    ensures Inv(Step(j, Tick(to)))
  {
    if j.clock <= to {
      TimePasses(j, j.(clock := to));
    }
  }

  lemma TimePasses(j: Joint, after: Joint)
    requires Inv(j) && after == j.(clock := after.clock) && j.clock <= after.clock
    ensures Inv(after)
  {
    TimeContinues(j, after);
    FactsStay(j, after);
    AbortsStay(j, after);
    PredOkStays(j, after);
    CandidatesAreTheSame(j, after);
  }

  lemma TimeContinues(j: Joint, after: Joint)
    requires after == j.(clock := after.clock) && j.clock <= after.clock
    ensures Continues(j, after)
  {
  }

  lemma CandidatesAreTheSame(j: Joint, after: Joint)
    requires CandidatesOk(j) && after.cands == j.cands
    ensures CandidatesOk(after)
  {
  }

  /** The predecessor moves on, with the same lineage and no fewer tenants; the candidates are as they were. */
  lemma PredecessorContinues(before: Joint, after: Joint)
    requires after == before.(pred := after.pred, log := after.log, outdated := after.outdated)
    requires before.pred.lineage == after.pred.lineage && before.pred.epoch == after.pred.epoch
    requires PolicyExtends(before.pred.tenants, after.pred.tenants)
    requires ProofRecorded(before.pred) ==> ProofRecorded(after.pred)
    requires before.pred.status == Retired ==> StaysRetired(before.pred, after.pred)
    ensures Continues(before, after)
  {
  }

  lemma AbortsStay(before: Joint, after: Joint)
    requires EarlierAborted(before)
    requires after.sealed == before.sealed && after.last == before.last && after.skew == before.skew
    requires before.log <= after.log
    ensures EarlierAborted(after) && (Calm(after) ==> Calm(before))
    ensures TenantsKept(before) && after.outdated == before.outdated && after.pred.tenants == before.pred.tenants
            ==> TenantsKept(after)
  {
    assert forall h :: h in before.log ==> h in after.log;
  }

  /** The predecessor moves on and something other than an activation is logged. */
  lemma PredecessorMoves(j: Joint, after: Joint, h: Happening)
    requires Inv(j) && after == j.(pred := after.pred, log := j.log + [h]) && Continues(j, after)
    requires after.pred.tenants == j.pred.tenants
    requires PredOk(after) && HappeningOk(after, h) && !h.Activated?
    ensures Inv(after)
  {
    FactsStay(j, after);
    LogGrows(j.log, after, h);
    AbortsStay(j, after);
  }

  /** What a preapproval, an admission or a background commit leaves as it was. */
  predicate Housekeeps(before: Gov, after: Gov) {
    && after.status == before.status && after.pending == before.pending && after.expired == before.expired
    && after.lineage == before.lineage && after.epoch == before.epoch
    && after.latestRetirementCertificate == before.latestRetirementCertificate
    && after.latestSuccessorCertificate == before.latestSuccessorCertificate
    && PolicyExtends(before.tenants, after.tenants)
  }

  lemma HousekeepingEffect(key: Pem, g: Gov, change: Change)
    requires change.Preapprove? || change.Admit? || change.Background?
    requires Mutate(key, g, change).Ok?
    ensures Housekeeps(g, Mutate(key, g, change).value)
    ensures if change.Admit? then g.status == Active else Mutate(key, g, change).value.tenants == g.tenants
  {
    MutateExtendsPolicy(key, g, change);
  }

  lemma HousekeptPredOk(j: Joint, g: Gov, outdated: set<Sealed>)
    requires PredOk(j) && Housekeeps(j.pred, g)
    ensures PredOk(j.(pred := g, outdated := outdated))
  {
  }

  /** The predecessor is active only if every certificate it issued was aborted. */
  lemma ActiveAfterAborts(j: Joint)
    requires PredOk(j) && EarlierAborted(j) && j.pred.status == Active
    ensures forall b :: b in j.sealed ==> AbortedIn(j.log, b.aad.successorPayload)
  {
  }

  lemma HousekeptKeepsInv(j: Joint, g: Gov, admits: bool)
    requires Inv(j) && Housekeeps(j.pred, g)
    requires if admits then j.pred.status == Active else g.tenants == j.pred.tenants
    ensures Inv(j.(pred := g, outdated := if admits then j.sealed else j.outdated))
  {
    var after := j.(pred := g, outdated := if admits then j.sealed else j.outdated);
    HousekeptPredOk(j, g, after.outdated);
    if admits {
      ActiveAfterAborts(j);
    }
    PredecessorContinues(j, after);
    FactsStay(j, after);
    AbortsStay(j, after);
  }

  lemma HousekeepingKeepsInv(j: Joint, change: Change)
    requires Inv(j)
    ensures Inv(Step(j, Housekeeping(change)))
  {
    if (change.Preapprove? || change.Admit? || change.Background?) && Mutate(j.key, j.pred, change).Ok? {
      HousekeepingEffect(j.key, j.pred, change);
      HousekeptKeepsInv(j, Mutate(j.key, j.pred, change).value, change.Admit?);
    }
  }

  /** `g` is the predecessor's record once it has certified `c`. */
  predicate Certifies(j: Joint, g: Gov, c: Candidate, nonce: Nonce, now: Time) {
    && NotAhead(j, now) && j.pred.status == Active && c.key in j.cands && j.cands[c.key] == c
    && g.pending == Some(PendingFor(j.key, j.pred.epoch, Offer(c.key, c.activationKey, c.imageDigest, nonce), now))
    && g.pending.value.activationProof.None? && g.status == ActivatingSuccessor && Holder(j.key, g)
    && g.lineage == j.pred.lineage && g.epoch == j.pred.epoch && g.tenants == j.pred.tenants
  }

  lemma CertifyKeepsInv(j: Joint, candidate: Pem, nonce: Nonce, now: Time)
    requires Inv(j)
    ensures Inv(Step(j, CertifyCandidate(candidate, nonce, now)))
  {
    if NotAhead(j, now) && candidate in j.cands && j.pred.status == Active {
      var c := j.cands[candidate];
      var certify := Certify(Offer(c.key, c.activationKey, c.imageDigest, nonce), now);
      var g := Mutate(j.key, j.pred, certify).value;
      MutateKeepsHolder(j.key, j.pred, certify);
      assert c.key == candidate && Certifies(j, g, c, nonce, now);
      assert StepCertify(j, candidate, nonce, now) == Issue(j, g);
      IssueKeepsInv(j, g, c, nonce, now);
    }
  }

  lemma IssuePredOk(j: Joint, g: Gov, c: Candidate, nonce: Nonce, now: Time)
    requires Certifies(j, g, c, nonce, now)
    ensures PredOk(Issue(j, g))
  {
  }

  lemma IssueContinues(j: Joint, g: Gov, c: Candidate, nonce: Nonce, now: Time)
    requires Certifies(j, g, c, nonce, now)
    ensures Continues(j, Issue(j, g))
  {
  }

  lemma IssuedBundleOk(j: Joint, g: Gov, c: Candidate, nonce: Nonce, now: Time)
    requires Certifies(j, g, c, nonce, now)
    ensures BundleOk(Issue(j, g), SealFor(j.key, j.pred, g.pending.value))
  {
  }

  /** Bundles of earlier certificates were aborted: the predecessor is active again. */
  lemma IssueAborts(j: Joint, g: Gov, c: Candidate, nonce: Nonce, now: Time)
    requires Certifies(j, g, c, nonce, now) && PredOk(j) && EarlierAborted(j) && TenantsKept(j)
    ensures EarlierAborted(Issue(j, g)) && TenantsKept(Issue(j, g))
  {
    assert forall h :: h in j.log ==> h in Issue(j, g).log;
    ActiveAfterAborts(j);
  }

  lemma IssueKeepsInv(j: Joint, g: Gov, c: Candidate, nonce: Nonce, now: Time)
    requires Inv(j) && Certifies(j, g, c, nonce, now)
    ensures Inv(Issue(j, g))
  {
    var after := Issue(j, g);
    IssuePredOk(j, g, c, nonce, now);
    IssueContinues(j, g, c, nonce, now);
    IssuedBundleOk(j, g, c, nonce, now);
    IssueAborts(j, g, c, nonce, now);
    FactsStay(j, after);
    LogGrows(j.log, after, Certified(g.pending.value.successorPayload));
    assert Calm(after) ==> Calm(j) by {
      assert forall h :: h in j.log ==> h in after.log;
    }
  }

  lemma AbortKeepsInv(j: Joint, request: AbortRequest, now: Time)
    requires Inv(j)
    ensures Inv(Step(j, AbortPending(request, now)))
  {
    if NotAhead(j, now) && (request.ByDecline? ==> Genuine(j, request.decline)) && j.pred.pending.Some?
      && Mutate(j.key, j.pred, Abort(request, now)).Ok?
    {
      MutateKeepsHolder(j.key, j.pred, Abort(request, now));
      AbortEffect(j.key, j.pred, request, now);
      AbortTakesEffect(j, Mutate(j.key, j.pred, Abort(request, now)).value, request, now);
    }
  }

  /** `after` is the record once `pending` was aborted. */
  predicate Aborts(before: Gov, after: Gov, pending: Pending, request: AbortRequest, now: Time) {
    && before.pending == Some(pending) && pending.activationProof.None? && before.status == ActivatingSuccessor
    && after.status == Active && after.tenants == before.tenants
    && after.lineage == before.lineage && after.epoch == before.epoch
    && (if request.ByDecline? then DeclineMatches(request.decline, pending) && after.expired.None?
        else pending.expiresAt + ABORT_GRACE_MS <= now && after.expired == Some(pending))
  }

  lemma AbortEffect(key: Pem, g: Gov, request: AbortRequest, now: Time)
    requires g.pending.Some? && Mutate(key, g, Abort(request, now)).Ok?
    ensures Aborts(g, Mutate(key, g, Abort(request, now)).value, g.pending.value, request, now)
  {
  }

  lemma AbortTakesEffect(j: Joint, g: Gov, request: AbortRequest, now: Time)
    requires Inv(j) && NotAhead(j, now) && (request.ByDecline? ==> Genuine(j, request.decline))
    requires j.pred.pending.Some? && Aborts(j.pred, g, j.pred.pending.value, request, now) && Holder(j.key, g)
    ensures var p := j.pred.pending.value.successorPayload;
            Inv(j.(pred := g, log := j.log + [if request.ByDecline? then AbortedOnDecline(p) else AbortedOnExpiry(p)]))
  {
    var p := j.pred.pending.value.successorPayload;
    if request.ByDecline? {
      DeclineIsTrue(j, request.decline);
      AbortedKeepsInv(j, g, AbortedOnDecline(p));
    } else {
      AbortedKeepsInv(j, g, AbortedOnExpiry(p));
    }
  }

  /** A decline that matches the pending activation was signed by the candidate that refuses it. */
  lemma DeclineIsTrue(j: Joint, decline: Envelope)
    requires Inv(j) && Genuine(j, decline) && j.pred.pending.Some? && DeclineMatches(decline, j.pred.pending.value)
    ensures HappeningOk(j, AbortedOnDecline(j.pred.pending.value.successorPayload))
  {
    assert BundleOk(j, j.last.value);
    assert SignedTruly(j, decline);
  }

  lemma AbortedPredOk(j: Joint, g: Gov, h: Happening)
    requires PredOk(j) && j.last.Some? && Holder(j.key, g) && g.status == Active && g.tenants == j.pred.tenants
    requires var p := j.last.value.aad.successorPayload; h == AbortedOnDecline(p) || h == AbortedOnExpiry(p)
    requires if h.AbortedOnDecline? then g.expired.None?
             else g.expired.Some? && g.expired.value.successorPayload == h.payload
    ensures PredOk(j.(pred := g, log := j.log + [h]))
  {
    var after := j.(pred := g, log := j.log + [h]);
    assert h in after.log && forall a :: a in j.log ==> a in after.log;
  }

  lemma AbortedKeepsInv(j: Joint, g: Gov, h: Happening)
    requires Inv(j) && j.last.Some? && !ProofRecorded(j.pred)
    requires Holder(j.key, g) && g.status == Active
    requires g.lineage == j.pred.lineage && g.epoch == j.pred.epoch && g.tenants == j.pred.tenants
    requires var p := j.last.value.aad.successorPayload; h == AbortedOnDecline(p) || h == AbortedOnExpiry(p)
    requires HappeningOk(j, h)
    requires if h.AbortedOnDecline? then g.expired.None?
             else g.expired.Some? && g.expired.value.successorPayload == h.payload
    ensures Inv(j.(pred := g, log := j.log + [h]))
  {
    var after := j.(pred := g, log := j.log + [h]);
    PredecessorContinues(j, after);
    AbortedPredOk(j, g, h);
    PredecessorMoves(j, after, h);
  }

  /** A proof that passes the checks was signed by the candidate after it had activated. */
  lemma CheckedProofIsTrue(j: Joint, proof: Envelope)
    requires Inv(j) && Genuine(j, proof) && FinalizeCheck(j.pred, proof).Ok?
    ensures j.last.Some?
    ensures FinalizeCheck(j.pred, proof).value.successorPayload == j.last.value.aad.successorPayload
    ensures ProofHeld(j, j.last.value.aad.successorPayload)
  {
    var pending := FinalizeCheck(j.pred, proof).value;
    assert CertifiedHere(j.key, j.pred.epoch, pending);
    assert BundleOk(j, j.last.value);
    assert SignedTruly(j, proof);
  }

  lemma FinalizedPredOk(j: Joint, g: Gov, h: Happening)
    requires PredOk(j) && j.last.Some? && Holder(j.key, g) && ProofRecorded(g) && g.tenants == j.pred.tenants
    requires var p := j.last.value.aad.successorPayload;
             && (g.pending.Some? ==> g.pending.value.successorPayload == p)
             && ((h == Recorded(p) && g.status == ActivatingSuccessor)
                 || (h == Finished(p) && g.status == Retired && ProofRecorded(j.pred)))
    ensures PredOk(j.(pred := g, log := j.log + [h]))
  {
    var after := j.(pred := g, log := j.log + [h]);
    assert h in after.log && forall a :: a in j.log ==> a in after.log;
  }

  lemma RecordedKeepsInv(j: Joint, g: Gov, p: Payload)
    requires Inv(j) && !ProofRecorded(j.pred)
    requires j.last.Some? && p == j.last.value.aad.successorPayload && ProofHeld(j, p)
    requires Holder(j.key, g) && ProofRecorded(g) && g.status == ActivatingSuccessor
    requires g.pending.Some? && g.pending.value.successorPayload == p
    requires g.lineage == j.pred.lineage && g.epoch == j.pred.epoch && g.tenants == j.pred.tenants
    ensures Inv(j.(pred := g, log := j.log + [Recorded(p)]))
  {
    var after := j.(pred := g, log := j.log + [Recorded(p)]);
    PredecessorContinues(j, after);
    FinalizedPredOk(j, g, Recorded(p));
    HeldProofsStay(j, after);
    PredecessorMoves(j, after, Recorded(p));
  }

  lemma RecordEffect(key: Pem, g: Gov, proof: Envelope)
    requires Holder(key, g) && FinalizeCheck(g, proof).Ok? && !ProofRecorded(g)
    ensures var pending := FinalizeCheck(g, proof).value;
            var recorded := Mutate(key, g, FinalizeChanges(g, pending, proof, 0)[0]);
            && recorded.Ok? && Holder(key, recorded.value) && ProofRecorded(recorded.value)
            && recorded.value.status == ActivatingSuccessor && recorded.value.tenants == g.tenants
            && recorded.value.pending == Some(pending.(activationProof := Some(proof)))
            && recorded.value.lineage == g.lineage && recorded.value.epoch == g.epoch
  {
    FinalizeRecordsProof(key, g, proof, 0);
    MutateKeepsHolder(key, g, FinalizeChanges(g, FinalizeCheck(g, proof).value, proof, 0)[0]);
  }

  lemma RecordKeepsInv(j: Joint, proof: Envelope)
    requires Inv(j)
    ensures Inv(Step(j, RecordSuccessorProof(proof)))
  {
    if Genuine(j, proof) && !ProofRecorded(j.pred) && FinalizeCheck(j.pred, proof).Ok? {
      var pending := FinalizeCheck(j.pred, proof).value;
      CheckedProofIsTrue(j, proof);
      RecordEffect(j.key, j.pred, proof);
      var g := Mutate(j.key, j.pred, FinalizeChanges(j.pred, pending, proof, 0)[0]).value;
      assert StepRecord(j, proof) == j.(pred := g, log := j.log + [Recorded(pending.successorPayload)]);
      RecordedKeepsInv(j, g, pending.successorPayload);
    }
  }

  lemma RetiredKeepsInv(j: Joint, g: Gov, p: Payload)
    requires Inv(j) && j.pred.status == ActivatingSuccessor && ProofRecorded(j.pred)
    requires j.last.Some? && p == j.last.value.aad.successorPayload && p.Successor?
    requires Holder(j.key, g) && g.status == Retired && RetiredFor(j.key, g, p)
    requires g.lineage == j.pred.lineage && g.epoch == j.pred.epoch && g.tenants == j.pred.tenants
    ensures Inv(j.(pred := g, log := j.log + [Finished(p)]))
  {
    var after := j.(pred := g, log := j.log + [Finished(p)]);
    PredecessorContinues(j, after);
    FinalizedPredOk(j, g, Finished(p));
    PredecessorMoves(j, after, Finished(p));
  }

  lemma RetireKeepsInv(j: Joint, proof: Envelope, now: Time)
    requires Inv(j)
    ensures Inv(Step(j, RetirePredecessor(proof, now)))
  {
    if j.pred.status == ActivatingSuccessor {
      var recorded := RecordedFirst(j, proof);
      FinishKeepsInv(recorded, Step(j, RetirePredecessor(proof, now)), proof, now);
    }
  }

  /** What the last commit of a finalize starts from. */
  lemma RecordedFirst(j: Joint, proof: Envelope) returns (recorded: Joint)
    requires Inv(j)
    ensures recorded == (if ProofRecorded(j.pred) then j else StepRecord(j, proof)) && Inv(recorded)
  {
    recorded := j;
    if !ProofRecorded(j.pred) {
      RecordKeepsInv(j, proof);
      recorded := Step(j, RecordSuccessorProof(proof));
    }
  }

  lemma FinishKeepsInv(j: Joint, after: Joint, proof: Envelope, now: Time)
    requires Inv(j) && after == StepFinish(j, proof, now)
    ensures Inv(after)
  {
    if Genuine(j, proof) && ProofRecorded(j.pred) && FinalizeCheck(j.pred, proof).Ok? {
      var pending := FinalizeCheck(j.pred, proof).value;
      CheckedProofIsTrue(j, proof);
      if Mutate(j.key, j.pred, Retire(pending.successorPayload, now)).Ok? {
        RetireEffect(j.key, j.pred, pending.successorPayload, now);
        var g := Mutate(j.key, j.pred, Retire(pending.successorPayload, now)).value;
        assert after == j.(pred := g, log := j.log + [Finished(pending.successorPayload)]);
        RetiredKeepsInv(j, g, pending.successorPayload);
      }
    }
  }

  lemma RetireEffect(key: Pem, g: Gov, p: Payload, now: Time)
    requires Holder(key, g) && Mutate(key, g, Retire(p, now)).Ok?
    ensures var after := Mutate(key, g, Retire(p, now)).value;
            && Holder(key, after) && after.status == Retired && p.Successor? && RetiredFor(key, after, p)
            && g.status == ActivatingSuccessor
            && after.lineage == g.lineage && after.epoch == g.epoch && after.tenants == g.tenants
  {
    MutateKeepsHolder(key, g, Retire(p, now));
    RetirementNamesBothKeys(key, g, p, now);
  }

  /** One candidate moves on: what does not depend on what it signed or logged. */
  lemma CandidateMoves(j: Joint, after: Joint, c: Candidate, later: Candidate)
    requires Inv(j) && c.key in j.cands && j.cands[c.key] == c && later.key == c.key && j.log <= after.log
    requires after == j.(cands := j.cands[c.key := later], signed := after.signed, log := after.log)
    requires j.last.Some? || after.log == j.log
    requires later.activationKey == c.activationKey && later.imageDigest == c.imageDigest
    requires c.declined <= later.declined && (c.gov.status != Inactive ==> LivesOn(c, later))
    requires if later.gov.status == Inactive then later.gov == FRESH else Holder(c.key, later.gov)
    ensures Continues(j, after) && PredOk(after) && CandidatesOk(after)
    ensures AllBundles(after, j.sealed) && AllHappenings(after, j.log) && AllSigned(after, j.signed)
    ensures EarlierAborted(after) && TenantsKept(after) && (Calm(after) ==> Calm(j))
  {
    CandidateContinues(j, after, c, later);
    FactsStay(j, after);
    AbortsStay(j, after);
    PredOkStays(j, after);
    CandidatesStay(j, after, c, later);
  }

  lemma CandidatesStay(before: Joint, after: Joint, c: Candidate, later: Candidate)
    requires CandidatesOk(before) && after.cands == before.cands[c.key := later] && later.key == c.key
    requires if later.gov.status == Inactive then later.gov == FRESH else Holder(c.key, later.gov)
    ensures CandidatesOk(after)
  {
  }

  lemma PredOkStays(before: Joint, after: Joint)
    requires PredOk(before) && (before.last.Some? || after.log == before.log) && before.log <= after.log
    requires after == before.(cands := after.cands, signed := after.signed, log := after.log, clock := after.clock)
    ensures PredOk(after)
  {
    assert forall h :: h in before.log ==> h in after.log;
  }

  /** A candidate that still waits remembers more nonces, and signs no proof. */
  lemma WaitingKeepsInv(j: Joint, c: Candidate, later: Candidate, signed: set<Envelope>)
    requires Inv(j) && c.key in j.cands && j.cands[c.key] == c && c.gov.status == Inactive
    requires later == c.(readiness := later.readiness, declined := later.declined) && c.declined <= later.declined
    requires forall s :: s in signed && s !in j.signed ==>
               exists nonce, t :: nonce in later.declined && s == Sign(DeclinePayload(c, nonce, t), c.key)
    ensures Inv(j.(cands := j.cands[c.key := later], signed := signed))
  {
    var after := j.(cands := j.cands[c.key := later], signed := signed);
    CandidateMoves(j, after, c, later);
  }

  lemma ReadinessKeepsInv(j: Joint, candidate: Pem, nonce: Nonce)
    requires Inv(j)
    ensures Inv(Step(j, IssueReadiness(candidate, nonce)))
  {
    if candidate in j.cands && j.cands[candidate].gov.status == Inactive {
      var c := j.cands[candidate];
      WaitingKeepsInv(j, c, c.(readiness := RememberReadiness(c.readiness, nonce)), j.signed);
    }
  }

  lemma DeclineKeepsInv(j: Joint, candidate: Pem, nonce: Nonce, now: Time)
    requires Inv(j)
    ensures Inv(Step(j, DeclineNonce(candidate, nonce, now)))
  {
    if candidate in j.cands && j.cands[candidate].gov.status == Inactive {
      var c := j.cands[candidate];
      WaitingKeepsInv(j, c, c.(declined := c.declined + {nonce}),
                      j.signed + {Sign(DeclinePayload(c, nonce, now), c.key)});
    }
  }

  /** What has to be so for a candidate to apply a bundle: it is the named candidate, in time, of a
      certificate that has not been aborted. */
  lemma WhatApplyMeans(j: Joint, candidate: Pem, certificate: Envelope, b: Sealed, nonce: Nonce, now: Time)
    requires Inv(j) && Reads(j, now)
    requires candidate in j.cands && b in j.sealed
    requires ApplyCheck(j.cands[candidate], certificate, b, nonce, now).Ok?
    ensures var p := b.aad.successorPayload;
            && BundleOk(j, b)
            && candidate == Named(p) && nonce == p.candidateAttestationNonce
            && nonce !in j.cands[candidate].declined
            && j.cands[candidate].gov == FRESH
            && j.cands[candidate].imageDigest == p.candidateImageDigest
            && p.issuedAt - j.skew <= now < p.expiresAt
            && AbortedOnDecline(p) !in j.log && (Calm(j) ==> AbortedOnExpiry(p) !in j.log)
  {
    var p := b.aad.successorPayload;
    assert BundleOk(j, b);
    assert b.lineage[|b.lineage| - 1] == Sign(p, j.key);
    ApplyNamesCandidate(j, j.cands[candidate], certificate, b, nonce, now);
    if Calm(j) {
      TooEarlyToHaveExpired(j, p);
    }
    NotYetDeclined(j, p);
  }

  lemma ApplyNamesCandidate(j: Joint, c: Candidate, certificate: Envelope, b: Sealed, nonce: Nonce, now: Time)
    requires BundleOk(j, b) && CandidatesOk(j) && c.key in j.cands && j.cands[c.key] == c
    requires ApplyCheck(c, certificate, b, nonce, now).Ok?
    requires b.lineage[|b.lineage| - 1] == Sign(b.aad.successorPayload, j.key)
    ensures var p := b.aad.successorPayload;
            && c.key == Named(p) && nonce == p.candidateAttestationNonce && nonce !in c.declined
            && c.gov == FRESH && c.imageDigest == p.candidateImageDigest && now < p.expiresAt
  {
  }

  lemma TooEarlyToHaveExpired(j: Joint, p: Payload)
    requires AllHappenings(j, j.log) && p.Successor? && Calm(j) && j.clock < p.expiresAt
    ensures AbortedOnExpiry(p) !in j.log
  {
  }

  lemma NotYetDeclined(j: Joint, p: Payload)
    requires AllHappenings(j, j.log) && p.Successor? && Named(p) in j.cands
    requires p.candidateAttestationNonce !in j.cands[Named(p)].declined
    ensures AbortedOnDecline(p) !in j.log
  {
  }

  lemma AppliedHoldsLineage(j: Joint, c: Candidate, certificate: Envelope, b: Sealed, nonce: Nonce, now: Time)
    requires Holder(j.key, j.pred) && BundleOk(j, b)
    requires c.gov == FRESH && ApplyCheck(c, certificate, b, nonce, now).Ok?
    ensures Holder(c.key, Applied(c, certificate, b, nonce, now).gov)
  {
    assert KeyIdsMatch(b.lineage);
  }

  lemma ApplyKeepsInv(j: Joint, candidate: Pem, certificate: Envelope, b: Sealed, nonce: Nonce, now: Time)
    requires Inv(j)
    ensures Inv(Step(j, ApplyBundle(candidate, certificate, b, nonce, now)))
  {
    if Reads(j, now) && candidate in j.cands && b in j.sealed
      && ApplyCheck(j.cands[candidate], certificate, b, nonce, now).Ok?
    {
      var c := j.cands[candidate];
      WhatApplyMeans(j, candidate, certificate, b, nonce, now);
      AppliedHoldsLineage(j, c, certificate, b, nonce, now);
      AppliedEffect(c, certificate, b, nonce, now);
      var g := Applied(c, certificate, b, nonce, now).gov;
      assert StepApply(j, candidate, certificate, b, nonce, now) ==
               j.(cands := j.cands[candidate := c.(gov := g)],
                  signed := j.signed + {Sign(ProofPayload(c, b, nonce, now), c.key)},
                  log := j.log + [Activated(b)]);
      ActivatedKeepsInv(j, c, g, b, now);
    }
  }

  lemma AppliedEffect(c: Candidate, certificate: Envelope, b: Sealed, nonce: Nonce, now: Time)
    ensures var after := Applied(c, certificate, b, nonce, now);
            && after == c.(gov := after.gov) && after.gov.lineage == b.lineage && after.gov.tenants == b.tenants
            && after.gov.latestActivationProof == Some(Sign(ProofPayload(c, b, nonce, now), c.key))
  {
  }

  lemma ActivatedKeepsInv(j: Joint, c: Candidate, g: Gov, b: Sealed, now: Time)
    requires Inv(j) && b in j.sealed && BundleOk(j, b)
    requires var p := b.aad.successorPayload;
             && c.key == Named(p) && j.cands[c.key] == c && p.candidateAttestationNonce !in c.declined
             && c.gov == FRESH && c.imageDigest == p.candidateImageDigest
             && p.issuedAt - j.skew <= now < p.expiresAt
             && AbortedOnDecline(p) !in j.log && (Calm(j) ==> AbortedOnExpiry(p) !in j.log)
             && Holder(c.key, g) && g.lineage == b.lineage && g.tenants == b.tenants
             && g.latestActivationProof == Some(Sign(ProofPayload(c, b, p.candidateAttestationNonce, now), c.key))
    ensures var p := b.aad.successorPayload;
            Inv(j.(cands := j.cands[c.key := c.(gov := g)],
                   signed := j.signed + {Sign(ProofPayload(c, b, p.candidateAttestationNonce, now), c.key)},
                   log := j.log + [Activated(b)]))
  {
    var p := b.aad.successorPayload;
    var after := j.(cands := j.cands[c.key := c.(gov := g)],
                    signed := j.signed + {Sign(ProofPayload(c, b, p.candidateAttestationNonce, now), c.key)},
                    log := j.log + [Activated(b)]);
    CandidateMoves(j, after, c, c.(gov := g));
    assert ProofHeld(after, p) by {
      assert BundleOk(after, b);
    }
    LogGrows(j.log, after, Activated(b));
  }

  lemma SuccessorKeepsInv(j: Joint, candidate: Pem, change: Change)
    requires Inv(j)
    ensures Inv(Step(j, SuccessorChange(candidate, change)))
  {
    if candidate in j.cands && j.cands[candidate].gov.status != Inactive
      && Mutate(j.cands[candidate].key, j.cands[candidate].gov, change).Ok?
    {
      var c := j.cands[candidate];
      MutateKeepsHolder(c.key, c.gov, change);
      MutateExtendsPolicy(c.key, c.gov, change);
      LivesOnKeepsInv(j, c, Mutate(c.key, c.gov, change).value);
    }
  }

  lemma LivesOnKeepsInv(j: Joint, c: Candidate, g: Gov)
    requires Inv(j) && c.key in j.cands && j.cands[c.key] == c && c.gov.status != Inactive
    requires Holder(c.key, g) && LivesOn(c, c.(gov := g))
    ensures Inv(j.(cands := j.cands[c.key := c.(gov := g)]))
  {
    var after := j.(cands := j.cands[c.key := c.(gov := g)]);
    CandidateMoves(j, after, c, c.(gov := g));
  }
}
