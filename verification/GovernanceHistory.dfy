/** What every history of committed changes keeps. */
module GovernanceHistory {
  import opened Prelude
  import opened Lineage
  import opened Governance

  // ---------------------------------------------------------------------
  // A holder of the lineage key
  // ---------------------------------------------------------------------

  /** `key` is the key the record's lineage names, at the epoch the lineage has reached. */
  predicate HoldsLineage(key: Pem, g: Gov) {
    && ValidLineage(g.lineage)
    && KeyIdsMatch(g.lineage)
    && g.epoch == |g.lineage|
    && CurrentKey(g.lineage) == key
  }

  /** A pending or expired activation was certified by this key from this record's epoch. */
  predicate CertifiedHere(key: Pem, epoch: int, pending: Pending) {
    && pending.successorPayload ==
         SuccessorPayload(key, epoch, Offer(pending.candidatePublicKeyPem, pending.candidateActivationPem,
                                            pending.candidateImageDigest, pending.activationNonce), pending.issuedAt)
    && pending.certificate == Sign(pending.successorPayload, key)
    && pending.expiresAt == pending.issuedAt + CERTIFICATE_TTL_MS
  }

  predicate Holder(key: Pem, g: Gov) {
    && HoldsLineage(key, g)
    && g.status != Inactive
    && (g.status == ActivatingSuccessor <==> g.pending.Some?)
    && (g.expired.Some? ==> g.status == Active && g.expired.value.activationProof.None?)
    && (g.pending.Some? ==>
          CertifiedHere(key, g.epoch, g.pending.value)
          && g.latestSuccessorCertificate == Some(g.pending.value.certificate))
    && (g.expired.Some? ==> CertifiedHere(key, g.epoch, g.expired.value))
  }

  lemma MutateKeepsHolder(key: Pem, g: Gov, change: Change)
    requires Holder(key, g) && Mutate(key, g, change).Ok?
    ensures Holder(key, Mutate(key, g, change).value)
    ensures Mutate(key, g, change).value.lineage == g.lineage && Mutate(key, g, change).value.epoch == g.epoch
    ensures Mutate(key, g, change).value.latestActivationProof == g.latestActivationProof
  {
  }

  lemma {:induction false} ReplayKeepsHolder(key: Pem, g: Gov, history: seq<Change>)
    requires Holder(key, g)
    ensures Holder(key, Replay(key, g, history))
    ensures Replay(key, g, history).lineage == g.lineage && Replay(key, g, history).epoch == g.epoch
    ensures Replay(key, g, history).latestActivationProof == g.latestActivationProof
  {
    if |history| > 0 {
      ReplayKeepsHolder(key, g, history[..|history| - 1]);
      var before := Replay(key, g, history[..|history| - 1]);
      if Mutate(key, before, history[|history| - 1]).Ok? {
        MutateKeepsHolder(key, before, history[|history| - 1]);
      }
    }
  }

  /** Replaying a longer history continues from where the shorter one ended. */
  lemma {:induction false} ReplayConcat(key: Pem, g: Gov, first: seq<Change>, second: seq<Change>)
    ensures Replay(key, g, first + second) == Replay(key, Replay(key, g, first), second)
  {
    if |second| == 0 {
      assert first + second == first;
    } else {
      ReplayConcat(key, g, first, second[..|second| - 1]);
      assert (first + second)[..|first + second| - 1] == first + second[..|second| - 1];
    }
  }

  // ---------------------------------------------------------------------
  // A proof once recorded, and retirement
  // ---------------------------------------------------------------------

  /** The predecessor has recorded its successor's proof, or has already retired. */
  predicate ProofRecorded(g: Gov) {
    g.status == Retired || (g.status == ActivatingSuccessor && g.pending.Some? && g.pending.value.activationProof.Some?)
  }

  lemma {:induction false} ProofRecordedForGood(key: Pem, g: Gov, history: seq<Change>)
    requires ProofRecorded(g)
    ensures ProofRecorded(Replay(key, g, history))
    ensures Replay(key, g, history).status != Active
    ensures g.status == Retired ==> Replay(key, g, history).status == Retired
  {
    if |history| > 0 {
      ProofRecordedForGood(key, g, history[..|history| - 1]);
    }
  }

  /** After the proof is recorded no later point of the history certifies, admits or aborts. */
  lemma NoChangeOfCourseAfterProof(key: Pem, g: Gov, history: seq<Change>, offer: Offer, admission: Envelope,
                                   request: AbortRequest, now: Time)
    requires ProofRecorded(g)
    ensures Mutate(key, Replay(key, g, history), Certify(offer, now)).Err?
    ensures Mutate(key, Replay(key, g, history), Admit(admission)).Err?
    ensures Mutate(key, Replay(key, g, history), Abort(request, now)).Err?
  {
    ProofRecordedForGood(key, g, history);
  }

  // ---------------------------------------------------------------------
  // Tenant route policy
  // ---------------------------------------------------------------------

  /** The same keys under the same names, in the same order; where a key is kept in KMS does not matter. */
  predicate SameKeys(keys: seq<RouteKey>, others: seq<RouteKey>) {
    && |keys| == |others|
    && forall i :: 0 <= i < |keys| ==>
         && keys[i].alg == others[i].alg && keys[i].keyId == others[i].keyId
         && keys[i].publicKeyPem == others[i].publicKeyPem
  }

  lemma FingerprintsTellKeys(keys: seq<RouteKey>, others: seq<RouteKey>)
    ensures Fingerprints(keys) == Fingerprints(others) <==> SameKeys(keys, others)
  {
    if Fingerprints(keys) == Fingerprints(others) {
      assert |Fingerprints(keys)| == |keys| && |Fingerprints(others)| == |others|;
      forall i | 0 <= i < |keys| ensures Fingerprint(keys[i]) == Fingerprint(others[i]) {
        assert Fingerprints(keys)[i] == Fingerprint(keys[i]) && Fingerprints(others)[i] == Fingerprint(others[i]);
      }
    }
  }

  /** Every tenant of `before` is still admitted, under the same keys and no lower a minimum. */
  predicate PolicyExtends(before: map<string, TenantEntry>, after: map<string, TenantEntry>) {
    forall tenant :: tenant in before ==>
      && tenant in after
      && before[tenant].minRouteVersion <= after[tenant].minRouteVersion
      && SameKeys(before[tenant].tenantRouteSigningKeys, after[tenant].tenantRouteSigningKeys)
      && before[tenant].revokedRouteKeyIds == after[tenant].revokedRouteKeyIds
  }

  lemma MutateExtendsPolicy(key: Pem, g: Gov, change: Change)
    requires Mutate(key, g, change).Ok?
    ensures PolicyExtends(g.tenants, Mutate(key, g, change).value.tenants)
  {
    if change.Admit? {
      AdmitSucceedsExactly(key, g, change.admission);
    }
  }

  /** An admission is recorded exactly by an active holder, for the lineage it names, and for keys that the tenant,
      if it is known, already has. It raises the tenant's minimum if need be and leaves the other tenants alone. */
  lemma AdmitSucceedsExactly(key: Pem, g: Gov, admission: Envelope)
    ensures Mutate(key, g, Admit(admission)).Ok? <==>
              && g.status == Active && admission.payload.Admission? && admission.payload.governanceLineage == g.lineage
              && (admission.payload.tenant in g.tenants ==>
                    SameKeys(g.tenants[admission.payload.tenant].tenantRouteSigningKeys,
                             admission.payload.tenantRouteSigningKeys))
    ensures Mutate(key, g, Admit(admission)).Ok? ==>
              var p, after := admission.payload, Mutate(key, g, Admit(admission)).value.tenants;
              && p.tenant in after && after.Keys == g.tenants.Keys + {p.tenant}
              && after[p.tenant].admission == p && after[p.tenant].tenantRouteSigningKeys == p.tenantRouteSigningKeys
              && p.minRouteVersion <= after[p.tenant].minRouteVersion
              && (forall t :: t in g.tenants && t != p.tenant ==> after[t] == g.tenants[t])
  {
    var p := admission.payload;
    if p.Admission? && p.tenant in g.tenants {
      FingerprintsTellKeys(g.tenants[p.tenant].tenantRouteSigningKeys, p.tenantRouteSigningKeys);
    }
  }

  lemma {:induction false} ReplayExtendsPolicy(key: Pem, g: Gov, history: seq<Change>)
    ensures PolicyExtends(g.tenants, Replay(key, g, history).tenants)
  {
    if |history| > 0 {
      var shorter := history[..|history| - 1];
      ReplayExtendsPolicy(key, g, shorter);
      if Mutate(key, Replay(key, g, shorter), history[|history| - 1]).Ok? {
        MutateExtendsPolicy(key, Replay(key, g, shorter), history[|history| - 1]);
      }
    }
  }

  /** At step `k` the history admitted `payload`. */
  predicate AdmittedAt(key: Pem, g: Gov, history: seq<Change>, k: nat, payload: Payload) {
    && k < |history|
    && history[k].Admit?
    && history[k].admission.payload == payload
    && Mutate(key, Replay(key, g, history[..k]), history[k]).Ok?
  }

  /** The minimum kept for a tenant is never below any minimum ever admitted for it, and the keys
      kept are the keys of every admission. */
  lemma {:induction false} MinimumCoversEveryAdmission(key: Pem, g: Gov, history: seq<Change>, k: nat, payload: Payload)
    requires AdmittedAt(key, g, history, k, payload)
    ensures payload.Admission?
    ensures payload.tenant in Replay(key, g, history).tenants
    ensures payload.minRouteVersion <= Replay(key, g, history).tenants[payload.tenant].minRouteVersion
    ensures SameKeys(payload.tenantRouteSigningKeys,
                     Replay(key, g, history).tenants[payload.tenant].tenantRouteSigningKeys)
  {
    var upTo := history[..k + 1];
    assert upTo[..|upTo| - 1] == history[..k];
    assert history == upTo + history[k + 1..];
    ReplayConcat(key, g, upTo, history[k + 1..]);
    ReplayExtendsPolicy(key, Replay(key, g, upTo), history[k + 1..]);
  }

  /** And it is no higher than needed: it was there at the start, is the default 1, or was admitted. */
  lemma {:induction false} MinimumWasAdmitted(key: Pem, g: Gov, history: seq<Change>, tenant: string)
    returns (k: nat, payload: Payload)
    requires tenant in Replay(key, g, history).tenants
    ensures var minimum := Replay(key, g, history).tenants[tenant].minRouteVersion;
            || (tenant in g.tenants && minimum == g.tenants[tenant].minRouteVersion)
            || minimum == 1
            || (&& AdmittedAt(key, g, history, k, payload)
                && payload.tenant == tenant && minimum == payload.minRouteVersion)
  {
    k, payload := 0, Unknown("");
    if |history| > 0 {
      var shorter, last := history[..|history| - 1], history[|history| - 1];
      var before := Replay(key, g, shorter);
      if tenant in before.tenants {
        k, payload := MinimumWasAdmitted(key, g, shorter, tenant);
        if AdmittedAt(key, g, shorter, k, payload) {
          assert history[..k] == shorter[..k];
          assert AdmittedAt(key, g, history, k, payload);
        }
      }
      var minimum := Replay(key, g, history).tenants[tenant].minRouteVersion;
      if tenant !in before.tenants || minimum != before.tenants[tenant].minRouteVersion {
        if minimum != 1 {
          k, payload := |history| - 1, last.admission.payload;
          assert history[..k] == shorter;
        }
      }
    }
  }

  // ---------------------------------------------------------------------
  // finalizeActivation
  // ---------------------------------------------------------------------

  lemma ReplayOne(key: Pem, g: Gov, change: Change)
    requires Mutate(key, g, change).Ok?
    ensures Replay(key, g, [change]) == Mutate(key, g, change).value
  {
    assert [change][..0] == [];
  }

  /** The first commit of a finalize records the proof, from a pending or from an expired activation. */
  lemma FinalizeRecordsProof(key: Pem, g: Gov, proof: Envelope, now: Time)
    requires Holder(key, g) && FinalizeCheck(g, proof).Ok?
    requires !ProofRecorded(g)
    ensures var pending := FinalizeCheck(g, proof).value;
            var first := FinalizeChanges(g, pending, proof, now)[0];
            && FinalizeChanges(g, pending, proof, now) == [first, Retire(pending.successorPayload, now)]
            && Mutate(key, g, first).Ok?
            && ProofRecorded(Mutate(key, g, first).value)
            && Mutate(key, g, first).value.tenants == g.tenants
            && Mutate(key, g, first).value.pending == Some(pending.(activationProof := Some(proof)))
            && Mutate(key, g, first).value.status == ActivatingSuccessor
  {
  }

  /** Once the checks pass, every commit finalize makes succeeds, and they leave the predecessor
      retired with the tenants it had; the proof stays recorded if only the first is acknowledged. */
  lemma FinalizeCommitsRetire(key: Pem, g: Gov, proof: Envelope, now: Time)
    requires Holder(key, g) && FinalizeCheck(g, proof).Ok?
    ensures var changes := FinalizeChanges(g, FinalizeCheck(g, proof).value, proof, now);
            && |changes| == (if ProofRecorded(g) then 1 else 2)
            && Mutate(key, g, changes[0]).Ok?
            && (|changes| == 2 ==> ProofRecorded(Mutate(key, g, changes[0]).value)
                                   && Mutate(key, Mutate(key, g, changes[0]).value, changes[1]).Ok?)
            && Replay(key, g, changes).status == Retired
            && Replay(key, g, changes).tenants == g.tenants
  {
    var pending := FinalizeCheck(g, proof).value;
    var changes := FinalizeChanges(g, pending, proof, now);
    if ProofRecorded(g) {
      ReplayOne(key, g, changes[0]);
    } else {
      FinalizeRecordsProof(key, g, proof, now);
      var recorded := Mutate(key, g, changes[0]).value;
      assert Mutate(key, recorded, changes[1]).Ok?;
      ReplayOne(key, g, changes[0]);
      ReplayOne(key, recorded, changes[1]);
      ReplayConcat(key, g, [changes[0]], [changes[1]]);
      assert changes == [changes[0]] + [changes[1]];
    }
  }

  // ---------------------------------------------------------------------
  // What each request must be like
  // ---------------------------------------------------------------------

  /** An envelope verifies under a key exactly when it is that key's signature of its payload. */
  lemma VerifiesExactlyIfSigned(envelope: Envelope, key: Pem)
    ensures VerifyEnvelope(envelope, key) <==> envelope == Sign(envelope.payload, key)
    ensures Sign(envelope.payload, key).signature.signer == key
  {
  }

  /** The candidate of the pending activation declines it, under its own key. */
  ghost predicate DeclineOf(decline: Envelope, pending: Pending) {
    exists t :: decline == Sign(Decline(pending.activationNonce, pending.candidateImageDigest,
                                        KeyIdOf(pending.candidatePublicKeyPem), t), pending.candidatePublicKeyPem)
  }

  lemma DeclineMatchesExactly(decline: Envelope, pending: Pending)
    ensures DeclineMatches(decline, pending) <==> DeclineOf(decline, pending)
  {
    if DeclineMatches(decline, pending) {
      assert decline == Sign(Decline(pending.activationNonce, pending.candidateImageDigest,
                                     KeyIdOf(pending.candidatePublicKeyPem), decline.payload.declinedAt),
                             pending.candidatePublicKeyPem);
    }
  }

  /** An abort succeeds exactly for a pending activation whose proof was not seen, on its candidate's own decline or
      five minutes after its certificate expired; it leads back to active, and only an expired one can be reopened. */
  lemma AbortSucceedsExactly(key: Pem, g: Gov, request: AbortRequest, now: Time)
    ensures Mutate(key, g, Abort(request, now)).Ok? <==>
              && g.status == ActivatingSuccessor && g.pending.Some? && g.pending.value.activationProof.None?
              && match request {
                   case ByDecline(decline) => DeclineOf(decline, g.pending.value)
                   case ByExpiry(nonce) =>
                     nonce == g.pending.value.activationNonce && now >= g.pending.value.expiresAt + 300000
                   case Unjustified => false
                 }
    ensures Mutate(key, g, Abort(request, now)).Ok? ==>
              var after := Mutate(key, g, Abort(request, now)).value;
              && after.status == Active && after.pending.None? && after.latestSuccessorCertificate.None?
              && after.expired == (if request.ByExpiry? then g.pending else None)
              && after.latestAborted.Some?
              && after.latestAborted.value.successorPayload == g.pending.value.successorPayload
              && after.latestAborted.value.activationNonce == g.pending.value.activationNonce
              && after.latestAborted.value.abortedAt == now
              && (after.latestAborted.value.reason == Declined <==> request.ByDecline?)
  {
    if request.ByDecline? && g.pending.Some? {
      DeclineMatchesExactly(request.decline, g.pending.value);
    }
  }

  /** The candidate's signed statement that it applied the bundle of this activation at `provedAt`. */
  function ProofOf(g: Gov, pending: Pending, provedAt: Time): Envelope {
    Sign(ActivationProof(g.epoch + 1, KeyIdOf(pending.candidatePublicKeyPem), pending.successorPayload,
                         pending.activationNonce, pending.candidateImageDigest, g.lineage + [pending.certificate],
                         provedAt), pending.candidatePublicKeyPem)
  }

  /** Finalize accepts exactly the candidate's own proof, made within a minute of the certificate's life, of the
      activation that is pending, or of one that was aborted on expiry. */
  lemma FinalizeSucceedsExactly(g: Gov, proof: Envelope)
    ensures FinalizeCheck(g, proof).Ok? <==>
              && ((g.status == ActivatingSuccessor && g.pending.Some?) || (g.status == Active && g.expired.Some?))
              && var pending := if g.status == Active then g.expired.value else g.pending.value;
                 && proof.payload.ActivationProof? && proof == ProofOf(g, pending, proof.payload.provedAt)
                 && pending.issuedAt - 60000 <= proof.payload.provedAt <= pending.expiresAt + 60000
                 && ValidLineage(g.lineage + [pending.certificate])
    ensures FinalizeCheck(g, proof).Ok? ==>
              FinalizeCheck(g, proof).value == if g.status == Active then g.expired.value else g.pending.value
  {
  }

  /** The retirement that finalize leaves behind retires this key at its epoch in favour of the candidate's at the
      next, under this key's signature. */
  lemma RetirementNamesBothKeys(key: Pem, g: Gov, payload: Payload, now: Time)
    requires Holder(key, g) && Mutate(key, g, Retire(payload, now)).Ok?
    ensures g.pending.Some? && g.pending.value.successorPayload == payload && payload.Successor?
    ensures var certificate := Mutate(key, g, Retire(payload, now)).value.latestRetirementCertificate;
            certificate == Some(RetirementOf(key, g.lineage, payload, now))
  {
  }

  /** The retirement of the key that holds a lineage, in favour of the key a successor certificate names. */
  function RetirementOf(key: Pem, lineage: seq<Envelope>, payload: Payload, now: Time): Envelope
    requires payload.Successor?
  {
    Sign(Retirement(|lineage|, KeyIdOf(key), payload.successorEpoch, payload.successorGovernanceKeyId, payload, now),
         key)
  }

  /** A certification succeeds exactly for an active holder. The certificate extends its lineage by the candidate's
      key, names the candidate in every other respect, and lasts ten minutes. */
  lemma CertifySucceedsExactly(key: Pem, g: Gov, offer: Offer, now: Time)
    requires Holder(key, g)
    ensures Mutate(key, g, Certify(offer, now)).Ok? <==> g.status == Active
    ensures g.status == Active ==>
              var after := Mutate(key, g, Certify(offer, now)).value;
              && after.status == ActivatingSuccessor && after.expired.None? && after.pending.Some?
              && after.pending.value.activationProof.None?
              && var certificate := after.pending.value.certificate;
                 && after.latestSuccessorCertificate == Some(certificate)
                 && after.pending.value.successorPayload == certificate.payload
                 && ValidLineage(g.lineage + [certificate]) && KeyIdsMatch(g.lineage + [certificate])
                 && CurrentKey(g.lineage + [certificate]) == offer.publicKeyPem
                 && certificate.payload.Successor?
                 && certificate.payload.successorActivationPublicKeyPem == offer.activationPem
                 && certificate.payload.candidateImageDigest == offer.imageDigest
                 && certificate.payload.candidateAttestationNonce == offer.activationNonce
                 && certificate.payload.issuedAt == now
                 && forall t :: CertificateFresh(certificate.payload, t) <==> t < now + 600000
  {
    if g.status == Active {
      ValidExtension(g.lineage, PendingFor(key, g.epoch, offer, now).certificate);
    }
  }
}
