/** The candidate's side of a handoff: readiness, decline, and applying an activation
    bundle (src/governance-state.js). */
module Candidate {
  import opened Prelude
  import opened Lineage
  import opened Governance
  import opened GovernanceHistory

  const ACTIVATION_READINESS_LIMIT := 8

  /** One candidate process; `readiness` holds, oldest first, the nonces it has issued readiness for. */
  datatype Candidate = Candidate(key: Pem, activationKey: Pem, imageDigest: Image, gov: Gov,
                                 readiness: seq<Nonce>, declined: set<Nonce>)

  /** What the encryption of the transferred state is bound to. */
  datatype Aad = Aad(successorPayload: Payload, predecessorGovernanceKeyId: KeyId, successorGovernanceKeyId: KeyId,
                     candidateImageDigest: Image, activationNonce: Nonce)

  /** A transferable state, readable only with the private half of `sealedTo`. */
  datatype Sealed = Sealed(sealedTo: Pem, aad: Aad, lineage: seq<Envelope>, epoch: int,
                           tenants: map<string, TenantEntry>)

  datatype ApplyError =
    | NotInactive | WrongCertificate | NoReadiness | DeclinedNonce | Undecryptable
    | BadLineage | CertificateExpired | WrongEpoch | WrongKey | WrongTerminal

  /** The bundle completeActivation returns for a pending activation. */
  function SealFor(key: Pem, g: Gov, pending: Pending): Sealed {
    Sealed(pending.candidateActivationPem,
           Aad(pending.successorPayload, KeyIdOf(key), KeyIdOf(pending.candidatePublicKeyPem),
               pending.candidateImageDigest, pending.activationNonce),
           g.lineage + [pending.certificate], g.epoch + 1, g.tenants)
  }

  /** The newest entries of the readiness map, up to the limit. */
  function Newest(readiness: seq<Nonce>): seq<Nonce> {
    if |readiness| <= ACTIVATION_READINESS_LIMIT then readiness
    else readiness[|readiness| - ACTIVATION_READINESS_LIMIT..]
  }

  lemma ForgetOldest(readiness: seq<Nonce>)
    requires |readiness| > ACTIVATION_READINESS_LIMIT
    ensures Newest(readiness[1..]) == Newest(readiness)
  {
  }

  /** The loop of issueActivationReadiness. */
  method ForgetBeyondLimit(readiness: seq<Nonce>) returns (kept: seq<Nonce>)
    ensures kept == Newest(readiness)
  {
    kept := readiness;
    while |kept| > ACTIVATION_READINESS_LIMIT
      invariant Newest(kept) == Newest(readiness)
    {
      ForgetOldest(kept);
      kept := kept[1..];
    }
  }

  /** The readiness map forgets its oldest entries beyond the limit. */
  function RememberReadiness(readiness: seq<Nonce>, nonce: Nonce): seq<Nonce> {
    if nonce in readiness then readiness else Newest(readiness + [nonce])
  }

  predicate NamesCandidate(c: Candidate, payload: Payload, nonce: Nonce) {
    && payload.Successor?
    && payload.successorGovernanceKeyId == KeyIdOf(c.key)
    && payload.successorGovernancePublicKeyPem == c.key
    && payload.successorActivationPublicKeyPem == c.activationKey
    && payload.candidateImageDigest == c.imageDigest
    && payload.candidateAttestationNonce == nonce
  }

  function ApplyCheck(c: Candidate, certificate: Envelope, sealed: Sealed, nonce: Nonce, now: Time)
    : Result<(), ApplyError>
  {
    if c.gov.status != Inactive || |c.gov.lineage| > 0 then Err(NotInactive)
    else if !NamesCandidate(c, certificate.payload, nonce) then Err(WrongCertificate)
    else if nonce !in c.readiness then Err(NoReadiness)
    else if nonce in c.declined then Err(DeclinedNonce)
    else if sealed.sealedTo != c.activationKey
         || sealed.aad != Aad(certificate.payloadDigest, certificate.payload.predecessorGovernanceKeyId, KeyIdOf(c.key),
                              certificate.payload.candidateImageDigest, nonce) then Err(Undecryptable)
    else if !ValidLineage(sealed.lineage) then Err(BadLineage)
    else if !CertificateFresh(sealed.lineage[|sealed.lineage| - 1].payload, now) then Err(CertificateExpired)
    else if |sealed.lineage| != certificate.payload.successorEpoch then Err(WrongEpoch)
    else if CurrentKey(sealed.lineage) != c.key then Err(WrongKey)
    else if sealed.lineage[|sealed.lineage| - 1].payloadDigest != certificate.payloadDigest then Err(WrongTerminal)
    else Ok(())
  }

  function ProofPayload(c: Candidate, sealed: Sealed, nonce: Nonce, now: Time): Payload {
    ActivationProof(sealed.epoch, KeyIdOf(c.key), sealed.aad.successorPayload, nonce, c.imageDigest,
                    sealed.lineage, now)
  }

  function Applied(c: Candidate, certificate: Envelope, sealed: Sealed, nonce: Nonce, now: Time): Candidate {
    c.(gov := c.gov.(status := Active, epoch := sealed.epoch, lineage := sealed.lineage, tenants := sealed.tenants,
                     latestSuccessorCertificate := Some(certificate),
                     latestActivationProof := Some(Sign(ProofPayload(c, sealed, nonce, now), c.key))))
  }

  function DeclinePayload(c: Candidate, nonce: Nonce, now: Time): Payload {
    Decline(nonce, c.imageDigest, KeyIdOf(c.key), now)
  }

  /** The certificate names this candidate and its nonce in every respect. */
  predicate CertifiesFor(certificate: Payload, c: Candidate, nonce: Nonce) {
    && certificate.Successor?
    && certificate.successorGovernancePublicKeyPem == c.key
    && certificate.successorGovernanceKeyId == KeyIdOf(c.key)
    && certificate.successorActivationPublicKeyPem == c.activationKey
    && certificate.candidateImageDigest == c.imageDigest
    && certificate.candidateAttestationNonce == nonce
  }

  /** A waiting candidate applies exactly a state that is sealed to it for a certificate that names it and a nonce it
      is ready for and has not declined, with a valid lineage of the certified length that ends in that certificate's
      payload, names the candidate's key and has not expired. */
  lemma ApplySucceedsExactly(c: Candidate, certificate: Envelope, sealed: Sealed, nonce: Nonce, now: Time)
    ensures ApplyCheck(c, certificate, sealed, nonce, now).Ok? <==>
              && c.gov.status == Inactive && c.gov.lineage == []
              && CertifiesFor(certificate.payload, c, nonce) && nonce in c.readiness && nonce !in c.declined
              && sealed.sealedTo == c.activationKey
              && sealed.aad.successorPayload == certificate.payloadDigest
              && sealed.aad.predecessorGovernanceKeyId == certificate.payload.predecessorGovernanceKeyId
              && sealed.aad.successorGovernanceKeyId == KeyIdOf(c.key)
              && sealed.aad.candidateImageDigest == c.imageDigest && sealed.aad.activationNonce == nonce
              && ValidLineage(sealed.lineage) && CurrentKey(sealed.lineage) == c.key
              && |sealed.lineage| == certificate.payload.successorEpoch
              && var last := sealed.lineage[|sealed.lineage| - 1];
                 && last.payload == certificate.payloadDigest
                 && (last.payload.Successor? ==> now < last.payload.expiresAt)
  {
    if ValidLineage(sealed.lineage) {
      var n := |sealed.lineage|;
      assert n > 1 ==> Link(sealed.lineage[n - 2], sealed.lineage[n - 1], n - 1);
    }
  }

  /** What applying makes of the candidate: active at the transferred epoch, with the transferred lineage and tenants,
      the certificate and its own signed proof of this very transfer. */
  lemma AppliedExactly(c: Candidate, certificate: Envelope, sealed: Sealed, nonce: Nonce, now: Time)
    ensures var g, after := c.gov, Applied(c, certificate, sealed, nonce, now);
            && after.key == c.key && after.activationKey == c.activationKey && after.imageDigest == c.imageDigest
            && after.readiness == c.readiness && after.declined == c.declined
            && after.gov.status == Active && after.gov.epoch == sealed.epoch && after.gov.lineage == sealed.lineage
            && after.gov.tenants == sealed.tenants && after.gov.latestSuccessorCertificate == Some(certificate)
            && after.gov.pending == g.pending && after.gov.expired == g.expired
            && after.gov.latestPreapproval == g.latestPreapproval && after.gov.latestAborted == g.latestAborted
            && after.gov.latestRetirementCertificate == g.latestRetirementCertificate
            && after.gov.latestActivationProof.Some?
            && var proof := after.gov.latestActivationProof.value;
               && proof == Sign(proof.payload, c.key) && proof.payload.ActivationProof?
               && proof.payload.epoch == sealed.epoch && proof.payload.governanceKeyId == KeyIdOf(c.key)
               && proof.payload.successorPayload == sealed.aad.successorPayload
               && proof.payload.activationNonce == nonce && proof.payload.candidateImageDigest == c.imageDigest
               && proof.payload.lineageDigest == sealed.lineage && proof.payload.provedAt == now
  {
  }

  /** Readiness for a nonce is remembered as the newest, and of what is remembered only the oldest is forgotten. */
  lemma RemembersNewest(readiness: seq<Nonce>, nonce: Nonce)
    requires |readiness| <= 8
    ensures var after := RememberReadiness(readiness, nonce);
            && nonce in after && |after| <= 8
            && (nonce in readiness ==> after == readiness)
            && (nonce !in readiness && |readiness| < 8 ==> after == readiness + [nonce])
            && (nonce !in readiness && |readiness| == 8 ==> after == readiness[1..] + [nonce])
  {
    if nonce !in readiness {
      var longer := readiness + [nonce];
      assert longer[|longer| - 1] == nonce;
      assert |readiness| == 8 ==> longer[1..] == readiness[1..] + [nonce];
    }
  }

  /** Apply takes the transferred epoch as it comes: the successor holds its lineage properly exactly when
      the sender filled the epoch in as the lineage's length. */
  lemma ApplyHoldsLineageIffEpochHonest(c: Candidate, certificate: Envelope, sealed: Sealed, nonce: Nonce, now: Time)
    requires ApplyCheck(c, certificate, sealed, nonce, now).Ok? && KeyIdsMatch(sealed.lineage)
    ensures HoldsLineage(c.key, Applied(c, certificate, sealed, nonce, now).gov) <==> sealed.epoch == |sealed.lineage|
  {
  }
}
