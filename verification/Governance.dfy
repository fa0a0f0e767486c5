/** The replicated governance record and the changes a commit can make to it
    (src/governance-state.js). `Mutate` is the closure each operation hands to
    withGovernanceCommit; `Replay` is a history of such changes. */
module Governance {
  import opened Prelude
  import opened Lineage

  const CERTIFICATE_TTL_MS := 10 * 60 * 1000
  const ABORT_GRACE_MS := 5 * 60 * 1000
  const PROVED_AT_SKEW_MS := 60 * 1000

  /** The model fields every certificate of this broker carries. */
  const BROKER_METADATA := Metadata("model", "prompt", "schema", "policy")

  datatype Status = Inactive | Active | ActivatingSuccessor | Retired

  datatype TenantEntry = TenantEntry(minRouteVersion: int, tenantRouteSigningKeys: seq<RouteKey>,
                                     revokedRouteKeyIds: seq<string>, admission: Payload)

  datatype Pending = Pending(activationNonce: Nonce, candidateImageDigest: Image, candidatePublicKeyPem: Pem,
                             candidateActivationPem: Pem, certificate: Envelope, successorPayload: Payload,
                             issuedAt: Time, expiresAt: Time, activationProof: Option<Envelope>)

  datatype AbortReason = Declined | ExpiredUnseen

  datatype Aborted = Aborted(activationNonce: Nonce, successorPayload: Payload, reason: AbortReason, abortedAt: Time)

  /** The fields exportReplicaSnapshot copies, apart from the serial. */
  datatype Gov = Gov(status: Status, epoch: int, lineage: seq<Envelope>, tenants: map<string, TenantEntry>,
                     latestPreapproval: Option<Envelope>, latestSuccessorCertificate: Option<Envelope>,
                     latestRetirementCertificate: Option<Envelope>, pending: Option<Pending>,
                     latestActivationProof: Option<Envelope>, latestAborted: Option<Aborted>,
                     expired: Option<Pending>)

  const FRESH := Gov(Inactive, 0, [], map[], None, None, None, None, None, None, None)

  /** A candidate whose readiness, attestation and arbitration the predecessor has accepted. */
  datatype Offer = Offer(publicKeyPem: Pem, activationPem: Pem, imageDigest: Image, activationNonce: Nonce)

  datatype AbortRequest = ByDecline(decline: Envelope) | ByExpiry(activationNonce: Nonce) | Unjustified

  datatype Change =
    | Preapprove(preapproval: Envelope)
    | Admit(admission: Envelope)
    | Certify(offer: Offer, certifiedAt: Time)
    | RecordProof(successorPayload: Payload, proof: Envelope)
    | Reopen(successorPayload: Payload, proof: Envelope)
    | Retire(successorPayload: Payload, retiredAt: Time)
    | Abort(request: AbortRequest, abortedAt: Time)
    | Background

  datatype GovError =
    | WrongStatus | LineageChanged | KeyReplacement | NotAnAdmission | PendingChanged | ProofSeen
    | DeclineMismatch | NonceMismatch | TooEarly | NoJustification
    | ProofMismatch | ProofOutOfTime | BadProof

  // ---------------------------------------------------------------------
  // Building blocks
  // ---------------------------------------------------------------------

  function SuccessorPayload(key: Pem, epoch: int, offer: Offer, now: Time): Payload {
    Successor(epoch, epoch + 1, KeyIdOf(key), KeyIdOf(offer.publicKeyPem), offer.publicKeyPem,
              offer.activationPem, offer.imageDigest, offer.activationNonce, BROKER_METADATA,
              now, now + CERTIFICATE_TTL_MS)
  }

  function PendingFor(key: Pem, epoch: int, offer: Offer, now: Time): Pending {
    var payload := SuccessorPayload(key, epoch, offer, now);
    Pending(offer.activationNonce, offer.imageDigest, offer.publicKeyPem, offer.activationPem,
            Sign(payload, key), payload, now, now + CERTIFICATE_TTL_MS, None)
  }

  /** routeKeyFingerprint: the identity of a tenant key, without its optional fields. */
  function Fingerprint(key: RouteKey): (string, string, string) {
    (key.alg, key.keyId, key.publicKeyPem)
  }

  function Fingerprints(keys: seq<RouteKey>): seq<(string, string, string)> {
    seq(|keys|, i requires 0 <= i < |keys| => Fingerprint(keys[i]))
  }

  predicate ReplacesTenantKey(tenants: map<string, TenantEntry>, tenant: string, keys: seq<RouteKey>) {
    tenant in tenants && Fingerprints(tenants[tenant].tenantRouteSigningKeys) != Fingerprints(keys)
  }

  function RecordAdmission(tenants: map<string, TenantEntry>, payload: Payload): map<string, TenantEntry>
    requires payload.Admission?
  {
    var minimum := if payload.tenant in tenants then tenants[payload.tenant].minRouteVersion else 1;
    var revoked := if payload.tenant in tenants then tenants[payload.tenant].revokedRouteKeyIds else [];
    tenants[payload.tenant := TenantEntry(Max(minimum, payload.minRouteVersion),
                                          payload.tenantRouteSigningKeys, revoked, payload)]
  }

  predicate DeclineMatches(decline: Envelope, pending: Pending) {
    && VerifyEnvelope(decline, pending.candidatePublicKeyPem)
    && decline.payload.Decline?
    && decline.payload.activationNonce == pending.activationNonce
    && decline.payload.governanceKeyId == KeyIdOf(pending.candidatePublicKeyPem)
    && decline.payload.candidateImageDigest == pending.candidateImageDigest
  }

  function AbortVerdict(pending: Pending, request: AbortRequest, now: Time): Result<AbortReason, GovError> {
    match request
    case ByDecline(decline) => if DeclineMatches(decline, pending) then Ok(Declined) else Err(DeclineMismatch)
    case ByExpiry(nonce) =>
      if nonce != pending.activationNonce then Err(NonceMismatch)
      else if now < pending.expiresAt + ABORT_GRACE_MS then Err(TooEarly)
      else Ok(ExpiredUnseen)
    case Unjustified => Err(NoJustification)
  }

  // ---------------------------------------------------------------------
  // What a commit changes
  // ---------------------------------------------------------------------

  function Mutate(key: Pem, g: Gov, change: Change): Result<Gov, GovError> {
    match change
    case Preapprove(preapproval) => Ok(g.(latestPreapproval := Some(preapproval)))
    case Admit(admission) =>
      if g.status != Active then Err(WrongStatus)
      else if !admission.payload.Admission? then Err(NotAnAdmission)
      else if admission.payload.governanceLineage != g.lineage then Err(LineageChanged)
      else if ReplacesTenantKey(g.tenants, admission.payload.tenant, admission.payload.tenantRouteSigningKeys)
        then Err(KeyReplacement)
      else Ok(g.(tenants := RecordAdmission(g.tenants, admission.payload)))
    case Certify(offer, now) =>
      if g.status != Active then Err(WrongStatus)
      else
        var pending := PendingFor(key, g.epoch, offer, now);
        Ok(g.(status := ActivatingSuccessor, expired := None, pending := Some(pending),
              latestSuccessorCertificate := Some(pending.certificate)))
    case RecordProof(successorPayload, proof) =>
      if g.status != ActivatingSuccessor || g.pending.None? || g.pending.value.successorPayload != successorPayload
        then Err(PendingChanged)
      else Ok(g.(pending := Some(g.pending.value.(activationProof := Some(proof)))))
    case Reopen(successorPayload, proof) =>
      if g.status != Active || g.expired.None? || g.expired.value.successorPayload != successorPayload
        then Err(PendingChanged)
      else Ok(g.(status := ActivatingSuccessor, pending := Some(g.expired.value.(activationProof := Some(proof))),
                 latestSuccessorCertificate := Some(g.expired.value.certificate), expired := None))
    case Retire(successorPayload, now) =>
      if g.status != ActivatingSuccessor || g.pending.None? || g.pending.value.successorPayload != successorPayload
        then Err(PendingChanged)
      else
        var retirement := Retirement(g.epoch, KeyIdOf(key), g.epoch + 1,
                                     KeyIdOf(g.pending.value.candidatePublicKeyPem), successorPayload, now);
        Ok(g.(status := Retired, latestRetirementCertificate := Some(Sign(retirement, key)), pending := None))
    case Abort(request, now) =>
      if g.status != ActivatingSuccessor || g.pending.None? then Err(WrongStatus)
      else if g.pending.value.activationProof.Some? then Err(ProofSeen)
      else
        (match AbortVerdict(g.pending.value, request, now)
         case Err(e) => Err(e)
         case Ok(reason) =>
          Ok(g.(status := Active, pending := None, latestSuccessorCertificate := None,
                expired := if reason == ExpiredUnseen then g.pending else None,
                latestAborted := Some(Aborted(g.pending.value.activationNonce, g.pending.value.successorPayload,
                                              reason, now)))))
    case Background => Ok(g)
  }

  /** A history of changes, oldest first; a change whose closure throws leaves the record alone. */
  function Replay(key: Pem, g: Gov, history: seq<Change>): Gov {
    if |history| == 0 then g
    else
      var before := Replay(key, g, history[..|history| - 1]);
      match Mutate(key, before, history[|history| - 1])
      case Ok(after) => after
      case Err(_) => before
  }

  // ---------------------------------------------------------------------
  // finalizeActivation: the checks made before its commits
  // ---------------------------------------------------------------------

  /** The activation a finalize works on: the pending one, or one that was aborted on expiry. */
  function Finalizable(g: Gov): Option<Pending> {
    if g.status == ActivatingSuccessor then g.pending
    else if g.status == Active then g.expired
    else None
  }

  predicate ProofMatches(g: Gov, pending: Pending, proof: Payload) {
    && proof.ActivationProof?
    && proof.successorPayload == pending.successorPayload
    && proof.activationNonce == pending.activationNonce
    && proof.candidateImageDigest == pending.candidateImageDigest
    && proof.lineageDigest == g.lineage + [pending.certificate]
    && proof.epoch == g.epoch + 1
    && proof.governanceKeyId == KeyIdOf(pending.candidatePublicKeyPem)
  }

  predicate ProvedInTime(pending: Pending, provedAt: Time) {
    pending.issuedAt - PROVED_AT_SKEW_MS <= provedAt <= pending.expiresAt + PROVED_AT_SKEW_MS
  }

  function FinalizeCheck(g: Gov, proof: Envelope): Result<Pending, GovError> {
    if Finalizable(g).None? then Err(WrongStatus)
    else
      var pending := Finalizable(g).value;
      if !VerifyEnvelope(proof, pending.candidatePublicKeyPem) then Err(BadProof)
      else if !ProofMatches(g, pending, proof.payload) then Err(ProofMismatch)
      else if !ProvedInTime(pending, proof.payload.provedAt) then Err(ProofOutOfTime)
      else if !ValidLineage(g.lineage + [pending.certificate]) then Err(BadProof)
      else Ok(pending)
  }

  /** The commits finalizeActivation makes once its checks pass: the proof first, unless it is
      already recorded, then the retirement. */
  function FinalizeChanges(g: Gov, pending: Pending, proof: Envelope, now: Time): seq<Change> {
    (if g.status == Active then [Reopen(pending.successorPayload, proof)]
     else if pending.activationProof.None? then [RecordProof(pending.successorPayload, proof)]
     else [])
    + [Retire(pending.successorPayload, now)]
  }

  // ---------------------------------------------------------------------
  // Issuing an admission
  // ---------------------------------------------------------------------

  datatype AdmissionRequest = AdmissionRequest(tenant: string, keys: seq<RouteKey>, minRouteVersion: int,
                                               apiHosts: seq<string>, appHosts: seq<string>, audiences: seq<string>)

  const BROKER_AUDIENCE := "https://oauth-tee.femled.ai"

  predicate NonEmptyStrings(values: seq<string>) {
    |values| > 0 && forall i :: 0 <= i < |values| ==> values[i] != ""
  }

  /** assertTenantAdmissionInput; the UUID and PEM text checks are left to the caller. */
  predicate AdmissionInputOk(keys: seq<RouteKey>, minRouteVersion: int, apiHosts: seq<string>,
                             appHosts: seq<string>, audiences: seq<string>) {
    && minRouteVersion >= 1
    && NonEmptyStrings(apiHosts) && NonEmptyStrings(appHosts) && NonEmptyStrings(audiences)
    && BROKER_AUDIENCE in audiences
    && |keys| > 0
    && (forall i :: 0 <= i < |keys| ==> keys[i].alg in ["Ed25519", "ECDSA_P256_SHA256"] && keys[i].keyId != "")
    && (forall i, j :: 0 <= i < j < |keys| ==> keys[i].keyId != keys[j].keyId)
  }

  predicate RequestOk(request: AdmissionRequest) {
    AdmissionInputOk(request.keys, request.minRouteVersion, request.apiHosts, request.appHosts, request.audiences)
  }

  function AdmissionEnvelope(key: Pem, g: Gov, request: AdmissionRequest, now: Time, ttlMs: Time): Envelope {
    Sign(Admission(request.tenant, request.keys, request.minRouteVersion, request.apiHosts, request.appHosts,
                   request.audiences, g.epoch, KeyIdOf(key), g.lineage, now, now + ttlMs), key)
  }
}
