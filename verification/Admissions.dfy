/** When a tenant admission verifies (src/governance-state.js, verifyTenantAdmissionEnvelope). */
module Admissions {
  import opened Prelude
  import opened Lineage
  import opened Governance
  import opened GovernanceHistory

  datatype AdmissionError =
    | EpochNotInLineage | OtherLineage | NotSignedByEpochKey | BadSignature | AdmissionExpired
    | BadInput | KeyIdMismatch | BelowMinimum | RevokedKey

  predicate AdmissionPayloadOk(p: Payload) {
    p.Admission? && AdmissionInputOk(p.tenantRouteSigningKeys, p.minRouteVersion, p.allowedApiHosts,
                                     p.allowedAppHosts, p.allowedBrokerAudiences)
  }

  predicate UsesRevokedKey(keys: seq<RouteKey>, revoked: seq<string>) {
    exists i :: 0 <= i < |keys| && keys[i].keyId in revoked
  }

  /** The route policy no longer stands in the way of an admission. */
  predicate PolicyAllows(tenants: map<string, TenantEntry>, p: Payload)
    requires p.Admission?
  {
    p.tenant in tenants ==>
      && tenants[p.tenant].minRouteVersion <= p.minRouteVersion
      && !UsesRevokedKey(p.tenantRouteSigningKeys, tenants[p.tenant].revokedRouteKeyIds)
  }

  function VerifyAdmission(lineage: seq<Envelope>, tenants: map<string, TenantEntry>, envelope: Envelope, now: Time)
    : Result<Payload, AdmissionError>
  {
    var p := envelope.payload;
    if !p.Admission? || p.governanceEpoch < 1 || p.governanceEpoch > |lineage| then Err(EpochNotInLineage)
    else if p.governanceLineage != lineage[..p.governanceEpoch] then Err(OtherLineage)
    else
      var epochKey := KeyAtEpoch(lineage, p.governanceEpoch);
      if epochKey.None? || envelope.signingKeyId != epochKey.value.keyId then Err(NotSignedByEpochKey)
      else if !VerifyEnvelope(envelope, epochKey.value.publicKeyPem) then Err(BadSignature)
      else if !CertificateFresh(p, now) then Err(AdmissionExpired)
      else if !AdmissionPayloadOk(p) then Err(BadInput)
      else if p.governanceKeyId != envelope.signingKeyId then Err(KeyIdMismatch)
      else if p.tenant in tenants && p.minRouteVersion < tenants[p.tenant].minRouteVersion then Err(BelowMinimum)
      else if p.tenant in tenants && UsesRevokedKey(p.tenantRouteSigningKeys, tenants[p.tenant].revokedRouteKeyIds)
        then Err(RevokedKey)
      else Ok(p)
  }

  predicate Strings(values: seq<string>) {
    values != [] && "" !in values
  }

  /** What an admission has to say, field by field. */
  predicate WellStated(p: Payload)
    requires p.Admission?
  {
    && p.minRouteVersion >= 1
    && Strings(p.allowedApiHosts) && Strings(p.allowedAppHosts) && Strings(p.allowedBrokerAudiences)
    && "https://oauth-tee.femled.ai" in p.allowedBrokerAudiences
    && p.tenantRouteSigningKeys != []
    && (forall k :: k in p.tenantRouteSigningKeys ==>
          k.keyId != "" && (k.alg == "Ed25519" || k.alg == "ECDSA_P256_SHA256"))
    && (forall i, j :: 0 <= i < |p.tenantRouteSigningKeys| && 0 <= j < |p.tenantRouteSigningKeys| && i != j ==>
          p.tenantRouteSigningKeys[i].keyId != p.tenantRouteSigningKeys[j].keyId)
  }

  /** The tenant is new, or asks for no lower a minimum than it has and for no key that was revoked. */
  predicate PolicyStands(tenants: map<string, TenantEntry>, p: Payload)
    requires p.Admission?
  {
    p.tenant in tenants ==>
      && p.minRouteVersion >= tenants[p.tenant].minRouteVersion
      && forall k :: k in p.tenantRouteSigningKeys ==> k.keyId !in tenants[p.tenant].revokedRouteKeyIds
  }

  lemma InputOkExactly(p: Payload)
    requires p.Admission?
    ensures AdmissionPayloadOk(p) <==> WellStated(p)
  {
    var keys := p.tenantRouteSigningKeys;
    if WellStated(p) {
      assert forall i :: 0 <= i < |keys| ==> keys[i] in keys;
    }
  }

  lemma AllowsExactly(tenants: map<string, TenantEntry>, p: Payload)
    requires p.Admission?
    ensures PolicyAllows(tenants, p) <==> PolicyStands(tenants, p)
  {
    var keys := p.tenantRouteSigningKeys;
    if p.tenant in tenants && !UsesRevokedKey(keys, tenants[p.tenant].revokedRouteKeyIds) {
      forall k | k in keys ensures k.keyId !in tenants[p.tenant].revokedRouteKeyIds {
        var i :| 0 <= i < |keys| && keys[i] == k;
      }
    }
    if PolicyStands(tenants, p) {
      assert forall i :: 0 <= i < |keys| ==> keys[i] in keys;
    }
  }

  /** `p` was issued under the first certificates of this lineage by the key that was in charge there. */
  predicate IssuedUnder(lineage: seq<Envelope>, p: Payload, key: Pem)
    requires p.Admission?
  {
    && 1 <= p.governanceEpoch <= |lineage|
    && p.governanceLineage == lineage[..p.governanceEpoch]
    && Walk(lineage[..p.governanceEpoch]).Ok?
    && Walk(lineage[..p.governanceEpoch]).value.currentGovernancePublicKeyPem == key
    && p.governanceKeyId == KeyIdOf(key)
  }

  /** Whoever made it, an envelope verifies exactly if it is the signature, by the key in charge at the epoch it
      names, of an admission under this very lineage that is well stated, has not expired, and that the tenant's
      policy does not stand against. */
  lemma AdmissionVerifiesExactly(lineage: seq<Envelope>, tenants: map<string, TenantEntry>, envelope: Envelope,
                                 now: Time)
    requires ValidLineage(lineage) && KeyIdsMatch(lineage)
    ensures VerifyAdmission(lineage, tenants, envelope, now).Ok? <==>
              var p, key := envelope.payload, envelope.signature.signer;
              && p.Admission? && IssuedUnder(lineage, p, key) && envelope == Sign(p, key)
              && now < p.expiresAt && WellStated(p) && PolicyStands(tenants, p)
    ensures VerifyAdmission(lineage, tenants, envelope, now).Ok? ==>
              VerifyAdmission(lineage, tenants, envelope, now).value == envelope.payload
  {
    var p := envelope.payload;
    if p.Admission? && 1 <= p.governanceEpoch <= |lineage| {
      InputOkExactly(p);
      AllowsExactly(tenants, p);
      KeyAtEpochIsVerifiedKey(lineage, p.governanceEpoch);
      VerifiesExactlyIfSigned(envelope, KeyAtEpoch(lineage, p.governanceEpoch).value.publicKeyPem);
    }
  }

  /** assertTenantAdmissionInput: the first fault found, if there is one. */
  method AssertTenantAdmissionInput(p: Payload) returns (fault: Option<string>)
    requires p.Admission?
    ensures fault.None? <==> AdmissionPayloadOk(p)
  {
    if p.minRouteVersion < 1 { return Some("minRouteVersion"); }
    if !NonEmptyStrings(p.allowedApiHosts) { return Some("allowedApiHosts"); }
    if !NonEmptyStrings(p.allowedAppHosts) { return Some("allowedAppHosts"); }
    if !NonEmptyStrings(p.allowedBrokerAudiences) { return Some("allowedBrokerAudiences"); }
    if BROKER_AUDIENCE !in p.allowedBrokerAudiences { return Some("allowedBrokerAudiences"); }
    var keys := p.tenantRouteSigningKeys;
    if |keys| == 0 { return Some("tenantRouteSigningKeys"); }
    var seen: set<string> := {};
    for n := 0 to |keys|
      invariant forall id :: id in seen <==> exists i :: 0 <= i < n && keys[i].keyId == id
      invariant forall i :: 0 <= i < n ==> keys[i].alg in ["Ed25519", "ECDSA_P256_SHA256"] && keys[i].keyId != ""
      invariant forall i, j :: 0 <= i < j < n ==> keys[i].keyId != keys[j].keyId
    {
      if keys[n].alg !in ["Ed25519", "ECDSA_P256_SHA256"] { return Some("alg"); }
      if keys[n].keyId == "" { return Some("keyId"); }
      if keys[n].keyId in seen { return Some("duplicate"); }
      seen := seen + {keys[n].keyId};
    }
    return None;
  }

  /** An admission a key holder issued verifies exactly under the lineages that extend the one it was issued
      under, until it expires, and while the tenant's minimum has not risen above it. */
  lemma IssuedAdmissionVerifiesExactly(key: Pem, g: Gov, request: AdmissionRequest, issuedAt: Time, ttlMs: Time,
                                       lineage: seq<Envelope>, tenants: map<string, TenantEntry>, now: Time)
    requires Holder(key, g) && RequestOk(request)
    ensures var envelope := AdmissionEnvelope(key, g, request, issuedAt, ttlMs);
            VerifyAdmission(lineage, tenants, envelope, now).Ok? <==>
              Extends(lineage, g.lineage) && now < issuedAt + ttlMs && PolicyAllows(tenants, envelope.payload)
  {
    if Extends(lineage, g.lineage) {
      ExtensionKeepsKeys(lineage, g.lineage, g.epoch);
      KeyAtEpochIsVerifiedKey(g.lineage, g.epoch);
      WalkDecidesValidity(g.lineage);
      assert g.lineage[..g.epoch] == g.lineage;
    }
  }

  predicate NoneRevoked(tenants: map<string, TenantEntry>) {
    forall t :: t in tenants ==> tenants[t].revokedRouteKeyIds == []
  }

  lemma {:induction false} HistoryRevokesNone(key: Pem, g: Gov, history: seq<Change>)
    requires NoneRevoked(g.tenants)
    ensures NoneRevoked(Replay(key, g, history).tenants)
  {
    if |history| > 0 {
      HistoryRevokesNone(key, g, history[..|history| - 1]);
    }
  }

  /** Once admitted, an admission verifies at every later point of the history, at this predecessor and at every
      successor that took over its tenants, exactly until it expires or some admission of that tenant asked
      for a higher minimum. */
  lemma AdmittedVerifiesUntilRaised(key: Pem, g: Gov, history: seq<Change>, k: nat, request: AdmissionRequest,
                                    issuedAt: Time, ttlMs: Time, lineage: seq<Envelope>, now: Time)
    requires Holder(key, g) && NoneRevoked(g.tenants) && RequestOk(request) && k < |history|
    requires AdmittedAt(key, g, history, k,
                        AdmissionEnvelope(key, Replay(key, g, history[..k]), request, issuedAt, ttlMs).payload)
    requires Extends(lineage, g.lineage)
    ensures var envelope := AdmissionEnvelope(key, Replay(key, g, history[..k]), request, issuedAt, ttlMs);
            var tenants := Replay(key, g, history).tenants;
            && request.tenant in tenants
            && (VerifyAdmission(lineage, tenants, envelope, now).Ok? <==>
                  now < issuedAt + ttlMs && tenants[request.tenant].minRouteVersion == request.minRouteVersion)
  {
    var issuer := Replay(key, g, history[..k]);
    ReplayKeepsHolder(key, g, history[..k]);
    HistoryRevokesNone(key, g, history);
    MinimumCoversEveryAdmission(key, g, history, k, AdmissionEnvelope(key, issuer, request, issuedAt, ttlMs).payload);
    var tenants := Replay(key, g, history).tenants;
    IssuedAdmissionVerifiesExactly(key, issuer, request, issuedAt, ttlMs, lineage, tenants, now);
  }
}
