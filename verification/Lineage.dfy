/** Signed certificates and the certificate chain that fixes which key owned
    which epoch (src/governance-certificates.js, src/governance-crypto.js).

    Cryptography is ideal. A digest is the digested value itself, a fingerprint
    is an injective constructor, and a signature records who signed what. */
module Lineage {
  import opened Prelude

  type Pem = nat
  type Image = nat
  type Nonce = nat
  type Time = int

  datatype KeyId = KeyIdOf(pem: Pem)

  /** The model, prompt, response-schema and model-policy fields of a certificate. */
  datatype Metadata = Metadata(model: string, prompt: string, responseSchema: string, modelPolicy: string)

  datatype RouteKey = RouteKey(alg: string, keyId: string, publicKeyPem: string, kmsKeyVersion: string)

  datatype Payload =
    | Genesis(epoch: int, governancePublicKeyPem: Pem, governanceKeyId: KeyId, imageDigest: Image, meta: Metadata)
    | Successor(predecessorEpoch: int, successorEpoch: int,
                predecessorGovernanceKeyId: KeyId,
                successorGovernanceKeyId: KeyId, successorGovernancePublicKeyPem: Pem,
                successorActivationPublicKeyPem: Pem,
                candidateImageDigest: Image, candidateAttestationNonce: Nonce,
                meta: Metadata, issuedAt: Time, expiresAt: Time)
    | ActivationProof(epoch: int, governanceKeyId: KeyId, successorPayload: Payload, activationNonce: Nonce,
                      candidateImageDigest: Image, lineageDigest: seq<Envelope>, provedAt: Time)
    | Decline(activationNonce: Nonce, candidateImageDigest: Image, governanceKeyId: KeyId, declinedAt: Time)
    | Retirement(retiredEpoch: int, retiredGovernanceKeyId: KeyId, successorEpoch: int,
                 successorGovernanceKeyId: KeyId, successorPayload: Payload, retiredAt: Time)
    | Admission(tenant: string, tenantRouteSigningKeys: seq<RouteKey>, minRouteVersion: int,
                allowedApiHosts: seq<string>, allowedAppHosts: seq<string>, allowedBrokerAudiences: seq<string>,
                governanceEpoch: int, governanceKeyId: KeyId, governanceLineage: seq<Envelope>,
                issuedAt: Time, expiresAt: Time)
    | Preapproval(predecessorEpoch: int, predecessorGovernanceKeyId: KeyId, candidateImageDigest: Image,
                  nonce: Nonce, issuedAt: Time, expiresAt: Time)
    | Unknown(schema: string)

  datatype Signature = Signature(signer: Pem, over: Payload)

  datatype Envelope = Envelope(payload: Payload, payloadDigest: Payload, signingKeyId: KeyId, signature: Signature)

  function Sign(payload: Payload, key: Pem): Envelope {
    Envelope(payload, payload, KeyIdOf(key), Signature(key, payload))
  }

  /** The checks of verifyGovernanceEnvelope, apart from expiry. */
  predicate VerifyEnvelope(envelope: Envelope, key: Pem) {
    && envelope.payloadDigest == envelope.payload
    && envelope.signingKeyId == KeyIdOf(key)
    && envelope.signature == Signature(key, envelope.payload)
  }

  /** When a certificate lapses; genesis certificates, proofs, declines and retirements never do. */
  function ExpiresAt(payload: Payload): Option<Time> {
    match payload
    case Successor(_, _, _, _, _, _, _, _, _, _, expiresAt) => Some(expiresAt)
    case Admission(_, _, _, _, _, _, _, _, _, _, expiresAt) => Some(expiresAt)
    case Preapproval(_, _, _, _, _, expiresAt) => Some(expiresAt)
    case _ => None
  }

  predicate CertificateFresh(payload: Payload, now: Time) {
    ExpiresAt(payload).Some? ==> now < ExpiresAt(payload).value
  }

  /** The key a lineage certificate puts in charge. */
  function NamedKey(payload: Payload): Option<Pem> {
    match payload
    case Genesis(_, pem, _, _, _) => Some(pem)
    case Successor(_, _, _, _, pem, _, _, _, _, _, _) => Some(pem)
    case _ => None
  }

  function NamedKeyId(payload: Payload): Option<KeyId> {
    match payload
    case Genesis(_, _, keyId, _, _) => Some(keyId)
    case Successor(_, _, _, keyId, _, _, _, _, _, _, _) => Some(keyId)
    case _ => None
  }

  // ---------------------------------------------------------------------
  // What a lineage means
  // ---------------------------------------------------------------------

  predicate GenesisCertificate(envelope: Envelope) {
    && envelope.payload.Genesis?
    && envelope.payload.epoch == 1
    && VerifyEnvelope(envelope, envelope.payload.governancePublicKeyPem)
  }

  /** `next` is signed by the key `previous` names and opens epoch `epoch + 1`. */
  predicate Link(previous: Envelope, next: Envelope, epoch: int) {
    && NamedKey(previous.payload).Some?
    && next.payload.Successor?
    && VerifyEnvelope(next, NamedKey(previous.payload).value)
    && next.payload.predecessorEpoch == epoch
    && next.payload.successorEpoch == epoch + 1
  }

  predicate ValidLineage(lineage: seq<Envelope>) {
    && |lineage| > 0
    && GenesisCertificate(lineage[0])
    && forall i :: 1 <= i < |lineage| ==> Link(lineage[i - 1], lineage[i], i)
  }

  function CurrentKey(lineage: seq<Envelope>): Pem
    requires ValidLineage(lineage)
  {
    assert |lineage| > 1 ==> Link(lineage[|lineage| - 2], lineage[|lineage| - 1], |lineage| - 1);
    NamedKey(lineage[|lineage| - 1].payload).value
  }

  // ---------------------------------------------------------------------
  // verifyLineage
  // ---------------------------------------------------------------------

  datatype LineageError = EmptyLineage | BadEnvelope | NotGenesis | UnexpectedSchema | EpochDiscontinuity | Expired

  datatype Verified = Verified(currentEpoch: int, currentGovernancePublicKeyPem: Pem, certificates: seq<Payload>)

  /** The outcome of walking the chain one certificate after another, expiry aside. */
  function Walk(lineage: seq<Envelope>): Result<Verified, LineageError> {
    if |lineage| == 0 then Err(EmptyLineage)
    else if |lineage| == 1 then WalkGenesis(lineage[0])
    else
      match Walk(lineage[..|lineage| - 1])
      case Err(e) => Err(e)
      case Ok(v) => WalkStep(v, lineage[|lineage| - 1])
  }

  function WalkGenesis(envelope: Envelope): Result<Verified, LineageError> {
    if !envelope.payload.Genesis? then Err(NotGenesis)
    else if !VerifyEnvelope(envelope, envelope.payload.governancePublicKeyPem) then Err(BadEnvelope)
    else if envelope.payload.epoch != 1 then Err(NotGenesis)
    else Ok(Verified(envelope.payload.epoch, envelope.payload.governancePublicKeyPem, [envelope.payload]))
  }

  function WalkStep(v: Verified, envelope: Envelope): Result<Verified, LineageError> {
    if !VerifyEnvelope(envelope, v.currentGovernancePublicKeyPem) then Err(BadEnvelope)
    else if !envelope.payload.Successor? then Err(UnexpectedSchema)
    else if envelope.payload.predecessorEpoch != v.currentEpoch
         || envelope.payload.successorEpoch != v.currentEpoch + 1 then Err(EpochDiscontinuity)
    else Ok(Verified(envelope.payload.successorEpoch, envelope.payload.successorGovernancePublicKeyPem,
                     v.certificates + [envelope.payload]))
  }

  method VerifyLineage(lineage: seq<Envelope>, now: Time, enforceTerminalExpiry: bool)
    returns (r: Result<Verified, LineageError>)
    ensures r.Ok? <==> ValidLineage(lineage)
                       && (enforceTerminalExpiry ==> CertificateFresh(lineage[|lineage| - 1].payload, now))
    ensures r == Err(Expired) <==> ValidLineage(lineage) && enforceTerminalExpiry
                                   && !CertificateFresh(lineage[|lineage| - 1].payload, now)
    ensures r.Ok? ==> && r.value.currentEpoch == |lineage|
                      && r.value.currentGovernancePublicKeyPem == CurrentKey(lineage)
                      && |r.value.certificates| == |lineage|
                      && forall i :: 0 <= i < |lineage| ==> r.value.certificates[i] == lineage[i].payload
    ensures !r.Ok? && r != Err(Expired) ==> r == Walk(lineage)
  {
    WalkDecidesValidity(lineage);
    if |lineage| == 0 {
      return Err(EmptyLineage);
    }
    var genesis := lineage[0].payload;
    assert Walk(lineage[..1]) == WalkGenesis(lineage[0]);
    if !genesis.Genesis? || !VerifyEnvelope(lineage[0], genesis.governancePublicKeyPem) || genesis.epoch != 1 {
      WalkErrorSticks(lineage, 1);
      return if !genesis.Genesis? then Err(NotGenesis)
             else if !VerifyEnvelope(lineage[0], genesis.governancePublicKeyPem) then Err(BadEnvelope)
             else Err(NotGenesis);
    }
    var verified := [genesis];
    var currentPublicKeyPem := genesis.governancePublicKeyPem;
    var currentEpoch := genesis.epoch;
    var i := 1;
    while i < |lineage|
      invariant 1 <= i <= |lineage|
      invariant Walk(lineage[..i]) == Ok(Verified(currentEpoch, currentPublicKeyPem, verified))
    {
      assert lineage[..i + 1][..i] == lineage[..i];
      assert Walk(lineage[..i + 1]) == WalkStep(Verified(currentEpoch, currentPublicKeyPem, verified), lineage[i]);
      var payload := lineage[i].payload;
      if !VerifyEnvelope(lineage[i], currentPublicKeyPem) {
        WalkErrorSticks(lineage, i + 1);
        return Err(BadEnvelope);
      }
      if !payload.Successor? {
        WalkErrorSticks(lineage, i + 1);
        return Err(UnexpectedSchema);
      }
      if payload.predecessorEpoch != currentEpoch || payload.successorEpoch != currentEpoch + 1 {
        WalkErrorSticks(lineage, i + 1);
        return Err(EpochDiscontinuity);
      }
      verified := verified + [payload];
      currentEpoch := payload.successorEpoch;
      currentPublicKeyPem := payload.successorGovernancePublicKeyPem;
      i := i + 1;
    }
    assert lineage[..|lineage|] == lineage;
    if enforceTerminalExpiry && !CertificateFresh(lineage[|lineage| - 1].payload, now) {
      return Err(Expired);
    }
    return Ok(Verified(currentEpoch, currentPublicKeyPem, verified));
  }

  /** Once a prefix of the chain is refused, the whole chain is refused for the same reason. */
  lemma {:induction false} WalkErrorSticks(lineage: seq<Envelope>, n: nat)
    requires 1 <= n <= |lineage| && Walk(lineage[..n]).Err?
    ensures Walk(lineage) == Walk(lineage[..n])
  {
    if n == |lineage| {
      assert lineage[..n] == lineage;
    } else {
      var shorter := lineage[..|lineage| - 1];
      assert shorter[..n] == lineage[..n];
      WalkErrorSticks(shorter, n);
    }
  }

  lemma {:induction false} ValidPrefix(lineage: seq<Envelope>, n: nat)
    requires ValidLineage(lineage) && 1 <= n <= |lineage|
    ensures ValidLineage(lineage[..n])
  {
    var prefix := lineage[..n];
    forall i | 1 <= i < |prefix| ensures Link(prefix[i - 1], prefix[i], i) {
      assert Link(lineage[i - 1], lineage[i], i);
    }
  }

  lemma {:induction false} ValidExtension(lineage: seq<Envelope>, next: Envelope)
    requires ValidLineage(lineage)
    ensures ValidLineage(lineage + [next]) <==> Link(lineage[|lineage| - 1], next, |lineage|)
    ensures ValidLineage(lineage + [next]) ==> CurrentKey(lineage + [next]) == NamedKey(next.payload).value
  {
    var longer := lineage + [next];
    if ValidLineage(longer) {
      assert Link(longer[|lineage| - 1], longer[|lineage|], |lineage|);
    }
    if Link(lineage[|lineage| - 1], next, |lineage|) {
      forall i | 1 <= i < |longer| ensures Link(longer[i - 1], longer[i], i) {
        if i < |lineage| {
          assert Link(lineage[i - 1], lineage[i], i);
        }
      }
    }
  }

  /** The walk accepts exactly the valid lineages, and ends at their length, key and payloads. */
  lemma {:induction false} WalkDecidesValidity(lineage: seq<Envelope>)
    ensures Walk(lineage).Ok? <==> ValidLineage(lineage)
    ensures Walk(lineage) != Err(Expired)
    ensures ValidLineage(lineage) ==>
              && Walk(lineage).value.currentEpoch == |lineage|
              && Walk(lineage).value.currentGovernancePublicKeyPem == CurrentKey(lineage)
              && |Walk(lineage).value.certificates| == |lineage|
              && forall i :: 0 <= i < |lineage| ==> Walk(lineage).value.certificates[i] == lineage[i].payload
  {
    if |lineage| > 1 {
      var shorter, last := lineage[..|lineage| - 1], lineage[|lineage| - 1];
      assert lineage == shorter + [last];
      WalkDecidesValidity(shorter);
      if ValidLineage(shorter) {
        ValidExtension(shorter, last);
      }
      if ValidLineage(lineage) {
        ValidPrefix(lineage, |lineage| - 1);
      }
    }
  }

  // ---------------------------------------------------------------------
  // The key of an epoch
  // ---------------------------------------------------------------------

  datatype EpochKey = EpochKey(keyId: KeyId, publicKeyPem: Pem)

  /** governanceKeyAtEpoch reads the fields of one certificate, whatever its schema. */
  function KeyAtEpoch(lineage: seq<Envelope>, epoch: int): Option<EpochKey> {
    if epoch < 1 || epoch > |lineage| then None
    else
      var payload := lineage[epoch - 1].payload;
      if epoch == 1 then
        if payload.Genesis? && payload.epoch == 1
        then Some(EpochKey(payload.governanceKeyId, payload.governancePublicKeyPem)) else None
      else
        if payload.Successor? && payload.successorEpoch == epoch
        then Some(EpochKey(payload.successorGovernanceKeyId, payload.successorGovernancePublicKeyPem)) else None
  }

  /** A certificate opens the epoch it is read for, or has no key for it. */
  lemma KeyAtEpochExactly(lineage: seq<Envelope>, epoch: int)
    ensures KeyAtEpoch(lineage, epoch).Some? <==>
              && 1 <= epoch <= |lineage|
              && var p := lineage[epoch - 1].payload;
                 if epoch == 1 then p.Genesis? && p.epoch == epoch else p.Successor? && p.successorEpoch == epoch
    ensures KeyAtEpoch(lineage, epoch).Some? ==>
              && NamedKey(lineage[epoch - 1].payload) == Some(KeyAtEpoch(lineage, epoch).value.publicKeyPem)
              && NamedKeyId(lineage[epoch - 1].payload) == Some(KeyAtEpoch(lineage, epoch).value.keyId)
  {
  }

  /** On a valid lineage the key read off certificate `epoch` is the key verifyLineage reaches
      on the first `epoch` certificates. */
  lemma {:induction false} KeyAtEpochIsVerifiedKey(lineage: seq<Envelope>, epoch: int)
    requires ValidLineage(lineage) && 1 <= epoch <= |lineage|
    ensures Walk(lineage[..epoch]).Ok?
    ensures KeyAtEpoch(lineage, epoch).Some?
    ensures KeyAtEpoch(lineage, epoch).value.publicKeyPem == Walk(lineage[..epoch]).value.currentGovernancePublicKeyPem
    ensures Walk(lineage[..epoch]).value.currentEpoch == epoch
  {
    ValidPrefix(lineage, epoch);
    WalkDecidesValidity(lineage[..epoch]);
    if epoch > 1 {
      assert Link(lineage[epoch - 2], lineage[epoch - 1], epoch - 1);
    }
  }

  /** `longer` extends `lineage` by zero or more certificates. */
  predicate Extends(longer: seq<Envelope>, lineage: seq<Envelope>) {
    |lineage| <= |longer| && longer[..|lineage|] == lineage
  }

  lemma ExtendsTransitive(a: seq<Envelope>, b: seq<Envelope>, c: seq<Envelope>)
    requires Extends(b, a) && Extends(c, b)
    ensures Extends(c, a)
  {
    assert c[..|a|] == c[..|b|][..|a|];
  }

  lemma ExtensionKeepsKeys(longer: seq<Envelope>, lineage: seq<Envelope>, epoch: int)
    requires Extends(longer, lineage) && epoch <= |lineage|
    ensures KeyAtEpoch(longer, epoch) == KeyAtEpoch(lineage, epoch)
  {
    if 1 <= epoch {
      assert longer[epoch - 1] == longer[..|lineage|][epoch - 1];
    }
  }

  /** Every certificate names its key under that key's own id. */
  predicate KeyIdsMatch(lineage: seq<Envelope>) {
    forall i :: 0 <= i < |lineage| ==>
      && NamedKey(lineage[i].payload).Some?
      && NamedKeyId(lineage[i].payload) == Some(KeyIdOf(NamedKey(lineage[i].payload).value))
  }
}
