/** One broker process: the module-level state record of src/governance-state.js, and the operations that
    assign its fields inside commits. Each is tied to the value-level functions the theorems are about. */
module GovernanceProcess {
  import opened Prelude
  import opened Lineage
  import opened Governance
  import opened GovernanceHistory
  import opened Admissions
  import opened Replica
  import opened Candidate

  datatype Refusal = Refused(reason: GovError) | NotAcknowledged

  datatype CandidateRefusal = CannotApply(reason: ApplyError) | NotACandidate | AlreadyDeclined | ProofNotAcknowledged

  /** A replica after a commit: the change and a new serial if it was released, the new serial alone if not. */
  function CommitOutcome(r: Replica, change: Change, acknowledged: bool): Replica {
    match Mutate(r.key, r.gov, change)
    case Err(_) => r.(replicaSerial := r.replicaSerial + 1)
    case Ok(gov) =>
      if NeedsAck(r) && !acknowledged then r.(replicaSerial := r.replicaSerial + 1)
      else r.(gov := gov, replicaSerial := r.replicaSerial + 1)
  }

  /** Only bootstrap, custody and apply end inactivity. */
  lemma IdleStaysIdle(key: Pem, g: Gov, change: Change)
    requires g.status == Inactive ==> g.lineage == [] && g.pending.None? && g.expired.None?
    ensures Mutate(key, g, change).Ok? ==>
              var after := Mutate(key, g, change).value;
              after.status == Inactive ==> after.lineage == [] && after.pending.None? && after.expired.None?
  {
  }

  /** What a request asks an admission to say. */
  function Asked(request: AdmissionRequest): (p: Payload)
    ensures p.Admission?
  {
    Admission(request.tenant, request.keys, request.minRouteVersion, request.apiHosts, request.appHosts,
              request.audiences, 0, KeyIdOf(0), [], 0, 0)
  }

  /** The bundle extends this lineage by a certificate for the offered candidate, under this key's signature and good
      for ten minutes, and is sealed to the candidate's activation key and to nothing but this certificate. */
  predicate CertifiesAndSeals(key: Pem, epoch: int, lineage: seq<Envelope>, offer: Offer, now: Time, bundle: Sealed) {
    var payload := Successor(epoch, epoch + 1, KeyIdOf(key), KeyIdOf(offer.publicKeyPem), offer.publicKeyPem,
                             offer.activationPem, offer.imageDigest, offer.activationNonce, BROKER_METADATA,
                             now, now + 600000);
    && bundle.lineage == lineage + [Sign(payload, key)] && bundle.epoch == epoch + 1
    && bundle.sealedTo == offer.activationPem
    && bundle.aad == Aad(payload, KeyIdOf(key), KeyIdOf(offer.publicKeyPem), offer.imageDigest, offer.activationNonce)
  }

  predicate CommitReleases(r: Replica, change: Change, acknowledged: bool) {
    Mutate(r.key, r.gov, change).Ok? && (NeedsAck(r) ==> acknowledged)
  }

  /** Custody of the sender's current state, in the role it serves. */
  function AcceptedFrom(requester: Replica, sender: Replica): Result<Replica, CustodyError> {
    AcceptCustody(requester, sender.key, Export(sender), ServedRole(sender), sender.gov.lineage)
  }

  function GenesisPayload(key: Pem, image: Image): Payload {
    Genesis(1, key, KeyIdOf(key), image, BROKER_METADATA)
  }

  class GovernanceState {
    var keyPem: Pem
    const activationPem: Pem
    const imageDigest: Image

    var status: Status
    var epoch: int
    var lineage: seq<Envelope>
    var tenants: map<string, TenantEntry>
    var latestPreapproval: Option<Envelope>
    var latestSuccessorCertificate: Option<Envelope>
    var latestRetirementCertificate: Option<Envelope>
    var pendingSuccessorActivation: Option<Pending>
    var latestActivationProof: Option<Envelope>
    var latestAbortedActivation: Option<Aborted>
    var expiredSuccessorActivation: Option<Pending>
    var replicaSerial: nat

    var replicaRole: Option<Role>
    var replicaPeer: Option<Pem>
    var activationReadiness: seq<Nonce>
    var declinedActivationNonces: set<Nonce>

    /** The fields a snapshot carries. */
    function Replicated(): Gov
      reads this
    {
      Gov(status, epoch, lineage, tenants, latestPreapproval, latestSuccessorCertificate, latestRetirementCertificate,
          pendingSuccessorActivation, latestActivationProof, latestAbortedActivation, expiredSuccessorActivation)
    }

    function AsReplica(): Replica
      reads this
    {
      Replica(activationPem, keyPem, replicaRole, replicaPeer, Replicated(), replicaSerial)
    }

    function AsCandidate(): Candidate
      reads this
    {
      Candidate(keyPem, activationPem, imageDigest, Replicated(), activationReadiness, declinedActivationNonces)
    }

    predicate Valid()
      reads this
    {
      && (status == Inactive ==> lineage == [] && pendingSuccessorActivation.None? && expiredSuccessorActivation.None?)
      && |activationReadiness| <= ACTIVATION_READINESS_LIMIT
    }

    constructor (keyPem: Pem, activationPem: Pem, imageDigest: Image, bootRole: Option<Role>)
      ensures Valid()
      ensures AsReplica() == Replica(activationPem, keyPem, bootRole, None, FRESH, 0)
      ensures AsCandidate() == Candidate(keyPem, activationPem, imageDigest, FRESH, [], {})
    {
      this.keyPem, this.activationPem, this.imageDigest := keyPem, activationPem, imageDigest;
      status, epoch, lineage, tenants := Inactive, 0, [], map[];
      latestPreapproval, latestSuccessorCertificate, latestRetirementCertificate := None, None, None;
      pendingSuccessorActivation, latestActivationProof := None, None;
      latestAbortedActivation, expiredSuccessorActivation := None, None;
      replicaSerial, replicaRole, replicaPeer := 0, bootRole, None;
      activationReadiness, declinedActivationNonces := [], {};
    }

    // -------------------------------------------------------------------
    // Commits
    // -------------------------------------------------------------------

    method ApplyReplicaSnapshot(snapshot: Snapshot)
      modifies this`status, this`epoch, this`lineage, this`tenants, this`latestPreapproval,
               this`latestSuccessorCertificate, this`latestRetirementCertificate, this`pendingSuccessorActivation,
               this`latestActivationProof, this`latestAbortedActivation, this`expiredSuccessorActivation,
               this`replicaSerial
      ensures Replicated() == snapshot.gov && replicaSerial == snapshot.replicaSerial
    {
      var g := snapshot.gov;
      status, epoch, lineage, tenants := g.status, g.epoch, g.lineage, g.tenants;
      latestPreapproval := g.latestPreapproval;
      latestSuccessorCertificate := g.latestSuccessorCertificate;
      latestRetirementCertificate := g.latestRetirementCertificate;
      pendingSuccessorActivation := g.pending;
      latestActivationProof := g.latestActivationProof;
      latestAbortedActivation := g.latestAborted;
      expiredSuccessorActivation := g.expired;
      replicaSerial := snapshot.replicaSerial;
    }

    /** The closure an operation hands to withGovernanceCommit. */
    method RunClosure(change: Change) returns (r: Result<(), GovError>)
      modifies this`status, this`epoch, this`lineage, this`tenants, this`latestPreapproval,
               this`latestSuccessorCertificate, this`latestRetirementCertificate, this`pendingSuccessorActivation,
               this`latestActivationProof, this`latestAbortedActivation, this`expiredSuccessorActivation
      ensures r == match Mutate(keyPem, old(Replicated()), change) case Ok(_) => Ok(()) case Err(e) => Err(e)
      ensures r.Ok? ==> Replicated() == Mutate(keyPem, old(Replicated()), change).value
      ensures r.Err? ==> Replicated() == old(Replicated())
    {
      ghost var g := Replicated();
      match change {
        case Preapprove(preapproval) =>
          latestPreapproval := Some(preapproval);
          assert Mutate(keyPem, g, change) == Ok(Replicated());
        case Admit(admission) =>
          if status != Active { return Err(WrongStatus); }
          if !admission.payload.Admission? { return Err(NotAnAdmission); }
          if admission.payload.governanceLineage != lineage { return Err(LineageChanged); }
          if ReplacesTenantKey(tenants, admission.payload.tenant, admission.payload.tenantRouteSigningKeys) {
            return Err(KeyReplacement);
          }
          tenants := RecordAdmission(tenants, admission.payload);
          assert Mutate(keyPem, g, change) == Ok(Replicated());
        case Certify(offer, now) =>
          if status != Active { return Err(WrongStatus); }
          var pending := PendingFor(keyPem, epoch, offer, now);
          status := ActivatingSuccessor;
          expiredSuccessorActivation := None;
          pendingSuccessorActivation := Some(pending);
          latestSuccessorCertificate := Some(pending.certificate);
          assert Mutate(keyPem, g, change) == Ok(Replicated());
        case RecordProof(successorPayload, proof) =>
          if !StillPending(successorPayload) { return Err(PendingChanged); }
          pendingSuccessorActivation := Some(pendingSuccessorActivation.value.(activationProof := Some(proof)));
          assert Mutate(keyPem, g, change) == Ok(Replicated());
        case Reopen(successorPayload, proof) =>
          if status != Active || expiredSuccessorActivation.None?
             || expiredSuccessorActivation.value.successorPayload != successorPayload {
            return Err(PendingChanged);
          }
          var pending := expiredSuccessorActivation.value;
          status := ActivatingSuccessor;
          pendingSuccessorActivation := Some(pending.(activationProof := Some(proof)));
          latestSuccessorCertificate := Some(pending.certificate);
          expiredSuccessorActivation := None;
          assert Mutate(keyPem, g, change) == Ok(Replicated());
        case Retire(successorPayload, now) =>
          if !StillPending(successorPayload) { return Err(PendingChanged); }
          var successor := KeyIdOf(pendingSuccessorActivation.value.candidatePublicKeyPem);
          var retirement := Retirement(epoch, KeyIdOf(keyPem), epoch + 1, successor, successorPayload, now);
          status := Retired;
          latestRetirementCertificate := Some(Sign(retirement, keyPem));
          pendingSuccessorActivation := None;
          assert Mutate(keyPem, g, change) == Ok(Replicated());
        case Abort(request, now) =>
          if status != ActivatingSuccessor || pendingSuccessorActivation.None? { return Err(WrongStatus); }
          var pending := pendingSuccessorActivation.value;
          if pending.activationProof.Some? { return Err(ProofSeen); }
          var verdict := AbortVerdict(pending, request, now);
          if verdict.Err? { return Err(verdict.error); }
          status := Active;
          pendingSuccessorActivation := None;
          latestSuccessorCertificate := None;
          expiredSuccessorActivation := if verdict.value == ExpiredUnseen then Some(pending) else None;
          latestAbortedActivation :=
            Some(Aborted(pending.activationNonce, pending.successorPayload, verdict.value, now));
          assert Mutate(keyPem, g, change) == Ok(Replicated());
        case Background =>
      }
      return Ok(());
    }

    predicate StillPending(successorPayload: Payload)
      reads this
    {
      && status == ActivatingSuccessor
      && pendingSuccessorActivation.Some?
      && pendingSuccessorActivation.value.successorPayload == successorPayload
    }

    /** withGovernanceCommit. `acknowledged` is whether the custodian's reply to this serial arrives; it matters
        only to a primary with an enrolled custodian. */
    method Commit(change: Change, acknowledged: bool) returns (r: Result<(), Refusal>)
      requires Valid()
      modifies this
      ensures Valid()
      ensures AsReplica() == CommitOutcome(old(AsReplica()), change, acknowledged)
      ensures r.Ok? <==> && Mutate(keyPem, old(Replicated()), change).Ok?
                         && (old(replicaRole) == Some(Primary) && old(replicaPeer).Some? ==> acknowledged)
      ensures r.Ok? ==> Replicated() == Mutate(keyPem, old(Replicated()), change).value
      ensures r.Err? ==> Replicated() == old(Replicated())
      ensures replicaSerial == old(replicaSerial) + 1
      ensures keyPem == old(keyPem) && replicaRole == old(replicaRole) && replicaPeer == old(replicaPeer)
      ensures activationReadiness == old(activationReadiness)
      ensures declinedActivationNonces == old(declinedActivationNonces)
    {
      ghost var was := AsReplica();
      IdleStaysIdle(keyPem, was.gov, change);
      var previous := Export(AsReplica());
      var serial := previous.replicaSerial + 1;
      var done := RunClosure(change);
      if done.Err? {
        ApplyReplicaSnapshot(previous);
        replicaSerial := serial;
        assert AsReplica() == was.(replicaSerial := serial);
        return Err(Refused(done.error));
      }
      replicaSerial := serial;
      if replicaRole == Some(Primary) && replicaPeer.Some? && !acknowledged {
        ApplyReplicaSnapshot(previous);
        replicaSerial := serial;
        assert AsReplica() == was.(replicaSerial := serial);
        return Err(NotAcknowledged);
      }
      assert AsReplica() == was.(gov := Mutate(keyPem, was.gov, change).value, replicaSerial := serial);
      return Ok(());
    }

    // -------------------------------------------------------------------
    // Genesis
    // -------------------------------------------------------------------

    /** The commit of bootstrapGenesisFromAttestedApproval; `approved` stands for the checks of the adjudication
        and its attestation. What it leaves behind is a holder of a lineage of one certificate. */
    method BootstrapGenesis(approved: bool, acknowledged: bool) returns (r: Result<(), Refusal>)
      requires Valid()
      modifies this
      ensures Valid()
      ensures r.Ok? <==> && old(status) == Inactive && old(lineage) == [] && approved
                         && (old(replicaRole) == Some(Primary) && old(replicaPeer).Some? ==> acknowledged)
      ensures r.Ok? ==> && Holder(keyPem, Replicated())
                        && Replicated() ==
                             old(Replicated()).(status := Active, epoch := 1,
                                                lineage := [Sign(Genesis(1, keyPem, KeyIdOf(keyPem), imageDigest,
                                                                         BROKER_METADATA), keyPem)])
      ensures r.Err? ==> Replicated() == old(Replicated())
      ensures keyPem == old(keyPem) && replicaRole == old(replicaRole) && replicaPeer == old(replicaPeer)
      ensures replicaSerial ==
                old(replicaSerial) + if old(status) == Inactive && old(lineage) == [] && approved then 1 else 0
    {
      if status != Inactive || |lineage| > 0 { return Err(Refused(WrongStatus)); }
      if !approved { return Err(Refused(NoJustification)); }
      var previous := Export(AsReplica());
      var serial := previous.replicaSerial + 1;
      status := Active;
      epoch := 1;
      lineage := [Sign(GenesisPayload(keyPem, imageDigest), keyPem)];
      replicaSerial := serial;
      if replicaRole == Some(Primary) && replicaPeer.Some? && !acknowledged {
        ApplyReplicaSnapshot(previous);
        replicaSerial := serial;
        return Err(NotAcknowledged);
      }
      return Ok(());
    }

    // -------------------------------------------------------------------
    // The predecessor's side of a handoff
    // -------------------------------------------------------------------

    /** The last commit of completeActivation; an approved candidate gets its certificate and a bundle that
        carries exactly the tenants held when it was certified. */
    method CompleteActivation(offer: Offer, now: Time, acknowledged: bool) returns (r: Result<Sealed, Refusal>)
      requires Valid()
      modifies this
      ensures Valid()
      ensures AsReplica() == CommitOutcome(old(AsReplica()), Certify(offer, now), acknowledged)
      ensures r.Ok? <==> && old(status) == Active
                         && (old(replicaRole) == Some(Primary) && old(replicaPeer).Some? ==> acknowledged)
      ensures r.Ok? ==> && pendingSuccessorActivation.Some?
                        && r.value == SealFor(keyPem, old(Replicated()), pendingSuccessorActivation.value)
                        && CertifiesAndSeals(keyPem, old(epoch), old(lineage), offer, now, r.value)
                        && r.value.tenants == old(tenants)
    {
      var pending := PendingFor(keyPem, epoch, offer, now);
      var bundle := SealFor(keyPem, Replicated(), pending);
      var done := Commit(Certify(offer, now), acknowledged);
      return match done case Ok(_) => Ok(bundle) case Err(e) => Err(e);
    }

    /** finalizeActivation: its checks, the commit that records the proof, and the commit that retires. */
    method FinalizeActivation(proof: Envelope, now: Time, proofAcknowledged: bool, retirementAcknowledged: bool)
      returns (r: Result<Envelope, Refusal>)
      requires Valid()
      modifies this
      ensures Valid()
      ensures FinalizeCheck(old(Replicated()), proof).Err? ==> r.Err? && AsReplica() == old(AsReplica())
      ensures FinalizeCheck(old(Replicated()), proof).Ok? ==>
                var was := old(AsReplica());
                var changes := FinalizeChanges(was.gov, FinalizeCheck(was.gov, proof).value, proof, now);
                var firstAcknowledged := if |changes| == 2 then proofAcknowledged else retirementAcknowledged;
                var first := CommitOutcome(was, changes[0], firstAcknowledged);
                if |changes| == 1 || (NeedsAck(was) && !proofAcknowledged) then AsReplica() == first
                else AsReplica() == CommitOutcome(first, changes[1], retirementAcknowledged)
      ensures r.Ok? ==> status == Retired && latestRetirementCertificate == Some(r.value)
      ensures r.Ok? ==> && proof.payload.ActivationProof?
                        && r.value == Sign(Retirement(old(epoch), KeyIdOf(keyPem), old(epoch) + 1,
                                                      KeyIdOf(proof.signature.signer),
                                                      proof.payload.successorPayload, now), keyPem)
      ensures r.Err? ==> status == old(status) || ProofRecorded(Replicated())
    {
      var reopened := if status == Active then expiredSuccessorActivation else None;
      if status != ActivatingSuccessor && reopened.None? { return Err(Refused(WrongStatus)); }
      if reopened.None? && pendingSuccessorActivation.None? { return Err(Refused(WrongStatus)); }
      var pending := if reopened.Some? then reopened.value else pendingSuccessorActivation.value;
      var checked := FinalizeCheck(Replicated(), proof);
      if checked.Err? { return Err(Refused(checked.error)); }
      if reopened.Some? {
        var recorded := Commit(Reopen(pending.successorPayload, proof), proofAcknowledged);
        if recorded.Err? { return Err(recorded.error); }
      } else if pending.activationProof.None? {
        var recorded := Commit(RecordProof(pending.successorPayload, proof), proofAcknowledged);
        if recorded.Err? { return Err(recorded.error); }
      }
      var retired := Commit(Retire(pending.successorPayload, now), retirementAcknowledged);
      if retired.Err? { return Err(retired.error); }
      return Ok(latestRetirementCertificate.value);
    }

    /** issueTenantAdmission: what is returned was admitted under the lineage it names. */
    method IssueTenantAdmission(request: AdmissionRequest, now: Time, ttlMs: Time, acknowledged: bool)
      returns (r: Result<Envelope, Refusal>)
      requires Valid()
      modifies this
      ensures Valid()
      ensures r.Ok? <==> && old(status) == Active
                         && (request.tenant in old(tenants) ==>
                               SameKeys(old(tenants)[request.tenant].tenantRouteSigningKeys, request.keys))
                         && WellStated(Asked(request))
                         && (old(replicaRole) == Some(Primary) && old(replicaPeer).Some? ==> acknowledged)
      ensures r.Ok? ==> && r.value ==
                             Sign(Asked(request).(governanceEpoch := old(epoch), governanceKeyId := KeyIdOf(keyPem),
                                                  governanceLineage := old(lineage), issuedAt := now,
                                                  expiresAt := now + ttlMs), keyPem)
                        && AsReplica() == CommitOutcome(old(AsReplica()), Admit(r.value), acknowledged)
      ensures r.Err? ==> Replicated() == old(Replicated())
    {
      if request.tenant in tenants {
        FingerprintsTellKeys(tenants[request.tenant].tenantRouteSigningKeys, request.keys);
      }
      InputOkExactly(Asked(request));
      if status != Active { return Err(Refused(WrongStatus)); }
      if ReplacesTenantKey(tenants, request.tenant, request.keys) { return Err(Refused(KeyReplacement)); }
      if !RequestOk(request) {
        return Err(Refused(NotAnAdmission));
      }
      var envelope := AdmissionEnvelope(keyPem, Replicated(), request, now, ttlMs);
      var done := Commit(Admit(envelope), acknowledged);
      return match done case Ok(_) => Ok(envelope) case Err(e) => Err(e);
    }

    // -------------------------------------------------------------------
    // The candidate's side of a handoff
    // -------------------------------------------------------------------

    method IssueActivationReadiness(nonce: Nonce) returns (r: Result<(), CandidateRefusal>)
      requires Valid()
      modifies this`activationReadiness
      ensures Valid()
      ensures r.Ok? <==> status == Inactive && lineage == [] && nonce !in declinedActivationNonces
      ensures activationReadiness ==
                if r.Ok? then RememberReadiness(old(activationReadiness), nonce) else old(activationReadiness)
    {
      if status != Inactive || |lineage| > 0 { return Err(NotACandidate); }
      if nonce in declinedActivationNonces { return Err(AlreadyDeclined); }
      if nonce !in activationReadiness {
        activationReadiness := activationReadiness + [nonce];
      }
      activationReadiness := ForgetBeyondLimit(activationReadiness);
      return Ok(());
    }

    method DeclineActivation(nonce: Nonce, now: Time) returns (r: Result<Envelope, CandidateRefusal>)
      requires Valid()
      modifies this`declinedActivationNonces
      ensures Valid()
      ensures r.Ok? <==> status == Inactive && lineage == []
      ensures r.Ok? ==> r.value == Sign(Decline(nonce, imageDigest, KeyIdOf(keyPem), now), keyPem)
      ensures declinedActivationNonces == old(declinedActivationNonces) + if r.Ok? then {nonce} else {}
    {
      if status != Inactive || |lineage| > 0 { return Err(NotACandidate); }
      declinedActivationNonces := declinedActivationNonces + {nonce};
      return Ok(Sign(DeclinePayload(AsCandidate(), nonce, now), keyPem));
    }

    /** What the closure of applyActivationBundle assigns. */
    method RunApply(certificate: Envelope, sealed: Sealed, nonce: Nonce, now: Time) returns (proof: Envelope)
      requires sealed.aad.successorPayload == certificate.payloadDigest
      modifies this`status, this`epoch, this`lineage, this`tenants,
               this`latestSuccessorCertificate, this`latestActivationProof
      ensures Replicated() == Applied(old(AsCandidate()), certificate, sealed, nonce, now).gov
      ensures latestActivationProof == Some(proof)
    {
      status := Active;
      epoch := sealed.epoch;
      lineage := sealed.lineage;
      tenants := sealed.tenants;
      latestSuccessorCertificate := Some(certificate);
      var digest := certificate.payloadDigest;
      proof := Sign(ActivationProof(epoch, KeyIdOf(keyPem), digest, nonce, imageDigest, lineage, now), keyPem);
      latestActivationProof := Some(proof);
    }

    /** applyActivationBundle: a candidate that applies becomes active with the state it was sent, and keeps the
        proof it returns; one that refuses is left as it was. */
    method ApplyActivationBundle(certificate: Envelope, sealed: Sealed, nonce: Nonce, now: Time, acknowledged: bool)
      returns (r: Result<Envelope, CandidateRefusal>)
      requires Valid()
      modifies this
      ensures Valid()
      ensures r.Ok? <==> && ApplyCheck(old(AsCandidate()), certificate, sealed, nonce, now).Ok?
                         && (old(replicaRole) == Some(Primary) && old(replicaPeer).Some? ==> acknowledged)
      ensures AsCandidate() ==
                if r.Ok? then Applied(old(AsCandidate()), certificate, sealed, nonce, now) else old(AsCandidate())
      ensures r.Ok? ==> latestActivationProof == Some(r.value)
      ensures replicaSerial == old(replicaSerial) +
                if ApplyCheck(old(AsCandidate()), certificate, sealed, nonce, now).Ok? then 1 else 0
      ensures replicaRole == old(replicaRole) && replicaPeer == old(replicaPeer)
    {
      var checked := ApplyCheck(AsCandidate(), certificate, sealed, nonce, now);
      if checked.Err? { return Err(CannotApply(checked.error)); }
      var previous := Export(AsReplica());
      var serial := previous.replicaSerial + 1;
      var proof := RunApply(certificate, sealed, nonce, now);
      replicaSerial := serial;
      if replicaRole == Some(Primary) && replicaPeer.Some? && !acknowledged {
        ApplyReplicaSnapshot(previous);
        replicaSerial := serial;
        return Err(ProofNotAcknowledged);
      }
      return Ok(proof);
    }

    // -------------------------------------------------------------------
    // Custody
    // -------------------------------------------------------------------

    method ApplyReplicaCustodyTransfer(key: Pem, snapshot: Snapshot, role: Role, boundLineage: seq<Envelope>)
      returns (r: Result<(), CustodyError>)
      requires Valid()
      modifies this
      ensures Valid()
      ensures r.Ok? <==> AcceptCustody(old(AsReplica()), key, snapshot, role, boundLineage).Ok?
      ensures AsReplica() ==
                match AcceptCustody(old(AsReplica()), key, snapshot, role, boundLineage)
                case Ok(replica) => replica
                case Err(_) => old(AsReplica())
    {
      if status != Inactive || |lineage| > 0 { return Err(NotFresh); }
      var verified := VerifyReplicaSnapshot(snapshot);
      if verified.Err? { return Err(BadSnapshot); }
      if verified.value != key { return Err(CustodyError.WrongKey); }
      if snapshot.gov.lineage != boundLineage { return Err(UnboundLineage); }
      keyPem := key;
      ApplyReplicaSnapshot(snapshot);
      replicaRole := Some(role);
      return Ok(());
    }

    /** verifyReplicaSnapshot: the key the snapshot's lineage names. */
    static method VerifyReplicaSnapshot(snapshot: Snapshot) returns (r: Result<Pem, CustodyError>)
      ensures r.Ok? <==> SnapshotOk(snapshot)
      ensures r.Ok? ==> r.value == CurrentKey(snapshot.gov.lineage)
    {
      if snapshot.gov.status == Inactive { return Err(BadSnapshot); }
      var verified := VerifyLineage(snapshot.gov.lineage, 0, false);
      if verified.Err? || verified.value.currentEpoch != snapshot.gov.epoch { return Err(BadSnapshot); }
      return Ok(verified.value.currentGovernancePublicKeyPem);
    }

    method ApplyReplicaSync(snapshot: Snapshot) returns (r: Result<nat, CustodyError>)
      requires Valid()
      modifies this
      ensures Valid()
      ensures r.Ok? <==> AcceptSync(old(AsReplica()), snapshot).Ok?
      ensures AsReplica() ==
                match AcceptSync(old(AsReplica()), snapshot)
                case Ok(replica) => replica
                case Err(_) => old(AsReplica())
      ensures r.Ok? ==> r.value == snapshot.replicaSerial
    {
      if replicaRole != Some(Custodian) { return Err(NotCustodian); }
      if status == Inactive { return Err(NoLineage); }
      var verified := VerifyReplicaSnapshot(snapshot);
      if verified.Err? { return Err(BadSnapshot); }
      if snapshot.replicaSerial <= replicaSerial { return Err(NotNewer); }
      if |snapshot.gov.lineage| < |lineage| || snapshot.gov.lineage[..|lineage|] != lineage {
        return Err(NotAnExtension);
      }
      ApplyReplicaSnapshot(snapshot);
      return Ok(replicaSerial);
    }

    method PromoteReplicaToPrimary() returns (r: Result<(), CustodyError>)
      requires Valid()
      modifies this`replicaRole, this`replicaPeer
      ensures Valid()
      ensures r.Ok? <==> Promote(old(AsReplica())).Ok?
      ensures AsReplica() == match Promote(old(AsReplica())) case Ok(replica) => replica case Err(_) => old(AsReplica())
    {
      if replicaRole != Some(Custodian) { return Err(NotCustodian); }
      if status != Active { return Err(NotActive); }
      replicaRole := Some(Primary);
      replicaPeer := None;
      return Ok(());
    }

    method RecordReplicaPeer(peer: Option<Pem>)
      modifies this`replicaPeer
      ensures AsReplica() == old(AsReplica()).(peer := peer)
    {
      replicaPeer := peer;
    }

    /** serveCustodyRequest after the requester's attestation: what it seals, and whom it records. */
    method ServeCustodyRequest(requester: Pem) returns (r: Result<(Snapshot, Role), CustodyError>)
      modifies this`replicaPeer
      ensures r.Ok? <==> old(status) == Active || old(status) == ActivatingSuccessor
      ensures r.Ok? ==> && r.value == (Export(old(AsReplica())),
                                       if old(replicaRole) == Some(Primary) then Custodian else Primary)
                        && AsReplica() == old(AsReplica()).(peer := Some(requester))
      ensures r.Err? ==> AsReplica() == old(AsReplica())
    {
      if status != Active && status != ActivatingSuccessor { return Err(NoLineage); }
      var role := if replicaRole == Some(Primary) then Custodian else Primary;
      var snapshot := Export(AsReplica());
      RecordReplicaPeer(Some(requester));
      return Ok((snapshot, role));
    }

    /** pullCustodyFromPeer: a fresh process asks a peer for custody, takes its key and state in the opposite role,
        and each records the other; a refusal leaves this process as it was. */
    method PullCustodyFromPeer(sender: GovernanceState) returns (r: Result<(), CustodyError>)
      requires Valid() && sender != this
      modifies this, sender`replicaPeer
      ensures Valid()
      ensures r.Ok? <==> && (old(sender.status) == Active || old(sender.status) == ActivatingSuccessor)
                         && old(status) == Inactive && old(lineage) == []
                         && ValidLineage(old(sender.lineage)) && old(sender.epoch) == |old(sender.lineage)|
                         && CurrentKey(old(sender.lineage)) == old(sender.keyPem)
      ensures r.Ok? ==> && keyPem == sender.keyPem && Replicated() == old(sender.Replicated())
                        && replicaSerial == old(sender.replicaSerial) && replicaPeer == Some(sender.activationPem)
                        && replicaRole == Some(if old(sender.replicaRole) == Some(Primary) then Custodian else Primary)
      ensures var was, from := old(AsReplica()), old(sender.AsReplica());
              AsReplica() == if r.Ok? then AcceptedFrom(was, from).value.(peer := Some(sender.activationPem)) else was
      ensures sender.AsReplica() ==
                if (old(sender.status) == Active || old(sender.status) == ActivatingSuccessor)
                   && old(status) == Inactive && old(lineage) == []
                then old(sender.AsReplica()).(peer := Some(activationPem)) else old(sender.AsReplica())
    {
      if status != Inactive || |lineage| > 0 { return Err(NotFresh); }
      var served := sender.ServeCustodyRequest(activationPem);
      if served.Err? { return Err(served.error); }
      var snapshot, role := served.value.0, served.value.1;
      r := ApplyReplicaCustodyTransfer(sender.keyPem, snapshot, role, snapshot.gov.lineage);
      if r.Ok? {
        RecordReplicaPeer(Some(sender.activationPem));
      }
    }
  }
}
