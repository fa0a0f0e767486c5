/** A predecessor and any number of candidates over a network that loses, delays and
    repeats messages, each party reading its own clock. */
module Handoff {
  import opened Prelude
  import opened Lineage
  import opened Governance
  import opened GovernanceHistory
  import opened Candidate

  /** What has happened to a certificate, by its payload; `Activated` carries the bundle applied. */
  datatype Happening =
    | Certified(payload: Payload)
    | Activated(bundle: Sealed)
    | AbortedOnDecline(payload: Payload)
    | AbortedOnExpiry(payload: Payload)
    | Recorded(payload: Payload)
    | Finished(payload: Payload)

  /** No reading a step uses is more than `skew` ahead of `clock`, and what a candidate reads when it applies is not
      behind it: `skew` covers how far two clocks differ and how long an apply waits between its reading and its
      commit. The predecessor's readings may be as old as they like. `sealed` and `signed` hold every bundle the
      predecessor produced and every decline and proof a candidate signed: any of them may arrive at any later time,
      or never. `outdated` holds the bundles sealed before the last admission. */
  datatype Joint = Joint(key: Pem, pred: Gov, cands: map<Pem, Candidate>, skew: nat, clock: Time,
                         sealed: set<Sealed>, signed: set<Envelope>, log: seq<Happening>,
                         last: Option<Sealed>, outdated: set<Sealed>)

  datatype Event =
    | Tick(to: Time)
    | Housekeeping(change: Change)
    | CertifyCandidate(candidate: Pem, nonce: Nonce, now: Time)
    | AbortPending(request: AbortRequest, now: Time)
    | RecordSuccessorProof(proof: Envelope)
    | RetirePredecessor(proof: Envelope, now: Time)
    | IssueReadiness(candidate: Pem, nonce: Nonce)
    | DeclineNonce(candidate: Pem, nonce: Nonce, now: Time)
    | ApplyBundle(candidate: Pem, certificate: Envelope, bundle: Sealed, nonce: Nonce, now: Time)
    | SuccessorChange(candidate: Pem, change: Change)

  predicate NotAhead(j: Joint, now: Time) {
    now <= j.clock + j.skew
  }

  predicate Reads(j: Joint, now: Time) {
    j.clock <= now && NotAhead(j, now)
  }

  /** Signatures of candidates cannot be forged. */
  predicate Genuine(j: Joint, envelope: Envelope) {
    envelope.signature.signer in j.cands && VerifyEnvelope(envelope, envelope.signature.signer) ==> envelope in j.signed
  }

  function Step(j: Joint, e: Event): Joint {
    match e
    case Tick(to) => if to < j.clock then j else j.(clock := to)
    case Housekeeping(change) => StepHousekeeping(j, change)
    case CertifyCandidate(candidate, nonce, now) =>
      if NotAhead(j, now) then StepCertify(j, candidate, nonce, now) else j
    case AbortPending(request, now) => if NotAhead(j, now) then StepAbort(j, request, now) else j
    case RecordSuccessorProof(proof) => StepRecord(j, proof)
    case RetirePredecessor(proof, now) => StepRetire(j, proof, now)
    case IssueReadiness(candidate, nonce) => StepReadiness(j, candidate, nonce)
    case DeclineNonce(candidate, nonce, now) => StepDecline(j, candidate, nonce, now)
    case ApplyBundle(candidate, certificate, bundle, nonce, now) =>
      if Reads(j, now) then StepApply(j, candidate, certificate, bundle, nonce, now) else j
    case SuccessorChange(candidate, change) => StepSuccessor(j, candidate, change)
  }

  /** Admissions, preapprovals and background commits of the predecessor. */
  function StepHousekeeping(j: Joint, change: Change): Joint {
    if !change.Preapprove? && !change.Admit? && !change.Background? then j
    else
      match Mutate(j.key, j.pred, change)
      case Err(_) => j
      case Ok(g) => j.(pred := g, outdated := if change.Admit? then j.sealed else j.outdated)
  }

  function StepCertify(j: Joint, candidate: Pem, nonce: Nonce, now: Time): Joint {
    if candidate !in j.cands then j
    else
      var c := j.cands[candidate];
      match Mutate(j.key, j.pred, Certify(Offer(c.key, c.activationKey, c.imageDigest, nonce), now))
      case Err(_) => j
      case Ok(g) => Issue(j, g)
  }

  /** The certified candidate's bundle exists from here on, delivered or not. */
  function Issue(j: Joint, g: Gov): Joint {
    if g.pending.None? then j
    else
      var bundle := SealFor(j.key, j.pred, g.pending.value);
      j.(pred := g, sealed := j.sealed + {bundle}, last := Some(bundle),
         log := j.log + [Certified(g.pending.value.successorPayload)])
  }

  function StepAbort(j: Joint, request: AbortRequest, now: Time): Joint {
    if (request.ByDecline? && !Genuine(j, request.decline)) || j.pred.pending.None? then j
    else
      match Mutate(j.key, j.pred, Abort(request, now))
      case Err(_) => j
      case Ok(g) =>
        var payload := j.pred.pending.value.successorPayload;
        var happening := if request.ByDecline? then AbortedOnDecline(payload) else AbortedOnExpiry(payload);
        j.(pred := g, log := j.log + [happening])
  }

  /** The first commit of finalizeActivation. */
  function StepRecord(j: Joint, proof: Envelope): Joint {
    if !Genuine(j, proof) || ProofRecorded(j.pred) then j
    else
      match FinalizeCheck(j.pred, proof)
      case Err(_) => j
      case Ok(pending) =>
        match Mutate(j.key, j.pred, FinalizeChanges(j.pred, pending, proof, 0)[0])
        case Err(_) => j
        case Ok(g) => j.(pred := g, log := j.log + [Recorded(pending.successorPayload)])
  }

  /** Its last commit. A call that found the proof recorded by a commit that has failed since makes this one alone;
      the record it leaves is the same. */
  function StepRetire(j: Joint, proof: Envelope, now: Time): Joint {
    if j.pred.status != ActivatingSuccessor then j
    else StepFinish(if ProofRecorded(j.pred) then j else StepRecord(j, proof), proof, now)
  }

  function StepFinish(j: Joint, proof: Envelope, now: Time): Joint {
    if !Genuine(j, proof) || !ProofRecorded(j.pred) then j
    else
      match FinalizeCheck(j.pred, proof)
      case Err(_) => j
      case Ok(pending) =>
        match Mutate(j.key, j.pred, Retire(pending.successorPayload, now))
        case Err(_) => j
        case Ok(g) => j.(pred := g, log := j.log + [Finished(pending.successorPayload)])
  }

  function StepReadiness(j: Joint, candidate: Pem, nonce: Nonce): Joint {
    if candidate !in j.cands then j
    else
      var c := j.cands[candidate];
      if c.gov.status != Inactive || |c.gov.lineage| > 0 || nonce in c.declined then j
      else j.(cands := j.cands[candidate := c.(readiness := RememberReadiness(c.readiness, nonce))])
  }

  function StepDecline(j: Joint, candidate: Pem, nonce: Nonce, now: Time): Joint {
    if candidate !in j.cands then j
    else
      var c := j.cands[candidate];
      if c.gov.status != Inactive || |c.gov.lineage| > 0 then j
      else j.(cands := j.cands[candidate := c.(declined := c.declined + {nonce})],
              signed := j.signed + {Sign(DeclinePayload(c, nonce, now), c.key)})
  }

  /** The certificate beside the bundle may be anything; the bundle is one the predecessor sealed. */
  function StepApply(j: Joint, candidate: Pem, certificate: Envelope, bundle: Sealed, nonce: Nonce, now: Time): Joint {
    if candidate !in j.cands || bundle !in j.sealed then j
    else
      var c := j.cands[candidate];
      if ApplyCheck(c, certificate, bundle, nonce, now).Err? then j
      else j.(cands := j.cands[candidate := Applied(c, certificate, bundle, nonce, now)],
              signed := j.signed + {Sign(ProofPayload(c, bundle, nonce, now), c.key)},
              log := j.log + [Activated(bundle)])
  }

  /** A successor lives on after its activation. */
  function StepSuccessor(j: Joint, candidate: Pem, change: Change): Joint {
    if candidate !in j.cands || j.cands[candidate].gov.status == Inactive then j
    else
      var c := j.cands[candidate];
      match Mutate(c.key, c.gov, change)
      case Err(_) => j
      case Ok(g) => j.(cands := j.cands[candidate := c.(gov := g)])
  }

  function Run(j: Joint, events: seq<Event>): Joint {
    if |events| == 0 then j else Step(Run(j, events[..|events| - 1]), events[|events| - 1])
  }

  /** An active predecessor with no handoff behind it, and freshly booted candidates. */
  predicate Initial(j: Joint) {
    && Holder(j.key, j.pred) && j.pred.status == Active && j.pred.expired.None?
    && (forall k :: k in j.cands ==> j.cands[k].key == k && j.cands[k].gov == FRESH
                                     && j.cands[k].readiness == [] && j.cands[k].declined == {})
    && j.sealed == {} && j.signed == {} && j.log == [] && j.last == None && j.outdated == {}
  }
}
