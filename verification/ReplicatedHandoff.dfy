/** A handoff whose predecessor is replicated: the two slots of `Replication` make its changes, in
    commits that may be lost, reverted, re-keyed or promoted past, while the candidates of `Handoff`
    go their own way. What the log's tip says is what the predecessor has done. */
module ReplicatedHandoff {
  import opened Prelude
  import opened Lineage
  import opened Governance
  import opened GovernanceHistory
  import opened Replica
  import opened Replication
  import opened ReplicationSafety
  import opened ReplicationTheorems
  import opened Handoff

  /** `joint` is what the candidates have done, and what the predecessor's released changes have. */
  datatype System = System(replicas: World, joint: Joint)

  datatype Occurrence =
    | Replicates(commit: Replication.Event)
    | Proceeds(step: Handoff.Event)

  /** The first commit of a finalize that has passed its checks on the record `g`. */
  predicate Finalizes(j: Joint, g: Gov, change: Change, proof: Envelope) {
    && !ProofRecorded(g) && Genuine(j, proof) && FinalizeCheck(g, proof).Ok?
    && change == FinalizeChanges(g, FinalizeCheck(g, proof).value, proof, 0)[0]
  }

  /** And the last one, whether or not the record still shows the first. */
  predicate Retires(j: Joint, g: Gov, payload: Payload, proof: Envelope) {
    && g.status == ActivatingSuccessor && Genuine(j, proof) && FinalizeCheck(g, proof).Ok?
    && FinalizeCheck(g, proof).value.successorPayload == payload
  }

  /** The operation that commits `change` on a replica with the record `g` makes these checks before. */
  ghost predicate Vetted(j: Joint, g: Gov, change: Change) {
    match change
    case Preapprove(_) => true
    case Admit(_) => true
    case Background => true
    case Certify(offer, now) =>
      && NotAhead(j, now) && offer.publicKeyPem in j.cands
      && var c := j.cands[offer.publicKeyPem];
         offer == Offer(c.key, c.activationKey, c.imageDigest, offer.activationNonce)
    case Abort(request, now) => NotAhead(j, now) && (request.ByDecline? ==> Genuine(j, request.decline))
    case RecordProof(_, proof) => Finalizes(j, g, change, proof)
    case Reopen(_, proof) => Finalizes(j, g, change, proof)
    case Retire(payload, _) => exists proof :: Retires(j, g, payload, proof)
  }

  /** What a released change is to the handoff. */
  ghost function EventOf(j: Joint, change: Change): Handoff.Event
    requires Vetted(j, j.pred, change)
  {
    match change
    case Preapprove(_) => Housekeeping(change)
    case Admit(_) => Housekeeping(change)
    case Background => Housekeeping(change)
    case Certify(offer, now) => CertifyCandidate(offer.publicKeyPem, offer.activationNonce, now)
    case Abort(request, now) => AbortPending(request, now)
    case RecordProof(_, proof) => RecordSuccessorProof(proof)
    case Reopen(_, proof) => RecordSuccessorProof(proof)
    case Retire(payload, now) => var proof :| Retires(j, j.pred, payload, proof); RetirePredecessor(proof, now)
  }

  predicate OfCandidates(e: Handoff.Event) {
    e.Tick? || e.IssueReadiness? || e.DeclineNonce? || e.ApplyBundle? || e.SuccessorChange?
  }

  /** A release that moves the log's tip is what the rest of the world sees of the predecessor. */
  ghost function Advance(j: Joint, before: History, after: History): Joint {
    if |before| < |after| && Vetted(j, j.pred, after[|before|])
      then Handoff.Step(j, EventOf(j, after[|before|])) else j
  }

  /** A change that is not vetted is not begun. */
  ghost predicate Begins(sys: System, e: Replication.Event) {
    e.BeginCommit? ==> Vetted(sys.joint, At(sys.replicas, e.slot).replica.gov, e.change)
  }

  ghost function Step(sys: System, o: Occurrence): System {
    match o
    case Replicates(e) =>
      if !Begins(sys, e) then sys
      else
        var after := Replication.Step(ALL, sys.replicas, e);
        System(after, Advance(sys.joint, sys.replicas.tip, after.tip))
    case Proceeds(e) => if OfCandidates(e) then sys.(joint := Handoff.Step(sys.joint, e)) else sys
  }

  ghost function Run(sys: System, occurrences: seq<Occurrence>): System {
    if |occurrences| == 0 then sys
    else Step(Run(sys, occurrences[..|occurrences| - 1]), occurrences[|occurrences| - 1])
  }

  predicate Initial(sys: System) {
    && Replication.Initial(sys.replicas) && Handoff.Initial(sys.joint)
    && sys.joint.key == sys.replicas.key && sys.joint.pred == sys.replicas.start
  }

  // ---------------------------------------------------------------------
  // Nothing is released that was not vetted
  // ---------------------------------------------------------------------

  /** Every history some replica holds or could still be sent. */
  function InPlay(w: World): set<History> {
    {w.a.history, w.b.history, Base(w.a), Base(w.b)} + (set m | m in w.net && !m.Ack? :: m.history)
  }

  /** The history a commit begins with `change`. */
  function Begun(w: World, e: Replication.Event): set<History> {
    if e.BeginCommit? && CanCommit(At(w, e.slot)) then {At(w, e.slot).history + [e.change]} else {}
  }

  lemma BeginInPlay(w: World, s: Slot, change: Change)
    ensures InPlay(StepBegin(w, s, change)) <= InPlay(w) + {[]} + Begun(w, BeginCommit(s, change))
  {
  }

  lemma StepInPlay(w: World, e: Replication.Event)
    ensures InPlay(Replication.Step(ALL, w, e)) <= InPlay(w) + {[]} + Begun(w, e)
  {
    if e.BeginCommit? {
      BeginInPlay(w, e.slot, e.change);
    }
  }

  /** At most one change ahead of the log, and then by one that was vetted. */
  ghost predicate InOrder(sys: System, h: History) {
    && |h| <= |sys.replicas.tip| + 1
    && (OneAhead(h, sys.replicas.tip) ==> Vetted(sys.joint, sys.joint.pred, h[|sys.replicas.tip|]))
  }

  /** The joint record of the predecessor is the log's tip. */
  ghost predicate Inv(sys: System) {
    var w := sys.replicas;
    && ReplicationSafety.Inv(w) && sys.joint.key == w.key && sys.joint.pred == Replay(w.key, w.start, w.tip)
    && forall h :: h in InPlay(w) ==> InOrder(sys, h)
  }

  /** A log that moves, moves on by one change: to a history in play, or to a commit with nobody to replicate to. */
  predicate TipMoves(w: World, e: Replication.Event, tip: History) {
    || tip == w.tip
    || (OneAhead(tip, w.tip) && tip in InPlay(w))
    || (e.BeginCommit? && CanCommit(At(w, e.slot)) && tip == w.tip + [e.change] && At(w, e.slot).history == w.tip)
  }

  lemma BeginMovesTip(w: World, s: Slot, change: Change)
    requires Protocol(w)
    ensures TipMoves(w, BeginCommit(s, change), Replication.Step(ALL, w, BeginCommit(s, change)).tip)
  {
    BothSlots(w, s);
    assert CanCommit(At(w, s)) && At(w, s).replica.peer.None? ==> Leads(w, At(w, s));
  }

  lemma ReleaseMovesTip(w: World, s: Slot)
    requires Protocol(w)
    ensures TipMoves(w, ReleaseCommit(s), Replication.Step(ALL, w, ReleaseCommit(s)).tip)
  {
    var w' := StepRelease(w, s);
    if Acknowledged(w, At(w, s)) {
      BothSlots(w, s);
      ReleasedTip(w, w', At(w, s), At(w', s), At(w, Opposite(s)));
    }
  }

  lemma ServeMovesTip(w: World, s: Slot)
    requires Protocol(w)
    ensures TipMoves(w, ServeCustody(s), Replication.Step(ALL, w, ServeCustody(s)).tip)
  {
    if CanServe(ALL, w, s) {
      BothSlots(w, s);
      ServerIsCurrent(w, At(w, s), At(w, Opposite(s)));
    }
  }

  lemma PromoteMovesTip(w: World, s: Slot)
    requires Protocol(w)
    ensures TipMoves(w, PromoteCustodian(s), Replication.Step(ALL, w, PromoteCustodian(s)).tip)
  {
    BothSlots(w, s);
    assert Promote(At(w, s).replica).Ok? ==> CustodianOk(w, At(w, s), At(w, Opposite(s)));
  }

  lemma StepMovesTip(w: World, e: Replication.Event)
    requires Protocol(w)
    ensures TipMoves(w, e, Replication.Step(ALL, w, e).tip)
  {
    match e
    case BeginCommit(s, change) => BeginMovesTip(w, s, change);
    case ReleaseCommit(s) => ReleaseMovesTip(w, s);
    case ServeCustody(s) => ServeMovesTip(w, s);
    case PromoteCustodian(s) => PromoteMovesTip(w, s);
    case _ =>
  }

  /** Applied or refused, a vetted change does to the joint record what it does to a replica's. */
  lemma EventMakesChange(j: Joint, change: Change)
    requires Vetted(j, j.pred, change)
    ensures var after := Handoff.Step(j, EventOf(j, change));
            && after.key == j.key
            && match Mutate(j.key, j.pred, change) {
                 case Ok(g) => after.pred == g
                 case Err(_) => after.pred == j.pred
               }
  {
    if change.Retire? {
      RetiringMakesChange(j, change.successorPayload, EventOf(j, change).proof, change.retiredAt);
    }
  }

  lemma RetiringMakesChange(j: Joint, payload: Payload, proof: Envelope, now: Time)
    requires Retires(j, j.pred, payload, proof)
    ensures var after := StepRetire(j, proof, now);
            && after.key == j.key && Mutate(j.key, j.pred, Retire(payload, now)) == Ok(after.pred)
  {
  }

  /** A commit is begun at the log's tip, or further back by a primary that was replaced. */
  lemma CommitterIsInTheLog(w: World, s: Slot)
    requires ReplicationSafety.Inv(w) && CanCommit(At(w, s))
    ensures At(w, s).history <= w.tip && At(w, s).replica.gov == Replay(w.key, w.start, At(w, s).history)
  {
    BothSlots(w, s);
    assert ContentAt(w, At(w, s));
  }

  lemma BegunInOrder(sys: System, s: Slot, change: Change)
    requires Inv(sys) && CanCommit(At(sys.replicas, s)) && Vetted(sys.joint, At(sys.replicas, s).replica.gov, change)
    ensures InOrder(sys, At(sys.replicas, s).history + [change])
    ensures At(sys.replicas, s).history == sys.replicas.tip ==> Vetted(sys.joint, sys.joint.pred, change)
  {
    var history, tip := At(sys.replicas, s).history, sys.replicas.tip;
    CommitterIsInTheLog(sys.replicas, s);
    if OneAhead(history + [change], tip) {
      assert history == tip;
      assert (history + [change])[|tip|] == change;
    }
  }

  /** What is in play after a step that leaves the log where it was. */
  lemma StillInOrder(sys: System, e: Replication.Event, h: History)
    requires Inv(sys) && Begins(sys, e) && h in InPlay(Replication.Step(ALL, sys.replicas, e))
    ensures InOrder(sys, h)
  {
    StepInPlay(sys.replicas, e);
    if h in Begun(sys.replicas, e) {
      BegunInOrder(sys, e.slot, e.change);
    }
  }

  /** The change that moves the log was vetted. */
  lemma MovedByVetted(sys: System, e: Replication.Event)
    requires Inv(sys) && Begins(sys, e)
    ensures var tip := Replication.Step(ALL, sys.replicas, e).tip;
            tip != sys.replicas.tip ==>
              OneAhead(tip, sys.replicas.tip) && Vetted(sys.joint, sys.joint.pred, tip[|sys.replicas.tip|])
  {
    StepMovesTip(sys.replicas, e);
    var tip := Replication.Step(ALL, sys.replicas, e).tip;
    if tip !in InPlay(sys.replicas) && tip != sys.replicas.tip {
      BegunInOrder(sys, e.slot, e.change);
    }
  }

  /** The joint record follows the log. */
  lemma AdvanceFollows(sys: System, tip: History)
    requires Inv(sys) && OneAhead(tip, sys.replicas.tip)
    requires Vetted(sys.joint, sys.joint.pred, tip[|sys.replicas.tip|])
    ensures var after, w := Advance(sys.joint, sys.replicas.tip, tip), sys.replicas;
            after.key == w.key && after.pred == Replay(w.key, w.start, tip)
  {
    EventMakesChange(sys.joint, tip[|sys.replicas.tip|]);
    assert tip[..|tip| - 1] == sys.replicas.tip;
  }

  lemma ReplicationKeepsInv(sys: System, e: Replication.Event)
    requires Inv(sys)
    ensures Inv(Step(sys, Replicates(e)))
  {
    if Begins(sys, e) {
      var w, after := Replication.Step(ALL, sys.replicas, e), Step(sys, Replicates(e));
      ReplicationSafety.StepKeepsInv(sys.replicas, e);
      StepKeepsReleased(ALL, sys.replicas, e);
      MovedByVetted(sys, e);
      if w.tip != sys.replicas.tip {
        AdvanceFollows(sys, w.tip);
      }
      forall h | h in InPlay(w) ensures InOrder(after, h) {
        StillInOrder(sys, e, h);
      }
    }
  }

  /** What a vetted change was checked against stays. */
  predicate GoesOn(j: Joint, j': Joint) {
    && j'.key == j.key && j'.pred == j.pred && j'.skew == j.skew && j.clock <= j'.clock && j.signed <= j'.signed
    && j'.cands.Keys == j.cands.Keys
    && forall k :: k in j.cands ==>
         && j'.cands[k].key == j.cands[k].key && j'.cands[k].activationKey == j.cands[k].activationKey
         && j'.cands[k].imageDigest == j.cands[k].imageDigest
  }

  lemma CandidatesGoOn(j: Joint, e: Handoff.Event)
    requires OfCandidates(e)
    ensures GoesOn(j, Handoff.Step(j, e))
  {
  }

  lemma StaysVetted(j: Joint, j': Joint, change: Change)
    requires GoesOn(j, j') && Vetted(j, j.pred, change)
    ensures Vetted(j', j'.pred, change)
  {
    if change.Retire? {
      var proof :| Retires(j, j.pred, change.successorPayload, proof);
      assert Retires(j', j'.pred, change.successorPayload, proof);
    }
  }

  lemma CandidatesKeepInv(sys: System, e: Handoff.Event)
    requires Inv(sys)
    ensures Inv(Step(sys, Proceeds(e)))
  {
    if OfCandidates(e) {
      var after := Step(sys, Proceeds(e));
      CandidatesGoOn(sys.joint, e);
      forall h | h in InPlay(sys.replicas) ensures InOrder(after, h) {
        if OneAhead(h, sys.replicas.tip) {
          StaysVetted(sys.joint, after.joint, h[|sys.replicas.tip|]);
        }
      }
    }
  }

  lemma StepKeepsInv(sys: System, o: Occurrence)
    requires Inv(sys)
    ensures Inv(Step(sys, o))
  {
    match o
    case Replicates(e) => ReplicationKeepsInv(sys, e);
    case Proceeds(e) => CandidatesKeepInv(sys, e);
  }

  lemma InvInitially(sys: System)
    requires Initial(sys)
    ensures Inv(sys)
  {
    ReplicationSafety.InvInitially(sys.replicas);
    assert InPlay(sys.replicas) == {[]};
  }
}
