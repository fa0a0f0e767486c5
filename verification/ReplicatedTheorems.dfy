/** What a handoff guarantees when its predecessor is replicated, through crashes, lost and late
    messages, reverted commits, re-keying and promotion. */
module ReplicatedTheorems {
  import opened Lineage
  import opened Governance
  import opened GovernanceHistory
  import opened Candidate
  import opened Replication
  import opened ReplicationSafety
  import opened ReplicationTheorems
  import opened Handoff
  import opened HandoffSafety
  import opened HandoffTheorems
  import opened ReplicatedHandoff

  /** The run of the replicas and the run of the handoff that one occurrence amounts to. */
  lemma StepIsBoth(sys: System, o: Occurrence) returns (commits: seq<Replication.Event>, steps: seq<Handoff.Event>)
    ensures |commits| <= 1 && |steps| <= 1
    ensures ReplicatedHandoff.Step(sys, o).replicas ==
              if commits == [] then sys.replicas else Replication.Step(ALL, sys.replicas, commits[0])
    ensures ReplicatedHandoff.Step(sys, o).joint ==
              if steps == [] then sys.joint else Handoff.Step(sys.joint, steps[0])
  {
    commits, steps := [], [];
    match o
    case Replicates(e) =>
      if Begins(sys, e) {
        var tip, after := sys.replicas.tip, Replication.Step(ALL, sys.replicas, e).tip;
        commits := [e];
        if |tip| < |after| && Vetted(sys.joint, sys.joint.pred, after[|tip|]) {
          steps := [EventOf(sys.joint, after[|tip|])];
        }
      }
    case Proceeds(e) => if OfCandidates(e) { steps := [e]; }
  }

  lemma LongerCommits(w: World, commits: seq<Replication.Event>, more: seq<Replication.Event>)
    requires |more| <= 1
    ensures var now := Replication.Run(ALL, w, commits);
            Replication.Run(ALL, w, commits + more) == if more == [] then now else Replication.Step(ALL, now, more[0])
  {
    assert if more == [] then commits + more == commits else (commits + more)[..|commits|] == commits;
  }

  lemma LongerSteps(j: Joint, steps: seq<Handoff.Event>, more: seq<Handoff.Event>)
    requires |more| <= 1
    ensures var now := Handoff.Run(j, steps);
            Handoff.Run(j, steps + more) == if more == [] then now else Handoff.Step(now, more[0])
  {
    assert if more == [] then steps + more == steps else (steps + more)[..|steps|] == steps;
  }

  /** However its commits are lost, reverted or taken over, a replicated predecessor does in every run what one that
      never crashes does in some run: its record is the replay of the log's tip. */
  lemma {:induction false} ReplicatedIsOne(start: System, occurrences: seq<Occurrence>, sys: System)
    returns (commits: seq<Replication.Event>, steps: seq<Handoff.Event>)
    requires ReplicatedHandoff.Initial(start) && sys == ReplicatedHandoff.Run(start, occurrences)
    ensures ReplicatedHandoff.Inv(sys)
    ensures sys.joint.pred == Replay(start.replicas.key, start.replicas.start, sys.replicas.tip)
    ensures sys.replicas == Replication.Run(ALL, start.replicas, commits) && Reached(start.joint, steps, sys.joint)
  {
    commits, steps := [], [];
    if |occurrences| == 0 {
      ReplicatedHandoff.InvInitially(start);
    } else {
      var before, o := ReplicatedHandoff.Run(start, occurrences[..|occurrences| - 1]), occurrences[|occurrences| - 1];
      var commit, step;
      commits, steps := ReplicatedIsOne(start, occurrences[..|occurrences| - 1], before);
      commit, step := StepIsBoth(before, o);
      LongerCommits(start.replicas, commits, commit);
      LongerSteps(start.joint, steps, step);
      ReplicatedHandoff.StepKeepsInv(before, o);
      commits, steps := commits + commit, steps + step;
    }
    RunKeepsConstants(ALL, start.replicas, commits);
  }

  // ---------------------------------------------------------------------
  // What the released histories say of the handoff's log
  // ---------------------------------------------------------------------

  /** Change `k` of the history aborts the certificate with this payload. */
  predicate AbortsAt(w: World, h: History, k: nat, p: Payload) {
    && k < |h| && h[k].Abort?
    && var g := Replay(w.key, w.start, h[..k]);
       g.pending.Some? && g.pending.value.successorPayload == p && Mutate(w.key, g, h[k]).Ok?
  }

  function AbortOf(change: Change, p: Payload): Happening
    requires change.Abort?
  {
    if change.request.ByDecline? then AbortedOnDecline(p) else AbortedOnExpiry(p)
  }

  /** The record has the proof of this certificate's candidate. */
  predicate RecordedIn(g: Gov, p: Payload) {
    ProofRecorded(g) && g.pending.Some? && g.pending.value.successorPayload == p
  }

  /** Every abort and every proof of the log's tip is in the handoff's log. */
  ghost predicate AbortsLogged(w: World, log: seq<Happening>) {
    forall k: nat, p :: AbortsAt(w, w.tip, k, p) ==> AbortOf(w.tip[k], p) in log
  }

  ghost predicate ProofsLogged(w: World, log: seq<Happening>) {
    forall k: nat, p :: k <= |w.tip| && RecordedIn(Replay(w.key, w.start, w.tip[..k]), p) ==> Recorded(p) in log
  }

  ghost predicate Logged(sys: System) {
    AbortsLogged(sys.replicas, sys.joint.log) && ProofsLogged(sys.replicas, sys.joint.log)
  }

  /** `after` is what `change` makes of the handoff, and the log's tip has grown by it. */
  ghost predicate Grows(sys: System, w: World, change: Change, after: Joint) {
    && ReplicatedHandoff.Inv(sys) && Vetted(sys.joint, sys.joint.pred, change)
    && w.key == sys.replicas.key && w.start == sys.replicas.start && w.tip == sys.replicas.tip + [change]
    && after == Handoff.Step(sys.joint, EventOf(sys.joint, change))
  }

  lemma AdvanceLogsAbort(sys: System, w: World, change: Change, after: Joint, p: Payload)
    requires Grows(sys, w, change, after) && AbortsAt(w, w.tip, |sys.replicas.tip|, p)
    ensures AbortOf(change, p) in after.log
  {
    assert w.tip[..|sys.replicas.tip|] == sys.replicas.tip;
    assert after.log[|sys.joint.log|] == AbortOf(change, p);
  }

  lemma GrowingLogsAborts(sys: System, w: World, change: Change, after: Joint)
    requires Grows(sys, w, change, after) && AbortsLogged(sys.replicas, sys.joint.log) && sys.joint.log <= after.log
    ensures AbortsLogged(w, after.log)
  {
    var tip := sys.replicas.tip;
    assert forall h :: h in sys.joint.log ==> h in after.log;
    forall k: nat, p | AbortsAt(w, w.tip, k, p) ensures AbortOf(w.tip[k], p) in after.log {
      if k == |tip| {
        AdvanceLogsAbort(sys, w, change, after, p);
      } else {
        assert w.tip[..k] == tip[..k];
        assert AbortsAt(sys.replicas, tip, k, p);
      }
    }
  }

  lemma GrowingLogsProofs(sys: System, w: World, after: Joint)
    requires w.key == sys.replicas.key && w.start == sys.replicas.start && OneAhead(w.tip, sys.replicas.tip)
    requires ProofsLogged(sys.replicas, sys.joint.log) && sys.joint.log <= after.log
    requires PredOk(after) && after.pred == Replay(w.key, w.start, w.tip)
    ensures ProofsLogged(w, after.log)
  {
    var tip := sys.replicas.tip;
    assert forall h :: h in sys.joint.log ==> h in after.log;
    forall k: nat, p | k <= |w.tip| && RecordedIn(Replay(w.key, w.start, w.tip[..k]), p)
      ensures Recorded(p) in after.log
    {
      if k == |w.tip| {
        assert w.tip[..k] == w.tip;
      } else {
        assert w.tip[..k] == tip[..k];
      }
    }
  }

  lemma SameTipStaysLogged(w: World, w': World, log: seq<Happening>)
    requires w'.key == w.key && w'.start == w.start && w'.tip == w.tip && AbortsLogged(w, log) && ProofsLogged(w, log)
    ensures AbortsLogged(w', log) && ProofsLogged(w', log)
  {
    assert forall k: nat, p :: AbortsAt(w', w'.tip, k, p) ==> AbortsAt(w, w.tip, k, p);
  }

  lemma GrowingStaysLogged(sys: System, w: World, change: Change, after: Joint)
    requires Grows(sys, w, change, after) && HandoffSafety.Inv(sys.joint) && Logged(sys)
    ensures AbortsLogged(w, after.log) && ProofsLogged(w, after.log)
  {
    assert w.tip[|sys.replicas.tip|] == change;
    StepKeepsLog(sys.joint, EventOf(sys.joint, change));
    HandoffTheorems.StepKeepsInv(sys.joint, EventOf(sys.joint, change));
    AdvanceFollows(sys, w.tip);
    GrowingLogsAborts(sys, w, change, after);
    GrowingLogsProofs(sys, w, after);
  }

  /** A step of the replicas leaves the log alone, or both it and the handoff go on by the same change. */
  ghost predicate SameTipOrGrows(sys: System, after: System) {
    && after.replicas.key == sys.replicas.key && after.replicas.start == sys.replicas.start
    && if after.replicas.tip == sys.replicas.tip then after.joint == sys.joint
       else |sys.replicas.tip| < |after.replicas.tip|
            && Grows(sys, after.replicas, after.replicas.tip[|sys.replicas.tip|], after.joint)
  }

  lemma AdvanceGrows(sys: System, w: World)
    requires ReplicatedHandoff.Inv(sys) && w.key == sys.replicas.key && w.start == sys.replicas.start
    requires w.tip != sys.replicas.tip ==>
               OneAhead(w.tip, sys.replicas.tip) && Vetted(sys.joint, sys.joint.pred, w.tip[|sys.replicas.tip|])
    ensures SameTipOrGrows(sys, System(w, Advance(sys.joint, sys.replicas.tip, w.tip)))
  {
    assert w.tip != sys.replicas.tip ==> w.tip == sys.replicas.tip + [w.tip[|sys.replicas.tip|]];
  }

  lemma ReplicationGrows(sys: System, e: Replication.Event)
    requires ReplicatedHandoff.Inv(sys)
    ensures SameTipOrGrows(sys, ReplicatedHandoff.Step(sys, Replicates(e)))
  {
    if Begins(sys, e) {
      StepKeepsReleased(ALL, sys.replicas, e);
      MovedByVetted(sys, e);
      AdvanceGrows(sys, Replication.Step(ALL, sys.replicas, e));
    }
  }

  lemma ReplicationKeepsLogged(sys: System, e: Replication.Event)
    requires ReplicatedHandoff.Inv(sys) && HandoffSafety.Inv(sys.joint) && Logged(sys)
    ensures Logged(ReplicatedHandoff.Step(sys, Replicates(e)))
  {
    var after := ReplicatedHandoff.Step(sys, Replicates(e));
    ReplicationGrows(sys, e);
    if after.replicas.tip == sys.replicas.tip {
      SameTipStaysLogged(sys.replicas, after.replicas, sys.joint.log);
    } else {
      GrowingStaysLogged(sys, after.replicas, after.replicas.tip[|sys.replicas.tip|], after.joint);
    }
  }

  lemma CandidatesKeepLogged(sys: System, e: Handoff.Event)
    requires Logged(sys)
    ensures Logged(ReplicatedHandoff.Step(sys, Proceeds(e)))
  {
    StepKeepsLog(sys.joint, e);
    assert forall h :: h in sys.joint.log ==> h in Handoff.Step(sys.joint, e).log;
  }

  lemma LoggedInitially(sys: System)
    requires ReplicatedHandoff.Initial(sys)
    ensures Logged(sys)
  {
  }

  lemma {:induction false} RunKeepsLogged(start: System, occurrences: seq<Occurrence>)
    requires ReplicatedHandoff.Initial(start)
    ensures Logged(ReplicatedHandoff.Run(start, occurrences))
  {
    if |occurrences| == 0 {
      LoggedInitially(start);
    } else {
      var before, o := ReplicatedHandoff.Run(start, occurrences[..|occurrences| - 1]), occurrences[|occurrences| - 1];
      RunKeepsLogged(start, occurrences[..|occurrences| - 1]);
      var _, steps := ReplicatedIsOne(start, occurrences[..|occurrences| - 1], before);
      ReachedKeepsInv(start.joint, steps, before.joint);
      match o {
        case Replicates(e) => ReplicationKeepsLogged(before, e);
        case Proceeds(e) => CandidatesKeepLogged(before, e);
      }
    }
  }

  lemma RunKeepsAll(start: System, occurrences: seq<Occurrence>, sys: System)
    requires ReplicatedHandoff.Initial(start) && sys == ReplicatedHandoff.Run(start, occurrences)
    ensures ReplicatedHandoff.Inv(sys) && Logged(sys)
    ensures HandoffSafety.Inv(sys.joint) && sys.joint.skew == start.joint.skew
  {
    var _, steps := ReplicatedIsOne(start, occurrences, sys);
    RunKeepsLogged(start, occurrences);
    ReachedKeepsInv(start.joint, steps, sys.joint);
  }

  lemma {:induction false} RunKeepsJointLog(start: System, occurrences: seq<Occurrence>, more: seq<Occurrence>)
    ensures ReplicatedHandoff.Run(start, occurrences).joint.log <=
              ReplicatedHandoff.Run(start, occurrences + more).joint.log
  {
    if |more| == 0 {
      assert occurrences + more == occurrences;
    } else {
      var earlier := occurrences + more[..|more| - 1];
      assert (occurrences + more)[..|occurrences + more| - 1] == earlier;
      RunKeepsJointLog(start, occurrences, more[..|more| - 1]);
      var _, steps := StepIsBoth(ReplicatedHandoff.Run(start, earlier), more[|more| - 1]);
      if steps != [] {
        StepKeepsLog(ReplicatedHandoff.Run(start, earlier).joint, steps[0]);
      }
    }
  }

  // ---------------------------------------------------------------------
  // What any replica has released binds every candidate
  // ---------------------------------------------------------------------

  /** What one replica released, the log's tip contains. */
  lemma ReleasedAbortIsLogged(sys: System, h: History, k: nat, p: Payload)
    requires ReplicatedHandoff.Inv(sys) && Logged(sys) && h in sys.replicas.released && AbortsAt(sys.replicas, h, k, p)
    ensures k < |h| && h[k].Abort? && !h[k].request.Unjustified? && AbortOf(h[k], p) in sys.joint.log
  {
    var tip := sys.replicas.tip;
    assert h <= tip && h[..k] == tip[..k];
    assert AbortsAt(sys.replicas, tip, k, p);
  }

  /** Once any replica has released an abort, whatever crashes, re-keys or takes over afterwards, no candidate applies
      the certificate any more; one that was declined it never had applied. */
  lemma ReleasedAbortIsFinal(start: System, occurrences: seq<Occurrence>, now: System, more: seq<Occurrence>,
                             later: System, h: History, k: nat, b: Sealed)
    requires ReplicatedHandoff.Initial(start) && now == ReplicatedHandoff.Run(start, occurrences)
    requires later == ReplicatedHandoff.Run(start, occurrences + more)
    requires h in now.replicas.released && AbortsAt(now.replicas, h, k, b.aad.successorPayload)
    requires h[k].request.ByDecline? || start.joint.skew <= ABORT_GRACE_MS
    requires Activated(b) in later.joint.log
    ensures h[k].request.ByExpiry? && Activated(b) in now.joint.log
  {
    RunKeepsAll(start, occurrences, now);
    RunKeepsAll(start, occurrences + more, later);
    RunKeepsJointLog(start, occurrences, more);
    AbortBoundsActivation(now, later.joint, h, k, b);
  }

  lemma AbortBoundsActivation(now: System, later: Joint, h: History, k: nat, b: Sealed)
    requires ReplicatedHandoff.Inv(now) && Logged(now) && h in now.replicas.released
    requires AbortsAt(now.replicas, h, k, b.aad.successorPayload)
    requires HandoffSafety.Inv(later) && now.joint.log <= later.log && Activated(b) in later.log
    requires h[k].request.ByDecline? || later.skew <= ABORT_GRACE_MS
    ensures h[k].request.ByExpiry? && Activated(b) in now.joint.log
  {
    ReleasedAbortIsLogged(now, h, k, b.aad.successorPayload);
    LoggedAbortBoundsActivation(now.joint.log, later, h[k], b);
  }

  lemma LoggedAbortBoundsActivation(log: seq<Happening>, later: Joint, abort: Change, b: Sealed)
    requires HandoffSafety.Inv(later) && log <= later.log && Activated(b) in later.log
    requires abort.Abort? && !abort.request.Unjustified? && AbortOf(abort, b.aad.successorPayload) in log
    requires abort.request.ByDecline? || later.skew <= ABORT_GRACE_MS
    ensures abort.request.ByExpiry? && Activated(b) in log
  {
    assert HappeningOk(later, Activated(b));
    NotDeclined(later, b.aad.successorPayload);
    assert forall x :: x in log ==> x in later.log;
    ActivatedBeforeAbort(log, later.log, b);
  }

  /** If any replica ever released a record with the successor's proof, or a retired one, the candidate certified last
      is active, keeps that proof, and holds the lineage extended by its own certificate. */
  lemma ReleasedProofHasSuccessor(start: System, occurrences: seq<Occurrence>, sys: System, h: History)
    requires ReplicatedHandoff.Initial(start) && sys == ReplicatedHandoff.Run(start, occurrences)
    requires h in sys.replicas.released && ProofRecorded(Replay(start.replicas.key, start.replicas.start, h))
    ensures sys.joint.last.Some? && ProofHeld(sys.joint, sys.joint.last.value.aad.successorPayload)
    ensures var p := sys.joint.last.value.aad.successorPayload;
            && sys.joint.cands[Named(p)].gov.status != Inactive
            && Holder(Named(p), sys.joint.cands[Named(p)].gov)
            && sys.joint.cands[Named(p)].gov.lineage == start.replicas.start.lineage + [Sign(p, start.replicas.key)]
  {
    var commits, steps := ReplicatedIsOne(start, occurrences, sys);
    RunKeepsConstants(ALL, start.replicas, commits);
    var key, g, tip := start.replicas.key, start.replicas.start, sys.replicas.tip;
    assert h <= tip;
    ReplayOfPrefix(key, g, h, tip);
    ProofRecordedForGood(key, Replay(key, g, h), tip[|h|..]);
    ReplayKeepsHolder(key, g, tip);
    RetiresOnlyForActiveSuccessor(start.joint, steps, sys.joint);
  }

  /** The certificate was aborted on expiry, and no replica has released its candidate's proof. */
  ghost predicate UnseenByAll(sys: System, p: Payload) {
    && Unseen(sys.joint.log, p)
    && forall h :: h in sys.replicas.released ==> !RecordedIn(Replay(sys.replicas.key, sys.replicas.start, h), p)
  }

  lemma UnseenIsUnseenByAll(sys: System, p: Payload)
    requires ReplicatedHandoff.Inv(sys) && Logged(sys) && Unseen(sys.joint.log, p)
    ensures UnseenByAll(sys, p)
  {
    forall h | h in sys.replicas.released ensures !RecordedIn(Replay(sys.replicas.key, sys.replicas.start, h), p) {
      assert h == sys.replicas.tip[..|h|];
    }
  }

  /** Two successors of one replicated predecessor are both activated only if one of them was aborted on expiry, its
      proof unseen by any replica. */
  lemma TwoSuccessorsOnlyIfOneUnseenByAll(start: System, occurrences: seq<Occurrence>, sys: System,
                                          b: Sealed, c: Sealed)
    requires ReplicatedHandoff.Initial(start) && sys == ReplicatedHandoff.Run(start, occurrences)
    requires Activated(b) in sys.joint.log && Activated(c) in sys.joint.log
    requires b.aad.successorPayload != c.aad.successorPayload
    ensures UnseenByAll(sys, b.aad.successorPayload) || UnseenByAll(sys, c.aad.successorPayload)
    ensures start.joint.skew <= ABORT_GRACE_MS ==> AppliedUnseen(sys.joint.log, b) || AppliedUnseen(sys.joint.log, c)
  {
    var _, steps := ReplicatedIsOne(start, occurrences, sys);
    RunKeepsLogged(start, occurrences);
    TwoSuccessorsOnlyIfOneUnseen(start.joint, steps, sys.joint, b, c);
    if Unseen(sys.joint.log, b.aad.successorPayload) {
      UnseenIsUnseenByAll(sys, b.aad.successorPayload);
    } else {
      UnseenIsUnseenByAll(sys, c.aad.successorPayload);
    }
  }

  /** Whichever replica leads by now, however it came by the key: between commits it can finalize with the proof the
      successor keeps, with clocks within a minute of each other and until it has retired. */
  lemma LeaderCanFinalize(start: System, occurrences: seq<Occurrence>, sys: System, s: Slot, b: Sealed, now: Time)
    requires ReplicatedHandoff.Initial(start) && sys == ReplicatedHandoff.Run(start, occurrences)
    requires start.joint.skew <= PROVED_AT_SKEW_MS
    requires Leads(sys.replicas, At(sys.replicas, s)) && At(sys.replicas, s).inflight.None?
    requires Activated(b) in sys.joint.log && At(sys.replicas, s).replica.gov.status != Retired
    requires sys.joint.last.Some? && b.aad.successorPayload == sys.joint.last.value.aad.successorPayload
    ensures ProofHeld(sys.joint, b.aad.successorPayload)
    ensures var g := At(sys.replicas, s).replica.gov;
            var proof := sys.joint.cands[Named(b.aad.successorPayload)].gov.latestActivationProof.value;
            && FinalizeCheck(g, proof).Ok?
            && var changes := FinalizeChanges(g, FinalizeCheck(g, proof).value, proof, now);
               Replay(sys.replicas.key, g, changes).status == Retired
  {
    var _, steps := ReplicatedIsOne(start, occurrences, sys);
    LeaderIsTheJointRecord(sys, s);
    LateFinalizeSucceeds(start.joint, steps, sys.joint, b, now);
  }

  lemma LeaderIsTheJointRecord(sys: System, s: Slot)
    requires ReplicatedHandoff.Inv(sys) && Leads(sys.replicas, At(sys.replicas, s))
    requires At(sys.replicas, s).inflight.None?
    ensures At(sys.replicas, s).replica.gov == sys.joint.pred
  {
    BothSlots(sys.replicas, s);
    assert ContentAt(sys.replicas, At(sys.replicas, s));
  }

  /** Every replica that holds the key and was not replaced, and every successor, hold at least the tenants the
      successor was activated with; a leader between commits holds exactly those, unless the certificate was
      aborted on expiry. */
  lemma ReplicatedHandoffConservesTenants(start: System, occurrences: seq<Occurrence>, sys: System, s: Slot, b: Sealed)
    requires ReplicatedHandoff.Initial(start) && sys == ReplicatedHandoff.Run(start, occurrences)
    requires Activated(b) in sys.joint.log
    requires !Unkeyed(At(sys.replicas, s)) && At(sys.replicas, s).replica.activationKey !in sys.replicas.replaced
    ensures b.aad.successorPayload.Successor? && Named(b.aad.successorPayload) in sys.joint.cands
    ensures var p, successor := At(sys.replicas, s), sys.joint.cands[Named(b.aad.successorPayload)].gov;
            && PolicyExtends(b.tenants, p.replica.gov.tenants) && PolicyExtends(b.tenants, successor.tenants)
            && (Leads(sys.replicas, p) && p.inflight.None?
                && AbortedOnExpiry(b.aad.successorPayload) !in sys.joint.log ==>
                  b.tenants == p.replica.gov.tenants && PolicyExtends(p.replica.gov.tenants, successor.tenants))
  {
    var _, steps := ReplicatedIsOne(start, occurrences, sys);
    HandoffConservesTenants(start.joint, steps, sys.joint, b);
    HolderExtendsJointRecord(sys, s);
    if Leads(sys.replicas, At(sys.replicas, s)) && At(sys.replicas, s).inflight.None? {
      LeaderIsTheJointRecord(sys, s);
    }
  }

  lemma HolderExtendsJointRecord(sys: System, s: Slot)
    requires ReplicatedHandoff.Inv(sys)
    requires !Unkeyed(At(sys.replicas, s)) && At(sys.replicas, s).replica.activationKey !in sys.replicas.replaced
    ensures PolicyExtends(sys.joint.pred.tenants, At(sys.replicas, s).replica.gov.tenants)
  {
    var w, h := sys.replicas, At(sys.replicas, s).history;
    CurrentReplicaHoldsTheLog(w, s);
    ReplayOfPrefix(w.key, w.start, w.tip, h);
    ReplayExtendsPolicy(w.key, Replay(w.key, w.start, w.tip), h[|w.tip|..]);
  }
}
