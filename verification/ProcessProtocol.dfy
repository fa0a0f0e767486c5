/** A process's commit, seen from the protocol: what GovernanceState.Commit does to its fields in one call is what
    the protocol's begin and release, or begin and fail, do to the replica in two steps. */
module ProcessProtocol {
  import opened Prelude
  import opened Lineage
  import opened Governance
  import opened GovernanceHistory
  import opened Replica
  import opened Replication
  import opened GovernanceProcess

  /** Whatever snapshot custody accepts, the replica ends up with a lineage that verifies, at the epoch the
      lineage has reached, and with the key the lineage names. */
  lemma AcceptedCustodyHoldsLineage(r: Replica, key: Pem, s: Snapshot, role: Role, boundLineage: seq<Envelope>)
    requires KeyIdsMatch(s.gov.lineage)
    ensures AcceptCustody(r, key, s, role, boundLineage).Ok? ==>
              var rekeyed := AcceptCustody(r, key, s, role, boundLineage).value;
              && HoldsLineage(rekeyed.key, rekeyed.gov)
              && rekeyed.gov.status != Inactive && rekeyed.gov.lineage == boundLineage
    ensures IsFresh(r) && SnapshotOk(s) && s.gov.lineage == boundLineage ==>
              (AcceptCustody(r, key, s, role, boundLineage).Ok? <==> HoldsLineage(key, s.gov))
  {
  }

  lemma CommitIsBeginThenEnd(asm: Assumptions, w: World, s: Slot, change: Change)
    requires IsPrimary(At(w, s)) && At(w, s).inflight.None?
    ensures var r, begun := At(w, s).replica, Step(asm, w, BeginCommit(s, change));
            if At(begun, s).inflight.None?
            then forall acknowledged :: At(begun, s).replica == CommitOutcome(r, change, acknowledged)
            else
              && At(Step(asm, begun, FailCommit(s)), s).replica == CommitOutcome(r, change, false)
              && (Ack(r.activationKey, r.replicaSerial + 1) in begun.net ==>
                    At(Step(asm, begun, ReleaseCommit(s)), s).replica == CommitOutcome(r, change, true))
              && !CommitReleases(r, change, false) && CommitReleases(r, change, true)
  {
  }

  /** The protocol's boot is the constructor's: keys of its own, the role it is given, and nothing else. */
  lemma BootIsConstructed(activationKey: Pem, ownKey: Pem, role: Role)
    ensures Boot(activationKey, ownKey, role).replica == Replica(activationKey, ownKey, Some(role), None, FRESH, 0)
    ensures Boot(activationKey, ownKey, role).history == [] && Boot(activationKey, ownKey, role).inflight == None
  {
  }
}
