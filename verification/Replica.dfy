/** One replica's custody state as a value: what it exports, and when it accepts
    custody, a sync or a promotion (src/governance-state.js,
    src/governance-replica-custody.js). */
module Replica {
  import opened Prelude
  import opened Lineage
  import opened Governance

  datatype Role = Primary | Custodian

  datatype Snapshot = Snapshot(gov: Gov, replicaSerial: nat)

  /** `activationKey` is unique to one boot of one enclave, so it also names the process;
      `peer` is the activation key of the replica recorded as peer. */
  datatype Replica = Replica(activationKey: Pem, key: Pem, role: Option<Role>, peer: Option<Pem>,
                             gov: Gov, replicaSerial: nat)

  datatype CustodyError =
    | NotFresh | BadSnapshot | WrongKey | UnboundLineage
    | NotCustodian | NoLineage | NotNewer | NotAnExtension | NotActive

  predicate IsFresh(r: Replica) {
    r.gov.status == Inactive && |r.gov.lineage| == 0
  }

  predicate HoldsKey(r: Replica) {
    r.gov.status == Active || r.gov.status == ActivatingSuccessor
  }

  function Export(r: Replica): Snapshot {
    Snapshot(r.gov, r.replicaSerial)
  }

  function Apply(r: Replica, s: Snapshot): Replica {
    r.(gov := s.gov, replicaSerial := s.replicaSerial)
  }

  predicate SnapshotOk(s: Snapshot) {
    s.gov.status != Inactive && ValidLineage(s.gov.lineage) && s.gov.epoch == |s.gov.lineage|
  }

  /** The replicator pushes only from a primary whose custodian has enrolled. */
  predicate NeedsAck(r: Replica) {
    r.role == Some(Primary) && r.peer.Some?
  }

  function AcceptCustody(r: Replica, key: Pem, s: Snapshot, role: Role, boundLineage: seq<Envelope>)
    : Result<Replica, CustodyError>
  {
    if !IsFresh(r) then Err(NotFresh)
    else if !SnapshotOk(s) then Err(BadSnapshot)
    else if CurrentKey(s.gov.lineage) != key then Err(WrongKey)
    else if s.gov.lineage != boundLineage then Err(UnboundLineage)
    else Ok(Apply(r, s).(key := key, role := Some(role)))
  }

  function AcceptSync(r: Replica, s: Snapshot): Result<Replica, CustodyError> {
    if r.role != Some(Custodian) then Err(NotCustodian)
    else if r.gov.status == Inactive then Err(NoLineage)
    else if !SnapshotOk(s) then Err(BadSnapshot)
    else if s.replicaSerial <= r.replicaSerial then Err(NotNewer)
    else if !Extends(s.gov.lineage, r.gov.lineage) then Err(NotAnExtension)
    else Ok(Apply(r, s))
  }

  function Promote(r: Replica): Result<Replica, CustodyError> {
    if r.role != Some(Custodian) then Err(NotCustodian)
    else if r.gov.status != Active then Err(NotActive)
    else Ok(r.(role := Some(Primary), peer := None))
  }

  /** A re-keyed replica takes the role opposite its sender's. */
  function ServedRole(sender: Replica): Role {
    if sender.role == Some(Primary) then Custodian else Primary
  }

  /** Only a fresh replica accepts custody: of a key the lineage names, with a state that holds that very lineage at
      the epoch it has reached. It keeps its own activation key and peer. */
  lemma CustodyAcceptedExactly(r: Replica, key: Pem, s: Snapshot, role: Role, boundLineage: seq<Envelope>)
    ensures AcceptCustody(r, key, s, role, boundLineage).Ok? <==>
              && r.gov.status == Inactive && r.gov.lineage == []
              && s.gov.status in {Active, ActivatingSuccessor, Retired}
              && s.gov.lineage == boundLineage && ValidLineage(boundLineage)
              && s.gov.epoch == |boundLineage| && key == CurrentKey(boundLineage)
    ensures AcceptCustody(r, key, s, role, boundLineage).Ok? ==>
              AcceptCustody(r, key, s, role, boundLineage).value ==
                Replica(r.activationKey, key, Some(role), r.peer, s.gov, s.replicaSerial)
  {
  }

  /** Only a custodian that holds a lineage accepts a sync: a newer state whose lineage is valid, starts with its own,
      and has the length of its epoch. Key, role and peer stay. */
  lemma SyncAcceptedExactly(r: Replica, s: Snapshot)
    ensures AcceptSync(r, s).Ok? <==>
              && r.role == Some(Custodian) && r.gov.status in {Active, ActivatingSuccessor, Retired}
              && s.gov.status in {Active, ActivatingSuccessor, Retired}
              && r.replicaSerial < s.replicaSerial
              && r.gov.lineage <= s.gov.lineage && ValidLineage(s.gov.lineage) && s.gov.epoch == |s.gov.lineage|
    ensures AcceptSync(r, s).Ok? ==>
              AcceptSync(r, s).value ==
                Replica(r.activationKey, r.key, r.role, r.peer, s.gov, s.replicaSerial)
  {
  }

  /** Only an active custodian is promoted; it drops its peer, and nothing else changes. */
  lemma PromotedExactly(r: Replica)
    ensures Promote(r).Ok? <==> r.role == Some(Custodian) && r.gov.status == Active
    ensures Promote(r).Ok? ==>
              Promote(r).value == Replica(r.activationKey, r.key, Some(Primary), None, r.gov, r.replicaSerial)
  {
  }

  /** A custodian after a series of snapshots from anyone at all, in any order. */
  function ReceiveAll(r: Replica, snapshots: seq<Snapshot>): Replica {
    if |snapshots| == 0 then r
    else
      var before := ReceiveAll(r, snapshots[..|snapshots| - 1]);
      match AcceptSync(before, snapshots[|snapshots| - 1])
      case Ok(after) => after
      case Err(_) => before
  }

  /** Whatever it is sent, a custodian only moves forward: its serial never falls, its lineage only grows, the key of
      an epoch it has seen stays, and its own key, role and peer are its own; an older snapshot is refused for good. */
  lemma {:induction false} CustodianOnlyMovesForward(r: Replica, snapshots: seq<Snapshot>, epoch: int, stale: Snapshot)
    requires epoch <= |r.gov.lineage| && stale.replicaSerial <= r.replicaSerial
    ensures var now := ReceiveAll(r, snapshots);
            && r.replicaSerial <= now.replicaSerial
            && Extends(now.gov.lineage, r.gov.lineage)
            && KeyAtEpoch(now.gov.lineage, epoch) == KeyAtEpoch(r.gov.lineage, epoch)
            && now == r.(gov := now.gov, replicaSerial := now.replicaSerial)
            && (now != r ==> SnapshotOk(Export(now)))
            && AcceptSync(now, stale).Err?
  {
    if |snapshots| == 0 {
      assert r.gov.lineage[..|r.gov.lineage|] == r.gov.lineage;
    } else {
      var before, last := ReceiveAll(r, snapshots[..|snapshots| - 1]), snapshots[|snapshots| - 1];
      CustodianOnlyMovesForward(r, snapshots[..|snapshots| - 1], epoch, stale);
      if AcceptSync(before, last).Ok? {
        ExtendsTransitive(r.gov.lineage, before.gov.lineage, last.gov.lineage);
      }
    }
    ExtensionKeepsKeys(ReceiveAll(r, snapshots).gov.lineage, r.gov.lineage, epoch);
  }
}
