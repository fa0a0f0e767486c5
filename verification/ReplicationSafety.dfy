/** The inductive invariant of replication. */
module ReplicationSafety {
  import opened Prelude
  import opened Lineage
  import opened Governance
  import opened GovernanceHistory
  import opened Replica
  import opened Replication

  /** All that the operators and the time limits provide. */
  const ALL := Assumptions(true, true, true, true)

  // ---------------------------------------------------------------------
  // First layer: every record is the replay of its history
  // ---------------------------------------------------------------------

  predicate Content(w: World, gov: Gov, history: History) {
    gov == Replay(w.key, w.start, history) && Holder(w.key, gov)
  }

  predicate ContentAt(w: World, p: Proc) {
    || (p.replica.gov == FRESH && p.inflight.None?)
    || (&& p.replica.key == w.key
        && Content(w, p.replica.gov, p.history)
        && (p.inflight.Some? ==> Content(w, p.inflight.value.previous, p.inflight.value.previousHistory)))
  }

  predicate ContentOk(w: World) {
    && Holder(w.key, w.start)
    && ContentAt(w, w.a) && ContentAt(w, w.b)
    && (forall m :: m in w.net && !m.Ack? ==> Content(w, m.snapshot.gov, m.history))
    && (forall m :: m in w.net && m.Custody? ==> m.key == w.key)
  }

  lemma ContentOfChange(w: World, gov: Gov, history: History, change: Change)
    requires Content(w, gov, history) && Mutate(w.key, gov, change).Ok?
    ensures Content(w, Mutate(w.key, gov, change).value, history + [change])
  {
    MutateKeepsHolder(w.key, gov, change);
    assert (history + [change])[..|history|] == history;
  }

  lemma BeginKeepsContent(w: World, s: Slot, change: Change)
    requires ContentOk(w)
    ensures ContentOk(Step(ALL, w, BeginCommit(s, change)))
  {
    var p := At(w, s);
    if IsPrimary(p) && p.inflight.None? && Mutate(p.replica.key, p.replica.gov, change).Ok? {
      ContentOfChange(w, p.replica.gov, p.history, change);
      StartedContent(w, s, change, Mutate(p.replica.key, p.replica.gov, change).value);
    }
  }

  lemma StartedContent(w: World, s: Slot, change: Change, gov: Gov)
    requires ContentOk(w) && IsPrimary(At(w, s)) && At(w, s).inflight.None?
    requires Content(w, gov, At(w, s).history + [change])
    ensures if NeedsAck(At(w, s).replica) then ContentOk(Sent(w, s, change, gov))
            else ContentOk(Alone(w, s, change, gov))
  {
    var p := At(w, s);
    if NeedsAck(p.replica) {
      SentContent(w, Sent(w, s, change, gov), p, At(Sent(w, s, change, gov), s), change);
    } else {
      assert ContentAt(w, At(Alone(w, s, change, gov), s));
    }
  }

  lemma SentContent(w: World, w': World, p: Proc, p': Proc, change: Change)
    requires ContentOk(w) && ContentAt(w, p) && w'.key == w.key && w'.start == w.start && p.replica.peer.Some?
    requires IsPrimary(p) && p'.replica == p.replica.(gov := p'.replica.gov, replicaSerial := p'.replica.replicaSerial)
    requires p'.history == p.history + [change] && p'.inflight == Some(Inflight(p.replica.gov, p.history))
    requires Content(w, p'.replica.gov, p'.history)
    requires w'.net == w.net + {Sync(p.replica.activationKey, p.replica.peer.value, Export(p'.replica), p'.history)}
    ensures ContentAt(w', p')
    ensures (forall m :: m in w'.net && !m.Ack? ==> Content(w', m.snapshot.gov, m.history))
    ensures (forall m :: m in w'.net && m.Custody? ==> m.key == w'.key)
  {
  }

  lemma DeliverKeepsContent(w: World, s: Slot, m: Message)
    requires ContentOk(w)
    ensures ContentOk(Step(ALL, w, DeliverSync(s, m)))
  {
  }

  lemma ReleaseKeepsContent(w: World, s: Slot)
    requires ContentOk(w)
    ensures ContentOk(Step(ALL, w, ReleaseCommit(s)))
  {
  }

  lemma FailKeepsContent(w: World, s: Slot)
    requires ContentOk(w)
    ensures ContentOk(Step(ALL, w, FailCommit(s)))
  {
  }

  lemma PromoteKeepsContent(w: World, s: Slot)
    requires ContentOk(w)
    ensures ContentOk(Step(ALL, w, PromoteCustodian(s)))
  {
  }

  lemma RestartKeepsContent(w: World, s: Slot, activationKey: Pem, ownKey: Pem, bootRole: Role)
    requires ContentOk(w)
    ensures ContentOk(Step(ALL, w, Restart(s, activationKey, ownKey, bootRole)))
  {
  }

  lemma ServeKeepsContent(w: World, s: Slot)
    requires ContentOk(w)
    ensures ContentOk(Step(ALL, w, ServeCustody(s)))
  {
  }

  lemma ServeLateKeepsContent(w: World, s: Slot, requester: Pem)
    requires ContentOk(w)
    ensures ContentOk(Step(ALL, w, ServeLateRequest(s, requester)))
  {
  }

  lemma DeliverCustodyKeepsContent(w: World, s: Slot, m: Message)
    requires ContentOk(w)
    ensures ContentOk(Step(ALL, w, DeliverCustody(s, m)))
  {
  }

  lemma StepKeepsContent(w: World, e: Event)
    requires ContentOk(w)
    ensures ContentOk(Step(ALL, w, e))
  {
    match e
    case BeginCommit(s, change) => BeginKeepsContent(w, s, change);
    case DeliverSync(s, m) => DeliverKeepsContent(w, s, m);
    case ReleaseCommit(s) => ReleaseKeepsContent(w, s);
    case FailCommit(s) => FailKeepsContent(w, s);
    case Restart(s, activationKey, ownKey, bootRole) => RestartKeepsContent(w, s, activationKey, ownKey, bootRole);
    case Lose(_) =>
    case ServeCustody(s) => ServeKeepsContent(w, s);
    case ServeLateRequest(s, requester) => ServeLateKeepsContent(w, s, requester);
    case DeliverCustody(s, m) => DeliverCustodyKeepsContent(w, s, m);
    case PromoteCustodian(s) => PromoteKeepsContent(w, s);
    case SealCustody(_) =>
    case CompleteCustody(_) =>
  }

  // ---------------------------------------------------------------------
  // Second layer: who leads, who follows, and how far they can differ
  // ---------------------------------------------------------------------

  predicate Unkeyed(p: Proc) {
    p.replica.gov.status == Inactive
  }

  predicate Leads(w: World, p: Proc) {
    IsPrimary(p) && p.replica.activationKey !in w.replaced
  }

  /** `history` is exactly one change ahead of `base`. */
  predicate OneAhead(history: History, base: History) {
    |history| == |base| + 1 && base <= history
  }

  predicate Acknowledged(w: World, p: Proc) {
    p.inflight.Some? && Ack(p.replica.activationKey, p.replica.replicaSerial) in w.net
  }

  predicate ProcOk(w: World, p: Proc) {
    && p.replica.activationKey in w.used
    && p.replica.role.Some?
    && (p.replica.peer.Some? ==> p.replica.peer.value in w.used)
    && (Unkeyed(p) ==> p.inflight.None? && p.history == [])
    && (p.inflight.Some? ==>
          && IsPrimary(p) && p.replica.peer.Some?
          && p.inflight.value.previous.status != Inactive
          && OneAhead(p.history, p.inflight.value.previousHistory))
  }

  /** What a process has sent, or could be told, carries serials up to its own, and the sync of its
      current commit carries that commit. */
  predicate MessagesOf(w: World, p: Proc) {
    forall m :: m in w.net ==>
      match m
      case Sync(from, to, snapshot, history) =>
        && from in w.used && to in w.used
        && (from == p.replica.activationKey ==>
              && !Unkeyed(p)
              && snapshot.replicaSerial <= p.replica.replicaSerial
              && (p.inflight.Some? && snapshot.replicaSerial == p.replica.replicaSerial ==> history == p.history))
      case Ack(to, serial) =>
        && to in w.used
        && (to == p.replica.activationKey ==> !Unkeyed(p) && serial <= p.replica.replicaSerial)
      case Custody(from, to, _, _, _, _) =>
        && from in w.used && to in w.used
        && (from == p.replica.activationKey ==> !Unkeyed(p))
  }

  /** A process that has booted but holds no key is addressed by nobody but the leader it asked. */
  predicate UnkeyedOk(w: World, p: Proc, other: Proc) {
    !Unkeyed(other) ==>
      forall m :: m in w.net && m.Sync? && m.to == p.replica.activationKey ==>
        Leads(w, other) && m.from == other.replica.activationKey
  }

  /** A bundle on its way to a process that has booted carries the log's tip, and nothing can move the tip
      before it arrives: either its sender has crashed and nobody holds the key, or its sender is the leader,
      whose commits the process does not acknowledge, or the custodian, which has nothing left to accept. */
  predicate BundleOk(w: World, p: Proc, other: Proc, b: Message)
    requires b.Custody?
  {
    && b.history == w.tip
    && (forall m :: m in w.net && m.Sync? && m.to == p.replica.activationKey
                    && m.snapshot.replicaSerial > b.snapshot.replicaSerial ==>
          OneAhead(m.history, w.tip) && (Unkeyed(other) || m.from == other.replica.activationKey))
    && (if Unkeyed(other) then (forall m :: m in w.net && !m.Ack? ==> m.to != other.replica.activationKey)
        else b.from == other.replica.activationKey && SenderOk(w, p, other, b))
  }

  predicate SenderOk(w: World, p: Proc, sender: Proc, b: Message)
    requires b.Custody?
  {
    && b.snapshot.replicaSerial <= sender.replica.replicaSerial
    && match b.role
       case Custodian =>
         Leads(w, sender) && sender.replica.peer.Some? && !Acknowledged(w, sender)
       case Primary =>
         && IsCustodian(sender) && sender.history == w.tip
         && b.snapshot.replicaSerial == sender.replica.replicaSerial && Drained(w, sender)
  }

  predicate BundlesOk(w: World, p: Proc, other: Proc) {
    forall b :: b in w.net && b.Custody? && b.to == p.replica.activationKey ==> BundleOk(w, p, other, b)
  }

  /** The custodian equals the last released state or is exactly one change ahead of it, and so is
      every sync it would still accept. */
  predicate CustodianOk(w: World, c: Proc, other: Proc) {
    && (Unkeyed(other) || (Leads(w, other) && other.replica.peer.Some?))
    && c.inflight.None?
    && (c.history == w.tip || OneAhead(c.history, w.tip))
    && (forall m :: m in w.net && m.Sync? && m.to == c.replica.activationKey
                    && m.snapshot.replicaSerial > c.replica.replicaSerial ==>
          && OneAhead(m.history, w.tip)
          && (Unkeyed(other) || m.from == other.replica.activationKey))
    && (!Unkeyed(other) ==> c.replica.replicaSerial <= other.replica.replicaSerial)
    && (Acknowledged(w, other) ==> c.history == other.history && c.replica.replicaSerial == other.replica.replicaSerial)
  }

  predicate LeaderOk(w: World, p: Proc, other: Proc) {
    && Base(p) == w.tip
    && (Unkeyed(other) || IsCustodian(other) || other.replica.activationKey in w.replaced)
  }

  /** A replaced primary: nobody acknowledges it any more, and whatever it may still return is already
      in the log. */
  predicate ReplacedOk(w: World, p: Proc, other: Proc) {
    && IsPrimary(p)
    && p.replica.peer.Some?
    && (if Unkeyed(other) then p.replica.peer.value != other.replica.activationKey else Leads(w, other))
    && Base(p) <= w.tip
    && (Acknowledged(w, p) ==> p.history <= w.tip)
  }

  predicate SlotOk(w: World, p: Proc, other: Proc) {
    && ProcOk(w, p)
    && MessagesOf(w, p)
    && (Unkeyed(p) ==> UnkeyedOk(w, p, other) && BundlesOk(w, p, other))
    && (IsCustodian(p) ==> CustodianOk(w, p, other))
    && (Leads(w, p) ==> LeaderOk(w, p, other))
    && (p.replica.activationKey in w.replaced ==> ReplacedOk(w, p, other))
  }

  predicate LogOk(w: World) {
    && w.tip in w.released
    && (forall h :: h in w.released ==> h <= w.tip)
  }

  predicate Protocol(w: World) {
    && w.sealed == None
    && w.replaced <= w.used
    && w.a.replica.activationKey != w.b.replica.activationKey
    && LogOk(w)
    && SlotOk(w, w.a, w.b)
    && SlotOk(w, w.b, w.a)
  }

  predicate Both(w: World, p: Proc, other: Proc) {
    SlotOk(w, p, other) && SlotOk(w, other, p) && p.replica.activationKey != other.replica.activationKey
  }

  lemma BothSlots(w: World, s: Slot)
    requires Protocol(w)
    ensures Both(w, At(w, s), At(w, Opposite(s)))
  {
  }

  lemma FromSlots(w: World, s: Slot)
    requires w.sealed == None && w.replaced <= w.used && LogOk(w) && Both(w, At(w, s), At(w, Opposite(s)))
    ensures Protocol(w)
  {
  }

  // ---------------------------------------------------------------------
  // One event at a time: what moves one process keeps both in order. `p` is the process that moves to `p'`,
  // `other` the one that does not.
  // ---------------------------------------------------------------------

  /** Nothing is released, booted or replaced. */
  predicate SameLog(w: World, w': World) {
    w'.tip == w.tip && w'.used == w.used && w'.replaced == w.replaced
  }

  predicate CanCommit(p: Proc) {
    IsPrimary(p) && p.inflight.None?
  }

  lemma ThrownKeepsBoth(w: World, w': World, p: Proc, p': Proc, other: Proc)
    requires Both(w, p, other) && CanCommit(p) && SameLog(w, w') && w'.net == w.net
    requires p' == p.(replica := p.replica.(replicaSerial := p.replica.replicaSerial + 1))
    ensures Both(w', p', other)
  {
  }

  lemma ThrownKeepsProtocol(w: World, s: Slot)
    requires Protocol(w) && CanCommit(At(w, s))
    ensures Protocol(Thrown(w, s))
  {
    var w' := Thrown(w, s);
    BothSlots(w, s);
    ThrownKeepsBoth(w, w', At(w, s), At(w', s), At(w, Opposite(s)));
    FromSlots(w', s);
  }

  predicate Sends(w: World, w': World, p: Proc, p': Proc, change: Change) {
    && CanCommit(p) && p.replica.peer.Some? && SameLog(w, w')
    && p'.replica == p.replica.(gov := p'.replica.gov, replicaSerial := p.replica.replicaSerial + 1)
    && p'.replica.gov.status != Inactive
    && p'.history == p.history + [change] && p'.inflight == Some(Inflight(p.replica.gov, p.history))
    && w'.net == w.net + {Sync(p.replica.activationKey, p.replica.peer.value, Export(p'.replica), p'.history)}
  }

  lemma SentKeepsMover(w: World, w': World, p: Proc, p': Proc, other: Proc, change: Change)
    requires Both(w, p, other) && Sends(w, w', p, p', change)
    ensures SlotOk(w', p', other)
  {
  }

  lemma SentKeepsOther(w: World, w': World, p: Proc, p': Proc, other: Proc, change: Change)
    requires Both(w, p, other) && Sends(w, w', p, p', change)
    ensures SlotOk(w', other, p')
  {
  }

  lemma SentKeepsProtocol(w: World, s: Slot, change: Change, gov: Gov)
    requires Protocol(w) && CanCommit(At(w, s)) && NeedsAck(At(w, s).replica) && gov.status != Inactive
    ensures Protocol(Sent(w, s, change, gov))
  {
    var w' := Sent(w, s, change, gov);
    BothSlots(w, s);
    SentKeepsMover(w, w', At(w, s), At(w', s), At(w, Opposite(s)), change);
    SentKeepsOther(w, w', At(w, s), At(w', s), At(w, Opposite(s)), change);
    FromSlots(w', s);
  }

  lemma AloneKeepsBoth(w: World, w': World, p: Proc, p': Proc, other: Proc, change: Change)
    requires Both(w, p, other) && CanCommit(p) && p.replica.peer.None?
    requires p'.replica == p.replica.(gov := p'.replica.gov, replicaSerial := p.replica.replicaSerial + 1)
    requires p'.replica.gov.status != Inactive && p'.history == p.history + [change] && p'.inflight.None?
    requires w'.net == w.net && w'.used == w.used && w'.replaced == w.replaced && w'.tip == p'.history
    ensures Both(w', p', other)
  {
    assert Leads(w, p) && !Leads(w, other);
  }

  lemma AloneKeepsProtocol(w: World, s: Slot, change: Change, gov: Gov)
    requires Protocol(w) && CanCommit(At(w, s)) && !NeedsAck(At(w, s).replica) && gov.status != Inactive
    ensures Protocol(Alone(w, s, change, gov))
  {
    var w' := Alone(w, s, change, gov);
    BothSlots(w, s);
    assert Leads(w, At(w, s)) && w.tip == At(w, s).history;
    AloneKeepsBoth(w, w', At(w, s), At(w', s), At(w, Opposite(s)), change);
    FromSlots(w', s);
  }

  predicate Receives(w: World, w': World, p: Proc, p': Proc, m: Message) {
    && m in w.net && m.Sync? && m.to == p.replica.activationKey
    && AcceptSync(p.replica, m.snapshot) == Ok(p'.replica)
    && p'.history == m.history && p'.inflight.None?
    && SameLog(w, w') && w'.net == w.net + {Ack(m.from, m.snapshot.replicaSerial)}
  }

  lemma ReceivedKeepsMover(w: World, w': World, p: Proc, p': Proc, other: Proc, m: Message)
    requires Both(w, p, other) && Receives(w, w', p, p', m)
    ensures SlotOk(w', p', other)
  {
    assert IsCustodian(p) && IsCustodian(p') && CustodianOk(w, p, other);
    assert CustodianOk(w', p', other);
  }

  lemma ReceivedKeepsOther(w: World, w': World, p: Proc, p': Proc, other: Proc, m: Message)
    requires Both(w, p, other) && Receives(w, w', p, p', m)
    ensures SlotOk(w', other, p')
  {
    assert IsCustodian(p) && IsCustodian(p') && CustodianOk(w, p, other);
    assert MessagesOf(w', other);
  }

  lemma DeliverKeepsProtocol(w: World, s: Slot, m: Message)
    requires Protocol(w)
    ensures Protocol(Step(ALL, w, DeliverSync(s, m)))
  {
    var w' := StepDeliver(w, s, m);
    if w' != w {
      BothSlots(w, s);
      ReceivedKeepsMover(w, w', At(w, s), At(w', s), At(w, Opposite(s)), m);
      ReceivedKeepsOther(w, w', At(w, s), At(w', s), At(w, Opposite(s)), m);
      FromSlots(w', s);
    }
  }

  /** The leader's acknowledged change becomes the log's tip; a replaced primary's is in the log already. */
  predicate Releases(w: World, w': World, p: Proc, p': Proc) {
    && Acknowledged(w, p) && p' == p.(inflight := None)
    && w'.net == w.net && w'.used == w.used && w'.replaced == w.replaced
    && w'.tip == (if |p.history| > |w.tip| then p.history else w.tip)
  }

  lemma ReleasedTip(w: World, w': World, p: Proc, p': Proc, other: Proc)
    requires Both(w, p, other) && Releases(w, w', p, p')
    ensures Leads(w, p) ==> w'.tip == p.history && OneAhead(p.history, w.tip)
    ensures !Leads(w, p) ==> w'.tip == w.tip && p.history <= w.tip
  {
  }

  lemma ReleaseKeepsMover(w: World, w': World, p: Proc, p': Proc, other: Proc)
    requires Both(w, p, other) && Releases(w, w', p, p')
    ensures SlotOk(w', p', other)
  {
    ReleasedTip(w, w', p, p', other);
  }

  lemma ReleaseKeepsOther(w: World, w': World, p: Proc, p': Proc, other: Proc)
    requires Both(w, p, other) && Releases(w, w', p, p')
    ensures SlotOk(w', other, p')
  {
    ReleasedTip(w, w', p, p', other);
    if Leads(w, p) {
      assert IsCustodian(other) ==> CustodianOk(w', other, p');
      assert Unkeyed(other) ==> BundlesOk(w', other, p');
    }
  }

  lemma ReleaseKeepsProtocol(w: World, s: Slot)
    requires Protocol(w)
    ensures Protocol(Step(ALL, w, ReleaseCommit(s)))
  {
    var w' := StepRelease(w, s);
    if Acknowledged(w, At(w, s)) {
      BothSlots(w, s);
      ReleasedTip(w, w', At(w, s), At(w', s), At(w, Opposite(s)));
      ReleaseKeepsMover(w, w', At(w, s), At(w', s), At(w, Opposite(s)));
      ReleaseKeepsOther(w, w', At(w, s), At(w', s), At(w, Opposite(s)));
      FromSlots(w', s);
    }
  }

  predicate Reverts(w: World, w': World, p: Proc, p': Proc) {
    && p.inflight.Some? && SameLog(w, w') && w'.net == w.net
    && p' == Proc(p.replica.(gov := p.inflight.value.previous), p.inflight.value.previousHistory, None)
  }

  lemma FailKeepsMover(w: World, w': World, p: Proc, p': Proc, other: Proc)
    requires Both(w, p, other) && Reverts(w, w', p, p')
    ensures SlotOk(w', p', other)
  {
  }

  lemma FailKeepsOther(w: World, w': World, p: Proc, p': Proc, other: Proc)
    requires Both(w, p, other) && Reverts(w, w', p, p')
    ensures SlotOk(w', other, p')
  {
  }

  lemma FailKeepsProtocol(w: World, s: Slot)
    requires Protocol(w)
    ensures Protocol(Step(ALL, w, FailCommit(s)))
  {
    var w' := StepFail(w, s);
    if At(w, s).inflight.Some? {
      BothSlots(w, s);
      FailKeepsMover(w, w', At(w, s), At(w', s), At(w, Opposite(s)));
      FailKeepsOther(w, w', At(w, s), At(w', s), At(w, Opposite(s)));
      FromSlots(w', s);
    }
  }

  predicate Boots(w: World, w': World, p': Proc) {
    && p'.replica.activationKey !in w.used && Unkeyed(p') && p'.history == [] && p'.inflight.None?
    && p'.replica.role.Some? && p'.replica.peer.None?
    && w'.net == w.net && w'.tip == w.tip && w'.replaced == w.replaced
    && w'.used == w.used + {p'.replica.activationKey}
  }

  lemma BootKeepsMover(w: World, w': World, p: Proc, p': Proc, other: Proc)
    requires Both(w, p, other) && w.replaced <= w.used && Boots(w, w', p')
    ensures SlotOk(w', p', other) && p'.replica.activationKey != other.replica.activationKey
  {
  }

  lemma BootKeepsOther(w: World, w': World, p: Proc, p': Proc, other: Proc)
    requires Both(w, p, other) && w.replaced <= w.used && Boots(w, w', p')
    ensures SlotOk(w', other, p')
  {
  }

  lemma RestartKeepsProtocol(w: World, s: Slot, activationKey: Pem, ownKey: Pem, bootRole: Role)
    requires Protocol(w)
    ensures Protocol(Step(ALL, w, Restart(s, activationKey, ownKey, bootRole)))
  {
    var w' := StepRestart(w, s, activationKey, ownKey, bootRole);
    if activationKey !in w.used {
      BothSlots(w, s);
      BootKeepsMover(w, w', At(w, s), At(w', s), At(w, Opposite(s)));
      BootKeepsOther(w, w', At(w, s), At(w', s), At(w, Opposite(s)));
      FromSlots(w', s);
    }
  }

  /** A key holder seals its state to the process that asked for it. */
  predicate Serves(w: World, w': World, p: Proc, p': Proc, other: Proc) {
    && HoldsKey(p.replica) && p.inflight.None? && Unkeyed(other) && p.replica.activationKey !in w.replaced
    && (IsCustodian(p) ==> Drained(w, p))
    && p' == p.(replica := p.replica.(peer := Some(other.replica.activationKey)))
    && w'.used == w.used && w'.replaced == w.replaced && w'.tip == p.history
    && w'.net == w.net + {Custody(p.replica.activationKey, other.replica.activationKey, p.replica.key,
                                  Export(p.replica), ServedRole(p.replica), p.history)}
  }

  lemma ServerIsCurrent(w: World, p: Proc, other: Proc)
    requires Both(w, p, other) && HoldsKey(p.replica) && p.inflight.None? && p.replica.activationKey !in w.replaced
    ensures Leads(w, p) || IsCustodian(p)
    ensures Leads(w, p) ==> p.history == w.tip
    ensures p.history == w.tip || OneAhead(p.history, w.tip)
  {
    assert ProcOk(w, p) && !Unkeyed(p);
    match p.replica.role.value {
      case Primary => assert Leads(w, p);
      case Custodian => assert IsCustodian(p);
    }
  }

  lemma ServeKeepsMover(w: World, w': World, p: Proc, p': Proc, other: Proc)
    requires Both(w, p, other) && Serves(w, w', p, p', other)
    ensures SlotOk(w', p', other)
  {
    ServerIsCurrent(w, p, other);
  }

  lemma BundlesStayServed(w: World, w': World, p: Proc, p': Proc, other: Proc, b: Message)
    requires Both(w, p, other) && Serves(w, w', p, p', other)
    requires b in w'.net && b.Custody? && b.to == other.replica.activationKey
    ensures BundleOk(w', other, p', b)
  {
    ServerIsCurrent(w, p, other);
    if b in w.net {
      assert BundleOk(w, other, p, b);
    }
  }

  lemma ServeKeepsOther(w: World, w': World, p: Proc, p': Proc, other: Proc)
    requires Both(w, p, other) && Serves(w, w', p, p', other)
    ensures SlotOk(w', other, p')
  {
    ServerIsCurrent(w, p, other);
    forall b | b in w'.net && b.Custody? && b.to == other.replica.activationKey ensures BundleOk(w', other, p', b) {
      BundlesStayServed(w, w', p, p', other, b);
    }
  }

  lemma ServeKeepsProtocol(w: World, s: Slot)
    requires Protocol(w)
    ensures Protocol(Step(ALL, w, ServeCustody(s)))
  {
    var w' := StepServe(w, s);
    if CanServe(ALL, w, s) {
      BothSlots(w, s);
      ServerIsCurrent(w, At(w, s), At(w, Opposite(s)));
      ServeKeepsMover(w, w', At(w, s), At(w', s), At(w, Opposite(s)));
      ServeKeepsOther(w, w', At(w, s), At(w', s), At(w, Opposite(s)));
      FromSlots(w', s);
    }
  }

  /** A key holder seals its state to a process that will not apply it. */
  predicate ServesLate(w: World, w': World, p: Proc, p': Proc, other: Proc, b: Message) {
    && HoldsKey(p.replica) && p.inflight.None? && SameLog(w, w') && w'.net == w.net + {b}
    && b.Custody? && b.from == p.replica.activationKey && b.to in w.used && b.to != p.replica.activationKey
    && (Unkeyed(other) ==> b.to != other.replica.activationKey)
    && p' == p.(replica := p.replica.(peer := Some(b.to)))
  }

  lemma LateRequestIsServed(w: World, s: Slot, requester: Pem)
    requires AsksLate(w, s, requester) && ContentAt(w, At(w, Opposite(s)))
    ensures var w' := StepServeLate(w, s, requester);
            && ServesLate(w, w', At(w, s), At(w', s), At(w, Opposite(s)), BundleTo(w, s, requester))
            && At(w', Opposite(s)) == At(w, Opposite(s)) && w'.released == w.released
            && w' == Step(ALL, w, ServeLateRequest(s, requester))
  {
  }

  lemma ServeLateKeepsMover(w: World, w': World, p: Proc, p': Proc, other: Proc, b: Message)
    requires Both(w, p, other) && ServesLate(w, w', p, p', other, b)
    ensures SlotOk(w', p', other)
  {
  }

  lemma ServeLateKeepsOther(w: World, w': World, p: Proc, p': Proc, other: Proc, b: Message)
    requires Both(w, p, other) && ServesLate(w, w', p, p', other, b)
    ensures SlotOk(w', other, p')
  {
  }

  lemma ServeLateKeepsProtocol(w: World, s: Slot, requester: Pem)
    requires Protocol(w) && ContentOk(w)
    ensures Protocol(Step(ALL, w, ServeLateRequest(s, requester)))
  {
    var w' := StepServeLate(w, s, requester);
    if AsksLate(w, s, requester) {
      BothSlots(w, s);
      LateRequestIsServed(w, s, requester);
      ServeLateKeepsMover(w, w', At(w, s), At(w', s), At(w, Opposite(s)), BundleTo(w, s, requester));
      ServeLateKeepsOther(w, w', At(w, s), At(w', s), At(w, Opposite(s)), BundleTo(w, s, requester));
      FromSlots(w', s);
    }
  }

  /** The process applies a bundle that was sealed to it. */
  predicate Adopts(w: World, w': World, p: Proc, p': Proc, b: Message) {
    && b in w.net && b.Custody? && b.to == p.replica.activationKey && Unkeyed(p) && SameLog(w, w') && w'.net == w.net
    && p'.replica.activationKey == p.replica.activationKey && p'.replica.role == Some(b.role)
    && p'.replica.peer == Some(b.from) && p'.replica.gov.status != Inactive
    && p'.replica.replicaSerial == b.snapshot.replicaSerial
    && p'.history == b.history && p'.inflight.None?
  }

  lemma AdoptKeepsMover(w: World, w': World, p: Proc, p': Proc, other: Proc, b: Message)
    requires Both(w, p, other) && Adopts(w, w', p, p', b)
    ensures SlotOk(w', p', other)
  {
    assert BundleOk(w, p, other, b);
  }

  lemma AdoptKeepsOther(w: World, w': World, p: Proc, p': Proc, other: Proc, b: Message)
    requires Both(w, p, other) && Adopts(w, w', p, p', b)
    ensures SlotOk(w', other, p')
  {
    assert BundleOk(w, p, other, b);
  }

  lemma DeliverCustodyKeepsProtocol(w: World, s: Slot, b: Message)
    requires Protocol(w)
    ensures Protocol(Step(ALL, w, DeliverCustody(s, b)))
  {
    var w' := StepDeliverCustody(w, s, b);
    if w' != w {
      BothSlots(w, s);
      AdoptKeepsMover(w, w', At(w, s), At(w', s), At(w, Opposite(s)), b);
      AdoptKeepsOther(w, w', At(w, s), At(w', s), At(w, Opposite(s)), b);
      FromSlots(w', s);
    }
  }

  /** A custodian becomes primary; a primary in the other slot is thereby replaced. */
  predicate TakesOver(w: World, w': World, p: Proc, p': Proc, other: Proc) {
    && IsCustodian(p) && p' == p.(replica := p.replica.(role := Some(Primary), peer := None))
    && (Unkeyed(other) ==> forall b :: b in w.net && b.Custody? && b.to == other.replica.activationKey ==>
                             b.from != p.replica.activationKey)
    && w'.net == w.net && w'.used == w.used && w'.tip == p.history
    && w'.replaced == (if IsPrimary(other) then w.replaced + {other.replica.activationKey} else w.replaced)
  }

  lemma PromoteKeepsMover(w: World, w': World, p: Proc, p': Proc, other: Proc)
    requires Both(w, p, other) && TakesOver(w, w', p, p', other)
    ensures SlotOk(w', p', other)
  {
    assert CustodianOk(w, p, other) && p.replica.activationKey !in w.replaced;
  }

  lemma PromoteKeepsOther(w: World, w': World, p: Proc, p': Proc, other: Proc)
    requires Both(w, p, other) && TakesOver(w, w', p, p', other)
    ensures SlotOk(w', other, p')
  {
    assert CustodianOk(w, p, other) && p.replica.activationKey !in w.replaced;
    assert IsPrimary(other) ==> ReplacedOk(w', other, p');
  }

  lemma PromotionTakesOver(w: World, s: Slot)
    requires Both(w, At(w, s), At(w, Opposite(s))) && ContentAt(w, At(w, Opposite(s))) && CanPromote(ALL, w, s)
    requires Promote(At(w, s).replica).Ok?
    requires LogOk(w)
    ensures TakesOver(w, StepPromote(w, s), At(w, s), At(StepPromote(w, s), s), At(w, Opposite(s)))
    ensures LogOk(StepPromote(w, s)) && StepPromote(w, s).sealed == w.sealed
    ensures At(StepPromote(w, s), Opposite(s)) == At(w, Opposite(s))
  {
    assert Unkeyed(At(w, Opposite(s))) ==> IsFresh(At(w, Opposite(s)).replica);
    assert CustodianOk(w, At(w, s), At(w, Opposite(s)));
  }

  lemma PromoteKeepsProtocol(w: World, s: Slot)
    requires Protocol(w) && ContentOk(w)
    ensures Protocol(Step(ALL, w, PromoteCustodian(s)))
  {
    var w' := StepPromote(w, s);
    if CanPromote(ALL, w, s) && Promote(At(w, s).replica).Ok? {
      BothSlots(w, s);
      PromotionTakesOver(w, s);
      PromoteKeepsMover(w, w', At(w, s), At(w', s), At(w, Opposite(s)));
      PromoteKeepsOther(w, w', At(w, s), At(w', s), At(w, Opposite(s)));
      FromSlots(w', s);
    }
  }

  lemma LoseKeepsSlot(w: World, w': World, p: Proc, other: Proc)
    requires SlotOk(w, p, other) && SameLog(w, w') && w'.net <= w.net
    ensures SlotOk(w', p, other)
  {
  }

  lemma LoseKeepsProtocol(w: World, m: Message)
    requires Protocol(w)
    ensures Protocol(Step(ALL, w, Lose(m)))
  {
    LoseKeepsSlot(w, w.(net := w.net - {m}), w.a, w.b);
    LoseKeepsSlot(w, w.(net := w.net - {m}), w.b, w.a);
  }

  // ---------------------------------------------------------------------
  // Both layers over every run
  // ---------------------------------------------------------------------

  predicate Inv(w: World) {
    ContentOk(w) && Protocol(w)
  }

  lemma BeginKeepsProtocol(w: World, s: Slot, change: Change)
    requires Inv(w)
    ensures Protocol(Step(ALL, w, BeginCommit(s, change)))
  {
    var p := At(w, s);
    if IsPrimary(p) && p.inflight.None? {
      if Mutate(p.replica.key, p.replica.gov, change).Ok? {
        var gov := Mutate(p.replica.key, p.replica.gov, change).value;
        MutateKeepsHolder(w.key, p.replica.gov, change);
        if NeedsAck(p.replica) { SentKeepsProtocol(w, s, change, gov); } else { AloneKeepsProtocol(w, s, change, gov); }
      } else {
        ThrownKeepsProtocol(w, s);
      }
    }
  }

  lemma StepKeepsInv(w: World, e: Event)
    requires Inv(w)
    ensures Inv(Step(ALL, w, e))
  {
    StepKeepsContent(w, e);
    match e
    case BeginCommit(s, change) => BeginKeepsProtocol(w, s, change);
    case DeliverSync(s, m) => DeliverKeepsProtocol(w, s, m);
    case ReleaseCommit(s) => ReleaseKeepsProtocol(w, s);
    case FailCommit(s) => FailKeepsProtocol(w, s);
    case Restart(s, activationKey, ownKey, bootRole) => RestartKeepsProtocol(w, s, activationKey, ownKey, bootRole);
    case Lose(m) => LoseKeepsProtocol(w, m);
    case ServeCustody(s) => ServeKeepsProtocol(w, s);
    case ServeLateRequest(s, requester) => ServeLateKeepsProtocol(w, s, requester);
    case DeliverCustody(s, m) => DeliverCustodyKeepsProtocol(w, s, m);
    case PromoteCustodian(s) => PromoteKeepsProtocol(w, s);
    case SealCustody(_) =>
    case CompleteCustody(_) =>
  }

  lemma InvInitially(w: World)
    requires Initial(w)
    ensures Inv(w)
  {
  }

  lemma {:induction false} RunKeepsInv(w: World, events: seq<Event>)
    requires Initial(w)
    ensures Inv(Run(ALL, w, events))
  {
    if |events| == 0 {
      InvInitially(w);
    } else {
      RunKeepsInv(w, events[..|events| - 1]);
      StepKeepsInv(Run(ALL, w, events[..|events| - 1]), events[|events| - 1]);
    }
  }
}
