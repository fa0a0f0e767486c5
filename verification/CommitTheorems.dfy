/** What becomes of commits over whole runs: their serials, their reverts, that none is ever stuck, and what a restarted
    primary gets back. */
module CommitTheorems {
  import opened Prelude
  import opened Lineage
  import opened Governance
  import opened GovernanceHistory
  import opened Replica
  import opened Replication
  import opened ReplicationSafety
  import opened ReplicationTheorems

  /** Whatever comes of a commit (thrown, released, reverted), its serial is above every one the process
      used before. */
  lemma CommitTakesNewSerial(w: World, s: Slot, change: Change)
    requires IsPrimary(At(w, s)) && At(w, s).inflight.None?
    ensures var begun := Step(ALL, w, BeginCommit(s, change));
            && At(begun, s).replica.replicaSerial == At(w, s).replica.replicaSerial + 1
            && At(StepFail(begun, s), s).replica.replicaSerial == At(w, s).replica.replicaSerial + 1
            && At(StepRelease(begun, s), s).replica.replicaSerial == At(w, s).replica.replicaSerial + 1
  {
  }

  /** No two different syncs of one process carry the same serial. */
  predicate SerialsUnique(w: World) {
    forall m, n :: m in w.net && n in w.net && m.Sync? && n.Sync? ==>
      m.from == n.from && m.snapshot.replicaSerial == n.snapshot.replicaSerial ==> m == n
  }

  lemma BeginKeepsUnique(w: World, s: Slot, change: Change)
    requires SerialsUnique(w) && MessagesOf(w, At(w, s))
    ensures SerialsUnique(StepBegin(w, s, change))
  {
  }

  lemma OnlyBeginSends(now: World, e: Event)
    requires !e.BeginCommit?
    ensures forall m :: m in Step(ALL, now, e).net && m.Sync? ==> m in now.net
  {
  }

  lemma StepKeepsUnique(now: World, e: Event)
    requires Inv(now) && SerialsUnique(now)
    ensures SerialsUnique(Step(ALL, now, e))
  {
    if e.BeginCommit? {
      BothSlots(now, e.slot);
      BeginKeepsUnique(now, e.slot, e.change);
    } else {
      OnlyBeginSends(now, e);
    }
  }

  lemma {:induction false} SerialsUniqueAtOnce(w: World, events: seq<Event>)
    requires Initial(w)
    ensures SerialsUnique(Run(ALL, w, events))
  {
    if |events| > 0 {
      SerialsUniqueAtOnce(w, events[..|events| - 1]);
      RunKeepsInv(w, events[..|events| - 1]);
      StepKeepsUnique(Run(ALL, w, events[..|events| - 1]), events[|events| - 1]);
    }
  }

  /** A process that sent a sync holds the key, and has used up the sync's serial. */
  predicate Spent(now: World, m: Message)
    requires m.Sync?
  {
    && m.from in now.used
    && SpentBy(now.a, m) && SpentBy(now.b, m)
    && (forall n :: n in now.net && n.Sync? && SameSerial(n, m) ==> n == m)
  }

  predicate SameSerial(n: Message, m: Message)
    requires n.Sync? && m.Sync?
  {
    n.from == m.from && n.snapshot.replicaSerial == m.snapshot.replicaSerial
  }

  predicate SpentBy(p: Proc, m: Message)
    requires m.Sync?
  {
    p.replica.activationKey == m.from ==> !Unkeyed(p) && m.snapshot.replicaSerial <= p.replica.replicaSerial
  }

  /** A process goes on, and never lowers its serial, or is one never seen before. */
  predicate MovesOn(used: set<Pem>, p: Proc, p': Proc) {
    || p'.replica.activationKey !in used
    || (&& p'.replica.activationKey == p.replica.activationKey
        && (!Unkeyed(p) ==> !Unkeyed(p') && p.replica.replicaSerial <= p'.replica.replicaSerial))
  }

  predicate BothMoveOn(now: World, after: World) {
    now.used <= after.used && MovesOn(now.used, now.a, after.a) && MovesOn(now.used, now.b, after.b)
  }

  lemma StartMovesOn(now: World, s: Slot, change: Change, gov: Gov)
    requires gov.status != Inactive
    ensures BothMoveOn(now, Thrown(now, s)) && BothMoveOn(now, Alone(now, s, change, gov))
    ensures NeedsAck(At(now, s).replica) ==> BothMoveOn(now, Sent(now, s, change, gov))
  {
  }

  lemma BeginMovesOn(now: World, s: Slot, change: Change)
    requires ContentOk(now)
    ensures BothMoveOn(now, Step(ALL, now, BeginCommit(s, change)))
  {
    var p := At(now, s);
    if IsPrimary(p) && p.inflight.None? && Mutate(p.replica.key, p.replica.gov, change).Ok? {
      MutateKeepsHolder(now.key, p.replica.gov, change);
      StartMovesOn(now, s, change, Mutate(p.replica.key, p.replica.gov, change).value);
    }
  }

  lemma DeliverMovesOn(now: World, s: Slot, m: Message)
    ensures BothMoveOn(now, Step(ALL, now, DeliverSync(s, m))) && BothMoveOn(now, Step(ALL, now, ReleaseCommit(s)))
  {
  }

  lemma FailMovesOn(now: World, s: Slot)
    requires Protocol(now)
    ensures BothMoveOn(now, Step(ALL, now, FailCommit(s)))
  {
    BothSlots(now, s);
  }

  lemma ServeMovesOn(now: World, s: Slot, requester: Pem)
    ensures BothMoveOn(now, Step(ALL, now, ServeCustody(s)))
    ensures BothMoveOn(now, Step(ALL, now, ServeLateRequest(s, requester)))
  {
  }

  lemma CustodyMovesOn(now: World, s: Slot, m: Message)
    ensures BothMoveOn(now, Step(ALL, now, DeliverCustody(s, m)))
    ensures BothMoveOn(now, Step(ALL, now, PromoteCustodian(s)))
  {
  }

  lemma RestartMovesOn(now: World, s: Slot, activationKey: Pem, ownKey: Pem, bootRole: Role)
    ensures BothMoveOn(now, Step(ALL, now, Restart(s, activationKey, ownKey, bootRole)))
  {
  }

  lemma StepMovesOn(now: World, e: Event)
    requires Inv(now)
    ensures BothMoveOn(now, Step(ALL, now, e))
  {
    match e
    case BeginCommit(s, change) => BeginMovesOn(now, s, change);
    case DeliverSync(s, m) => DeliverMovesOn(now, s, m);
    case ReleaseCommit(s) => DeliverMovesOn(now, s, Ack(0, 0));
    case FailCommit(s) => FailMovesOn(now, s);
    case Restart(s, activationKey, ownKey, bootRole) => RestartMovesOn(now, s, activationKey, ownKey, bootRole);
    case ServeCustody(s) => ServeMovesOn(now, s, 0);
    case ServeLateRequest(s, requester) => ServeMovesOn(now, s, requester);
    case DeliverCustody(s, m) => CustodyMovesOn(now, s, m);
    case PromoteCustodian(s) => CustodyMovesOn(now, s, Ack(0, 0));
    case _ =>
  }

  lemma BeginSpendsNew(now: World, s: Slot, change: Change, m: Message, n: Message)
    requires m.Sync? && Spent(now, m)
    requires n in StepBegin(now, s, change).net && n.Sync? && n.from == m.from
    requires n.snapshot.replicaSerial == m.snapshot.replicaSerial
    ensures n == m
  {
  }

  lemma StepKeepsSpent(now: World, e: Event, m: Message)
    requires Inv(now) && m.Sync? && Spent(now, m)
    ensures Spent(Step(ALL, now, e), m)
  {
    StepMovesOn(now, e);
    if e.BeginCommit? {
      var after := StepBegin(now, e.slot, e.change);
      forall n | n in after.net && n.Sync? && n.from == m.from && n.snapshot.replicaSerial == m.snapshot.replicaSerial
        ensures n == m
      {
        BeginSpendsNew(now, e.slot, e.change, m, n);
      }
    } else {
      OnlyBeginSends(now, e);
    }
  }

  lemma SentIsSpent(now: World, m: Message)
    requires Inv(now) && SerialsUnique(now) && m in now.net && m.Sync?
    ensures Spent(now, m)
  {
  }

  lemma LastStepKeepsSpent(w: World, earlier: seq<Event>, e: Event, m: Message)
    requires Inv(Run(ALL, w, earlier)) && m.Sync? && Spent(Run(ALL, w, earlier), m)
    ensures Spent(Run(ALL, w, earlier + [e]), m)
  {
    StepKeepsSpent(Run(ALL, w, earlier), e, m);
    assert (earlier + [e])[..|earlier|] == earlier;
  }

  lemma {:induction false} StaysSpent(w: World, events: seq<Event>, more: seq<Event>, m: Message)
    requires Initial(w) && m.Sync? && Spent(Run(ALL, w, events), m)
    ensures Spent(Run(ALL, w, events + more), m)
  {
    if |more| == 0 {
      assert events + more == events;
    } else {
      var earlier := events + more[..|more| - 1];
      StaysSpent(w, events, more[..|more| - 1], m);
      RunKeepsInv(w, earlier);
      LastStepKeepsSpent(w, earlier, more[|more| - 1], m);
      assert earlier + [more[|more| - 1]] == events + more;
    }
  }

  /** No process ever sends two different syncs with one serial, however far apart and whatever is lost between. */
  lemma {:induction false} SerialsNeverRepeat(w: World, events: seq<Event>, more: seq<Event>, m: Message, n: Message)
    requires Initial(w)
    requires m in Run(ALL, w, events).net && m.Sync? && n in Run(ALL, w, events + more).net && n.Sync?
    requires m.from == n.from && m.snapshot.replicaSerial == n.snapshot.replicaSerial
    ensures m == n
  {
    SerialsUniqueAtOnce(w, events);
    RunKeepsInv(w, events);
    SentIsSpent(Run(ALL, w, events), m);
    StaysSpent(w, events, more, m);
  }

  predicate Rises(used: set<Pem>, p: Proc, q: Proc) {
    && p.replica.activationKey in used
    && (q.replica.activationKey == p.replica.activationKey && !Unkeyed(p) ==>
          !Unkeyed(q) && p.replica.replicaSerial <= q.replica.replicaSerial)
  }

  lemma StepKeepsRising(now: World, e: Event, s: Slot, p: Proc)
    requires Inv(now) && Rises(now.used, p, At(now, s))
    ensures Rises(Step(ALL, now, e).used, p, At(Step(ALL, now, e), s))
  {
    StepMovesOn(now, e);
  }

  lemma {:induction false} SerialsOnlyRise(w: World, events: seq<Event>, more: seq<Event>, s: Slot)
    requires Initial(w)
    ensures Rises(Run(ALL, w, events + more).used, At(Run(ALL, w, events), s), At(Run(ALL, w, events + more), s))
  {
    if |more| == 0 {
      assert events + more == events;
      RunKeepsInv(w, events);
      StartsRising(Run(ALL, w, events), s);
    } else {
      var earlier := events + more[..|more| - 1];
      SerialsOnlyRise(w, events, more[..|more| - 1], s);
      RunKeepsInv(w, earlier);
      LastStepKeepsRising(w, earlier, more[|more| - 1], s, At(Run(ALL, w, events), s));
      assert earlier + [more[|more| - 1]] == events + more;
    }
  }

  lemma StartsRising(now: World, s: Slot)
    requires Protocol(now)
    ensures Rises(now.used, At(now, s), At(now, s))
  {
    BothSlots(now, s);
  }

  lemma LastStepKeepsRising(w: World, earlier: seq<Event>, e: Event, s: Slot, p: Proc)
    requires Inv(Run(ALL, w, earlier)) && Rises(Run(ALL, w, earlier).used, p, At(Run(ALL, w, earlier), s))
    ensures Rises(Run(ALL, w, earlier + [e]).used, p, At(Run(ALL, w, earlier + [e]), s))
  {
    StepKeepsRising(Run(ALL, w, earlier), e, s, p);
    assert (earlier + [e])[..|earlier|] == earlier;
  }

  /** A commit uses up its serial for good: whatever becomes of it and whatever follows, the process never again
      has a serial as low as before. */
  lemma CommitRaisesSerialForGood(w: World, events: seq<Event>, s: Slot, change: Change, more: seq<Event>)
    requires Initial(w)
    requires IsPrimary(At(Run(ALL, w, events), s)) && At(Run(ALL, w, events), s).inflight.None?
    ensures var p, q := At(Run(ALL, w, events), s), At(Run(ALL, w, events + [BeginCommit(s, change)] + more), s);
            q.replica.activationKey == p.replica.activationKey ==> p.replica.replicaSerial < q.replica.replicaSerial
  {
    var now, begun := Run(ALL, w, events), events + [BeginCommit(s, change)];
    assert begun[..|begun| - 1] == events;
    RunKeepsInv(w, begun);
    CommitTakesNewSerial(now, s, change);
    StepMovesOnFrom(w, events, s, change);
    SerialsOnlyRise(w, begun, more, s);
  }

  lemma StepMovesOnFrom(w: World, events: seq<Event>, s: Slot, change: Change)
    requires Initial(w) && IsPrimary(At(Run(ALL, w, events), s))
    ensures var p := At(Run(ALL, w, events + [BeginCommit(s, change)]), s);
            p.replica.activationKey == At(Run(ALL, w, events), s).replica.activationKey && !Unkeyed(p)
  {
    var now, begun := Run(ALL, w, events), events + [BeginCommit(s, change)];
    assert begun[..|begun| - 1] == events;
    RunKeepsInv(w, events);
    BothSlots(now, s);
    StepMovesOn(now, BeginCommit(s, change));
    BeginKeepsKey(now, s, change);
  }

  lemma BeginKeepsKey(now: World, s: Slot, change: Change)
    ensures At(StepBegin(now, s, change), s).replica.activationKey == At(now, s).replica.activationKey
  {
  }

  lemma WaitingStep(now: World, s: Slot, e: Event)
    requires Protocol(now) && At(now, s).inflight.Some?
    requires e != ReleaseCommit(s) && e != FailCommit(s) && !(e.Restart? && e.slot == s)
    ensures At(Step(ALL, now, e), s) == At(now, s)
  {
    BothSlots(now, s);
    match e
    case DeliverSync(t, m) =>
      if t == s && m.Sync? { assert AcceptSync(At(now, s).replica, m.snapshot).Err?; }
    case ServeCustody(t) => assert t == s ==> !CanServe(ALL, now, t);
    case DeliverCustody(t, m) => assert t == s ==> !IsFresh(At(now, s).replica);
    case PromoteCustodian(t) => assert t == s ==> Promote(At(now, s).replica).Err?;
    case _ =>
  }

  /** While a commit waits, nothing but its own outcome or a crash touches the replica's record. */
  lemma WaitingCommitIsUndisturbed(w: World, events: seq<Event>, s: Slot, e: Event)
    requires Initial(w) && At(Run(ALL, w, events), s).inflight.Some?
    requires e != ReleaseCommit(s) && e != FailCommit(s) && !(e.Restart? && e.slot == s)
    ensures At(Step(ALL, Run(ALL, w, events), e), s) == At(Run(ALL, w, events), s)
  {
    RunKeepsInv(w, events);
    WaitingStep(Run(ALL, w, events), s, e);
  }

  /** A commit that fails restores every replicated field to the replay of what was released before it. */
  lemma FailedCommitRestoresEverything(w: World, events: seq<Event>, now: World, s: Slot)
    requires Initial(w) && now == Run(ALL, w, events) && At(now, s).inflight.Some?
    ensures var failed := At(Step(ALL, now, FailCommit(s)), s);
            && failed.inflight.None?
            && failed.replica.gov == Replay(w.key, w.start, failed.history)
            && failed.replica.replicaSerial == At(now, s).replica.replicaSerial
            && (exists change :: At(now, s).history == failed.history + [change])
            && (Leads(now, At(now, s)) ==> failed.history == now.tip)
  {
    RunKeepsInv(w, events);
    RunKeepsConstants(ALL, w, events);
    FailureRestores(now, s);
  }

  lemma FailureRestores(now: World, s: Slot)
    requires Inv(now) && At(now, s).inflight.Some?
    ensures var failed := At(Step(ALL, now, FailCommit(s)), s);
            && failed.inflight.None?
            && failed.replica.gov == Replay(now.key, now.start, failed.history)
            && failed.replica.replicaSerial == At(now, s).replica.replicaSerial
            && (exists change :: At(now, s).history == failed.history + [change])
            && (Leads(now, At(now, s)) ==> failed.history == now.tip)
  {
    BothSlots(now, s);
    InflightAddsOne(now, At(now, s), At(now, Opposite(s)));
  }

  lemma InflightAddsOne(now: World, p: Proc, other: Proc)
    requires SlotOk(now, p, other) && p.inflight.Some?
    ensures exists change :: p.history == Base(p) + [change]
    ensures Leads(now, p) ==> Base(p) == now.tip
  {
    assert p.history == Base(p) + [p.history[|Base(p)|]];
  }

  /** The sync a commit of `change` sends from slot `s`. */
  function SyncOf(w: World, s: Slot, change: Change, gov: Gov): Message {
    Sync(At(w, s).replica.activationKey, At(w, Opposite(s)).replica.activationKey,
         Snapshot(gov, At(w, s).replica.replicaSerial + 1), w.tip + [change])
  }

  /** A leader between commits that has its custodian recorded as peer. */
  predicate Pair(w: World, s: Slot) {
    && Leads(w, At(w, s)) && At(w, s).inflight.None? && IsCustodian(At(w, Opposite(s)))
    && At(w, s).replica.peer == Some(At(w, Opposite(s)).replica.activationKey)
  }

  /** A custodian that its primary has recorded as peer is never wedged: after any run whatever, a commit whose
      sync and reply both arrive is released, and both replicas then hold it. */
  lemma NextCommitSucceeds(w: World, events: seq<Event>, now: World, s: Slot, change: Change, gov: Gov)
    requires Initial(w) && now == Run(ALL, w, events)
    requires Pair(now, s) && Mutate(w.key, At(now, s).replica.gov, change) == Ok(gov)
    ensures var sync := SyncOf(now, s, change, gov);
            var done := Run(ALL, now, [BeginCommit(s, change), DeliverSync(Opposite(s), sync), ReleaseCommit(s)]);
            && done.tip == now.tip + [change] && done.tip in done.released
            && At(done, s).replica.gov == gov && At(done, s).inflight.None?
            && At(done, Opposite(s)).replica.gov == gov
            && CommittedPair(now, done, s)
  {
    RunKeepsInv(w, events);
    RunKeepsConstants(ALL, w, events);
    PairIsAligned(now, s);
    MutateKeepsHolder(w.key, At(now, s).replica.gov, change);
    AlignedCommitSucceeds(now, s, change, gov);
  }

  /** A commit of a pair that agrees, its sync and its reply. */
  lemma AlignedCommitSucceeds(now: World, s: Slot, change: Change, gov: Gov)
    requires Leads(now, At(now, s)) && At(now, s).inflight.None? && At(now, s).history == now.tip
    requires Mutate(At(now, s).replica.key, At(now, s).replica.gov, change) == Ok(gov)
    requires IsCustodian(At(now, Opposite(s)))
    requires At(now, s).replica.peer == Some(At(now, Opposite(s)).replica.activationKey)
    requires At(now, Opposite(s)).replica.replicaSerial <= At(now, s).replica.replicaSerial
    requires SnapshotOk(Snapshot(gov, 0)) && gov.lineage == At(now, Opposite(s)).replica.gov.lineage
    ensures var sync := SyncOf(now, s, change, gov);
            var done := Run(ALL, now, [BeginCommit(s, change), DeliverSync(Opposite(s), sync), ReleaseCommit(s)]);
            && done.tip == now.tip + [change] && done.tip in done.released
            && At(done, s).replica.gov == gov && At(done, s).inflight.None?
            && At(done, Opposite(s)).replica.gov == gov
            && CommittedPair(now, done, s)
  {
    BeginSends(now, s, change, gov);
    RunOfCommit(now, s, change, SyncOf(now, s, change, gov));
    DeliveredAndReleased(now, s, change, gov);
  }

  lemma RunOfCommit(now: World, s: Slot, change: Change, sync: Message)
    ensures Run(ALL, now, [BeginCommit(s, change), DeliverSync(Opposite(s), sync), ReleaseCommit(s)]) ==
              StepRelease(StepDeliver(StepBegin(now, s, change), Opposite(s), sync), s)
  {
    RunThree(now, BeginCommit(s, change), DeliverSync(Opposite(s), sync), ReleaseCommit(s));
  }

  lemma RunThree(w: World, one: Event, two: Event, three: Event)
    ensures Run(ALL, w, [one, two, three]) == Step(ALL, Step(ALL, Step(ALL, w, one), two), three)
  {
    assert [one, two, three][..2] == [one, two];
    assert [one, two][..1] == [one];
    assert [one][..0] == [];
    assert Run(ALL, w, [one]) == Step(ALL, w, one);
    assert Run(ALL, w, [one, two]) == Step(ALL, Step(ALL, w, one), two);
  }

  lemma BeginSends(w: World, s: Slot, change: Change, gov: Gov)
    requires IsPrimary(At(w, s)) && At(w, s).inflight.None? && At(w, s).replica.peer.Some?
    requires Mutate(At(w, s).replica.key, At(w, s).replica.gov, change) == Ok(gov)
    ensures StepBegin(w, s, change) == Sent(w, s, change, gov)
  {
  }

  lemma PairIsAligned(w: World, s: Slot)
    requires Inv(w)
    requires Leads(w, At(w, s)) && At(w, s).inflight.None? && IsCustodian(At(w, Opposite(s)))
    ensures var p, c := At(w, s), At(w, Opposite(s));
            && p.history == w.tip && c.replica.replicaSerial <= p.replica.replicaSerial
            && p.replica.key == w.key && Holder(w.key, p.replica.gov)
            && c.replica.gov.lineage == p.replica.gov.lineage == w.start.lineage
  {
    BothSlots(w, s);
    ReplayKeepsHolder(w.key, w.start, At(w, s).history);
    ReplayKeepsHolder(w.key, w.start, At(w, Opposite(s)).history);
  }

  lemma DeliveredAndReleased(now: World, s: Slot, change: Change, gov: Gov)
    requires Leads(now, At(now, s)) && At(now, s).inflight.None? && At(now, s).history == now.tip
    requires IsCustodian(At(now, Opposite(s)))
    requires At(now, s).replica.peer == Some(At(now, Opposite(s)).replica.activationKey)
    requires At(now, Opposite(s)).replica.replicaSerial <= At(now, s).replica.replicaSerial
    requires SnapshotOk(Snapshot(gov, 0)) && gov.lineage == At(now, Opposite(s)).replica.gov.lineage
    ensures var begun := Sent(now, s, change, gov);
            var done := StepRelease(StepDeliver(begun, Opposite(s), SyncOf(now, s, change, gov)), s);
            && done.tip == now.tip + [change] && done.tip in done.released
            && At(done, s).replica.gov == gov && At(done, s).inflight.None?
            && At(done, Opposite(s)).replica.gov == gov
            && CommittedPair(now, done, s)
  {
  }

  // ---------------------------------------------------------------------
  // A primary that has somebody else recorded as peer
  // ---------------------------------------------------------------------

  /** The primary's recorded peer is not the custodian `c` in the other slot, and no commit of it is about to be
      acknowledged. */
  predicate Stranded(w: World, s: Slot, c: Pem) {
    StrandedAt(w, At(w, s), At(w, Opposite(s)), c)
  }

  predicate StrandedAt(w: World, p: Proc, other: Proc, c: Pem) {
    && Leads(w, p) && IsCustodian(other) && other.replica.activationKey == c
    && p.replica.peer.Some? && p.replica.peer != Some(c)
    && (p.inflight.Some? ==> !Acknowledged(w, p) && CurrentSyncMisses(w, p, c))
  }

  predicate CurrentSyncMisses(w: World, p: Proc, c: Pem) {
    forall m :: m in w.net && m.Sync? && m.from == p.replica.activationKey
                && m.snapshot.replicaSerial == p.replica.replicaSerial ==>
      m.to != c
  }

  /** What ends it: a process restarts, the custodian is promoted, or the primary handles a request of it. */
  predicate Heals(s: Slot, c: Pem, e: Event) {
    e.Restart? || e == PromoteCustodian(Opposite(s)) || e == ServeLateRequest(s, c)
  }

  /** Nothing is released. */
  predicate StaysStranded(now: World, after: World, s: Slot, c: Pem) {
    Stranded(after, s, c) && after.released == now.released && after.tip == now.tip
  }

  lemma SentIsStranded(w: World, w': World, p: Proc, p': Proc, other: Proc, change: Change, c: Pem)
    requires Both(w, p, other) && Sends(w, w', p, p', change) && StrandedAt(w, p, other, c)
    ensures StrandedAt(w', p', other, c)
  {
  }

  lemma SentStaysStranded(now: World, s: Slot, c: Pem, change: Change, gov: Gov)
    requires Protocol(now) && Stranded(now, s, c) && At(now, s).inflight.None? && gov.status != Inactive
    ensures StaysStranded(now, Sent(now, s, change, gov), s, c)
  {
    BothSlots(now, s);
    var w' := Sent(now, s, change, gov);
    SentIsStranded(now, w', At(now, s), At(w', s), At(now, Opposite(s)), change, c);
  }

  lemma BeginStaysStranded(now: World, s: Slot, c: Pem, t: Slot, change: Change)
    requires Protocol(now) && ContentAt(now, At(now, s)) && Stranded(now, s, c)
    ensures StaysStranded(now, Step(ALL, now, BeginCommit(t, change)), s, c)
  {
    var p := At(now, s);
    if t == s && p.inflight.None? && Mutate(p.replica.key, p.replica.gov, change).Ok? {
      var gov := Mutate(p.replica.key, p.replica.gov, change).value;
      MutateKeepsHolder(now.key, p.replica.gov, change);
      BeginSends(now, s, change, gov);
      SentStaysStranded(now, s, c, change, gov);
    }
  }

  lemma ReceivedIsStranded(w: World, w': World, p: Proc, other: Proc, other': Proc, m: Message, c: Pem)
    requires Both(w, p, other) && Receives(w, w', other, other', m) && StrandedAt(w, p, other, c)
    ensures StrandedAt(w', p, other', c)
  {
  }

  lemma DeliverStaysStranded(now: World, s: Slot, c: Pem, t: Slot, m: Message)
    requires Inv(now) && Stranded(now, s, c)
    ensures StaysStranded(now, Step(ALL, now, DeliverSync(t, m)), s, c)
  {
    BothSlots(now, s);
    var w' := StepDeliver(now, t, m);
    if w' != now {
      assert t == Opposite(s);
      ReceivedIsStranded(now, w', At(now, s), At(now, t), At(w', t), m, c);
    }
  }

  lemma ReleaseStaysStranded(now: World, s: Slot, c: Pem, t: Slot)
    requires Protocol(now) && Stranded(now, s, c)
    ensures Step(ALL, now, ReleaseCommit(t)) == now
  {
    BothSlots(now, s);
  }

  lemma RevertedIsStranded(w: World, w': World, p: Proc, p': Proc, other: Proc, c: Pem)
    requires Both(w, p, other) && Reverts(w, w', p, p') && StrandedAt(w, p, other, c)
    ensures StrandedAt(w', p', other, c)
  {
  }

  lemma FailStaysStranded(now: World, s: Slot, c: Pem, t: Slot)
    requires Protocol(now) && Stranded(now, s, c)
    ensures StaysStranded(now, Step(ALL, now, FailCommit(t)), s, c)
  {
    BothSlots(now, s);
    var w' := StepFail(now, t);
    if At(now, t).inflight.Some? {
      RevertedIsStranded(now, w', At(now, s), At(w', s), At(now, Opposite(s)), c);
    }
  }

  lemma ServedLateIsStranded(w: World, w': World, p: Proc, p': Proc, other: Proc, b: Message, c: Pem)
    requires Both(w, p, other) && ServesLate(w, w', p, p', other, b)
    ensures StrandedAt(w, p, other, c) && b.to != c ==> StrandedAt(w', p', other, c)
    ensures StrandedAt(w, other, p, c) ==> StrandedAt(w', other, p', c)
  {
  }

  lemma ServeLateStaysStranded(now: World, s: Slot, c: Pem, t: Slot, requester: Pem)
    requires Protocol(now) && ContentAt(now, At(now, Opposite(t))) && Stranded(now, s, c) && !(t == s && requester == c)
    ensures StaysStranded(now, Step(ALL, now, ServeLateRequest(t, requester)), s, c)
  {
    BothSlots(now, t);
    if AsksLate(now, t, requester) {
      var w' := StepServeLate(now, t, requester);
      LateRequestIsServed(now, t, requester);
      ServedLateIsStranded(now, w', At(now, t), At(w', t), At(now, Opposite(t)), BundleTo(now, t, requester), c);
    }
  }

  /** Neither process is fresh, and only the custodian can be promoted. */
  lemma NoCustodyWhileStranded(now: World, s: Slot, c: Pem, e: Event)
    requires Protocol(now) && Stranded(now, s, c) && !Heals(s, c, e)
    requires e.ServeCustody? || e.DeliverCustody? || e.PromoteCustodian? || e.SealCustody? || e.CompleteCustody?
    ensures Step(ALL, now, e) == now
  {
    match e
    case DeliverCustody(t, _) => assert !IsFresh(At(now, t).replica);
    case PromoteCustodian(t) => assert Promote(At(now, t).replica).Err?;
    case _ =>
  }

  lemma StepStaysStranded(now: World, s: Slot, c: Pem, e: Event)
    requires Inv(now) && Stranded(now, s, c) && !Heals(s, c, e)
    ensures StaysStranded(now, Step(ALL, now, e), s, c)
  {
    match e
    case BeginCommit(t, change) => BeginStaysStranded(now, s, c, t, change);
    case DeliverSync(t, m) => DeliverStaysStranded(now, s, c, t, m);
    case ReleaseCommit(t) => ReleaseStaysStranded(now, s, c, t);
    case FailCommit(t) => FailStaysStranded(now, s, c, t);
    case ServeLateRequest(t, requester) => ServeLateStaysStranded(now, s, c, t, requester);
    case Lose(_) =>
    case _ => NoCustodyWhileStranded(now, s, c, e);
  }

  lemma {:induction false} StrandedFrom(now: World, s: Slot, c: Pem, more: seq<Event>)
    requires Inv(now) && Stranded(now, s, c) && forall e :: e in more ==> !Heals(s, c, e)
    ensures StaysStranded(now, Run(ALL, now, more), s, c) && Inv(Run(ALL, now, more))
  {
    if |more| > 0 {
      var earlier, last := more[..|more| - 1], more[|more| - 1];
      StrandedFrom(now, s, c, earlier);
      StepStaysStranded(Run(ALL, now, earlier), s, c, last);
      StepKeepsInv(Run(ALL, now, earlier), last);
    }
  }

  /** And one whose recorded peer is anybody else is wedged: whatever happens, until a process restarts, the custodian
      is promoted or a request of the custodian's is handled, no commit is released. */
  lemma StrandedReleasesNothing(w: World, events: seq<Event>, now: World, s: Slot, c: Pem, more: seq<Event>)
    requires Initial(w) && now == Run(ALL, w, events) && Stranded(now, s, c)
    requires forall e :: e in more ==> !Heals(s, c, e)
    ensures StaysStranded(now, Run(ALL, now, more), s, c)
  {
    RunKeepsInv(w, events);
    StrandedFrom(now, s, c, more);
  }

  /** A request of the custodian's own, handled between commits, records it as peer again. */
  lemma OwnRequestHeals(w: World, events: seq<Event>, now: World, s: Slot, c: Pem)
    requires Initial(w) && now == Run(ALL, w, events) && Stranded(now, s, c) && At(now, s).inflight.None?
    requires At(now, s).replica.gov.status == Active || At(now, s).replica.gov.status == ActivatingSuccessor
    ensures Pair(Step(ALL, now, ServeLateRequest(s, c)), s)
  {
    RunKeepsInv(w, events);
    RecordsItsCustodian(now, s, c);
  }

  lemma RecordsItsCustodian(now: World, s: Slot, c: Pem)
    requires Protocol(now) && Stranded(now, s, c) && At(now, s).inflight.None? && HoldsKey(At(now, s).replica)
    ensures Pair(StepServeLate(now, s, c), s) && AsksLate(now, s, c)
  {
    BothSlots(now, s);
  }

  /** After a commit that went through, the leader and its custodian are level. */
  predicate CommittedPair(now: World, done: World, s: Slot) {
    var p, c := At(done, s), At(done, Opposite(s));
    && p.replica.replicaSerial == c.replica.replicaSerial == At(now, s).replica.replicaSerial + 1
    && p.history == c.history == done.tip
    && IsCustodian(c) && Leads(done, p)
    && done.used == now.used && done.key == now.key
  }

  lemma {:induction false} RunConcat(w: World, first: seq<Event>, second: seq<Event>)
    ensures Run(ALL, w, first + second) == Run(ALL, Run(ALL, w, first), second)
  {
    if |second| == 0 {
      assert first + second == first;
    } else {
      RunConcat(w, first, second[..|second| - 1]);
      assert (first + second)[..|first + second| - 1] == first + second[..|second| - 1];
    }
  }

  /** The crash and the re-key: the restarted process asks the custodian, and applies what it is sent. */
  function RecoveryEvents(done: World, s: Slot, reboot: Pem, ownKey: Pem, bootRole: Role): seq<Event> {
    [Restart(s, reboot, ownKey, bootRole), ServeCustody(Opposite(s)),
     DeliverCustody(s, BundleOf(StepRestart(done, s, reboot, ownKey, bootRole), Opposite(s)))]
  }

  /** What custody is for. After any run whatever, let a commit go through and the primary then crash: the
      custodian may serve the restarted primary at once, and that comes back as primary with the commit. */
  lemma RestartedPrimaryRecovers(w: World, events: seq<Event>, now: World, s: Slot, change: Change, gov: Gov,
                                 reboot: Pem, ownKey: Pem, bootRole: Role)
    requires Initial(w) && now == Run(ALL, w, events) && reboot !in now.used
    requires Pair(now, s) && Mutate(w.key, At(now, s).replica.gov, change) == Ok(gov) && gov.status != Retired
    ensures var sync := SyncOf(now, s, change, gov);
            var done := Run(ALL, now, [BeginCommit(s, change), DeliverSync(Opposite(s), sync), ReleaseCommit(s)]);
            var recovered := Run(ALL, done, RecoveryEvents(done, s, reboot, ownKey, bootRole));
            && done.tip == now.tip + [change] && done.tip in done.released
            && Leads(recovered, At(recovered, s)) && recovered.tip == At(recovered, s).history == done.tip
            && At(recovered, s).replica ==
                 Replica(reboot, w.key, Some(Primary), Some(At(done, Opposite(s)).replica.activationKey), gov,
                         At(now, s).replica.replicaSerial + 1)
  {
    NextCommitSucceeds(w, events, now, s, change, gov);
    RunKeepsConstants(ALL, w, events);
    var commit := [BeginCommit(s, change), DeliverSync(Opposite(s), SyncOf(now, s, change, gov)), ReleaseCommit(s)];
    RunConcat(w, events, commit);
    RunKeepsInv(w, events + commit);
    RunKeepsConstants(ALL, w, events + commit);
    LevelPairRecovers(now, Run(ALL, now, commit), s, reboot, ownKey, bootRole);
  }

  lemma LevelPairRecovers(now: World, done: World, s: Slot, reboot: Pem, ownKey: Pem, bootRole: Role)
    requires Inv(done) && CommittedPair(now, done, s) && reboot !in done.used
    requires HoldsKey(At(done, Opposite(s)).replica)
    ensures var c := At(done, Opposite(s)).replica;
            var recovered := Run(ALL, done, RecoveryEvents(done, s, reboot, ownKey, bootRole));
            && Leads(recovered, At(recovered, s)) && recovered.tip == At(recovered, s).history == done.tip
            && At(recovered, s).replica ==
                 Replica(reboot, done.key, Some(Primary), Some(c.activationKey), c.gov, c.replicaSerial)
  {
    LevelCustodianIsDrained(now, done, s);
    CrashLeavesCustodian(done, s, reboot, ownKey, bootRole);
    RecoveryRun(done, s, reboot, ownKey, bootRole);
    ServedIsAdopted(StepRestart(done, s, reboot, ownKey, bootRole), Opposite(s));
  }

  lemma RecoveryRun(done: World, s: Slot, reboot: Pem, ownKey: Pem, bootRole: Role)
    requires CanServe(ALL, StepRestart(done, s, reboot, ownKey, bootRole), Opposite(s))
    ensures var crashed, c := StepRestart(done, s, reboot, ownKey, bootRole), Opposite(s);
            Run(ALL, done, RecoveryEvents(done, s, reboot, ownKey, bootRole)) ==
              StepDeliverCustody(StepServe(crashed, c), s, BundleOf(crashed, c))
  {
    var crashed, c := StepRestart(done, s, reboot, ownKey, bootRole), Opposite(s);
    RunThree(done, Restart(s, reboot, ownKey, bootRole), ServeCustody(c), DeliverCustody(s, BundleOf(crashed, c)));
  }

  lemma CrashLeavesCustodian(done: World, s: Slot, reboot: Pem, ownKey: Pem, bootRole: Role)
    requires reboot !in done.used && done.replaced <= done.used
    requires HoldsKey(At(done, Opposite(s)).replica) && At(done, Opposite(s)).inflight.None?
    requires Drained(done, At(done, Opposite(s))) && At(done, Opposite(s)).replica.activationKey !in done.replaced
    ensures var crashed := StepRestart(done, s, reboot, ownKey, bootRole);
            && CanServe(ALL, crashed, Opposite(s)) && At(crashed, Opposite(s)) == At(done, Opposite(s))
            && At(crashed, s) == Boot(reboot, ownKey, bootRole)
            && reboot !in crashed.replaced && crashed.tip == done.tip
  {
  }

  lemma LevelCustodianIsDrained(now: World, done: World, s: Slot)
    requires Inv(done) && CommittedPair(now, done, s)
    ensures Drained(done, At(done, Opposite(s))) && At(done, Opposite(s)).inflight.None?
    ensures At(done, Opposite(s)).replica.activationKey !in done.replaced
    ensures At(done, Opposite(s)).replica.key == done.key
    ensures Holder(done.key, At(done, Opposite(s)).replica.gov)
  {
    BothSlots(done, s);
  }

  /** A fresh process that is served by a custodian and gets the bundle ends up as primary with its state. */
  lemma ServedIsAdopted(w: World, c: Slot)
    requires CanServe(ALL, w, c) && IsCustodian(At(w, c)) && Holder(At(w, c).replica.key, At(w, c).replica.gov)
    requires w.tip == At(w, c).history
    requires At(w, Opposite(c)).replica.activationKey !in w.replaced
    ensures var s, served := Opposite(c), StepServe(w, c);
            var adopted := StepDeliverCustody(served, s, BundleOf(w, c));
            && adopted.tip == At(adopted, s).history == At(w, c).history && Leads(adopted, At(adopted, s))
            && At(adopted, s).replica == Replica(At(w, s).replica.activationKey, At(w, c).replica.key, Some(Primary),
                 Some(At(w, c).replica.activationKey), At(w, c).replica.gov, At(w, c).replica.replicaSerial)
  {
  }
}
