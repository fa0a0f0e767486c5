/** Each assumption of the replication theorems is needed: without it, some run from
    every initial world loses a released change. And with all of them, some run strands
    a primary whose custodian is enrolled. */
module ReplicationLimits {
  import opened Prelude
  import opened Lineage
  import opened Governance
  import opened GovernanceHistory
  import opened Replica
  import opened Replication
  import opened ReplicationSafety
  import opened CommitTheorems

  /** One more event of a run from `w`. */
  lemma Then(asm: Assumptions, w: World, events: seq<Event>, now: World, e: Event)
    returns (longer: seq<Event>, next: World)
    requires now == Run(asm, w, events)
    ensures longer == events + [e] && next == Step(asm, now, e) && next == Run(asm, w, longer)
  {
    longer, next := events + [e], Step(asm, now, e);
    assert longer[..|longer| - 1] == events;
  }

  /** Two more. */
  lemma ThenTwo(asm: Assumptions, w: World, events: seq<Event>, now: World, one: Event, two: Event)
    returns (longer: seq<Event>, next: World)
    requires now == Run(asm, w, events)
    ensures next == Step(asm, Step(asm, now, one), two) && next == Run(asm, w, longer)
  {
    var step;
    longer, step := Then(asm, w, events, now, one);
    longer, next := Then(asm, w, longer, step, two);
  }

  /** The replica at `s` holds the key, was not replaced, and lacks a change that was released. */
  predicate LostAt(w: World, s: Slot) {
    && At(w, s).replica.gov.status != Inactive && At(w, s).replica.activationKey !in w.replaced
    && exists h :: h in w.released && !(h <= At(w, s).history)
  }

  /** What a holder's state looks like at the process it re-keys. */
  function Adopted(w: World, s: Slot): Proc {
    var p := At(w, s);
    Proc(Replica(At(w, Opposite(s)).replica.activationKey, p.replica.key, Some(ServedRole(p.replica)),
                 Some(p.replica.activationKey), p.replica.gov, p.replica.replicaSerial), p.history, None)
  }

  lemma ServedThenAdopted(asm: Assumptions, now: World, s: Slot)
    requires CanServe(asm, now, s) && Holder(At(now, s).replica.key, At(now, s).replica.gov)
    ensures Step(asm, Step(asm, now, ServeCustody(s)), DeliverCustody(Opposite(s), BundleOf(now, s))) ==
              With(StepServe(now, s), Opposite(s), Adopted(now, s))
  {
  }

  lemma ServeAndAdopt(asm: Assumptions, w: World, before: seq<Event>, now: World, s: Slot)
    returns (events: seq<Event>, after: World)
    requires now == Run(asm, w, before) && CanServe(asm, now, s)
    requires Holder(At(now, s).replica.key, At(now, s).replica.gov)
    ensures after == Run(asm, w, events)
    ensures after == With(StepServe(now, s), Opposite(s), Adopted(now, s))
  {
    ServedThenAdopted(asm, now, s);
    events, after := ThenTwo(asm, w, before, now, ServeCustody(s), DeliverCustody(Opposite(s), BundleOf(now, s)));
  }

  /** Serving custody in two steps: a commit that falls between sealing and recording the peer has nobody
      to replicate to, is released, and is missing from the bundle the new custodian applies. */
  lemma SealAndRecordApart(w: World, preapproval: Envelope) returns (events: seq<Event>, lost: World)
    requires Initial(w) && HoldsKey(w.a.replica)
    ensures lost == Run(Assumptions(true, true, false, true), w, events) && LostAt(lost, B)
  {
    var asm := Assumptions(true, true, false, true);
    var change := Preapprove(preapproval);
    events, lost := SealedThenReleased(asm, w, preapproval);
    events, lost := Then(asm, w, events, lost, CompleteCustody(A));
    events, lost := Then(asm, w, events, lost, DeliverCustody(B, BundleOf(w, A)));
    assert IsCustodian(lost.b) && !([change] <= lost.b.history);
  }

  /** The bundle is sealed, and a commit is released while the peer is not yet recorded. */
  lemma SealedThenReleased(asm: Assumptions, w: World, preapproval: Envelope) returns (events: seq<Event>, now: World)
    requires Initial(w) && HoldsKey(w.a.replica) && !asm.atomicServe
    ensures now == Run(asm, w, events)
    ensures now.sealed == Some(BundleOf(w, A)) && now.b == w.b && now.replaced == {}
    ensures now.a.replica.activationKey == w.a.replica.activationKey && [Preapprove(preapproval)] in now.released
  {
    events, now := Then(asm, w, [], w, SealCustody(A));
    events, now := Then(asm, w, events, now, BeginCommit(A, Preapprove(preapproval)));
    assert [] + [Preapprove(preapproval)] == [Preapprove(preapproval)];
  }

  /** The booted replica becomes the primary's custodian. */
  lemma Enrolled(asm: Assumptions, w: World) returns (events: seq<Event>, pair: World)
    requires Initial(w) && HoldsKey(w.a.replica)
    ensures pair == Run(asm, w, events)
    ensures pair == With(With(w, A, w.a.(replica := w.a.replica.(peer := Some(w.b.replica.activationKey)))), B,
                         Adopted(w, A)).(net := {BundleOf(w, A)})
  {
    events, pair := ServeAndAdopt(asm, w, [], w, A);
    assert w.released + {[]} == w.released;
  }

  /** From a pair that agrees, a commit of a preapproval at A reaches B and is released. */
  lemma CommitThrough(asm: Assumptions, w: World, before: seq<Event>, pair: World, preapproval: Envelope)
    returns (events: seq<Event>, done: World)
    requires pair == Run(asm, w, before)
    requires IsPrimary(pair.a) && pair.a.inflight.None? && pair.a.history == []
    requires Holder(pair.a.replica.key, pair.a.replica.gov)
    requires IsCustodian(pair.b) && pair.a.replica.peer == Some(pair.b.replica.activationKey)
    requires pair.b.replica.gov == pair.a.replica.gov && pair.b.replica.replicaSerial == pair.a.replica.replicaSerial
    ensures done == Run(asm, w, events)
    ensures [Preapprove(preapproval)] in done.released && pair.released <= done.released
    ensures pair.net <= done.net && done.replaced == pair.replaced
    ensures IsCustodian(done.b) && done.b.replica.replicaSerial == pair.b.replica.replicaSerial + 1
    ensures done.b.replica.activationKey == pair.b.replica.activationKey
    ensures done.b.replica.gov.lineage == pair.b.replica.gov.lineage
  {
    var r, change := pair.a.replica, Preapprove(preapproval);
    var gov := r.gov.(latestPreapproval := Some(preapproval));
    var sync := Sync(r.activationKey, r.peer.value, Snapshot(gov, r.replicaSerial + 1), [change]);
    CommitSends(pair, preapproval);
    CustodianTakes(StepBegin(pair, A, change), sync, pair.b.replica.gov);
    events, done := ThenTwo(asm, w, before, pair, BeginCommit(A, change), DeliverSync(B, sync));
    events, done := Then(asm, w, events, done, ReleaseCommit(A));
  }

  lemma CommitSends(pair: World, preapproval: Envelope)
    requires IsPrimary(pair.a) && pair.a.inflight.None? && pair.a.history == [] && pair.a.replica.peer.Some?
    ensures var r, change := pair.a.replica, Preapprove(preapproval);
            var gov := r.gov.(latestPreapproval := Some(preapproval));
            var begun := StepBegin(pair, A, change);
            && begun.net ==
                 pair.net + {Sync(r.activationKey, r.peer.value, Snapshot(gov, r.replicaSerial + 1), [change])}
            && begun.b == pair.b && begun.released == pair.released && begun.tip == pair.tip
            && begun.a ==
                 Proc(r.(gov := gov, replicaSerial := r.replicaSerial + 1), [change], Some(Inflight(r.gov, [])))
  {
    assert [] + [Preapprove(preapproval)] == [Preapprove(preapproval)];
  }

  lemma CustodianTakes(w: World, sync: Message, held: Gov)
    requires sync in w.net && sync.Sync? && sync.to == w.b.replica.activationKey
    requires IsCustodian(w.b) && w.b.replica.gov == held && sync.snapshot.gov.lineage == held.lineage
    requires w.b.replica.replicaSerial < sync.snapshot.replicaSerial && SnapshotOk(sync.snapshot)
    ensures StepDeliver(w, B, sync) ==
              With(w, B, Proc(Apply(w.b.replica, sync.snapshot), sync.history, None))
                .(net := w.net + {Ack(sync.from, sync.snapshot.replicaSerial)})
  {
    assert held.lineage[..|held.lineage|] == held.lineage;
  }

  /** The custodian is promoted, releases a change, and restarts; the old primary never hears of it. */
  lemma PromotedAndRestarted(asm: Assumptions, w: World, one: Envelope, reboot: Pem)
    returns (events: seq<Event>, now: World)
    requires Initial(w) && w.start.status == Active && reboot !in w.used
    ensures now == Run(asm, w, events)
    ensures [Preapprove(one)] in now.released && now.net == {BundleOf(w, A)} && now.key == w.key
    ensures now.a == w.a.(replica := w.a.replica.(peer := Some(w.b.replica.activationKey)))
    ensures now.b == Boot(reboot, reboot, Custodian)
  {
    events, now := Enrolled(asm, w);
    events, now := Then(asm, w, events, now, PromoteCustodian(B));
    events, now := Then(asm, w, events, now, BeginCommit(B, Preapprove(one)));
    assert [] + [Preapprove(one)] == [Preapprove(one)] && [Preapprove(one)] in now.released;
    events, now := Then(asm, w, events, now, Restart(B, reboot, reboot, Custodian));
  }

  /** A replaced primary left running: once the promoted replica has restarted, the old primary re-keys it
      with a state that lacks what was released since, and two released histories then disagree. */
  lemma ReplacedPrimaryLeftRunning(w: World, one: Envelope, two: Envelope, reboot: Pem)
    returns (events: seq<Event>, fork: World)
    requires Initial(w) && w.start.status == Active && one != two && reboot !in w.used
    ensures fork == Run(Assumptions(true, false, true, true), w, events)
    ensures exists h, k :: h in fork.released && k in fork.released && !(h <= k) && !(k <= h)
  {
    var asm := Assumptions(true, false, true, true);
    events, fork := PromotedAndRestarted(asm, w, one, reboot);
    events, fork := ServeAndAdopt(asm, w, events, fork, A);
    events, fork := CommitThrough(asm, w, events, fork, two);
    assert [Preapprove(one)][0] != [Preapprove(two)][0];
  }

  /** Two commits of A into a slow network, the first reverted, the second still waiting. */
  lemma SlowCommits(asm: Assumptions, w: World, stale: Envelope) returns (events: seq<Event>, slow: World)
    requires Initial(w) && HoldsKey(w.a.replica)
    ensures slow == Run(asm, w, events)
    ensures StaleSync(w, stale) in slow.net
    ensures slow.used == w.used && slow.key == w.key && slow.replaced == {}
    ensures slow.b == Proc(Replica(w.b.replica.activationKey, w.key, Some(Custodian), Some(w.a.replica.activationKey),
                                   w.start, w.a.replica.replicaSerial), [], None)
  {
    events, slow := Enrolled(asm, w);
    var pair := slow;
    events, slow := Reverted(asm, w, events, pair);
    StaleIsSent(w, slow, stale);
    events, slow := Then(asm, w, events, slow, BeginCommit(A, Preapprove(stale)));
  }

  lemma StaleIsSent(w: World, slow: World, stale: Envelope)
    requires Initial(w) && HoldsKey(w.a.replica) && slow.a.history == [] && slow.a.inflight.None?
    requires slow.a.replica == w.a.replica.(peer := Some(w.b.replica.activationKey),
                                            replicaSerial := w.a.replica.replicaSerial + 1)
    ensures var begun := StepBegin(slow, A, Preapprove(stale));
            StaleSync(w, stale) in begun.net && begun == slow.(a := begun.a, net := begun.net)
  {
    CommitSends(slow, stale);
    BeginOnlySends(slow, Preapprove(stale));
  }

  lemma BeginOnlySends(pair: World, change: Change)
    requires NeedsAck(pair.a.replica)
    ensures var begun := StepBegin(pair, A, change); begun == pair.(a := begun.a, net := begun.net)
  {
  }

  /** A commit at A whose sync gets nowhere: only the serial is used up. */
  lemma Reverted(asm: Assumptions, w: World, before: seq<Event>, pair: World) returns (events: seq<Event>, after: World)
    requires pair == Run(asm, w, before)
    requires IsPrimary(pair.a) && pair.a.inflight.None? && pair.a.history == [] && pair.a.replica.peer.Some?
    ensures after == Run(asm, w, events) && pair.net <= after.net
    ensures var r := pair.a.replica;
            after == With(pair, A, pair.a.(replica := r.(replicaSerial := r.replicaSerial + 1))).(net := after.net)
  {
    BeginThenFail(pair);
    events, after := ThenTwo(asm, w, before, pair, BeginCommit(A, Background), FailCommit(A));
  }

  lemma BeginThenFail(pair: World)
    requires IsPrimary(pair.a) && pair.a.inflight.None? && pair.a.history == [] && pair.a.replica.peer.Some?
    ensures var r, after := pair.a.replica, StepFail(StepBegin(pair, A, Background), A);
            && pair.net <= after.net
            && after == With(pair, A, pair.a.(replica := r.(replicaSerial := r.replicaSerial + 1))).(net := after.net)
  {
    var r, begun := pair.a.replica, StepBegin(pair, A, Background);
    assert Mutate(r.key, r.gov, Background) == Ok(r.gov);
    assert begun == Sent(pair, A, Background, r.gov);
  }

  function StaleSync(w: World, stale: Envelope): Message {
    Sync(w.a.replica.activationKey, w.b.replica.activationKey,
         Snapshot(w.start.(latestPreapproval := Some(stale)), w.a.replica.replicaSerial + 2), [Preapprove(stale)])
  }

  /** A sync of a crashed incarnation still in flight when its slot is re-keyed: its serial is above those
      the re-keyed primary has reached, so the custodian lets it overwrite a released change. */
  lemma StaleSyncStillInFlight(w: World, stale: Envelope, newer: Envelope, reboot: Pem)
    returns (events: seq<Event>, lost: World)
    requires Initial(w) && HoldsKey(w.a.replica) && stale != newer && reboot !in w.used
    ensures lost == Run(Assumptions(false, true, true, true), w, events) && LostAt(lost, B)
  {
    var asm := Assumptions(false, true, true, true);
    events, lost := SlowCommits(asm, w, stale);
    events, lost := Then(asm, w, events, lost, Restart(A, reboot, reboot, Primary));
    events, lost := ServeAndAdopt(asm, w, events, lost, B);
    events, lost := CommitThrough(asm, w, events, lost, newer);
    assert w.start.lineage[..|w.start.lineage|] == w.start.lineage;
    events, lost := Then(asm, w, events, lost, DeliverSync(B, StaleSync(w, stale)));
    assert lost.b.history == [Preapprove(stale)];
    assert [Preapprove(newer)][0] != [Preapprove(stale)][0];
  }

  /** A custodian promoted between serving a restarted primary and the arrival of its bundle: it commits alone
      meanwhile, and the bundle then makes a second primary that lacks what was released. */
  lemma PromotedWhileServing(w: World, preapproval: Envelope, reboot: Pem) returns (events: seq<Event>, lost: World)
    requires Initial(w) && w.start.status == Active && reboot !in w.used
    ensures lost == Run(Assumptions(true, true, true, false), w, events)
    ensures LostAt(lost, A) && IsPrimary(lost.a) && IsPrimary(lost.b)
  {
    var asm, change := Assumptions(true, true, true, false), Preapprove(preapproval);
    var bundle;
    events, lost, bundle := ServedAndPromoted(asm, w, reboot);
    events, lost := Then(asm, w, events, lost, BeginCommit(B, change));
    assert [] + [change] == [change] && [change] in lost.released;
    events, lost := Then(asm, w, events, lost, DeliverCustody(A, bundle));
    assert lost.a.history == [] && !([change] <= lost.a.history);
  }

  /** The primary restarts, its custodian serves it, and is promoted before the bundle arrives. */
  lemma ServedAndPromoted(asm: Assumptions, w: World, reboot: Pem)
    returns (events: seq<Event>, now: World, bundle: Message)
    requires Initial(w) && w.start.status == Active && reboot !in w.used && !asm.settled
    ensures now == Run(asm, w, events) && bundle in now.net && now.replaced == {}
    ensures now.a == Boot(reboot, reboot, Primary)
    ensures now.b == Proc(Replica(w.b.replica.activationKey, w.key, Some(Primary), None, w.start,
                                  w.a.replica.replicaSerial), [], None)
    ensures bundle == Custody(w.b.replica.activationKey, reboot, w.key, Export(now.b.replica), Primary, [])
  {
    events, now := Enrolled(asm, w);
    events, now := Then(asm, w, events, now, Restart(A, reboot, reboot, Primary));
    bundle := BundleOf(now, B);
    events, now := Then(asm, w, events, now, ServeCustody(B));
    events, now := Then(asm, w, events, now, PromoteCustodian(B));
  }

  /** A request handled after its sender has crashed: the primary records the dead process as its peer while the
      custodian that has replaced it is enrolled, and every later commit waits for a reply that cannot come. */
  lemma LateRequestStrands(w: World, reboot: Pem, ownKey: Pem) returns (events: seq<Event>, stranded: World)
    requires Initial(w) && HoldsKey(w.a.replica) && reboot !in w.used
    ensures stranded == Run(ALL, w, events) && Stranded(stranded, A, reboot)
  {
    events, stranded := EnrolledAfterReboot(w, reboot, ownKey);
    LateRequestRecordsPeer(stranded, w.b.replica.activationKey, reboot);
    events, stranded := Then(ALL, w, events, stranded, ServeLateRequest(A, w.b.replica.activationKey));
  }

  lemma EnrolledAfterReboot(w: World, reboot: Pem, ownKey: Pem) returns (events: seq<Event>, pair: World)
    requires Initial(w) && HoldsKey(w.a.replica) && reboot !in w.used
    ensures pair == Run(ALL, w, events) && pair.used == w.used + {reboot} && pair.replaced == {}
    ensures pair.a == w.a.(replica := w.a.replica.(peer := Some(reboot)))
    ensures IsCustodian(pair.b) && pair.b.replica.activationKey == reboot
  {
    events, pair := Then(ALL, w, [], w, Restart(B, reboot, ownKey, Custodian));
    events, pair := ServeAndAdopt(ALL, w, events, pair, A);
  }

  lemma LateRequestRecordsPeer(pair: World, requester: Pem, c: Pem)
    requires Leads(pair, pair.a) && HoldsKey(pair.a.replica) && pair.a.inflight.None? && IsCustodian(pair.b)
    requires pair.b.replica.activationKey == c != requester
    requires requester in pair.used && requester != pair.a.replica.activationKey
    ensures Stranded(Step(ALL, pair, ServeLateRequest(A, requester)), A, c)
  {
  }
}
