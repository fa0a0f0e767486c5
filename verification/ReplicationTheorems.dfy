/** What replication guarantees over whole runs. */
module ReplicationTheorems {
  import opened Prelude
  import opened Lineage
  import opened Governance
  import opened GovernanceHistory
  import opened Replica
  import opened Replication
  import opened ReplicationSafety

  // ---------------------------------------------------------------------
  // One linear history, never lost
  // ---------------------------------------------------------------------

  /** Whatever was released or adopted, by whichever replica, lies on one history. */
  lemma ReleasedFormOneHistory(w: World, events: seq<Event>, one: History, two: History)
    requires Initial(w)
    requires one in Run(ALL, w, events).released && two in Run(ALL, w, events).released
    ensures one <= two || two <= one
  {
    RunKeepsInv(w, events);
  }

  lemma StepKeepsReleased(asm: Assumptions, w: World, e: Event)
    ensures w.released <= Step(asm, w, e).released
    ensures w.key == Step(asm, w, e).key && w.start == Step(asm, w, e).start
  {
  }

  lemma {:induction false} RunKeepsReleased(asm: Assumptions, w: World, events: seq<Event>, more: seq<Event>)
    ensures Run(asm, w, events).released <= Run(asm, w, events + more).released
    ensures Run(asm, w, events).key == Run(asm, w, events + more).key
    ensures Run(asm, w, events).start == Run(asm, w, events + more).start
  {
    if |more| == 0 {
      assert events + more == events;
    } else {
      RunKeepsReleased(asm, w, events, more[..|more| - 1]);
      assert (events + more)[..|events + more| - 1] == events + more[..|more| - 1];
      StepKeepsReleased(asm, Run(asm, w, events + more[..|more| - 1]), more[|more| - 1]);
    }
  }

  lemma {:induction false} RunKeepsConstants(asm: Assumptions, w: World, events: seq<Event>)
    ensures Run(asm, w, events).key == w.key && Run(asm, w, events).start == w.start
  {
    RunKeepsReleased(asm, w, [], events);
    assert [] + events == events;
  }

  /** A key holder that has not been replaced holds the whole log. */
  lemma CurrentReplicaHoldsTheLog(w: World, s: Slot)
    requires Inv(w)
    requires At(w, s).replica.gov.status != Inactive && At(w, s).replica.activationKey !in w.replaced
    ensures Leads(w, At(w, s)) || IsCustodian(At(w, s))
    ensures w.tip <= At(w, s).history
    ensures At(w, s).replica.gov == Replay(w.key, w.start, At(w, s).history) && At(w, s).replica.key == w.key
  {
    BothSlots(w, s);
    var p := At(w, s);
    match p.replica.role.value {
      case Primary => assert LeaderOk(w, p, At(w, Opposite(s)));
      case Custodian => assert CustodianOk(w, p, At(w, Opposite(s)));
    }
  }

  /** A replica re-keyed at any point of a run, in either role and however late the bundle arrives, holds every
      change released before. */
  lemma RekeyedHoldsEverythingReleased(w: World, events: seq<Event>, more: seq<Event>, s: Slot, bundle: Message,
                                       history: History)
    requires Initial(w)
    requires history in Run(ALL, w, events).released
    requires var now := Run(ALL, w, events + more);
             bundle in now.net && bundle.Custody? && Step(ALL, now, DeliverCustody(s, bundle)) != now
    ensures var rekeyed := At(Step(ALL, Run(ALL, w, events + more), DeliverCustody(s, bundle)), s);
            && history <= rekeyed.history
            && rekeyed.replica.gov == Replay(w.key, w.start, rekeyed.history)
            && rekeyed.replica.role == Some(bundle.role) && rekeyed.replica.peer == Some(bundle.from)
            && rekeyed.replica.key == w.key
  {
    RunKeepsReleased(ALL, w, events, more);
    RunKeepsConstants(ALL, w, events + more);
    RunKeepsInv(w, events + more);
    AdoptedBundleIsTheLog(Run(ALL, w, events + more), s, bundle);
  }

  lemma AdoptedBundleIsTheLog(now: World, s: Slot, bundle: Message)
    requires Inv(now) && bundle in now.net && bundle.Custody? && StepDeliverCustody(now, s, bundle) != now
    ensures var rekeyed := At(StepDeliverCustody(now, s, bundle), s);
            && rekeyed.history == now.tip && (forall h :: h in now.released ==> h <= rekeyed.history)
            && rekeyed.replica.gov == Replay(now.key, now.start, rekeyed.history)
            && rekeyed.replica.role == Some(bundle.role) && rekeyed.replica.peer == Some(bundle.from)
            && rekeyed.replica.key == now.key
  {
    BothSlots(now, s);
    assert BundleOk(now, At(now, s), At(now, Opposite(s)), bundle);
  }

  /** So does a custodian promoted at any point of a run. */
  lemma PromotedHoldsEverythingReleased(w: World, events: seq<Event>, more: seq<Event>, now: World, s: Slot,
                                        history: History)
    requires Initial(w) && now == Run(ALL, w, events + more)
    requires history in Run(ALL, w, events).released
    requires Promote(At(now, s).replica).Ok? && CanPromote(ALL, now, s)
    ensures var promoted := At(Step(ALL, now, PromoteCustodian(s)), s);
            && history <= promoted.history
            && promoted.replica.gov == Replay(w.key, w.start, promoted.history)
            && IsPrimary(promoted)
  {
    RunKeepsReleased(ALL, w, events, more);
    RunKeepsConstants(ALL, w, events + more);
    RunKeepsInv(w, events + more);
    PromotedIsTheLog(now, s);
  }

  lemma PromotedIsTheLog(now: World, s: Slot)
    requires Inv(now) && Promote(At(now, s).replica).Ok? && CanPromote(ALL, now, s)
    ensures var promoted := At(Step(ALL, now, PromoteCustodian(s)), s);
            && (forall h :: h in now.released ==> h <= promoted.history)
            && promoted.replica.gov == Replay(now.key, now.start, promoted.history)
            && IsPrimary(promoted)
  {
    BothSlots(now, s);
  }

  /** In every run the custodian's record is the last released one, or has exactly one change more. */
  lemma CustodianIsAtMostOneAhead(w: World, events: seq<Event>, s: Slot)
    requires Initial(w) && IsCustodian(At(Run(ALL, w, events), s))
    ensures var now := Run(ALL, w, events);
            var custodian := At(now, s);
            && now.tip in now.released
            && (forall h :: h in now.released ==> h <= now.tip)
            && custodian.replica.gov == Replay(w.key, w.start, custodian.history)
            && (custodian.history == now.tip
                || exists change :: custodian.history == now.tip + [change])
  {
    RunKeepsConstants(ALL, w, events);
    RunKeepsInv(w, events);
    CustodianIsLevelOrAhead(Run(ALL, w, events), s);
  }

  lemma CustodianIsLevelOrAhead(now: World, s: Slot)
    requires Inv(now) && IsCustodian(At(now, s))
    ensures var custodian := At(now, s);
            && now.tip in now.released
            && (forall h :: h in now.released ==> h <= now.tip)
            && custodian.replica.gov == Replay(now.key, now.start, custodian.history)
            && (custodian.history == now.tip || exists change :: custodian.history == now.tip + [change])
  {
    BothSlots(now, s);
    var custodian := At(now, s);
    if custodian.history != now.tip {
      assert custodian.history == now.tip + [custodian.history[|now.tip|]];
    }
  }

  // ---------------------------------------------------------------------
  // Fencing after a promotion
  // ---------------------------------------------------------------------

  /** Syncs of a replaced primary reach nobody who could accept them. */
  predicate Fenced(w: World) {
    FencedAt(w, w.a) && FencedAt(w, w.b)
  }

  predicate FencedAt(w: World, p: Proc) {
    forall m :: m in w.net && m.Sync? && m.from in w.replaced && m.to == p.replica.activationKey ==> IsPrimary(p)
  }

  lemma ServeKeepsFenced(w: World, s: Slot, requester: Pem)
    requires Fenced(w)
    ensures Fenced(Step(ALL, w, ServeCustody(s))) && Fenced(Step(ALL, w, ServeLateRequest(s, requester)))
  {
  }

  lemma AdoptKeepsFenced(w: World, s: Slot, bundle: Message)
    requires Inv(w) && Fenced(w)
    ensures Fenced(Step(ALL, w, DeliverCustody(s, bundle)))
  {
    BothSlots(w, s);
  }

  lemma StartKeepsFenced(w: World, s: Slot, change: Change, gov: Gov)
    requires Inv(w) && Fenced(w) && IsPrimary(At(w, s)) && gov.status != Inactive
    ensures NeedsAck(At(w, s).replica) ==> Fenced(Sent(w, s, change, gov))
    ensures Fenced(Alone(w, s, change, gov))
  {
    BothSlots(w, s);
  }

  lemma PromoteKeepsFenced(w: World, s: Slot)
    requires Inv(w) && Fenced(w)
    ensures Fenced(Step(ALL, w, PromoteCustodian(s)))
  {
    if CanPromote(ALL, w, s) && Promote(At(w, s).replica).Ok? {
      BothSlots(w, s);
      PromotionTakesOver(w, s);
      TakeoverKeepsFenced(w, StepPromote(w, s), At(w, s), At(StepPromote(w, s), s), At(w, Opposite(s)));
    }
  }

  lemma TakeoverKeepsFenced(w: World, w': World, p: Proc, p': Proc, other: Proc)
    requires Both(w, p, other) && TakesOver(w, w', p, p', other) && FencedAt(w, p) && FencedAt(w, other)
    ensures FencedAt(w', p') && FencedAt(w', other)
  {
  }

  lemma DeliverKeepsFenced(w: World, s: Slot, m: Message)
    requires Inv(w) && Fenced(w)
    ensures Fenced(Step(ALL, w, DeliverSync(s, m)))
  {
  }

  lemma FailKeepsFenced(w: World, s: Slot)
    requires Inv(w) && Fenced(w)
    ensures Fenced(Step(ALL, w, FailCommit(s)))
  {
    BothSlots(w, s);
  }

  lemma RestartKeepsFenced(w: World, s: Slot, activationKey: Pem, ownKey: Pem, bootRole: Role)
    requires Inv(w) && Fenced(w)
    ensures Fenced(Step(ALL, w, Restart(s, activationKey, ownKey, bootRole)))
  {
    BothSlots(w, s);
  }

  lemma BeginKeepsFenced(w: World, s: Slot, change: Change)
    requires Inv(w) && Fenced(w)
    ensures Fenced(Step(ALL, w, BeginCommit(s, change)))
  {
    var p := At(w, s);
    if IsPrimary(p) && p.inflight.None? && Mutate(p.replica.key, p.replica.gov, change).Ok? {
      MutateKeepsHolder(w.key, p.replica.gov, change);
      StartKeepsFenced(w, s, change, Mutate(p.replica.key, p.replica.gov, change).value);
    }
  }

  lemma StepKeepsFenced(w: World, e: Event)
    requires Inv(w) && Fenced(w)
    ensures Fenced(Step(ALL, w, e))
  {
    match e
    case BeginCommit(s, change) => BeginKeepsFenced(w, s, change);
    case DeliverSync(s, m) => DeliverKeepsFenced(w, s, m);
    case ReleaseCommit(_) =>
    case FailCommit(s) => FailKeepsFenced(w, s);
    case Restart(s, activationKey, ownKey, bootRole) => RestartKeepsFenced(w, s, activationKey, ownKey, bootRole);
    case Lose(_) =>
    case ServeCustody(s) => ServeKeepsFenced(w, s, 0);
    case ServeLateRequest(s, requester) => ServeKeepsFenced(w, s, requester);
    case DeliverCustody(s, m) => AdoptKeepsFenced(w, s, m);
    case PromoteCustodian(s) => PromoteKeepsFenced(w, s);
    case SealCustody(_) =>
    case CompleteCustody(_) =>
  }

  lemma {:induction false} RunKeepsFenced(w: World, events: seq<Event>)
    requires Initial(w)
    ensures Fenced(Run(ALL, w, events)) && Inv(Run(ALL, w, events))
  {
    RunKeepsInv(w, events);
    if |events| > 0 {
      RunKeepsFenced(w, events[..|events| - 1]);
      StepKeepsFenced(Run(ALL, w, events[..|events| - 1]), events[|events| - 1]);
    }
  }

  lemma StepAcknowledgesNoReplaced(w: World, e: Event, former: Pem, serial: nat)
    requires Inv(w) && Fenced(w) && former in w.replaced
    ensures former in Step(ALL, w, e).replaced
    ensures Ack(former, serial) in Step(ALL, w, e).net ==> Ack(former, serial) in w.net
  {
    match e
    case DeliverSync(s, m) => DeliveryAcknowledgesNoReplaced(w, s, m, former, serial);
    case _ => OnlyDeliveryAcknowledges(w, e, former, serial);
  }

  lemma DeliveryAcknowledgesNoReplaced(w: World, s: Slot, m: Message, former: Pem, serial: nat)
    requires Protocol(w) && Fenced(w) && former in w.replaced
    ensures former in StepDeliver(w, s, m).replaced
    ensures Ack(former, serial) in StepDeliver(w, s, m).net ==> Ack(former, serial) in w.net
  {
    BothSlots(w, s);
  }

  lemma OnlyDeliveryAcknowledges(w: World, e: Event, former: Pem, serial: nat)
    requires !e.DeliverSync?
    ensures w.replaced <= Step(ALL, w, e).replaced
    ensures Ack(former, serial) in Step(ALL, w, e).net ==> Ack(former, serial) in w.net
  {
  }

  /** Once a promotion has replaced a primary, nothing it does afterwards is acknowledged. */
  lemma {:induction false} ReplacedIsNeverAcknowledgedAgain(w: World, events: seq<Event>, more: seq<Event>,
          former: Pem, serial: nat)
    requires Initial(w) && former in Run(ALL, w, events).replaced
    ensures former in Run(ALL, w, events + more).replaced
    ensures Ack(former, serial) in Run(ALL, w, events + more).net ==> Ack(former, serial) in Run(ALL, w, events).net
  {
    if |more| == 0 {
      assert events + more == events;
    } else {
      var earlier := events + more[..|more| - 1];
      ReplacedIsNeverAcknowledgedAgain(w, events, more[..|more| - 1], former, serial);
      RunKeepsFenced(w, earlier);
      assert (events + more)[..|events + more| - 1] == earlier;
      StepAcknowledgesNoReplaced(Run(ALL, w, earlier), more[|more| - 1], former, serial);
    }
  }

  /** What a replaced primary still returns late is already part of the released history, and the
      log does not move. */
  lemma LateReleaseAddsNothing(w: World, events: seq<Event>, s: Slot)
    requires Initial(w) && At(Run(ALL, w, events), s).replica.activationKey in Run(ALL, w, events).replaced
    ensures var now := Run(ALL, w, events);
            var after := Step(ALL, now, ReleaseCommit(s));
            && after.tip == now.tip
            && (after != now ==> At(now, s).history <= now.tip && after.released == now.released + {At(now, s).history})
  {
    RunKeepsInv(w, events);
    LateReleaseIsInTheLog(Run(ALL, w, events), s);
  }

  lemma LateReleaseIsInTheLog(now: World, s: Slot)
    requires Protocol(now) && At(now, s).replica.activationKey in now.replaced
    ensures var after := Step(ALL, now, ReleaseCommit(s));
            && after.tip == now.tip
            && (after != now ==> At(now, s).history <= now.tip && after.released == now.released + {At(now, s).history})
  {
    BothSlots(now, s);
  }

  // ---------------------------------------------------------------------
  // Governance properties of released states
  // ---------------------------------------------------------------------

  /** Every replica that holds the key at any point of any run has a lineage that verifies, the epoch
      that lineage reached, and its own key as the lineage's current key. */
  lemma EveryHolderHoldsTheLineage(w: World, events: seq<Event>, s: Slot)
    requires Initial(w) && At(Run(ALL, w, events), s).replica.gov.status != Inactive
    ensures HoldsLineage(At(Run(ALL, w, events), s).replica.key, At(Run(ALL, w, events), s).replica.gov)
    ensures At(Run(ALL, w, events), s).replica.gov.lineage == w.start.lineage
  {
    RunKeepsInv(w, events);
    RunKeepsConstants(ALL, w, events);
    ReplayKeepsHolder(w.key, w.start, At(Run(ALL, w, events), s).history);
  }

  lemma ReplayOfPrefix(key: Pem, g: Gov, shorter: History, longer: History)
    requires shorter <= longer
    ensures Replay(key, g, longer) == Replay(key, Replay(key, g, shorter), longer[|shorter|..])
  {
    assert longer == shorter + longer[|shorter|..];
    ReplayConcat(key, g, shorter, longer[|shorter|..]);
  }

  /** Once a released state has recorded the successor's proof, every replica that has not been replaced,
      whatever reverts, re-keyings and promotion attempts follow, is no longer active: it cannot be
      promoted, certify or abort; and if that state was retired, so is every such replica. */
  lemma RecordedProofSurvives(w: World, events: seq<Event>, more: seq<Event>, history: History, s: Slot)
    requires Initial(w)
    requires history in Run(ALL, w, events).released && ProofRecorded(Replay(w.key, w.start, history))
    requires var now := Run(ALL, w, events + more);
             At(now, s).replica.gov.status != Inactive && At(now, s).replica.activationKey !in now.replaced
    ensures var p := At(Run(ALL, w, events + more), s);
            && ProofRecorded(p.replica.gov)
            && p.replica.gov.status != Active
            && Promote(p.replica).Err?
            && (Replay(w.key, w.start, history).status == Retired ==> p.replica.gov.status == Retired)
  {
    var now := Run(ALL, w, events + more);
    RunKeepsReleased(ALL, w, events, more);
    RunKeepsConstants(ALL, w, events + more);
    RunKeepsInv(w, events + more);
    CurrentReplicaHoldsTheLog(now, s);
    var p := At(now, s);
    assert history <= p.history;
    ReplayOfPrefix(w.key, w.start, history, p.history);
    ProofRecordedForGood(w.key, Replay(w.key, w.start, history), p.history[|history|..]);
  }

  /** Between any two released states, the later one keeps every tenant, its keys, and a minimum route
      version at least as high. */
  lemma ReleasedPolicyOnlyGrows(w: World, events: seq<Event>, earlier: History, later: History)
    requires Initial(w)
    requires earlier in Run(ALL, w, events).released && later in Run(ALL, w, events).released
    requires |earlier| <= |later|
    ensures earlier <= later
    ensures PolicyExtends(Replay(w.key, w.start, earlier).tenants, Replay(w.key, w.start, later).tenants)
  {
    ReleasedFormOneHistory(w, events, earlier, later);
    ReplayOfPrefix(w.key, w.start, earlier, later);
    ReplayExtendsPolicy(w.key, Replay(w.key, w.start, earlier), later[|earlier|..]);
  }

  // ---------------------------------------------------------------------
  // Who hands out custody
  // ---------------------------------------------------------------------

  /** A record whose key still governs. */
  predicate Governs(g: Gov) {
    g.status == Active || g.status == ActivatingSuccessor
  }

  predicate LiveCustody(w: World) {
    && (forall m :: m in w.net && m.Custody? ==> Governs(m.snapshot.gov))
    && (w.sealed.Some? && w.sealed.value.Custody? ==> Governs(w.sealed.value.snapshot.gov))
  }

  lemma ServeKeepsLiveCustody(asm: Assumptions, w: World, e: Event)
    requires LiveCustody(w) && (e.ServeCustody? || e.ServeLateRequest? || e.SealCustody? || e.CompleteCustody?)
    ensures LiveCustody(Step(asm, w, e))
  {
  }

  lemma OthersKeepLiveCustody(asm: Assumptions, w: World, e: Event)
    requires LiveCustody(w) && !(e.ServeCustody? || e.ServeLateRequest? || e.SealCustody? || e.CompleteCustody?)
    ensures LiveCustody(Step(asm, w, e))
  {
  }

  lemma {:induction false} RunKeepsLiveCustody(asm: Assumptions, w: World, events: seq<Event>)
    requires Initial(w)
    ensures LiveCustody(Run(asm, w, events))
  {
    if |events| > 0 {
      var before, e := Run(asm, w, events[..|events| - 1]), events[|events| - 1];
      RunKeepsLiveCustody(asm, w, events[..|events| - 1]);
      if e.ServeCustody? || e.ServeLateRequest? || e.SealCustody? || e.CompleteCustody? {
        ServeKeepsLiveCustody(asm, before, e);
      } else {
        OthersKeepLiveCustody(asm, before, e);
      }
    }
  }

  /** Whatever the assumptions, a custody bundle carries the state of a key that still governs; a process that holds
      no key, or whose key is retired, serves nobody, in time or late; and a process that holds a key that governs
      serves the fresh process in the other slot. */
  lemma CustodyComesFromGoverningKeys(asm: Assumptions, w: World, events: seq<Event>, now: World, s: Slot,
                                      requester: Pem)
    requires Initial(w) && now == Run(asm, w, events)
    ensures forall m :: m in now.net && m.Custody? ==>
              m.snapshot.gov.status == Active || m.snapshot.gov.status == ActivatingSuccessor
    ensures At(now, s).replica.gov.status == Inactive || At(now, s).replica.gov.status == Retired ==>
              Step(asm, now, ServeCustody(s)) == now && Step(asm, now, ServeLateRequest(s, requester)) == now
    ensures var p, other := At(now, s), At(now, Opposite(s)).replica;
            (p.replica.gov.status == Active || p.replica.gov.status == ActivatingSuccessor) && p.inflight.None?
            && other.gov.status == Inactive && other.gov.lineage == []
            && (asm.drained ==> Drained(now, p)) && (asm.stopped ==> p.replica.activationKey !in now.replaced) ==>
              var served := Step(asm, now, ServeCustody(s));
              && BundleOf(now, s) in served.net && p.history in served.released
              && At(served, s).replica == p.replica.(peer := Some(other.activationKey))
  {
    RunKeepsLiveCustody(asm, w, events);
  }
}
