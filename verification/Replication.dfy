/** Two replica slots, a network that loses and delays messages, and every
    interleaving of commits, syncs, custody bundles, replies, crashes, losses and promotions.

    A commit is not one step: the primary mutates its record and sends a sync,
    the custodian may apply it and reply, and only then does the primary either
    release the change or revert it. A re-key is two steps likewise: a key holder
    serves a bundle, and the requester applies it whenever it arrives, if it does.
    `released` collects the history behind every state that some commit returned, or
    that a serving or promoted replica adopted. */
module Replication {
  import opened Prelude
  import opened Lineage
  import opened Governance
  import opened GovernanceHistory
  import opened Replica

  datatype Slot = A | B

  function Opposite(s: Slot): Slot {
    if s == A then B else A
  }

  type History = seq<Change>

  /** A commit that waits for its acknowledgement, with what it reverts to. */
  datatype Inflight = Inflight(previous: Gov, previousHistory: History)

  datatype Proc = Proc(replica: Replica, history: History, inflight: Option<Inflight>)

  datatype Message =
    | Sync(from: Pem, to: Pem, snapshot: Snapshot, history: History)
    | Ack(to: Pem, serial: nat)
    | Custody(from: Pem, to: Pem, key: Pem, snapshot: Snapshot, role: Role, history: History)

  /** What the operators and the code's own time limits provide; see README.md. */
  datatype Assumptions = Assumptions(drained: bool, stopped: bool, atomicServe: bool, settled: bool)

  /** `sealed` is a custody bundle sealed but not yet recorded by its sender. */
  datatype World = World(key: Pem, start: Gov, a: Proc, b: Proc, net: set<Message>, sealed: Option<Message>,
                         released: set<History>, tip: History, used: set<Pem>, replaced: set<Pem>)

  function At(w: World, s: Slot): Proc {
    if s == A then w.a else w.b
  }

  function With(w: World, s: Slot, p: Proc): World {
    if s == A then w.(a := p) else w.(b := p)
  }

  datatype Event =
    | BeginCommit(slot: Slot, change: Change)
    | DeliverSync(slot: Slot, message: Message)
    | ReleaseCommit(slot: Slot)
    | FailCommit(slot: Slot)
    | Restart(slot: Slot, activationKey: Pem, ownKey: Pem, bootRole: Role)
    | Lose(message: Message)
    | ServeCustody(holder: Slot)
    | ServeLateRequest(holder: Slot, requester: Pem)
    | DeliverCustody(slot: Slot, message: Message)
    | PromoteCustodian(slot: Slot)
    | SealCustody(holder: Slot)
    | CompleteCustody(holder: Slot)

  /** What withGovernanceCommit reverts to if it fails now, or what it has already returned. */
  function Base(p: Proc): History {
    if p.inflight.Some? then p.inflight.value.previousHistory else p.history
  }

  predicate IsPrimary(p: Proc) {
    p.replica.gov.status != Inactive && p.replica.role == Some(Primary)
  }

  predicate IsCustodian(p: Proc) {
    p.replica.gov.status != Inactive && p.replica.role == Some(Custodian)
  }

  function RecordRelease(w: World, history: History): World {
    w.(released := w.released + {history}, tip := if |history| > |w.tip| then history else w.tip)
  }

  function Boot(activationKey: Pem, ownKey: Pem, bootRole: Role): Proc {
    Proc(Replica(activationKey, ownKey, Some(bootRole), None, FRESH, 0), [], None)
  }

  // ---------------------------------------------------------------------
  // Steps; an event that the code or the assumptions refuse changes nothing
  // ---------------------------------------------------------------------

  function Step(asm: Assumptions, w: World, e: Event): World {
    match e
    case BeginCommit(s, change) => StepBegin(w, s, change)
    case DeliverSync(s, m) => StepDeliver(w, s, m)
    case ReleaseCommit(s) => StepRelease(w, s)
    case FailCommit(s) => StepFail(w, s)
    case Restart(s, activationKey, ownKey, bootRole) => StepRestart(w, s, activationKey, ownKey, bootRole)
    case Lose(m) => w.(net := w.net - {m})
    case ServeCustody(s) => if CanServe(asm, w, s) then StepServe(w, s) else w
    case ServeLateRequest(s, requester) => if AsksLate(w, s, requester) then StepServeLate(w, s, requester) else w
    case DeliverCustody(s, m) => StepDeliverCustody(w, s, m)
    case PromoteCustodian(s) => if CanPromote(asm, w, s) then StepPromote(w, s) else w
    case SealCustody(s) => if CanServe(asm, w, s) && !asm.atomicServe then w.(sealed := Some(BundleOf(w, s))) else w
    case CompleteCustody(s) => if w.sealed.Some? && !asm.atomicServe then StepComplete(w, s) else w
  }

  /** withGovernanceCommit up to the replicator's reply. A custodian serves no route that commits. */
  function StepBegin(w: World, s: Slot, change: Change): World {
    var p := At(w, s);
    if !IsPrimary(p) || p.inflight.Some? then w
    else
      match Mutate(p.replica.key, p.replica.gov, change)
      case Err(_) => Thrown(w, s)
      case Ok(gov) => if NeedsAck(p.replica) then Sent(w, s, change, gov) else Alone(w, s, change, gov)
  }

  /** The closure threw: nothing is left of the commit but its serial. */
  function Thrown(w: World, s: Slot): World {
    var p := At(w, s);
    With(w, s, p.(replica := p.replica.(replicaSerial := p.replica.replicaSerial + 1)))
  }

  /** The changed state is on its way to the custodian. */
  function Sent(w: World, s: Slot, change: Change, gov: Gov): World
    requires At(w, s).replica.peer.Some?
  {
    var p := At(w, s);
    var changed := p.replica.(gov := gov, replicaSerial := p.replica.replicaSerial + 1);
    With(w, s, Proc(changed, p.history + [change], Some(Inflight(p.replica.gov, p.history))))
      .(net := w.net + {Sync(p.replica.activationKey, p.replica.peer.value, Export(changed), p.history + [change])})
  }

  /** A primary whose custodian has not enrolled has nobody to replicate to. */
  function Alone(w: World, s: Slot, change: Change, gov: Gov): World {
    var p := At(w, s);
    var changed := p.replica.(gov := gov, replicaSerial := p.replica.replicaSerial + 1);
    RecordRelease(With(w, s, Proc(changed, p.history + [change], None)), p.history + [change])
  }

  /** The custodian a sync is addressed to applies it, if it accepts it, and replies with the serial. */
  function StepDeliver(w: World, s: Slot, m: Message): World {
    var p := At(w, s);
    if m !in w.net || !m.Sync? || m.to != p.replica.activationKey then w
    else
      match AcceptSync(p.replica, m.snapshot)
      case Err(_) => w
      case Ok(replica) =>
        With(w, s, Proc(replica, m.history, None)).(net := w.net + {Ack(m.from, m.snapshot.replicaSerial)})
  }

  /** The acknowledgement of this very commit arrives: the change is returned to its caller. */
  function StepRelease(w: World, s: Slot): World {
    var p := At(w, s);
    if p.inflight.None? || Ack(p.replica.activationKey, p.replica.replicaSerial) !in w.net then w
    else RecordRelease(With(w, s, p.(inflight := None)), p.history)
  }

  /** No acknowledgement in time: every replicated field is restored, the serial is not. */
  function StepFail(w: World, s: Slot): World {
    var p := At(w, s);
    if p.inflight.None? then w
    else With(w, s, Proc(p.replica.(gov := p.inflight.value.previous), p.inflight.value.previousHistory, None))
  }

  /** A crash or a stop, and a boot with keys never used before. */
  function StepRestart(w: World, s: Slot, activationKey: Pem, ownKey: Pem, bootRole: Role): World {
    if activationKey in w.used then w
    else With(w, s, Boot(activationKey, ownKey, bootRole)).(used := w.used + {activationKey})
  }

  /** A key holder between commits, asked by the fresh replica in the other slot. */
  predicate CanServe(asm: Assumptions, w: World, s: Slot) {
    && HoldsKey(At(w, s).replica)
    && At(w, s).inflight.None?
    && IsFresh(At(w, Opposite(s)).replica)
    && (asm.drained && IsCustodian(At(w, s)) ==> Drained(w, At(w, s)))
    && (asm.stopped ==> At(w, s).replica.activationKey !in w.replaced)
  }

  /** No sync that this process would still accept is on its way to it. */
  predicate Drained(w: World, p: Proc) {
    forall m :: m in w.net && m.Sync? && m.to == p.replica.activationKey ==>
      m.snapshot.replicaSerial <= p.replica.replicaSerial
  }

  /** A request of a process that has crashed since, or that holds the key by now, reaches a key holder late. */
  predicate AsksLate(w: World, s: Slot, requester: Pem) {
    var other := At(w, Opposite(s)).replica;
    && HoldsKey(At(w, s).replica)
    && At(w, s).inflight.None?
    && requester in w.used && requester != At(w, s).replica.activationKey
    && !(requester == other.activationKey && IsFresh(other))
  }

  /** The sender after it has recorded the requester as its peer. */
  function Recorded(w: World, s: Slot, requester: Pem): Proc {
    At(w, s).(replica := At(w, s).replica.(peer := Some(requester)))
  }

  /** The sender's key and state, sealed to the requester, in the role opposite the sender's. */
  function BundleTo(w: World, s: Slot, requester: Pem): Message {
    var p := At(w, s).replica;
    Custody(p.activationKey, requester, p.key, Export(p), ServedRole(p), At(w, s).history)
  }

  /** The bundle for the process in the other slot. */
  function BundleOf(w: World, s: Slot): Message {
    BundleTo(w, s, At(w, Opposite(s)).replica.activationKey)
  }

  function StepServe(w: World, s: Slot): World {
    RecordRelease(With(w, s, Recorded(w, s, At(w, Opposite(s)).replica.activationKey)), At(w, s).history)
      .(net := w.net + {BundleOf(w, s)})
  }

  /** Nobody will apply this bundle, but its addressee becomes the recorded peer. */
  function StepServeLate(w: World, s: Slot, requester: Pem): World {
    With(w, s, Recorded(w, s, requester)).(net := w.net + {BundleTo(w, s, requester)})
  }

  /** The requester a bundle is sealed to applies it, if it is still fresh, and records the sender. */
  function StepDeliverCustody(w: World, s: Slot, m: Message): World {
    var p := At(w, s);
    if m !in w.net || !m.Custody? || m.to != p.replica.activationKey then w
    else
      match AcceptCustody(p.replica, m.key, m.snapshot, m.role, m.snapshot.gov.lineage)
      case Err(_) => w
      case Ok(replica) => With(w, s, Proc(replica.(peer := Some(m.from)), m.history, None))
  }

  /** A custodian is not promoted while a bundle it sealed can still be applied. */
  predicate CanPromote(asm: Assumptions, w: World, s: Slot) {
    asm.settled && IsFresh(At(w, Opposite(s)).replica) ==>
      forall m :: m in w.net && m.Custody? && m.to == At(w, Opposite(s)).replica.activationKey ==>
        m.from != At(w, s).replica.activationKey
  }

  function StepPromote(w: World, s: Slot): World {
    var p, former := At(w, s), At(w, Opposite(s));
    match Promote(p.replica)
    case Err(_) => w
    case Ok(replica) =>
      RecordRelease(With(w, s, p.(replica := replica)), p.history)
        .(replaced := if IsPrimary(former) then w.replaced + {former.replica.activationKey} else w.replaced)
  }

  /** Custody served in two steps, as the code does: the peer is recorded after the bundle was sealed. */
  function StepComplete(w: World, s: Slot): World
    requires w.sealed.Some?
  {
    var p, bundle := At(w, s), w.sealed.value;
    if !bundle.Custody? || p.replica.activationKey != bundle.from then w.(sealed := None)
    else
      RecordRelease(With(w, s, p.(replica := p.replica.(peer := Some(bundle.to)))), bundle.history)
        .(net := w.net + {bundle}, sealed := None)
  }

  /** A run is any sequence of events. */
  function Run(asm: Assumptions, w: World, events: seq<Event>): World {
    if |events| == 0 then w else Step(asm, Run(asm, w, events[..|events| - 1]), events[|events| - 1])
  }

  /** One primary holds the lineage; the other slot has just booted. */
  predicate Initial(w: World) {
    && Holder(w.key, w.start)
    && w.a.replica.key == w.key && w.a.replica.gov == w.start && w.a.replica.role == Some(Primary)
    && w.a.replica.peer == None && w.a.history == [] && w.a.inflight == None
    && w.b.replica.role.Some?
    && w.b == Boot(w.b.replica.activationKey, w.b.replica.key, w.b.replica.role.value)
    && w.a.replica.activationKey != w.b.replica.activationKey
    && w.used == {w.a.replica.activationKey, w.b.replica.activationKey}
    && w.net == {} && w.sealed == None && w.replaced == {}
    && w.released == {[]} && w.tip == []
  }
}
