/** The independent lineage checker written in Go (verifier/main.go), and a
    monitor that re-pins the lineage it accepted last. */
module LineageMonitor {
  import opened Prelude
  import opened Lineage

  /** What validateGovernanceLineage returns. */
  datatype Verdict = Verdict(keyId: KeyId, imageDigest: Image, modelPolicy: string, publicKey: Pem, epoch: int)

  /** A lineage certificate that leaves no field about its model empty. */
  predicate HasMetadata(payload: Payload) {
    && (payload.Genesis? || payload.Successor?)
    && "" !in [payload.meta.model, payload.meta.prompt, payload.meta.responseSchema, payload.meta.modelPolicy]
  }

  predicate MetadataComplete(meta: Metadata) {
    meta.model != "" && meta.prompt != "" && meta.responseSchema != "" && meta.modelPolicy != ""
  }

  /** What a certificate says of the code and the model that hold its key. */
  function NamedImage(payload: Payload): Option<Image> {
    match payload
    case Genesis(_, _, _, image, _) => Some(image)
    case Successor(_, _, _, _, _, _, image, _, _, _, _) => Some(image)
    case _ => None
  }

  function NamedPolicy(payload: Payload): Option<string> {
    match payload
    case Genesis(_, _, _, _, meta) => Some(meta.modelPolicy)
    case Successor(_, _, _, _, _, _, _, _, meta, _, _) => Some(meta.modelPolicy)
    case _ => None
  }

  /** The verdict is about the last certificate alone. */
  predicate Describes(v: Verdict, payload: Payload) {
    && NamedKey(payload) == Some(v.publicKey) && NamedKeyId(payload) == Some(v.keyId)
    && NamedImage(payload) == Some(v.imageDigest) && NamedPolicy(payload) == Some(v.modelPolicy)
  }

  /** The Go loop as a fold over the certificates. */
  function GoWalk(lineage: seq<Envelope>): Option<Verdict>
    requires |lineage| > 0
  {
    if |lineage| == 1 then GoGenesis(lineage[0])
    else
      match GoWalk(lineage[..|lineage| - 1])
      case None => None
      case Some(v) => GoStep(v, lineage[|lineage| - 1])
  }

  function GoGenesis(envelope: Envelope): Option<Verdict> {
    match envelope.payload
    case Genesis(epoch, pem, keyId, image, meta) =>
      if VerifyEnvelope(envelope, pem) && epoch == 1 && MetadataComplete(meta)
      then Some(Verdict(keyId, image, meta.modelPolicy, pem, epoch)) else None
    case _ => None
  }

  function GoStep(v: Verdict, envelope: Envelope): Option<Verdict> {
    if !VerifyEnvelope(envelope, v.publicKey) then None
    else match envelope.payload
      case Successor(predecessorEpoch, successorEpoch, _, keyId, pem, _, image, _, meta, _, _) =>
        if predecessorEpoch == v.epoch && successorEpoch == v.epoch + 1 && MetadataComplete(meta)
        then Some(Verdict(keyId, image, meta.modelPolicy, pem, v.epoch + 1)) else None
      case _ => None
  }

  method ValidateGovernanceLineage(lineage: seq<Envelope>) returns (r: Option<Verdict>)
    requires |lineage| > 0
    ensures r == GoWalk(lineage)
    ensures r.Some? <==> ValidLineage(lineage) && forall i :: 0 <= i < |lineage| ==> HasMetadata(lineage[i].payload)
    ensures r.Some? ==> r.value.epoch == |lineage| && r.value.publicKey == CurrentKey(lineage)
    ensures r.Some? ==> Describes(r.value, lineage[|lineage| - 1].payload)
  {
    GoAcceptsExactlyDescribedLineages(lineage);
    assert GoWalk(lineage[..1]) == GoGenesis(lineage[0]);
    var first := GoGenesis(lineage[0]);
    if first == None {
      GoRejectionSticks(lineage, 1);
      return None;
    }
    var current := first.value;
    var i := 1;
    while i < |lineage|
      invariant 1 <= i <= |lineage|
      invariant GoWalk(lineage[..i]) == Some(current)
    {
      assert lineage[..i + 1][..i] == lineage[..i];
      assert GoWalk(lineage[..i + 1]) == GoStep(current, lineage[i]);
      var payload := lineage[i].payload;
      if !VerifyEnvelope(lineage[i], current.publicKey)
        || !payload.Successor?
        || payload.predecessorEpoch != current.epoch || payload.successorEpoch != current.epoch + 1
        || !MetadataComplete(payload.meta)
      {
        GoRejectionSticks(lineage, i + 1);
        return None;
      }
      current := current.(epoch := current.epoch + 1,
                          keyId := payload.successorGovernanceKeyId,
                          publicKey := payload.successorGovernancePublicKeyPem,
                          imageDigest := payload.candidateImageDigest,
                          modelPolicy := payload.meta.modelPolicy);
      i := i + 1;
    }
    assert lineage[..|lineage|] == lineage;
    return Some(current);
  }

  lemma {:induction false} GoRejectionSticks(lineage: seq<Envelope>, n: nat)
    requires 1 <= n <= |lineage| && GoWalk(lineage[..n]) == None
    ensures GoWalk(lineage) == None
  {
    if n == |lineage| {
      assert lineage[..n] == lineage;
    } else {
      var shorter := lineage[..|lineage| - 1];
      assert shorter[..n] == lineage[..n];
      GoRejectionSticks(shorter, n);
    }
  }

  /** The Go checker accepts exactly the valid lineages whose certificates all carry their
      model metadata; the epoch it counts and the key it ends on are the lineage's. */
  lemma {:induction false} GoAcceptsExactlyDescribedLineages(lineage: seq<Envelope>)
    requires |lineage| > 0
    ensures GoWalk(lineage).Some? <==>
              ValidLineage(lineage) && forall i :: 0 <= i < |lineage| ==> HasMetadata(lineage[i].payload)
    ensures GoWalk(lineage).Some? ==>
              && GoWalk(lineage).value.epoch == |lineage|
              && GoWalk(lineage).value.publicKey == CurrentKey(lineage)
              && Describes(GoWalk(lineage).value, lineage[|lineage| - 1].payload)
  {
    if |lineage| > 1 {
      var shorter, last := lineage[..|lineage| - 1], lineage[|lineage| - 1];
      assert lineage == shorter + [last];
      GoAcceptsExactlyDescribedLineages(shorter);
      if ValidLineage(shorter) {
        ValidExtension(shorter, last);
      }
      if ValidLineage(lineage) {
        ValidPrefix(lineage, |lineage| - 1);
      }
    }
  }

  /** The two checkers agree: what Go accepts, verifyLineage accepts with the same final epoch and
      key, and verifyLineage accepts nothing more than lineages that lack only metadata. */
  lemma CheckersAgree(lineage: seq<Envelope>)
    requires |lineage| > 0
    ensures GoWalk(lineage).Some? ==>
              && Walk(lineage).Ok?
              && Walk(lineage).value.currentEpoch == GoWalk(lineage).value.epoch
              && Walk(lineage).value.currentGovernancePublicKeyPem == GoWalk(lineage).value.publicKey
    ensures Walk(lineage).Ok? && GoWalk(lineage) == None ==>
              exists i :: 0 <= i < |lineage| && !HasMetadata(lineage[i].payload)
  {
    GoAcceptsExactlyDescribedLineages(lineage);
    WalkDecidesValidity(lineage);
  }

  // ---------------------------------------------------------------------
  // Continuity policy and a monitor's run
  // ---------------------------------------------------------------------

  datatype Config = Config(pinnedLineage: Option<seq<Envelope>>, requireSuccessorLineage: bool,
                           minGovernanceEpoch: int, pinnedPredecessorLineage: Option<seq<Envelope>>)

  predicate ContinuityOk(lineage: seq<Envelope>, currentEpoch: int, cfg: Config)
    requires |lineage| > 0
  {
    && (cfg.pinnedLineage.Some? ==> cfg.pinnedLineage.value == lineage)
    && (cfg.requireSuccessorLineage ==> |lineage| > 1)
    && (cfg.minGovernanceEpoch > 0 ==> currentEpoch >= cfg.minGovernanceEpoch)
    && (cfg.pinnedPredecessorLineage.Some? ==>
          |lineage| > 1 && lineage[..|lineage| - 1] == cfg.pinnedPredecessorLineage.value)
  }

  predicate MonitorAccepts(lineage: seq<Envelope>, cfg: Config) {
    && |lineage| > 0
    && GoWalk(lineage).Some?
    && ContinuityOk(lineage, GoWalk(lineage).value.epoch, cfg)
  }

  /** A monitor accepts exactly the valid, fully described lineages that are the pinned one, if one is pinned, that
      have the certificates its settings ask for, and that extend the pinned predecessor, if one is pinned, by one
      certificate. */
  lemma MonitorAcceptsExactly(lineage: seq<Envelope>, cfg: Config)
    ensures MonitorAccepts(lineage, cfg) <==>
              && ValidLineage(lineage) && (forall i :: 0 <= i < |lineage| ==> HasMetadata(lineage[i].payload))
              && (cfg.pinnedLineage == None || cfg.pinnedLineage == Some(lineage))
              && (cfg.requireSuccessorLineage ==> 2 <= |lineage|)
              && cfg.minGovernanceEpoch <= |lineage|
              && (cfg.pinnedPredecessorLineage.Some? ==>
                    && cfg.pinnedPredecessorLineage.value != []
                    && exists next :: lineage == cfg.pinnedPredecessorLineage.value + [next])
  {
    if |lineage| > 0 {
      GoAcceptsExactlyDescribedLineages(lineage);
      if cfg.pinnedPredecessorLineage.Some? {
        OneMoreThan(lineage, cfg.pinnedPredecessorLineage.value);
      }
    }
  }

  lemma OneMoreThan(lineage: seq<Envelope>, shorter: seq<Envelope>)
    requires |lineage| > 0
    ensures |lineage| > 1 && lineage[..|lineage| - 1] == shorter <==>
            shorter != [] && exists next :: lineage == shorter + [next]
  {
    if lineage[..|lineage| - 1] == shorter {
      assert lineage == shorter + [lineage[|lineage| - 1]];
    }
  }

  /** A monitor accepts one lineage after another, each time pinning the digest of the lineage it
      accepted before as the predecessor; its other settings are free. */
  predicate MonitorRun(lineages: seq<seq<Envelope>>, cfgs: seq<Config>) {
    && |cfgs| == |lineages|
    && (forall k :: 0 <= k < |lineages| ==> MonitorAccepts(lineages[k], cfgs[k]))
    && (forall k :: 1 <= k < |lineages| ==> cfgs[k].pinnedPredecessorLineage == Some(lineages[k - 1]))
  }

  /** Each lineage is the one before it plus one certificate. */
  predicate GrowsByOne(lineages: seq<seq<Envelope>>) {
    forall k {:trigger lineages[k]} :: 1 <= k < |lineages| ==>
      |lineages[k]| == |lineages[k - 1]| + 1 && Extends(lineages[k], lineages[k - 1])
  }

  lemma MonitorRunGrowsByOne(lineages: seq<seq<Envelope>>, cfgs: seq<Config>)
    requires MonitorRun(lineages, cfgs)
    ensures GrowsByOne(lineages)
  {
    forall k {:trigger lineages[k]} | 1 <= k < |lineages|
      ensures |lineages[k]| == |lineages[k - 1]| + 1 && Extends(lineages[k], lineages[k - 1])
    {
      assert MonitorAccepts(lineages[k], cfgs[k]);
    }
  }

  /** In such a run the lineage accepted at step `j` is the one accepted at step `i` plus exactly
      `j - i` certificates. */
  lemma {:induction false} MonitorFollowsOneLineage(lineages: seq<seq<Envelope>>, i: nat, j: nat)
    requires GrowsByOne(lineages) && i <= j < |lineages|
    ensures |lineages[j]| == |lineages[i]| + (j - i)
    ensures Extends(lineages[j], lineages[i])
  {
    if i < j {
      MonitorFollowsOneLineage(lineages, i, j - 1);
      ExtendsTransitive(lineages[i], lineages[j - 1], lineages[j]);
    } else {
      assert lineages[j][..|lineages[i]|] == lineages[i];
    }
  }

  /** Over the whole run the lineages extend one another, the accepted epochs rise by one per
      acceptance, and the key of an epoch once seen is the same in everything accepted later. */
  lemma MonitorSeesNoKeyReplaced(lineages: seq<seq<Envelope>>, cfgs: seq<Config>, i: nat, j: nat, epoch: int)
    requires MonitorRun(lineages, cfgs) && i <= j < |lineages| && 1 <= epoch <= |lineages[i]|
    ensures MonitorAccepts(lineages[i], cfgs[i]) && MonitorAccepts(lineages[j], cfgs[j])
    ensures |lineages[j]| == |lineages[i]| + (j - i) && Extends(lineages[j], lineages[i])
    ensures GoWalk(lineages[j]).value.epoch == GoWalk(lineages[i]).value.epoch + (j - i)
    ensures KeyAtEpoch(lineages[j], epoch) == KeyAtEpoch(lineages[i], epoch)
  {
    assert MonitorAccepts(lineages[i], cfgs[i]) && MonitorAccepts(lineages[j], cfgs[j]);
    MonitorRunGrowsByOne(lineages, cfgs);
    MonitorFollowsOneLineage(lineages, i, j);
    GoAcceptsExactlyDescribedLineages(lineages[i]);
    GoAcceptsExactlyDescribedLineages(lineages[j]);
    ExtensionKeepsKeys(lineages[j], lineages[i], epoch);
  }
}
