/** Route documents and the registry built from them (src/route-registry.js). */
module RouteRegistry {
  import opened Prelude
  import opened Lineage
  import opened Governance
  import opened GovernanceHistory
  import opened Admissions

  const CLOCK_SKEW_MS := 5 * 60 * 1000

  /** A route payload; `wellFormed` stands for the hostname, repository, URL and UUID patterns. */
  datatype RoutePayload =
    | TenantApi(tenant: string, version: int, apiHost: string, appHost: string, audiences: seq<string>,
                issuedAt: Time, expiresAt: Time, wellFormed: bool)
    | DeployWebhook(tenant: string, version: int, githubRepoName: string,
                    issuedAt: Time, expiresAt: Time, wellFormed: bool)
    | UnsupportedRoute(tenant: string)

  datatype RouteSignature = RouteSignature(alg: string, keyId: string, signerPem: string, over: RoutePayload)

  datatype RouteEnvelope = RouteEnvelope(payload: RoutePayload, payloadDigest: RoutePayload, signature: RouteSignature)

  datatype RouteDocument = RouteDocument(schemaOk: bool, admissionEnvelope: Envelope, routeEnvelope: RouteEnvelope)

  datatype TrustAnchor = TrustAnchor(minRouteVersion: int, routeSigningKeys: seq<RouteKey>)

  type Anchors = map<string, TrustAnchor>

  datatype RouteError =
    | MalformedDocument | BadAdmission
    | UnsupportedAlgorithm | DigestMismatch | NoAnchor | NoSigningKey | BadRouteSignature
    | Unsupported | BadPayload | BelowMinimumVersion | IssuedInFuture | RouteExpired | NotAdmitted | Duplicate

  // ---------------------------------------------------------------------
  // One route
  // ---------------------------------------------------------------------

  /** The first key with the signature's id and algorithm. */
  function FindKey(keys: seq<RouteKey>, signature: RouteSignature): Option<RouteKey> {
    if |keys| == 0 then None
    else if keys[0].keyId == signature.keyId && keys[0].alg == signature.alg then Some(keys[0])
    else FindKey(keys[1..], signature)
  }

  function ValidatePayload(p: RoutePayload, minRouteVersion: int, now: Time): Result<(), RouteError> {
    if p.UnsupportedRoute? then Err(Unsupported)
    else if !p.wellFormed || (p.TenantApi? && BROKER_AUDIENCE !in p.audiences) || p.version < 1 then Err(BadPayload)
    else if p.version < minRouteVersion then Err(BelowMinimumVersion)
    else if p.issuedAt > now + CLOCK_SKEW_MS then Err(IssuedInFuture)
    else if p.expiresAt <= now then Err(RouteExpired)
    else Ok(())
  }

  function VerifyRoute(envelope: RouteEnvelope, anchors: Anchors, now: Time): Result<RoutePayload, RouteError> {
    var p := envelope.payload;
    if envelope.signature.alg !in ["Ed25519", "ECDSA_P256_SHA256"] then Err(UnsupportedAlgorithm)
    else if envelope.payloadDigest != p then Err(DigestMismatch)
    else if p.tenant !in anchors then Err(NoAnchor)
    else
      var key := FindKey(anchors[p.tenant].routeSigningKeys, envelope.signature);
      if key.None? then Err(NoSigningKey)
      else if envelope.signature.signerPem != key.value.publicKeyPem then Err(BadRouteSignature)
      else if envelope.signature.over != p then Err(BadRouteSignature)
      else
        match ValidatePayload(p, anchors[p.tenant].minRouteVersion, now)
        case Err(e) => Err(e)
        case Ok(_) => Ok(p)
  }

  predicate AdmissionPermits(admission: Payload, p: RoutePayload)
    requires admission.Admission?
  {
    p.TenantApi? ==>
      && p.apiHost in admission.allowedApiHosts
      && p.appHost in admission.allowedAppHosts
      && forall i :: 0 <= i < |p.audiences| ==> p.audiences[i] in admission.allowedBrokerAudiences
  }

  /** The lineage and route policy documents are checked against, and the time of the check. */
  datatype Context = Context(lineage: seq<Envelope>, tenants: map<string, TenantEntry>, now: Time)

  function VerifyDocument(ctx: Context, document: RouteDocument): Result<RoutePayload, RouteError> {
    if !document.schemaOk then Err(MalformedDocument)
    else match VerifyAdmission(ctx.lineage, ctx.tenants, document.admissionEnvelope, ctx.now)
      case Err(_) => Err(BadAdmission)
      case Ok(admission) =>
        var anchor := TrustAnchor(admission.minRouteVersion, admission.tenantRouteSigningKeys);
        var anchors := map[admission.tenant := anchor];
        match VerifyRoute(document.routeEnvelope, anchors, ctx.now)
        case Err(e) => Err(e)
        case Ok(p) => if AdmissionPermits(admission, p) then Ok(p) else Err(NotAdmitted)
  }

  /** Every accepted route document carries a version at least as high as the largest minimum its tenant was
      ever admitted with, at any point of the history behind the current route policy. */
  lemma AcceptedRouteRespectsEveryMinimum(key: Pem, g: Gov, history: seq<Change>, k: nat, payload: Payload,
                                          document: RouteDocument, now: Time)
    requires AdmittedAt(key, g, history, k, payload)
    requires var current := Replay(key, g, history);
             VerifyDocument(Context(current.lineage, current.tenants, now), document).Ok?
    requires document.routeEnvelope.payload.tenant == payload.tenant
    ensures !document.routeEnvelope.payload.UnsupportedRoute?
    ensures payload.minRouteVersion <= document.routeEnvelope.payload.version
  {
    MinimumCoversEveryAdmission(key, g, history, k, payload);
  }

  // ---------------------------------------------------------------------
  // The registry
  // ---------------------------------------------------------------------

  datatype Source = FirestoreDocument | RouteBundle

  datatype Summary =
    | RouteSummary(route: RoutePayload, source: Source)
    | Rejected(document: RouteDocument, reason: RouteError)

  type Routes = map<string, RoutePayload>

  datatype Registry = Registry(tenantApiRoutes: Routes, deployWebhookRoutes: Routes, routeSummaries: seq<Summary>)

  const EMPTY := Registry(map[], map[], [])

  function AddRoute(r: Registry, p: RoutePayload, source: Source): Result<Registry, RouteError> {
    match p
    case TenantApi(tenant, _, _, _, _, _, _, _) =>
      if tenant in r.tenantApiRoutes then Err(Duplicate)
      else Ok(Registry(r.tenantApiRoutes[tenant := p], r.deployWebhookRoutes,
                       r.routeSummaries + [RouteSummary(p, source)]))
    case DeployWebhook(_, _, repo, _, _, _) =>
      if repo in r.deployWebhookRoutes then Err(Duplicate)
      else Ok(Registry(r.tenantApiRoutes, r.deployWebhookRoutes[repo := p],
                       r.routeSummaries + [RouteSummary(p, source)]))
    case UnsupportedRoute(_) => Err(Unsupported)
  }

  /** One route document, verified and added, or refused. */
  function TryDocument(ctx: Context, r: Registry, document: RouteDocument): Result<Registry, RouteError> {
    match VerifyDocument(ctx, document)
    case Err(e) => Err(e)
    case Ok(p) => AddRoute(r, p, FirestoreDocument)
  }

  function TryBundleRoute(anchors: Anchors, now: Time, r: Registry, envelope: RouteEnvelope)
    : Result<Registry, RouteError>
  {
    match VerifyRoute(envelope, anchors, now)
    case Err(e) => Err(e)
    case Ok(p) => AddRoute(r, p, RouteBundle)
  }

  function AddDocument(ctx: Context, r: Registry, document: RouteDocument): Registry {
    match TryDocument(ctx, r, document)
    case Ok(after) => after
    case Err(e) => r.(routeSummaries := r.routeSummaries + [Rejected(document, e)])
  }

  /** The documents folded in order, refused ones summarised. */
  function FoldDocuments(ctx: Context, documents: seq<RouteDocument>): Registry {
    if |documents| == 0 then EMPTY
    else
      AddDocument(ctx, FoldDocuments(ctx, documents[..|documents| - 1]), documents[|documents| - 1])
  }

  function FoldBundle(anchors: Anchors, now: Time, r: Registry, routes: seq<RouteEnvelope>)
    : Result<Registry, RouteError>
  {
    if |routes| == 0 then Ok(r)
    else
      match FoldBundle(anchors, now, r, routes[..|routes| - 1])
      case Err(e) => Err(e)
      case Ok(before) => TryBundleRoute(anchors, now, before, routes[|routes| - 1])
  }

  predicate AllAccepted(r: Registry) {
    forall i :: 0 <= i < |r.routeSummaries| ==> !r.routeSummaries[i].Rejected?
  }

  /** One turn of the loop over documents. */
  lemma DocumentStep(ctx: Context, documents: seq<RouteDocument>, i: nat)
    requires i < |documents|
    ensures FoldDocuments(ctx, documents[..i + 1]) == AddDocument(ctx, FoldDocuments(ctx, documents[..i]), documents[i])
  {
    assert documents[..i + 1][..i] == documents[..i];
  }

  lemma AddingSummarises(ctx: Context, r: Registry, document: RouteDocument)
    ensures var after := AddDocument(ctx, r, document);
            && |after.routeSummaries| == |r.routeSummaries| + 1 && r.routeSummaries <= after.routeSummaries
            && (TryDocument(ctx, r, document).Ok? && AllAccepted(r) ==> AllAccepted(after))
  {
  }

  lemma {:induction false} SummariesOnlyGrow(ctx: Context, documents: seq<RouteDocument>, n: nat)
    requires n <= |documents|
    ensures FoldDocuments(ctx, documents[..n]).routeSummaries <= FoldDocuments(ctx, documents).routeSummaries
    ensures |FoldDocuments(ctx, documents[..n]).routeSummaries| == n
    decreases |documents| - n
  {
    OneSummaryEach(ctx, documents[..n]);
    if n == |documents| {
      assert documents[..n] == documents;
    } else {
      SummariesOnlyGrow(ctx, documents, n + 1);
      DocumentStep(ctx, documents, n);
      AddingSummarises(ctx, FoldDocuments(ctx, documents[..n]), documents[n]);
    }
  }

  lemma {:induction false} OneSummaryEach(ctx: Context, documents: seq<RouteDocument>)
    ensures |FoldDocuments(ctx, documents).routeSummaries| == |documents|
  {
    if |documents| > 0 {
      var shorter := documents[..|documents| - 1];
      OneSummaryEach(ctx, shorter);
      AddingSummarises(ctx, FoldDocuments(ctx, shorter), documents[|documents| - 1]);
    }
  }

  /** A document refused on its turn is in the summaries for good. */
  lemma RefusalStays(ctx: Context, documents: seq<RouteDocument>, n: nat, reason: RouteError)
    requires n < |documents| && AllAccepted(FoldDocuments(ctx, documents[..n]))
    requires TryDocument(ctx, FoldDocuments(ctx, documents[..n]), documents[n]) == Err(reason)
    ensures |FoldDocuments(ctx, documents).routeSummaries| == |documents|
    ensures FirstRefused(FoldDocuments(ctx, documents), documents, n, reason)
    ensures !AllAccepted(FoldDocuments(ctx, documents))
  {
    SummariesOnlyGrow(ctx, documents, n);
    OneSummaryEach(ctx, documents);
    DocumentStep(ctx, documents, n);
    SummariesOnlyGrow(ctx, documents, n + 1);
  }

  /** One turn of the loop over bundle routes. */
  lemma RouteStep(anchors: Anchors, now: Time, r: Registry, routes: seq<RouteEnvelope>, i: nat)
    requires i < |routes| && FoldBundle(anchors, now, r, routes[..i]).Ok?
    ensures var before := FoldBundle(anchors, now, r, routes[..i]).value;
            && FoldBundle(anchors, now, r, routes[..i + 1]) == TryBundleRoute(anchors, now, before, routes[i])
            && (TryBundleRoute(anchors, now, before, routes[i]).Ok? ==>
                  |TryBundleRoute(anchors, now, before, routes[i]).value.routeSummaries| == |before.routeSummaries| + 1)
  {
    assert routes[..i + 1][..i] == routes[..i];
  }

  lemma {:induction false} BundleErrorSticks(anchors: Anchors, now: Time, r: Registry, routes: seq<RouteEnvelope>,
                                             n: nat)
    requires n <= |routes| && FoldBundle(anchors, now, r, routes[..n]).Err?
    ensures FoldBundle(anchors, now, r, routes) == FoldBundle(anchors, now, r, routes[..n])
  {
    if n == |routes| {
      assert routes[..n] == routes;
    } else {
      var shorter := routes[..|routes| - 1];
      assert shorter[..n] == routes[..n];
      BundleErrorSticks(anchors, now, r, shorter, n);
    }
  }

  /** The document whose refusal makes a strict build fail. */
  predicate FirstRefused(r: Registry, documents: seq<RouteDocument>, i: int, reason: RouteError)
    requires |r.routeSummaries| == |documents|
  {
    && 0 <= i < |documents| && r.routeSummaries[i] == Rejected(documents[i], reason)
    && forall j :: 0 <= j < i ==> !r.routeSummaries[j].Rejected?
  }

  method BuildRegistryState(anchors: Anchors, ctx: Context, documents: seq<RouteDocument>,
                            routes: seq<RouteEnvelope>, ignoreInvalidRouteDocuments: bool)
    returns (result: Result<Registry, RouteError>)
    ensures |FoldDocuments(ctx, documents).routeSummaries| == |documents|
    ensures ignoreInvalidRouteDocuments || AllAccepted(FoldDocuments(ctx, documents)) ==>
              result == FoldBundle(anchors, ctx.now, FoldDocuments(ctx, documents), routes)
    ensures !ignoreInvalidRouteDocuments && !AllAccepted(FoldDocuments(ctx, documents)) ==>
              result.Err? && exists i :: FirstRefused(FoldDocuments(ctx, documents), documents, i, result.error)
    ensures result.Ok? ==> Summarised(anchors, ctx, documents, routes, result.value.routeSummaries)
  {
    OneSummaryEach(ctx, documents);
    var tenantApiRoutes: Routes := map[];
    var deployWebhookRoutes: Routes := map[];
    var routeSummaries: seq<Summary> := [];
    var i := 0;
    while i < |documents|
      invariant 0 <= i <= |documents|
      invariant Registry(tenantApiRoutes, deployWebhookRoutes, routeSummaries) == FoldDocuments(ctx, documents[..i])
      invariant !ignoreInvalidRouteDocuments ==> AllAccepted(FoldDocuments(ctx, documents[..i]))
    {
      DocumentStep(ctx, documents, i);
      var current := Registry(tenantApiRoutes, deployWebhookRoutes, routeSummaries);
      AddingSummarises(ctx, current, documents[i]);
      var tried := TryDocument(ctx, current, documents[i]);
      match tried {
        case Ok(r) =>
          tenantApiRoutes, deployWebhookRoutes, routeSummaries :=
            r.tenantApiRoutes, r.deployWebhookRoutes, r.routeSummaries;
        case Err(e) =>
          if !ignoreInvalidRouteDocuments {
            RefusalStays(ctx, documents, i, e);
            return Err(e);
          }
          routeSummaries := routeSummaries + [Rejected(documents[i], e)];
      }
      assert Registry(tenantApiRoutes, deployWebhookRoutes, routeSummaries) == AddDocument(ctx, current, documents[i]);
      i := i + 1;
    }
    assert documents[..|documents|] == documents;
    ghost var folded := FoldDocuments(ctx, documents);
    i := 0;
    while i < |routes|
      invariant 0 <= i <= |routes|
      invariant Ok(Registry(tenantApiRoutes, deployWebhookRoutes, routeSummaries)) ==
                  FoldBundle(anchors, ctx.now, folded, routes[..i])
    {
      RouteStep(anchors, ctx.now, folded, routes, i);
      var current := Registry(tenantApiRoutes, deployWebhookRoutes, routeSummaries);
      var tried := TryBundleRoute(anchors, ctx.now, current, routes[i]);
      if tried.Err? {
        BundleErrorSticks(anchors, ctx.now, folded, routes, i + 1);
        return tried;
      }
      tenantApiRoutes, deployWebhookRoutes, routeSummaries :=
        tried.value.tenantApiRoutes, tried.value.deployWebhookRoutes, tried.value.routeSummaries;
      i := i + 1;
    }
    assert routes[..|routes|] == routes;
    result := Ok(Registry(tenantApiRoutes, deployWebhookRoutes, routeSummaries));
    assert result == FoldBundle(anchors, ctx.now, folded, routes);
    BuildIsSummarised(anchors, ctx, documents, routes);
  }

  // ---------------------------------------------------------------------
  // What the fold means
  // ---------------------------------------------------------------------

  /** A place in one of the two maps. */
  datatype Place = ForTenant(tenant: string) | ForRepo(repo: string)

  function Lookup(r: Registry, place: Place): Option<RoutePayload> {
    match place
    case ForTenant(t) => if t in r.tenantApiRoutes then Some(r.tenantApiRoutes[t]) else None
    case ForRepo(n) => if n in r.deployWebhookRoutes then Some(r.deployWebhookRoutes[n]) else None
  }

  function PlaceOf(p: RoutePayload): Option<Place> {
    match p
    case TenantApi(tenant, _, _, _, _, _, _, _) => Some(ForTenant(tenant))
    case DeployWebhook(_, _, repo, _, _, _) => Some(ForRepo(repo))
    case UnsupportedRoute(_) => None
  }

  /** `document` is valid on its own, for that place. */
  predicate Serves(ctx: Context, document: RouteDocument, place: Place) {
    VerifyDocument(ctx, document).Ok? && PlaceOf(VerifyDocument(ctx, document).value) == Some(place)
  }

  predicate FirstFor(ctx: Context, documents: seq<RouteDocument>, place: Place, i: int) {
    && 0 <= i < |documents| && Serves(ctx, documents[i], place)
    && forall j :: 0 <= j < i ==> !Serves(ctx, documents[j], place)
  }

  predicate NoneFor(ctx: Context, documents: seq<RouteDocument>, place: Place) {
    forall j :: 0 <= j < |documents| ==> !Serves(ctx, documents[j], place)
  }

  /** Adding a document fills its own place if it is free, and no other. */
  lemma TryFillsOnePlace(ctx: Context, r: Registry, document: RouteDocument, place: Place)
    ensures var tried := TryDocument(ctx, r, document);
            && (tried.Ok? && Serves(ctx, document, place) ==>
                  Lookup(tried.value, place) == Some(VerifyDocument(ctx, document).value))
            && (tried.Ok? && !Serves(ctx, document, place) ==> Lookup(tried.value, place) == Lookup(r, place))
            && (Serves(ctx, document, place) && Lookup(r, place).None? ==> tried.Ok?)
            && (Serves(ctx, document, place) && Lookup(r, place).Some? ==> tried.Err?)
  {
  }

  lemma LookupAfterOneMore(ctx: Context, documents: seq<RouteDocument>, place: Place)
    requires |documents| > 0
    ensures var n := |documents| - 1;
            var before := Lookup(FoldDocuments(ctx, documents[..n]), place);
            Lookup(FoldDocuments(ctx, documents), place) ==
              if before.None? && Serves(ctx, documents[n], place) then Some(VerifyDocument(ctx, documents[n]).value)
              else before
  {
    TryFillsOnePlace(ctx, FoldDocuments(ctx, documents[..|documents| - 1]), documents[|documents| - 1], place);
  }

  lemma NoneForOneMore(ctx: Context, documents: seq<RouteDocument>, place: Place)
    requires |documents| > 0
    ensures var n := |documents| - 1;
            NoneFor(ctx, documents, place) <==> NoneFor(ctx, documents[..n], place) && !Serves(ctx, documents[n], place)
  {
    assert forall j :: 0 <= j < |documents| - 1 ==> documents[..|documents| - 1][j] == documents[j];
  }

  lemma FirstForOneMore(ctx: Context, documents: seq<RouteDocument>, place: Place, i: int)
    requires FirstFor(ctx, documents, place, i)
    ensures var n := |documents| - 1;
            if i < n then FirstFor(ctx, documents[..n], place, i) else NoneFor(ctx, documents[..n], place)
  {
    assert forall j :: 0 <= j < |documents| - 1 ==> documents[..|documents| - 1][j] == documents[j];
  }

  /** A place in the registry is filled exactly when some document is valid for it on its own. */
  lemma {:induction false} FilledExactlyWhenServed(ctx: Context, documents: seq<RouteDocument>, place: Place)
    ensures Lookup(FoldDocuments(ctx, documents), place).None? <==> NoneFor(ctx, documents, place)
  {
    if |documents| > 0 {
      var n := |documents| - 1;
      FilledExactlyWhenServed(ctx, documents[..n], place);
      LookupAfterOneMore(ctx, documents, place);
      NoneForOneMore(ctx, documents, place);
    }
  }

  /** And then it holds the first such document, whatever invalid documents and duplicates there are. */
  lemma {:induction false} FirstValidWins(ctx: Context, documents: seq<RouteDocument>, place: Place, i: int)
    requires FirstFor(ctx, documents, place, i)
    ensures Lookup(FoldDocuments(ctx, documents), place) == Some(VerifyDocument(ctx, documents[i]).value)
  {
    var n := |documents| - 1;
    LookupAfterOneMore(ctx, documents, place);
    FirstForOneMore(ctx, documents, place, i);
    if i < n {
      FirstValidWins(ctx, documents[..n], place, i);
    } else {
      FilledExactlyWhenServed(ctx, documents[..n], place);
    }
  }

  predicate SameMaps(one: Registry, two: Registry) {
    one.tenantApiRoutes == two.tenantApiRoutes && one.deployWebhookRoutes == two.deployWebhookRoutes
  }

  lemma TryDependsOnMaps(ctx: Context, one: Registry, two: Registry, document: RouteDocument)
    requires SameMaps(one, two)
    ensures var a, b := TryDocument(ctx, one, document), TryDocument(ctx, two, document);
            (a.Ok? <==> b.Ok?) && (a.Ok? ==> SameMaps(a.value, b.value))
  {
  }

  lemma FoldOneMore(ctx: Context, documents: seq<RouteDocument>, last: RouteDocument)
    ensures var before := FoldDocuments(ctx, documents);
            var tried := TryDocument(ctx, before, last);
            SameMaps(FoldDocuments(ctx, documents + [last]), if tried.Ok? then tried.value else before)
  {
    assert (documents + [last])[..|documents|] == documents;
  }

  /** Leaving out a refused document, invalid or duplicate, changes neither map. */
  lemma {:induction false} RefusedDocumentsLeaveNoTrace(ctx: Context, before: seq<RouteDocument>,
                                                        refused: RouteDocument,
                                                        after: seq<RouteDocument>)
    requires TryDocument(ctx, FoldDocuments(ctx, before), refused).Err?
    ensures SameMaps(FoldDocuments(ctx, before + [refused] + after), FoldDocuments(ctx, before + after))
  {
    if |after| == 0 {
      FoldOneMore(ctx, before, refused);
      assert before + [refused] + after == before + [refused] && before + after == before;
    } else {
      var shorter, last := after[..|after| - 1], after[|after| - 1];
      RefusedDocumentsLeaveNoTrace(ctx, before, refused, shorter);
      var with, without := before + [refused] + shorter, before + shorter;
      assert before + [refused] + after == with + [last] && before + after == without + [last];
      FoldOneMore(ctx, with, last);
      FoldOneMore(ctx, without, last);
      TryDependsOnMaps(ctx, FoldDocuments(ctx, with), FoldDocuments(ctx, without), last);
    }
  }

  /** Nor does it change the maps the whole build ends with. */
  lemma {:induction false} BundleIgnoresSummaries(anchors: Anchors, now: Time, one: Registry, two: Registry,
                                                  routes: seq<RouteEnvelope>)
    requires SameMaps(one, two)
    ensures var a, b := FoldBundle(anchors, now, one, routes), FoldBundle(anchors, now, two, routes);
            && (a.Ok? <==> b.Ok?)
            && (a.Ok? ==> SameMaps(a.value, b.value))
  {
    if |routes| > 0 {
      BundleIgnoresSummaries(anchors, now, one, two, routes[..|routes| - 1]);
    }
  }

  /** So a build with a refused document left out succeeds or fails alike, and ends with the same maps. */
  lemma RefusedDocumentsLeaveBuildUnchanged(anchors: Anchors, ctx: Context, before: seq<RouteDocument>,
                                            refused: RouteDocument, after: seq<RouteDocument>,
                                            routes: seq<RouteEnvelope>)
    requires TryDocument(ctx, FoldDocuments(ctx, before), refused).Err?
    ensures var a := FoldBundle(anchors, ctx.now, FoldDocuments(ctx, before + [refused] + after), routes);
            var b := FoldBundle(anchors, ctx.now, FoldDocuments(ctx, before + after), routes);
            (a.Ok? <==> b.Ok?) && (a.Ok? ==> SameMaps(a.value, b.value))
  {
    RefusedDocumentsLeaveNoTrace(ctx, before, refused, after);
    BundleIgnoresSummaries(anchors, ctx.now, FoldDocuments(ctx, before + [refused] + after),
                           FoldDocuments(ctx, before + after), routes);
  }

  // ---------------------------------------------------------------------
  // What the bundle adds
  // ---------------------------------------------------------------------

  /** `envelope` is a valid bundle route for that place. */
  predicate ServesRoute(anchors: Anchors, now: Time, envelope: RouteEnvelope, place: Place) {
    VerifyRoute(envelope, anchors, now).Ok? && PlaceOf(VerifyRoute(envelope, anchors, now).value) == Some(place)
  }

  /** Route `i` is valid for a place that neither the documents nor an earlier route fills. */
  predicate RouteFits(anchors: Anchors, now: Time, r: Registry, routes: seq<RouteEnvelope>, i: int)
    requires 0 <= i < |routes|
  {
    && RouteFree(anchors, now, r, routes[i])
    && var place := PlaceOf(VerifyRoute(routes[i], anchors, now).value).value;
       forall j :: 0 <= j < i ==> !ServesRoute(anchors, now, routes[j], place)
  }

  predicate RouteFree(anchors: Anchors, now: Time, r: Registry, envelope: RouteEnvelope) {
    var verified := VerifyRoute(envelope, anchors, now);
    verified.Ok? && PlaceOf(verified.value).Some? && Lookup(r, PlaceOf(verified.value).value).None?
  }

  predicate AllFit(anchors: Anchors, now: Time, r: Registry, routes: seq<RouteEnvelope>) {
    forall i :: 0 <= i < |routes| ==> RouteFits(anchors, now, r, routes, i)
  }

  /** A route can be added exactly when it is valid and its place is free; it fills that place and no other. */
  lemma TryRouteFillsOnePlace(anchors: Anchors, now: Time, r: Registry, envelope: RouteEnvelope)
    ensures var tried := TryBundleRoute(anchors, now, r, envelope);
            && (tried.Ok? <==> RouteFree(anchors, now, r, envelope))
            && (tried.Ok? ==> Places(anchors, now, r, envelope, tried.value))
  {
  }

  /** `after` is `r` with the route in its place. */
  ghost predicate Places(anchors: Anchors, now: Time, r: Registry, envelope: RouteEnvelope, after: Registry) {
    forall place ::
      (ServesRoute(anchors, now, envelope, place) ==>
         Lookup(after, place) == Some(VerifyRoute(envelope, anchors, now).value))
      && (!ServesRoute(anchors, now, envelope, place) ==> Lookup(after, place) == Lookup(r, place))
  }

  lemma AllFitOneMore(anchors: Anchors, now: Time, r: Registry, routes: seq<RouteEnvelope>)
    requires |routes| > 0
    ensures var n := |routes| - 1;
            AllFit(anchors, now, r, routes) <==>
              AllFit(anchors, now, r, routes[..n]) && RouteFits(anchors, now, r, routes, n)
  {
    var n := |routes| - 1;
    forall i | 0 <= i < n
      ensures RouteFits(anchors, now, r, routes[..n], i) <==> RouteFits(anchors, now, r, routes, i)
    {
      assert forall j :: 0 <= j <= i ==> routes[..n][j] == routes[j];
    }
  }

  /** What the maps hold once some routes of a bundle are added. */
  ghost predicate Filled(anchors: Anchors, now: Time, r: Registry, routes: seq<RouteEnvelope>, after: Registry) {
    && (forall i, place :: 0 <= i < |routes| && ServesRoute(anchors, now, routes[i], place) ==>
          Lookup(after, place) == Some(VerifyRoute(routes[i], anchors, now).value))
    && (forall place :: NoRouteFor(anchors, now, routes, place) ==> Lookup(after, place) == Lookup(r, place))
  }

  predicate NoRouteFor(anchors: Anchors, now: Time, routes: seq<RouteEnvelope>, place: Place) {
    forall i :: 0 <= i < |routes| ==> !ServesRoute(anchors, now, routes[i], place)
  }

  /** A bundle is accepted exactly when each of its routes is valid and finds its place free; the maps then hold
      each of them, and otherwise what the documents left. */
  lemma {:induction false} BundleSucceedsExactly(anchors: Anchors, now: Time, r: Registry,
                                                 routes: seq<RouteEnvelope>)
    ensures FoldBundle(anchors, now, r, routes).Ok? <==> AllFit(anchors, now, r, routes)
    ensures FoldBundle(anchors, now, r, routes).Ok? ==>
              Filled(anchors, now, r, routes, FoldBundle(anchors, now, r, routes).value)
  {
    if |routes| > 0 {
      var n := |routes| - 1;
      BundleSucceedsExactly(anchors, now, r, routes[..n]);
      AllFitOneMore(anchors, now, r, routes);
      if FoldBundle(anchors, now, r, routes[..n]).Ok? {
        OneMoreRoute(anchors, now, r, routes, FoldBundle(anchors, now, r, routes[..n]).value);
      }
    }
  }

  lemma OneMoreRoute(anchors: Anchors, now: Time, r: Registry, routes: seq<RouteEnvelope>, before: Registry)
    requires |routes| > 0 && AllFit(anchors, now, r, routes[..|routes| - 1])
    requires Filled(anchors, now, r, routes[..|routes| - 1], before)
    ensures var tried := TryBundleRoute(anchors, now, before, routes[|routes| - 1]);
            && (tried.Ok? <==> RouteFits(anchors, now, r, routes, |routes| - 1))
            && (tried.Ok? ==> Filled(anchors, now, r, routes, tried.value))
  {
    var n := |routes| - 1;
    TryRouteFillsOnePlace(anchors, now, before, routes[n]);
    FreeBefore(anchors, now, r, routes, before);
    if RouteFree(anchors, now, before, routes[n]) {
      FilledOneMore(anchors, now, r, routes, before, TryBundleRoute(anchors, now, before, routes[n]).value);
    }
  }

  lemma FreeBefore(anchors: Anchors, now: Time, r: Registry, routes: seq<RouteEnvelope>, before: Registry)
    requires |routes| > 0 && Filled(anchors, now, r, routes[..|routes| - 1], before)
    ensures RouteFree(anchors, now, before, routes[|routes| - 1]) <==> RouteFits(anchors, now, r, routes, |routes| - 1)
  {
    var n, verified := |routes| - 1, VerifyRoute(routes[|routes| - 1], anchors, now);
    if verified.Ok? && PlaceOf(verified.value).Some? {
      var place := PlaceOf(verified.value).value;
      assert NoRouteFor(anchors, now, routes[..n], place) <==>
             (forall j :: 0 <= j < n ==> !ServesRoute(anchors, now, routes[j], place)) by {
        assert forall j :: 0 <= j < n ==> routes[..n][j] == routes[j];
      }
    }
  }

  lemma FilledOneMore(anchors: Anchors, now: Time, r: Registry, routes: seq<RouteEnvelope>,
                      before: Registry, after: Registry)
    requires |routes| > 0 && Filled(anchors, now, r, routes[..|routes| - 1], before)
    requires RouteFits(anchors, now, r, routes, |routes| - 1)
    requires Places(anchors, now, before, routes[|routes| - 1], after)
    ensures Filled(anchors, now, r, routes, after)
  {
    var n := |routes| - 1;
    assert forall j :: 0 <= j < n ==> routes[..n][j] == routes[j];
    forall place | NoRouteFor(anchors, now, routes, place) ensures Lookup(after, place) == Lookup(r, place) {
      assert NoRouteFor(anchors, now, routes[..n], place);
    }
  }

  /** The bundle leaves the places the documents filled, and fills others. */
  lemma PlaceAfterBundle(anchors: Anchors, now: Time, folded: Registry, routes: seq<RouteEnvelope>,
                         built: Registry, place: Place)
    requires AllFit(anchors, now, folded, routes) && Filled(anchors, now, folded, routes, built)
    ensures Lookup(folded, place).Some? ==>
              NoRouteFor(anchors, now, routes, place) && Lookup(built, place) == Lookup(folded, place)
  {
    forall i | 0 <= i < |routes| && Lookup(folded, place).Some? ensures !ServesRoute(anchors, now, routes[i], place) {
      assert RouteFits(anchors, now, folded, routes, i);
    }
  }

  /** The maps a successful build ends with hold, at each place, the first document valid for it. */
  lemma DocumentSurvivesBundle(anchors: Anchors, ctx: Context, documents: seq<RouteDocument>,
                               routes: seq<RouteEnvelope>, place: Place, i: int)
    requires FoldBundle(anchors, ctx.now, FoldDocuments(ctx, documents), routes).Ok?
    requires FirstFor(ctx, documents, place, i)
    ensures NoRouteFor(anchors, ctx.now, routes, place)
    ensures var built := FoldBundle(anchors, ctx.now, FoldDocuments(ctx, documents), routes).value;
            Lookup(built, place) == Some(VerifyDocument(ctx, documents[i]).value)
  {
    var folded := FoldDocuments(ctx, documents);
    FirstValidWins(ctx, documents, place, i);
    BundleSucceedsExactly(anchors, ctx.now, folded, routes);
    PlaceAfterBundle(anchors, ctx.now, folded, routes, FoldBundle(anchors, ctx.now, folded, routes).value, place);
  }

  /** Or else the one bundle route valid for it, and otherwise nothing. */
  lemma BundleFillsTheRest(anchors: Anchors, ctx: Context, documents: seq<RouteDocument>,
                           routes: seq<RouteEnvelope>, place: Place)
    requires FoldBundle(anchors, ctx.now, FoldDocuments(ctx, documents), routes).Ok?
    ensures var built := FoldBundle(anchors, ctx.now, FoldDocuments(ctx, documents), routes).value;
            && (forall i :: 0 <= i < |routes| && ServesRoute(anchors, ctx.now, routes[i], place) ==>
                  Lookup(built, place) == Some(VerifyRoute(routes[i], anchors, ctx.now).value))
            && (NoneFor(ctx, documents, place) && NoRouteFor(anchors, ctx.now, routes, place) ==>
                  Lookup(built, place).None?)
    ensures !NoneFor(ctx, documents, place) ==> NoRouteFor(anchors, ctx.now, routes, place)
  {
    var folded := FoldDocuments(ctx, documents);
    FilledExactlyWhenServed(ctx, documents, place);
    BundleSucceedsExactly(anchors, ctx.now, folded, routes);
    PlaceAfterBundle(anchors, ctx.now, folded, routes, FoldBundle(anchors, ctx.now, folded, routes).value, place);
  }

  // ---------------------------------------------------------------------
  // The summaries
  // ---------------------------------------------------------------------

  /** A document is summarised by its route if it is the first valid one for its place, else by why it is refused. */
  predicate SummarisesDocument(ctx: Context, documents: seq<RouteDocument>, i: int, summary: Summary)
    requires 0 <= i < |documents|
  {
    match VerifyDocument(ctx, documents[i])
    case Err(e) => summary == Rejected(documents[i], e)
    case Ok(p) =>
      && p == documents[i].routeEnvelope.payload && PlaceOf(p).Some?
      && summary == (if FirstFor(ctx, documents, PlaceOf(p).value, i) then RouteSummary(p, FirestoreDocument)
                     else Rejected(documents[i], Duplicate))
  }

  predicate SummarisesRoute(anchors: Anchors, now: Time, envelope: RouteEnvelope, summary: Summary) {
    && VerifyRoute(envelope, anchors, now) == Ok(envelope.payload)
    && summary == RouteSummary(envelope.payload, RouteBundle)
  }

  /** One summary for each document and then one for each route of the bundle. */
  predicate Summarised(anchors: Anchors, ctx: Context, documents: seq<RouteDocument>, routes: seq<RouteEnvelope>,
                       summaries: seq<Summary>) {
    && |summaries| == |documents| + |routes|
    && (forall i :: 0 <= i < |documents| ==> SummarisesDocument(ctx, documents, i, summaries[i]))
    && (forall i :: 0 <= i < |routes| ==>
          SummarisesRoute(anchors, ctx.now, routes[i], summaries[|documents| + i]))
  }

  /** A document that is tried leaves one summary, and is refused only as invalid or as a duplicate. */
  lemma TryIsSummarised(ctx: Context, r: Registry, document: RouteDocument)
    ensures var tried, p := TryDocument(ctx, r, document), document.routeEnvelope.payload;
            && (tried.Ok? ==> tried.value.routeSummaries == r.routeSummaries + [RouteSummary(p, FirestoreDocument)])
            && match VerifyDocument(ctx, document) {
                 case Err(e) => tried == Err(e)
                 case Ok(verified) =>
                   && verified == p && PlaceOf(p).Some?
                   && (tried.Ok? <==> Lookup(r, PlaceOf(p).value).None?)
                   && (tried.Err? ==> tried.error == Duplicate)
               }
  {
  }

  /** The last document is the first one for its place exactly when the others leave it free. */
  lemma LastIsFirstFor(ctx: Context, documents: seq<RouteDocument>, place: Place)
    requires |documents| > 0 && Serves(ctx, documents[|documents| - 1], place)
    ensures FirstFor(ctx, documents, place, |documents| - 1) <==>
            Lookup(FoldDocuments(ctx, documents[..|documents| - 1]), place).None?
  {
    var n := |documents| - 1;
    FilledExactlyWhenServed(ctx, documents[..n], place);
    assert forall j :: 0 <= j < n ==> documents[..n][j] == documents[j];
  }

  lemma LastIsSummarised(ctx: Context, documents: seq<RouteDocument>) returns (summary: Summary)
    requires |documents| > 0
    ensures FoldDocuments(ctx, documents).routeSummaries ==
            FoldDocuments(ctx, documents[..|documents| - 1]).routeSummaries + [summary]
    ensures SummarisesDocument(ctx, documents, |documents| - 1, summary)
  {
    var last := documents[|documents| - 1];
    var before, p := FoldDocuments(ctx, documents[..|documents| - 1]), last.routeEnvelope.payload;
    TryIsSummarised(ctx, before, last);
    if VerifyDocument(ctx, last).Ok? {
      LastIsFirstFor(ctx, documents, PlaceOf(p).value);
    }
    summary := match TryDocument(ctx, before, last)
               case Ok(_) => RouteSummary(p, FirestoreDocument)
               case Err(e) => Rejected(last, e);
  }

  /** An earlier summary does not depend on what comes later. */
  lemma SummaryStays(ctx: Context, documents: seq<RouteDocument>, i: nat, summary: Summary)
    requires i < |documents| - 1 && SummarisesDocument(ctx, documents[..|documents| - 1], i, summary)
    ensures SummarisesDocument(ctx, documents, i, summary)
  {
    assert forall j :: 0 <= j <= i ==> documents[..|documents| - 1][j] == documents[j];
  }

  lemma {:induction false} DocumentsAreSummarised(ctx: Context, documents: seq<RouteDocument>)
    ensures |FoldDocuments(ctx, documents).routeSummaries| == |documents|
    ensures forall i :: 0 <= i < |documents| ==>
              SummarisesDocument(ctx, documents, i, FoldDocuments(ctx, documents).routeSummaries[i])
  {
    if |documents| > 0 {
      var shorter, summaries := documents[..|documents| - 1], FoldDocuments(ctx, documents).routeSummaries;
      DocumentsAreSummarised(ctx, shorter);
      var summary := LastIsSummarised(ctx, documents);
      assert summaries == FoldDocuments(ctx, shorter).routeSummaries + [summary];
      forall i | 0 <= i < |shorter| ensures SummarisesDocument(ctx, documents, i, summaries[i]) {
        SummaryStays(ctx, documents, i, summaries[i]);
      }
    }
  }

  lemma RouteIsSummarised(anchors: Anchors, now: Time, r: Registry, envelope: RouteEnvelope)
    requires TryBundleRoute(anchors, now, r, envelope).Ok?
    ensures var summary := RouteSummary(envelope.payload, RouteBundle);
            && TryBundleRoute(anchors, now, r, envelope).value.routeSummaries == r.routeSummaries + [summary]
            && SummarisesRoute(anchors, now, envelope, summary)
  {
  }

  lemma {:induction false} BundleIsSummarised(anchors: Anchors, now: Time, r: Registry, routes: seq<RouteEnvelope>)
    requires FoldBundle(anchors, now, r, routes).Ok?
    ensures var summaries := FoldBundle(anchors, now, r, routes).value.routeSummaries;
            && r.routeSummaries <= summaries && |summaries| == |r.routeSummaries| + |routes|
            && forall i :: 0 <= i < |routes| ==>
                 SummarisesRoute(anchors, now, routes[i], summaries[|r.routeSummaries| + i])
  {
    if |routes| > 0 {
      var before := FoldBundle(anchors, now, r, routes[..|routes| - 1]).value;
      BundleIsSummarised(anchors, now, r, routes[..|routes| - 1]);
      RouteIsSummarised(anchors, now, before, routes[|routes| - 1]);
    }
  }

  /** The summaries of a successful build, document by document and route by route. */
  lemma BuildIsSummarised(anchors: Anchors, ctx: Context, documents: seq<RouteDocument>, routes: seq<RouteEnvelope>)
    requires FoldBundle(anchors, ctx.now, FoldDocuments(ctx, documents), routes).Ok?
    ensures Summarised(anchors, ctx, documents, routes,
                       FoldBundle(anchors, ctx.now, FoldDocuments(ctx, documents), routes).value.routeSummaries)
  {
    DocumentsAreSummarised(ctx, documents);
    BundleIsSummarised(anchors, ctx.now, FoldDocuments(ctx, documents), routes);
  }
}
