/** Whom a route served by the registry can come from, said in terms of its own fields. */
module RouteTrust {
  import opened Prelude
  import opened Lineage
  import opened Admissions
  import opened RouteRegistry

  /** Key `i` is the first one listed under the key id and algorithm a signature names. */
  predicate FirstListed(keys: seq<RouteKey>, signature: RouteSignature, i: int) {
    && 0 <= i < |keys| && keys[i].keyId == signature.keyId && keys[i].alg == signature.alg
    && forall j :: 0 <= j < i ==> !(keys[j].keyId == signature.keyId && keys[j].alg == signature.alg)
  }

  lemma {:induction false} FindKeyFindsFirst(keys: seq<RouteKey>, signature: RouteSignature)
    ensures FindKey(keys, signature).Some? ==>
              exists i :: FirstListed(keys, signature, i) && FindKey(keys, signature) == Some(keys[i])
    ensures FindKey(keys, signature).None? ==>
              forall i :: 0 <= i < |keys| ==> !(keys[i].keyId == signature.keyId && keys[i].alg == signature.alg)
  {
    if |keys| > 0 && !(keys[0].keyId == signature.keyId && keys[0].alg == signature.alg) {
      FindKeyFindsFirst(keys[1..], signature);
      if FindKey(keys, signature).Some? {
        var i :| FirstListed(keys[1..], signature, i) && FindKey(keys, signature) == Some(keys[1..][i]);
        assert forall j :: 1 <= j < i + 1 ==> keys[j] == keys[1..][j - 1];
        assert FirstListed(keys, signature, i + 1);
      } else {
        assert forall i :: 1 <= i < |keys| ==> keys[i] == keys[1..][i - 1];
      }
    } else if |keys| > 0 {
      assert FirstListed(keys, signature, 0);
    }
  }

  /** The envelope's payload was signed, whole, by the first of these keys that its signature can mean. */
  ghost predicate SignedByListed(envelope: RouteEnvelope, keys: seq<RouteKey>) {
    && envelope.payloadDigest == envelope.payload && envelope.signature.over == envelope.payload
    && (envelope.signature.alg == "Ed25519" || envelope.signature.alg == "ECDSA_P256_SHA256")
    && exists i :: FirstListed(keys, envelope.signature, i) && envelope.signature.signerPem == keys[i].publicKeyPem
  }

  /** A route of a known kind, in time, of a version that is allowed. */
  predicate InForce(p: RoutePayload, minimum: int, now: Time) {
    && !p.UnsupportedRoute? && p.wellFormed
    && (p.TenantApi? ==> "https://oauth-tee.femled.ai" in p.audiences)
    && p.version >= 1 && p.version >= minimum
    && p.issuedAt <= now + 300000 && now < p.expiresAt
  }

  /** A bundle route is accepted exactly if a key its tenant's trust anchor lists has signed it and it is in force. */
  lemma RouteVerifiesExactly(envelope: RouteEnvelope, anchors: Anchors, now: Time)
    ensures VerifyRoute(envelope, anchors, now).Ok? <==>
              && envelope.payload.tenant in anchors
              && SignedByListed(envelope, anchors[envelope.payload.tenant].routeSigningKeys)
              && InForce(envelope.payload, anchors[envelope.payload.tenant].minRouteVersion, now)
    ensures VerifyRoute(envelope, anchors, now).Ok? ==> VerifyRoute(envelope, anchors, now).value == envelope.payload
  {
    if envelope.payload.tenant in anchors {
      var keys := anchors[envelope.payload.tenant].routeSigningKeys;
      FindKeyFindsFirst(keys, envelope.signature);
      assert forall i, j ::
        FirstListed(keys, envelope.signature, i) && FirstListed(keys, envelope.signature, j) ==> i == j;
    }
  }

  /** What an admission lets its tenant's API route be. */
  predicate WithinAdmission(admission: Payload, p: RoutePayload)
    requires admission.Admission?
  {
    && p.tenant == admission.tenant
    && (p.TenantApi? ==>
          && p.apiHost in admission.allowedApiHosts && p.appHost in admission.allowedAppHosts
          && forall audience :: audience in p.audiences ==> audience in admission.allowedBrokerAudiences)
  }

  /** The document's route is in force, within the admission it carries, and signed by a key that admission lists. */
  ghost predicate AdmittedRoute(document: RouteDocument, now: Time) {
    var admission, envelope := document.admissionEnvelope.payload, document.routeEnvelope;
    && document.schemaOk && admission.Admission?
    && WithinAdmission(admission, envelope.payload)
    && SignedByListed(envelope, admission.tenantRouteSigningKeys)
    && InForce(envelope.payload, admission.minRouteVersion, now)
  }

  /** The admission a document carries was signed by the key in charge of this lineage at the epoch it names, and
      still stands. */
  predicate StandingAdmission(ctx: Context, envelope: Envelope) {
    && envelope.payload.Admission?
    && IssuedUnder(ctx.lineage, envelope.payload, envelope.signature.signer)
    && envelope == Sign(envelope.payload, envelope.signature.signer)
    && ctx.now < envelope.payload.expiresAt && WellStated(envelope.payload)
    && PolicyStands(ctx.tenants, envelope.payload)
  }

  lemma PermitsExactly(admission: Payload, p: RoutePayload)
    requires admission.Admission? && p.tenant == admission.tenant
    ensures AdmissionPermits(admission, p) <==> WithinAdmission(admission, p)
  {
    if p.TenantApi? && WithinAdmission(admission, p) {
      assert forall i :: 0 <= i < |p.audiences| ==> p.audiences[i] in p.audiences;
    }
  }

  /** A document is accepted exactly if the key in charge admitted its tenant, that admission still stands, and a key
      the admission lists has signed a route that is in force and within it. */
  lemma DocumentVerifiesExactly(ctx: Context, document: RouteDocument)
    requires ValidLineage(ctx.lineage) && KeyIdsMatch(ctx.lineage)
    ensures VerifyDocument(ctx, document).Ok? <==>
              StandingAdmission(ctx, document.admissionEnvelope) && AdmittedRoute(document, ctx.now)
    ensures VerifyDocument(ctx, document).Ok? ==>
              VerifyDocument(ctx, document).value == document.routeEnvelope.payload
  {
    var admission, p := document.admissionEnvelope.payload, document.routeEnvelope.payload;
    AdmissionVerifiesExactly(ctx.lineage, ctx.tenants, document.admissionEnvelope, ctx.now);
    if admission.Admission? {
      var anchor := TrustAnchor(admission.minRouteVersion, admission.tenantRouteSigningKeys);
      RouteVerifiesExactly(document.routeEnvelope, map[admission.tenant := anchor], ctx.now);
      if p.tenant == admission.tenant {
        PermitsExactly(admission, p);
      }
    }
  }

  /** Where a route belongs: an API route with its tenant, a webhook route with its repository. */
  predicate Belongs(p: RoutePayload, place: Place) {
    match place
    case ForTenant(tenant) => p.TenantApi? && p.tenant == tenant
    case ForRepo(repo) => p.DeployWebhook? && p.githubRepoName == repo
  }

  /** Every route a successful build serves stands at its own place, and is either that of a document whose tenant
      the key in charge admitted, or a bundle route that a trust anchor's key has signed. */
  lemma ServedRouteIsTrusted(anchors: Anchors, ctx: Context, documents: seq<RouteDocument>, routes: seq<RouteEnvelope>,
                             built: Registry, place: Place)
    requires ValidLineage(ctx.lineage) && KeyIdsMatch(ctx.lineage)
    requires FoldBundle(anchors, ctx.now, FoldDocuments(ctx, documents), routes) == Ok(built)
    requires Lookup(built, place).Some?
    ensures Belongs(Lookup(built, place).value, place)
    ensures || (exists i :: 0 <= i < |documents| && documents[i].routeEnvelope.payload == Lookup(built, place).value
                            && StandingAdmission(ctx, documents[i].admissionEnvelope)
                            && AdmittedRoute(documents[i], ctx.now))
            || (exists i :: 0 <= i < |routes| && routes[i].payload == Lookup(built, place).value
                            && routes[i].payload.tenant in anchors
                            && SignedByListed(routes[i], anchors[routes[i].payload.tenant].routeSigningKeys)
                            && InForce(routes[i].payload, anchors[routes[i].payload.tenant].minRouteVersion, ctx.now))
  {
    BundleFillsTheRest(anchors, ctx, documents, routes, place);
    if !NoneFor(ctx, documents, place) {
      var i := FirstServing(ctx, documents, place);
      DocumentSurvivesBundle(anchors, ctx, documents, routes, place, i);
      DocumentVerifiesExactly(ctx, documents[i]);
    } else {
      var i :| 0 <= i < |routes| && ServesRoute(anchors, ctx.now, routes[i], place);
      RouteVerifiesExactly(routes[i], anchors, ctx.now);
    }
  }

  lemma FirstServing(ctx: Context, documents: seq<RouteDocument>, place: Place) returns (i: int)
    requires !NoneFor(ctx, documents, place)
    ensures FirstFor(ctx, documents, place, i)
  {
    i := 0;
    while !Serves(ctx, documents[i], place)
      invariant 0 <= i < |documents| && forall j :: 0 <= j < i ==> !Serves(ctx, documents[j], place)
      decreases |documents| - i
    {
      i := i + 1;
    }
  }
}
