/** A chain of handoffs: each generation takes over the tenants its predecessor held when it certified it, and goes on
    under its own key. What an earlier generation admitted binds every later one. */
module Generations {
  import opened Prelude
  import opened Lineage
  import opened Governance
  import opened GovernanceHistory
  import opened Candidate
  import opened Admissions
  import opened RouteRegistry

  /** One key holder: the record it started from and what it committed; `certifiedAfter` is how many of its changes
      came before it certified the successor that replaced it. */
  datatype Generation = Generation(key: Pem, start: Gov, history: seq<Change>, certifiedAfter: nat)

  function Now(n: Generation): Gov {
    Replay(n.key, n.start, n.history)
  }

  function AtCertification(n: Generation): Gov
    requires n.certifiedAfter <= |n.history|
  {
    Replay(n.key, n.start, n.history[..n.certifiedAfter])
  }

  predicate Handover(before: Generation, next: Generation) {
    && before.certifiedAfter <= |before.history|
    && next.start.tenants == AtCertification(before).tenants
    && Extends(next.start.lineage, before.start.lineage)
  }

  predicate TakesOverAt(generations: seq<Generation>, i: nat)
    requires 1 <= i < |generations|
  {
    Handover(generations[i - 1], generations[i])
  }

  predicate Chain(generations: seq<Generation>) {
    && (forall i :: 0 <= i < |generations| ==> Holder(generations[i].key, generations[i].start))
    && (forall i :: 1 <= i < |generations| ==> TakesOverAt(generations, i))
  }

  /** Applying the bundle of a certification makes the next generation. */
  lemma AppliedIsHandover(before: Generation, c: Candidate, pending: Pending, nonce: Nonce, now: Time, next: Generation)
    requires before.certifiedAfter <= |before.history| && Holder(before.key, before.start)
    requires CertifiedHere(before.key, AtCertification(before).epoch, pending) && c.gov == FRESH
    requires var b := SealFor(before.key, AtCertification(before), pending);
             && ApplyCheck(c, pending.certificate, b, nonce, now).Ok?
             && next.key == c.key && next.start == Applied(c, pending.certificate, b, nonce, now).gov
    ensures Handover(before, next) && Holder(next.key, next.start)
  {
    var g := AtCertification(before);
    ReplayKeepsHolder(before.key, before.start, before.history[..before.certifiedAfter]);
    assert next.start.lineage == g.lineage + [pending.certificate];
    assert KeyIdsMatch(next.start.lineage);
  }

  /** Change `k` of generation `i` was made before generation `j` took over. */
  predicate Carried(generations: seq<Generation>, i: nat, k: nat, j: nat) {
    && Chain(generations) && i <= j < |generations|
    && k < |generations[i].history| && (i < j ==> k < generations[i].certifiedAfter)
  }

  lemma {:induction false} TenantsCarryOver(generations: seq<Generation>, i: nat, j: nat)
    requires Chain(generations) && i < j < |generations|
    ensures Handover(generations[i], generations[i + 1])
    ensures PolicyExtends(AtCertification(generations[i]).tenants, generations[j].start.tenants)
    ensures Extends(generations[j].start.lineage, generations[i].start.lineage)
  {
    assert TakesOverAt(generations, i + 1);
    if i + 1 < j {
      var last := generations[j - 1];
      TenantsCarryOver(generations, i, j - 1);
      assert TakesOverAt(generations, j);
      ReplayExtendsPolicy(last.key, last.start, last.history[..last.certifiedAfter]);
      ExtendsTransitive(generations[i].start.lineage, last.start.lineage, generations[j].start.lineage);
    }
  }

  lemma {:induction false} NoGenerationRevokes(generations: seq<Generation>, j: nat)
    requires Chain(generations) && j < |generations| && NoneRevoked(generations[0].start.tenants)
    ensures NoneRevoked(generations[j].start.tenants)
  {
    if j > 0 {
      var last := generations[j - 1];
      NoGenerationRevokes(generations, j - 1);
      assert TakesOverAt(generations, j);
      HistoryRevokesNone(last.key, last.start, last.history[..last.certifiedAfter]);
    }
  }

  predicate AdmittedIn(generations: seq<Generation>, i: nat, k: nat, payload: Payload)
    requires i < |generations|
  {
    AdmittedAt(generations[i].key, generations[i].start, generations[i].history, k, payload)
  }

  lemma AdmittedBeforeCertification(n: Generation, k: nat, payload: Payload)
    requires n.certifiedAfter <= |n.history| && k < n.certifiedAfter
    requires AdmittedAt(n.key, n.start, n.history, k, payload)
    ensures AdmittedAt(n.key, n.start, n.history[..n.certifiedAfter], k, payload)
  {
    assert n.history[..n.certifiedAfter][..k] == n.history[..k];
  }

  /** The minimum and the keys of an admission bind its own generation and every later one. */
  lemma AdmissionBindsLaterGenerations(generations: seq<Generation>, i: nat, k: nat, j: nat, payload: Payload)
    requires Carried(generations, i, k, j) && AdmittedIn(generations, i, k, payload)
    ensures payload.Admission? && payload.tenant in Now(generations[j]).tenants
    ensures payload.minRouteVersion <= Now(generations[j]).tenants[payload.tenant].minRouteVersion
    ensures SameKeys(payload.tenantRouteSigningKeys,
                     Now(generations[j]).tenants[payload.tenant].tenantRouteSigningKeys)
  {
    var n, last := generations[i], generations[j];
    if i == j {
      MinimumCoversEveryAdmission(n.key, n.start, n.history, k, payload);
    } else {
      TenantsCarryOver(generations, i, j);
      AdmittedBeforeCertification(n, k, payload);
      MinimumCoversEveryAdmission(n.key, n.start, n.history[..n.certifiedAfter], k, payload);
      ReplayExtendsPolicy(last.key, last.start, last.history);
    }
  }

  /** An admission verifies at its own generation and every later one exactly until it expires or some generation
      since has raised the tenant's minimum above it. */
  lemma AdmissionVerifiesAcrossHandoffs(generations: seq<Generation>, i: nat, k: nat, j: nat, request: AdmissionRequest,
                                        issuedAt: Time, ttlMs: Time, now: Time)
    requires Carried(generations, i, k, j) && NoneRevoked(generations[0].start.tenants) && RequestOk(request)
    requires AdmittedIn(generations, i, k, IssuedAt(generations[i], k, request, issuedAt, ttlMs).payload)
    ensures var current, envelope := Now(generations[j]), IssuedAt(generations[i], k, request, issuedAt, ttlMs);
            && request.tenant in current.tenants
            && (VerifyAdmission(current.lineage, current.tenants, envelope, now).Ok? <==>
                  now < issuedAt + ttlMs && current.tenants[request.tenant].minRouteVersion == request.minRouteVersion)
  {
    var n, last := generations[i], generations[j];
    var issuer := Replay(n.key, n.start, n.history[..k]);
    ReplayKeepsHolder(n.key, n.start, n.history[..k]);
    ReplayKeepsHolder(last.key, last.start, last.history);
    NoGenerationRevokes(generations, j);
    HistoryRevokesNone(last.key, last.start, last.history);
    LineageCarriesOver(generations, i, j);
    AdmissionBindsLaterGenerations(generations, i, k, j, IssuedAt(n, k, request, issuedAt, ttlMs).payload);
    IssuedAdmissionVerifiesExactly(n.key, issuer, request, issuedAt, ttlMs, Now(last).lineage, Now(last).tenants, now);
  }

  /** The admission generation `n` issues from what it held before its change `k`. */
  function IssuedAt(n: Generation, k: nat, request: AdmissionRequest, issuedAt: Time, ttlMs: Time): Envelope
    requires k <= |n.history|
  {
    AdmissionEnvelope(n.key, Replay(n.key, n.start, n.history[..k]), request, issuedAt, ttlMs)
  }

  lemma LineageCarriesOver(generations: seq<Generation>, i: nat, j: nat)
    requires Chain(generations) && i <= j < |generations|
    ensures Extends(generations[j].start.lineage, generations[i].start.lineage)
  {
    if i < j {
      TenantsCarryOver(generations, i, j);
    } else {
      assert generations[j].start.lineage[..|generations[i].start.lineage|] == generations[i].start.lineage;
    }
  }

  /** No route document accepted by any later generation is below a minimum an earlier one admitted. */
  lemma AcceptedRouteRespectsEarlierGenerations(generations: seq<Generation>, i: nat, k: nat, j: nat, payload: Payload,
                                                document: RouteDocument, now: Time)
    requires Carried(generations, i, k, j) && AdmittedIn(generations, i, k, payload)
    requires var current := Now(generations[j]);
             VerifyDocument(Context(current.lineage, current.tenants, now), document).Ok?
    requires document.routeEnvelope.payload.tenant == payload.tenant
    ensures !document.routeEnvelope.payload.UnsupportedRoute?
    ensures payload.minRouteVersion <= document.routeEnvelope.payload.version
  {
    AdmissionBindsLaterGenerations(generations, i, k, j, payload);
  }
}
