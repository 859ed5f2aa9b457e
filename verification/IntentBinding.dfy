/** The digest that an approval seals, and its verification before a governed
    effect runs. */
module IntentBinding {
  import opened Text
  import opened Json
  import opened CanonicalJson

  /** SHA-256 over the UTF-8 bytes of a text, as lower-case hex: any function. */
  type Hash = string -> string

  /** No two of the texts share a digest. It is asked only of the few texts an
      operation hashes, never of all texts: a digest has 64 characters, so a hash
      without any collision does not exist. */
  ghost predicate CollisionFree(hash: Hash, texts: set<string>) {
    forall a, b | a in texts && b in texts && hash(a) == hash(b) :: a == b
  }

  datatype Tenant = Tenant(tenantId: string, caseRef: Option<string>, projectRef: Option<string>)

  datatype Intent = Intent(
    intentId: string, tenant: Tenant, actor: string, capabilityId: string,
    payloadDigest: string, createdAt: int, expiresAt: int)
  {
    predicate IsExpired(now: int) {
      now >= expiresAt
    }
  }

  function DigestMapping(hash: Hash, payload: Dict): string {
    hash(Canonical(Obj(payload)))
  }

  function RefJson(ref: Option<string>): Json {
    match ref
    case None => Null
    case Some(s) => Str(s)
  }

  /** The material of `bind_intent`. */
  function Binding(tenant: Tenant, capabilityId: string, payload: Dict): (b: Dict)
    ensures |b| == 5
  {
    [ Member("tenant_id", Str(tenant.tenantId)),
      Member("case_ref", RefJson(tenant.caseRef)),
      Member("project_ref", RefJson(tenant.projectRef)),
      Member("capability_id", Str(capabilityId)),
      Member("payload", Obj(payload)) ]
  }

  function Material(tenant: Tenant, capabilityId: string, payload: Dict): string {
    Canonical(Obj(Binding(tenant, capabilityId, payload)))
  }

  function BindIntent(hash: Hash, tenant: Tenant, capabilityId: string, payload: Dict): string {
    DigestMapping(hash, Binding(tenant, capabilityId, payload))
  }

  lemma RefJsonSame(a: Option<string>, b: Option<string>)
    ensures Same(RefJson(a), RefJson(b)) <==> a == b
  {
  }

  /** Objects that list the same keys in the same order are equal when their
      values are, position by position. */
  lemma AlignedSame(ms: Dict, ns: Dict)
    requires |ms| == |ns| && forall i | 0 <= i < |ms| :: ms[i].key == ns[i].key
    ensures Same(Obj(ms), Obj(ns)) <==> forall i | 0 <= i < |ms| :: Same(ms[i].value, ns[i].value)
  {
    forall i | 0 <= i < |ms|
      ensures IndexOf(ns, ms[i].key) == i
    {
      IndexIs(ns, ms[i].key, i);
    }
  }

  lemma BindingSame(t: Tenant, c: string, p: Dict, t': Tenant, c': string, p': Dict)
    ensures Same(Obj(Binding(t, c, p)), Obj(Binding(t', c', p'))) <==> t == t' && c == c' && Same(Obj(p), Obj(p'))
  {
    var ms, ns := Binding(t, c, p), Binding(t', c', p');
    AlignedSame(ms, ns);
    RefJsonSame(t.caseRef, t'.caseRef);
    RefJsonSame(t.projectRef, t'.projectRef);
    assert Same(ms[0].value, ns[0].value) <==> t.tenantId == t'.tenantId;
    assert Same(ms[3].value, ns[3].value) <==> c == c';
    assert ms[1].value == RefJson(t.caseRef) && ms[2].value == RefJson(t.projectRef) && ms[4].value == Obj(p);
    assert ns[1].value == RefJson(t'.caseRef) && ns[2].value == RefJson(t'.projectRef) && ns[4].value == Obj(p');
  }

  /** The sealed text determines the whole effect: every field of the tenant
      scope, the capability, and the payload up to the order of its keys. */
  lemma MaterialIff(t: Tenant, c: string, p: Dict, t': Tenant, c': string, p': Dict)
    ensures Material(t, c, p) == Material(t', c', p') <==> t == t' && c == c' && Same(Obj(p), Obj(p'))
  {
    CanonicalIff(Obj(Binding(t, c, p)), Obj(Binding(t', c', p')));
    BindingSame(t, c, p, t', c', p');
  }

  datatype Reason =
    | TenantMismatch(sealed: string, executing: string)
    | CapabilityMismatch(sealedId: string, executingId: string)
    | DigestMismatch
    | BlankActor
    | Expired

  function Noted(reasons: seq<Reason>, found: bool, reason: Reason): seq<Reason> {
    if found then reasons + [reason] else reasons
  }

  /** The reasons against an intent, in the order in which they are collected. */
  function VerifyReasons(hash: Hash, intent: Intent, tenant: Tenant, capabilityId: string, payload: Dict, now: int): seq<Reason> {
    var r0 := Noted([], intent.tenant.tenantId != tenant.tenantId, TenantMismatch(intent.tenant.tenantId, tenant.tenantId));
    var r1 := Noted(r0, intent.capabilityId != capabilityId, CapabilityMismatch(intent.capabilityId, capabilityId));
    var r2 := Noted(r1, intent.payloadDigest != BindIntent(hash, tenant, capabilityId, payload), DigestMismatch);
    var r3 := Noted(r2, Blank(intent.actor), BlankActor);
    Noted(r3, intent.IsExpired(now), Expired)
  }

  /** No reason is found exactly when everything matches. */
  lemma NoReasonIff(hash: Hash, intent: Intent, tenant: Tenant, capabilityId: string, payload: Dict, now: int)
    ensures VerifyReasons(hash, intent, tenant, capabilityId, payload, now) == [] <==>
      && intent.tenant.tenantId == tenant.tenantId
      && intent.capabilityId == capabilityId
      && intent.payloadDigest == hash(Material(tenant, capabilityId, payload))
      && !Blank(intent.actor)
      && now < intent.expiresAt
  {
  }

  function Rank(reason: Reason): nat {
    match reason
    case TenantMismatch(_, _) => 0
    case CapabilityMismatch(_, _) => 1
    case DigestMismatch => 2
    case BlankActor => 3
    case Expired => 4
  }

  ghost predicate Ranked(rs: seq<Reason>, bound: nat) {
    && (forall i | 0 <= i < |rs| :: Rank(rs[i]) < bound)
    && forall i, j | 0 <= i < j < |rs| :: Rank(rs[i]) < Rank(rs[j])
  }

  lemma NotedIs(rs: seq<Reason>, found: bool, reason: Reason, x: Reason)
    requires Ranked(rs, Rank(reason))
    ensures Ranked(Noted(rs, found, reason), Rank(reason) + 1)
    ensures x in Noted(rs, found, reason) <==> x in rs || (found && x == reason)
  {
  }

  /** The actor's name holds white space only. */
  predicate Nameless(actor: string) {
    forall i | 0 <= i < |actor| :: actor[i] in WHITE_SPACE
  }

  lemma NamelessIff(actor: string)
    ensures Blank(actor) <==> Nameless(actor)
  {
    forall i | 0 <= i < |actor|
      ensures IsSpace(actor[i]) <==> actor[i] in WHITE_SPACE
    {
      SpacesAre(actor[i]);
    }
  }

  lemma NotesAre(t: Reason, c: Reason, b0: bool, b1: bool, b2: bool, b3: bool, b4: bool, x: Reason)
    requires t.TenantMismatch? && c.CapabilityMismatch?
    ensures var rs := Noted(Noted(Noted(Noted(Noted([], b0, t), b1, c), b2, DigestMismatch), b3, BlankActor), b4, Expired);
      && Ranked(rs, 5)
      && (x in rs <==>
            || (b0 && x == t) || (b1 && x == c) || (b2 && x == DigestMismatch) || (b3 && x == BlankActor) || (b4 && x == Expired))
  {
    NotedIs([], b0, t, x);
    NotedIs(Noted([], b0, t), b1, c, x);
    NotedIs(Noted(Noted([], b0, t), b1, c), b2, DigestMismatch, x);
    NotedIs(Noted(Noted(Noted([], b0, t), b1, c), b2, DigestMismatch), b3, BlankActor, x);
    NotedIs(Noted(Noted(Noted(Noted([], b0, t), b1, c), b2, DigestMismatch), b3, BlankActor), b4, Expired, x);
  }

  /** Each reason is given exactly when its own check fails, and they come in the order
      of the checks, none twice. */
  lemma ReasonsAre(hash: Hash, intent: Intent, tenant: Tenant, capabilityId: string, payload: Dict, now: int, x: Reason)
    ensures var rs := VerifyReasons(hash, intent, tenant, capabilityId, payload, now);
      && (x in rs <==>
            match x
            case TenantMismatch(a, b) => a == intent.tenant.tenantId && b == tenant.tenantId && a != b
            case CapabilityMismatch(a, b) => a == intent.capabilityId && b == capabilityId && a != b
            case DigestMismatch => intent.payloadDigest != hash(Material(tenant, capabilityId, payload))
            case BlankActor => Nameless(intent.actor)
            case Expired => now >= intent.expiresAt)
      && forall i, j | 0 <= i < j < |rs| :: Rank(rs[i]) < Rank(rs[j])
  {
    var digest := BindIntent(hash, tenant, capabilityId, payload);
    assert digest == hash(Material(tenant, capabilityId, payload));
    NotesAre(TenantMismatch(intent.tenant.tenantId, tenant.tenantId), CapabilityMismatch(intent.capabilityId, capabilityId),
             intent.tenant.tenantId != tenant.tenantId, intent.capabilityId != capabilityId, intent.payloadDigest != digest,
             Blank(intent.actor), intent.IsExpired(now), x);
    NamelessIff(intent.actor);
  }

  method VerifyIntent(hash: Hash, intent: Intent, tenant: Tenant, capabilityId: string, payload: Dict, now: int)
    returns (ok: bool, reasons: seq<Reason>)
    ensures reasons == VerifyReasons(hash, intent, tenant, capabilityId, payload, now)
    ensures ok <==>
      && intent.tenant.tenantId == tenant.tenantId
      && intent.capabilityId == capabilityId
      && intent.payloadDigest == hash(Material(tenant, capabilityId, payload))
      && !Blank(intent.actor)
      && now < intent.expiresAt
  {
    NoReasonIff(hash, intent, tenant, capabilityId, payload, now);
    StripEmptyIff(intent.actor);
    reasons := [];
    if intent.tenant.tenantId != tenant.tenantId {
      reasons := reasons + [TenantMismatch(intent.tenant.tenantId, tenant.tenantId)];
    }
    if intent.capabilityId != capabilityId {
      reasons := reasons + [CapabilityMismatch(intent.capabilityId, capabilityId)];
    }
    var expected := BindIntent(hash, tenant, capabilityId, payload);
    if intent.payloadDigest != expected {
      reasons := reasons + [DigestMismatch];
    }
    if Strip(intent.actor) == "" {
      reasons := reasons + [BlankActor];
    }
    if intent.IsExpired(now) {
      reasons := reasons + [Expired];
    }
    ok := reasons == [];
  }

  /** An intent sealed over one effect verifies for exactly that effect: although
      only the tenant id and the capability are compared directly, the case, the
      project and the payload have to match as well. */
  lemma SealedVerifiesIff(hash: Hash, intent: Intent, sealed: Dict, tenant: Tenant, capabilityId: string, payload: Dict, now: int)
    requires intent.payloadDigest == BindIntent(hash, intent.tenant, intent.capabilityId, sealed)
    requires CollisionFree(hash, {Material(intent.tenant, intent.capabilityId, sealed), Material(tenant, capabilityId, payload)})
    ensures VerifyReasons(hash, intent, tenant, capabilityId, payload, now) == [] <==>
      && intent.tenant == tenant
      && intent.capabilityId == capabilityId
      && Same(Obj(sealed), Obj(payload))
      && !Blank(intent.actor)
      && now < intent.expiresAt
  {
    NoReasonIff(hash, intent, tenant, capabilityId, payload, now);
    MaterialIff(intent.tenant, intent.capabilityId, sealed, tenant, capabilityId, payload);
  }
}
