/** The contract of a paused effect, and the JSON in which the ledger keeps it. */
module Pauses {
  import opened Text
  import opened Json
  import opened IntentBinding

  datatype HitlStatus = Pending | Approved | Rejected | Expired

  datatype Choice = Approve | Reject

  function Settled(choice: Choice): HitlStatus {
    match choice
    case Approve => HitlStatus.Approved
    case Reject => HitlStatus.Rejected
  }

  datatype Pause = Pause(
    pauseId: string, tenant: Tenant, capabilityId: string, payloadDigest: string, status: HitlStatus,
    createdAt: int, expiresAt: int, decidedAt: Option<int>, decidedBy: Option<string>)
  {
    predicate IsExpired(now: int) {
      now >= expiresAt
    }

    predicate Decided() {
      decidedAt.Some? || decidedBy.Some?
    }

    /** What validation demands of the status, the times and the actor. */
    predicate Valid() {
      && expiresAt > createdAt
      && (decidedBy.Some? ==> ValidActor(decidedBy.value))
      && (status == HitlStatus.Pending || status == HitlStatus.Expired ==> !Decided())
      && (status == HitlStatus.Approved || status == HitlStatus.Rejected ==>
            decidedAt.Some? && decidedBy.Some? && createdAt <= decidedAt.value)
    }
  }

  /** An actor's name has 1 to 128 characters. */
  predicate ValidActor(actor: string) {
    1 <= |actor| <= 128
  }

  /** The pause after a decision; the copy is not validated again. */
  function Resolve(p: Pause, choice: Choice, actor: string, now: int): Pause {
    p.(status := Settled(choice), decidedAt := Some(now), decidedBy := Some(actor))
  }

  // ---------------------------------------------------------------- to JSON

  function StatusText(s: HitlStatus): string {
    match s
    case Pending => "pending"
    case Approved => "approved"
    case Rejected => "rejected"
    case Expired => "expired"
  }

  function TimeJson(t: Option<int>): Json {
    match t
    case None => Null
    case Some(n) => Int(n)
  }

  function DumpTenant(t: Tenant): (d: Dict)
    ensures |d| == 3
  {
    [ Member("tenant_id", Str(t.tenantId)), Member("case_ref", RefJson(t.caseRef)), Member("project_ref", RefJson(t.projectRef)) ]
  }

  /** `model_dump(mode="json")`. */
  function Dump(p: Pause): (d: Dict)
    ensures |d| == 9
  {
    [ Member("pause_id", Str(p.pauseId)),
      Member("tenant", Obj(DumpTenant(p.tenant))),
      Member("capability_id", Str(p.capabilityId)),
      Member("payload_digest", Str(p.payloadDigest)),
      Member("status", Str(StatusText(p.status))),
      Member("created_at", Int(p.createdAt)),
      Member("expires_at", Int(p.expiresAt)),
      Member("decided_at", TimeJson(p.decidedAt)),
      Member("decided_by", RefJson(p.decidedBy)) ]
  }

  function DumpIntent(i: Intent): (d: Dict)
    ensures |d| == 7
  {
    [ Member("intent_id", Str(i.intentId)),
      Member("tenant", Obj(DumpTenant(i.tenant))),
      Member("actor", Str(i.actor)),
      Member("capability_id", Str(i.capabilityId)),
      Member("payload_digest", Str(i.payloadDigest)),
      Member("created_at", Int(i.createdAt)),
      Member("expires_at", Int(i.expiresAt)) ]
  }

  // -------------------------------------------------------------- from JSON

  function StrOf(j: Option<Json>): Option<string> {
    if j.Some? && j.value.Str? then Some(j.value.s) else None
  }

  function IntOf(j: Option<Json>): Option<int> {
    if j.Some? && j.value.Int? then Some(j.value.n) else None
  }

  /** An optional field: absent or null, or of the right type. */
  predicate Nullable(j: Option<Json>, inner: bool) {
    j.None? || j.value.Null? || inner
  }

  function StatusOf(j: Option<Json>): Option<HitlStatus> {
    if j.None? then Some(HitlStatus.Pending)
    else
      match StrOf(j)
      case None => None
      case Some(text) =>
        if text == "pending" then Some(HitlStatus.Pending)
        else if text == "approved" then Some(HitlStatus.Approved)
        else if text == "rejected" then Some(HitlStatus.Rejected)
        else if text == "expired" then Some(HitlStatus.Expired)
        else None
  }

  predicate OnlyKeys(d: seq<Member>, keys: seq<string>) {
    forall i | 0 <= i < |d| :: d[i].key in keys
  }

  function ParseTenant(j: Option<Json>): Option<Tenant> {
    if j.None? || !j.value.Obj? || !OnlyKeys(j.value.members, ["tenant_id", "case_ref", "project_ref"]) then None
    else
      var d := j.value.members;
      var id, case_, project := StrOf(Lookup(d, "tenant_id")), Lookup(d, "case_ref"), Lookup(d, "project_ref");
      if id.None? || !Nullable(case_, StrOf(case_).Some?) || !Nullable(project, StrOf(project).Some?) then None
      else Some(Tenant(id.value, StrOf(case_), StrOf(project)))
  }

  const PAUSE_KEYS := ["pause_id", "tenant", "capability_id", "payload_digest", "status", "created_at", "expires_at",
                       "decided_at", "decided_by"]

  /** A pause from the values of its fields: none missing or ill-typed, and valid together. */
  function Assemble(id: Option<string>, tenant: Option<Tenant>, capability: Option<string>, digest: Option<string>,
                    status: Option<HitlStatus>, created: Option<int>, expires: Option<int>,
                    at: Option<Json>, who: Option<Json>): Option<Pause>
  {
    if id.None? || tenant.None? || capability.None? || digest.None? || status.None? || created.None? || expires.None? then None
    else if !Nullable(at, IntOf(at).Some?) || !Nullable(who, StrOf(who).Some?) then None
    else
      var p := Pause(id.value, tenant.value, capability.value, digest.value, status.value, created.value, expires.value,
                     IntOf(at), StrOf(who));
      if p.Valid() then Some(p) else None
  }

  /** `model_validate`; a field the contract does not know is refused. */
  function Parse(d: seq<Member>): Option<Pause> {
    if !OnlyKeys(d, PAUSE_KEYS) then None
    else
      Assemble(
        StrOf(Lookup(d, "pause_id")), ParseTenant(Lookup(d, "tenant")), StrOf(Lookup(d, "capability_id")),
        StrOf(Lookup(d, "payload_digest")), StatusOf(Lookup(d, "status")), IntOf(Lookup(d, "created_at")),
        IntOf(Lookup(d, "expires_at")), Lookup(d, "decided_at"), Lookup(d, "decided_by"))
  }

  // -------------------------------------------------------------- round trip

  lemma FieldAt(d: Dict, i: nat)
    requires i < |d|
    ensures Lookup(d, d[i].key) == Some(d[i].value)
  {
    IndexIs(d, d[i].key, i);
  }

  lemma TenantRoundTrip(t: Tenant)
    ensures ParseTenant(Some(Obj(DumpTenant(t)))) == Some(t)
  {
    var d := DumpTenant(t);
    FieldAt(d, 0);
    FieldAt(d, 1);
    FieldAt(d, 2);
  }

  lemma DumpFields(p: Pause)
    ensures var d := Dump(p);
      && Lookup(d, "pause_id") == Some(Str(p.pauseId))
      && Lookup(d, "tenant") == Some(Obj(DumpTenant(p.tenant)))
      && Lookup(d, "capability_id") == Some(Str(p.capabilityId))
      && Lookup(d, "payload_digest") == Some(Str(p.payloadDigest))
      && Lookup(d, "status") == Some(Str(StatusText(p.status)))
      && Lookup(d, "created_at") == Some(Int(p.createdAt))
      && Lookup(d, "expires_at") == Some(Int(p.expiresAt))
      && Lookup(d, "decided_at") == Some(TimeJson(p.decidedAt))
      && Lookup(d, "decided_by") == Some(RefJson(p.decidedBy))
      && OnlyKeys(d, PAUSE_KEYS)
  {
    var d := Dump(p);
    FieldAt(d, 0);
    FieldAt(d, 1);
    FieldAt(d, 2);
    FieldAt(d, 3);
    FieldAt(d, 4);
    FieldAt(d, 5);
    FieldAt(d, 6);
    FieldAt(d, 7);
    FieldAt(d, 8);
    DumpKeys(p);
  }

  lemma DumpKeys(p: Pause)
    ensures OnlyKeys(Dump(p), PAUSE_KEYS)
  {
    var d := Dump(p);
    forall i | 0 <= i < |d|
      ensures d[i].key in PAUSE_KEYS
    {
      assert d[i].key == PAUSE_KEYS[i];
    }
  }

  /** What a status is called. */
  lemma StatusSpelled(p: Pause)
    ensures Lookup(Dump(p), "status") == Some(Str(
      match p.status
      case Pending => "pending"
      case Approved => "approved"
      case Rejected => "rejected"
      case Expired => "expired"))
  {
    DumpFields(p);
  }

  lemma StatusRoundTrip(s: HitlStatus)
    ensures StatusOf(Some(Str(StatusText(s)))) == Some(s)
  {
  }

  lemma AssembleFields(p: Pause)
    ensures Assemble(Some(p.pauseId), Some(p.tenant), Some(p.capabilityId), Some(p.payloadDigest), Some(p.status),
                     Some(p.createdAt), Some(p.expiresAt), Some(TimeJson(p.decidedAt)), Some(RefJson(p.decidedBy)))
         == if p.Valid() then Some(p) else None
  {
  }

  /** A record replays to the pause that was written exactly when that pause was
      valid; anything else is refused, never altered. */
  lemma PauseRoundTrip(p: Pause)
    ensures Parse(Dump(p)) == if p.Valid() then Some(p) else None
  {
    DumpFields(p);
    TenantRoundTrip(p.tenant);
    StatusRoundTrip(p.status);
    AssembleFields(p);
  }

  /** Which pauses are read back, over their fields. */
  lemma ReadBackIff(p: Pause)
    ensures Parse(Dump(p)) == Some(p) <==>
      && p.createdAt < p.expiresAt
      && (p.decidedBy.Some? ==> 1 <= |p.decidedBy.value| <= 128)
      && (p.status == HitlStatus.Pending || p.status == HitlStatus.Expired ==> p.decidedAt == None && p.decidedBy == None)
      && (p.status == HitlStatus.Approved || p.status == HitlStatus.Rejected ==>
            p.decidedAt.Some? && p.decidedBy.Some? && p.createdAt <= p.decidedAt.value)
  {
    PauseRoundTrip(p);
  }
}
