/** backend/routes/nested.py: the nested blueprint under
    /api/v1/participants/<pid>. Every route runs behind `@jwt_required()`.
    None of its routes looks the participant up: a row is written and listed
    under whatever `pid` the path carries. Bodies are stored as sent, and the
    staff id of a new row is the token's `sub` claim. */
module Nested {
  import opened Wrappers
  import opened Seqs
  import opened Json
  import opened Http
  import opened Models
  import opened Queries

  const InvalidKind := "invalid kind"

  /** The `sub` claim the token carries, recorded as the staff id. */
  function Sub(cred: Credential): Value {
    Get(Claims(cred), "sub")
  }

  /* ---------------- case notes ---------------- */

  /** A case-note object of this blueprint. */
  datatype NoteRow = NoteRow(id: int, content: Value, staffId: Value, createdAt: int)

  function NRow(n: CaseNote): NoteRow {
    NoteRow(n.id, n.content, n.staffId, n.createdAt)
  }

  /** GET .../casenotes: at most 200 of the participant's notes, the newest. */
  function ListCasenotes(s: Store, cred: Credential, pid: int): (r: Reply<seq<NoteRow>>)
    reads s
    ensures !cred.Bearer? ==> r == Refusal(JwtRequired(cred, false))
    ensures cred.Bearer? ==> r.Data? && r.code == 200 && r.value == MapSeq(Take(NotesOf(s.notes, pid), Limit), NRow)
    ensures r.Data? ==> |r.value| <= Limit
    ensures r.Data? ==> forall i, j :: 0 <= i < j < |r.value| ==> r.value[i].createdAt >= r.value[j].createdAt
    ensures r.Data? && |NotesOf(s.notes, pid)| <= Limit ==>
      forall n :: n in s.notes && n.participantId == pid ==> NRow(n) in r.value
  {
    var v := JwtRequired(cred, false);
    if v.Deny? then Refusal(v)
    else
      var kept := Take(NotesOf(s.notes, pid), Limit);
      MapSeqMembers(kept, NRow);
      Data(200, MapSeq(kept, NRow))
  }

  /** POST .../casenotes: the content is stored as sent, even when missing. */
  method AddCasenote(s: Store, cred: Credential, pid: int, body: Body, now: int) returns (r: Reply<int>)
    requires s.Valid()
    modifies s
    ensures s.Valid()
    ensures !cred.Bearer? ==> r == Refusal(JwtRequired(cred, false)) && s.State() == old(s.State())
    ensures cred.Bearer? ==>
      r == Data(201, |old(s.notes)| + 1) &&
      s.State() == old(s.State()).(notes := old(s.notes) + [CaseNote(r.value, pid, Get(body, "content"), Sub(cred), now)])
  {
    var v := JwtRequired(cred, false);
    if v.Deny? {
      return Refusal(v);
    }
    var n := CaseNote(0, pid, Get(body, "content"), Get(Claims(cred), "sub"), now);
    var id := s.AddNote(n);
    r := Data(201, id);
  }

  /** Write then read: a note stored for a participant with fewer than 200
      notes is among the 200 the listing returns. */
  lemma NewNoteListed(notes: seq<CaseNote>, n: CaseNote, pid: int)
    requires n.participantId == pid && |NotesOf(notes, pid)| < Limit
    ensures NRow(n) in MapSeq(Take(NotesOf(notes + [n], pid), Limit), NRow)
  {
    NotesOfAppend(notes, n, pid);
    MapSeqMembers(NotesOf(notes + [n], pid), NRow);
  }

  /* ---------------- services ---------------- */

  /** A service object of this blueprint. */
  datatype ServiceRow = ServiceRow(id: int, serviceType: Value, note: Value, staffId: Value, providedAt: int)

  function SRow(x: Service): ServiceRow {
    ServiceRow(x.id, x.serviceType, x.note, x.staffId, x.providedAt)
  }

  /** GET .../services: at most 200 of the participant's services, the most
      recently provided. */
  function ListServices(s: Store, cred: Credential, pid: int): (r: Reply<seq<ServiceRow>>)
    reads s
    ensures !cred.Bearer? ==> r == Refusal(JwtRequired(cred, false))
    ensures cred.Bearer? ==> r.Data? && r.code == 200 && r.value == MapSeq(Take(ServicesOf(s.services, pid), Limit), SRow)
    ensures r.Data? ==> |r.value| <= Limit
    ensures r.Data? ==> forall i, j :: 0 <= i < j < |r.value| ==> r.value[i].providedAt >= r.value[j].providedAt
    ensures r.Data? && |ServicesOf(s.services, pid)| <= Limit ==>
      forall x :: x in s.services && x.participantId == pid ==> SRow(x) in r.value
  {
    var v := JwtRequired(cred, false);
    if v.Deny? then Refusal(v)
    else
      var kept := Take(ServicesOf(s.services, pid), Limit);
      MapSeqMembers(kept, SRow);
      Data(200, MapSeq(kept, SRow))
  }

  /** POST .../services: type and note are stored as sent. */
  method AddService(s: Store, cred: Credential, pid: int, body: Body, now: int) returns (r: Reply<int>)
    requires s.Valid()
    modifies s
    ensures s.Valid()
    ensures !cred.Bearer? ==> r == Refusal(JwtRequired(cred, false)) && s.State() == old(s.State())
    ensures cred.Bearer? ==>
      r == Data(201, |old(s.services)| + 1) &&
      s.State() == old(s.State()).(services := old(s.services) +
        [Service(r.value, pid, Get(body, "service_type"), Get(body, "note"), Sub(cred), now)])
  {
    var v := JwtRequired(cred, false);
    if v.Deny? {
      return Refusal(v);
    }
    var x := Service(0, pid, Get(body, "service_type"), Get(body, "note"), Get(Claims(cred), "sub"), now);
    var id := s.AddService(x);
    r := Data(201, id);
  }

  /** Write then read: a service stored for a participant with fewer than 200
      services is among the 200 the listing returns. */
  lemma NewServiceListed(services: seq<Service>, x: Service, pid: int)
    requires x.participantId == pid && |ServicesOf(services, pid)| < Limit
    ensures SRow(x) in MapSeq(Take(ServicesOf(services + [x], pid), Limit), SRow)
  {
    ServicesOfAppend(services, x, pid);
    MapSeqMembers(ServicesOf(services + [x], pid), SRow);
  }

  /* ---------------- referrals ---------------- */

  /** The referral object this blueprint lists for `x`. The kind is "employer"
      whenever `employer_id` is truthy, yet a found provider's name wins over
      the employer's; `org_id` is `employer_id or provider_id`. */
  function NestedRow(x: Referral, employers: seq<Org>, providers: seq<Org>): (row: ReferralRow)
    ensures row.id == x.id && row.status == x.status && row.note == x.note && row.referredAt == x.referredAt
    ensures row.orgId == Or(x.employerId, x.providerId)
    ensures row.kind == Some("employer") <==> Truthy(x.employerId)
    ensures row.kind == Some("provider") <==> !Truthy(x.employerId) && Truthy(x.providerId)
    ensures row.kind.None? ==> row.orgName.None?
    ensures Truthy(x.providerId) && (exists o :: o in providers && x.providerId == JNum(o.id)) ==>
      exists o :: o in providers && x.providerId == JNum(o.id) && row.orgName == Some(o.name)
    ensures row.orgName.Some? ==>
      (exists o :: o in providers && x.providerId == JNum(o.id) && row.orgName == Some(o.name)) ||
      (exists o :: o in employers && x.employerId == JNum(o.id) && row.orgName == Some(o.name))
    ensures Truthy(x.employerId) && (Truthy(x.providerId) ==> FindOrg(providers, x.providerId).None?) ==>
      row.orgName == NameOf(FindOrg(employers, x.employerId))
    ensures !Truthy(x.employerId) && (Truthy(x.providerId) ==> FindOrg(providers, x.providerId).None?) ==>
      row.orgName.None?
  {
    var provider := if Truthy(x.providerId) then FindOrg(providers, x.providerId) else None;
    var name :=
      if provider.Some? then Some(provider.value.name)
      else if Truthy(x.employerId) then NameOf(FindOrg(employers, x.employerId))
      else None;
    var kind :=
      if Truthy(x.employerId) then Some("employer")
      else if Truthy(x.providerId) then Some("provider")
      else None;
    ReferralRow(x.id, kind, Or(x.employerId, x.providerId), name, x.status, x.note, x.referredAt)
  }

  /** GET .../referrals: all the participant's referrals, most recent first,
      each built by the handler's loop. */
  method ListReferrals(s: Store, cred: Credential, pid: int) returns (r: Reply<seq<ReferralRow>>)
    ensures !cred.Bearer? ==> r == Refusal(JwtRequired(cred, false))
    ensures cred.Bearer? ==> r.Data? && r.code == 200
    ensures r.Data? ==>
      |r.value| == |ReferralsOf(s.referrals, pid)| &&
      forall i :: 0 <= i < |r.value| ==> r.value[i] == NestedRow(ReferralsOf(s.referrals, pid)[i], s.employers, s.providers)
  {
    var v := JwtRequired(cred, false);
    if v.Deny? {
      return Refusal(v);
    }
    var out := ReferralObjects(ReferralsOf(s.referrals, pid), s.employers, s.providers);
    r := Data(200, out);
  }

  /** The handler's loop: one object per referral, built from the locals
      `name` and `kind` that the employer and then the provider branch set. */
  method ReferralObjects(rows: seq<Referral>, employers: seq<Org>, providers: seq<Org>) returns (out: seq<ReferralRow>)
    ensures |out| == |rows|
    ensures forall i :: 0 <= i < |rows| ==> out[i] == NestedRow(rows[i], employers, providers)
  {
    out := [];
    for i := 0 to |rows|
      invariant |out| == i
      invariant forall k :: 0 <= k < i ==> out[k] == NestedRow(rows[k], employers, providers)
    {
      var x := rows[i];
      var name: Option<string> := None;
      var kind: Option<string> := None;
      if Truthy(x.employerId) {
        var e := FindOrg(employers, x.employerId);
        name := if e.Some? then Some(e.value.name) else None;
        kind := Some("employer");
      }
      if Truthy(x.providerId) {
        var p := FindOrg(providers, x.providerId);
        name := if p.Some? then Some(p.value.name) else name;
        kind := if kind.None? then Some("provider") else kind;
      }
      var row := ReferralRow(x.id, kind, Or(x.employerId, x.providerId), name, x.status, x.note, x.referredAt);
      assert row == NestedRow(x, employers, providers);
      out := out + [row];
    }
  }

  /** The referral POST .../referrals stores: `kind` must be exactly
      "employer" or "provider" (no stripping) and picks the column `org_id`
      goes to, unchecked. `status` is kept as sent, falsy values included,
      except that an absent key or an explicit null leaves the attribute
      None, which the ORM omits from the INSERT, so the column default
      "referred" is stored. */
  function NewReferral(pid: int, body: Body, staff: Value, now: int): (r: Result<Referral>)
    ensures r.Err? <==> Get(body, "kind") !in {JStr("employer"), JStr("provider")}
    ensures r.Err? ==> r == Err(400, InvalidKind)
    ensures r.Ok? ==>
      r.value.participantId == pid && r.value.staffId == staff && r.value.referredAt == now &&
      r.value.note == Get(body, "note")
    ensures r.Ok? && Get(body, "status") != JNull ==> r.value.status == body["status"]
    ensures r.Ok? && Get(body, "status") == JNull ==> r.value.status == JStr("referred")
    ensures r.Ok? ==> r.value.status != JNull
    ensures r.Ok? && Get(body, "kind") == JStr("employer") ==>
      r.value.employerId == Get(body, "org_id") && r.value.providerId == JNull
    ensures r.Ok? && Get(body, "kind") == JStr("provider") ==>
      r.value.providerId == Get(body, "org_id") && r.value.employerId == JNull
  {
    var kind := Get(body, "kind");
    if kind != JStr("employer") && kind != JStr("provider") then Err(400, InvalidKind)
    else
      var orgId := Get(body, "org_id");
      Ok(Referral(0, pid,
                  if kind == JStr("employer") then orgId else JNull,
                  if kind == JStr("provider") then orgId else JNull,
                  staff, if Get(body, "status") == JNull then JStr("referred") else body["status"],
                  Get(body, "note"), now))
  }

  /** POST .../referrals. */
  method AddReferral(s: Store, cred: Credential, pid: int, body: Body, now: int) returns (r: Reply<int>)
    requires s.Valid()
    modifies s
    ensures s.Valid()
    ensures !cred.Bearer? ==> r == Refusal(JwtRequired(cred, false)) && s.State() == old(s.State())
    ensures cred.Bearer? ==>
      var x := NewReferral(pid, body, Sub(cred), now);
      (x.Err? ==> r == Message(x.code, x.msg) && s.State() == old(s.State())) &&
      (x.Ok? ==>
         r == Data(201, |old(s.referrals)| + 1) &&
         s.State() == old(s.State()).(referrals := old(s.referrals) + [x.value.(id := r.value)]))
  {
    var v := JwtRequired(cred, false);
    if v.Deny? {
      return Refusal(v);
    }
    var x := NewReferral(pid, body, Get(Claims(cred), "sub"), now);
    if x.Err? {
      return Message(x.code, x.msg);
    }
    var id := s.AddReferral(x.value);
    r := Data(201, id);
  }

  /** The columns PATCH .../referrals/<rid> assigns: `status` and `note`, each
      only when the body has the key; nothing else about the referral changes. */
  function PatchReferral(x: Referral, body: Body): (y: Referral)
    ensures y.(status := x.status, note := x.note) == x
    ensures "status" !in body ==> y.status == x.status
    ensures "note" !in body ==> y.note == x.note
    ensures "status" in body ==> y.status == body["status"]
    ensures "note" in body ==> y.note == body["note"]
  {
    var y := if "status" in body then x.(status := body["status"]) else x;
    if "note" in body then y.(note := body["note"]) else y
  }

  /** Sending the same PATCH twice has the effect of sending it once. */
  lemma PatchReferralIdempotent(x: Referral, body: Body)
    ensures PatchReferral(PatchReferral(x, body), body) == PatchReferral(x, body)
  {
  }

  /** PATCH .../referrals/<rid>: 404 unless referral `rid` belongs to `pid`. */
  method UpdateReferral(s: Store, cred: Credential, pid: int, rid: int, body: Body) returns (r: Reply<()>)
    requires s.Valid()
    modifies s
    ensures s.Valid()
    ensures !cred.Bearer? ==> r == Refusal(JwtRequired(cred, false)) && s.State() == old(s.State())
    ensures cred.Bearer? && old(s.ReferralOf(pid, rid)).None? ==>
      r == Message(404, NotFound) && s.State() == old(s.State())
    ensures cred.Bearer? && old(s.ReferralOf(pid, rid)).Some? ==>
      r == Message(200, "updated") &&
      s.State() == old(s.State()).(referrals := old(s.referrals)[rid - 1 := PatchReferral(old(s.referrals)[rid - 1], body)])
  {
    var v := JwtRequired(cred, false);
    if v.Deny? {
      return Refusal(v);
    }
    var found := s.ReferralOf(pid, rid);
    if found.None? {
      return Message(404, NotFound);
    }
    var x := found.value;
    if "status" in body {
      x := x.(status := body["status"]);
    }
    if "note" in body {
      x := x.(note := body["note"]);
    }
    s.PutReferral(x);
    r := Message(200, "updated");
  }
}
