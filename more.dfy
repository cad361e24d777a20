/** backend/routes/more.py: a further variant of the participant sub-routes
    and of the employer and provider routes. Every route runs behind
    `@jwt_required(optional=True)`: a request without a token is served, one
    with a token the library rejects is not. Listings return whole rows,
    capped at 200; the staff id of a new row comes from the request body. */
module More {
  import opened Wrappers
  import opened Text
  import opened Seqs
  import opened Json
  import opened Http
  import opened Models
  import opened Queries
  import opened Orgs

  const ContentRequired := "content required"
  const ServiceTypeRequired := "service_type required"

  /** `@jwt_required(optional=True)`. */
  predicate Served(cred: Credential) {
    JwtRequired(cred, true) == Allow
  }

  /* ---------------- participants/<pid>/notes ---------------- */

  /** GET: the 200 newest notes of an existing participant. */
  function ListNotes(s: Store, cred: Credential, pid: int): (r: Reply<seq<CaseNote>>)
    requires s.Valid()
    reads s
    ensures !Served(cred) ==> r == Refusal(JwtRequired(cred, true))
    ensures Served(cred) && s.ParticipantById(pid).None? ==> r == Message(404, NotFound)
    ensures Served(cred) && s.ParticipantById(pid).Some? ==>
      r.Data? && r.code == 200 && r.value == Take(NotesOf(s.notes, pid), Limit)
    ensures r.Data? ==> |r.value| <= Limit && forall n :: n in r.value ==> n in s.notes && n.participantId == pid
    ensures r.Data? ==> forall i, j :: 0 <= i < j < |r.value| ==> r.value[i].createdAt >= r.value[j].createdAt
  {
    var v := JwtRequired(cred, true);
    if v.Deny? then Refusal(v)
    else if s.ParticipantById(pid).None? then Message(404, NotFound)
    else
      var all := NotesOf(s.notes, pid);
      Data(200, Take(all, Limit))
  }

  /** The note POST creates: stripped, non-empty content and the body's
      `staff_id`. */
  function NewNote(pid: int, body: Body, now: int): (r: Result<CaseNote>)
    ensures r == Err(400, ContentRequired) <==> StripOrEmpty(Get(body, "content")) == Ok("")
    ensures r == Err(500, InternalError) <==> StripOrEmpty(Get(body, "content")).Err?
    ensures r.Ok? ==>
      r.value.participantId == pid && r.value.createdAt == now && r.value.staffId == Get(body, "staff_id") &&
      Get(body, "content").JStr? && r.value.content == JStr(Strip(Get(body, "content").s)) &&
      r.value.content.s != []
    ensures r.Err? ==> r == Err(400, ContentRequired) || r == Err(500, InternalError)
    ensures Get(body, "content").JStr? && Strip(Get(body, "content").s) != [] ==> r.Ok?
  {
    var content := StripOrEmpty(Get(body, "content"));
    if content.Err? then Err(content.code, content.msg)
    else if content.value == [] then Err(400, ContentRequired)
    else Ok(CaseNote(0, pid, JStr(content.value), Get(body, "staff_id"), now))
  }

  method CreateNote(s: Store, cred: Credential, pid: int, body: Body, now: int) returns (r: Reply<int>)
    requires s.Valid()
    modifies s
    ensures s.Valid()
    ensures !Served(cred) ==> r == Refusal(JwtRequired(cred, true)) && s.State() == old(s.State())
    ensures Served(cred) && old(s.ParticipantById(pid)).None? ==>
      r == Message(404, NotFound) && s.State() == old(s.State())
    ensures Served(cred) && old(s.ParticipantById(pid)).Some? ==>
      var n := NewNote(pid, body, now);
      (n.Err? ==> r == Message(n.code, n.msg) && s.State() == old(s.State())) &&
      (n.Ok? ==>
         r == Data(201, |old(s.notes)| + 1) &&
         s.State() == old(s.State()).(notes := old(s.notes) + [n.value.(id := r.value)]))
  {
    var v := JwtRequired(cred, true);
    if v.Deny? {
      return Refusal(v);
    }
    if s.ParticipantById(pid).None? {
      return Message(404, NotFound);
    }
    var n := NewNote(pid, body, now);
    if n.Err? {
      return Message(n.code, n.msg);
    }
    var id := s.AddNote(n.value);
    r := Data(201, id);
  }

  /** A note stored for a participant with fewer than 200 notes is in the
      next listing of that participant's notes. */
  lemma NewNoteListed(notes: seq<CaseNote>, n: CaseNote, pid: int)
    requires n.participantId == pid && |NotesOf(notes, pid)| < Limit
    ensures n in Take(NotesOf(notes + [n], pid), Limit)
  {
    NotesOfAppend(notes, n, pid);
  }

  /* ---------------- participants/<pid>/services ---------------- */

  /** GET: the 200 most recently provided services of an existing participant. */
  function ListServices(s: Store, cred: Credential, pid: int): (r: Reply<seq<Service>>)
    requires s.Valid()
    reads s
    ensures !Served(cred) ==> r == Refusal(JwtRequired(cred, true))
    ensures Served(cred) && s.ParticipantById(pid).None? ==> r == Message(404, NotFound)
    ensures Served(cred) && s.ParticipantById(pid).Some? ==>
      r.Data? && r.code == 200 && r.value == Take(ServicesOf(s.services, pid), Limit)
    ensures r.Data? ==> |r.value| <= Limit && forall x :: x in r.value ==> x in s.services && x.participantId == pid
    ensures r.Data? ==> forall i, j :: 0 <= i < j < |r.value| ==> r.value[i].providedAt >= r.value[j].providedAt
  {
    var v := JwtRequired(cred, true);
    if v.Deny? then Refusal(v)
    else if s.ParticipantById(pid).None? then Message(404, NotFound)
    else
      var all := ServicesOf(s.services, pid);
      Data(200, Take(all, Limit))
  }

  /** The service POST creates: stripped, non-empty type, the body's note and
      `staff_id`. */
  function NewService(pid: int, body: Body, now: int): (r: Result<Service>)
    ensures r == Err(400, ServiceTypeRequired) <==> StripOrEmpty(Get(body, "service_type")) == Ok("")
    ensures r == Err(500, InternalError) <==> StripOrEmpty(Get(body, "service_type")).Err?
    ensures r.Ok? ==>
      r.value.participantId == pid && r.value.providedAt == now &&
      r.value.note == Get(body, "note") && r.value.staffId == Get(body, "staff_id") &&
      Get(body, "service_type").JStr? && r.value.serviceType == JStr(Strip(Get(body, "service_type").s)) &&
      r.value.serviceType.s != []
    ensures r.Err? ==> r == Err(400, ServiceTypeRequired) || r == Err(500, InternalError)
    ensures Get(body, "service_type").JStr? && Strip(Get(body, "service_type").s) != [] ==> r.Ok?
  {
    var serviceType := StripOrEmpty(Get(body, "service_type"));
    if serviceType.Err? then Err(serviceType.code, serviceType.msg)
    else if serviceType.value == [] then Err(400, ServiceTypeRequired)
    else Ok(Service(0, pid, JStr(serviceType.value), Get(body, "note"), Get(body, "staff_id"), now))
  }

  method CreateService(s: Store, cred: Credential, pid: int, body: Body, now: int) returns (r: Reply<int>)
    requires s.Valid()
    modifies s
    ensures s.Valid()
    ensures !Served(cred) ==> r == Refusal(JwtRequired(cred, true)) && s.State() == old(s.State())
    ensures Served(cred) && old(s.ParticipantById(pid)).None? ==>
      r == Message(404, NotFound) && s.State() == old(s.State())
    ensures Served(cred) && old(s.ParticipantById(pid)).Some? ==>
      var x := NewService(pid, body, now);
      (x.Err? ==> r == Message(x.code, x.msg) && s.State() == old(s.State())) &&
      (x.Ok? ==>
         r == Data(201, |old(s.services)| + 1) &&
         s.State() == old(s.State()).(services := old(s.services) + [x.value.(id := r.value)]))
  {
    var v := JwtRequired(cred, true);
    if v.Deny? {
      return Refusal(v);
    }
    if s.ParticipantById(pid).None? {
      return Message(404, NotFound);
    }
    var x := NewService(pid, body, now);
    if x.Err? {
      return Message(x.code, x.msg);
    }
    var id := s.AddService(x.value);
    r := Data(201, id);
  }

  lemma NewServiceListed(services: seq<Service>, x: Service, pid: int)
    requires x.participantId == pid && |ServicesOf(services, pid)| < Limit
    ensures x in Take(ServicesOf(services + [x], pid), Limit)
  {
    ServicesOfAppend(services, x, pid);
  }

  /* ---------------- participants/<pid>/referrals ---------------- */

  /** GET: the 200 most recent referrals of an existing participant, as rows. */
  function ListReferrals(s: Store, cred: Credential, pid: int): (r: Reply<seq<Referral>>)
    requires s.Valid()
    reads s
    ensures !Served(cred) ==> r == Refusal(JwtRequired(cred, true))
    ensures Served(cred) && s.ParticipantById(pid).None? ==> r == Message(404, NotFound)
    ensures Served(cred) && s.ParticipantById(pid).Some? ==>
      r.Data? && r.code == 200 && r.value == Take(ReferralsOf(s.referrals, pid), Limit)
    ensures r.Data? ==> |r.value| <= Limit && forall x :: x in r.value ==> x in s.referrals && x.participantId == pid
    ensures r.Data? ==> forall i, j :: 0 <= i < j < |r.value| ==> r.value[i].referredAt >= r.value[j].referredAt
  {
    var v := JwtRequired(cred, true);
    if v.Deny? then Refusal(v)
    else if s.ParticipantById(pid).None? then Message(404, NotFound)
    else
      var all := ReferralsOf(s.referrals, pid);
      Data(200, Take(all, Limit))
  }

  /** The referral POST creates: both org ids, the staff id and the note as
      sent, neither checked; a falsy `status` becomes "referred". */
  function NewReferral(pid: int, body: Body, now: int): (x: Referral)
    ensures x.employerId == Get(body, "employer_id") && x.providerId == Get(body, "provider_id")
    ensures x.staffId == Get(body, "staff_id") && x.note == Get(body, "note")
    ensures Truthy(x.status)
    ensures Truthy(Get(body, "status")) ==> x.status == Get(body, "status")
    ensures !Truthy(Get(body, "status")) ==> x.status == JStr("referred")
    ensures x.participantId == pid && x.referredAt == now
  {
    Referral(0, pid, Get(body, "employer_id"), Get(body, "provider_id"), Get(body, "staff_id"),
             Or(Get(body, "status"), JStr("referred")), Get(body, "note"), now)
  }

  method CreateReferral(s: Store, cred: Credential, pid: int, body: Body, now: int) returns (r: Reply<int>)
    requires s.Valid()
    modifies s
    ensures s.Valid()
    ensures !Served(cred) ==> r == Refusal(JwtRequired(cred, true)) && s.State() == old(s.State())
    ensures Served(cred) && old(s.ParticipantById(pid)).None? ==>
      r == Message(404, NotFound) && s.State() == old(s.State())
    ensures Served(cred) && old(s.ParticipantById(pid)).Some? ==>
      r == Data(201, |old(s.referrals)| + 1) &&
      s.State() == old(s.State()).(referrals := old(s.referrals) + [NewReferral(pid, body, now).(id := r.value)])
  {
    var v := JwtRequired(cred, true);
    if v.Deny? {
      return Refusal(v);
    }
    if s.ParticipantById(pid).None? {
      return Message(404, NotFound);
    }
    var id := s.AddReferral(NewReferral(pid, body, now));
    r := Data(201, id);
  }

  lemma NewReferralListed(referrals: seq<Referral>, x: Referral, pid: int)
    requires x.participantId == pid && |ReferralsOf(referrals, pid)| < Limit
    ensures x in Take(ReferralsOf(referrals + [x], pid), Limit)
  {
    ReferralsOfAppend(referrals, x, pid);
  }

  /* ---------------- employers and providers ---------------- */

  /** GET /employers and GET /providers: the 200 rows with the highest ids. */
  function ListNewest(orgs: seq<Org>, cred: Credential): (r: Reply<seq<Org>>)
    ensures !Served(cred) ==> r == Refusal(JwtRequired(cred, true))
    ensures Served(cred) ==> r.Data? && r.code == 200 && r.value == Take(NewestFirst(orgs), Limit)
    ensures r.Data? ==> |r.value| == if |orgs| <= Limit then |orgs| else Limit
    ensures r.Data? ==> forall i, j :: 0 <= i < j < |r.value| ==> r.value[i].id >= r.value[j].id
    ensures r.Data? ==> forall o :: o in r.value ==> o in orgs
    ensures r.Data? && |orgs| <= Limit ==> forall o :: o in orgs ==> o in r.value
  {
    var v := JwtRequired(cred, true);
    if v.Deny? then Refusal(v)
    else
      var all := NewestFirst(orgs);
      assert forall o :: o in all <==> o in orgs by {
        forall o ensures o in all <==> o in orgs {
          assert o in all <==> o in multiset(all);
        }
      }
      assert |all| == |orgs| by {
        assert |multiset(all)| == |multiset(orgs)|;
      }
      Data(200, Take(all, Limit))
  }

  /** The cap drops only the oldest rows: a row missing from a listing has
      an id no greater than any listed one, and the listing is full. */
  lemma {:induction false} NewestKept(orgs: seq<Org>, o: Org)
    requires o in orgs && o !in Take(NewestFirst(orgs), Limit)
    ensures |Take(NewestFirst(orgs), Limit)| == Limit
    ensures forall k :: 0 <= k < Limit ==> Take(NewestFirst(orgs), Limit)[k].id >= o.id
  {
    var all := NewestFirst(orgs);
    var r := Take(all, Limit);
    assert o in multiset(orgs);
    assert o in multiset(all);
    var j :| 0 <= j < |all| && all[j] == o;
    assert j >= Limit;
    forall k | 0 <= k < Limit ensures r[k].id >= o.id {
      assert r[k] == all[k];
    }
  }

  /** GET /employers: the 200 employers with the highest ids, newest first. */
  function ListEmployers(s: Store, cred: Credential): (r: Reply<seq<Org>>)
    reads s
    ensures !Served(cred) ==> r == Refusal(JwtRequired(cred, true))
    ensures Served(cred) ==> r.Data? && r.code == 200
    ensures r.Data? ==> |r.value| == if |s.employers| <= Limit then |s.employers| else Limit
    ensures r.Data? ==> forall i, j :: 0 <= i < j < |r.value| ==> r.value[i].id >= r.value[j].id
    ensures r.Data? ==> forall o :: o in r.value ==> o in s.employers
    ensures r.Data? && |s.employers| <= Limit ==> forall o :: o in s.employers ==> o in r.value
  {
    ListNewest(s.employers, cred)
  }

  /** GET /providers: the 200 providers with the highest ids, newest first. */
  function ListProviders(s: Store, cred: Credential): (r: Reply<seq<Org>>)
    reads s
    ensures !Served(cred) ==> r == Refusal(JwtRequired(cred, true))
    ensures Served(cred) ==> r.Data? && r.code == 200
    ensures r.Data? ==> |r.value| == if |s.providers| <= Limit then |s.providers| else Limit
    ensures r.Data? ==> forall i, j :: 0 <= i < j < |r.value| ==> r.value[i].id >= r.value[j].id
    ensures r.Data? ==> forall o :: o in r.value ==> o in s.providers
    ensures r.Data? && |s.providers| <= Limit ==> forall o :: o in s.providers ==> o in r.value
  {
    ListNewest(s.providers, cred)
  }

  /** POST /employers: the name is stripped and required. */
  method CreateEmployer(s: Store, cred: Credential, body: Body) returns (r: Reply<int>)
    requires s.Valid()
    modifies s
    ensures s.Valid()
    ensures !Served(cred) ==> r == Refusal(JwtRequired(cred, true)) && s.State() == old(s.State())
    ensures Served(cred) ==>
      var o := NamedOrg(body);
      (o.Err? ==> r == Message(o.code, o.msg) && s.State() == old(s.State())) &&
      (o.Ok? ==>
         r == Data(201, |old(s.employers)| + 1) &&
         s.State() == old(s.State()).(employers := old(s.employers) + [o.value.(id := r.value)]))
  {
    var v := JwtRequired(cred, true);
    if v.Deny? {
      return Refusal(v);
    }
    var o := NamedOrg(body);
    if o.Err? {
      return Message(o.code, o.msg);
    }
    var id := s.AddEmployer(o.value);
    r := Data(201, id);
  }

  /** POST /providers: the name is stripped and required. */
  method CreateProvider(s: Store, cred: Credential, body: Body) returns (r: Reply<int>)
    requires s.Valid()
    modifies s
    ensures s.Valid()
    ensures !Served(cred) ==> r == Refusal(JwtRequired(cred, true)) && s.State() == old(s.State())
    ensures Served(cred) ==>
      var o := NamedOrg(body);
      (o.Err? ==> r == Message(o.code, o.msg) && s.State() == old(s.State())) &&
      (o.Ok? ==>
         r == Data(201, |old(s.providers)| + 1) &&
         s.State() == old(s.State()).(providers := old(s.providers) + [o.value.(id := r.value)]))
  {
    var v := JwtRequired(cred, true);
    if v.Deny? {
      return Refusal(v);
    }
    var o := NamedOrg(body);
    if o.Err? {
      return Message(o.code, o.msg);
    }
    var id := s.AddProvider(o.value);
    r := Data(201, id);
  }
}
