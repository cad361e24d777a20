/** backend/routes/participants.py: the participant blueprint mounted at
    /api. Every route runs behind `@jwt_required()`. Participants are
    deactivated rather than deleted; notes, services and referrals hang off a
    participant and are listed newest first. When a handler answers 400 after
    assigning some columns, the request's session is rolled back, so the
    store is left as it was. */
module Participants {
  import opened Wrappers
  import opened Text
  import opened Seqs
  import opened Json
  import opened Http
  import opened Models
  import opened Queries

  const NamesRequired := "first_name and last_name are required"
  const FirstBlank := "first_name cannot be empty"
  const LastBlank := "last_name cannot be empty"
  const DobInvalid := "dob must be YYYY-MM-DD"
  const ContentRequired := "content is required"
  const ServiceTypeRequired := "service_type is required"
  const KindRequired := "kind ('employer'|'provider') and org_id are required"

  /* ---------------- the objects the handlers return ---------------- */

  /** `_p_row(p)`. */
  datatype PersonRow = PersonRow(
    id: int, firstName: string, lastName: string, dob: Option<Date>,
    race: Value, address: Value, email: Value, phone: Value, name: string)

  /** The `name` field of `_p_row`: both names stripped, joined by one space,
      the whole stripped again. So a missing half leaves no stray space. */
  function DisplayName(first: string, last: string): string {
    Strip(Strip(first) + " " + Strip(last))
  }

  /** The display name is the two stripped names joined by one space, with no
      space when either of them is blank. */
  lemma {:induction false} DisplayNameJoins(first: string, last: string)
    ensures DisplayName(first, last) ==
      (if Strip(first) == [] then Strip(last)
       else if Strip(last) == [] then Strip(first)
       else Strip(first) + " " + Strip(last))
  {
    StripJoined(Strip(first), Strip(last));
  }

  function PRow(p: Participant): PersonRow {
    PersonRow(p.id, p.firstName, p.lastName, p.dob, p.race, p.address, p.email, p.phone,
              DisplayName(p.firstName, p.lastName))
  }

  /** `_note_row(n)`. */
  datatype NoteRow = NoteRow(id: int, content: Value, createdAt: int)

  function NRow(n: CaseNote): NoteRow {
    NoteRow(n.id, n.content, n.createdAt)
  }

  /** `_svc_row(s)`. */
  datatype ServiceRow = ServiceRow(id: int, serviceType: Value, note: Value, providedAt: int)

  function SRow(v: Service): ServiceRow {
    ServiceRow(v.id, v.serviceType, v.note, v.providedAt)
  }

  /** `_ref_row(r)`: a referral names an employer when its `employer_id` is
      truthy, otherwise a provider when its `provider_id` is, otherwise no
      organisation; the name is looked up in that table and is None when no
      row has that id. */
  function RefRow(r: Referral, employers: seq<Org>, providers: seq<Org>): (row: ReferralRow)
    ensures row.id == r.id && row.status == r.status && row.note == r.note && row.referredAt == r.referredAt
    ensures row.kind == Some("employer") <==> Truthy(r.employerId)
    ensures row.kind == Some("provider") <==> !Truthy(r.employerId) && Truthy(r.providerId)
    ensures row.kind.None? <==> row.orgId == JNull
    ensures row.kind == Some("employer") ==>
      row.orgId == r.employerId &&
      (row.orgName.Some? <==> exists o :: o in employers && row.orgId == JNum(o.id))
    ensures row.kind == Some("provider") ==>
      row.orgId == r.providerId &&
      (row.orgName.Some? <==> exists o :: o in providers && row.orgId == JNum(o.id))
    ensures row.orgName.Some? ==>
      exists o :: o in (if row.kind == Some("employer") then employers else providers) &&
        row.orgId == JNum(o.id) && row.orgName == Some(o.name)
  {
    if Truthy(r.employerId) then
      ReferralRow(r.id, Some("employer"), r.employerId, NameOf(FindOrg(employers, r.employerId)),
                  r.status, r.note, r.referredAt)
    else if Truthy(r.providerId) then
      ReferralRow(r.id, Some("provider"), r.providerId, NameOf(FindOrg(providers, r.providerId)),
                  r.status, r.note, r.referredAt)
    else
      ReferralRow(r.id, None, JNull, None, r.status, r.note, r.referredAt)
  }

  /** The referral objects of a listing, against the org tables of the store. */
  function RefRows(refs: seq<Referral>, employers: seq<Org>, providers: seq<Org>): (rows: seq<ReferralRow>)
    ensures |rows| == |refs|
    ensures forall i :: 0 <= i < |refs| ==> rows[i] == RefRow(refs[i], employers, providers)
  {
    MapSeq(refs, (x: Referral) => RefRow(x, employers, providers))
  }

  /* ---------------- participants ---------------- */

  /** `order_by(last_name, first_name)` under SQLite's BINARY collation. */
  predicate ByName(a: Participant, b: Participant) {
    StrLe(a.lastName, b.lastName) && (a.lastName == b.lastName ==> StrLe(a.firstName, b.firstName))
  }

  lemma {:induction false} ByNameOrders()
    ensures TotalPreorder(ByName)
  {
    forall a: Participant, b: Participant ensures ByName(a, b) || ByName(b, a) {
      StrLeTotal(a.lastName, b.lastName);
      StrLeTotal(a.firstName, b.firstName);
    }
    forall a: Participant, b: Participant, c: Participant | ByName(a, b) && ByName(b, c)
      ensures ByName(a, c)
    {
      StrLeTransitive(a.lastName, b.lastName, c.lastName);
      if a.lastName == c.lastName {
        StrLeAntisymmetric(a.lastName, b.lastName);
        StrLeTransitive(a.firstName, b.firstName, c.firstName);
      }
    }
  }

  /** `Participant.query.filter_by(is_active=True).order_by(last_name, first_name)`. */
  function ActiveByName(ps: seq<Participant>): (r: seq<Participant>)
    ensures forall p :: p in r <==> p in ps && p.isActive
    ensures forall p: Participant :: p.isActive ==> multiset(r)[p] == multiset(ps)[p]
    ensures Sorted(r, ByName)
  {
    ByNameOrders();
    SortedSelection(ps, (p: Participant) => p.isActive, ByName)
  }

  /** GET /participants: the active participants, ordered by last name and
      then first name; deactivated ones are never listed. */
  function ListParticipants(s: Store, cred: Credential): (r: Reply<seq<PersonRow>>)
    reads s
    ensures !cred.Bearer? ==> r == Refusal(JwtRequired(cred, false))
    ensures cred.Bearer? ==> r.Data? && r.code == 200
    ensures cred.Bearer? ==> forall p :: p in s.participants && p.isActive ==> PRow(p) in r.value
    ensures cred.Bearer? ==> forall i, j :: 0 <= i < j < |r.value| ==>
      StrLe(r.value[i].lastName, r.value[j].lastName) &&
      (r.value[i].lastName == r.value[j].lastName ==> StrLe(r.value[i].firstName, r.value[j].firstName))
  {
    var v := JwtRequired(cred, false);
    if v.Deny? then Refusal(v)
    else
      var sorted := ActiveByName(s.participants);
      MapSeqMembers(sorted, PRow);
      Data(200, MapSeq(sorted, PRow))
  }

  /** What `datetime.fromisoformat(data["dob"]).date()` leaves in `dob`: None
      for a falsy value, the parsed date for a string the parser accepts, 400
      for one it rejects, and 500 for a truthy non-string (a TypeError the
      handler does not catch). */
  function DobValue(v: Value, parseDate: DateParser): (r: Result<Option<Date>>)
    ensures !Truthy(v) ==> r == Ok(None)
    ensures r.Ok? && r.value.Some? ==> v.JStr? && parseDate(v.s) == r.value
    ensures r == Err(400, DobInvalid) <==> Truthy(v) && v.JStr? && parseDate(v.s).None?
    ensures r.Err? ==> r == Err(400, DobInvalid) || r == Err(500, InternalError)
    ensures r == Err(500, InternalError) <==> Truthy(v) && !v.JStr?
    ensures Truthy(v) && v.JStr? && parseDate(v.s).Some? ==> r == Ok(parseDate(v.s))
  {
    if !Truthy(v) then Ok(None)
    else if !v.JStr? then Err(500, InternalError)
    else if parseDate(v.s).None? then Err(400, DobInvalid)
    else Ok(parseDate(v.s))
  }

  /** The participant POST /participants creates, before it gets its id:
      both names stripped and non-empty, the four free-form columns copied,
      active, created at `now`. */
  function NewParticipant(body: Body, parseDate: DateParser, now: int): (r: Result<Participant>)
    ensures r == Err(400, NamesRequired) <==>
      StripOrEmpty(Get(body, "first_name")).Ok? && StripOrEmpty(Get(body, "last_name")).Ok? &&
      (StripOrEmpty(Get(body, "first_name")).value == [] || StripOrEmpty(Get(body, "last_name")).value == [])
    ensures r.Ok? ==>
      Get(body, "first_name").JStr? && r.value.firstName == Strip(Get(body, "first_name").s) &&
      Get(body, "last_name").JStr? && r.value.lastName == Strip(Get(body, "last_name").s) &&
      r.value.firstName != [] && r.value.lastName != []
    ensures r.Ok? ==> DobValue(Get(body, "dob"), parseDate) == Ok(r.value.dob)
    ensures r.Ok? ==>
      r.value.race == Get(body, "race") && r.value.address == Get(body, "address") &&
      r.value.email == Get(body, "email") && r.value.phone == Get(body, "phone")
    ensures r.Ok? ==> r.value.isActive && r.value.createdAt == now
    ensures r.Err? ==> r == Err(400, NamesRequired) || r == Err(400, DobInvalid) || r == Err(500, InternalError)
    ensures r.Ok? <==>
      Get(body, "first_name").JStr? && Strip(Get(body, "first_name").s) != [] &&
      Get(body, "last_name").JStr? && Strip(Get(body, "last_name").s) != [] &&
      DobValue(Get(body, "dob"), parseDate).Ok?
    ensures r == Err(400, DobInvalid) <==>
      Get(body, "first_name").JStr? && Strip(Get(body, "first_name").s) != [] &&
      Get(body, "last_name").JStr? && Strip(Get(body, "last_name").s) != [] &&
      DobValue(Get(body, "dob"), parseDate) == Err(400, DobInvalid)
    ensures r == Err(500, InternalError) <==>
      StripOrEmpty(Get(body, "first_name")).Err? || StripOrEmpty(Get(body, "last_name")).Err? ||
      (Get(body, "first_name").JStr? && Strip(Get(body, "first_name").s) != [] &&
       Get(body, "last_name").JStr? && Strip(Get(body, "last_name").s) != [] &&
       DobValue(Get(body, "dob"), parseDate) == Err(500, InternalError))
  {
    var first := StripOrEmpty(Get(body, "first_name"));
    var last := StripOrEmpty(Get(body, "last_name"));
    if first.Err? then Err(first.code, first.msg)
    else if last.Err? then Err(last.code, last.msg)
    else if first.value == [] || last.value == [] then Err(400, NamesRequired)
    else
      var dob := DobValue(Get(body, "dob"), parseDate);
      if dob.Err? then Err(dob.code, dob.msg)
      else
        Ok(Participant(0, first.value, last.value, dob.value,
                       Get(body, "race"), Get(body, "address"), Get(body, "email"), Get(body, "phone"),
                       true, now))
  }

  /** A created participant is shown under its two names joined by one space. */
  lemma CreatedName(body: Body, parseDate: DateParser, now: int, id: int)
    requires NewParticipant(body, parseDate, now).Ok?
    ensures var p := NewParticipant(body, parseDate, now).value;
      PRow(p.(id := id)).name == p.firstName + " " + p.lastName
  {
    var p := NewParticipant(body, parseDate, now).value;
    StripIdempotent(Get(body, "first_name").s);
    StripIdempotent(Get(body, "last_name").s);
    assert Strip(p.firstName) == p.firstName && Strip(p.lastName) == p.lastName;
    DisplayNameJoins(p.firstName, p.lastName);
  }

  /** GET /participants/<pid>: the participant whatever its `is_active`, or 404. */
  function GetParticipant(s: Store, cred: Credential, pid: int): (r: Reply<PersonRow>)
    requires s.Valid()
    reads s
    ensures !cred.Bearer? ==> r == Refusal(JwtRequired(cred, false))
    ensures cred.Bearer? ==> (r.Data? <==> exists p :: p in s.participants && p.id == pid)
    ensures cred.Bearer? && r.Data? ==> r.code == 200 && r.value.id == pid && r.value == PRow(s.participants[pid - 1])
    ensures cred.Bearer? && !r.Data? ==> r == Message(404, NotFound)
  {
    var v := JwtRequired(cred, false);
    if v.Deny? then Refusal(v)
    else
      match s.ParticipantById(pid)
      case None => Message(404, NotFound)
      case Some(p) => Data(200, PRow(p))
  }

  /** POST /participants. The new row is appended under the next id, which
      FreshIdUnknown and LastIdFound show GET did not know before and finds
      after. */
  method CreateParticipant(s: Store, cred: Credential, body: Body, parseDate: DateParser, now: int)
    returns (r: Reply<int>)
    requires s.Valid()
    modifies s
    ensures s.Valid()
    ensures !cred.Bearer? ==> r == Refusal(JwtRequired(cred, false)) && s.State() == old(s.State())
    ensures cred.Bearer? ==>
      var p := NewParticipant(body, parseDate, now);
      if p.Err? then
        r == Message(p.code, p.msg) && s.State() == old(s.State())
      else
        r == Data(201, |old(s.participants)| + 1) &&
        s.State() == old(s.State()).(participants := old(s.participants) + [p.value.(id := r.value)])
  {
    var v := JwtRequired(cred, false);
    if v.Deny? {
      return Refusal(v);
    }
    var p := NewParticipant(body, parseDate, now);
    if p.Err? {
      return Message(p.code, p.msg);
    }
    var id := s.AddParticipant(p.value);
    r := Data(201, id);
  }

  /** No participant has the id the next insert gets. */
  lemma FreshIdUnknown(s: Store, cred: Credential)
    requires s.Valid() && cred.Bearer?
    ensures GetParticipant(s, cred, |s.participants| + 1) == Message(404, NotFound)
  {
  }

  /** The participant inserted last is found under its id. */
  lemma LastIdFound(s: Store, cred: Credential)
    requires s.Valid() && cred.Bearer? && s.participants != []
    ensures GetParticipant(s, cred, |s.participants|) == Data(200, PRow(s.participants[|s.participants| - 1]))
  {
  }

  /* ---------------- PUT /participants/<pid> ---------------- */

  /** The free-form columns PUT copies with `setattr`. */
  datatype Col = Race | Address | Email | Phone

  /** The column's name, which is also its key in a request body. */
  function Key(c: Col): string {
    match c
    case Race => "race"
    case Address => "address"
    case Email => "email"
    case Phone => "phone"
  }

  /** The order of the `setattr` loop. */
  const Columns: seq<Col> := [Race, Address, Email, Phone]

  /** `getattr(p, Key(c))`. */
  function Column(p: Participant, c: Col): Value {
    match c
    case Race => p.race
    case Address => p.address
    case Email => p.email
    case Phone => p.phone
  }

  /** `setattr(p, Key(c), v)`. */
  function SetColumn(p: Participant, c: Col, v: Value): (q: Participant)
    ensures Column(q, c) == v
    ensures forall d :: d != c ==> Column(q, d) == Column(p, d)
    ensures q.(race := p.race, address := p.address, email := p.email, phone := p.phone) == p
  {
    match c
    case Race => p.(race := v)
    case Address => p.(address := v)
    case Email => p.(email := v)
    case Phone => p.(phone := v)
  }

  /** The handler's column list names every free-form column, so the
      `setattr` loop over it can reach each one; PatchColumns relies on it. */
  lemma AllColumns()
    ensures forall c :: c in Columns
  {
    forall c ensures c in Columns {
      match c
      case Race => assert Columns[0] == c;
      case Address => assert Columns[1] == c;
      case Email => assert Columns[2] == c;
      case Phone => assert Columns[3] == c;
    }
  }

  /** The `setattr` loop run over the columns `cols`: a column takes the body's
      value when the body has its key, and nothing but these columns changes. */
  function ApplyColumns(p: Participant, body: Body, cols: seq<Col>): (q: Participant)
    ensures q.(race := p.race, address := p.address, email := p.email, phone := p.phone) == p
    ensures forall c :: Column(q, c) == if c in cols && Key(c) in body then body[Key(c)] else Column(p, c)
    decreases |cols|
  {
    if cols == [] then p
    else
      var init := cols[..|cols| - 1];
      var c := cols[|cols| - 1];
      assert cols == init + [c];
      var q := ApplyColumns(p, body, init);
      if Key(c) in body then SetColumn(q, c, body[Key(c)]) else q
  }

  /** A participant is determined by its other fields and its free-form columns. */
  lemma SameColumns(p: Participant, q: Participant)
    requires q.(race := p.race, address := p.address, email := p.email, phone := p.phone) == p
    requires forall c :: Column(q, c) == Column(p, c)
    ensures q == p
  {
    assert Column(q, Race) == Column(p, Race) && Column(q, Address) == Column(p, Address);
    assert Column(q, Email) == Column(p, Email) && Column(q, Phone) == Column(p, Phone);
  }

  /** The check PUT applies to a name it is sent: a blank or falsy value is
      refused with `blank`, and a value that passes is stored as sent,
      surrounding spaces included. */
  function NameUpdate(v: Value, blank: string): (r: Result<string>)
    ensures StripOrEmpty(v) == Ok("") ==> r == Err(400, blank)
    ensures r.Ok? ==> v.JStr? && Strip(v.s) != [] && r.value == v.s
    ensures r.Err? ==> r == Err(400, blank) || r == Err(500, InternalError)
    ensures v.JStr? && Strip(v.s) != [] ==> r == Ok(v.s)
    ensures r == Err(500, InternalError) <==> StripOrEmpty(v).Err?
  {
    var stripped := StripOrEmpty(v);
    if stripped.Err? then Err(stripped.code, stripped.msg)
    else if stripped.value == [] then Err(400, blank)
    else Ok(v.s)
  }

  /** The `first_name` step of PUT. */
  function PatchFirst(p: Participant, body: Body): (r: Result<Participant>)
    ensures r.Ok? ==> r.value == p.(firstName := r.value.firstName)
    ensures r.Ok? && "first_name" in body ==> NameUpdate(body["first_name"], FirstBlank) == Ok(r.value.firstName)
    ensures "first_name" !in body ==> r == Ok(p)
    ensures r.Err? ==> "first_name" in body && NameUpdate(body["first_name"], FirstBlank).Err?
  {
    if "first_name" !in body then Ok(p)
    else
      var first := NameUpdate(body["first_name"], FirstBlank);
      if first.Err? then Err(first.code, first.msg) else Ok(p.(firstName := first.value))
  }

  /** The `last_name` step of PUT. */
  function PatchLast(p: Participant, body: Body): (r: Result<Participant>)
    ensures r.Ok? ==> r.value == p.(lastName := r.value.lastName)
    ensures r.Ok? && "last_name" in body ==> NameUpdate(body["last_name"], LastBlank) == Ok(r.value.lastName)
    ensures "last_name" !in body ==> r == Ok(p)
    ensures r.Err? ==> "last_name" in body && NameUpdate(body["last_name"], LastBlank).Err?
  {
    if "last_name" !in body then Ok(p)
    else
      var last := NameUpdate(body["last_name"], LastBlank);
      if last.Err? then Err(last.code, last.msg) else Ok(p.(lastName := last.value))
  }

  /** The `dob` step of PUT. */
  function PatchDob(p: Participant, body: Body, parseDate: DateParser): (r: Result<Participant>)
    ensures r.Ok? ==> r.value == p.(dob := r.value.dob)
    ensures r.Ok? && "dob" in body ==> DobValue(body["dob"], parseDate) == Ok(r.value.dob)
    ensures "dob" !in body ==> r == Ok(p)
    ensures r.Err? ==> "dob" in body && DobValue(body["dob"], parseDate) == Err(r.code, r.msg)
  {
    if "dob" !in body then Ok(p)
    else
      var dob := DobValue(body["dob"], parseDate);
      if dob.Err? then Err(dob.code, dob.msg) else Ok(p.(dob := dob.value))
  }

  /** What PUT makes of participant `p`: the name, `dob` and column steps in
      the handler's order; the first step that fails is the reply. */
  function Patch(p: Participant, body: Body, parseDate: DateParser): (r: Result<Participant>)
    ensures r.Err? ==> r == Err(500, InternalError) || r == Err(400, FirstBlank) || r == Err(400, LastBlank) || r == Err(400, DobInvalid)
    ensures r.Ok? <==>
      ("first_name" in body ==> body["first_name"].JStr? && Strip(body["first_name"].s) != []) &&
      ("last_name" in body ==> body["last_name"].JStr? && Strip(body["last_name"].s) != []) &&
      ("dob" in body ==> DobValue(body["dob"], parseDate).Ok?)
    ensures r == Err(400, FirstBlank) <==>
      "first_name" in body && StripOrEmpty(body["first_name"]) == Ok("")
    ensures r == Err(400, LastBlank) <==>
      ("first_name" in body ==> NameUpdate(body["first_name"], FirstBlank).Ok?) &&
      "last_name" in body && StripOrEmpty(body["last_name"]) == Ok("")
    ensures r == Err(400, DobInvalid) <==>
      ("first_name" in body ==> NameUpdate(body["first_name"], FirstBlank).Ok?) &&
      ("last_name" in body ==> NameUpdate(body["last_name"], LastBlank).Ok?) &&
      "dob" in body && DobValue(body["dob"], parseDate) == Err(400, DobInvalid)
  {
    var p1 := PatchFirst(p, body);
    if p1.Err? then Err(p1.code, p1.msg)
    else
      var p2 := PatchLast(p1.value, body);
      if p2.Err? then Err(p2.code, p2.msg)
      else
        var p3 := PatchDob(p2.value, body, parseDate);
        if p3.Err? then Err(p3.code, p3.msg)
        else Ok(ApplyColumns(p3.value, body, Columns))
  }

  /** A blank first name is refused before anything else is looked at. */
  lemma PatchChecksFirstName(p: Participant, body: Body, parseDate: DateParser)
    requires "first_name" in body && StripOrEmpty(body["first_name"]) == Ok("")
    ensures Patch(p, body, parseDate) == Err(400, FirstBlank)
  {
  }

  /** The three checked steps of a successful PUT all succeed, and the
      columns are applied to the result of the last one. */
  lemma {:induction false} PatchSucceeds(p: Participant, body: Body, parseDate: DateParser)
    requires Patch(p, body, parseDate).Ok?
    ensures PatchFirst(p, body).Ok?
    ensures PatchLast(PatchFirst(p, body).value, body).Ok?
    ensures PatchDob(PatchLast(PatchFirst(p, body).value, body).value, body, parseDate).Ok?
    ensures Patch(p, body, parseDate) ==
      Ok(ApplyColumns(PatchDob(PatchLast(PatchFirst(p, body).value, body).value, body, parseDate).value, body, Columns))
  {
  }

  /** A successful PUT keeps the id, the active flag and the creation time;
      each name and `dob` present in the body is taken from it, the rest are
      kept. */
  lemma {:induction false} PatchFields(p: Participant, body: Body, parseDate: DateParser)
    requires Patch(p, body, parseDate).Ok?
    ensures var q := Patch(p, body, parseDate).value;
      q.id == p.id && q.isActive == p.isActive && q.createdAt == p.createdAt &&
      ("first_name" in body ==> NameUpdate(body["first_name"], FirstBlank) == Ok(q.firstName)) &&
      ("first_name" !in body ==> q.firstName == p.firstName) &&
      ("last_name" in body ==> NameUpdate(body["last_name"], LastBlank) == Ok(q.lastName)) &&
      ("last_name" !in body ==> q.lastName == p.lastName) &&
      ("dob" in body ==> DobValue(body["dob"], parseDate) == Ok(q.dob)) &&
      ("dob" !in body ==> q.dob == p.dob)
  {
    PatchSucceeds(p, body, parseDate);
    var p1 := PatchFirst(p, body).value;
    var p2 := PatchLast(p1, body).value;
    var p3 := PatchDob(p2, body, parseDate).value;
    var q := ApplyColumns(p3, body, Columns);
    assert q.id == p3.id && q.isActive == p3.isActive && q.createdAt == p3.createdAt;
    assert q.firstName == p3.firstName && q.lastName == p3.lastName && q.dob == p3.dob;
    assert p3.firstName == p2.firstName == p1.firstName && p3.lastName == p2.lastName;
    assert p3.id == p.id && p3.isActive == p.isActive && p3.createdAt == p.createdAt;
  }

  /** A successful PUT takes each free-form column from the body when the body
      has it and keeps it otherwise. */
  lemma {:induction false} PatchColumns(p: Participant, body: Body, parseDate: DateParser)
    requires Patch(p, body, parseDate).Ok?
    ensures forall c :: Column(Patch(p, body, parseDate).value, c) == if Key(c) in body then body[Key(c)] else Column(p, c)
  {
    PatchSucceeds(p, body, parseDate);
    var p1 := PatchFirst(p, body).value;
    var p2 := PatchLast(p1, body).value;
    var p3 := PatchDob(p2, body, parseDate).value;
    var q := ApplyColumns(p3, body, Columns);
    assert p3.race == p.race && p3.address == p.address && p3.email == p.email && p3.phone == p.phone;
    ColumnsFromBody(p3, body, p);
  }

  /** Applying every column to a record whose columns are `p`'s gives the
      body's value where the body has the key and `p`'s value elsewhere. */
  lemma {:induction false} ColumnsFromBody(p3: Participant, body: Body, p: Participant)
    requires p3.race == p.race && p3.address == p.address && p3.email == p.email && p3.phone == p.phone
    ensures forall c :: Column(ApplyColumns(p3, body, Columns), c) == if Key(c) in body then body[Key(c)] else Column(p, c)
  {
    AllColumns();
  }

  /** PUT with an empty body changes nothing. */
  lemma PatchNothing(p: Participant, parseDate: DateParser)
    ensures Patch(p, map[], parseDate) == Ok(p)
  {
    PatchFields(p, map[], parseDate);
    PatchColumns(p, map[], parseDate);
    SameColumns(p, Patch(p, map[], parseDate).value);
  }

  /** Sending the same PUT twice has the effect of sending it once. */
  lemma PatchIdempotent(p: Participant, body: Body, parseDate: DateParser)
    requires Patch(p, body, parseDate).Ok?
    ensures Patch(Patch(p, body, parseDate).value, body, parseDate) == Patch(p, body, parseDate)
  {
    var q := Patch(p, body, parseDate).value;
    PatchFields(p, body, parseDate);
    PatchColumns(p, body, parseDate);
    var q2 := Patch(q, body, parseDate);
    assert q2.Ok?;
    PatchFields(q, body, parseDate);
    PatchColumns(q, body, parseDate);
    SameColumns(q, q2.value);
  }

  /** PUT /participants/<pid>. */
  method UpdateParticipant(s: Store, cred: Credential, pid: int, body: Body, parseDate: DateParser)
    returns (r: Reply<()>)
    requires s.Valid()
    modifies s
    ensures s.Valid()
    ensures !cred.Bearer? ==> r == Refusal(JwtRequired(cred, false)) && s.State() == old(s.State())
    ensures cred.Bearer? && old(s.ParticipantById(pid)).None? ==>
      r == Message(404, NotFound) && s.State() == old(s.State())
    ensures cred.Bearer? && old(s.ParticipantById(pid)).Some? ==>
      var q := Patch(old(s.participants)[pid - 1], body, parseDate);
      (q.Err? ==> r == Message(q.code, q.msg) && s.State() == old(s.State())) &&
      (q.Ok? ==>
         r == Message(200, "updated") &&
         s.State() == old(s.State()).(participants := old(s.participants)[pid - 1 := q.value]))
  {
    var v := JwtRequired(cred, false);
    if v.Deny? {
      return Refusal(v);
    }
    var found := s.ParticipantById(pid);
    if found.None? {
      return Message(404, NotFound);
    }
    var q := PatchSteps(found.value, body, parseDate);
    if q.Err? {
      return Message(q.code, q.msg);
    }
    s.PutParticipant(q.value);
    r := Message(200, "updated");
  }

  /** The body of PUT: each present name and `dob` is checked and assigned in
      turn, returning at the first refusal, then the `setattr` loop. */
  method PatchSteps(p0: Participant, body: Body, parseDate: DateParser) returns (r: Result<Participant>)
    ensures r == Patch(p0, body, parseDate)
    ensures r.Ok? ==> r.value.id == p0.id
  {
    var p := p0;
    ghost var staged := PatchFirst(p, body);
    if "first_name" in body {
      var first := NameUpdate(body["first_name"], FirstBlank);
      if first.Err? {
        return Err(first.code, first.msg);
      }
      p := p.(firstName := first.value);
    }
    assert staged == Ok(p);
    staged := PatchLast(p, body);
    if "last_name" in body {
      var last := NameUpdate(body["last_name"], LastBlank);
      if last.Err? {
        return Err(last.code, last.msg);
      }
      p := p.(lastName := last.value);
    }
    assert staged == Ok(p);
    staged := PatchDob(p, body, parseDate);
    if "dob" in body {
      var dob := DobValue(body["dob"], parseDate);
      if dob.Err? {
        return Err(dob.code, dob.msg);
      }
      p := p.(dob := dob.value);
    }
    assert staged == Ok(p);
    p := SetColumns(p, body);
    r := Ok(p);
  }

  /** `for f in ["race", "address", "email", "phone"]: if f in data: setattr(p, f, data[f])`. */
  method SetColumns(p0: Participant, body: Body) returns (p: Participant)
    ensures p == ApplyColumns(p0, body, Columns)
  {
    p := p0;
    for k := 0 to |Columns|
      invariant p == ApplyColumns(p0, body, Columns[..k])
    {
      assert Columns[..k + 1][..k] == Columns[..k];
      if Key(Columns[k]) in body {
        p := SetColumn(p, Columns[k], body[Key(Columns[k])]);
      }
    }
    assert Columns[..|Columns|] == Columns;
  }

  /** DELETE /participants/<pid>: a soft delete. The participant can still be
      fetched unchanged, and no longer appears in the listing. */
  method DeleteParticipant(s: Store, cred: Credential, pid: int) returns (r: Reply<()>)
    requires s.Valid()
    modifies s
    ensures s.Valid()
    ensures !cred.Bearer? ==> r == Refusal(JwtRequired(cred, false)) && s.State() == old(s.State())
    ensures cred.Bearer? && old(s.ParticipantById(pid)).None? ==>
      r == Message(404, NotFound) && s.State() == old(s.State())
    ensures cred.Bearer? && old(s.ParticipantById(pid)).Some? ==>
      r == Message(200, "deactivated") &&
      s.State() == old(s.State()).(participants := old(s.participants)[pid - 1 := old(s.participants)[pid - 1].(isActive := false)])
    ensures cred.Bearer? ==> GetParticipant(s, cred, pid) == old(GetParticipant(s, cred, pid))
    ensures cred.Bearer? ==> forall row :: row in ListParticipants(s, cred).value ==> row.id != pid
  {
    var v := JwtRequired(cred, false);
    if v.Deny? {
      return Refusal(v);
    }
    var found := s.ParticipantById(pid);
    if found.None? {
      r := Message(404, NotFound);
    } else {
      s.PutParticipant(found.value.(isActive := false));
      r := Message(200, "deactivated");
    }
    if cred.Bearer? && found.Some? {
      InactiveNotListed(s, cred, pid);
    }
  }

  /** A deactivated participant is missing from the listing. */
  lemma {:induction false} InactiveNotListed(s: Store, cred: Credential, pid: int)
    requires s.Valid() && cred.Bearer?
    requires 1 <= pid <= |s.participants| && !s.participants[pid - 1].isActive
    ensures forall row :: row in ListParticipants(s, cred).value ==> row.id != pid
  {
    InactiveRowAbsent(s.participants, pid);
    var rows := MapSeq(ActiveByName(s.participants), PRow);
    assert ListParticipants(s, cred) == Data(200, rows);
  }

  /** With dense ids, no row of the active participants carries the id of the
      inactive participant `pid`. */
  lemma {:induction false} InactiveRowAbsent(ps: seq<Participant>, pid: int)
    requires forall i :: 0 <= i < |ps| ==> ps[i].id == i + 1
    requires 1 <= pid <= |ps| && !ps[pid - 1].isActive
    ensures forall row :: row in MapSeq(ActiveByName(ps), PRow) ==> row.id != pid
  {
    var sorted := ActiveByName(ps);
    forall row | row in MapSeq(sorted, PRow) ensures row.id != pid {
      var i :| 0 <= i < |sorted| && MapSeq(sorted, PRow)[i] == row;
      assert sorted[i] in sorted;
      ActiveIdDiffers(ps, sorted[i], pid);
    }
  }

  /** Every listed row shows an active participant. */
  lemma {:induction false} ListedRowIsActive(s: Store, cred: Credential, row: PersonRow)
    requires cred.Bearer? && row in ListParticipants(s, cred).value
    ensures exists p :: p in s.participants && p.isActive && row == PRow(p)
  {
    var sorted := ActiveByName(s.participants);
    var rows := ListParticipants(s, cred).value;
    assert rows == MapSeq(sorted, PRow);
    var i :| 0 <= i < |rows| && rows[i] == row;
    assert sorted[i] in sorted;
  }

  /** With dense ids, an active participant does not carry the id of the
      inactive participant `pid`. */
  lemma {:induction false} ActiveIdDiffers(ps: seq<Participant>, p: Participant, pid: int)
    requires forall i :: 0 <= i < |ps| ==> ps[i].id == i + 1
    requires 1 <= pid <= |ps| && !ps[pid - 1].isActive
    requires p in ps && p.isActive
    ensures p.id != pid
  {
    var j :| 0 <= j < |ps| && ps[j] == p;
    assert ps[j] != ps[pid - 1];
  }

  /* ---------------- case notes ---------------- */

  /** GET /participants/<pid>/notes: all the participant's notes, newest first. */
  function ListNotes(s: Store, cred: Credential, pid: int): (r: Reply<seq<NoteRow>>)
    requires s.Valid()
    reads s
    ensures !cred.Bearer? ==> r == Refusal(JwtRequired(cred, false))
    ensures cred.Bearer? && s.ParticipantById(pid).None? ==> r == Message(404, NotFound)
    ensures cred.Bearer? && s.ParticipantById(pid).Some? ==>
      r.Data? && r.code == 200 && r.value == MapSeq(NotesOf(s.notes, pid), NRow)
    ensures r.Data? ==> forall n :: n in s.notes && n.participantId == pid ==> NRow(n) in r.value
    ensures r.Data? ==> forall i, j :: 0 <= i < j < |r.value| ==> r.value[i].createdAt >= r.value[j].createdAt
  {
    var v := JwtRequired(cred, false);
    if v.Deny? then Refusal(v)
    else if s.ParticipantById(pid).None? then Message(404, NotFound)
    else
      MapSeqMembers(NotesOf(s.notes, pid), NRow);
      Data(200, MapSeq(NotesOf(s.notes, pid), NRow))
  }

  /** `get_jwt_identity()` is the token's `sub` claim; a staff id is recorded
      only when that identity is an object with an `id`. */
  function StaffOf(claims: Body): (staff: Value)
    ensures Get(claims, "sub").JObj? ==> staff == Get(Get(claims, "sub").fields, "id")
    ensures !Get(claims, "sub").JObj? ==> staff == JNull
  {
    match Get(claims, "sub")
    case JObj(ident) => Get(ident, "id")
    case _ => JNull
  }

  /** The note POST /participants/<pid>/notes creates: its stripped,
      non-empty content, written by the token's staff member at `now`. */
  function NewNote(pid: int, body: Body, claims: Body, now: int): (r: Result<CaseNote>)
    ensures r == Err(400, ContentRequired) <==> StripOrEmpty(Get(body, "content")) == Ok("")
    ensures r == Err(500, InternalError) <==> StripOrEmpty(Get(body, "content")).Err?
    ensures r.Ok? ==>
      r.value.participantId == pid && r.value.createdAt == now && r.value.staffId == StaffOf(claims) &&
      Get(body, "content").JStr? && r.value.content == JStr(Strip(Get(body, "content").s)) &&
      r.value.content.s != []
    ensures r.Err? ==> r == Err(400, ContentRequired) || r == Err(500, InternalError)
    ensures Get(body, "content").JStr? && Strip(Get(body, "content").s) != [] ==> r.Ok?
  {
    var content := StripOrEmpty(Get(body, "content"));
    if content.Err? then Err(content.code, content.msg)
    else if content.value == [] then Err(400, ContentRequired)
    else Ok(CaseNote(0, pid, JStr(content.value), StaffOf(claims), now))
  }

  /** POST /participants/<pid>/notes. The reply is the stored note, which the
      listing now shows. */
  method CreateNote(s: Store, cred: Credential, pid: int, body: Body, now: int) returns (r: Reply<NoteRow>)
    requires s.Valid()
    modifies s
    ensures s.Valid()
    ensures !cred.Bearer? ==> r == Refusal(JwtRequired(cred, false)) && s.State() == old(s.State())
    ensures cred.Bearer? && old(s.ParticipantById(pid)).None? ==>
      r == Message(404, NotFound) && s.State() == old(s.State())
    ensures cred.Bearer? && old(s.ParticipantById(pid)).Some? ==>
      var n := NewNote(pid, body, Claims(cred), now);
      (n.Err? ==> r == Message(n.code, n.msg) && s.State() == old(s.State())) &&
      (n.Ok? ==>
         r == Data(201, NRow(n.value.(id := |old(s.notes)| + 1))) &&
         s.State() == old(s.State()).(notes := old(s.notes) + [n.value.(id := |old(s.notes)| + 1)]))
  {
    var v := JwtRequired(cred, false);
    if v.Deny? {
      return Refusal(v);
    }
    if s.ParticipantById(pid).None? {
      return Message(404, NotFound);
    }
    var n := NewNote(pid, body, Claims(cred), now);
    if n.Err? {
      return Message(n.code, n.msg);
    }
    var id := s.AddNote(n.value);
    r := Data(201, NRow(n.value.(id := id)));
  }

  /** The reply to a created note is among the rows the participant's note
      listing shows once the note is stored. */
  lemma CreatedNoteListed(notes: seq<CaseNote>, n: CaseNote, pid: int)
    requires n.participantId == pid
    ensures NRow(n) in MapSeq(NotesOf(notes + [n], pid), NRow)
  {
    NotesOfAppend(notes, n, pid);
    MapSeqMembers(NotesOf(notes + [n], pid), NRow);
  }

  /* ---------------- services ---------------- */

  /** GET /participants/<pid>/services: all the participant's services, most
      recently provided first. */
  function ListServices(s: Store, cred: Credential, pid: int): (r: Reply<seq<ServiceRow>>)
    requires s.Valid()
    reads s
    ensures !cred.Bearer? ==> r == Refusal(JwtRequired(cred, false))
    ensures cred.Bearer? && s.ParticipantById(pid).None? ==> r == Message(404, NotFound)
    ensures cred.Bearer? && s.ParticipantById(pid).Some? ==>
      r.Data? && r.code == 200 && r.value == MapSeq(ServicesOf(s.services, pid), SRow)
    ensures r.Data? ==> forall x :: x in s.services && x.participantId == pid ==> SRow(x) in r.value
    ensures r.Data? ==> forall i, j :: 0 <= i < j < |r.value| ==> r.value[i].providedAt >= r.value[j].providedAt
  {
    var v := JwtRequired(cred, false);
    if v.Deny? then Refusal(v)
    else if s.ParticipantById(pid).None? then Message(404, NotFound)
    else
      MapSeqMembers(ServicesOf(s.services, pid), SRow);
      Data(200, MapSeq(ServicesOf(s.services, pid), SRow))
  }

  /** The service POST /participants/<pid>/services creates: its stripped,
      non-empty type, the note as sent, provided at `now`, no staff id. */
  function NewService(pid: int, body: Body, now: int): (r: Result<Service>)
    ensures r == Err(400, ServiceTypeRequired) <==> StripOrEmpty(Get(body, "service_type")) == Ok("")
    ensures r == Err(500, InternalError) <==> StripOrEmpty(Get(body, "service_type")).Err?
    ensures r.Ok? ==>
      r.value.participantId == pid && r.value.providedAt == now && r.value.staffId == JNull &&
      r.value.note == Get(body, "note") &&
      Get(body, "service_type").JStr? && r.value.serviceType == JStr(Strip(Get(body, "service_type").s)) &&
      r.value.serviceType.s != []
    ensures r.Err? ==> r == Err(400, ServiceTypeRequired) || r == Err(500, InternalError)
    ensures Get(body, "service_type").JStr? && Strip(Get(body, "service_type").s) != [] ==> r.Ok?
  {
    var serviceType := StripOrEmpty(Get(body, "service_type"));
    if serviceType.Err? then Err(serviceType.code, serviceType.msg)
    else if serviceType.value == [] then Err(400, ServiceTypeRequired)
    else Ok(Service(0, pid, JStr(serviceType.value), Get(body, "note"), JNull, now))
  }

  /** POST /participants/<pid>/services. */
  method CreateService(s: Store, cred: Credential, pid: int, body: Body, now: int) returns (r: Reply<ServiceRow>)
    requires s.Valid()
    modifies s
    ensures s.Valid()
    ensures !cred.Bearer? ==> r == Refusal(JwtRequired(cred, false)) && s.State() == old(s.State())
    ensures cred.Bearer? && old(s.ParticipantById(pid)).None? ==>
      r == Message(404, NotFound) && s.State() == old(s.State())
    ensures cred.Bearer? && old(s.ParticipantById(pid)).Some? ==>
      var x := NewService(pid, body, now);
      (x.Err? ==> r == Message(x.code, x.msg) && s.State() == old(s.State())) &&
      (x.Ok? ==>
         r == Data(201, SRow(x.value.(id := |old(s.services)| + 1))) &&
         s.State() == old(s.State()).(services := old(s.services) + [x.value.(id := |old(s.services)| + 1)]))
  {
    var v := JwtRequired(cred, false);
    if v.Deny? {
      return Refusal(v);
    }
    if s.ParticipantById(pid).None? {
      return Message(404, NotFound);
    }
    var x := NewService(pid, body, now);
    if x.Err? {
      return Message(x.code, x.msg);
    }
    var id := s.AddService(x.value);
    r := Data(201, SRow(x.value.(id := id)));
  }

  /** The reply to a created service is among the rows the participant's
      service listing shows once the service is stored. */
  lemma CreatedServiceListed(services: seq<Service>, x: Service, pid: int)
    requires x.participantId == pid
    ensures SRow(x) in MapSeq(ServicesOf(services + [x], pid), SRow)
  {
    ServicesOfAppend(services, x, pid);
    MapSeqMembers(ServicesOf(services + [x], pid), SRow);
  }

  /* ---------------- referrals ---------------- */

  /** GET /participants/<pid>/referrals: the participant's referrals, most
      recent first, each with its organisation resolved. */
  function ListReferrals(s: Store, cred: Credential, pid: int): (r: Reply<seq<ReferralRow>>)
    requires s.Valid()
    reads s
    ensures !cred.Bearer? ==> r == Refusal(JwtRequired(cred, false))
    ensures cred.Bearer? && s.ParticipantById(pid).None? ==> r == Message(404, NotFound)
    ensures cred.Bearer? && s.ParticipantById(pid).Some? ==>
      r.Data? && r.code == 200 && r.value == RefRows(ReferralsOf(s.referrals, pid), s.employers, s.providers)
    ensures r.Data? ==> forall i, j :: 0 <= i < j < |r.value| ==> r.value[i].referredAt >= r.value[j].referredAt
  {
    var v := JwtRequired(cred, false);
    if v.Deny? then Refusal(v)
    else if s.ParticipantById(pid).None? then Message(404, NotFound)
    else Data(200, RefRows(ReferralsOf(s.referrals, pid), s.employers, s.providers))
  }

  /** The referral POST /participants/<pid>/referrals creates: `kind` is
      stripped and must name a table, `org_id` must be truthy and goes to that
      table's column, `status` defaults to "referred" when falsy. */
  function NewReferral(pid: int, body: Body, now: int): (r: Result<Referral>)
    ensures r == Err(500, InternalError) <==> StripOrEmpty(Get(body, "kind")).Err?
    ensures r == Err(400, KindRequired) <==>
      StripOrEmpty(Get(body, "kind")).Ok? &&
      (StripOrEmpty(Get(body, "kind")).value !in {"employer", "provider"} || !Truthy(Get(body, "org_id")))
    ensures r.Ok? ==>
      r.value.participantId == pid && r.value.referredAt == now && r.value.staffId == JNull &&
      r.value.note == Get(body, "note") && Truthy(r.value.status) &&
      (Truthy(Get(body, "status")) ==> r.value.status == Get(body, "status"))
    ensures r.Ok? ==>
      Truthy(Get(body, "org_id")) &&
      ((r.value.employerId == Get(body, "org_id") && r.value.providerId == JNull) ||
       (r.value.providerId == Get(body, "org_id") && r.value.employerId == JNull))
    ensures r.Ok? && !Truthy(Get(body, "status")) ==> r.value.status == JStr("referred")
    ensures r.Err? ==> r == Err(500, InternalError) || r == Err(400, KindRequired)
    ensures Get(body, "kind").JStr? && Strip(Get(body, "kind").s) in {"employer", "provider"} && Truthy(Get(body, "org_id")) ==>
      r.Ok? && (Strip(Get(body, "kind").s) == "employer" <==> r.value.employerId == Get(body, "org_id"))
  {
    var kind := StripOrEmpty(Get(body, "kind"));
    var orgId := Get(body, "org_id");
    if kind.Err? then Err(kind.code, kind.msg)
    else if kind.value !in {"employer", "provider"} || !Truthy(orgId) then Err(400, KindRequired)
    else
      Ok(Referral(0, pid,
                  if kind.value == "employer" then orgId else JNull,
                  if kind.value == "provider" then orgId else JNull,
                  JNull, Or(Get(body, "status"), JStr("referred")), Get(body, "note"), now))
  }

  /** The reply to a created referral describes the organisation the request
      named: the stripped `kind` and the `org_id` as sent. */
  lemma CreatedReferralRow(pid: int, body: Body, now: int, id: int, employers: seq<Org>, providers: seq<Org>)
    requires NewReferral(pid, body, now).Ok?
    ensures var row := RefRow(NewReferral(pid, body, now).value.(id := id), employers, providers);
      row.id == id &&
      Get(body, "kind").JStr? && row.kind == Some(Strip(Get(body, "kind").s)) &&
      row.orgId == Get(body, "org_id")
  {
  }

  /** POST /participants/<pid>/referrals. */
  method CreateReferral(s: Store, cred: Credential, pid: int, body: Body, now: int) returns (r: Reply<ReferralRow>)
    requires s.Valid()
    modifies s
    ensures s.Valid()
    ensures !cred.Bearer? ==> r == Refusal(JwtRequired(cred, false)) && s.State() == old(s.State())
    ensures cred.Bearer? && old(s.ParticipantById(pid)).None? ==>
      r == Message(404, NotFound) && s.State() == old(s.State())
    ensures cred.Bearer? && old(s.ParticipantById(pid)).Some? ==>
      var x := NewReferral(pid, body, now);
      (x.Err? ==> r == Message(x.code, x.msg) && s.State() == old(s.State())) &&
      (x.Ok? ==>
         r == Data(201, RefRow(x.value.(id := |old(s.referrals)| + 1), s.employers, s.providers)) &&
         s.State() == old(s.State()).(referrals := old(s.referrals) + [x.value.(id := |old(s.referrals)| + 1)]))
  {
    var v := JwtRequired(cred, false);
    if v.Deny? {
      return Refusal(v);
    }
    if s.ParticipantById(pid).None? {
      return Message(404, NotFound);
    }
    var x := NewReferral(pid, body, now);
    if x.Err? {
      return Message(x.code, x.msg);
    }
    var id := s.AddReferral(x.value);
    r := Data(201, RefRow(x.value.(id := id), s.employers, s.providers));
  }
}
