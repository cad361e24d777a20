/** The tables of backend/models.py and the store that holds them.

    Every table is a sequence of rows in insertion order. Ids are the fresh
    integers SQLite hands out for an INTEGER PRIMARY KEY: no handler of this
    core ever removes a row, so the row at position i has id i + 1.
    Columns that a handler copies from a request body without looking at them
    keep the JSON value the body carried. */
module Models {
  import opened Wrappers
  import opened Json

  /** A calendar date, as `date` values produced by `datetime.fromisoformat(...).date()`. */
  datatype Date = Date(year: int, month: int, day: int)

  /** `datetime.fromisoformat(s).date()`: a date, or None where Python raises ValueError. */
  type DateParser = string -> Option<Date>

  /** A participant. `is_active` is not declared in backend/models.py although
      the participant handlers read and write it; it is part of the row here. */
  datatype Participant = Participant(
    id: int, firstName: string, lastName: string, dob: Option<Date>,
    race: Value, address: Value, email: Value, phone: Value,
    isActive: bool, createdAt: int)

  datatype CaseNote = CaseNote(id: int, participantId: int, content: Value, staffId: Value, createdAt: int)

  datatype Service = Service(
    id: int, participantId: int, serviceType: Value, note: Value, staffId: Value, providedAt: int)

  datatype Referral = Referral(
    id: int, participantId: int, employerId: Value, providerId: Value, staffId: Value,
    status: Value, note: Value, referredAt: int)

  /** An employer or a provider: the two tables have the same columns.
      `name` is NOT NULL, so it always holds text. */
  datatype Org = Org(id: int, name: string, contactName: Value, phone: Value, email: Value, address: Value)

  /** The row of `orgs` whose id is the key `db.session.get(Model, key)` is
      given; only a numeric key names a row. */
  function FindOrg(orgs: seq<Org>, key: Value): (r: Option<Org>)
    ensures r.Some? ==> r.value in orgs && key == JNum(r.value.id)
    ensures r.None? ==> forall o :: o in orgs ==> key != JNum(o.id)
  {
    if orgs == [] then None
    else if key == JNum(orgs[0].id) then Some(orgs[0])
    else FindOrg(orgs[1..], key)
  }

  /** The contents of every table at one moment. */
  datatype Db = Db(
    participants: seq<Participant>, notes: seq<CaseNote>, services: seq<Service>,
    referrals: seq<Referral>, employers: seq<Org>, providers: seq<Org>)

  /** The database. */
  class Store {
    var participants: seq<Participant>
    var notes: seq<CaseNote>
    var services: seq<Service>
    var referrals: seq<Referral>
    var employers: seq<Org>
    var providers: seq<Org>

    /** Every row's id is its position plus one. */
    ghost predicate Valid()
      reads this
    {
      (forall i :: 0 <= i < |participants| ==> participants[i].id == i + 1) &&
      (forall i :: 0 <= i < |notes| ==> notes[i].id == i + 1) &&
      (forall i :: 0 <= i < |services| ==> services[i].id == i + 1) &&
      (forall i :: 0 <= i < |referrals| ==> referrals[i].id == i + 1) &&
      (forall i :: 0 <= i < |employers| ==> employers[i].id == i + 1) &&
      (forall i :: 0 <= i < |providers| ==> providers[i].id == i + 1)
    }

    /** All tables, so that a contract can say which of them a handler changed. */
    function State(): Db
      reads this
    {
      Db(participants, notes, services, referrals, employers, providers)
    }

    constructor ()
      ensures Valid()
      ensures participants == [] && notes == [] && services == []
      ensures referrals == [] && employers == [] && providers == []
    {
      participants, notes, services := [], [], [];
      referrals, employers, providers := [], [], [];
    }

    /** `Participant.query.get(pid)`: the participant with that id, if any. */
    function ParticipantById(pid: int): (r: Option<Participant>)
      requires Valid()
      reads this
      ensures r.Some? <==> exists p :: p in participants && p.id == pid
      ensures r.Some? ==> r.value in participants && r.value.id == pid
    {
      if 1 <= pid <= |participants| then Some(participants[pid - 1])
      else
        assert forall p :: p in participants ==> p.id != pid by {
          forall p | p in participants ensures p.id != pid {
            var i :| 0 <= i < |participants| && participants[i] == p;
          }
        }
        None
    }

    /** `Referral.query.filter_by(id=rid, participant_id=pid).first()`. */
    function ReferralOf(pid: int, rid: int): (r: Option<Referral>)
      requires Valid()
      reads this
      ensures r.Some? <==> exists x :: x in referrals && x.id == rid && x.participantId == pid
      ensures r.Some? ==> r.value in referrals && r.value.id == rid && r.value.participantId == pid
    {
      if 1 <= rid <= |referrals| && referrals[rid - 1].participantId == pid then Some(referrals[rid - 1])
      else
        assert forall x :: x in referrals && x.id == rid ==> x == referrals[rid - 1] by {
          forall x | x in referrals && x.id == rid ensures x == referrals[rid - 1] {
            var i :| 0 <= i < |referrals| && referrals[i] == x;
          }
        }
        None
    }

    /** `db.session.add(p); db.session.commit()`: `p` is stored under a fresh id. */
    method AddParticipant(p: Participant) returns (id: int)
      requires Valid()
      modifies this`participants
      ensures Valid()
      ensures id == |old(participants)| + 1
      ensures participants == old(participants) + [p.(id := id)]
    {
      id := |participants| + 1;
      participants := participants + [p.(id := id)];
    }

    /** Committing changed columns of an existing participant. */
    method PutParticipant(p: Participant)
      requires Valid() && 1 <= p.id <= |participants|
      modifies this`participants
      ensures Valid()
      ensures participants == old(participants)[p.id - 1 := p]
    {
      participants := participants[p.id - 1 := p];
    }

    method AddNote(n: CaseNote) returns (id: int)
      requires Valid()
      modifies this`notes
      ensures Valid()
      ensures id == |old(notes)| + 1
      ensures notes == old(notes) + [n.(id := id)]
    {
      id := |notes| + 1;
      notes := notes + [n.(id := id)];
    }

    method AddService(v: Service) returns (id: int)
      requires Valid()
      modifies this`services
      ensures Valid()
      ensures id == |old(services)| + 1
      ensures services == old(services) + [v.(id := id)]
    {
      id := |services| + 1;
      services := services + [v.(id := id)];
    }

    method AddReferral(r: Referral) returns (id: int)
      requires Valid()
      modifies this`referrals
      ensures Valid()
      ensures id == |old(referrals)| + 1
      ensures referrals == old(referrals) + [r.(id := id)]
    {
      id := |referrals| + 1;
      referrals := referrals + [r.(id := id)];
    }

    /** Committing changed columns of an existing referral. */
    method PutReferral(r: Referral)
      requires Valid() && 1 <= r.id <= |referrals|
      modifies this`referrals
      ensures Valid()
      ensures referrals == old(referrals)[r.id - 1 := r]
    {
      referrals := referrals[r.id - 1 := r];
    }

    method AddEmployer(o: Org) returns (id: int)
      requires Valid()
      modifies this`employers
      ensures Valid()
      ensures id == |old(employers)| + 1
      ensures employers == old(employers) + [o.(id := id)]
    {
      id := |employers| + 1;
      employers := employers + [o.(id := id)];
    }

    method AddProvider(o: Org) returns (id: int)
      requires Valid()
      modifies this`providers
      ensures Valid()
      ensures id == |old(providers)| + 1
      ensures providers == old(providers) + [o.(id := id)]
    {
      id := |providers| + 1;
      providers := providers + [o.(id := id)];
    }
  }
}
