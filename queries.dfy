/** The ORM queries the route variants share, as functions on the tables:
    a participant's notes, services and referrals, newest first
    (`filter_by(participant_id=pid).order_by(<timestamp>.desc())`), and the
    referral object two of the variants return. SQL leaves the order of rows
    with equal timestamps open; the model keeps them in id order. */
module Queries {
  import opened Wrappers
  import opened Json
  import opened Seqs
  import opened Models

  /** The cap of `.limit(200)`. */
  const Limit := 200

  predicate NoteNewer(a: CaseNote, b: CaseNote) {
    a.createdAt >= b.createdAt
  }

  predicate ServiceNewer(a: Service, b: Service) {
    a.providedAt >= b.providedAt
  }

  predicate ReferralNewer(a: Referral, b: Referral) {
    a.referredAt >= b.referredAt
  }

  /** The notes of participant `pid`, newest first. */
  function NotesOf(notes: seq<CaseNote>, pid: int): (r: seq<CaseNote>)
    ensures forall n :: n in r <==> n in notes && n.participantId == pid
    ensures forall n: CaseNote :: n.participantId == pid ==> multiset(r)[n] == multiset(notes)[n]
    ensures forall n: CaseNote :: n.participantId != pid ==> multiset(r)[n] == 0
    ensures forall i, j :: 0 <= i < j < |r| ==> r[i].createdAt >= r[j].createdAt
  {
    assert TotalPreorder(NoteNewer);
    var r := SortedSelection(notes, (n: CaseNote) => n.participantId == pid, NoteNewer);
    assert Sorted(r, NoteNewer);
    r
  }

  /** The services of participant `pid`, most recently provided first. */
  function ServicesOf(services: seq<Service>, pid: int): (r: seq<Service>)
    ensures forall v :: v in r <==> v in services && v.participantId == pid
    ensures forall v: Service :: v.participantId == pid ==> multiset(r)[v] == multiset(services)[v]
    ensures forall v: Service :: v.participantId != pid ==> multiset(r)[v] == 0
    ensures forall i, j :: 0 <= i < j < |r| ==> r[i].providedAt >= r[j].providedAt
  {
    assert TotalPreorder(ServiceNewer);
    var r := SortedSelection(services, (v: Service) => v.participantId == pid, ServiceNewer);
    assert Sorted(r, ServiceNewer);
    r
  }

  /** The referrals of participant `pid`, most recent first. */
  function ReferralsOf(referrals: seq<Referral>, pid: int): (r: seq<Referral>)
    ensures forall x :: x in r <==> x in referrals && x.participantId == pid
    ensures forall x: Referral :: x.participantId == pid ==> multiset(r)[x] == multiset(referrals)[x]
    ensures forall x: Referral :: x.participantId != pid ==> multiset(r)[x] == 0
    ensures forall i, j :: 0 <= i < j < |r| ==> r[i].referredAt >= r[j].referredAt
  {
    assert TotalPreorder(ReferralNewer);
    var r := SortedSelection(referrals, (x: Referral) => x.participantId == pid, ReferralNewer);
    assert Sorted(r, ReferralNewer);
    r
  }

  /** What `.limit(n)` keeps of a newest-first listing: a prefix, so every row
      it drops is no newer than any row it keeps, and nothing is dropped when
      there are at most `n` rows. */
  lemma {:induction false} CapKeepsNewest(notes: seq<CaseNote>, pid: int, n: nat)
    ensures var all := NotesOf(notes, pid); var kept := Take(all, n);
      (|all| <= n ==> kept == all) &&
      forall i, j :: 0 <= i < |kept| <= j < |all| ==> kept[i].createdAt >= all[j].createdAt
  {
    var all := NotesOf(notes, pid);
    var kept := Take(all, n);
    forall i, j | 0 <= i < |kept| <= j < |all| ensures kept[i].createdAt >= all[j].createdAt {
      assert kept[i] == all[i];
    }
  }

  /** `.limit(n)` on services keeps the most recently provided ones. */
  lemma {:induction false} CapKeepsNewestServices(services: seq<Service>, pid: int, n: nat)
    ensures var all := ServicesOf(services, pid); var kept := Take(all, n);
      (|all| <= n ==> kept == all) &&
      forall i, j :: 0 <= i < |kept| <= j < |all| ==> kept[i].providedAt >= all[j].providedAt
  {
    var all := ServicesOf(services, pid);
    var kept := Take(all, n);
    forall i, j | 0 <= i < |kept| <= j < |all| ensures kept[i].providedAt >= all[j].providedAt {
      assert kept[i] == all[i];
    }
  }

  /** `.limit(n)` on referrals keeps the most recent ones. */
  lemma {:induction false} CapKeepsNewestReferrals(referrals: seq<Referral>, pid: int, n: nat)
    ensures var all := ReferralsOf(referrals, pid); var kept := Take(all, n);
      (|all| <= n ==> kept == all) &&
      forall i, j :: 0 <= i < |kept| <= j < |all| ==> kept[i].referredAt >= all[j].referredAt
  {
    var all := ReferralsOf(referrals, pid);
    var kept := Take(all, n);
    forall i, j | 0 <= i < |kept| <= j < |all| ensures kept[i].referredAt >= all[j].referredAt {
      assert kept[i] == all[i];
    }
  }

  /** Storing a note of participant `pid` adds exactly that note to the
      participant's notes. */
  lemma NotesOfAppend(notes: seq<CaseNote>, n: CaseNote, pid: int)
    requires n.participantId == pid
    ensures multiset(NotesOf(notes + [n], pid)) == multiset(NotesOf(notes, pid)) + multiset{n}
    ensures |NotesOf(notes + [n], pid)| == |NotesOf(notes, pid)| + 1
    ensures n in NotesOf(notes + [n], pid)
  {
    assert multiset(notes + [n]) == multiset(notes) + multiset{n};
    assert multiset(NotesOf(notes + [n], pid)) == multiset(NotesOf(notes, pid)) + multiset{n};
  }

  lemma ServicesOfAppend(services: seq<Service>, v: Service, pid: int)
    requires v.participantId == pid
    ensures multiset(ServicesOf(services + [v], pid)) == multiset(ServicesOf(services, pid)) + multiset{v}
    ensures |ServicesOf(services + [v], pid)| == |ServicesOf(services, pid)| + 1
    ensures v in ServicesOf(services + [v], pid)
  {
    assert multiset(services + [v]) == multiset(services) + multiset{v};
    assert multiset(ServicesOf(services + [v], pid)) == multiset(ServicesOf(services, pid)) + multiset{v};
  }

  lemma ReferralsOfAppend(referrals: seq<Referral>, x: Referral, pid: int)
    requires x.participantId == pid
    ensures multiset(ReferralsOf(referrals + [x], pid)) == multiset(ReferralsOf(referrals, pid)) + multiset{x}
    ensures |ReferralsOf(referrals + [x], pid)| == |ReferralsOf(referrals, pid)| + 1
    ensures x in ReferralsOf(referrals + [x], pid)
  {
    assert multiset(referrals + [x]) == multiset(referrals) + multiset{x};
    assert multiset(ReferralsOf(referrals + [x], pid)) == multiset(ReferralsOf(referrals, pid)) + multiset{x};
  }

  /** The referral object `{id, kind, org_id, org_name, status, note,
      referred_at}` returned by the referral listings. */
  datatype ReferralRow = ReferralRow(
    id: int, kind: Option<string>, orgId: Value, orgName: Option<string>,
    status: Value, note: Value, referredAt: int)

  /** `e.name if e else None` for an org looked up by id. */
  function NameOf(o: Option<Org>): Option<string> {
    if o.Some? then Some(o.value.name) else None
  }
}
