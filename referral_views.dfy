/** How the blueprints' two referral listings and three referral creators
    relate. participants.py describes a referral by the first truthy org id;
    nested.py takes the kind from the employer but the name from a found
    provider; more.py stores both org ids unchecked. The listings agree on
    every referral that has at most one truthy org id, which the creators of
    participants.py and nested.py guarantee and more.py does not. */
module ReferralViews {
  import opened Wrappers
  import opened Json
  import opened Text
  import opened Models
  import opened Queries
  import Participants
  import Nested
  import More

  /** The two listings describe a referral in the same way unless both org
      ids are truthy, or neither is and `provider_id` holds a falsy value
      other than null (nested.py then reports that value as `org_id`). */
  lemma RowsAgree(x: Referral, employers: seq<Org>, providers: seq<Org>)
    requires !(Truthy(x.employerId) && Truthy(x.providerId))
    requires Truthy(x.employerId) || Truthy(x.providerId) || x.providerId == JNull
    ensures Nested.NestedRow(x, employers, providers) == Participants.RefRow(x, employers, providers)
  {
  }

  /** With both ids set and both orgs present, nested.py reports an employer
      referral under the provider's name, where participants.py reports the
      employer's. */
  lemma BothIdsDisagree()
    ensures var employers := [Org(1, "Acme", JNull, JNull, JNull, JNull)];
      var providers := [Org(1, "Shelter", JNull, JNull, JNull, JNull)];
      var x := Referral(1, 1, JNum(1), JNum(1), JNull, JStr("referred"), JNull, 0);
      var nested := Nested.NestedRow(x, employers, providers);
      var flat := Participants.RefRow(x, employers, providers);
      nested.kind == Some("employer") && nested.orgName == Some("Shelter") &&
      flat.kind == Some("employer") && flat.orgName == Some("Acme")
  {
    var employers := [Org(1, "Acme", JNull, JNull, JNull, JNull)];
    var providers := [Org(1, "Shelter", JNull, JNull, JNull, JNull)];
    assert FindOrg(employers, JNum(1)) == Some(employers[0]);
    assert FindOrg(providers, JNum(1)) == Some(providers[0]);
  }

  /** A referral created by participants.py is listed alike by both. */
  lemma ParticipantsReferralsAgree(pid: int, body: Body, now: int, id: int, employers: seq<Org>, providers: seq<Org>)
    requires Participants.NewReferral(pid, body, now).Ok?
    ensures var x := Participants.NewReferral(pid, body, now).value.(id := id);
      Nested.NestedRow(x, employers, providers) == Participants.RefRow(x, employers, providers)
  {
    var x := Participants.NewReferral(pid, body, now).value.(id := id);
    RowsAgree(x, employers, providers);
  }

  /** A referral created by nested.py is listed alike by both, unless its
      `org_id` was a falsy value other than null: nested.py keeps it as the
      provider id and reports it, participants.py reports null. */
  lemma NestedReferralsAgree(pid: int, body: Body, staff: Value, now: int, id: int, employers: seq<Org>, providers: seq<Org>)
    requires Nested.NewReferral(pid, body, staff, now).Ok?
    requires Truthy(Get(body, "org_id")) || Get(body, "org_id") == JNull
    ensures var x := Nested.NewReferral(pid, body, staff, now).value.(id := id);
      Nested.NestedRow(x, employers, providers) == Participants.RefRow(x, employers, providers)
  {
    var x := Nested.NewReferral(pid, body, staff, now).value.(id := id);
    RowsAgree(x, employers, providers);
  }

  /** more.py accepts a body naming both an employer and a provider, which
      is the referral on which the listings disagree. */
  lemma MoreStoresBothIds()
    ensures var body := map["employer_id" := JNum(1), "provider_id" := JNum(1)];
      var x := More.NewReferral(1, body, 0);
      Truthy(x.employerId) && Truthy(x.providerId)
  {
    var body := map["employer_id" := JNum(1), "provider_id" := JNum(1)];
    assert Get(body, "employer_id") == JNum(1);
    assert Get(body, "provider_id") == JNum(1);
  }

  /** A referral body naming employer 1 with an empty-string status. */
  function EmptyStatusBody(): (body: Body)
    ensures Get(body, "kind") == JStr("employer") && Get(body, "org_id") == JNum(1)
    ensures "status" in body && body["status"] == JStr("") && Get(body, "status") == JStr("")
  {
    map["kind" := JStr("employer"), "org_id" := JNum(1), "status" := JStr("")]
  }

  /** A falsy status that is not null, such as `""`, is stored as sent by
      nested.py (`d.get('status', 'referred')`) and as "referred" by
      participants.py and more.py (`d.get('status') or 'referred'`). */
  lemma {:induction false} FalsyStatusDiffers()
    ensures var body := EmptyStatusBody();
      Nested.NewReferral(1, body, JNull, 0).Ok? && Nested.NewReferral(1, body, JNull, 0).value.status == JStr("") &&
      Participants.NewReferral(1, body, 0).Ok? && Participants.NewReferral(1, body, 0).value.status == JStr("referred") &&
      More.NewReferral(1, body, 0).status == JStr("referred")
  {
    var body := EmptyStatusBody();
    StripKeeps("employer");
    assert StripOrEmpty(Get(body, "kind")) == Ok("employer");
    assert Truthy(Get(body, "org_id"));
    assert !Truthy(JStr(""));
  }

  /** An absent or null status is stored as "referred" by all three creators:
      by `or` in participants.py and more.py, and by the column default in
      nested.py, whose None attribute the ORM leaves out of the INSERT. */
  lemma NullStatusReferred(pid: int, body: Body, staff: Value, now: int)
    requires Get(body, "status") == JNull
    ensures Nested.NewReferral(pid, body, staff, now).Ok? ==>
      Nested.NewReferral(pid, body, staff, now).value.status == JStr("referred")
    ensures Participants.NewReferral(pid, body, now).Ok? ==>
      Participants.NewReferral(pid, body, now).value.status == JStr("referred")
    ensures More.NewReferral(pid, body, now).status == JStr("referred")
  {
  }

  /** When the body's status is truthy, all three creators store it. */
  lemma TruthyStatusKept(pid: int, body: Body, staff: Value, now: int)
    requires Truthy(Get(body, "status"))
    ensures Nested.NewReferral(pid, body, staff, now).Ok? ==>
      Nested.NewReferral(pid, body, staff, now).value.status == Get(body, "status")
    ensures Participants.NewReferral(pid, body, now).Ok? ==>
      Participants.NewReferral(pid, body, now).value.status == Get(body, "status")
    ensures More.NewReferral(pid, body, now).status == Get(body, "status")
  {
  }
}
