/** backend/routes/employers_providers.py: `/employers` and `/providers`
    without a URL prefix. Creation is the same admin-only insert as in
    employers.py and providers.py; the listings are neither searched nor
    capped. */
module EmployersProviders {
  import opened Wrappers
  import opened Text
  import opened Json
  import opened Http
  import opened Models
  import opened Utils
  import opened Orgs
  import Employers
  import Providers

  /** POST /employers: the same insert as `POST /api/v1/employers`. */
  method AddEmployer(s: Store, cred: Credential, body: Body) returns (r: Reply<int>)
    requires s.Valid()
    modifies s
    ensures s.Valid()
    ensures RolesRequired(["admin"], cred).Deny? ==>
      r == Refusal(RolesRequired(["admin"], cred)) && s.State() == old(s.State())
    ensures RolesRequired(["admin"], cred) == Allow ==>
      var o := OrgFromBody(body);
      (o.Err? ==> r == Message(500, InternalError) && s.State() == old(s.State())) &&
      (o.Ok? ==>
         r == Data(201, |old(s.employers)| + 1) &&
         s.State() == old(s.State()).(employers := old(s.employers) + [o.value.(id := r.value)]))
  {
    r := Employers.Create(s, cred, body);
  }

  /** POST /providers: the same insert as `POST /api/v1/providers`. */
  method AddProvider(s: Store, cred: Credential, body: Body) returns (r: Reply<int>)
    requires s.Valid()
    modifies s
    ensures s.Valid()
    ensures RolesRequired(["admin"], cred).Deny? ==>
      r == Refusal(RolesRequired(["admin"], cred)) && s.State() == old(s.State())
    ensures RolesRequired(["admin"], cred) == Allow ==>
      var o := OrgFromBody(body);
      (o.Err? ==> r == Message(500, InternalError) && s.State() == old(s.State())) &&
      (o.Ok? ==>
         r == Data(201, |old(s.providers)| + 1) &&
         s.State() == old(s.State()).(providers := old(s.providers) + [o.value.(id := r.value)]))
  {
    r := Providers.Create(s, cred, body);
  }

  /** Every row of a table, in name order. */
  function AllByName(orgs: seq<Org>, cred: Credential): (r: Reply<seq<Org>>)
    ensures !cred.Bearer? ==> r == Refusal(JwtRequired(cred, false))
    ensures cred.Bearer? ==> r.Data? && r.code == 200
    ensures r.Data? ==> multiset(r.value) == multiset(orgs)
    ensures r.Data? ==> forall i, j :: 0 <= i < j < |r.value| ==> StrLe(r.value[i].name, r.value[j].name)
  {
    var v := JwtRequired(cred, false);
    if v.Deny? then Refusal(v) else Data(200, SortedByName(orgs))
  }

  /** With at most 200 rows, the unprefixed listing holds exactly the rows
      of the searched one with an empty `q`. */
  lemma SmallTablesAgree(orgs: seq<Org>, cred: Credential)
    requires |orgs| <= 200
    ensures AllByName(orgs, cred).Data? ==> AllByName(orgs, cred).value == SearchListing(orgs, "")
  {
  }

  /** GET /employers: any valid token sees every employer, in name order. */
  function ListEmployers(s: Store, cred: Credential): (r: Reply<seq<Org>>)
    reads s
    ensures !cred.Bearer? ==> r == Refusal(JwtRequired(cred, false))
    ensures cred.Bearer? ==> r.Data? && r.code == 200
    ensures r.Data? ==> multiset(r.value) == multiset(s.employers)
    ensures r.Data? ==> forall i, j :: 0 <= i < j < |r.value| ==> StrLe(r.value[i].name, r.value[j].name)
  {
    AllByName(s.employers, cred)
  }

  /** GET /providers: any valid token sees every provider, in name order. */
  function ListProviders(s: Store, cred: Credential): (r: Reply<seq<Org>>)
    reads s
    ensures !cred.Bearer? ==> r == Refusal(JwtRequired(cred, false))
    ensures cred.Bearer? ==> r.Data? && r.code == 200
    ensures r.Data? ==> multiset(r.value) == multiset(s.providers)
    ensures r.Data? ==> forall i, j :: 0 <= i < j < |r.value| ==> StrLe(r.value[i].name, r.value[j].name)
  {
    AllByName(s.providers, cred)
  }
}
