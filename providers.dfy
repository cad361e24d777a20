/** backend/routes/providers.py: `/api/v1/providers`. Only an admin creates
    providers; any signed-in user searches them by name. */
module Providers {
  import opened Wrappers
  import opened Json
  import opened Http
  import opened Models
  import opened Utils
  import opened Orgs

  /** POST: the body's columns are stored as sent; a name the NOT NULL
      column refuses fails the commit with a 500. */
  method Create(s: Store, cred: Credential, body: Body) returns (r: Reply<int>)
    requires s.Valid()
    modifies s
    ensures s.Valid()
    ensures RolesRequired(["admin"], cred).Deny? ==>
      r == Refusal(RolesRequired(["admin"], cred)) && s.State() == old(s.State())
    ensures RolesRequired(["admin"], cred) == Allow ==>
      var o := OrgFromBody(body);
      (o.Err? ==> r == Message(500, InternalError) && s.State() == old(s.State())) &&
      (o.Ok? ==>
         r == Data(201, |old(s.providers)| + 1) &&
         s.State() == old(s.State()).(providers := old(s.providers) + [o.value.(id := r.value)]))
  {
    var v := RolesRequired(["admin"], cred);
    if v.Deny? {
      return Refusal(v);
    }
    var o := OrgFromBody(body);
    if o.Err? {
      return Failure(o);
    }
    var id := s.AddProvider(o.value);
    r := Data(201, id);
  }

  /** GET with the query argument `q` (empty when absent): any valid token;
      the matching providers, first 200 by name. */
  function ListAll(s: Store, cred: Credential, q: string): (r: Reply<seq<Org>>)
    reads s
    ensures !cred.Bearer? ==> r == Refusal(JwtRequired(cred, false))
    ensures cred.Bearer? ==> r.Data? && r.code == 200 && r.value == SearchListing(s.providers, q)
  {
    var v := JwtRequired(cred, false);
    if v.Deny? then Refusal(v) else Data(200, SearchListing(s.providers, q))
  }
}
