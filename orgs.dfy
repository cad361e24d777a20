/** What the employer and provider routes have in common: the row built from
    a request body, the name search, and the two orders the listings use.
    The employer and provider tables have the same columns, so one `Org`
    row serves both. */
module Orgs {
  import opened Wrappers
  import opened Text
  import opened Seqs
  import opened Json

  import opened Models
  import opened Queries

  const NameRequired := "name required"

  /** An org row built from a body that is copied without checks, as
      employers.py, providers.py and employers_providers.py do. `name` is
      NOT NULL: a missing or null name fails the INSERT with a 500, and the
      column's TEXT affinity turns a number or a boolean into text. */
  function OrgFromBody(body: Body): (r: Result<Org>)
    ensures r.Err? <==> Get(body, "name") == JNull || Get(body, "name").JArr? || Get(body, "name").JObj?
    ensures r.Err? ==> r == Err(500, InternalError)
    ensures r.Ok? && Get(body, "name").JStr? ==> r.value.name == Get(body, "name").s
    ensures r.Ok? ==>
      r.value.contactName == Get(body, "contact_name") && r.value.phone == Get(body, "phone") &&
      r.value.email == Get(body, "email") && r.value.address == Get(body, "address")
  {
    var name := NotNullText(Get(body, "name"));
    if name.Err? then Err(name.code, name.msg)
    else Ok(Org(0, name.value, Get(body, "contact_name"), Get(body, "phone"), Get(body, "email"), Get(body, "address")))
  }

  /** An org row as more.py builds it: the name stripped and required. */
  function NamedOrg(body: Body): (r: Result<Org>)
    ensures r == Err(400, NameRequired) <==> StripOrEmpty(Get(body, "name")) == Ok("")
    ensures r == Err(500, InternalError) <==> StripOrEmpty(Get(body, "name")).Err?
    ensures r.Ok? ==>
      Get(body, "name").JStr? && r.value.name == Strip(Get(body, "name").s) && r.value.name != []
    ensures r.Ok? ==>
      r.value.contactName == Get(body, "contact_name") && r.value.phone == Get(body, "phone") &&
      r.value.email == Get(body, "email") && r.value.address == Get(body, "address")
    ensures r.Err? ==> r == Err(400, NameRequired) || r == Err(500, InternalError)
    ensures Get(body, "name").JStr? && Strip(Get(body, "name").s) != [] ==> r.Ok?
  {
    var name := StripOrEmpty(Get(body, "name"));
    if name.Err? then Err(name.code, name.msg)
    else if name.value == [] then Err(400, NameRequired)
    else Ok(Org(0, name.value, Get(body, "contact_name"), Get(body, "phone"), Get(body, "email"), Get(body, "address")))
  }

  /** The two constructions agree on a body whose name is already a stripped,
      non-empty string. */
  lemma BuildersAgree(body: Body)
    requires Get(body, "name").JStr? && Get(body, "name").s != []
    requires Strip(Get(body, "name").s) == Get(body, "name").s
    ensures NamedOrg(body) == OrgFromBody(body)
  {
  }

  /** `order_by(<table>.name)` under SQLite's BINARY collation. */
  predicate ByOrgName(a: Org, b: Org) {
    StrLe(a.name, b.name)
  }

  /** `order_by(<table>.id.desc())`. */
  predicate NewestId(a: Org, b: Org) {
    a.id >= b.id
  }

  lemma {:induction false} OrgOrders()
    ensures TotalPreorder(ByOrgName)
    ensures TotalPreorder(NewestId)
  {
    forall a: Org, b: Org ensures ByOrgName(a, b) || ByOrgName(b, a) {
      StrLeTotal(a.name, b.name);
    }
    forall a: Org, b: Org, c: Org | ByOrgName(a, b) && ByOrgName(b, c) ensures ByOrgName(a, c) {
      StrLeTransitive(a.name, b.name, c.name);
    }
  }

  /** The rows of a table ordered by name. */
  function SortedByName(orgs: seq<Org>): (r: seq<Org>)
    ensures multiset(r) == multiset(orgs)
    ensures forall i, j :: 0 <= i < j < |r| ==> StrLe(r[i].name, r[j].name)
  {
    OrgOrders();
    SortBySorted(orgs, ByOrgName);
    SortBy(orgs, ByOrgName)
  }

  /** The rows of a table, highest id first. */
  function NewestFirst(orgs: seq<Org>): (r: seq<Org>)
    ensures multiset(r) == multiset(orgs)
    ensures forall i, j :: 0 <= i < j < |r| ==> r[i].id >= r[j].id
  {
    OrgOrders();
    SortBySorted(orgs, NewestId);
    SortBy(orgs, NewestId)
  }

  /** `name.ilike(f'%{q}%')`: SQLite's LIKE, which folds ASCII case and reads
      `%` and `_` in `q` as wildcards. */
  predicate NameMatches(o: Org, q: string) {
    Like(o.name, "%" + q + "%")
  }

  /** The `q` search: every row when `q` is empty, otherwise the rows whose
      name matches. */
  function Search(orgs: seq<Org>, q: string): (r: seq<Org>)
    ensures q == [] ==> r == orgs
    ensures forall o :: o in r <==> o in orgs && (q == [] || NameMatches(o, q))
    ensures forall o :: (q == [] || NameMatches(o, q)) ==> multiset(r)[o] == multiset(orgs)[o]
  {
    if q == [] then orgs else Filter(orgs, (o: Org) => NameMatches(o, q))
  }

  /** A search without wildcard characters finds exactly the names that
      contain `q`, ignoring ASCII case. */
  lemma SearchFindsSubstring(orgs: seq<Org>, q: string)
    requires forall i :: 0 <= i < |q| ==> !IsWildcard(q[i])
    ensures forall o :: o in Search(orgs, q) <==> o in orgs && (q == [] || ContainsFolded(o.name, q))
  {
    forall o: Org ensures NameMatches(o, q) <==> ContainsFolded(o.name, q) {
      SearchIsContainment(o.name, q);
    }
  }

  /** `<query>.order_by(<table>.name).limit(200)` after the `q` search: the
      matching rows in name order, at most 200 of them. */
  function SearchListing(orgs: seq<Org>, q: string): (r: seq<Org>)
    ensures |r| <= Limit
    ensures forall i, j :: 0 <= i < j < |r| ==> StrLe(r[i].name, r[j].name)
    ensures forall o :: o in r ==> o in orgs && (q == [] || NameMatches(o, q))
  {
    var all := SortedByName(Search(orgs, q));
    var r := Take(all, Limit);
    forall o | o in r ensures o in orgs && (q == [] || NameMatches(o, q)) {
      assert o in multiset(all);
    }
    r
  }

  /** The cap drops only rows that sort after every listed one: a matching
      row is missing from the listing only when the listing is full and
      every listed name sorts before or equal to it. */
  lemma {:induction false} SearchListingComplete(orgs: seq<Org>, q: string, o: Org)
    requires o in orgs && (q == [] || NameMatches(o, q))
    requires o !in SearchListing(orgs, q)
    ensures |SearchListing(orgs, q)| == Limit
    ensures forall k :: 0 <= k < Limit ==> StrLe(SearchListing(orgs, q)[k].name, o.name)
  {
    var all := SortedByName(Search(orgs, q));
    var r := SearchListing(orgs, q);
    assert o in multiset(Search(orgs, q));
    assert o in multiset(all);
    var j :| 0 <= j < |all| && all[j] == o;
    assert j >= Limit;
    forall k | 0 <= k < Limit ensures StrLe(r[k].name, o.name) {
      assert r[k] == all[k];
    }
  }
}
