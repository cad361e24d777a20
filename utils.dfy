/** backend/utils.py: the `roles_required(*roles)` decorator. It first runs
    `@jwt_required()`, then refuses with 403 unless the token's `role` claim
    is one of `roles`, and otherwise returns the wrapped handler's reply
    unchanged. */
module Utils {
  import opened Json
  import opened Http

  /** Python's `claims.get('role') in roles`: only a string equal to one of
      the roles is in the tuple. */
  predicate HasRole(claims: Body, roles: seq<string>) {
    var role := Get(claims, "role");
    role.JStr? && role.s in roles
  }

  /** The guard of `roles_required(*roles)`. */
  function RolesRequired(roles: seq<string>, cred: Credential): (v: Verdict)
    ensures v == Allow <==> cred.Bearer? && HasRole(cred.claims, roles)
    ensures JwtRequired(cred, false).Deny? ==> v == JwtRequired(cred, false)
    ensures cred.Bearer? && !HasRole(cred.claims, roles) ==> v == Deny(403, "Forbidden")
  {
    var auth := JwtRequired(cred, false);
    if auth.Deny? then auth
    else if !HasRole(Claims(cred), roles) then Deny(403, "Forbidden")
    else Allow
  }

  /** `roles_required('admin')` lets a request through exactly when it
      carries a valid token whose role is the string "admin". */
  lemma AdminOnly(cred: Credential)
    ensures RolesRequired(["admin"], cred) == Allow <==>
      cred.Bearer? && Get(cred.claims, "role") == JStr("admin")
  {
    if cred.Bearer? && Get(cred.claims, "role").JStr? {
      assert Get(cred.claims, "role").s in ["admin"] <==> Get(cred.claims, "role").s == "admin";
    }
  }

  /** Adding roles never refuses a request that was let through. */
  lemma MoreRolesAllowMore(roles: seq<string>, more: seq<string>, cred: Credential)
    ensures RolesRequired(roles, cred) == Allow ==> RolesRequired(roles + more, cred) == Allow
  {
  }
}
