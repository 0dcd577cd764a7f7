/** Permission decisions of internal/rbac/policyEngine.go, and the normalisation that
    internal/security/jwtManager.go applies to a token's permissions. */
module Policy {
  import opened Text

  function Canon(s: string): string { Upper(Trim(s)) }

  const SUPER := "SUPER_ADMIN"
  const LOCAL := "MANAGE_LOCAL_ROLES"
  const ROLES := "MANAGE_ROLES"
  const USERS := "MANAGE_USERS"
  const TENANTS := "MANAGE_GLOBAL_TENANTS"
  const CREATE := "CREATE_ROLE"
  const STAFF := "ASSIGN_ROLE"
  const EQUIP := "ASSIGN_PERMISSION"

  /** Holding one permission is enough for the other. */
  predicate Implies(held: string, required: string) {
    || held == SUPER
    || held == required
    || (held == LOCAL && required in {CREATE, STAFF, EQUIP, USERS})
    || (held == USERS && required in {CREATE, STAFF})
    || (held == ROLES && required in {CREATE, STAFF, EQUIP})
  }

  predicate Permits(perms: seq<string>, required: string) {
    exists p <- perms :: Implies(Canon(p), required)
  }

  predicate Grants(perms: seq<string>, required: string) {
    Canon(required) == "" || Permits(perms, Canon(required))
  }

  /** The engine's scan. */
  method Allowed(perms: seq<string>, required: string) returns (ok: bool)
    ensures ok == Grants(perms, required)
  {
    var req := Canon(required);
    if req == "" { return true; }
    for i := 0 to |perms|
      invariant !Permits(perms[..i], req)
    {
      var v := Canon(perms[i]);
      assert perms[..i + 1] == perms[..i] + [perms[i]];
      assert Implies(v, req) ==> Permits(perms, req);
      if v == SUPER || v == req { return true; }
      if v == LOCAL && (req == CREATE || req == STAFF || req == EQUIP || req == USERS) { return true; }
      if v == USERS && (req == CREATE || req == STAFF) { return true; }
      if v == ROLES && (req == CREATE || req == STAFF || req == EQUIP) { return true; }
    }
    assert perms[..|perms|] == perms;
    return false;
  }

  /** Inherited permissions give nothing beyond what the holder has already. */
  lemma ImpliesTransitive(a: string, b: string, c: string)
    requires Implies(a, b) && Implies(b, c)
    ensures Implies(a, c)
  {
  }

  /** A permission that is allowed anyway can be added without changing any decision. */
  lemma AllowedAddsNothing(perms: seq<string>, code: string, required: string)
    requires Permits(perms, Canon(code))
    ensures Grants(perms + [code], required) == Grants(perms, required)
  {
    var req := Canon(required);
    if Permits(perms + [code], req) {
      var p :| p in perms + [code] && Implies(Canon(p), req);
      if p !in perms {
        var q :| q in perms && Implies(Canon(q), Canon(code));
        ImpliesTransitive(Canon(q), Canon(code), req);
      }
    }
    if Permits(perms, req) {
      var p :| p in perms && Implies(Canon(p), req);
      assert p in perms + [code];
    }
  }

  /** Administration of local roles comes from one of three codes and no other. */
  lemma DelegateCode(perms: seq<string>) returns (p: string)
    requires Grants(perms, LOCAL) || Grants(perms, ROLES)
    ensures p in perms && Canon(p) in {SUPER, LOCAL, ROLES}
  {
    UpperCaseStays(LOCAL);
    UpperCaseStays(ROLES);
    p :| p in perms && (Implies(Canon(p), LOCAL) || Implies(Canon(p), ROLES));
    NothingImpliesDelegate(Canon(p));
  }

  lemma NothingImpliesDelegate(held: string)
    ensures Implies(held, LOCAL) || Implies(held, ROLES) ==> held in {SUPER, LOCAL, ROLES}
  {
    assert |LOCAL| == 18 && |CREATE| == |STAFF| == 11 && |EQUIP| == 17 && |USERS| == |ROLES| == 12;
    assert USERS[7] == 'U' && ROLES[7] == 'R';
  }

  lemma UpperCaseStays(s: string)
    requires s != [] && !IsSpace(s[0]) && !IsSpace(s[|s| - 1])
    requires forall c <- s :: UpperChar(c) == c
    ensures Canon(s) == s
  {
  }

  predicate Holds(perms: seq<string>, codes: set<string>) {
    exists p <- perms :: Canon(p) in codes
  }

  lemma GrantsByCode(perms: seq<string>)
    ensures Grants(perms, LOCAL) <==> Holds(perms, {SUPER, LOCAL})
    ensures Grants(perms, ROLES) <==> Holds(perms, {SUPER, ROLES})
    ensures Grants(perms, USERS) <==> Holds(perms, {SUPER, LOCAL, USERS})
    ensures Grants(perms, CREATE) <==> Holds(perms, {SUPER, LOCAL, USERS, ROLES, CREATE})
    ensures Grants(perms, STAFF) <==> Holds(perms, {SUPER, LOCAL, USERS, ROLES, STAFF})
    ensures Grants(perms, EQUIP) <==> Holds(perms, {SUPER, LOCAL, ROLES, EQUIP})
  {
    GrantsIff(perms, LOCAL, {SUPER, LOCAL});
    GrantsIff(perms, ROLES, {SUPER, ROLES});
    GrantsIff(perms, USERS, {SUPER, LOCAL, USERS});
    GrantsIff(perms, CREATE, {SUPER, LOCAL, USERS, ROLES, CREATE});
    GrantsIff(perms, STAFF, {SUPER, LOCAL, USERS, ROLES, STAFF});
    GrantsIff(perms, EQUIP, {SUPER, LOCAL, ROLES, EQUIP});
  }

  lemma GrantsIff(perms: seq<string>, code: string, codes: set<string>)
    requires code in {LOCAL, ROLES, USERS, CREATE, STAFF, EQUIP}
    requires forall h: string :: Implies(h, code) <==> h in codes
    ensures Grants(perms, code) <==> Holds(perms, codes)
  {
    UpperCaseStays(code);
  }

  // ---- normalisation ----

  /** First appearances of the non-blank codes, in canonical form. */
  function Normalized(perms: seq<string>): (out: seq<string>) {
    if perms == [] then []
    else
      var before, v := Normalized(perms[..|perms| - 1]), Canon(perms[|perms| - 1]);
      if v == "" || v in before then before else before + [v]
  }

  /** NormalizePermissions, and normalizeUpper, which is the same loop. */
  method Normalize(perms: seq<string>) returns (out: seq<string>)
    ensures out == Normalized(perms)
  {
    out := [];
    var seen: set<string> := {};
    for i := 0 to |perms|
      invariant out == Normalized(perms[..i])
      invariant forall v :: v in seen <==> v in out
    {
      var v := Canon(perms[i]);
      assert perms[..i + 1][..i] == perms[..i];
      if v == "" || v in seen { continue; }
      seen := seen + {v};
      out := out + [v];
    }
    assert perms[..|perms|] == perms;
  }

  /** Exactly the non-blank canonical codes survive, each once. */
  lemma {:induction false} NormalizedHolds(perms: seq<string>, v: string)
    ensures v in Normalized(perms) <==> v != "" && exists p <- perms :: Canon(p) == v
    ensures forall i, j :: 0 <= i < j < |Normalized(perms)| ==> Normalized(perms)[i] != Normalized(perms)[j]
  {
    if perms != [] {
      var before, last := perms[..|perms| - 1], perms[|perms| - 1];
      assert perms == before + [last];
      NormalizedHolds(before, v);
    }
  }

  /** Codes keep the order in which they first appear. */
  lemma {:induction false} NormalizedKeepsOrder(perms: seq<string>, more: seq<string>)
    ensures Normalized(perms) <= Normalized(perms + more)
    decreases |more|
  {
    if more == [] {
      assert perms + more == perms;
    } else {
      var n := |more| - 1;
      NormalizedKeepsOrder(perms, more[..n]);
      assert (perms + more)[..|perms| + n] == perms + more[..n];
    }
  }

  /** Normalising a token's permissions preserves every policy decision. */
  lemma NormalizingPreservesDecisions(perms: seq<string>, required: string)
    ensures Grants(Normalized(perms), required) == Grants(perms, required)
  {
    var req := Canon(required);
    if Permits(perms, req) && req != "" {
      var p :| p in perms && Implies(Canon(p), req);
      NormalizedHolds(perms, Canon(p));
      UpperTrimIdempotent(p);
      assert Canon(p) in Normalized(perms);
    }
    if Permits(Normalized(perms), req) {
      var v :| v in Normalized(perms) && Implies(Canon(v), req);
      NormalizedHolds(perms, v);
      var p :| p in perms && Canon(p) == v;
      UpperTrimIdempotent(p);
    }
  }

  /** Normalising again changes nothing. */
  lemma {:induction false} NormalizedTwice(perms: seq<string>)
    ensures Normalized(Normalized(perms)) == Normalized(perms)
  {
    if perms != [] {
      var before, last := perms[..|perms| - 1], perms[|perms| - 1];
      NormalizedTwice(before);
      var n, v := Normalized(before), Canon(last);
      if v != "" && v !in n {
        UpperTrimIdempotent(last);
        assert (n + [v])[..|n|] == n;
      }
    }
  }
}
