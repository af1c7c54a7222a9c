/**
 * The `checkPermission(requiredSlug)` middleware: no user is 401, an ADMIN
 * role passes everything, otherwise the request passes when some role's
 * permissions carry exactly the required slug, and is 403 if not.
 *
 * The user is taken as loaded, so `roles` and a role's `permissions` may be
 * something other than an array, and a permission entry may be null or lack
 * a slug; such parts contribute nothing.
 */
module Permissions {
  import opened Common

  /** One element of a role's `permissions`: null, or an object with an optional slug. */
  datatype PermissionEntry = NullEntry | Permission(slug: Option<string>)

  /** A role as loaded; `permissions` is `None` when it is not an array. */
  datatype RoleRecord = RoleRecord(name: string, permissions: Option<seq<PermissionEntry>>)

  /** `req.user`; `roles` is `None` when it is not an array. */
  datatype AuthUser = AuthUser(roles: Option<seq<RoleRecord>>)

  /** `perm && perm.slug`: the slug the entry adds to the collected set, if any. */
  function Contributed(e: PermissionEntry): (r: Option<string>)
    ensures r.Some? <==> e.Permission? && TruthyStr(e.slug)
    ensures r.Some? ==> r.value != "" && e == Permission(Some(r.value))
  {
    if e.Permission? && TruthyStr(e.slug) then e.slug else None
  }

  /** Some role of the array is named ADMIN. */
  predicate HasAdminRole(u: AuthUser)
  {
    u.roles.Some? && exists i :: 0 <= i < |u.roles.value| && u.roles.value[i].name == "ADMIN"
  }

  /** Some role's permission array holds an entry whose slug is exactly `slug` (and not empty). */
  predicate HoldsSlug(u: AuthUser, slug: string)
  {
    && slug != ""
    && u.roles.Some?
    && exists i, j :: 0 <= i < |u.roles.value| && u.roles.value[i].permissions.Some?
         && 0 <= j < |u.roles.value[i].permissions.value|
         && u.roles.value[i].permissions.value[j] == Permission(Some(slug))
  }

  /** What the middleware lets through. */
  predicate Grants(u: AuthUser, slug: string)
  {
    HasAdminRole(u) || HoldsSlug(u, slug)
  }

  /** The slugs collected from a prefix of one role's permission array. */
  function EntrySlugs(es: seq<PermissionEntry>): set<string>
  {
    if es == [] then {}
    else EntrySlugs(es[..|es| - 1])
         + (var c := Contributed(es[|es| - 1]); if c.Some? then {c.value} else {})
  }

  /** The slugs collected from a prefix of the role array. */
  function RoleSlugs(rs: seq<RoleRecord>): set<string>
  {
    if rs == [] then {}
    else RoleSlugs(rs[..|rs| - 1])
         + (if rs[|rs| - 1].permissions.Some? then EntrySlugs(rs[|rs| - 1].permissions.value) else {})
  }

  lemma {:induction false} EntrySlugsMembership(es: seq<PermissionEntry>, slug: string)
    ensures slug in EntrySlugs(es) <==>
      slug != "" && exists j :: 0 <= j < |es| && es[j] == Permission(Some(slug))
  {
    if es != [] {
      var pre := es[..|es| - 1];
      EntrySlugsMembership(pre, slug);
      if slug != "" && exists j :: 0 <= j < |es| && es[j] == Permission(Some(slug)) {
        var j :| 0 <= j < |es| && es[j] == Permission(Some(slug));
        if j < |pre| {
          assert pre[j] == es[j];
        }
      }
      if slug != "" && exists j :: 0 <= j < |pre| && pre[j] == Permission(Some(slug)) {
        var j :| 0 <= j < |pre| && pre[j] == Permission(Some(slug));
        assert es[j] == pre[j];
      }
    }
  }

  lemma {:induction false} RoleSlugsMembership(rs: seq<RoleRecord>, slug: string)
    ensures slug in RoleSlugs(rs) <==> HoldsSlug(AuthUser(Some(rs)), slug)
  {
    if rs != [] {
      var pre, last := rs[..|rs| - 1], rs[|rs| - 1];
      RoleSlugsMembership(pre, slug);
      if last.permissions.Some? {
        EntrySlugsMembership(last.permissions.value, slug);
      }
      if HoldsSlug(AuthUser(Some(rs)), slug) {
        var i, j :| 0 <= i < |rs| && rs[i].permissions.Some? && 0 <= j < |rs[i].permissions.value|
                    && rs[i].permissions.value[j] == Permission(Some(slug));
        if i < |pre| {
          assert pre[i] == rs[i];
        }
      }
      if HoldsSlug(AuthUser(Some(pre)), slug) {
        var i, j :| 0 <= i < |pre| && pre[i].permissions.Some? && 0 <= j < |pre[i].permissions.value|
                    && pre[i].permissions.value[j] == Permission(Some(slug));
        assert rs[i] == pre[i];
      }
    }
  }

  /**
   * `checkPermission(requiredSlug)(req)`: 401 without a user, otherwise the
   * request passes exactly when an ADMIN role is present or some role's
   * permissions carry `required`, and is 403 when not.
   */
  method CheckPermission(user: Option<AuthUser>, required: string) returns (r: Result<()>)
    ensures user.None? ==> r == Err(Unauthorized)
    ensures user.Some? ==> (r.Ok? <==> Grants(user.value, required))
    ensures user.Some? && r.Err? ==> r.error == Forbidden
  {
    if user.None? {
      return Err(Unauthorized);
    }
    var u := user.value;
    if u.roles.Some? && exists i :: 0 <= i < |u.roles.value| && u.roles.value[i].name == "ADMIN" {
      return Ok(());
    }
    var slugs: set<string> := {};
    if u.roles.Some? {
      var roles := u.roles.value;
      var i := 0;
      while i < |roles|
        invariant 0 <= i <= |roles|
        invariant slugs == RoleSlugs(roles[..i])
      {
        assert roles[..i + 1][..i] == roles[..i];
        if roles[i].permissions.Some? {
          var perms := roles[i].permissions.value;
          var j := 0;
          while j < |perms|
            invariant 0 <= j <= |perms|
            invariant slugs == RoleSlugs(roles[..i]) + EntrySlugs(perms[..j])
          {
            assert perms[..j + 1][..j] == perms[..j];
            var c := Contributed(perms[j]);
            if c.Some? {
              slugs := slugs + {c.value};
            }
            j := j + 1;
          }
          assert perms[..j] == perms;
        }
        i := i + 1;
      }
      assert roles[..i] == roles;
      RoleSlugsMembership(roles, required);
    }
    if required in slugs {
      return Ok(());
    }
    return Err(Forbidden);
  }

  /** Every role of `u` is present in `u'` with at least the same permission entries. */
  predicate Covers(u: AuthUser, u': AuthUser)
  {
    u.roles.Some? ==>
      && u'.roles.Some?
      && forall i :: 0 <= i < |u.roles.value| ==>
           exists k :: 0 <= k < |u'.roles.value| && RoleCovers(u.roles.value[i], u'.roles.value[k])
  }

  predicate RoleCovers(r: RoleRecord, r': RoleRecord)
  {
    && r.name == r'.name
    && (r.permissions.Some? ==>
          r'.permissions.Some? && forall j :: 0 <= j < |r.permissions.value| ==> r.permissions.value[j] in r'.permissions.value)
  }

  /** Access is monotone: more roles, or more permissions on a role, never turn a grant into a denial. */
  lemma GrantsMonotone(u: AuthUser, u': AuthUser, slug: string)
    requires Covers(u, u')
    ensures Grants(u, slug) ==> Grants(u', slug)
  {
    if HasAdminRole(u) {
      var i :| 0 <= i < |u.roles.value| && u.roles.value[i].name == "ADMIN";
      var k :| 0 <= k < |u'.roles.value| && RoleCovers(u.roles.value[i], u'.roles.value[k]);
      assert u'.roles.value[k].name == "ADMIN";
    } else if HoldsSlug(u, slug) {
      var i, j :| 0 <= i < |u.roles.value| && u.roles.value[i].permissions.Some?
                  && 0 <= j < |u.roles.value[i].permissions.value|
                  && u.roles.value[i].permissions.value[j] == Permission(Some(slug));
      var k :| 0 <= k < |u'.roles.value| && RoleCovers(u.roles.value[i], u'.roles.value[k]);
      var ps' := u'.roles.value[k].permissions.value;
      assert Permission(Some(slug)) in ps';
      var j' :| 0 <= j' < |ps'| && ps'[j'] == Permission(Some(slug));
      assert HoldsSlug(u', slug);
    }
  }
  /** The permission slugs the role seeder defines. */
  const Catalog: set<string> := {
    "users.view", "users.manage", "divisions.view", "divisions.manage",
    "work_programs.view", "work_programs.manage", "documents.view", "documents.manage",
    "articles.view", "articles.manage", "cash.view_own", "cash.submit", "cash.manage"}

  /** Every slug the user's roles carry is one the seeder defines. */
  predicate FromCatalog(u: AuthUser)
  {
    u.roles.Some? ==>
      forall i, j ::
        (0 <= i < |u.roles.value| && u.roles.value[i].permissions.Some?
         && 0 <= j < |u.roles.value[i].permissions.value|
         && u.roles.value[i].permissions.value[j].Permission?
         && u.roles.value[i].permissions.value[j].slug.Some?) ==>
          u.roles.value[i].permissions.value[j].slug.value in Catalog
  }

  /** A slug outside the catalog is granted to ADMINs and to no one else. */
  lemma UncataloguedSlugAdminOnly(u: AuthUser, slug: string)
    requires FromCatalog(u) && slug !in Catalog
    ensures Grants(u, slug) <==> HasAdminRole(u)
  {
    if u.roles.Some? {
      var rs := u.roles.value;
      forall i, j | 0 <= i < |rs| && rs[i].permissions.Some? && 0 <= j < |rs[i].permissions.value|
        ensures rs[i].permissions.value[j] != Permission(Some(slug))
      {
        var e := rs[i].permissions.value[j];
        if e.Permission? && e.slug.Some? {
          assert e.slug.value in Catalog;
        }
      }
    }
  }

  /**
   * The work-program write routes ask for `workprograms.manage`, which the
   * catalog spells `work_programs.manage`: with catalogued permissions they
   * admit exactly the ADMINs, and a DIRECTOR never reaches the handler's
   * own division check.
   */
  lemma WorkProgramRoutesAdminOnly(u: AuthUser)
    requires FromCatalog(u)
    ensures Grants(u, "workprograms.manage") <==> HasAdminRole(u)
  {
    UncataloguedSlugAdminOnly(u, "workprograms.manage");
  }
}
