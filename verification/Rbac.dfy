/**
 * Roles: the catalogue in the code (packages/db/prisma/rbac-catalog.ts), the seed that
 * writes it to the database (packages/db/prisma/seed.ts), the bootstrap that clones it for a
 * new tenant (packages/auth/src/tenants/tenants.service.ts), and the gate that compares the
 * roles with it, with its remedy (packages/db/scripts/check-role-permissions-drift.ts).
 */
module Rbac {
  import opened Prelude

  type Code = string
  type Name = string
  type Slug = string

  datatype Template = Template(name: Name, permissionCodes: seq<Code>)

  /** PERMISSIONS and ROLE_TEMPLATES. */
  datatype Catalogue = Catalogue(permissions: seq<Code>, templates: seq<Template>)

  datatype TemplateRow = TemplateRow(isDefault: bool, codes: set<Code>)

  /** A role with its role_permissions; live: deleted_at is null. */
  datatype Role = Role(tenant: Slug, name: Name, isSystem: bool, live: bool, codes: set<Code>)

  datatype Db = Db(permissions: set<Code>, templates: map<Name, TemplateRow>, tenants: set<Slug>, roles: seq<Role>)

  const SUPER_ADMIN := "Super Admin"

  predicate HasTemplate(cat: Catalogue, name: Name) {
    exists t :: t in cat.templates && t.name == name
  }

  /** The codes of a template in the code. */
  function CodesOf(cat: Catalogue, name: Name): set<Code> {
    set t, c | t in cat.templates && t.name == name && c in t.permissionCodes :: c
  }

  function TemplateNames(cat: Catalogue): set<Name> {
    set t | t in cat.templates :: t.name
  }

  /** Template names are distinct, as in the constant ROLE_TEMPLATES: a map by name loses none. */
  predicate WellFormed(cat: Catalogue) {
    forall i, j :: 0 <= i < j < |cat.templates| ==> cat.templates[i].name != cat.templates[j].name
  }

  /** The foreign key of roles, and their unique name among the live ones of a tenant. */
  predicate DbOk(db: Db) {
    && (forall r :: r in db.roles ==> r.tenant in db.tenants)
    && (forall i, j :: (0 <= i < j < |db.roles| && db.roles[i].live && db.roles[j].live &&
      db.roles[i].tenant == db.roles[j].tenant) ==>
          db.roles[i].name != db.roles[j].name)
  }

  // ---------------------------------------------------------------------------
  // The gate
  // ---------------------------------------------------------------------------

  datatype Finding = Finding(tenant: Slug, role: Name, code: Code)

  predicate InScope(cat: Catalogue, r: Role) {
    r.live && r.isSystem && HasTemplate(cat, r.name)
  }

  /** C1: the catalogue of the code is in the database. */
  predicate CatalogueIn(cat: Catalogue, db: Db) {
    && (forall c :: c in cat.permissions ==> c in db.permissions)
    && (forall t :: t in cat.templates ==> t.name in db.templates)
    && (forall t, c :: t in cat.templates && c in t.permissionCodes ==>
      t.name in db.templates && c in db.templates[t.name].codes)
  }

  /** C2: what the roles in scope lack. */
  function Missing(cat: Catalogue, db: Db): set<Finding> {
    set r, c | r in db.roles && InScope(cat, r) && c in CodesOf(cat, r.name) &&
      c !in r.codes :: Finding(r.tenant, r.name, c)
  }

  /** C3: what they have in excess. */
  function Excess(cat: Catalogue, db: Db): set<Finding> {
    set r, c | r in db.roles && InScope(cat, r) && c in r.codes &&
      c !in CodesOf(cat, r.name) :: Finding(r.tenant, r.name, c)
  }

  /** C4: the live roles that cannot be compared with a template. */
  function Unreconcilable(cat: Catalogue, db: Db): set<Role> {
    set r | r in db.roles && r.live && !InScope(cat, r)
  }

  /** A live role is a system role with exactly the permissions of its namesake template. */
  predicate RoleMatches(cat: Catalogue, r: Role) {
    r.live ==> r.isSystem && HasTemplate(cat, r.name) && r.codes == CodesOf(cat, r.name)
  }

  predicate RolesMatch(cat: Catalogue, db: Db) {
    forall r :: r in db.roles ==> RoleMatches(cat, r)
  }

  predicate AnyLive(db: Db) {
    exists r :: r in db.roles && r.live
  }

  /** What a green gate means. */
  predicate Green(cat: Catalogue, db: Db) {
    CatalogueIn(cat, db) && AnyLive(db) && RolesMatch(cat, db)
  }

  lemma GreenIsEveryCheck(cat: Catalogue, db: Db)
    ensures RolesMatch(cat, db) <==> Missing(cat, db) == {} && Excess(cat, db) == {} && Unreconcilable(cat, db) == {}
  {
    if Missing(cat, db) == {} && Excess(cat, db) == {} && Unreconcilable(cat, db) == {} {
      forall r | r in db.roles && r.live ensures RoleMatches(cat, r) {
        assert r !in Unreconcilable(cat, db);
        forall c ensures c in r.codes <==> c in CodesOf(cat, r.name) {
          assert Finding(r.tenant, r.name, c) !in Missing(cat, db) && Finding(r.tenant, r.name, c) !in Excess(cat, db);
        }
      }
    }
    if RolesMatch(cat, db) {
      forall r, c | r in db.roles && InScope(cat, r) ensures c in r.codes <==> c in CodesOf(cat, r.name) {
        assert RoleMatches(cat, r);
      }
      forall r | r in db.roles && r.live ensures InScope(cat, r) {
        assert RoleMatches(cat, r);
      }
    }
  }

  /** The findings one by one: a code the catalogue grants and a role lacks, or the other way round. */
  lemma FindingsAre(cat: Catalogue, db: Db, f: Finding)
    ensures f in Missing(cat, db) <==>
      && (exists t :: t in cat.templates && t.name == f.role && f.code in t.permissionCodes)
      && exists r :: r in db.roles && r.live && r.isSystem && r.tenant == f.tenant && r.name == f.role &&
                     f.code !in r.codes
    ensures f in Excess(cat, db) <==>
      && (exists t :: t in cat.templates && t.name == f.role)
      && (forall t :: t in cat.templates && t.name == f.role ==> f.code !in t.permissionCodes)
      && exists r :: r in db.roles && r.live && r.isSystem && r.tenant == f.tenant && r.name == f.role &&
                     f.code in r.codes
  {
    assert f == Finding(f.tenant, f.role, f.code);
    if t :| t in cat.templates && t.name == f.role && f.code in t.permissionCodes {
      assert f.code in CodesOf(cat, f.role);
    }
  }

  datatype Report = Report(c1: set<Code>, c1Templates: set<Name>, c1Mappings: set<(Name, Code)>,
                           c2: set<Finding>, c3: set<Finding>, c4: set<Role>, exitCode: int)

  function ToSet<T(==)>(s: seq<T>): set<T> {
    set x | x in s
  }

  function MissingFrom<T(==)>(a: set<T>, b: set<T>): set<T> {
    a - b
  }

  /** The mappings of these templates that the database lacks. */
  function Unmapped(templates: seq<Template>, db: Db): set<(Name, Code)> {
    set t, c | t in templates && c in t.permissionCodes && c !in CodesIn(db, t.name) :: (t.name, c)
  }

  lemma UnmappedGrows(templates: seq<Template>, db: Db, i: nat)
    requires i < |templates|
    ensures
      var t := templates[i];
      Unmapped(templates[..i + 1], db)
        == Unmapped(templates[..i], db) + set c | c in MissingFrom(ToSet(t.permissionCodes), CodesIn(db, t.name)) ::
          (t.name, c)
  {
    assert forall u :: u in templates[..i + 1] <==> u in templates[..i] || u == templates[i];
  }

  /** One more role: what it adds to C2, C3 and C4. */
  lemma RolesGrow(cat: Catalogue, db: Db, i: nat)
    requires i < |db.roles|
    ensures
      var r, now, next := db.roles[i], db.(roles := db.roles[..i]), db.(roles := db.roles[..i + 1]);
      && Missing(cat, next) == Missing(cat, now) +
        (if InScope(cat, r) then set c | c in CodesOf(cat, r.name) - r.codes :: Finding(r.tenant, r.name, c) else {})
      && Excess(cat, next) == Excess(cat, now) +
        (if InScope(cat, r) then set c | c in r.codes - CodesOf(cat, r.name) :: Finding(r.tenant, r.name, c) else {})
      && Unreconcilable(cat, next) == Unreconcilable(cat, now) + (if r.live && !InScope(cat, r) then {r} else {})
  {
    assert forall q :: q in db.roles[..i + 1] <==> q in db.roles[..i] || q == db.roles[i];
  }

  /** main: every check is run, and the verdict is 0 or 1. */
  method CheckDrift(cat: Catalogue, db: Db) returns (report: Report)
    requires WellFormed(cat)
    ensures report.exitCode == if Green(cat, db) then 0 else 1
    ensures report.c1 == {} && report.c1Templates == {} && report.c1Mappings == {} <==> CatalogueIn(cat, db)
    ensures forall c :: c in report.c1 <==> c in cat.permissions && c !in db.permissions
    ensures forall name :: name in report.c1Templates <==> HasTemplate(cat, name) && name !in db.templates
    ensures forall m :: m in report.c1Mappings <==>
      && (exists t :: t in cat.templates && t.name == m.0 && m.1 in t.permissionCodes)
      && (m.0 in db.templates ==> m.1 !in db.templates[m.0].codes)
    ensures report.c2 == Missing(cat, db) && report.c3 == Excess(cat, db) && report.c4 == Unreconcilable(cat, db)
  {
    var c1 := MissingFrom(ToSet(cat.permissions), db.permissions);
    var c1Templates := MissingFrom(TemplateNames(cat), db.templates.Keys);
    var c1Mappings: set<(Name, Code)> := {};
    for i := 0 to |cat.templates|
      invariant c1Mappings == Unmapped(cat.templates[..i], db)
    {
      var t := cat.templates[i];
      UnmappedGrows(cat.templates, db, i);
      c1Mappings := c1Mappings + (set c | c in MissingFrom(ToSet(t.permissionCodes), CodesIn(db, t.name)) ::
        (t.name, c));
    }
    assert cat.templates[..|cat.templates|] == cat.templates;
    var c2: set<Finding>, c3: set<Finding>, c4: set<Role> := {}, {}, {};
    var examined := 0;
    for i := 0 to |db.roles|
      invariant c2 == Missing(cat, db.(roles := db.roles[..i]))
      invariant c3 == Excess(cat, db.(roles := db.roles[..i]))
      invariant c4 == Unreconcilable(cat, db.(roles := db.roles[..i]))
      invariant examined > 0 <==> exists r :: r in db.roles[..i] && InScope(cat, r)
      invariant 0 <= examined
    {
      var r := db.roles[i];
      RolesGrow(cat, db, i);
      if r.live {
        if r.isSystem && HasTemplate(cat, r.name) {
          examined := examined + 1;
          c2 := c2 + (set c | c in MissingFrom(CodesOf(cat, r.name), r.codes) :: Finding(r.tenant, r.name, c));
          c3 := c3 + (set c | c in MissingFrom(r.codes, CodesOf(cat, r.name)) :: Finding(r.tenant, r.name, c));
        } else {
          c4 := c4 + {r};
        }
      }
    }
    assert db.roles[..|db.roles|] == db.roles;
    GreenIsEveryCheck(cat, db);
    var failed := c1 != {} || c1Templates != {} || c1Mappings != {} || c2 != {} || c3 != {} || c4 != {} ||
      examined == 0;
    report := Report(c1, c1Templates, c1Mappings, c2, c3, c4, if failed then 1 else 0);
    VerdictOfC1(cat, db, report);
  }

  lemma VerdictOfC1(cat: Catalogue, db: Db, report: Report)
    requires report.c1 == ToSet(cat.permissions) - db.permissions
    requires report.c1Templates == TemplateNames(cat) - db.templates.Keys
    requires report.c1Mappings == Unmapped(cat.templates, db)
    ensures report.c1 == {} && report.c1Templates == {} && report.c1Mappings == {} <==> CatalogueIn(cat, db)
    ensures forall name :: name in report.c1Templates <==> HasTemplate(cat, name) && name !in db.templates
    ensures forall m :: m in report.c1Mappings <==>
      && (exists t :: t in cat.templates && t.name == m.0 && m.1 in t.permissionCodes)
      && (m.0 in db.templates ==> m.1 !in db.templates[m.0].codes)
  {
    forall m: (Name, Code) ensures m == (m.0, m.1) {
    }
    if report.c1 == {} && report.c1Templates == {} && report.c1Mappings == {} {
      forall c | c in cat.permissions ensures c in db.permissions {
        assert c !in report.c1;
      }
      forall t | t in cat.templates ensures t.name in db.templates {
        assert t.name !in report.c1Templates;
      }
      forall t, c | t in cat.templates && c in t.permissionCodes
        ensures t.name in db.templates && c in db.templates[t.name].codes
      {
        assert (t.name, c) !in report.c1Mappings;
      }
    }
  }

  // ---------------------------------------------------------------------------
  // The seed
  // ---------------------------------------------------------------------------

  /** Every code a template mentions is known, in the code or in the database. */
  predicate Seedable(cat: Catalogue, db: Db) {
    forall t, c :: t in cat.templates && c in t.permissionCodes ==> c in cat.permissions || c in db.permissions
  }

  /** Upserts only add: nothing that left the code leaves the database. */
  function Seeded(cat: Catalogue, db: Db): Db {
    var templates := map name | name in db.templates.Keys + TemplateNames(cat) ::
      if HasTemplate(cat, name) then TemplateRow(true, CodesIn(db, name) + CodesOf(cat, name)) else db.templates[name];
    db.(permissions := db.permissions + ToSet(cat.permissions), templates := templates)
  }

  /**
   * What the seed leaves: the permissions of the code are added, each of its templates is a
   * default one with its codes on top of those it had, and nothing else changes.
   */
  lemma SeedLeaves(cat: Catalogue, db: Db)
    ensures
      var after := Seeded(cat, db);
      && after.tenants == db.tenants && after.roles == db.roles
      && (forall c :: c in after.permissions <==> c in db.permissions || c in cat.permissions)
      && (forall name :: name in after.templates <==>
            name in db.templates || exists t :: t in cat.templates && t.name == name)
      && (forall name :: name in after.templates && (forall t :: t in cat.templates ==> t.name != name) ==>
            after.templates[name] == db.templates[name])
      && (forall t :: t in cat.templates ==>
            && after.templates[t.name].isDefault
            && forall c :: c in after.templates[t.name].codes <==>
                 || (t.name in db.templates && c in db.templates[t.name].codes)
                 || exists u :: u in cat.templates && u.name == t.name && c in u.permissionCodes)
  {
    forall name ensures name in TemplateNames(cat) <==> HasTemplate(cat, name) {
    }
    forall t | t in cat.templates ensures HasTemplate(cat, t.name) && t.name in Seeded(cat, db).templates {
    }
  }

  function CodesIn(db: Db, name: Name): set<Code> {
    if name in db.templates then db.templates[name].codes else {}
  }

  // ---------------------------------------------------------------------------
  // The bootstrap of a tenant
  // ---------------------------------------------------------------------------

  predicate IsDefault(templates: map<Name, TemplateRow>, name: Name) {
    name in templates && templates[name].isDefault
  }

  /** One live system role for each default template, with its permissions, and nothing else. */
  ghost predicate Clones(templates: map<Name, TemplateRow>, slug: Slug, added: seq<Role>) {
    && (forall i :: 0 <= i < |added| ==>
          IsDefault(templates, added[i].name) &&
            added[i] == Role(slug, added[i].name, true, true, templates[added[i].name].codes))
    && (forall i, j :: 0 <= i < j < |added| ==> added[i].name != added[j].name)
    && (forall name :: IsDefault(templates, name) ==> exists i :: 0 <= i < |added| && added[i].name == name)
  }

  ghost predicate Bootstrapped(db: Db, db': Db, slug: Slug) {
    && slug !in db.tenants && IsDefault(db.templates, SUPER_ADMIN)
    && db'.permissions == db.permissions && db'.templates == db.templates && db'.tenants == db.tenants + {slug}
    && exists added: seq<Role> :: Clones(db.templates, slug, added) && db'.roles == db.roles + added
  }

  /** The default templates of the database are templates of the code, with the same codes. */
  ghost predicate DefaultsMatch(cat: Catalogue, db: Db) {
    forall name :: IsDefault(db.templates, name) ==>
      HasTemplate(cat, name) && db.templates[name].codes == CodesOf(cat, name)
  }

  /**
   * A new tenant leaves the gate green exactly when every role was all right before it, and
   * the templates it is cloned from are those of the code; one tenant is enough, with the
   * first one too.
   */
  lemma BootstrapAndGate(cat: Catalogue, db: Db, db': Db, slug: Slug)
    requires Bootstrapped(db, db', slug)
    ensures Green(cat, db') <==> CatalogueIn(cat, db) && RolesMatch(cat, db) && DefaultsMatch(cat, db)
  {
    var added: seq<Role> :| Clones(db.templates, slug, added) && db'.roles == db.roles + added;
    var k :| 0 <= k < |added| && added[k].name == SUPER_ADMIN;
    assert db'.roles[|db.roles| + k] == added[k] && added[k].live;
    forall r ensures r in db'.roles <==> r in db.roles || r in added {
    }
    if RolesMatch(cat, db') {
      forall name | IsDefault(db.templates, name)
        ensures HasTemplate(cat, name) && db.templates[name].codes == CodesOf(cat, name)
      {
        var i :| 0 <= i < |added| && added[i].name == name;
        assert added[i] in db'.roles && RoleMatches(cat, added[i]);
      }
    }
    if RolesMatch(cat, db) && DefaultsMatch(cat, db) {
      forall r | r in db'.roles ensures RoleMatches(cat, r) {
        if r !in db.roles {
          var i :| 0 <= i < |added| && added[i] == r;
          assert IsDefault(db.templates, r.name);
        }
      }
    }
  }

  lemma BootstrapKeepsDb(db: Db, db': Db, slug: Slug)
    requires Bootstrapped(db, db', slug) && DbOk(db)
    ensures DbOk(db')
  {
    var added: seq<Role> :| Clones(db.templates, slug, added) && db'.roles == db.roles + added;
    forall i | 0 <= i < |db'.roles|
      ensures (db'.roles[i].tenant == slug <==> i >= |db.roles|) && db'.roles[i].tenant in db'.tenants
    {
      if i < |db.roles| {
        assert db.roles[i] in db.roles;
      } else {
        assert db'.roles[i] == added[i - |db.roles|];
      }
    }
  }

  ghost predicate Chain(dbs: seq<Db>, slugs: seq<Slug>) {
    |dbs| == |slugs| + 1 && forall i :: 0 <= i < |slugs| ==> Bootstrapped(dbs[i], dbs[i + 1], slugs[i])
  }

  /** Any number of tenants, one after the other. */
  lemma {:induction false} BootstrapsKeepGreen(cat: Catalogue, dbs: seq<Db>, slugs: seq<Slug>)
    requires Chain(dbs, slugs) && Green(cat, dbs[0]) && DefaultsMatch(cat, dbs[0]) && DbOk(dbs[0])
    ensures Green(cat, dbs[|slugs|]) && DbOk(dbs[|slugs|])
    ensures dbs[|slugs|].permissions == dbs[0].permissions && dbs[|slugs|].templates == dbs[0].templates
    decreases |slugs|
  {
    if slugs == [] {
    } else {
      assert Bootstrapped(dbs[0], dbs[1], slugs[0]);
      BootstrapAndGate(cat, dbs[0], dbs[1], slugs[0]);
      BootstrapKeepsDb(dbs[0], dbs[1], slugs[0]);
      BootstrapsKeepGreen(cat, dbs[1..], slugs[1..]);
    }
  }

  // ---------------------------------------------------------------------------
  // The remedy
  // ---------------------------------------------------------------------------

  /** The INSERT ... SELECT of the remedy: guided by the templates of the database. */
  function Reconciled(db: Db, r: Role): Role {
    if r.live && r.isSystem then r.(codes := r.codes + CodesIn(db, r.name)) else r
  }

  function Remedied(db: Db): Db {
    db.(roles := seq(|db.roles|, i requires 0 <= i < |db.roles| => Reconciled(db, db.roles[i])))
  }

  /**
   * What the remedy writes: every live system role gets the codes of its namesake template in
   * the database on top of its own; other roles, and all the rest, stay as they are.
   */
  lemma RemedyWrites(db: Db)
    ensures
      var after := Remedied(db);
      && after == db.(roles := after.roles) && |after.roles| == |db.roles|
      && forall i :: 0 <= i < |db.roles| ==>
           var was, now := db.roles[i], after.roles[i];
           && now.tenant == was.tenant && now.name == was.name && now.isSystem == was.isSystem && now.live == was.live
           && (!(was.live && was.isSystem) ==> now == was)
           && (forall c :: c in now.codes <==>
                 || c in was.codes
                 || (was.live && was.isSystem && was.name in db.templates && c in db.templates[was.name].codes))
  {
    forall i | 0 <= i < |db.roles| ensures Remedied(db).roles[i] == Reconciled(db, db.roles[i]) {
    }
  }

  lemma RemedyIsIdempotent(db: Db)
    ensures Remedied(Remedied(db)) == Remedied(db)
  {
    var once := Remedied(db);
    forall i | 0 <= i < |db.roles| ensures Remedied(once).roles[i] == once.roles[i] {
      assert once.roles[i] == Reconciled(db, db.roles[i]);
    }
  }

  lemma RemediedRoles(db: Db, r: Role)
    ensures r in db.roles ==> Reconciled(db, r) in Remedied(db).roles
    ensures r in Remedied(db).roles ==> exists q :: q in db.roles && r == Reconciled(db, q)
  {
    if r in db.roles {
      var i :| 0 <= i < |db.roles| && db.roles[i] == r;
      assert Remedied(db).roles[i] == Reconciled(db, r);
    }
    if r in Remedied(db).roles {
      var i :| 0 <= i < |db.roles| && Remedied(db).roles[i] == r;
      assert db.roles[i] in db.roles && r == Reconciled(db, db.roles[i]);
    }
  }

  /** Once the catalogue is in the database, the remedy leaves nothing missing. */
  lemma RemedyFillsC2(cat: Catalogue, db: Db)
    requires CatalogueIn(cat, db)
    ensures Missing(cat, Remedied(db)) == {}
  {
    forall r, c | r in Remedied(db).roles && InScope(cat, r) && c in CodesOf(cat, r.name) ensures c in r.codes {
      RemediedRoles(db, r);
      var q :| q in db.roles && r == Reconciled(db, q);
      var t :| t in cat.templates && t.name == r.name && c in t.permissionCodes;
    }
  }

  /** A template of the database still grants what the code no longer does, and the role lacks it. */
  predicate HasResidue(cat: Catalogue, db: Db, r: Role) {
    InScope(cat, r) && exists c :: c in CodesIn(db, r.name) && c !in CodesOf(cat, r.name) && c !in r.codes
  }

  /**
   * The remedy adds to C3 exactly when some role in scope would get a leftover of its
   * template, which C1-bis only reports.
   */
  lemma RemedyAndC3(cat: Catalogue, db: Db)
    requires DbOk(db)
    ensures Excess(cat, db) <= Excess(cat, Remedied(db))
    ensures Excess(cat, Remedied(db)) == Excess(cat, db) <==> forall r :: r in db.roles ==> !HasResidue(cat, db, r)
  {
    var db' := Remedied(db);
    forall f | f in Excess(cat, db) ensures f in Excess(cat, db') {
      var r, c :| r in db.roles && InScope(cat, r) && c in r.codes && c !in CodesOf(cat, r.name) &&
        f == Finding(r.tenant, r.name, c);
      RemediedRoles(db, r);
      assert Reconciled(db, r) in db'.roles && c in Reconciled(db, r).codes;
    }
    if forall r :: r in db.roles ==> !HasResidue(cat, db, r) {
      forall f | f in Excess(cat, db') ensures f in Excess(cat, db) {
        var r, c :| r in db'.roles && InScope(cat, r) && c in r.codes && c !in CodesOf(cat, r.name) &&
          f == Finding(r.tenant, r.name, c);
        RemediedRoles(db, r);
        var q :| q in db.roles && r == Reconciled(db, q);
        assert !HasResidue(cat, db, q);
        assert c in q.codes;
      }
    }
    if r :| r in db.roles && HasResidue(cat, db, r) {
      ResidueIsExcess(cat, db, r);
    }
  }

  lemma ResidueIsExcess(cat: Catalogue, db: Db, r: Role)
    requires DbOk(db) && r in db.roles && HasResidue(cat, db, r)
    ensures Excess(cat, Remedied(db)) != Excess(cat, db)
  {
    var c :| c in CodesIn(db, r.name) && c !in CodesOf(cat, r.name) && c !in r.codes;
    var f := Finding(r.tenant, r.name, c);
    RemediedRoles(db, r);
    assert Reconciled(db, r) in Remedied(db).roles && InScope(cat, Reconciled(db, r)) && c in Reconciled(db, r).codes;
    assert f in Excess(cat, Remedied(db));
    forall q | q in db.roles && InScope(cat, q) && q.tenant == r.tenant && q.name == r.name ensures q == r {
      var i :| 0 <= i < |db.roles| && db.roles[i] == r;
      var j :| 0 <= j < |db.roles| && db.roles[j] == q;
    }
  }

  /** The roles outside the boundary of the gate stay there. */
  lemma RemedyAndC4(cat: Catalogue, db: Db)
    ensures Unreconcilable(cat, Remedied(db)) == {} <==> Unreconcilable(cat, db) == {}
  {
    var db' := Remedied(db);
    if r :| r in Unreconcilable(cat, db) {
      RemediedRoles(db, r);
      assert Reconciled(db, r) in Unreconcilable(cat, db');
    }
    if r :| r in Unreconcilable(cat, db') {
      RemediedRoles(db, r);
      var q :| q in db.roles && r == Reconciled(db, q);
      assert q in Unreconcilable(cat, db);
    }
  }

  /** When the remedy brings the gate back to green, for any database. */
  lemma RemedyRestoresGreen(cat: Catalogue, db: Db)
    requires DbOk(db) && CatalogueIn(cat, db) && AnyLive(db)
    ensures Green(cat, Remedied(db)) <==>
      Excess(cat, db) == {} && Unreconcilable(cat, db) == {} && forall r :: r in db.roles ==> !HasResidue(cat, db, r)
  {
    var db' := Remedied(db);
    GreenIsEveryCheck(cat, db');
    RemedyFillsC2(cat, db);
    RemedyAndC3(cat, db);
    RemedyAndC4(cat, db);
    var r :| r in db.roles && r.live;
    RemediedRoles(db, r);
    assert Reconciled(db, r).live;
    assert CatalogueIn(cat, db');
  }

  // ---------------------------------------------------------------------------
  // A deploy
  // ---------------------------------------------------------------------------

  /** The templates of the database are those of the code. */
  ghost predicate TemplatesEqual(cat: Catalogue, db: Db) {
    forall name :: (name in db.templates <==> HasTemplate(cat, name)) &&
      (name in db.templates ==> db.templates[name].codes == CodesOf(cat, name))
  }

  /** The catalogue has grown: what was there is still there. */
  ghost predicate Grows(cat: Catalogue, cat': Catalogue) {
    && (forall c :: c in cat.permissions ==> c in cat'.permissions)
    && (forall name :: HasTemplate(cat, name) ==> HasTemplate(cat', name) && CodesOf(cat, name) <= CodesOf(cat', name))
  }

  /** The (tenant, role, code) triples that are new with the new catalogue. */
  function NewTriples(cat: Catalogue, cat': Catalogue, db: Db): set<Finding> {
    set r, c | r in db.roles && r.live && c in CodesOf(cat', r.name) &&
      c !in CodesOf(cat, r.name) :: Finding(r.tenant, r.name, c)
  }

  lemma SeedEqualsCode(cat: Catalogue, cat': Catalogue, db: Db)
    requires Grows(cat, cat') && TemplatesEqual(cat, db)
    ensures CatalogueIn(cat', Seeded(cat', db)) && TemplatesEqual(cat', Seeded(cat', db)) &&
      DefaultsMatch(cat', Seeded(cat', db))
  {
    var db' := Seeded(cat', db);
    forall name ensures name in db'.templates <==> HasTemplate(cat', name) {
      if name in db.templates {
        assert HasTemplate(cat, name);
      }
    }
    forall name | name in db'.templates ensures db'.templates[name].codes == CodesOf(cat', name) {
      assert HasTemplate(cat', name);
      assert CodesIn(db, name) <= CodesOf(cat', name) by {
        if name in db.templates {
          assert HasTemplate(cat, name) && db.templates[name].codes == CodesOf(cat, name);
        }
      }
    }
    forall t, c | t in cat'.templates && c in t.permissionCodes
      ensures t.name in db'.templates && c in db'.templates[t.name].codes
    {
      assert HasTemplate(cat', t.name) && c in CodesOf(cat', t.name);
    }
  }

  /** After the seed of a grown catalogue C2 lists exactly the new triples, and nothing else is wrong. */
  lemma SeedMakesC2(cat: Catalogue, cat': Catalogue, db: Db)
    requires Grows(cat, cat') && TemplatesEqual(cat, db) && RolesMatch(cat, db)
    ensures
      var db' := Seeded(cat', db);
      Missing(cat', db') == NewTriples(cat, cat', db) && Excess(cat', db') == {} && Unreconcilable(cat', db') == {}
  {
    var db' := Seeded(cat', db);
    assert db'.roles == db.roles;
    forall r | r in db.roles && r.live
      ensures InScope(cat', r) && r.codes == CodesOf(cat, r.name) <= CodesOf(cat', r.name)
    {
      assert RoleMatches(cat, r);
    }
    forall f ensures f in Missing(cat', db') <==> f in NewTriples(cat, cat', db) {
      if f in Missing(cat', db') {
        var r, c :| r in db.roles && InScope(cat', r) && c in CodesOf(cat', r.name) && c !in r.codes &&
          f == Finding(r.tenant, r.name, c);
        assert f in NewTriples(cat, cat', db);
      }
      if f in NewTriples(cat, cat', db) {
        var r, c :| r in db.roles && r.live && c in CodesOf(cat', r.name) && c !in CodesOf(cat, r.name) &&
          f == Finding(r.tenant, r.name, c);
        assert f in Missing(cat', db');
      }
    }
  }

  /**
   * The whole sequence: green with the old catalogue, any number of tenants, seed of the
   * new one, remedy. Green again, C3 untouched all along, and a second remedy does nothing.
   */
  lemma DeployEndsGreen(cat: Catalogue, cat': Catalogue, dbs: seq<Db>, slugs: seq<Slug>)
    requires Chain(dbs, slugs) && Green(cat, dbs[0]) && TemplatesEqual(cat, dbs[0]) && DbOk(dbs[0]) && Grows(cat, cat')
    ensures
      var seeded := Seeded(cat', dbs[|slugs|]);
      && Green(cat, dbs[|slugs|])
      && Missing(cat', seeded) == NewTriples(cat, cat', dbs[|slugs|])
      && Excess(cat', seeded) == Excess(cat', Remedied(seeded)) == {}
      && Green(cat', Remedied(seeded)) && Remedied(Remedied(seeded)) == Remedied(seeded)
  {
    var db := dbs[|slugs|];
    BootstrapsKeepGreen(cat, dbs, slugs);
    var seeded := Seeded(cat', db);
    SeedEqualsCode(cat, cat', db);
    SeedMakesC2(cat, cat', db);
    RemedyIsIdempotent(seeded);
    forall r | r in seeded.roles ensures !HasResidue(cat', seeded, r) {
    }
    RemedyAndC3(cat', seeded);
    RemedyRestoresGreen(cat', seeded);
  }

  // ---------------------------------------------------------------------------
  // Seed and bootstrap, step by step
  // ---------------------------------------------------------------------------

  /** The pairs (template, code) of the first templates of the catalogue. */
  function Pairs(templates: seq<Template>): set<(Name, Code)> {
    set t, c | t in templates && c in t.permissionCodes :: (t.name, c)
  }

  function CodesAt(pairs: set<(Name, Code)>, name: Name): set<Code> {
    set p | p in pairs && p.0 == name :: p.1
  }

  /** Templates upserted by name, with these mappings upserted so far. */
  function Upserted(templates: map<Name, TemplateRow>, names: set<Name>, pairs: set<(Name, Code)>)
    : map<Name, TemplateRow>
  {
    map name | name in templates.Keys + names ::
      if name in names then TemplateRow(true,
        (if name in templates then templates[name].codes else {}) + CodesAt(pairs, name))
      else templates[name]
  }

  lemma UpsertedOne(templates: map<Name, TemplateRow>, names: set<Name>, pairs: set<(Name, Code)>, name: Name, c: Code)
    requires name in names
    ensures
      var now := Upserted(templates, names, pairs);
      Upserted(templates, names, pairs + {(name, c)}) == now[name := now[name].(codes := now[name].codes + {c})]
  {
    var now, next := Upserted(templates, names, pairs), Upserted(templates, names, pairs + {(name, c)});
    forall other | other in next ensures next[other] == now[name := now[name].(codes := now[name].codes + {c})][other] {
      var more := if other == name then CodesAt(pairs, other) + {c} else CodesAt(pairs, other);
      assert CodesAt(pairs + {(name, c)}, other) == more by {
        assert (name, c) in pairs + {(name, c)} && (name, c).1 == c;
      }
    }
  }

  lemma UpsertedName(templates: map<Name, TemplateRow>, names: set<Name>, name: Name)
    ensures
      var now := Upserted(templates, names, {});
      Upserted(templates, names + {name}, {}) ==
        now[name := TemplateRow(true, if name in now then now[name].codes else {})]
  {
    var now := Upserted(templates, names, {});
    var expected := now[name := TemplateRow(true, if name in now then now[name].codes else {})];
    forall other | other in expected ensures Upserted(templates, names + {name}, {})[other] == expected[other] {
      assert CodesAt({}, other) == {};
    }
  }

  lemma UpsertedAll(cat: Catalogue, db: Db)
    ensures Upserted(db.templates, TemplateNames(cat), Pairs(cat.templates)) == Seeded(cat, db).templates
  {
    forall name ensures CodesAt(Pairs(cat.templates), name) == CodesOf(cat, name) {
      forall c | c in CodesOf(cat, name) ensures c in CodesAt(Pairs(cat.templates), name) {
        assert (name, c) in Pairs(cat.templates) && (name, c).1 == c;
      }
    }
    forall name ensures name in TemplateNames(cat) <==> HasTemplate(cat, name) {
    }
  }

  datatype BootstrapError = SlugExists | SuperAdminMissing

  class Database {
    var permissions: set<Code>
    var templates: map<Name, TemplateRow>
    var tenants: set<Slug>
    var roles: seq<Role>

    ghost function View(): Db
      reads this
    {
      Db(permissions, templates, tenants, roles)
    }

    constructor ()
      ensures View() == Db({}, map[], {}, []) && DbOk(View())
    {
      permissions, templates, tenants, roles := {}, map[], {}, [];
    }

    method SeedPermissions(cat: Catalogue)
      modifies `permissions
      ensures permissions == old(permissions) + ToSet(cat.permissions)
    {
      for i := 0 to |cat.permissions|
        invariant permissions == old(permissions) + ToSet(cat.permissions[..i])
      {
        permissions := permissions + {cat.permissions[i]};
      }
      assert cat.permissions[..|cat.permissions|] == cat.permissions;
    }

    method SeedTemplates(cat: Catalogue)
      modifies `templates
      ensures templates == Upserted(old(templates), TemplateNames(cat), {})
    {
      var names: set<Name> := {};
      for i := 0 to |cat.templates|
        invariant names == set t | t in cat.templates[..i] :: t.name
        invariant templates == Upserted(old(templates), names, {})
      {
        var name := cat.templates[i].name;
        assert forall t :: t in cat.templates[..i + 1] <==> t in cat.templates[..i] || t == cat.templates[i];
        UpsertedName(old(templates), names, name);
        var codes := if name in templates then templates[name].codes else {};
        templates := templates[name := TemplateRow(true, codes)];
        names := names + {name};
      }
      assert cat.templates[..|cat.templates|] == cat.templates;
    }

    /** One upsert of a mapping. */
    method UpsertMapping(name: Name, code: Code, ghost was: map<Name, TemplateRow>, ghost names: set<Name>,
        ghost pairs: set<(Name, Code)>)
      requires name in names && templates == Upserted(was, names, pairs)
      modifies `templates
      ensures templates == Upserted(was, names, pairs + {(name, code)})
    {
      UpsertedOne(was, names, pairs, name, code);
      templates := templates[name := templates[name].(codes := templates[name].codes + {code})];
    }

    /** The mappings of one template, until a code that is nowhere. */
    method SeedMappings(t: Template, ghost was: map<Name, TemplateRow>, ghost names: set<Name>,
        ghost pairs: set<(Name, Code)>)
      returns (r: Result<(), Code>, ghost written: set<(Name, Code)>)
      requires t.name in names && templates == Upserted(was, names, pairs)
      modifies `templates
      ensures r.Ok? <==> forall c :: c in t.permissionCodes ==> c in permissions
      ensures templates == Upserted(was, names, written)
      ensures r.Ok? ==> written == pairs + Pairs([t])
    {
      r := Ok(());
      written := pairs;
      NoPairs(pairs, t);
      var j := 0;
      while j < |t.permissionCodes| && r.Ok?
        invariant j <= |t.permissionCodes| && written == PairsUpTo(pairs, t, j)
        invariant templates == Upserted(was, names, written)
        invariant if r.Ok? then forall k :: 0 <= k < j ==> t.permissionCodes[k] in permissions
                  else exists k :: 0 <= k < |t.permissionCodes| && t.permissionCodes[k] !in permissions
        decreases |t.permissionCodes| - j, r.Ok?
      {
        if t.permissionCodes[j] !in permissions {
          r := Err(t.permissionCodes[j]);
        } else {
          UpsertMapping(t.name, t.permissionCodes[j], was, names, written);
          PairsGrow(pairs, t, j);
          written := written + {(t.name, t.permissionCodes[j])};
          j := j + 1;
        }
      }
      if r.Ok? { AllPairs(pairs, t); }
    }

    /** All of them. */
    method SeedAllMappings(cat: Catalogue, ghost was: map<Name, TemplateRow>)
        returns (r: Result<(), Code>, ghost written: set<(Name, Code)>)
      requires templates == Upserted(was, TemplateNames(cat), {})
      modifies `templates
      ensures r.Ok? <==> forall t, c :: t in cat.templates && c in t.permissionCodes ==> c in permissions
      ensures templates == Upserted(was, TemplateNames(cat), written) && (r.Ok? ==> written == Pairs(cat.templates))
    {
      ghost var names := TemplateNames(cat);
      written := {};
      for i := 0 to |cat.templates|
        invariant written == Pairs(cat.templates[..i]) && templates == Upserted(was, names, written)
        invariant forall t, c :: t in cat.templates[..i] && c in t.permissionCodes ==> c in permissions
      {
        var t := cat.templates[i];
        assert t in cat.templates && t.name in names;
        r, written := SeedMappings(t, was, names, written);
        if r.Err? { return; }
        PairsOfPrefix(cat.templates, i);
      }
      assert cat.templates[..|cat.templates|] == cat.templates;
      r := Ok(());
    }

    /** The upsert loops; an unknown code stops the seed, and what was written stays. */
    method Seed(cat: Catalogue) returns (r: Result<(), Code>, ghost written: set<(Name, Code)>)
      modifies this
      ensures r.Ok? <==> Seedable(cat, old(View()))
      ensures r.Ok? ==> View() == Seeded(cat, old(View()))
      ensures permissions == old(permissions) + ToSet(cat.permissions) && tenants == old(tenants) && roles == old(roles)
      ensures templates == Upserted(old(templates), TemplateNames(cat), written)
    {
      SeedPermissions(cat);
      SeedTemplates(cat);
      r, written := SeedAllMappings(cat, old(templates));
      UpsertedAll(cat, old(View()));
      SeedableIs(cat, old(View()), permissions);
    }

    /** One role, and one row for each of its permissions. */
    method CloneTemplate(slug: Slug, name: Name) returns (role: Role)
      requires name in templates
      ensures role == Role(slug, name, true, true, templates[name].codes)
    {
      role := Role(slug, name, true, true, {});
      var left := templates[name].codes;
      while left != {}
        invariant role == Role(slug, name, true, true, templates[name].codes - left) && left <= templates[name].codes
        decreases |left|
      {
        var code :| code in left;
        role := role.(codes := role.codes + {code});
        left := left - {code};
      }
    }

    method CloneNext(slug: Slug, name: Name, ghost before: seq<Role>, ghost names: set<Name>, ghost added: seq<Role>)
      returns (ghost more: seq<Role>)
      requires roles == before + added && ClonesOf(templates, slug, names, added) && name in templates && name !in names
      modifies `roles
      ensures roles == before + more && ClonesOf(templates, slug, names + {name}, more)
    {
      var role := CloneTemplate(slug, name);
      CloneOneMore(templates, slug, names, added, name);
      more := added + [role];
      roles := roles + [role];
    }

    method CloneTemplates(slug: Slug) returns (rolesByName: set<Name>, ghost added: seq<Role>)
      modifies `roles
      ensures roles == old(roles) + added && Clones(templates, slug, added)
      ensures forall name :: name in rolesByName <==> IsDefault(templates, name)
    {
      var todo := set name | name in templates && templates[name].isDefault;
      ghost var all := todo;
      assert forall name :: IsDefault(templates, name) <==> name in all;
      rolesByName, added := {}, [];
      while todo != {}
        invariant roles == old(roles) + added && todo !! rolesByName && todo + rolesByName == all
        invariant ClonesOf(templates, slug, rolesByName, added)
        decreases |todo|
      {
        var name :| name in todo;
        added := CloneNext(slug, name, old(roles), rolesByName, added);
        assert (todo - {name}) + (rolesByName + {name}) == todo + rolesByName;
        rolesByName, todo := rolesByName + {name}, todo - {name};
      }
      assert rolesByName == all;
      ClonesAreAll(templates, slug, rolesByName, added);
    }

    /** createTenant: all or nothing. */
    method CreateTenant(slug: Slug) returns (r: Result<(), BootstrapError>)
      modifies this
      ensures r == if slug in old(tenants) then Err(SlugExists)
                   else if !IsDefault(old(templates), SUPER_ADMIN) then Err(SuperAdminMissing) else Ok(())
      ensures r.Ok? ==> Bootstrapped(old(View()), View(), slug)
      ensures r.Err? ==> View() == old(View())
    {
      if slug in tenants { return Err(SlugExists); }
      var tenantsBefore, rolesBefore := tenants, roles;
      tenants := tenants + {slug};
      var rolesByName: set<Name>;
      ghost var added: seq<Role>;
      rolesByName, added := CloneTemplates(slug);
      if SUPER_ADMIN !in rolesByName {
        tenants, roles := tenantsBefore, rolesBefore;
        return Err(SuperAdminMissing);
      }
      assert Clones(old(templates), slug, added);
      r := Ok(());
    }
  }

  /** The clones of some templates. */
  ghost predicate ClonesOf(templates: map<Name, TemplateRow>, slug: Slug, names: set<Name>, added: seq<Role>) {
    && (forall i :: 0 <= i < |added| ==>
          && added[i].name in templates && added[i].name in names
          && added[i] == Role(slug, added[i].name, true, true, templates[added[i].name].codes))
    && (forall i, j :: 0 <= i < j < |added| ==> added[i].name != added[j].name)
    && (forall name :: name in names ==> exists i :: 0 <= i < |added| && added[i].name == name)
  }

  lemma ClonesAreAll(templates: map<Name, TemplateRow>, slug: Slug, names: set<Name>, added: seq<Role>)
    requires ClonesOf(templates, slug, names, added) && forall name :: IsDefault(templates, name) <==> name in names
    ensures Clones(templates, slug, added)
  {
  }

  lemma CloneOneMore(templates: map<Name, TemplateRow>, slug: Slug, names: set<Name>, added: seq<Role>, name: Name)
    requires ClonesOf(templates, slug, names, added) && name in templates && name !in names
    ensures ClonesOf(templates, slug, names + {name}, added + [Role(slug, name, true, true, templates[name].codes)])
  {
    var after := added + [Role(slug, name, true, true, templates[name].codes)];
    forall other | other in names + {name} ensures exists i :: 0 <= i < |after| && after[i].name == other {
      if other == name {
        assert after[|added|].name == other;
      } else {
        var i :| 0 <= i < |added| && added[i].name == other;
        assert after[i].name == other;
      }
    }
  }

  lemma SeedableIs(cat: Catalogue, db: Db, permissions: set<Code>)
    requires permissions == db.permissions + ToSet(cat.permissions)
    ensures Seedable(cat, db) <==> forall t, c :: t in cat.templates && c in t.permissionCodes ==> c in permissions
  {
    if Seedable(cat, db) {
      forall t, c | t in cat.templates && c in t.permissionCodes ensures c in permissions {
      }
    } else {
      var t, c :| t in cat.templates && c in t.permissionCodes && !(c in cat.permissions || c in db.permissions);
      assert c !in permissions;
    }
  }

  lemma PairsOfPrefix(templates: seq<Template>, i: nat)
    requires i < |templates|
    ensures Pairs(templates[..i + 1]) == Pairs(templates[..i]) + Pairs([templates[i]])
    ensures forall t :: t in templates[..i + 1] <==> t in templates[..i] || t == templates[i]
  {
    assert templates[..i + 1] == templates[..i] + [templates[i]];
  }

  function PairsUpTo(pairs: set<(Name, Code)>, t: Template, j: nat): set<(Name, Code)>
    requires j <= |t.permissionCodes|
  {
    pairs + set c | c in t.permissionCodes[..j] :: (t.name, c)
  }

  lemma NoPairs(pairs: set<(Name, Code)>, t: Template)
    ensures PairsUpTo(pairs, t, 0) == pairs
  {
  }

  lemma PairsGrow(pairs: set<(Name, Code)>, t: Template, j: nat)
    requires j < |t.permissionCodes|
    ensures PairsUpTo(pairs, t, j + 1) == PairsUpTo(pairs, t, j) + {(t.name, t.permissionCodes[j])}
  {
    assert forall c :: c in t.permissionCodes[..j + 1] <==> c in t.permissionCodes[..j] || c == t.permissionCodes[j];
  }

  lemma AllPairs(pairs: set<(Name, Code)>, t: Template)
    ensures PairsUpTo(pairs, t, |t.permissionCodes|) == pairs + Pairs([t])
  {
    assert t.permissionCodes[..|t.permissionCodes|] == t.permissionCodes;
    assert t in [t];
  }
}
