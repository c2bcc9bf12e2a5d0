/**
 * The per-tenant filesystem layout of `Directory`: the tenant root, the base
 * path `root/{id}-{identifier}/`, the rename-aware old base path, the six
 * sub-directories and the `routes.php` file.  Paths are plain strings; they
 * are never normalised, and existence on disk is given as a set of paths.
 */
module TenantPaths {
  import opened Maybe
  import opened Decimal

  /** PHP truthiness of a string: only "" and "0" are falsy. */
  predicate Truthy(s: string) {
    s != "" && s != "0"
  }

  /**
   * The directory under which all tenants live: the configured
   * `multi-tenant.tenant-directory` when it is truthy, else the
   * `storage_path('multi-tenant')` fallback.
   */
  function TenantRoot(tenantDirectory: Option<string>, storagePath: string): (r: string)
    ensures tenantDirectory.Some? && Truthy(tenantDirectory.value) ==> r == tenantDirectory.value
    ensures tenantDirectory.None? || !Truthy(tenantDirectory.value) ==> r == storagePath
  {
    if tenantDirectory.Some? && Truthy(tenantDirectory.value) then tenantDirectory.value else storagePath
  }

  /** `sprintf("%s/%d-%s/", root, id, identifier)`: always a truthy path ending in a slash. */
  function TenantPath(root: string, id: int, identifier: string): (r: string)
    ensures Truthy(r)
    ensures |r| > |root| + 1 && r[..|root| + 1] == root + "/" && r[|r| - 1] == '/'
  {
    root + "/" + Dec(id) + "-" + identifier + "/"
  }

  /**
   * Under one root, distinct tenants (id and identifier) get distinct
   * directories: the id's digits end at the first dash after them, so the
   * path can be split back into id and identifier.
   */
  lemma TenantPathInjective(root: string, a: int, x: string, b: int, y: string)
    requires TenantPath(root, a, x) == TenantPath(root, b, y)
    ensures a == b && x == y
  {
    var n := |root| + 1;
    var p := TenantPath(root, a, x);
    assert p[n..|p| - 1] == Dec(a) + "-" + x;
    assert p[n..|p| - 1] == Dec(b) + "-" + y;
    DashSeparatedInjective(a, x, b, y);
  }

  /** A rename moves the tenant: the old-identifier path is never the current one. */
  lemma RenamedPathDiffers(root: string, id: int, original: string, identifier: string)
    requires original != identifier
    ensures TenantPath(root, id, original) != TenantPath(root, id, identifier)
  {
    if TenantPath(root, id, original) == TenantPath(root, id, identifier) {
      TenantPathInjective(root, id, original, id, identifier);
    }
  }

  /**
   * The old base path: the same template over the original identifier, kept
   * only when the identifier is dirty and a directory exists there.
   */
  function OldTenantPath(root: string, id: int, dirty: bool, originalIdentifier: string,
                         directories: set<string>): (r: Option<string>)
    ensures r.Some? <==> dirty && TenantPath(root, id, originalIdentifier) in directories
    ensures r.Some? ==> r.value == TenantPath(root, id, originalIdentifier) && r.value in directories
  {
    var candidate := TenantPath(root, id, originalIdentifier);
    if dirty && candidate in directories then Some(candidate) else None
  }

  /** The six fixed sub-directories of a tenant. */
  datatype Kind = Config | Views | Lang | Vendor | Cache | Media

  /** The name of a sub-directory, with its trailing slash. */
  function DirName(kind: Kind): string {
    match kind
    case Config => "config/"
    case Views => "views/"
    case Lang => "lang/"
    case Vendor => "vendor/"
    case Cache => "cache/"
    case Media => "media/"
  }

  /** `config()`, `views()`, ...: `sprintf("%sconfig/", base)` and so on when `base` is truthy, null otherwise. */
  function SubPath(base: string, kind: Kind): (r: Option<string>)
    ensures r.Some? <==> Truthy(base)
    ensures r.Some? ==> |r.value| > |base| + 1 && r.value[..|base|] == base && r.value[|r.value| - 1] == '/'
  {
    if Truthy(base) then Some(base + DirName(kind)) else None
  }

  lemma DirNamesDistinct(k1: Kind, k2: Kind)
    requires k1 != k2
    ensures DirName(k1) != DirName(k2)
  {
    var a, b := DirName(k1), DirName(k2);
    // the names already differ in their first two letters
    assert a[0] != b[0] || a[1] != b[1];
  }

  /** Every kind has its own directory, none of them the base itself. */
  lemma SubPathsDistinct(base: string, k1: Kind, k2: Kind)
    requires Truthy(base) && k1 != k2
    ensures SubPath(base, k1).value != SubPath(base, k2).value
    ensures SubPath(base, k1).value != base
  {
    var p1, p2 := SubPath(base, k1).value, SubPath(base, k2).value;
    assert p1[|base|..] == DirName(k1);
    assert p2[|base|..] == DirName(k2);
    DirNamesDistinct(k1, k2);
  }

  /**
   * `routes()`: `base + "routes.php"` when `base` is truthy and something
   * exists at that path, null otherwise.
   */
  function RoutesPath(base: string, existing: set<string>): (r: Option<string>)
    ensures r.Some? <==> Truthy(base) && base + "routes.php" in existing
    ensures r.Some? ==> r.value == base + "routes.php"
  {
    var routes := base + "routes.php";
    if Truthy(base) && routes in existing then Some(routes) else None
  }
}
