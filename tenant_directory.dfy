/**
 * The tenant directory resolver, `Directory`: it fixes a tenant's layout when
 * it is constructed, creates the tenant's directories, and registers the
 * layout into the host application.
 */
module TenantDirectory {
  import opened Maybe
  import opened Decimal
  import opened TenantPaths
  import opened ConfigRepository
  import opened HostApplication

  /** What `create()` asks to be made: the base itself or one of the sub-directories. */
  datatype Target = TenantBase | Sub(kind: Kind)

  /** The order in which `create()` visits the directories; `config` is not among them. */
  const CreateOrder: seq<Target> := [TenantBase, Sub(Views), Sub(Lang), Sub(Cache), Sub(Media), Sub(Vendor)]

  /** `$this->{$directory}()`: the path of a create target. */
  function TargetPath(base: string, t: Target): Option<string> {
    match t
    case TenantBase => Some(base)
    case Sub(k) => SubPath(base, k)
  }

  /** The paths `create()` passes to `makeDirectory`, in order. */
  function CreatePaths(base: string): seq<string> {
    [base, base + "views/", base + "lang/", base + "cache/", base + "media/", base + "vendor/"]
  }

  lemma CreatePathsFollowOrder(base: string, i: nat)
    requires Truthy(base) && i < |CreateOrder|
    ensures TargetPath(base, CreateOrder[i]) == Some(CreatePaths(base)[i])
  {
  }

  /**
   * `create()` asks for six distinct directories, and the tenant's `config`
   * directory is never one of them.
   */
  lemma CreateSkipsConfig(base: string)
    requires Truthy(base)
    ensures |CreatePaths(base)| == 6
    ensures forall i, j :: 0 <= i < j < 6 ==> CreatePaths(base)[i] != CreatePaths(base)[j]
    ensures SubPath(base, Kind.Config).value !in CreatePaths(base)
  {
    var ps := CreatePaths(base);
    var kinds := [Views, Lang, Cache, Media, Vendor];
    forall i | 1 <= i < 6
      ensures ps[i] == SubPath(base, kinds[i - 1]).value
      ensures ps[0] != ps[i] && SubPath(base, Kind.Config).value != ps[i]
    {
      SubPathsDistinct(base, kinds[i - 1], Kind.Config);
    }
    assert SubPath(base, Kind.Config).value != ps[0] by {
      SubPathsDistinct(base, Kind.Config, Views);
    }
    forall i, j | 1 <= i < j < 6 ensures ps[i] != ps[j] {
      SubPathsDistinct(base, kinds[i - 1], kinds[j - 1]);
    }
  }

  /** How many of `paths` `makeDirectory` reports as created. */
  function Succeeded(makeDirectory: string -> bool, paths: seq<string>): (n: nat)
    ensures n <= |paths|
  {
    if paths == [] then 0
    else Succeeded(makeDirectory, paths[..|paths| - 1]) + (if makeDirectory(paths[|paths| - 1]) then 1 else 0)
  }

  /** The count reaches the number of attempts iff every attempt succeeded. */
  lemma {:induction false} SucceededAll(makeDirectory: string -> bool, paths: seq<string>)
    ensures Succeeded(makeDirectory, paths) == |paths| <==> forall i :: 0 <= i < |paths| ==> makeDirectory(paths[i])
  {
    if paths != [] {
      var init := paths[..|paths| - 1];
      SucceededAll(makeDirectory, init);
      assert forall i :: 0 <= i < |init| ==> init[i] == paths[i];
    }
  }

  /**
   * The host after `registerPaths`: nothing changes unless the base is truthy;
   * otherwise, in order, the views location is added, the config files are
   * merged, the vendor directory is added, the cache prefix gets `-id`, and an
   * existing `routes.php` is loaded once.
   */
  function RegisteredState(h: HostState, base: string, id: int, existing: set<string>,
                           files: seq<ConfigFile>): (r: HostState)
    ensures !Truthy(base) ==> r == h
    ensures Truthy(base) ==> r.viewLocations == h.viewLocations + [base + "views/"]
    ensures Truthy(base) ==> r.vendorDirectories == WithVendorDirectory(h, base + "vendor/").vendorDirectories
    ensures Truthy(base) ==>
              r.requiredFiles == h.requiredFiles + (if base + "routes.php" in existing then {base + "routes.php"} else {})
  {
    if !Truthy(base) then h
    else RoutesStage(CacheStage(VendorStage(ConfigStage(ViewsStage(h, base), base, files), base), id), base, existing)
  }

  /** `if ($this->views()) $app['view']->addLocation($this->views())`. */
  function ViewsStage(h: HostState, base: string): (r: HostState)
    ensures r.vendorDirectories == h.vendorDirectories && r.requiredFiles == h.requiredFiles
    ensures Truthy(base) ==> r.viewLocations == h.viewLocations + [base + "views/"]
  {
    var views := SubPath(base, Views);
    if views.Some? then WithViewLocation(h, views.value) else h
  }

  /** The loop over the files of `config()`. */
  function ConfigStage(h: HostState, base: string, files: seq<ConfigFile>): (r: HostState)
    ensures r.viewLocations == h.viewLocations && r.vendorDirectories == h.vendorDirectories
    ensures r.requiredFiles == h.requiredFiles
  {
    if SubPath(base, Kind.Config).Some? then h.(config := MergeFiles(h.config, files)) else h
  }

  /** `if ($this->vendor()) ClassLoader::addDirectories([$this->vendor()])`. */
  function VendorStage(h: HostState, base: string): (r: HostState)
    ensures r.viewLocations == h.viewLocations && r.requiredFiles == h.requiredFiles
    ensures Truthy(base) ==> r.vendorDirectories == WithVendorDirectory(h, base + "vendor/").vendorDirectories
  {
    var vendor := SubPath(base, Vendor);
    if vendor.Some? then WithVendorDirectory(h, vendor.value) else h
  }

  function CacheStage(h: HostState, id: int): (r: HostState)
    ensures r.viewLocations == h.viewLocations && r.vendorDirectories == h.vendorDirectories
    ensures r.requiredFiles == h.requiredFiles
  {
    h.(config := AppendCachePrefix(h.config, id))
  }

  /** `if ($this->routes()) File::requireOnce($this->routes())`. */
  function RoutesStage(h: HostState, base: string, existing: set<string>): (r: HostState)
    ensures r.viewLocations == h.viewLocations && r.vendorDirectories == h.vendorDirectories
    ensures Truthy(base) ==>
              r.requiredFiles == h.requiredFiles + (if base + "routes.php" in existing then {base + "routes.php"} else {})
  {
    var routes := RoutesPath(base, existing);
    if routes.Some? then WithRequired(h, routes.value) else h
  }

  /**
   * Every configuration entry other than `cache.prefix` ends up as the merge
   * reference says: the host's value if it had one, else the earliest tenant
   * file's.
   */
  lemma RegisteredConfigLookup(h: HostState, base: string, id: int, existing: set<string>,
                               files: seq<ConfigFile>, ns: string, key: string)
    requires Truthy(base)
    requires ns != "cache" || key != "prefix"
    ensures Lookup(RegisteredState(h, base, id, existing, files).config, ns, key) == Expected(h.config, files, ns, key)
  {
    var merged := MergeFiles(h.config, files);
    MergeFilesLookup(h.config, files, ns, key);
    assert RegisteredState(h, base, id, existing, files).config == AppendCachePrefix(merged, id);
    if ns != "cache" {
      if ns in merged {
        assert Lookup(AppendCachePrefix(merged, id), ns, key) == Lookup(merged, ns, key);
      }
    }
  }

  /**
   * `cache.prefix` is rewritten once: whatever the merged configuration holds
   * there (the host's prefix if it had one), followed by `-` and the id.
   */
  lemma RegisteredCachePrefix(h: HostState, base: string, id: int, existing: set<string>,
                              files: seq<ConfigFile>)
    requires Truthy(base)
    ensures var before := Expected(h.config, files, "cache", "prefix");
            Get(RegisteredState(h, base, id, existing, files).config, "cache", "prefix")
            == Str(PhpString(if before.Some? then before.value else Null) + "-" + Dec(id))
    ensures Lookup(h.config, "cache", "prefix").Some? ==>
              Get(RegisteredState(h, base, id, existing, files).config, "cache", "prefix")
              == Str(PhpString(Lookup(h.config, "cache", "prefix").value) + "-" + Dec(id))
  {
    MergeFilesLookup(h.config, files, "cache", "prefix");
    assert RegisteredState(h, base, id, existing, files).config == AppendCachePrefix(MergeFiles(h.config, files), id);
  }

  /**
   * Registration adds namespaces only for the tenant's config files and for
   * `cache`; a namespace no file names is left alone.
   */
  lemma RegisteredNamespaces(h: HostState, base: string, id: int, existing: set<string>,
                             files: seq<ConfigFile>, ns: string)
    requires Truthy(base)
    ensures ns in RegisteredState(h, base, id, existing, files).config <==>
              ns in h.config || ns == "cache" || exists i :: 0 <= i < |files| && files[i].name == ns
    ensures ns in h.config && ns != "cache" && (forall i :: 0 <= i < |files| ==> files[i].name != ns) ==>
              RegisteredState(h, base, id, existing, files).config[ns] == h.config[ns]
  {
    MergeFilesNamespaces(h.config, files, ns);
    assert RegisteredState(h, base, id, existing, files).config == AppendCachePrefix(MergeFiles(h.config, files), id);
    if ns in h.config && ns != "cache" && (forall i :: 0 <= i < |files| ==> files[i].name != ns) {
      MergeFilesOtherNamespaces(h.config, files, ns);
    }
  }

  class Directory {
    const id: int
    const identifier: string
    const basePath: string
    const oldPath: Option<string>
    /** The paths that are directories on disk, and the other paths that exist. */
    const directories: set<string>
    const files: set<string>

    ghost const root: string
    ghost const dirty: bool
    ghost const originalIdentifier: string

    ghost predicate Valid() {
      && basePath == TenantPath(root, id, identifier)
      && oldPath == OldTenantPath(root, id, dirty, originalIdentifier, directories)
    }

    constructor (id: int, identifier: string, isDirty: bool, originalIdentifier: string,
                 tenantDirectory: Option<string>, storagePath: string,
                 directories: set<string>, files: set<string>)
      ensures Valid()
      ensures this.id == id && this.identifier == identifier && dirty == isDirty
      ensures this.originalIdentifier == originalIdentifier
      ensures this.directories == directories && this.files == files
      ensures root == TenantRoot(tenantDirectory, storagePath)
      ensures Base() == root + "/" + Dec(id) + "-" + identifier + "/"
      ensures OldBase() == (var p := root + "/" + Dec(id) + "-" + originalIdentifier + "/";
                            if isDirty && p in directories then Some(p) else None)
    {
      this.id := id;
      this.identifier := identifier;
      this.directories := directories;
      this.files := files;
      var old_path: Option<string> := None;
      if isDirty {
        old_path := Some(TenantPath(TenantRoot(tenantDirectory, storagePath), id, originalIdentifier));
        if old_path.value !in directories {
          old_path := None;
        }
      }
      oldPath := old_path;
      basePath := TenantPath(TenantRoot(tenantDirectory, storagePath), id, identifier);
      root := TenantRoot(tenantDirectory, storagePath);
      dirty := isDirty;
      this.originalIdentifier := originalIdentifier;
    }

    /** `base()`: the tenant's directory, always truthy. */
    function Base(): (r: string)
      requires Valid()
      ensures r == root + "/" + Dec(id) + "-" + identifier + "/"
      ensures Truthy(r)
    {
      basePath
    }

    /**
     * The directory of the tenant's previous identifier, present only when the
     * identifier is dirty and that directory exists.
     */
    function OldBase(): (r: Option<string>)
      requires Valid()
      ensures r.Some? <==> dirty && TenantPath(root, id, originalIdentifier) in directories
      ensures r.Some? ==> r.value == TenantPath(root, id, originalIdentifier)
    {
      oldPath
    }

    /** After a real rename the old base is never the current base. */
    lemma OldBaseIsNotBase()
      requires Valid() && OldBase().Some? && originalIdentifier != identifier
      ensures OldBase().value != Base()
    {
      RenamedPathDiffers(root, id, originalIdentifier, identifier);
    }

    function Config(): (r: Option<string>)
      requires Valid()
      ensures r == Some(Base() + "config/")
    {
      SubPath(basePath, Kind.Config)
    }

    function Views(): (r: Option<string>)
      requires Valid()
      ensures r == Some(Base() + "views/")
    {
      SubPath(basePath, Kind.Views)
    }

    function Lang(): (r: Option<string>)
      requires Valid()
      ensures r == Some(Base() + "lang/")
    {
      SubPath(basePath, Kind.Lang)
    }

    function Vendor(): (r: Option<string>)
      requires Valid()
      ensures r == Some(Base() + "vendor/")
    {
      SubPath(basePath, Kind.Vendor)
    }

    function Cache(): (r: Option<string>)
      requires Valid()
      ensures r == Some(Base() + "cache/")
    {
      SubPath(basePath, Kind.Cache)
    }

    function Media(): (r: Option<string>)
      requires Valid()
      ensures r == Some(Base() + "media/")
    {
      SubPath(basePath, Kind.Media)
    }

    /** The tenant's `routes.php`, present iff a file or directory exists at that path. */
    function Routes(): (r: Option<string>)
      requires Valid()
      ensures r.Some? <==> Base() + "routes.php" in files + directories
      ensures r.Some? ==> r.value == Base() + "routes.php"
    {
      RoutesPath(basePath, files + directories)
    }

    /**
     * `create()`: asks `makeDirectory` for the base and five sub-directories,
     * in order, and reports whether all six were created.
     */
    method Create(makeDirectory: string -> bool) returns (created: bool, attempts: seq<string>)
      requires Valid()
      ensures attempts == CreatePaths(Base())
      ensures created <==> forall i :: 0 <= i < |attempts| ==> makeDirectory(attempts[i])
    {
      var done := 0;
      var i, last := 0, -1;
      attempts := [];
      while i < |CreateOrder|
        invariant 0 <= i <= |CreateOrder| && last == i - 1
        invariant attempts == CreatePaths(basePath)[..i]
        invariant done == Succeeded(makeDirectory, attempts)
      {
        var path := TargetPath(basePath, CreateOrder[i]);
        CreatePathsFollowOrder(basePath, i);
        if makeDirectory(path.value) {
          done := done + 1;
        }
        assert (attempts + [path.value])[..|attempts|] == attempts;
        attempts := attempts + [path.value];
        last := i;
        i := i + 1;
      }
      SucceededAll(makeDirectory, attempts);
      created := done == last + 1;
    }

    /**
     * `registerPaths($app)`: wires the tenant's layout into the host and
     * returns this same object.
     */
    method RegisterPaths(app: Host, configFiles: seq<ConfigFile>) returns (self: Directory)
      requires Valid()
      modifies app
      ensures self == this
      ensures app.State() == RegisteredState(old(app.State()), Base(), id, files + directories, configFiles)
    {
      if Truthy(Base()) {
        ghost var h0 := app.State();
        if Views().Some? {
          app.AddLocation(Views().value);
        }
        ghost var h1 := app.State();
        assert h1 == ViewsStage(h0, basePath);
        if Config().Some? {
          var i := 0;
          while i < |configFiles|
            invariant 0 <= i <= |configFiles|
            invariant app.State() == h1.(config := MergeFiles(h1.config, configFiles[..i]))
          {
            var file := configFiles[i];
            app.SetNamespace(file.name, ArrayMerge(file.contents, app.Namespace(file.name)));
            assert configFiles[..i + 1][..i] == configFiles[..i];
            i := i + 1;
          }
          assert configFiles[..i] == configFiles;
        }
        ghost var h2 := app.State();
        assert h2 == ConfigStage(h1, basePath, configFiles);
        if Vendor().Some? {
          app.AddDirectory(Vendor().value);
        }
        ghost var h3 := app.State();
        assert h3 == VendorStage(h2, basePath);
        app.Set("cache", "prefix", Str(PhpString(app.Get("cache", "prefix")) + "-" + Dec(id)));
        ghost var h4 := app.State();
        assert h4 == CacheStage(h3, id);
        var routes := Routes();
        if routes.Some? {
          app.RequireOnce(routes.value);
        }
        assert app.State() == RoutesStage(h4, basePath, files + directories);
      }
      self := this;
    }
  }
}
