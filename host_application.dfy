/**
 * The parts of the host application that `registerPaths` changes: the
 * configuration repository, the view finder's locations, the class loader's
 * directories and the files already loaded with `requireOnce`.
 */
module HostApplication {
  import opened Maybe
  import opened ConfigRepository

  datatype HostState = HostState(
    config: Config,
    viewLocations: seq<string>,
    vendorDirectories: seq<string>,
    requiredFiles: set<string>)

  /** True iff no directory occurs twice. */
  predicate NoDuplicates(s: seq<string>) {
    forall i, j :: 0 <= i < j < |s| ==> s[i] != s[j]
  }

  /** The view finder's `addLocation`: appends a lookup location. */
  function WithViewLocation(h: HostState, location: string): HostState {
    h.(viewLocations := h.viewLocations + [location])
  }

  /**
   * The class loader's `addDirectories` for one directory: the list is kept
   * free of duplicates, so a directory already there is not added again.
   */
  function WithVendorDirectory(h: HostState, directory: string): (r: HostState)
    ensures directory in r.vendorDirectories
    ensures forall d :: d in r.vendorDirectories <==> d in h.vendorDirectories || d == directory
    ensures NoDuplicates(h.vendorDirectories) ==> NoDuplicates(r.vendorDirectories)
    ensures |h.vendorDirectories| <= |r.vendorDirectories| <= |h.vendorDirectories| + 1
    ensures r.vendorDirectories[..|h.vendorDirectories|] == h.vendorDirectories
    ensures r.config == h.config && r.viewLocations == h.viewLocations && r.requiredFiles == h.requiredFiles
  {
    if directory in h.vendorDirectories then h
    else h.(vendorDirectories := h.vendorDirectories + [directory])
  }

  /** `requireOnce`: a file is loaded at most once. */
  function WithRequired(h: HostState, path: string): HostState {
    h.(requiredFiles := h.requiredFiles + {path})
  }

  class Host {
    var config: Config
    var viewLocations: seq<string>
    var vendorDirectories: seq<string>
    var requiredFiles: set<string>

    function State(): HostState
      reads this
    {
      HostState(config, viewLocations, vendorDirectories, requiredFiles)
    }

    constructor (config: Config)
      ensures State() == HostState(config, [], [], {})
    {
      this.config := config;
      viewLocations := [];
      vendorDirectories := [];
      requiredFiles := {};
    }

    /** `$app['config']->get(ns, [])`. */
    function Namespace(ns: string): (r: Namespace)
      reads this
      ensures ns in config ==> r == config[ns]
      ensures ns !in config ==> r == map[]
    {
      NamespaceOf(config, ns)
    }

    /** `$app['config']->get("ns.key")`. */
    function Get(ns: string, key: string): (r: Value)
      reads this
      ensures Lookup(config, ns, key).None? ==> r == Null
      ensures Lookup(config, ns, key).Some? ==> r == Lookup(config, ns, key).value
    {
      ConfigRepository.Get(config, ns, key)
    }

    /** `$app['config']->set(ns, items)` for a whole namespace. */
    method SetNamespace(ns: string, items: Namespace)
      modifies this
      ensures State() == old(State()).(config := old(config)[ns := items])
    {
      config := config[ns := items];
    }

    /** `$app['config']->set("ns.key", v)`. */
    method Set(ns: string, key: string, v: Value)
      modifies this
      ensures State() == old(State()).(config := ConfigRepository.Set(old(config), ns, key, v))
    {
      config := ConfigRepository.Set(config, ns, key, v);
    }

    method AddLocation(location: string)
      modifies this
      ensures State() == WithViewLocation(old(State()), location)
    {
      viewLocations := viewLocations + [location];
    }

    method AddDirectory(directory: string)
      modifies this
      ensures State() == WithVendorDirectory(old(State()), directory)
    {
      if directory !in vendorDirectories {
        vendorDirectories := vendorDirectories + [directory];
      }
    }

    method RequireOnce(path: string)
      modifies this
      ensures State() == WithRequired(old(State()), path)
    {
      requiredFiles := requiredFiles + {path};
    }
  }
}
