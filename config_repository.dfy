/**
 * The host's configuration repository as `registerPaths` uses it: namespaces
 * (one per config file) of string-keyed values, read and written with
 * `get`/`set`, the `array_merge` that overlays a tenant config file on a
 * namespace, and the per-tenant `cache.prefix`.
 */
module ConfigRepository {
  import opened Maybe
  import opened Decimal

  /** A configuration value. */
  datatype Value = Null | Bool(b: bool) | Int(n: int) | Str(s: string) | Arr(items: map<string, Value>)

  type Namespace = map<string, Value>
  type Config = map<string, Namespace>

  /** An entry of the tenant's config directory: its base name and what the file evaluates to. */
  datatype ConfigFile = ConfigFile(name: string, contents: Namespace)

  /** PHP string interpolation of a value, `"{$v}"`. */
  function PhpString(v: Value): (r: string)
    ensures r == "" <==> v == Null || v == Bool(false) || v == Str("")
    ensures v.Str? ==> r == v.s
    ensures v == Bool(true) ==> r == "1"
    ensures v.Int? ==> IsDecimal(r) && ParseDec(r) == v.n
  {
    match v
    case Null => ""
    case Bool(b) => if b then "1" else ""
    case Int(n) => DecRoundTrip(n); Dec(n)
    case Str(s) => s
    case Arr(_) => "Array"
  }

  /** The value stored under `ns.key`, if any. */
  function Lookup(cfg: Config, ns: string, key: string): Option<Value> {
    if ns in cfg && key in cfg[ns] then Some(cfg[ns][key]) else None
  }

  /** `get("ns.key")`: null when nothing is stored. */
  function Get(cfg: Config, ns: string, key: string): (r: Value)
    ensures Lookup(cfg, ns, key).None? ==> r == Null
    ensures Lookup(cfg, ns, key).Some? ==> r == Lookup(cfg, ns, key).value
  {
    if Lookup(cfg, ns, key).Some? then Lookup(cfg, ns, key).value else Null
  }

  /** `get(ns, [])`: a whole namespace, empty when absent. */
  function NamespaceOf(cfg: Config, ns: string): (r: Namespace)
    ensures ns in cfg ==> r == cfg[ns]
    ensures ns !in cfg ==> r == map[]
  {
    if ns in cfg then cfg[ns] else map[]
  }

  /** `set("ns.key", v)`: stores one value, creating the namespace if needed. */
  function Set(cfg: Config, ns: string, key: string, v: Value): (r: Config)
    ensures r.Keys == cfg.Keys + {ns}
    ensures Lookup(r, ns, key) == Some(v)
    ensures forall n, k :: (n != ns || k != key) ==> Lookup(r, n, k) == Lookup(cfg, n, k)
  {
    cfg[ns := NamespaceOf(cfg, ns)[key := v]]
  }

  /** `array_merge(first, second)` on string keys: the second argument wins on a shared key. */
  function ArrayMerge(first: Namespace, second: Namespace): (r: Namespace)
    ensures r.Keys == first.Keys + second.Keys
    ensures forall k :: k in second ==> r[k] == second[k]
    ensures forall k :: k in first && k !in second ==> r[k] == first[k]
  {
    first + second
  }

  /**
   * `set(name, array_merge(contents, get(name, [])))`: the tenant file fills in
   * only the keys the host does not already have.
   */
  function MergeFile(cfg: Config, f: ConfigFile): (r: Config)
    ensures r.Keys == cfg.Keys + {f.name}
    ensures forall n :: n in cfg && n != f.name ==> r[n] == cfg[n]
    ensures forall n, k ::
              Lookup(r, n, k) ==
              if Lookup(cfg, n, k).None? && n == f.name && k in f.contents then Some(f.contents[k])
              else Lookup(cfg, n, k)
  {
    cfg[f.name := ArrayMerge(f.contents, NamespaceOf(cfg, f.name))]
  }

  /** The config files merged one after another, in enumeration order. */
  function MergeFiles(cfg: Config, files: seq<ConfigFile>): (r: Config)
    ensures cfg.Keys <= r.Keys
    ensures forall i :: 0 <= i < |files| ==> files[i].name in r
    decreases |files|
  {
    if files == [] then cfg else MergeFile(MergeFiles(cfg, files[..|files| - 1]), files[|files| - 1])
  }

  /** The first file (in enumeration order) that names `ns` and has `key`, and its value there. */
  function FirstProvided(files: seq<ConfigFile>, ns: string, key: string): Option<Value> {
    if files == [] then None
    else if files[0].name == ns && key in files[0].contents then Some(files[0].contents[key])
    else FirstProvided(files[1..], ns, key)
  }

  /**
   * What a merge should leave under `ns.key`, stated without the fold: the
   * host's value when it has one, else the earliest tenant file's value.
   */
  function Expected(cfg: Config, files: seq<ConfigFile>, ns: string, key: string): Option<Value> {
    if Lookup(cfg, ns, key).Some? then Lookup(cfg, ns, key) else FirstProvided(files, ns, key)
  }

  lemma {:induction false} FirstProvidedSnoc(files: seq<ConfigFile>, f: ConfigFile, ns: string, key: string)
    ensures FirstProvided(files + [f], ns, key) ==
      if FirstProvided(files, ns, key).Some? then FirstProvided(files, ns, key)
      else if f.name == ns && key in f.contents then Some(f.contents[key])
      else None
  {
    if files == [] {
      assert files + [f] == [f];
      assert [f][1..] == [];
    } else {
      assert (files + [f])[0] == files[0];
      assert (files + [f])[1..] == files[1..] + [f];
      FirstProvidedSnoc(files[1..], f, ns, key);
    }
  }

  /** The fold agrees with the reference definition on every key of every namespace. */
  lemma {:induction false} MergeFilesLookup(cfg: Config, files: seq<ConfigFile>, ns: string, key: string)
    ensures Lookup(MergeFiles(cfg, files), ns, key) == Expected(cfg, files, ns, key)
    decreases |files|
  {
    if files != [] {
      var init, f := files[..|files| - 1], files[|files| - 1];
      assert files == init + [f];
      MergeFilesLookup(cfg, init, ns, key);
      FirstProvidedSnoc(init, f, ns, key);
    }
  }

  /** After the merge a namespace exists iff the host had it or some file has its name. */
  lemma {:induction false} MergeFilesNamespaces(cfg: Config, files: seq<ConfigFile>, ns: string)
    ensures ns in MergeFiles(cfg, files) <==> ns in cfg || exists i :: 0 <= i < |files| && files[i].name == ns
    decreases |files|
  {
    if files != [] {
      var init := files[..|files| - 1];
      MergeFilesNamespaces(cfg, init, ns);
      if exists i :: 0 <= i < |init| && init[i].name == ns {
        var i :| 0 <= i < |init| && init[i].name == ns;
        assert files[i].name == ns;
      }
      if exists i :: 0 <= i < |files| && files[i].name == ns {
        var i :| 0 <= i < |files| && files[i].name == ns;
        if i < |init| {
          assert init[i].name == ns;
        }
      }
    }
  }

  /** A namespace no tenant file names is left exactly as the host had it. */
  lemma {:induction false} MergeFilesOtherNamespaces(cfg: Config, files: seq<ConfigFile>, ns: string)
    requires ns in cfg
    requires forall i :: 0 <= i < |files| ==> files[i].name != ns
    ensures ns in MergeFiles(cfg, files) && MergeFiles(cfg, files)[ns] == cfg[ns]
    decreases |files|
  {
    if files != [] {
      var init := files[..|files| - 1];
      assert forall i :: 0 <= i < |init| ==> init[i].name == files[i].name;
      MergeFilesOtherNamespaces(cfg, init, ns);
    }
  }

  /**
   * The host's existing value wins: a key the host already has keeps its value
   * whatever the tenant files say about it.
   */
  lemma HostValueWins(cfg: Config, files: seq<ConfigFile>, ns: string, key: string)
    requires ns in cfg && key in cfg[ns]
    ensures ns in MergeFiles(cfg, files) && key in MergeFiles(cfg, files)[ns]
    ensures MergeFiles(cfg, files)[ns][key] == cfg[ns][key]
  {
    MergeFilesLookup(cfg, files, ns, key);
  }

  /**
   * A host `app` namespace `{env: "prod", debug: false}` and a tenant `app`
   * file `{debug: true}`: the merge keeps `debug` false.
   */
  lemma TenantDoesNotOverrideHostExample()
    ensures var host := map["app" := map["env" := Str("prod"), "debug" := Bool(false)]];
            var merged := MergeFiles(host, [ConfigFile("app", map["debug" := Bool(true)])]);
            merged == host
  {
    var host := map["app" := map["env" := Str("prod"), "debug" := Bool(false)]];
    var files := [ConfigFile("app", map["debug" := Bool(true)])];
    assert files[..0] == [];
    assert MergeFiles(host, files)["app"] == host["app"];
  }

  /**
   * `set('cache.prefix', "{get('cache.prefix')}-{id}")`: the prefix gets
   * `-id` appended and nothing else in the configuration changes.
   */
  function AppendCachePrefix(cfg: Config, id: int): (r: Config)
    ensures r.Keys == cfg.Keys + {"cache"}
    ensures forall n :: n in cfg && n != "cache" ==> r[n] == cfg[n]
    ensures forall k :: k != "prefix" ==> Lookup(r, "cache", k) == Lookup(cfg, "cache", k)
    ensures Get(r, "cache", "prefix") == Str(PhpString(Get(cfg, "cache", "prefix")) + "-" + Dec(id))
  {
    Set(cfg, "cache", "prefix", Str(PhpString(Get(cfg, "cache", "prefix")) + "-" + Dec(id)))
  }

  /** Prefix `"app"` and tenant id 42 give the prefix `"app-42"`. */
  lemma CachePrefixExample(cfg: Config)
    requires Lookup(cfg, "cache", "prefix") == Some(Str("app"))
    ensures Get(AppendCachePrefix(cfg, 42), "cache", "prefix") == Str("app-42")
  {
    assert NatDigits(42) == NatDigits(4) + [DigitChar(2)];
    assert Dec(42) == "42";
  }
}
