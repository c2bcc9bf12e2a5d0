# Tenant directory resolver

A Dafny model of `Directory`, the multi-tenant package's tenant directory
resolver. Given a tenant (website) with a numeric id and an identifier, it
derives the tenant's directory `root/{id}-{identifier}/` and six fixed
sub-directories (`config`, `views`, `lang`, `vendor`, `cache`, `media`). It
keeps the directory of the previous identifier when the tenant was renamed
and that directory still exists. It can create the tenant's directories, find
the tenant's `routes.php`, and register the layout into the host application.
Registration merges each tenant config file into its namespace of the host
configuration, appends `-{id}` to `cache.prefix`, adds the views location and
the vendor directory, and loads `routes.php` once.

The environment is abstracted into inputs:

- the filesystem is two sets of path strings, the directories and the other
  files that exist;
- the host configuration is a map from namespace to a string-keyed map of
  values;
- the outcome of each create-directory call comes from a function
  `makeDirectory: string -> bool`;
- the tenant config files are a sequence of (base name, contents) pairs in
  enumeration order.

Modules, one per concern, across these files:

- `maybe.dfy` / `Maybe`: the `Option` type for PHP's `string|null` results.
- `decimal.dfy` / `Decimal`: `sprintf('%d')`, its inverse, and the fact that
  `"%d-%s"` can be split back into its two parts.
- `tenant_paths.dfy` / `TenantPaths`: the path templates as pure functions.
  PHP truthiness of strings (only `""` and `"0"` are falsy) is spelt out.
- `config_repository.dfy` / `ConfigRepository`: configuration values, `get`
  and `set`, `array_merge`, the fold over the config files with a reference
  definition, and the cache prefix.
- `host_application.dfy` / `HostApplication`: the host state that
  registration changes, as a value and as the class `Host`.
- `tenant_directory.dfy` / `TenantDirectory`: the class `Directory`. Its
  constructor fixes the layout. `Create` is a loop with a counter.
  `RegisterPaths` updates a `Host` in place and is proved against the
  specification function `RegisteredState`.

Points where the code does something a reader might not expect. The model
follows the code in each case:

- The config merge is `array_merge(tenant, host)`. So on a key both define,
  the host's existing value is kept, not the tenant's. The comment above the
  loop ("merges overruling config files") says the opposite. `HostValueWins` and
  `TenantDoesNotOverrideHostExample` state what the code does.
- `create()` never creates the `config` directory (`CreateSkipsConfig`).
- `sprintf("%s/%d-%s/", ...)` is never empty and never `"0"`, so `base()`
  is always truthy. Every "null when base is falsy" branch of the class is
  therefore dead (`TenantPath` ensures `Truthy`). The pure functions take the
  base as a parameter, so the falsy case is still stated for them.
- The guards in `registerPaths` only test that a path string is non-null.
  They never test that the directory exists. `RegisteredState` adds the views
  location and the vendor directory whatever the existing-path sets hold.
  The model describes `registerPaths` only for tenants whose `config/`
  directory exists. Listing the files of a missing `config/` throws in the
  framework, and `create()` never makes that directory. So for a tenant set
  up only by `create()`, the real `registerPaths` stops after adding the
  views location: it adds no vendor directory, no cache prefix and no routes.
- `routes()` uses `File::exists`, which is true for a directory as well as a
  file. `Directory.Routes` therefore looks in both sets.
- `cache.prefix` is rewritten after the config files are merged. A tenant
  `cache` file can therefore supply the prefix when the host has none
  (`RegisteredCachePrefix`).
- `create()` counts successes and compares the count with the last loop
  index plus one, which is always 6. It does not make directory creation
  idempotent: it reports whatever the six calls report.

## Model

| member | source | states |
|---|---|---|
| Decimal.Dec | src/HynMe/MultiTenant/Tenant/Directory.php:47-58 | `%d` prints an optional minus sign (present iff the id is negative) followed by digits, with no leading zero unless the id is 0 |
| Decimal.DecRoundTrip | src/HynMe/MultiTenant/Tenant/Directory.php:55-58 | the id can be read back from its `%d` form, so formatting loses nothing |
| Decimal.DashSeparatedInjective | src/HynMe/MultiTenant/Tenant/Directory.php:55-58 | `"{id}-{identifier}"` determines both the id and the identifier |
| TenantPaths.TenantRoot | src/HynMe/MultiTenant/Tenant/Directory.php:48-56 | the root is the configured tenant directory when it is present and truthy, and the storage fallback otherwise |
| TenantPaths.TenantPath | src/HynMe/MultiTenant/Tenant/Directory.php:55-58 | the base path starts with `root + "/"`, ends with `/`, and is always truthy |
| TenantPaths.TenantPathInjective | src/HynMe/MultiTenant/Tenant/Directory.php:55-58 | under one root, two tenants share a directory only if they have the same id and identifier |
| TenantPaths.RenamedPathDiffers | src/HynMe/MultiTenant/Tenant/Directory.php:46-58 | the path built from a different original identifier is never the current base path |
| TenantPaths.OldTenantPath | src/HynMe/MultiTenant/Tenant/Directory.php:46-53 | the old base is present iff the identifier is dirty and a directory exists at `root/{id}-{original}/`, and then it is exactly that path |
| TenantPaths.SubPath | src/HynMe/MultiTenant/Tenant/Directory.php:67-119 | a sub-directory path is present iff the base is truthy; it then extends the base and ends with `/` |
| TenantPaths.SubPathsDistinct | src/HynMe/MultiTenant/Tenant/Directory.php:67-119 | the six sub-directories are pairwise distinct and none is the base |
| TenantPaths.RoutesPath | src/HynMe/MultiTenant/Tenant/Directory.php:214-220 | the routes path is present iff the base is truthy and `base + "routes.php"` exists, and then it is that path |
| ConfigRepository.PhpString | src/HynMe/MultiTenant/Tenant/Directory.php:166 | string interpolation of the old prefix: a string gives itself, `true` gives `1`, an integer gives its decimal form (which reads back to it), and the result is empty exactly for null, false and the empty string |
| ConfigRepository.Get | src/HynMe/MultiTenant/Tenant/Directory.php:166 | `get("ns.key")` returns the stored value, and null when nothing is stored |
| ConfigRepository.NamespaceOf | src/HynMe/MultiTenant/Tenant/Directory.php:158 | `get(name, [])` is the host's namespace when present and the empty map otherwise |
| ConfigRepository.Set | src/HynMe/MultiTenant/Tenant/Directory.php:166 | `set("ns.key", v)` stores `v` under that key, creates the namespace if needed, and changes no other key |
| ConfigRepository.ArrayMerge | src/HynMe/MultiTenant/Tenant/Directory.php:158 | `array_merge` on string keys takes the union of keys, and the second argument's value wins on a shared key |
| ConfigRepository.MergeFile | src/HynMe/MultiTenant/Tenant/Directory.php:157-158 | merging one file adds its namespace, fills in only keys the host lacks, and leaves every other namespace alone |
| ConfigRepository.MergeFiles | src/HynMe/MultiTenant/Tenant/Directory.php:155-160 | the loop merges the files in enumeration order; every host namespace stays and each file's namespace exists afterwards |
| ConfigRepository.MergeFilesLookup | src/HynMe/MultiTenant/Tenant/Directory.php:155-160 | after the loop, each key holds the host's value if it had one, else the value from the earliest file of that name that has the key |
| ConfigRepository.MergeFilesNamespaces | src/HynMe/MultiTenant/Tenant/Directory.php:155-160 | after the loop, a namespace exists iff the host had it or some config file has its name |
| ConfigRepository.MergeFilesOtherNamespaces | src/HynMe/MultiTenant/Tenant/Directory.php:155-160 | a namespace that no config file names is unchanged |
| ConfigRepository.HostValueWins | src/HynMe/MultiTenant/Tenant/Directory.php:154-158 | a key the host already has keeps its value whatever the tenant files say |
| ConfigRepository.TenantDoesNotOverrideHostExample | src/HynMe/MultiTenant/Tenant/Directory.php:154-158 | host `app: {env: prod, debug: false}` merged with tenant `app: {debug: true}` stays unchanged |
| ConfigRepository.AppendCachePrefix | src/HynMe/MultiTenant/Tenant/Directory.php:166 | `cache.prefix` becomes its old string form + `-` + the decimal id; every other key and namespace is unchanged |
| ConfigRepository.CachePrefixExample | src/HynMe/MultiTenant/Tenant/Directory.php:166 | prefix `app` with tenant id 42 becomes `app-42` |
| HostApplication.WithVendorDirectory | src/HynMe/MultiTenant/Tenant/Directory.php:162-163 | the vendor directory is registered afterwards at the end of the list, the existing directories keep their order, nothing else is added, and a duplicate-free list stays duplicate-free |
| HostApplication.Host.Namespace | src/HynMe/MultiTenant/Tenant/Directory.php:158 | `$app['config']->get(name, [])` on the host: the stored namespace when present, the empty map otherwise |
| HostApplication.Host.Get | src/HynMe/MultiTenant/Tenant/Directory.php:166 | `$app['config']->get('cache.prefix')` on the host: the stored value, and null when nothing is stored |
| HostApplication.Host.SetNamespace | src/HynMe/MultiTenant/Tenant/Directory.php:158 | the host's configuration gets the new namespace contents; the other host state is unchanged |
| HostApplication.Host.Set | src/HynMe/MultiTenant/Tenant/Directory.php:166 | the host's configuration becomes `Set` of the old one; the other host state is unchanged |
| HostApplication.Host.AddLocation | src/HynMe/MultiTenant/Tenant/Directory.php:152-153 | the views location is appended to the view lookup locations |
| HostApplication.Host.AddDirectory | src/HynMe/MultiTenant/Tenant/Directory.php:162-163 | the class loader's directories become `WithVendorDirectory` of the old ones |
| HostApplication.Host.RequireOnce | src/HynMe/MultiTenant/Tenant/Directory.php:185-186 | the routes file is recorded as loaded; loading it again changes nothing |
| TenantDirectory.CreatePathsFollowOrder | src/HynMe/MultiTenant/Tenant/Directory.php:200-202 | the i-th create target resolves to the i-th of base, views, lang, cache, media, vendor |
| TenantDirectory.CreateSkipsConfig | src/HynMe/MultiTenant/Tenant/Directory.php:197-206 | `create()` asks for six pairwise distinct directories, and the config directory is not among them |
| TenantDirectory.SucceededAll | src/HynMe/MultiTenant/Tenant/Directory.php:199-205 | the success counter equals the number of attempts iff every attempt succeeded |
| TenantDirectory.RegisteredState | src/HynMe/MultiTenant/Tenant/Directory.php:146-189 | a falsy base leaves the host untouched; otherwise the views location is appended, the vendor directory is registered, and `routes.php` is loaded iff it exists, whatever directories exist on disk |
| TenantDirectory.RegisteredConfigLookup | src/HynMe/MultiTenant/Tenant/Directory.php:155-166 | after registration every configuration key except `cache.prefix` holds the host's value if it had one, else the earliest tenant file's value |
| TenantDirectory.RegisteredCachePrefix | src/HynMe/MultiTenant/Tenant/Directory.php:155-166 | `cache.prefix` ends as the merged prefix + `-` + the id, exactly once; when the host had a prefix it is the host's |
| TenantDirectory.RegisteredNamespaces | src/HynMe/MultiTenant/Tenant/Directory.php:155-166 | registration adds only the namespaces of the config files and `cache`, and a namespace no file names is unchanged |
| TenantDirectory.Directory.constructor | src/HynMe/MultiTenant/Tenant/Directory.php:42-59 | the base is `root/{id}-{identifier}/`, with the configured tenant directory as root when truthy, else the storage fallback; the old base is `root/{id}-{original}/` only when dirty and that directory exists, else null |
| TenantDirectory.Directory.Base | src/HynMe/MultiTenant/Tenant/Directory.php:126-129 | `base()` is exactly `root/{id}-{identifier}/`, and it is always truthy |
| TenantDirectory.Directory.OldBase | src/HynMe/MultiTenant/Tenant/Directory.php:135-138 | the old base is present iff the identifier is dirty and the old directory exists, and then it is that directory |
| TenantDirectory.Directory.OldBaseIsNotBase | src/HynMe/MultiTenant/Tenant/Directory.php:46-58 | after a real rename the old base differs from the current base |
| TenantDirectory.Directory.Config | src/HynMe/MultiTenant/Tenant/Directory.php:67-70 | always the base + `config/` (never null, since the base is always truthy) |
| TenantDirectory.Directory.Views | src/HynMe/MultiTenant/Tenant/Directory.php:76-79 | always the base + `views/` |
| TenantDirectory.Directory.Lang | src/HynMe/MultiTenant/Tenant/Directory.php:86-89 | always the base + `lang/` |
| TenantDirectory.Directory.Vendor | src/HynMe/MultiTenant/Tenant/Directory.php:96-99 | always the base + `vendor/` |
| TenantDirectory.Directory.Cache | src/HynMe/MultiTenant/Tenant/Directory.php:106-109 | always the base + `cache/` |
| TenantDirectory.Directory.Media | src/HynMe/MultiTenant/Tenant/Directory.php:116-119 | always the base + `media/` |
| TenantDirectory.Directory.Routes | src/HynMe/MultiTenant/Tenant/Directory.php:214-220 | `base + "routes.php"` iff a file or directory exists at that path, else null |
| TenantDirectory.Directory.Create | src/HynMe/MultiTenant/Tenant/Directory.php:197-206 | attempts exactly base, views, lang, cache, media, vendor in that order, and returns true iff all six attempts succeeded |
| TenantDirectory.Directory.RegisterPaths | src/HynMe/MultiTenant/Tenant/Directory.php:146-189 | returns the same object and leaves the host in `RegisteredState` of its old state |

## Left out

- The translator and `translation.loader` rebinding for the `lang` directory (lines 170-183). This is dependency-injection wiring with nothing to check. `Lang()` itself is modelled.
- What `addLocation` and `ClassLoader::addDirectories` do inside the framework. The model only records the call. The class loader's list is assumed to keep each directory once.
- Running the config files and `routes.php`. A config file's contents are given as a map, and loading `routes.php` is recorded as a set of loaded files.
- `File::allFiles`. Its recursive enumeration and its order are given as the input sequence. The exception it raises when the config directory is missing is not modelled, so `RegisterPaths` describes only tenants whose `config/` directory exists.
- `File::name` of a file whose base name contains a dot. `set` would read such a name as a nested key; the model treats every name as one namespace.
- The real filesystem: recursive `makeDirectory`, the 0755 mode and `storage_path`. These are inputs.
- Directory.Create: a directory it creates is not added to the object's existing-path sets, because no later operation of the object reads them for those paths. `makeDirectory` is a function of the path, which is enough because the six paths are distinct.
- Integer-keyed arrays, which `array_merge` renumbers. Only string keys are modelled.
- `isDirty('identifier')` and `getOriginal('identifier')` of the website model. They are plain constructor inputs. An unsaved website's null id is not modelled.
- The configured `multi-tenant.tenant-directory` is modelled as an optional string. Truthy non-string values are not modelled.
- PHP integer width. Ids are unbounded integers.
- ConfigRepository.PhpString: an array interpolates to `Array`, but PHP also raises an "Array to string conversion" notice, which the framework's error handler may turn into an exception. The model does not capture that notice.
- `src/Tenancy/Contracts/CustomerRepositoryContract.php`: an interface without bodies, so there is no logic to model.
