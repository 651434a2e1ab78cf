# JSON language-server adapter, modelled in Dafny

This project models the editor's adapter for the JSON language server
(`vscode-json-languageserver`, installed from npm and run by the node
runtime). The adapter does four things:

- it builds the server's launch arguments: the entry point, then `--stdio`;
- it fetches a server binary. It installs the requested version into a
  container directory unless the entry point `SERVER_PATH` is already
  there, then returns the node runtime running that entry point;
- it discovers a cached binary. It scans the container directory's
  entries in enumeration order, remembers the last one that is a
  directory, and returns a descriptor only if that directory holds the
  entry point. Every failure on this path is logged and becomes `None`;
- it builds the configuration payloads: the initialization options, and
  the workspace configuration with its two schema bindings (settings,
  then keymap).

Files:

- `results.dfy` (module `Results`): `Option`, `Result`, and `LogErr`, which drops an error.
- `paths.dfy` (module `Paths`): a `std::path::Path` as its sequence of
  components, with `parent`, `join`, `strip_prefix` and its text form.
- `json_values.dfy` (module `JsonValues`): `serde_json::Value`, with the
  member lookups a consumer of a payload performs.
- `json_lsp.dfy` (module `JsonLsp`): everything in
  `crates/zed/src/languages/json.rs`.

How the environment is represented:

- The disk is a `Disk` object holding the set of paths whose metadata can be read.
- The node runtime is a `NodeRuntime` object that logs every install request it receives.
- Each transport answer is a parameter of the call that receives it:
  - what an install writes, and whether it succeeds;
  - the runtime path returned by `binary_path`, or its failure;
  - the registry's answer for the latest version.
- A container directory's `read_dir` stream is a sequence of items:
  - an item that failed to read;
  - an entry whose `file_type` failed;
  - an entry with its name and whether it is a directory.
- The application context is a `HostContext` value. It holds the action
  names, the staff flag and the language names, plus the two foreign
  schema generators. The schema documents they return are opaque.

`fetch_server_binary` is a method proved against the function
`FetchSpec`, and the install properties are lemmas about `FetchSpec`.
The loop of `get_cached_server_binary` is a method proved against
`CachedLookup`. `CachedLookup` finds the last directory by recursing from
the end of the listing, so it is independent of the loop. The lemmas about
which directory gets chosen are stated on `LastVersionDir`.

Two behaviours of the code worth knowing:

- `schema_file_match` keeps the path's last two components:
  `/a/b/c/settings.json` gives `c/settings.json` (`SchemaFileMatch`,
  `SettingsFileMatchExample`).
- The cache lookup checks only the last directory entry in enumeration
  order and does not fall back to an earlier one
  (`NoFallbackToEarlierDirectory`, `MissingLastVersionExample`).

## Model

| member | source | states |
|---|---|---|
| `JsonLsp.ServerBinaryArguments` | crates/zed/src/languages/json.rs:24-26 | The arguments are exactly two: the entry point's path text, then `--stdio`. |
| `JsonLsp.Launch` | crates/zed/src/languages/json.rs:78-81 | The descriptor is built exactly when `binary_path` succeeds. It runs the runtime with `ServerBinaryArguments(serverPath)`. A failed lookup is `RuntimeUnavailable`. |
| `JsonLsp.FetchLatestServerVersion` | crates/zed/src/languages/json.rs:49-58 | It asks about `vscode-json-languageserver` and returns the registry's version exactly when the registry answers. A failure propagates as `UpstreamUnavailable`. |
| `JsonLsp.NodeRuntime.NpmInstallPackages` | crates/zed/src/languages/json.rs:70-75 | It records the request (target directory and name/version pairs) and adds what the install writes to the disk. It reports `InstallFailed` when the install fails. |
| `JsonLsp.FetchServerBinary` | crates/zed/src/languages/json.rs:60-82 | The result, the new disk and the new install log are exactly those of `FetchSpec` on the old disk. The log grows only by the request `FetchSpec` issues. |
| `JsonLsp.FetchInstallsIffAbsent` | crates/zed/src/languages/json.rs:67-76 | An install is requested if and only if `containerDir/SERVER_PATH` is absent. The request installs `vscode-json-languageserver` at the given version into `containerDir`. |
| `JsonLsp.FetchPresentLeavesDisk` | crates/zed/src/languages/json.rs:69-76 | When the entry point exists, the disk is unchanged and the install outcome has no influence. |
| `JsonLsp.FetchResult` | crates/zed/src/languages/json.rs:67-81 | It succeeds if and only if (the entry point was present or the install succeeded) and `binary_path` succeeded. Success is the runtime with `[containerDir/SERVER_PATH, "--stdio"]`. A failed install gives `InstallFailed` and a failed runtime lookup gives `RuntimeUnavailable`, each with no descriptor. |
| `JsonLsp.SecondFetchInstallsNothing` | crates/zed/src/languages/json.rs:67-76 | If the first install writes the entry point (even when it then fails), a second fetch into the same directory requests no install and leaves the disk as it was. |
| `JsonLsp.FetchTwice` | crates/zed/src/languages/json.rs:60-82 | Two consecutive fetches into one directory send at most one install request. The second fetch succeeds whenever the runtime path is known. |
| `JsonLsp.LoadCachedServerBinary` | crates/zed/src/languages/json.rs:152-175 | The loop that updates `last_version_dir` returns exactly `CachedLookup`. Any read or file-type error aborts with `IoError`; no directory gives `NoCachedBinary`; a missing entry point gives `MissingExecutable(lastDir)`; otherwise the launch descriptor. |
| `JsonLsp.GetCachedServerBinary` | crates/zed/src/languages/json.rs:148-178 | The result is `CachedLookup` with every error logged and turned into `None`. |
| `JsonLsp.CachedServerBinary` | crates/zed/src/languages/json.rs:84-90 | Same result as `get_cached_server_binary` on the container directory. |
| `JsonLsp.InstallationTestBinary` | crates/zed/src/languages/json.rs:92-97 | Same result as `get_cached_server_binary` on the container directory. |
| `JsonLsp.LastVersionDirIsLast` | crates/zed/src/languages/json.rs:153-160 | A chosen name is that of a directory entry that no later directory entry follows. |
| `JsonLsp.LastVersionDirPicksLast` | crates/zed/src/languages/json.rs:153-160 | Conversely, the last directory entry in enumeration order is the one chosen. |
| `JsonLsp.LastVersionDirNoneIff` | crates/zed/src/languages/json.rs:153-162 | Nothing is chosen if and only if no entry is a directory. |
| `JsonLsp.NonDirectoryIgnored` | crates/zed/src/languages/json.rs:157-159 | Inserting a non-directory entry anywhere in the listing never changes the choice. |
| `JsonLsp.CachedHitIsLastDirectory` | crates/zed/src/languages/json.rs:162-168 | A hit comes from the last directory entry `d`. `d/SERVER_PATH` was among the existing paths, and the descriptor is the runtime with `[d/SERVER_PATH, "--stdio"]`. |
| `JsonLsp.NoFallbackToEarlierDirectory` | crates/zed/src/languages/json.rs:162-174 | If the last directory lacks the entry point, the result is `MissingExecutable` for that directory, even when an earlier directory has one. |
| `JsonLsp.NoDirectoryNoCache` | crates/zed/src/languages/json.rs:162 | A readable listing with no directory entry, an empty one included, gives `NoCachedBinary`. |
| `JsonLsp.ReadErrorNoCache` | crates/zed/src/languages/json.rs:154-157 | A stream error or file-type error anywhere in the listing gives `IoError`. |
| `JsonLsp.MissingLastVersionExample` | crates/zed/src/languages/json.rs:162-174 | Listing `1.2.3` (valid) and then `1.2.2` (no entry point) reports `1.2.2` as missing its executable. |
| `JsonLsp.HasGrandparentIff` | crates/zed/src/languages/json.rs:181 | The two `parent().unwrap()` calls succeed on a well-formed path if and only if it has at least two names below the root. |
| `JsonLsp.SchemaFileMatch` | crates/zed/src/languages/json.rs:180-183 | It requires a grandparent, since it panics otherwise. The result is the path's last two components, and joining it back onto the grandparent gives the path again. |
| `JsonLsp.SettingsFileMatchExample` | crates/zed/src/languages/json.rs:180-183 | `/home/user/.config/zed/settings.json` is matched as `zed/settings.json`. |
| `JsonLsp.InitializationOptions` | crates/zed/src/languages/json.rs:99-103 | It is always present: an object with the single member `provideFormatter: true`. |
| `JsonLsp.SchemaBindingBinds` | crates/zed/src/languages/json.rs:127-137 | A schema binding reads back (`fileMatch` array, `schema`) as the patterns and the document it was built from. |
| `JsonLsp.WorkspaceConfiguration` | crates/zed/src/languages/json.rs:105-141 | `json.format.enable` is `true`. `json.schemas` holds exactly two bindings, for any action and language names. The first binds `[schema_file_match(SETTINGS), LOCAL_SETTINGS_RELATIVE_PATH]` to the settings schema generated from the language names and staff flag. The second binds `[schema_file_match(KEYMAP)]` to the keymap schema generated from the action names. |
| `JsonLsp.LanguageIds` | crates/zed/src/languages/json.rs:143-145 | It maps exactly one key: `JSON` maps to `jsonc`. |
| `Results.LogErr` | crates/zed/src/languages/json.rs:175-177 | `Some` exactly on `Ok`, carrying its value. Every error becomes `None`. |
| `Paths.Parent` | crates/zed/src/languages/json.rs:181 | There is a parent exactly when the last component is a name. The parent followed by that component is the path. |
| `Paths.StripPrefix` | crates/zed/src/languages/json.rs:181-182 | It succeeds exactly when `base` is a component-wise prefix. `base` followed by the result is the path. |
| `Paths.Join` | crates/zed/src/languages/json.rs:67 | A rooted `rel` replaces the base. Otherwise the result is the base's components followed by `rel`'s. |

## Left out

- Asynchrony, concurrency and cancellation are not modelled. Neither is the race between the existence check and a later use of the binary. Each call runs start to finish against one disk state.
- The npm transport (`npm_package_latest_version`, `npm_install_packages`, `binary_path`) is not visible. Each call's outcome is a parameter, and what an install writes is whatever the caller says.
- Filesystem I/O is reduced to a set of paths whose metadata can be read. `fs::metadata(..).is_err()` and `Path::exists()` both read as "not in the set".
- `log_err`'s log line is left out; only the dropping of the error is modelled.
- The `Box<dyn Any>` version and its downcast are replaced by a plain version string. The downcast's `unwrap` cannot fail in the model.
- The contents of the settings and keymap schema documents are left out. `SettingsStore::json_schema` and `KeymapFile::generate_json_schema` are foreign library calls, so they are opaque functions in `HostContext`.
- The `AppContext` and the `LanguageRegistry` are not modelled. The values read from them (action names, staff flag, language names) are fields of `HostContext`.
- The path constants `paths::SETTINGS`, `paths::KEYMAP` and `paths::LOCAL_SETTINGS_RELATIVE_PATH` live in `util/src/paths.rs`, which is not part of this model. They are fields of `HostPaths`. `WorkspaceConfiguration` requires the two absolute ones to have a grandparent, because the source panics otherwise.
- `JsonLspAdapter::new`, `name` and `short_name` only store or return constants. The adapter's two fields become parameters, and the names are the constants `SERVER_NAME` and `SHORT_NAME`.
- Version subdirectories are chosen by enumeration order, as the source does. No semantic-version ordering is added.
- Path text (`Render`) joins component names with `/`. It does not model platform separators or `OsString` encodings.
- Paths.Parent and `Component`: only the root and normal names are modelled. The `.`, `..` and Windows prefix components of `std::path::Component` are not, so `Parent` does not cover `Path::parent` on a path ending in `.` or `..`. The adapter's paths (the container directory, `SETTINGS`, `KEYMAP`, `SERVER_PATH`) contain none of them.
