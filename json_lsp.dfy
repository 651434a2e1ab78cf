/**
  The adapter that provisions and configures the JSON language server
  (`vscode-json-languageserver`) for the editor: the launch arguments, the
  check-then-install of a fresh binary, the discovery of a cached binary, and
  the configuration payloads sent to the server.

  The node runtime's transport calls and the filesystem are abstract: each
  transport answer is a parameter of the call that receives it, the disk is
  the set of paths whose metadata can be read, and a container directory's
  listing is the sequence of items its `read_dir` stream yields.
 */
module JsonLsp {
  import opened Results
  import opened Paths
  import opened JsonValues

  /** The npm package that provides the server. */
  const PACKAGE_NAME := "vscode-json-languageserver"

  /** The server's entry point, relative to the directory it is installed into. */
  const SERVER_PATH := Path([Normal("node_modules"), Normal("vscode-json-languageserver"),
                             Normal("bin"), Normal("vscode-json-languageserver")])

  /** `LspAdapter::name` and `LspAdapter::short_name`. */
  const SERVER_NAME := "json-language-server"
  const SHORT_NAME := "json"

  /** The ways provisioning can fail. */
  datatype Error =
    | UpstreamUnavailable                // `npm_package_latest_version` failed
    | InstallFailed                      // `npm_install_packages` failed
    | RuntimeUnavailable                 // `binary_path` failed
    | IoError                            // `read_dir`, a stream item or `file_type` failed
    | NoCachedBinary                     // the container has no directory entry
    | MissingExecutable(directory: Path) // the last directory has no entry point

  /** `LanguageServerBinary`: the executable to run and its argument vector. */
  datatype LanguageServerBinary = LanguageServerBinary(path: Path, arguments: seq<string>)

  // ---------------------------------------------------------------------------
  // Launch arguments
  // ---------------------------------------------------------------------------

  /** `server_binary_arguments`: the entry point, then `--stdio`, and nothing else. */
  function ServerBinaryArguments(serverPath: Path): (r: seq<string>)
    ensures |r| == 2
    ensures r[0] == Render(serverPath) && r[1] == "--stdio"
  {
    [Render(serverPath), "--stdio"]
  }

  /**
    The descriptor both provisioning paths build once the entry point is known
    to exist: the node runtime's executable (whose lookup may fail) running the
    entry point in stdio mode.
   */
  function Launch(binaryPath: Option<Path>, serverPath: Path): (r: Result<LanguageServerBinary, Error>)
    ensures r.Ok? <==> binaryPath.Some?
    ensures r.Ok? ==> r.value.path == binaryPath.value
    ensures r.Ok? ==> r.value.arguments == ServerBinaryArguments(serverPath)
    ensures r.Err? ==> r.error == RuntimeUnavailable
  {
    match binaryPath
    case None => Err(RuntimeUnavailable)
    case Some(node) => Ok(LanguageServerBinary(node, ServerBinaryArguments(serverPath)))
  }

  // ---------------------------------------------------------------------------
  // Version resolution
  // ---------------------------------------------------------------------------

  /**
    `fetch_latest_server_version`: ask the registry (the node runtime's
    `npm_package_latest_version`, given as `latestVersion`) for the server
    package's latest version; a failure propagates.
   */
  function FetchLatestServerVersion(latestVersion: string -> Option<string>): (r: Result<string, Error>)
    ensures r.Ok? <==> latestVersion(PACKAGE_NAME).Some?
    ensures r.Ok? ==> r.value == latestVersion(PACKAGE_NAME).value
    ensures r.Err? ==> r.error == UpstreamUnavailable
  {
    match latestVersion(PACKAGE_NAME)
    case None => Err(UpstreamUnavailable)
    case Some(v) => Ok(v)
  }

  // ---------------------------------------------------------------------------
  // Installing a fresh binary
  // ---------------------------------------------------------------------------

  /** The paths whose metadata can be read. */
  class Disk {
    var paths: set<Path>

    constructor (paths: set<Path>)
      ensures this.paths == paths
    {
      this.paths := paths;
    }
  }

  /** One `npm_install_packages` call: the target directory and the (name, version) pairs. */
  datatype InstallRequest = InstallRequest(directory: Path, packages: seq<(string, string)>)

  /**
    What an install does, as the transport decides it: the paths it writes
    (possibly only some of them, when it fails half-way) and whether it reports
    success.
   */
  datatype InstallOutcome = InstallOutcome(writes: set<Path>, succeeded: bool)

  /** The node runtime, seen through the install requests it has received. */
  class NodeRuntime {
    var installs: seq<InstallRequest>

    constructor ()
      ensures installs == []
    {
      installs := [];
    }

    /** `npm_install_packages`: records the request, writes what the outcome says, reports it. */
    method NpmInstallPackages(disk: Disk, directory: Path, packages: seq<(string, string)>,
                              outcome: InstallOutcome)
      returns (r: Result<(), Error>)
      modifies this, disk
      ensures installs == old(installs) + [InstallRequest(directory, packages)]
      ensures disk.paths == old(disk.paths) + outcome.writes
      ensures r == if outcome.succeeded then Ok(()) else Err(InstallFailed)
    {
      installs := installs + [InstallRequest(directory, packages)];
      disk.paths := disk.paths + outcome.writes;
      r := if outcome.succeeded then Ok(()) else Err(InstallFailed);
    }
  }

  /** What one `fetch_server_binary` call does: the install it requests, the disk after it, its result. */
  datatype FetchEffect = FetchEffect(
    request: Option<InstallRequest>,
    paths: set<Path>,
    result: Result<LanguageServerBinary, Error>)

  /**
    The effect of `fetch_server_binary` on a disk holding `paths`: install the
    given version into `containerDir` unless the entry point is already there,
    then launch that entry point with the node runtime.
   */
  function FetchSpec(paths: set<Path>, version: string, containerDir: Path,
                     install: InstallOutcome, binaryPath: Option<Path>): FetchEffect
  {
    var serverPath := Join(containerDir, SERVER_PATH);
    if serverPath in paths then
      FetchEffect(None, paths, Launch(binaryPath, serverPath))
    else
      FetchEffect(Some(InstallRequest(containerDir, [(PACKAGE_NAME, version)])),
                  paths + install.writes,
                  if install.succeeded then Launch(binaryPath, serverPath) else Err(InstallFailed))
  }

  /**
    `fetch_server_binary`. `install` is what the transport would do if asked
    to install, `binaryPath` its answer to `binary_path`.
   */
  method FetchServerBinary(node: NodeRuntime, disk: Disk, version: string, containerDir: Path,
                           install: InstallOutcome, binaryPath: Option<Path>)
    returns (r: Result<LanguageServerBinary, Error>)
    modifies node, disk
    ensures var e := FetchSpec(old(disk.paths), version, containerDir, install, binaryPath);
      && r == e.result
      && disk.paths == e.paths
      && node.installs == old(node.installs) + (if e.request.Some? then [e.request.value] else [])
  {
    var serverPath := Join(containerDir, SERVER_PATH);
    if serverPath !in disk.paths {
      var installed := node.NpmInstallPackages(disk, containerDir, [(PACKAGE_NAME, version)], install);
      if installed.Err? {
        return Err(installed.error);
      }
    }
    r := Launch(binaryPath, serverPath);
  }

  /** The install is requested exactly when the entry point is absent, and it asks for the given version. */
  lemma FetchInstallsIffAbsent(paths: set<Path>, version: string, containerDir: Path,
                               install: InstallOutcome, binaryPath: Option<Path>)
    ensures var e := FetchSpec(paths, version, containerDir, install, binaryPath);
      && (e.request.Some? <==> Join(containerDir, SERVER_PATH) !in paths)
      && (e.request.Some? ==> e.request.value == InstallRequest(containerDir, [(PACKAGE_NAME, version)]))
  {
  }

  /** With the entry point present, nothing on disk changes and the install outcome plays no part. */
  lemma FetchPresentLeavesDisk(paths: set<Path>, version: string, containerDir: Path,
                               install: InstallOutcome, install': InstallOutcome, binaryPath: Option<Path>)
    requires Join(containerDir, SERVER_PATH) in paths
    ensures FetchSpec(paths, version, containerDir, install, binaryPath).paths == paths
    ensures FetchSpec(paths, version, containerDir, install, binaryPath)
         == FetchSpec(paths, version, containerDir, install', binaryPath)
  {
  }

  /**
    The result: on success always the runtime running `containerDir/SERVER_PATH`
    with `--stdio`; a failed install or runtime lookup gives an error and no
    descriptor.
   */
  lemma FetchResult(paths: set<Path>, version: string, containerDir: Path,
                    install: InstallOutcome, binaryPath: Option<Path>)
    ensures var serverPath := Join(containerDir, SERVER_PATH);
      var r := FetchSpec(paths, version, containerDir, install, binaryPath).result;
      && (r.Ok? <==> (serverPath in paths || install.succeeded) && binaryPath.Some?)
      && (r.Ok? ==> r.value.path == binaryPath.value
                    && r.value.arguments == [Render(serverPath), "--stdio"])
      && (serverPath !in paths && !install.succeeded ==> r == Err(InstallFailed))
      && ((serverPath in paths || install.succeeded) && binaryPath.None? ==> r == Err(RuntimeUnavailable))
  {
  }

  /**
    When the install writes the entry point (whether or not it then reports
    success), a second fetch into the same directory requests no install and
    leaves the disk as the first one left it.
   */
  lemma SecondFetchInstallsNothing(paths: set<Path>, version: string, version': string, containerDir: Path,
                                   install: InstallOutcome, install': InstallOutcome,
                                   binaryPath: Option<Path>, binaryPath': Option<Path>)
    requires Join(containerDir, SERVER_PATH) in install.writes
    ensures var first := FetchSpec(paths, version, containerDir, install, binaryPath);
      var second := FetchSpec(first.paths, version', containerDir, install', binaryPath');
      second.request.None? && second.paths == first.paths
  {
  }

  /** Fetching twice into one directory asks the transport to install at most once. */
  method FetchTwice(node: NodeRuntime, disk: Disk, version: string, containerDir: Path,
                    install: InstallOutcome, install': InstallOutcome, binaryPath: Option<Path>)
    returns (first: Result<LanguageServerBinary, Error>, second: Result<LanguageServerBinary, Error>)
    requires Join(containerDir, SERVER_PATH) in install.writes
    modifies node, disk
    ensures |node.installs| <= |old(node.installs)| + 1
    ensures binaryPath.Some? ==> second.Ok?
  {
    first := FetchServerBinary(node, disk, version, containerDir, install, binaryPath);
    second := FetchServerBinary(node, disk, version, containerDir, install', binaryPath);
  }

  // ---------------------------------------------------------------------------
  // Discovering a cached binary
  // ---------------------------------------------------------------------------

  /**
    One item of the `read_dir` stream over a container directory: an error, an
    entry whose `file_type` failed, or an entry with its name and whether it is
    a directory.
   */
  datatype DirItem =
    | EntryError
    | FileTypeError(name: string)
    | Entry(name: string, isDir: bool)

  predicate IsVersionDir(item: DirItem) {
    item.Entry? && item.isDir
  }

  /** Every item of the stream read without error. */
  predicate Readable(items: seq<DirItem>) {
    forall i :: 0 <= i < |items| ==> items[i].Entry?
  }

  /** `entry.path()` for an entry named `name` in `containerDir`. */
  function VersionDir(containerDir: Path, name: string): Path {
    Join(containerDir, Path([Normal(name)]))
  }

  /** The name of the last directory in enumeration order, if any (no version ordering). */
  function LastVersionDir(items: seq<DirItem>): Option<string>
    decreases |items|
  {
    if items == [] then None
    else if IsVersionDir(items[|items| - 1]) then Some(items[|items| - 1].name)
    else LastVersionDir(items[..|items| - 1])
  }

  /**
    What the closure inside `get_cached_server_binary` returns, given the
    listing (`None` when `read_dir` itself fails), the paths that exist, and
    the runtime's answer to `binary_path`.
   */
  function CachedLookup(containerDir: Path, listing: Option<seq<DirItem>>, existing: set<Path>,
                        binaryPath: Option<Path>): Result<LanguageServerBinary, Error>
  {
    if listing.None? || !Readable(listing.value) then Err(IoError)
    else
      match LastVersionDir(listing.value)
      case None => Err(NoCachedBinary)
      case Some(name) =>
        var dir := VersionDir(containerDir, name);
        var serverPath := Join(dir, SERVER_PATH);
        if serverPath in existing then Launch(binaryPath, serverPath)
        else Err(MissingExecutable(dir))
  }

  /** The directory the loop has remembered after reading `items`. */
  function RememberedDir(containerDir: Path, items: seq<DirItem>): Option<Path> {
    match LastVersionDir(items)
    case None => None
    case Some(name) => Some(VersionDir(containerDir, name))
  }

  /** The closure of `get_cached_server_binary`: scan the entries, then check the last directory. */
  method LoadCachedServerBinary(containerDir: Path, listing: Option<seq<DirItem>>, existing: set<Path>,
                                binaryPath: Option<Path>)
    returns (r: Result<LanguageServerBinary, Error>)
    ensures r == CachedLookup(containerDir, listing, existing, binaryPath)
  {
    if listing.None? {
      return Err(IoError);
    }
    var entries := listing.value;
    var lastVersionDir: Option<Path> := None;
    var i := 0;
    while i < |entries|
      invariant i <= |entries|
      invariant Readable(entries[..i])
      invariant lastVersionDir == RememberedDir(containerDir, entries[..i])
    {
      var entry := entries[i];
      if !entry.Entry? {
        assert !Readable(entries);
        return Err(IoError);
      }
      if entry.isDir {
        lastVersionDir := Some(VersionDir(containerDir, entry.name));
      }
      assert entries[..i + 1][..i] == entries[..i];
      i := i + 1;
    }
    assert entries[..i] == entries;
    if lastVersionDir.None? {
      return Err(NoCachedBinary);
    }
    var serverPath := Join(lastVersionDir.value, SERVER_PATH);
    if serverPath in existing {
      r := Launch(binaryPath, serverPath);
    } else {
      r := Err(MissingExecutable(lastVersionDir.value));
    }
  }

  /** `get_cached_server_binary`: the closure's result with any error logged and dropped. */
  method GetCachedServerBinary(containerDir: Path, listing: Option<seq<DirItem>>, existing: set<Path>,
                               binaryPath: Option<Path>)
    returns (r: Option<LanguageServerBinary>)
    ensures r == LogErr(CachedLookup(containerDir, listing, existing, binaryPath))
  {
    var loaded := LoadCachedServerBinary(containerDir, listing, existing, binaryPath);
    r := LogErr(loaded);
  }

  /** `cached_server_binary`. */
  method CachedServerBinary(containerDir: Path, listing: Option<seq<DirItem>>, disk: Disk,
                            binaryPath: Option<Path>)
    returns (r: Option<LanguageServerBinary>)
    ensures r == LogErr(CachedLookup(containerDir, listing, disk.paths, binaryPath))
  {
    r := GetCachedServerBinary(containerDir, listing, disk.paths, binaryPath);
  }

  /** `installation_test_binary`: the same lookup, used for the installation self-test. */
  method InstallationTestBinary(containerDir: Path, listing: Option<seq<DirItem>>, disk: Disk,
                                binaryPath: Option<Path>)
    returns (r: Option<LanguageServerBinary>)
    ensures r == LogErr(CachedLookup(containerDir, listing, disk.paths, binaryPath))
  {
    r := GetCachedServerBinary(containerDir, listing, disk.paths, binaryPath);
  }

  /** The chosen name belongs to a directory entry after which no directory entry follows. */
  lemma {:induction false} LastVersionDirIsLast(items: seq<DirItem>) returns (k: nat)
    requires LastVersionDir(items).Some?
    ensures k < |items| && IsVersionDir(items[k]) && items[k].name == LastVersionDir(items).value
    ensures forall j :: k < j < |items| ==> !IsVersionDir(items[j])
    decreases |items|
  {
    var n := |items|;
    if IsVersionDir(items[n - 1]) {
      k := n - 1;
    } else {
      var front := items[..n - 1];
      k := LastVersionDirIsLast(front);
      assert forall j :: k < j < n - 1 ==> items[j] == front[j];
    }
  }

  /** Conversely, the last directory entry is the one chosen. */
  lemma {:induction false} LastVersionDirPicksLast(items: seq<DirItem>, k: nat)
    requires k < |items| && IsVersionDir(items[k])
    requires forall j :: k < j < |items| ==> !IsVersionDir(items[j])
    ensures LastVersionDir(items) == Some(items[k].name)
    decreases |items|
  {
    var n := |items|;
    if k < n - 1 {
      var front := items[..n - 1];
      assert !IsVersionDir(items[n - 1]);
      assert front[k] == items[k];
      LastVersionDirPicksLast(front, k);
    }
  }

  /** Nothing is chosen exactly when no entry is a directory. */
  lemma {:induction false} LastVersionDirNoneIff(items: seq<DirItem>)
    ensures LastVersionDir(items).None? <==> forall j :: 0 <= j < |items| ==> !IsVersionDir(items[j])
    decreases |items|
  {
    if items != [] {
      var n := |items|;
      var front := items[..n - 1];
      LastVersionDirNoneIff(front);
      assert forall j :: 0 <= j < n - 1 ==> items[j] == front[j];
    }
  }

  /** An entry that is not a directory, wherever it stands, never changes the choice. */
  lemma {:induction false} NonDirectoryIgnored(front: seq<DirItem>, item: DirItem, back: seq<DirItem>)
    requires !IsVersionDir(item)
    ensures LastVersionDir(front + [item] + back) == LastVersionDir(front + back)
    decreases |back|
  {
    if back == [] {
      assert (front + [item] + back)[..|front|] == front;
      assert front + back == front;
    } else {
      var m := |back|;
      var with := front + [item] + back;
      var without := front + back;
      assert with[..|with| - 1] == front + [item] + back[..m - 1];
      assert without[..|without| - 1] == front + back[..m - 1];
      assert with[|with| - 1] == back[m - 1] == without[|without| - 1];
      NonDirectoryIgnored(front, item, back[..m - 1]);
    }
  }

  /**
    A cache hit launches `lastDir/SERVER_PATH` with `--stdio`, where `lastDir`
    is the last directory entry in enumeration order and the entry point was
    among the existing paths.
   */
  lemma CachedHitIsLastDirectory(containerDir: Path, items: seq<DirItem>, existing: set<Path>,
                                 binaryPath: Option<Path>) returns (k: nat)
    requires CachedLookup(containerDir, Some(items), existing, binaryPath).Ok?
    ensures k < |items| && IsVersionDir(items[k])
    ensures forall j :: k < j < |items| ==> !IsVersionDir(items[j])
    ensures var serverPath := Join(VersionDir(containerDir, items[k].name), SERVER_PATH);
      && serverPath in existing
      && binaryPath.Some?
      && CachedLookup(containerDir, Some(items), existing, binaryPath).value
         == LanguageServerBinary(binaryPath.value, [Render(serverPath), "--stdio"])
  {
    k := LastVersionDirIsLast(items);
  }

  /**
    A last directory without an entry point is a miss, even when an earlier
    directory holds one: there is no fallback.
   */
  lemma NoFallbackToEarlierDirectory(containerDir: Path, items: seq<DirItem>, existing: set<Path>,
                                     binaryPath: Option<Path>, earlier: nat, last: nat)
    requires Readable(items)
    requires earlier < last < |items| && IsVersionDir(items[earlier]) && IsVersionDir(items[last])
    requires forall j :: last < j < |items| ==> !IsVersionDir(items[j])
    requires Join(VersionDir(containerDir, items[earlier].name), SERVER_PATH) in existing
    requires Join(VersionDir(containerDir, items[last].name), SERVER_PATH) !in existing
    ensures CachedLookup(containerDir, Some(items), existing, binaryPath)
         == Err(MissingExecutable(VersionDir(containerDir, items[last].name)))
  {
    LastVersionDirPicksLast(items, last);
  }

  /** A container with no directory entry (an empty one in particular) has no cached binary. */
  lemma NoDirectoryNoCache(containerDir: Path, items: seq<DirItem>, existing: set<Path>,
                           binaryPath: Option<Path>)
    requires Readable(items)
    requires forall j :: 0 <= j < |items| ==> !IsVersionDir(items[j])
    ensures CachedLookup(containerDir, Some(items), existing, binaryPath) == Err(NoCachedBinary)
  {
    LastVersionDirNoneIff(items);
  }

  /** Any read error, wherever it occurs in the stream, makes the lookup fail. */
  lemma ReadErrorNoCache(containerDir: Path, items: seq<DirItem>, existing: set<Path>,
                         binaryPath: Option<Path>, k: nat)
    requires k < |items| && !items[k].Entry?
    ensures CachedLookup(containerDir, Some(items), existing, binaryPath) == Err(IoError)
  {
  }

  /**
    Two versions enumerated as `1.2.3` (with an entry point) then `1.2.2`
    (without one): the lookup reports a miss for `1.2.2`.
   */
  lemma MissingLastVersionExample(containerDir: Path, binaryPath: Option<Path>)
    ensures var items := [Entry("1.2.3", true), Entry("1.2.2", true)];
      var valid := Join(VersionDir(containerDir, "1.2.3"), SERVER_PATH);
      CachedLookup(containerDir, Some(items), {valid}, binaryPath)
        == Err(MissingExecutable(VersionDir(containerDir, "1.2.2")))
  {
  }

  // ---------------------------------------------------------------------------
  // Configuration payloads
  // ---------------------------------------------------------------------------

  /** `path.parent().unwrap().parent().unwrap()` does not panic. */
  predicate HasGrandparent(p: Path) {
    Parent(p).Some? && Parent(Parent(p).value).Some?
  }

  /** On a well-formed path, a grandparent exists exactly when it reaches two names below the root. */
  lemma {:induction false} HasGrandparentIff(p: Path)
    requires WellFormed(p)
    ensures HasGrandparent(p) <==> Depth(p.components) >= 2
  {
    var cs := p.components;
    var n := |cs|;
    if n >= 2 {
      assert cs[..n - 1][..n - 2] == cs[..n - 2];
      assert Depth(cs[..n - 1]) == Depth(cs[..n - 2]) + (if cs[n - 2].Normal? then 1 else 0);
      assert n == 2 ==> Depth(cs[..n - 2]) == 0;
    } else if n == 1 {
      assert cs[..0] == [];
    }
  }

  /**
    `schema_file_match`: the path relative to its grandparent, i.e. its last
    two components; joined back onto the grandparent it gives the path again.
   */
  function SchemaFileMatch(path: Path): (r: Path)
    requires HasGrandparent(path)
    ensures r.components == path.components[|path.components| - 2..]
    ensures Join(Parent(Parent(path).value).value, r) == path
  {
    var grandparent := Parent(Parent(path).value).value;
    assert grandparent.components <= path.components;
    StripPrefix(path, grandparent).value
  }

  /** `initialization_options`: ask the server to provide formatting. */
  function InitializationOptions(): (r: Option<Json>)
    ensures r.Some? && r.value.Obj? && |r.value.fields| == 1
    ensures Get(r.value, "provideFormatter") == Some(Bool(true))
  {
    Some(Obj([("provideFormatter", Bool(true))]))
  }

  /**
    What `workspace_configuration` reads from the application context: the
    registered action names, the staff flag, the known language names, and
    the two foreign schema generators (`SettingsStore::json_schema` and
    `KeymapFile::generate_json_schema`), whose documents are opaque here.
   */
  datatype HostContext = HostContext(
    actionNames: seq<string>,
    staffMode: bool,
    languageNames: seq<string>,
    settingsSchema: (seq<string>, bool) -> Json,
    keymapSchema: seq<string> -> Json)

  /** The host's settings file, keymap file, and local settings path relative to a worktree. */
  datatype HostPaths = HostPaths(settings: Path, keymap: Path, localSettingsRelative: Path)

  /** One schema binding as the server reads it: `{ "fileMatch": [...], "schema": ... }`. */
  function SchemaBinding(fileMatch: seq<string>, schema: Json): Json {
    Obj([("fileMatch", Arr(Strings(fileMatch))), ("schema", schema)])
  }

  /** The value `b` binds the file patterns `fileMatch`, in order, to `schema`. */
  predicate Binds(b: Json, fileMatch: seq<string>, schema: Json) {
    && At(b, ["fileMatch"]) == Some(Arr(Strings(fileMatch)))
    && At(b, ["schema"]) == Some(schema)
  }

  /** A binding built by `SchemaBinding` reads back as the patterns and schema it was built from. */
  lemma SchemaBindingBinds(fileMatch: seq<string>, schema: Json)
    ensures Binds(SchemaBinding(fileMatch, schema), fileMatch, schema)
  {
    var fields := [("fileMatch", Arr(Strings(fileMatch))), ("schema", schema)];
    assert Lookup(fields[1..], "schema") == Some(schema);
  }

  /**
    `workspace_configuration`: formatting enabled and exactly two schema
    bindings, settings first and keymap second, whatever the actions and
    languages are.
   */
  function WorkspaceConfiguration(workspaceRoot: Path, cx: HostContext, paths: HostPaths): (r: Json)
    requires HasGrandparent(paths.settings) && HasGrandparent(paths.keymap)
    ensures At(r, ["json", "format", "enable"]) == Some(Bool(true))
    ensures var schemas := At(r, ["json", "schemas"]);
      && schemas.Some? && schemas.value.Arr? && |schemas.value.items| == 2
      && Binds(schemas.value.items[0],
               [Render(SchemaFileMatch(paths.settings)), Render(paths.localSettingsRelative)],
               cx.settingsSchema(cx.languageNames, cx.staffMode))
      && Binds(schemas.value.items[1],
               [Render(SchemaFileMatch(paths.keymap))],
               cx.keymapSchema(cx.actionNames))
  {
    var settingsSchema := cx.settingsSchema(cx.languageNames, cx.staffMode);
    var keymapSchema := cx.keymapSchema(cx.actionNames);
    var schemas := Arr([
      SchemaBinding([Render(SchemaFileMatch(paths.settings)), Render(paths.localSettingsRelative)],
                    settingsSchema),
      SchemaBinding([Render(SchemaFileMatch(paths.keymap))], keymapSchema)]);
    var fields := [("format", Obj([("enable", Bool(true))])), ("schemas", schemas)];
    assert Lookup(fields[1..], "schemas") == Some(schemas);
    SchemaBindingBinds([Render(SchemaFileMatch(paths.settings)), Render(paths.localSettingsRelative)],
                       settingsSchema);
    SchemaBindingBinds([Render(SchemaFileMatch(paths.keymap))], keymapSchema);
    Obj([("json", Obj(fields))])
  }

  /** `language_ids`: the editor's `JSON` language is the server's `jsonc`, and there is no other. */
  function LanguageIds(): (r: map<string, string>)
    ensures r.Keys == {"JSON"} && r["JSON"] == "jsonc"
  {
    map["JSON" := "jsonc"]
  }

  /** The settings file `~/.config/zed/settings.json` is matched as `zed/settings.json`. */
  lemma SettingsFileMatchExample()
    ensures var settings := Path([RootDir, Normal("home"), Normal("user"), Normal(".config"),
                                  Normal("zed"), Normal("settings.json")]);
      HasGrandparent(settings)
      && Render(SchemaFileMatch(settings)) == "zed/settings.json"
  {
    var settings := Path([RootDir, Normal("home"), Normal("user"), Normal(".config"),
                          Normal("zed"), Normal("settings.json")]);
    assert SchemaFileMatch(settings).components == [Normal("zed"), Normal("settings.json")];
  }
}
