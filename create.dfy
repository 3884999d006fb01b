/**
 * The project-creation orchestrator: PopulateDirectory, which clones the
 * template and writes the two initializer files, and the import scan
 * (extractImports over a directory walk, parseImports per Go file).
 */
module Create {
  import opened Wrappers
  import opened GoText
  import opened Errors
  import opened Configurations
  import opened Generators
  import opened Seqs

  /** The choices the prompts collected. */
  datatype Options = Options(projectName: string, framework: string, database: string, orm: string)

  /**
   * What `ctx.Done()` reports at each point where the pipeline looks at it:
   * on entry to PopulateDirectory, on entry to GenerateDatabaseFile and on
   * entry to GenerateMigrationFile. The clone in between may take long, so
   * a signal can arrive after the first look.
   */
  datatype Timeline = Timeline(atStart: Context, atDatabase: Context, atMigration: Context)

  /** `filepath.Join(currentDir, projectName, "initializers")`. */
  function InitializersFolder(currentDir: Path, projectName: string): Path {
    Join(Join(currentDir, projectName), "initializers")
  }

  function DatabasePath(options: Options, currentDir: Path): Path {
    Join(InitializersFolder(currentDir, options.projectName), DatabaseFileName)
  }

  function MigrationPath(options: Options, currentDir: Path): Path {
    Join(InitializersFolder(currentDir, options.projectName), MigrationFileName)
  }

  /** Both a database and an ORM were chosen, so the initializers are generated. */
  predicate WantsDatabase(options: Options) {
    options.database != "" && options.orm != ""
  }

  lemma DistinctPaths(options: Options, currentDir: Path)
    ensures DatabasePath(options, currentDir) != MigrationPath(options, currentDir)
  {
    var folder := InitializersFolder(currentDir, options.projectName);
    var d := DatabasePath(options, currentDir);
    assert d[|folder| + 1] == 'd';
    assert MigrationPath(options, currentDir)[|folder| + 1] == 'm';
  }

  /**
   * What PopulateDirectory does, as a function of the state before it:
   * `cloneError` is what GitClone returned, `cfg` the loaded registry and
   * `currentDir` the working directory.
   */
  function Populate(ctx: Timeline, options: Options, cloneError: Option<string>, cfg: Config,
                    currentDir: Path, faults: Faults, files: map<Path, string>): (s: Step)
    // the failures that happen before anything is generated leave the disk alone
    ensures ctx.atStart.Done? ==> s == Step(Fail(ContextErr(ctx.atStart.reason)), files)
    ensures ctx.atStart.Live? && cloneError.Some? ==> s == Step(Fail(CloneFailed(cloneError.value)), files)
    ensures ctx.atStart.Live? && cloneError.None? && !WantsDatabase(options) ==> s == Step(Pass, files)
    ensures ctx.atStart.Live? && cloneError.None? && WantsDatabase(options)
            && !Registered(cfg, options.database, options.orm) ==>
              s == Step(Fail(ProviderFailed(ProviderFactory(cfg, options.database, options.orm).error)), files)
    // only the two initializer files can appear or change
    ensures s.files.Keys <= files.Keys + {DatabasePath(options, currentDir), MigrationPath(options, currentDir)}
    ensures forall q :: q in files && q != DatabasePath(options, currentDir) && q != MigrationPath(options, currentDir)
              ==> q in s.files && s.files[q] == files[q]
    // a failing generator's error comes back wrapped with its file, and a
    // failed migration file leaves the database file as it was written
    ensures ctx.atStart.Live? && cloneError.None? && WantsDatabase(options)
            && Registered(cfg, options.database, options.orm) ==>
      var p := ProviderFactory(cfg, options.database, options.orm).value;
      var folder := InitializersFolder(currentDir, options.projectName);
      var db := DatabaseFileStep(ctx.atDatabase, faults, files, folder, p);
      var mig := MigrationFileStep(ctx.atMigration, faults, db.files, folder, p);
      && (db.outcome.Fail? ==> s == Step(Fail(GenerateFailed(DatabaseFile, db.outcome.error)), db.files))
      && (db.outcome.Pass? && mig.outcome.Fail? ==>
            && s == Step(Fail(GenerateFailed(MigrationFile, mig.outcome.error)), mig.files)
            && DatabasePath(options, currentDir) in s.files
            && s.files[DatabasePath(options, currentDir)] == DatabaseFileText(p))
    // only a cancellation seen on entry comes back as the context's own error
    ensures s.outcome.Fail? ==> (IsContextError(s.outcome.error) <==> ctx.atStart.Done?)
  {
    DistinctPaths(options, currentDir);
    if ctx.atStart.Done? then Step(Fail(ContextErr(ctx.atStart.reason)), files)
    else if cloneError.Some? then Step(Fail(CloneFailed(cloneError.value)), files)
    else if !WantsDatabase(options) then Step(Pass, files)
    else match ProviderFactory(cfg, options.database, options.orm)
      case Failure(e) => Step(Fail(ProviderFailed(e)), files)
      case Success(p) =>
        var folder := InitializersFolder(currentDir, options.projectName);
        var db := DatabaseFileStep(ctx.atDatabase, faults, files, folder, p);
        if db.outcome.Fail? then Step(Fail(GenerateFailed(DatabaseFile, db.outcome.error)), db.files)
        else
          var mig := MigrationFileStep(ctx.atMigration, faults, db.files, folder, p);
          if mig.outcome.Fail? then Step(Fail(GenerateFailed(MigrationFile, mig.outcome.error)), mig.files)
          else Step(Pass, mig.files)
  }

  /**
   * A full run succeeds exactly when nothing stops it, and then both files
   * hold the text their generator renders from the resolved provider.
   */
  lemma PopulateSucceeds(ctx: Timeline, options: Options, cloneError: Option<string>, cfg: Config,
                         currentDir: Path, faults: Faults, files: map<Path, string>)
    ensures var s := Populate(ctx, options, cloneError, cfg, currentDir, faults, files);
      var dp := DatabasePath(options, currentDir);
      var mp := MigrationPath(options, currentDir);
      && (s.outcome.Pass? <==>
            ctx.atStart.Live? && cloneError.None?
            && (WantsDatabase(options) ==>
                  && Registered(cfg, options.database, options.orm)
                  && ctx.atDatabase.Live? && dp !in faults.create && dp !in faults.write
                  && ctx.atMigration.Live? && mp !in faults.create && mp !in faults.write))
      && (s.outcome.Pass? && WantsDatabase(options) ==>
            var p := ProviderFactory(cfg, options.database, options.orm).value;
            && dp in s.files && s.files[dp] == DatabaseFileText(p)
            && mp in s.files && s.files[mp] == MigrationFileText(p))
  {
    DistinctPaths(options, currentDir);
  }

  /**
   * A failed database file stops the run: the migration file is not touched,
   * and the error names the database file.
   */
  lemma DatabaseFailureSkipsMigration(ctx: Timeline, options: Options, cloneError: Option<string>, cfg: Config,
                                      currentDir: Path, faults: Faults, files: map<Path, string>)
    requires ctx.atStart.Live? && cloneError.None? && WantsDatabase(options)
    requires Registered(cfg, options.database, options.orm)
    requires ctx.atDatabase.Done? || DatabasePath(options, currentDir) in faults.create
             || DatabasePath(options, currentDir) in faults.write
    ensures var s := Populate(ctx, options, cloneError, cfg, currentDir, faults, files);
      var dp := DatabasePath(options, currentDir);
      var mp := MigrationPath(options, currentDir);
      && s.outcome.Fail? && s.outcome.error.GenerateFailed? && s.outcome.error.file == DatabaseFile
      && s.outcome.error.cause ==
           (if ctx.atDatabase.Done? then ContextErr(ctx.atDatabase.reason)
            else if dp in faults.create then CreateFileError(DatabaseFile, faults.create[dp])
            else ExecuteTemplateError(DatabaseFile, faults.write[dp]))
      && (mp in s.files <==> mp in files)
      && (mp in files ==> s.files[mp] == files[mp])
  {
    DistinctPaths(options, currentDir);
  }

  /**
   * A failed migration file ends the run with the migration-file wrapper
   * around the generator's own error, after the database file was written.
   */
  lemma MigrationFailureKeepsDatabase(ctx: Timeline, options: Options, cloneError: Option<string>, cfg: Config,
                                      currentDir: Path, faults: Faults, files: map<Path, string>)
    requires ctx.atStart.Live? && cloneError.None? && WantsDatabase(options)
    requires Registered(cfg, options.database, options.orm)
    requires ctx.atDatabase.Live? && DatabasePath(options, currentDir) !in faults.create
             && DatabasePath(options, currentDir) !in faults.write
    requires ctx.atMigration.Done? || MigrationPath(options, currentDir) in faults.create
             || MigrationPath(options, currentDir) in faults.write
    ensures var s := Populate(ctx, options, cloneError, cfg, currentDir, faults, files);
      var p := ProviderFactory(cfg, options.database, options.orm).value;
      var dp := DatabasePath(options, currentDir);
      var mp := MigrationPath(options, currentDir);
      && s.outcome == Fail(GenerateFailed(MigrationFile,
           if ctx.atMigration.Done? then ContextErr(ctx.atMigration.reason)
           else if mp in faults.create then CreateFileError(MigrationFile, faults.create[mp])
           else ExecuteTemplateError(MigrationFile, faults.write[mp])))
      && dp in s.files && s.files[dp] == DatabaseFileText(p)
      && (ctx.atMigration.Live? && mp !in faults.create ==> mp in s.files && s.files[mp] == "")
  {
    DistinctPaths(options, currentDir);
  }

  /** The wrapped cancellation, with the text the caller sees. */
  lemma CancelledGeneratorIsWrapped(ctx: Timeline, options: Options, cfg: Config,
                                    currentDir: Path, faults: Faults, files: map<Path, string>)
    requires ctx.atStart.Live? && ctx.atDatabase == Done(Canceled) && WantsDatabase(options)
    requires Registered(cfg, options.database, options.orm)
    ensures var s := Populate(ctx, options, None, cfg, currentDir, faults, files);
      && s == Step(Fail(GenerateFailed(DatabaseFile, ContextErr(Canceled))), files)
      && !IsContextError(s.outcome.error)
      && Message(s.outcome.error) == "error generating database file: context canceled"
  {
    var p := ProviderFactory(cfg, options.database, options.orm).value;
    var folder := InitializersFolder(currentDir, options.projectName);
    assert DatabaseFileStep(ctx.atDatabase, faults, files, folder, p) == Step(Fail(ContextErr(Canceled)), files);
    WrappedCancelMessage();
  }

  lemma WrappedCancelMessage()
    ensures Message(GenerateFailed(DatabaseFile, ContextErr(Canceled))) == "error generating database file: context canceled"
  {
    assert Message(GenerateFailed(DatabaseFile, ContextErr(Canceled)))
        == "error generating " + "database" + " file: " + "context canceled";
  }

  /** PopulateDirectory: clone the template, then generate the initializers. */
  method PopulateDirectory(ctx: Timeline, options: Options, cloneError: Option<string>, cfg: Config,
                           currentDir: Path, fs: FileSystem) returns (r: Outcome<Error>)
    modifies fs
    ensures Step(r, fs.files) == Populate(ctx, options, cloneError, cfg, currentDir, fs.faults, old(fs.files))
  {
    if ctx.atStart.Done? {
      return Fail(ContextErr(ctx.atStart.reason));
    }
    if cloneError.Some? {
      return Fail(CloneFailed(cloneError.value));
    }
    var folder := InitializersFolder(currentDir, options.projectName);
    if WantsDatabase(options) {
      var provider := ProviderFactory(cfg, options.database, options.orm);
      if provider.Failure? {
        return Fail(ProviderFailed(provider.error));
      }
      var err := GenerateDatabaseFile(ctx.atDatabase, folder, provider.value, fs);
      if err.Fail? {
        return Fail(GenerateFailed(DatabaseFile, err.error));
      }
      err := GenerateMigrationFile(ctx.atMigration, folder, provider.value, fs);
      if err.Fail? {
        return Fail(GenerateFailed(MigrationFile, err.error));
      }
    }
    return Pass;
  }

  // ---------------------------------------------------------------------------
  // The import scan
  // ---------------------------------------------------------------------------

  /**
   * One call of the walk callback: the path, whether it is a directory, the
   * error the walk passes in, and what `parser.ParseFile` in imports-only
   * mode gives for the path (the import path literals as written, or the
   * parse error text); the parse is consulted only for Go files.
   */
  datatype WalkEntry = WalkEntry(path: Path, isDir: bool, visitError: Option<string>,
                                 parsed: Result<seq<string>, string>)

  predicate HasSuffix(s: string, suffix: string) {
    |suffix| <= |s| && s[|s| - |suffix|..] == suffix
  }

  predicate IsGoFile(e: WalkEntry) {
    !e.isDir && HasSuffix(e.path, ".go")
  }

  /** The import paths of one file: each literal with its quotes trimmed. */
  function TrimmedImports(literals: seq<string>): (r: seq<string>)
    ensures |r| == |literals| && forall i :: 0 <= i < |r| ==> r[i] == TrimQuotes(literals[i])
  {
    seq(|literals|, i requires 0 <= i < |literals| => TrimQuotes(literals[i]))
  }

  /** parseImports: the parse error, or the file's import paths in source order. */
  method ParseImports(parsed: Result<seq<string>, string>) returns (r: Result<seq<string>, string>)
    ensures parsed.Failure? ==> r == Failure(parsed.error)
    ensures parsed.Success? ==>
              && r.Success? && |r.value| == |parsed.value|
              && forall i :: 0 <= i < |r.value| ==> r.value[i] == TrimQuotes(parsed.value[i])
  {
    if parsed.Failure? {
      return Failure(parsed.error);
    }
    var imports: seq<string> := [];
    for i := 0 to |parsed.value|
      invariant |imports| == i
      invariant forall k :: 0 <= k < i ==> imports[k] == TrimQuotes(parsed.value[k])
    {
      imports := imports + [TrimQuotes(parsed.value[i])];
    }
    return Success(imports);
  }

  /** Quoting a plain path and parsing it back gives the path. */
  lemma ParseQuotedImports(paths: seq<string>)
    requires forall i :: 0 <= i < |paths| ==> Plain(paths[i])
    ensures TrimmedImports(seq(|paths|, i requires 0 <= i < |paths| => Quote(paths[i]))) == paths
  {
    var quoted := seq(|paths|, i requires 0 <= i < |paths| => Quote(paths[i]));
    forall i | 0 <= i < |paths|
      ensures TrimmedImports(quoted)[i] == paths[i]
    {
      TrimQuotesOfQuote(paths[i]);
    }
  }

  /**
   * The import block a generator writes lists the provider's paths quoted;
   * when none of them needs escaping, parsing it back yields exactly those
   * paths, in order.
   */
  lemma ScanRecoversProviderImports(p: CombinationProvider)
    requires forall x :: x in ImportPaths(p) ==> Plain(x)
    ensures TrimmedImports(p.Imports()) == ImportPaths(p)
  {
    var paths := ImportPaths(p);
    ImportsQuotePaths(p);
    assert p.Imports() == seq(|paths|, i requires 0 <= i < |paths| => Quote(paths[i]));
    ParseQuotedImports(paths);
  }

  /** The entry makes the walk stop, and the error it stops with. */
  predicate Broken(e: WalkEntry) {
    e.visitError.Some? || (IsGoFile(e) && e.parsed.Failure?)
  }

  function BrokenError(e: WalkEntry): string
    requires Broken(e)
  {
    if e.visitError.Some? then e.visitError.value else e.parsed.error
  }

  /**
   * The walk over `entries`: the first error the callback returns, or the
   * trimmed import lists of the Go files in walk order.
   */
  function Walked(entries: seq<WalkEntry>): (r: Result<seq<seq<string>>, string>)
    ensures r.Success? ==> |r.value| <= |entries| && forall i :: 0 <= i < |entries| ==> !Broken(entries[i])
    decreases |entries|
  {
    if entries == [] then Success([])
    else
      var e := entries[|entries| - 1];
      match Walked(entries[..|entries| - 1])
      case Failure(m) => Failure(m)
      case Success(files) =>
        if Broken(e) then Failure(BrokenError(e))
        else if IsGoFile(e) then Success(files + [TrimmedImports(e.parsed.value)])
        else Success(files)
  }

  function Flatten(files: seq<seq<string>>): seq<string>
    decreases |files|
  {
    if files == [] then [] else Flatten(files[..|files| - 1]) + files[|files| - 1]
  }

  /** Keep the first occurrence of every element, in order. */
  function Dedup(s: seq<string>): (r: seq<string>)
    ensures forall x :: x in r <==> x in s
    decreases |s|
  {
    if s == [] then []
    else
      var rest := Dedup(s[..|s| - 1]);
      if s[|s| - 1] in rest then rest else rest + [s[|s| - 1]]
  }

  /**
   * What extractImports returns for a walk. It succeeds exactly when no entry
   * stops the walk, and then lists every import path of every Go file once
   * and nothing else; otherwise it fails with the first stopping entry's error.
   */
  function ExtractedImports(entries: seq<WalkEntry>): (r: Result<seq<string>, string>)
    ensures r.Success? <==> forall i :: 0 <= i < |entries| ==> !Broken(entries[i])
    ensures r.Success? ==>
      && NoDuplicates(r.value)
      && forall x :: x in r.value <==>
           exists i :: 0 <= i < |entries| && IsGoFile(entries[i]) && x in TrimmedImports(entries[i].parsed.value)
    ensures r.Failure? ==>
      exists i :: 0 <= i < |entries| && Broken(entries[i])
        && (forall j :: 0 <= j < i ==> !Broken(entries[j]))
        && r.error == BrokenError(entries[i])
  {
    WalkedFailsAt(entries);
    match Walked(entries)
    case Failure(m) => Failure(m)
    case Success(files) =>
      DedupNoDuplicates(Flatten(files));
      WalkedPaths(entries);
      Success(Dedup(Flatten(files)))
  }

  lemma WalkedExtend(entries: seq<WalkEntry>, i: nat)
    requires i < |entries|
    ensures entries[..i + 1][..i] == entries[..i]
    ensures Walked(entries[..i + 1]) ==
      match Walked(entries[..i])
      case Failure(m) => Failure(m)
      case Success(files) =>
        if Broken(entries[i]) then Failure(BrokenError(entries[i]))
        else if IsGoFile(entries[i]) then Success(files + [TrimmedImports(entries[i].parsed.value)])
        else Success(files)
  {
    assert entries[..i + 1][..i] == entries[..i];
  }

  /** Once the walk has failed, later entries do not change its error. */
  lemma {:induction false} WalkedFailureSticks(entries: seq<WalkEntry>, i: nat)
    requires i <= |entries| && Walked(entries[..i]).Failure?
    ensures Walked(entries) == Walked(entries[..i])
    decreases |entries| - i
  {
    if i < |entries| {
      WalkedExtend(entries, i);
      WalkedFailureSticks(entries, i + 1);
    } else {
      assert entries[..i] == entries;
    }
  }

  lemma FlattenAppend(files: seq<seq<string>>, f: seq<string>)
    ensures Flatten(files + [f]) == Flatten(files) + f
  {
    assert (files + [f])[..|files|] == files;
  }

  lemma DedupAppend(s: seq<string>, x: string)
    ensures Dedup(s + [x]) == if x in s then Dedup(s) else Dedup(s) + [x]
  {
    assert (s + [x])[..|s|] == s;
  }

  lemma DedupPrefixStep(before: seq<string>, fi: seq<string>, j: nat)
    requires j < |fi|
    ensures Dedup(before + fi[..j + 1]) ==
      if fi[j] in Dedup(before + fi[..j]) then Dedup(before + fi[..j]) else Dedup(before + fi[..j]) + [fi[j]]
  {
    assert fi[..j + 1] == fi[..j] + [fi[j]];
    assert before + fi[..j + 1] == (before + fi[..j]) + [fi[j]];
    DedupAppend(before + fi[..j], fi[j]);
  }

  /** A broken entry ends a walk that had not failed before it, with its own error. */
  lemma WalkedStopsAt(entries: seq<WalkEntry>, i: nat, files: seq<seq<string>>)
    requires i < |entries| && Walked(entries[..i]) == Success(files) && Broken(entries[i])
    ensures Walked(entries) == Failure(BrokenError(entries[i]))
  {
    WalkedExtend(entries, i);
    WalkedFailureSticks(entries, i + 1);
  }

  /** Any other entry adds its import list when it is a Go file, and nothing otherwise. */
  lemma WalkedContinues(entries: seq<WalkEntry>, i: nat, files: seq<seq<string>>)
    requires i < |entries| && Walked(entries[..i]) == Success(files) && !Broken(entries[i])
    ensures Walked(entries[..i + 1]) ==
      Success(if IsGoFile(entries[i]) then files + [TrimmedImports(entries[i].parsed.value)] else files)
  {
    WalkedExtend(entries, i);
  }

  /**
   * The walk callback of extractImports on one entry. It returns the error
   * that stops the walk, or extends the paths collected so far (the
   * deduplicated `before`) with the entry's paths not seen yet.
   */
  method Visit(e: WalkEntry, ghost before: seq<string>, imports: seq<string>, unique: set<string>)
    returns (err: Option<string>, newImports: seq<string>, newUnique: set<string>)
    requires imports == Dedup(before)
    requires forall x :: x in unique <==> x in imports
    ensures Broken(e) ==> err == Some(BrokenError(e))
    ensures !Broken(e) ==> err.None?
    ensures !Broken(e) ==>
      newImports == Dedup(before + (if IsGoFile(e) then TrimmedImports(e.parsed.value) else []))
    ensures forall x :: x in newUnique <==> x in newImports
  {
    if e.visitError.Some? {
      return e.visitError, imports, unique;
    }
    newImports, newUnique := imports, unique;
    if IsGoFile(e) {
      var fileImports := ParseImports(e.parsed);
      if fileImports.Failure? {
        return Some(fileImports.error), imports, unique;
      }
      var fi := fileImports.value;
      assert fi == TrimmedImports(e.parsed.value);
      assert before + fi[..0] == before;
      for j := 0 to |fi|
        invariant newImports == Dedup(before + fi[..j])
        invariant forall x :: x in newUnique <==> x in newImports
      {
        DedupPrefixStep(before, fi, j);
        var imp := fi[j];
        if imp !in newUnique {
          newUnique := newUnique + {imp};
          newImports := newImports + [imp];
        }
      }
      PrefixAll(fi);
    } else {
      assert before + [] == before;
    }
    err := None;
  }

  /** extractImports: the deduplicated import paths of every Go file under the walk. */
  method ExtractImports(entries: seq<WalkEntry>) returns (r: Result<seq<string>, string>)
    ensures r == ExtractedImports(entries)
  {
    var imports: seq<string> := [];
    var unique: set<string> := {};
    ghost var files: seq<seq<string>> := [];
    for i := 0 to |entries|
      invariant Walked(entries[..i]) == Success(files)
      invariant imports == Dedup(Flatten(files))
      invariant forall x :: x in unique <==> x in imports
    {
      var err;
      err, imports, unique := Visit(entries[i], Flatten(files), imports, unique);
      if err.Some? {
        WalkedStopsAt(entries, i, files);
        return Failure(err.value);
      }
      WalkedContinues(entries, i, files);
      if IsGoFile(entries[i]) {
        FlattenAppend(files, TrimmedImports(entries[i].parsed.value));
        files := files + [TrimmedImports(entries[i].parsed.value)];
      } else {
        assert Flatten(files) + [] == Flatten(files);
      }
    }
    PrefixAll(entries);
    return Success(imports);
  }

  // ---------------------------------------------------------------------------
  // Properties of the scan
  // ---------------------------------------------------------------------------

  /** Every import path is listed once. */
  lemma {:induction false} DedupNoDuplicates(s: seq<string>)
    ensures NoDuplicates(Dedup(s))
    decreases |s|
  {
    if s != [] {
      DedupNoDuplicates(s[..|s| - 1]);
    }
  }

  /** Paths keep the order of their first occurrence in the walk. */
  lemma {:induction false} DedupFirstOccurrenceOrder(s: seq<string>, x: string, y: string)
    requires x in s && y in s
    ensures FirstIndex(Dedup(s), x) < FirstIndex(Dedup(s), y) <==> FirstIndex(s, x) < FirstIndex(s, y)
    decreases |s|
  {
    var init := s[..|s| - 1];
    var last := s[|s| - 1];
    assert s == init + [last];
    if x in init && y in init {
      DedupFirstOccurrenceOrder(init, x, y);
      FirstIndexAppend(init, last, x);
      FirstIndexAppend(init, last, y);
      if last !in init {
        FirstIndexAppend(Dedup(init), last, x);
        FirstIndexAppend(Dedup(init), last, y);
      }
    } else if x in init {
      FirstIndexFresh(s, y);
      FirstIndexAppend(init, last, x);
      FirstIndexFresh(Dedup(s), y);
      FirstIndexAppend(Dedup(init), last, x);
    } else if y in init {
      FirstIndexFresh(s, x);
      FirstIndexAppend(init, last, y);
      FirstIndexFresh(Dedup(s), x);
      FirstIndexAppend(Dedup(init), last, y);
    }
  }

  /** An element that only occurs last is first found there. */
  lemma FirstIndexFresh(s: seq<string>, x: string)
    requires |s| >= 1 && s[|s| - 1] == x && x !in s[..|s| - 1]
    ensures FirstIndex(s, x) == |s| - 1
  {
  }

  /**
   * On a walk that succeeds, the collected paths are exactly those of the
   * Go files' import lists.
   */
  lemma {:induction false} WalkedPaths(entries: seq<WalkEntry>)
    requires Walked(entries).Success?
    ensures forall x :: x in Flatten(Walked(entries).value) <==>
      exists i :: 0 <= i < |entries| && IsGoFile(entries[i]) && x in TrimmedImports(entries[i].parsed.value)
    decreases |entries|
  {
    if entries != [] {
      var n := |entries| - 1;
      var init := entries[..n];
      WalkedPaths(init);
      var files := Walked(init).value;
      assert forall j :: 0 <= j < n ==> init[j] == entries[j];
      if IsGoFile(entries[n]) {
        FlattenAppend(files, TrimmedImports(entries[n].parsed.value));
      }
      forall x | x in Flatten(Walked(entries).value)
        ensures exists i :: 0 <= i < |entries| && IsGoFile(entries[i]) && x in TrimmedImports(entries[i].parsed.value)
      {
        if x !in Flatten(files) {
          assert IsGoFile(entries[n]) && x in TrimmedImports(entries[n].parsed.value);
        }
      }
    }
  }

  /** The walk fails exactly when some entry is broken, with the first one's error. */
  lemma {:induction false} WalkedFailsAt(entries: seq<WalkEntry>)
    ensures Walked(entries).Failure? <==> exists i :: 0 <= i < |entries| && Broken(entries[i])
    ensures Walked(entries).Failure? ==>
      exists i :: 0 <= i < |entries| && Broken(entries[i])
        && (forall j :: 0 <= j < i ==> !Broken(entries[j]))
        && Walked(entries).error == BrokenError(entries[i])
    decreases |entries|
  {
    if entries != [] {
      var n := |entries| - 1;
      var init := entries[..n];
      WalkedFailsAt(init);
      assert forall j :: 0 <= j < n ==> init[j] == entries[j];
      if Walked(init).Failure? {
        var i :| 0 <= i < |init| && Broken(init[i])
          && (forall j :: 0 <= j < i ==> !Broken(init[j]))
          && Walked(init).error == BrokenError(init[i]);
        assert Broken(entries[i]);
      } else if Broken(entries[n]) {
        assert Walked(entries).error == BrokenError(entries[n]);
      }
    }
  }
}
