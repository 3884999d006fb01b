/**
 * The combination registry and the provider it resolves to
 * (internal/helpers/configurations.go). The registry is the process-wide
 * configuration loaded at start-up; here it is an explicit, immutable value.
 */
module Configurations {
  import opened Wrappers
  import opened GoText
  import opened Errors
  import opened Seqs

  datatype DatabaseConfig = DatabaseConfig(driverPkg: string)

  datatype OrmConfig = OrmConfig(name: string, importPath: string)

  datatype CombinationConfig = CombinationConfig(
    dsnTemplate: string,
    initFunc: string,
    additionalImports: seq<string>)

  /** The registry: databases, ORMs, the supported pairs and per-ORM migration code. */
  datatype Config = Config(
    databases: map<string, DatabaseConfig>,
    orms: map<string, OrmConfig>,
    combinations: map<string, map<string, CombinationConfig>>,
    migrationCode: map<string, string>)

  /** The pair has a database entry, an ORM entry and a combination entry. */
  predicate Registered(cfg: Config, database: string, orm: string) {
    && database in cfg.databases
    && orm in cfg.orms
    && database in cfg.combinations
    && orm in cfg.combinations[database]
  }

  // The lines of the connection-code template. Each long line is written as
  // two literals, the call and its argument, joined with `+`.

  const ErrDeclLine := "    var err error"

  /** The three placeholder credentials the generated DSN is built from. */
  const DsnArguments := ", \"your_username\"" + ", \"your_password\"" + ", \"your_database\")"

  /** The line of the connection code that builds the DSN from the template. */
  function DsnLine(dsnTemplate: string): string {
    "    dsn := fmt.Sprintf(" + Quote(dsnTemplate) + DsnArguments
  }

  const InitPrefix := "    DB, err = "

  /** The lines of the connection code after the initialisation call. */
  const ConnectionTrailer: seq<string> := [
    "    if err != nil {",
    "        fmt.Println(" + "\"failed to connect to database\")",
    "    }",
    "    fmt.Println(" + "\"Connect to database\")",
    "    "]

  /** The resolved, read-only view of one database/ORM combination. */
  datatype CombinationProvider = CombinationProvider(
    database: DatabaseConfig,
    orm: OrmConfig,
    combination: CombinationConfig,
    migrationCode: string)
  {
    /** The import literals of the provider, the specification of GetImports. */
    function Imports(): (r: seq<string>)
      ensures |r| == 2 + |combination.additionalImports|
      ensures r[0] == Quote(database.driverPkg) && r[1] == Quote(orm.importPath)
      ensures forall i :: 0 <= i < |combination.additionalImports| ==>
                r[2 + i] == Quote(combination.additionalImports[i])
    {
      var paths := ImportPaths(this);
      assert forall i :: 0 <= i < |combination.additionalImports| ==>
        paths[2 + i] == combination.additionalImports[i];
      QuoteAll(paths)
    }

    method GetImports() returns (imports: seq<string>)
      ensures imports == Imports()
    {
      imports := [Quote(database.driverPkg), Quote(orm.importPath)];
      var extra := combination.additionalImports;
      var all := Imports();
      PrefixTwo(all);
      for i := 0 to |extra|
        invariant imports == all[..2 + i]
      {
        PrefixExtend(all, 2 + i);
        imports := imports + [Quote(extra[i])];
      }
      PrefixAll(all);
    }

    /**
     * The connection-setup fragment: the Sprintf template of the source, with
     * the quoted DSN template and the initialisation expression filled in.
     */
    function GetConnectionCode(): (r: string)
      ensures SplitLines(r) == [""] + ConnectionBody(this)
    {
      ConnectionTemplateLines(this);
      JoinLines(ConnectionTemplate(this))
    }

    function GetMigrationCode(): string {
      migrationCode
    }

    /** The type of the generated handle, `*<ORM name>.DB`. */
    function GetDBVariable(): (r: string)
      ensures |r| == |orm.name| + 4
      ensures r[0] == '*' && r[1..|r| - 3] == orm.name && r[|r| - 3..] == ".DB"
      ensures '\n' !in orm.name ==> '\n' !in r
    {
      "*" + orm.name + ".DB"
    }
  }

  /**
   * Resolves a (database, ORM) pair: the database entry, then the ORM entry,
   * then the combination entry, each miss failing with its own error. The
   * migration code is looked up too, but a miss there yields "".
   */
  function ProviderFactory(cfg: Config, database: string, orm: string): (r: Result<CombinationProvider, Error>)
    ensures database !in cfg.databases ==> r == Failure(DatabaseNotFound(database))
    ensures database in cfg.databases && orm !in cfg.orms ==> r == Failure(OrmNotFound(orm))
    ensures database in cfg.databases && orm in cfg.orms && !Registered(cfg, database, orm) ==>
              r == Failure(CombinationNotFound(database, orm))
    ensures r.Success? <==> Registered(cfg, database, orm)
    ensures r.Success? ==>
              && r.value.database == cfg.databases[database]
              && r.value.orm == cfg.orms[orm]
              && r.value.combination == cfg.combinations[database][orm]
              && r.value.GetMigrationCode() == (if orm in cfg.migrationCode then cfg.migrationCode[orm] else "")
              && r.value.GetDBVariable() == "*" + cfg.orms[orm].name + ".DB"
  {
    if database !in cfg.databases then Failure(DatabaseNotFound(database))
    else if orm !in cfg.orms then Failure(OrmNotFound(orm))
    else if !(database in cfg.combinations && orm in cfg.combinations[database]) then
      Failure(CombinationNotFound(database, orm))
    else
      Success(CombinationProvider(
        cfg.databases[database],
        cfg.orms[orm],
        cfg.combinations[database][orm],
        if orm in cfg.migrationCode then cfg.migrationCode[orm] else ""))
  }

  /** The import paths of a provider, in the order GetImports lists them. */
  function ImportPaths(p: CombinationProvider): seq<string> {
    [p.database.driverPkg, p.orm.importPath] + p.combination.additionalImports
  }

  /** The import paths of a combination are pairwise distinct. */
  predicate DistinctImportPaths(p: CombinationProvider) {
    NoDuplicates(ImportPaths(p))
  }

  /** Unfolds `Imports` into the quoted import paths, for the proofs below. */
  lemma ImportsQuotePaths(p: CombinationProvider)
    ensures p.Imports() == QuoteAll(ImportPaths(p))
  {
  }

  /**
   * The driver package, the ORM import and every additional import each appear
   * in the import list exactly once, provided the registry lists them without
   * repetition: the list is their quoted forms, and quoting is injective.
   */
  lemma ImportsEachOnce(p: CombinationProvider)
    requires DistinctImportPaths(p)
    ensures NoDuplicates(p.Imports())
    ensures forall x :: x in ImportPaths(p) ==> Quote(x) in p.Imports()
  {
    var paths := ImportPaths(p);
    var r := p.Imports();
    ImportsQuotePaths(p);
    forall i, j | 0 <= i < j < |r| ensures r[i] != r[j] {
      QuoteInjective(paths[i], paths[j]);
    }
    forall x | x in paths ensures Quote(x) in r {
      var k :| 0 <= k < |paths| && paths[k] == x;
      assert r[k] == Quote(x);
    }
  }

  /**
   * The import list is not deduplicated: an additional import that repeats the
   * driver package appears twice.
   */
  lemma ImportsKeepRepeats(p: CombinationProvider, k: nat)
    requires k < |p.combination.additionalImports|
    requires p.combination.additionalImports[k] == p.database.driverPkg
    ensures !NoDuplicates(p.Imports())
  {
    assert p.Imports()[0] == p.Imports()[2 + k];
  }

  lemma ConnectionTrailerIsLines()
    ensures NoNewlines(ConnectionTrailer)
  {
    assert '\n' !in ConnectionTrailer[1];
    assert '\n' !in ConnectionTrailer[3];
  }

  /**
   * The lines of the connection code after its leading newline: the error
   * declaration, the DSN line, the lines of the initialisation call, then
   * the error check and the two log lines.
   */
  function ConnectionBody(p: CombinationProvider): seq<string> {
    [ErrDeclLine, DsnLine(p.combination.dsnTemplate)]
    + SplitLines(InitPrefix + p.combination.initFunc)
    + ConnectionTrailer
  }

  /** The lines of the connection-code template, with the provider's values filled in. */
  function ConnectionTemplate(p: CombinationProvider): seq<string> {
    ["", ErrDeclLine, DsnLine(p.combination.dsnTemplate), InitPrefix + p.combination.initFunc]
    + ConnectionTrailer
  }

  /**
   * Joining the template lines and splitting them again gives a blank line,
   * the error declaration, the DSN line, the lines of the initialisation call
   * (it may span several), then the error check and the two log lines.
   */
  lemma ConnectionTemplateLines(p: CombinationProvider)
    ensures SplitLines(JoinLines(ConnectionTemplate(p))) == [""] + ConnectionBody(p)
  {
    var head := ["", ErrDeclLine, DsnLine(p.combination.dsnTemplate)];
    var init := InitPrefix + p.combination.initFunc;
    ConnectionHeadIsLines(p.combination.dsnTemplate);
    ConnectionTrailerIsLines();
    assert head + [init] + ConnectionTrailer
        == ["", ErrDeclLine, DsnLine(p.combination.dsnTemplate), init] + ConnectionTrailer;
    SplitJoinAround(head, init, ConnectionTrailer);
    assert head + SplitLines(init) + ConnectionTrailer == [""] + ConnectionBody(p);
  }

  lemma ConnectionHeadIsLines(dsnTemplate: string)
    ensures NoNewlines(["", ErrDeclLine, DsnLine(dsnTemplate)])
  {
    DsnLineIsLine(dsnTemplate);
    assert '\n' !in ErrDeclLine;
  }

  lemma DsnLineIsLine(dsnTemplate: string)
    ensures '\n' !in DsnLine(dsnTemplate)
  {
    QuoteHasNoNewline(dsnTemplate);
    assert '\n' !in DsnArguments;
  }

  /**
   * In the body, the DSN line passes the quoted template and the three
   * placeholder credentials to `fmt.Sprintf`, and the next line starts with
   * `DB, err = ` followed by the initialisation expression.
   */
  lemma ConnectionBodyLines(p: CombinationProvider)
    ensures ConnectionBody(p)[1] == "    dsn := fmt.Sprintf(" + Quote(p.combination.dsnTemplate)
              + ", \"your_username\"" + ", \"your_password\"" + ", \"your_database\")"
    ensures ConnectionBody(p)[2] == "    DB, err = " + SplitLines(p.combination.initFunc)[0]
  {
    var body := ConnectionBody(p);
    var init := SplitLines(InitPrefix + p.combination.initFunc);
    assert body == [ErrDeclLine, DsnLine(p.combination.dsnTemplate)] + (init + ConnectionTrailer);
    SplitLinesPrefix(InitPrefix, p.combination.initFunc);
  }

  /**
   * For every registered pair the resolved provider carries the pair's own
   * import paths, each once when the registry lists them without repetition,
   * and its handle type is `*<ORM name>.DB`.
   */
  lemma RegisteredPairResolves(cfg: Config, database: string, orm: string)
    requires Registered(cfg, database, orm)
    requires NoDuplicates([cfg.databases[database].driverPkg, cfg.orms[orm].importPath]
                          + cfg.combinations[database][orm].additionalImports)
    ensures ProviderFactory(cfg, database, orm).Success?
    ensures var p := ProviderFactory(cfg, database, orm).value;
      && NoDuplicates(p.Imports())
      && Quote(cfg.databases[database].driverPkg) in p.Imports()
      && Quote(cfg.orms[orm].importPath) in p.Imports()
      && (forall x :: x in cfg.combinations[database][orm].additionalImports ==> Quote(x) in p.Imports())
      && p.GetDBVariable() == "*" + cfg.orms[orm].name + ".DB"
  {
    var p := ProviderFactory(cfg, database, orm).value;
    ImportsEachOnce(p);
  }
}
