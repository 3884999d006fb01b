/**
 * The two file generators (internal/helpers/generators.go): each checks for
 * cancellation, creates (or truncates) its fixed file in the target folder
 * and renders a constant template from the provider into it.
 */
module Generators {
  import opened Wrappers
  import opened GoText
  import opened Errors
  import opened Configurations

  /** The state of a `context.Context`: still running, or done with a reason. */
  datatype Context = Live | Done(reason: ContextError)

  type Path = string

  /** `filepath.Join(dir, name)`, without the lexical clean-up of the path. */
  function Join(dir: Path, name: string): Path {
    dir + "/" + name
  }

  const DatabaseFileName := "database.go"
  const MigrationFileName := "migrations.go"

  /**
   * What the disk refuses: the paths `os.Create` fails on and the paths whose
   * writes fail once created, each with the operating system's error text.
   */
  datatype Faults = Faults(create: map<Path, string>, write: map<Path, string>)

  /** The files on disk, as contents by path. */
  class FileSystem {
    var files: map<Path, string>
    const faults: Faults

    constructor (files: map<Path, string>, faults: Faults)
      ensures this.files == files && this.faults == faults
    {
      this.files := files;
      this.faults := faults;
    }

    /** `os.Create`: truncates or creates the file, unless the disk refuses. */
    method Create(path: Path) returns (err: Option<string>)
      modifies this
      ensures path in faults.create ==> err == Some(faults.create[path]) && files == old(files)
      ensures path !in faults.create ==> err == None && files == old(files)[path := ""]
    {
      if path in faults.create {
        err := Some(faults.create[path]);
      } else {
        files := files[path := ""];
        err := None;
      }
    }

    /** Writes `text` at the end of a created file, unless the disk refuses. */
    method Write(path: Path, text: string) returns (err: Option<string>)
      requires path in files
      modifies this
      ensures path in faults.write ==> err == Some(faults.write[path]) && files == old(files)
      ensures path !in faults.write ==> err == None && files == old(files)[path := old(files)[path] + text]
    {
      if path in faults.write {
        err := Some(faults.write[path]);
      } else {
        files := files[path := files[path] + text];
        err := None;
      }
    }
  }

  // ---------------------------------------------------------------------------
  // The templates
  // ---------------------------------------------------------------------------

  /**
   * What `{{range .Imports}}\n    {{.}}\n    {{- end}}` writes: the trim
   * marker drops the whitespace after each import, so every import adds a
   * newline, four spaces and the import itself.
   */
  function RangeImports(imports: seq<string>): string {
    if imports == [] then "" else "\n    " + imports[0] + RangeImports(imports[1..])
  }

  /** The lines before the range of imports, common to both templates. */
  const HeaderLines: seq<string> := ["", "package initializers", "", "import (", "    \"fmt\""]

  /** The fixed lines between the import block and the connection code. */
  function DatabaseMiddle(dbVariable: string): seq<string> {
    [")", "", "var DB " + dbVariable, "", "func ConnectDB(){"]
  }

  const DatabaseClosing: seq<string> := ["}", ""]

  /** The fixed lines between the import block and the migration code. */
  const MigrationMiddle: seq<string> := [")", "", "func DBMigrate() error {"]

  const MigrationClosing: seq<string> := ["    return nil", "}", ""]

  function DatabaseTemplateLines(imports: seq<string>, dbVariable: string, connectionCode: string): seq<string> {
    HeaderLines + ["    " + RangeImports(imports)]
      + (DatabaseMiddle(dbVariable) + ["    " + connectionCode] + DatabaseClosing)
  }

  function MigrationTemplateLines(imports: seq<string>, migrationCode: string): seq<string> {
    HeaderLines + ["    " + RangeImports(imports)]
      + (MigrationMiddle + ["    " + migrationCode] + MigrationClosing)
  }

  /** None of the fixed template lines contains a newline. */
  lemma FixedLinesAreLines(dbVariable: string)
    requires '\n' !in dbVariable
    ensures NoNewlines(HeaderLines) && NoNewlines(DatabaseMiddle(dbVariable)) && NoNewlines(DatabaseClosing)
    ensures NoNewlines(MigrationMiddle) && NoNewlines(MigrationClosing)
  {
    HeaderLinesAreLines();
    DatabaseMiddleIsLines(dbVariable);
    MigrationLinesAreLines();
  }

  lemma HeaderLinesAreLines()
    ensures NoNewlines(HeaderLines)
  {
    assert '\n' !in HeaderLines[1];
    assert '\n' !in HeaderLines[3];
    assert '\n' !in HeaderLines[4];
  }

  lemma DatabaseMiddleIsLines(dbVariable: string)
    requires '\n' !in dbVariable
    ensures NoNewlines(DatabaseMiddle(dbVariable)) && NoNewlines(DatabaseClosing)
  {
    assert '\n' !in DatabaseMiddle(dbVariable)[2];
    assert '\n' !in DatabaseMiddle(dbVariable)[4];
  }

  lemma MigrationLinesAreLines()
    ensures NoNewlines(MigrationMiddle) && NoNewlines(MigrationClosing)
  {
    assert '\n' !in MigrationMiddle[2];
    assert '\n' !in MigrationClosing[0];
  }

  /**
   * The database template executed on the provider's values. When the imports
   * and the handle type are one line each, the file is, line by line: the
   * header, one indented line per import in order, the handle declaration,
   * `ConnectDB` holding the indented connection code, and the closing brace.
   */
  function RenderDatabaseFile(imports: seq<string>, dbVariable: string, connectionCode: string): (r: string)
    ensures NoNewlines(imports) && '\n' !in dbVariable ==>
      SplitLines(r) ==
        (HeaderLines + ["    "] + Indented(imports))
        + ([")", "", "var DB " + dbVariable, "", "func ConnectDB(){"]
           + SplitLines("    " + connectionCode) + ["}", ""])
  {
    DatabaseTemplateLayout(imports, dbVariable, connectionCode);
    JoinLines(DatabaseTemplateLines(imports, dbVariable, connectionCode))
  }

  /**
   * The migration template executed on the provider's values. When the imports
   * are one line each, the file is, line by line: the header, one indented
   * line per import in order, `DBMigrate` holding the indented migration code,
   * then `return nil` and the closing brace.
   */
  function RenderMigrationFile(imports: seq<string>, migrationCode: string): (r: string)
    ensures NoNewlines(imports) ==>
      SplitLines(r) ==
        (HeaderLines + ["    "] + Indented(imports))
        + ([")", "", "func DBMigrate() error {"]
           + SplitLines("    " + migrationCode) + ["    return nil", "}", ""])
  {
    MigrationTemplateLayout(imports, migrationCode);
    JoinLines(MigrationTemplateLines(imports, migrationCode))
  }

  function Indented(imports: seq<string>): (r: seq<string>)
    ensures |r| == |imports| && forall i :: 0 <= i < |r| ==> r[i] == "    " + imports[i]
  {
    seq(|imports|, i requires 0 <= i < |imports| => "    " + imports[i])
  }

  /** Each import ends up on a line of its own, indented, in the given order. */
  lemma {:induction false} RangeImportsLines(prefix: string, imports: seq<string>)
    requires '\n' !in prefix && NoNewlines(imports)
    ensures SplitLines(prefix + RangeImports(imports)) == [prefix] + Indented(imports)
    decreases imports
  {
    if imports == [] {
      assert prefix + RangeImports(imports) == prefix;
      SplitLinesOfLine(prefix);
    } else {
      var line := "    " + imports[0];
      var rest := RangeImports(imports[1..]);
      assert prefix + RangeImports(imports) == prefix + "\n" + (line + rest);
      RangeImportsLines(line, imports[1..]);
      SplitLinesCons(prefix, line + rest);
      assert Indented(imports) == [line] + Indented(imports[1..]);
    }
  }

  /** Fixed header lines followed by the range of imports. */
  lemma HeaderAndImportLines(head: seq<string>, imports: seq<string>)
    requires |head| >= 1 && NoNewlines(head) && NoNewlines(imports)
    ensures SplitLines(JoinLines(head + ["    " + RangeImports(imports)]))
         == head + ["    "] + Indented(imports)
  {
    var rangeLine := "    " + RangeImports(imports);
    JoinLinesAppend(head, [rangeLine]);
    assert JoinLines([rangeLine]) == rangeLine;
    SplitLinesConcat(JoinLines(head), rangeLine);
    SplitJoinLines(head);
    RangeImportsLines("    ", imports);
  }

  /**
   * The shape both templates share: fixed header lines, the range of imports,
   * more fixed lines, one code fragment and the closing lines.
   */
  lemma TemplateLines(head: seq<string>, imports: seq<string>, middle: seq<string>, code: string,
                      closing: seq<string>)
    requires NoNewlines(head) && NoNewlines(imports) && NoNewlines(middle) && NoNewlines(closing)
    requires |head| >= 1 && |middle| >= 1 && |closing| >= 1
    ensures SplitLines(JoinLines(head + ["    " + RangeImports(imports)] + (middle + [code] + closing)))
         == (head + ["    "] + Indented(imports)) + (middle + SplitLines(code) + closing)
  {
    var top := head + ["    " + RangeImports(imports)];
    var bottom := middle + [code] + closing;
    JoinLinesAppend(top, bottom);
    SplitLinesConcat(JoinLines(top), JoinLines(bottom));
    HeaderAndImportLines(head, imports);
    SplitJoinAround(middle, code, closing);
  }

  lemma DatabaseTemplateLayout(imports: seq<string>, dbVariable: string, connectionCode: string)
    ensures NoNewlines(imports) && '\n' !in dbVariable ==>
      SplitLines(JoinLines(DatabaseTemplateLines(imports, dbVariable, connectionCode))) ==
        (HeaderLines + ["    "] + Indented(imports))
        + ([")", "", "var DB " + dbVariable, "", "func ConnectDB(){"]
           + SplitLines("    " + connectionCode) + ["}", ""])
  {
    if NoNewlines(imports) && '\n' !in dbVariable {
      FixedLinesAreLines(dbVariable);
      TemplateLines(HeaderLines, imports, DatabaseMiddle(dbVariable), "    " + connectionCode, DatabaseClosing);
    }
  }

  lemma MigrationTemplateLayout(imports: seq<string>, migrationCode: string)
    ensures NoNewlines(imports) ==>
      SplitLines(JoinLines(MigrationTemplateLines(imports, migrationCode))) ==
        (HeaderLines + ["    "] + Indented(imports))
        + ([")", "", "func DBMigrate() error {"]
           + SplitLines("    " + migrationCode) + ["    return nil", "}", ""])
  {
    if NoNewlines(imports) {
      FixedLinesAreLines("");
      TemplateLines(HeaderLines, imports, MigrationMiddle, "    " + migrationCode, MigrationClosing);
    }
  }

  /** The provider's import literals are one line each. */
  lemma ImportsAreLines(p: CombinationProvider)
    ensures NoNewlines(p.Imports())
  {
    forall k | 0 <= k < |p.Imports()| ensures '\n' !in p.Imports()[k] {
      ImportsQuotePaths(p);
      QuoteHasNoNewline(ImportPaths(p)[k]);
    }
  }

  // ---------------------------------------------------------------------------
  // The generators
  // ---------------------------------------------------------------------------

  /** The result of one stage: what it returned and the files afterwards. */
  datatype Step = Step(outcome: Outcome<Error>, files: map<Path, string>)

  /**
   * One generator run on `path`: a done context returns its error before any
   * I/O; a refused create leaves the disk alone; a refused write leaves the
   * truncated, empty file; otherwise the file holds exactly `text`. No other
   * path changes.
   */
  function FileStep(ctx: Context, faults: Faults, files: map<Path, string>, path: Path,
                    kind: FileKind, text: string): (s: Step)
    ensures ctx.Done? ==> s == Step(Fail(ContextErr(ctx.reason)), files)
    ensures ctx.Live? && path in faults.create ==>
              s == Step(Fail(CreateFileError(kind, faults.create[path])), files)
    ensures ctx.Live? && path !in faults.create && path in faults.write ==>
              s == Step(Fail(ExecuteTemplateError(kind, faults.write[path])), files[path := ""])
    ensures s.outcome.Pass? <==> ctx.Live? && path !in faults.create && path !in faults.write
    ensures s.outcome.Pass? ==> path in s.files && s.files[path] == text
    ensures s.files.Keys <= files.Keys + {path}
    ensures forall q :: q in files && q != path ==> q in s.files && s.files[q] == files[q]
  {
    if ctx.Done? then Step(Fail(ContextErr(ctx.reason)), files)
    else if path in faults.create then Step(Fail(CreateFileError(kind, faults.create[path])), files)
    else if path in faults.write then Step(Fail(ExecuteTemplateError(kind, faults.write[path])), files[path := ""])
    else Step(Pass, files[path := text])
  }

  function DatabaseFileText(p: CombinationProvider): string {
    RenderDatabaseFile(p.Imports(), p.GetDBVariable(), p.GetConnectionCode())
  }

  function MigrationFileText(p: CombinationProvider): string {
    RenderMigrationFile(p.Imports(), p.GetMigrationCode())
  }

  /** What GenerateDatabaseFile does, as a function of the state before it. */
  function DatabaseFileStep(ctx: Context, faults: Faults, files: map<Path, string>,
                            folder: Path, p: CombinationProvider): Step {
    FileStep(ctx, faults, files, Join(folder, DatabaseFileName), DatabaseFile, DatabaseFileText(p))
  }

  /** What GenerateMigrationFile does, as a function of the state before it. */
  function MigrationFileStep(ctx: Context, faults: Faults, files: map<Path, string>,
                             folder: Path, p: CombinationProvider): Step {
    FileStep(ctx, faults, files, Join(folder, MigrationFileName), MigrationFile, MigrationFileText(p))
  }

  /** The lines of `    {{.ConnectionCode}}` in the database template. */
  lemma IndentedConnectionLines(p: CombinationProvider)
    ensures SplitLines("    " + p.GetConnectionCode()) == ["    "] + ConnectionBody(p)
  {
    SplitLinesPrefix("    ", p.GetConnectionCode());
    assert "    " + "" == "    ";
  }

  /**
   * The database file, line by line: `"fmt"` first in the import block, then
   * every provider import on its own line in provider order, the handle
   * declared with the provider's type, and ConnectDB holding the connection
   * code. The text depends on nothing but the provider.
   */
  lemma DatabaseFileLayout(p: CombinationProvider)
    requires '\n' !in p.orm.name
    ensures SplitLines(DatabaseFileText(p)) ==
      (HeaderLines + ["    "] + Indented(p.Imports()))
      + ([")", "", "var DB *" + p.orm.name + ".DB", "", "func ConnectDB(){"]
         + (["    "] + ConnectionBody(p))
         + ["}", ""])
  {
    ImportsAreLines(p);
    assert "var DB " + p.GetDBVariable() == "var DB *" + p.orm.name + ".DB";
    IndentedConnectionLines(p);
  }

  /**
   * The migration file, line by line: the same import block, and DBMigrate
   * holding the provider's migration code followed by `return nil`.
   */
  lemma MigrationFileLayout(p: CombinationProvider)
    ensures SplitLines(MigrationFileText(p)) ==
      HeaderLines + ["    "] + Indented(p.Imports())
      + [")", "", "func DBMigrate() error {"]
      + SplitLines("    " + p.migrationCode) + ["    return nil", "}", ""]
  {
    ImportsAreLines(p);
  }

  /**
   * The steps both generators share: the cancellation check, `os.Create` on
   * `path`, then executing the template into the file, which fails exactly
   * when the write does.
   */
  method GenerateFile(ctx: Context, path: Path, kind: FileKind, text: string, fs: FileSystem)
    returns (r: Outcome<Error>)
    modifies fs
    ensures Step(r, fs.files) == FileStep(ctx, fs.faults, old(fs.files), path, kind, text)
  {
    if ctx.Done? {
      return Fail(ContextErr(ctx.reason));
    }
    var err := fs.Create(path);
    if err.Some? {
      return Fail(CreateFileError(kind, err.value));
    }
    err := fs.Write(path, text);
    assert "" + text == text;
    if err.Some? {
      return Fail(ExecuteTemplateError(kind, err.value));
    }
    return Pass;
  }

  /**
   * GenerateDatabaseFile: writes `<folder>/database.go` from the provider.
   * The template is rendered before the file is created; rendering is pure,
   * so the order is not observable.
   */
  method GenerateDatabaseFile(ctx: Context, folder: Path, p: CombinationProvider, fs: FileSystem)
    returns (r: Outcome<Error>)
    modifies fs
    ensures Step(r, fs.files) == DatabaseFileStep(ctx, fs.faults, old(fs.files), folder, p)
  {
    var imports := p.GetImports();
    var text := RenderDatabaseFile(imports, p.GetDBVariable(), p.GetConnectionCode());
    r := GenerateFile(ctx, Join(folder, DatabaseFileName), DatabaseFile, text, fs);
  }

  /**
   * GenerateMigrationFile: writes `<folder>/migrations.go` from the provider,
   * rendering first like GenerateDatabaseFile.
   */
  method GenerateMigrationFile(ctx: Context, folder: Path, p: CombinationProvider, fs: FileSystem)
    returns (r: Outcome<Error>)
    modifies fs
    ensures Step(r, fs.files) == MigrationFileStep(ctx, fs.faults, old(fs.files), folder, p)
  {
    var imports := p.GetImports();
    var text := RenderMigrationFile(imports, p.GetMigrationCode());
    r := GenerateFile(ctx, Join(folder, MigrationFileName), MigrationFile, text, fs);
  }
}
