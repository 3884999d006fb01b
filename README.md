# go-sail generation core in Dafny

go-sail scaffolds a Go backend project. It clones a framework template and,
when both a database and an ORM were chosen, writes two generated files into
`<project>/initializers`:

- `database.go` holds the imports, the `DB` handle and `ConnectDB`.
- `migrations.go` holds `DBMigrate`.

This project models that generation pipeline and proves properties of it.
The model has four parts:

- **Provider resolution**, in module `Configurations`. The registry of
  databases, ORMs, supported combinations and per-ORM migration code is
  passed as an immutable `Config` value. `ProviderFactory` resolves a
  (database, ORM) pair against it, and a `CombinationProvider` produces the
  generated fragments:
  - the import literals,
  - the connection code,
  - the `*<orm>.DB` handle type,
  - the migration code.
- **File generators**, in module `Generators`. The disk is a `FileSystem`
  object: a map from path to contents, plus the create and write failures
  the disk will report. `GenerateDatabaseFile` and `GenerateMigrationFile`
  are methods that check cancellation, create or truncate their file and
  render a constant template into it. Each is proved equal to a step
  function of the state before it. Rendering is byte-exact:
  - `{{range}}` with its `{{- end}}` trim puts one indented line per import;
  - the connection code is the `Sprintf` template with the quoted DSN
    template and the initialisation expression filled in.

  The layout lemmas state the rendered files line by line.
- **Orchestration**, in module `Create`. `PopulateDirectory` runs these
  stages in order:
  1. the cancellation check;
  2. the clone, whose result is an input;
  3. provider resolution;
  4. the database file;
  5. the migration file.

  Each failure is wrapped with its stage's message. `Populate` is the step
  function it is proved against.
- **Import scan**, also in module `Create`. `ExtractImports` runs over a
  given walk of the project tree. It collects the import paths of every Go
  file, keeps the first occurrence of each, and stops at the first error.
  `ParseImports` trims the quotes from each import literal of one file.

Shared text functions live in module `GoText`:

- `Quote` is Go's `%q` for ASCII. `Unquote` is its inverse, with a
  round-trip lemma.
- `TrimQuotes` is `strings.Trim(s, "\"")`.
- `SplitLines` and `JoinLines` are `strings.Split` and `strings.Join` on
  `"\n"`.

`Errors` holds the error values and their exact `Error()` texts.

Three behaviours of the code are easy to miss, and the model states them:

- **Wrapped cancellation.** A cancellation comes back as the context's own
  error only when it is seen on entry to `PopulateDirectory`. A
  cancellation seen by a generator comes back wrapped with `%v`, as "error
  generating database file: context canceled", so `errors.Is` no longer
  recognises it as a cancellation (`Create.CancelledGeneratorIsWrapped`,
  the last ensures of `Create.Populate`).
- **Missing migration code.** This is not an error: the provider carries
  `""` (internal/helpers/configurations.go:78).
- **Repeated imports.** `GetImports` does not deduplicate. An additional
  import that repeats the driver package is listed twice
  (`Configurations.ImportsKeepRepeats`).

## Model

| member | source | states |
|---|---|---|
| `Configurations.ProviderFactory` | internal/helpers/configurations.go:58-80 | The three lookups fail in order, each with its own error naming the missing key(s). It succeeds exactly when the pair is registered. The provider then holds the three looked-up entries, the ORM's migration code or `""` when it has none, and the handle type `*<name>.DB`. |
| `Configurations.CombinationProvider.Imports` | internal/helpers/configurations.go:25-35 | The import list has length 2 + the number of additional imports. It holds the quoted driver package, then the quoted ORM import path, then each quoted additional import in registry order. |
| `Configurations.CombinationProvider.GetImports` | internal/helpers/configurations.go:25-35 | The loop builds exactly that list. |
| `Configurations.ImportsEachOnce` | internal/helpers/configurations.go:25-35 | When the registry's paths for a combination are distinct, every path appears in the list exactly once. |
| `Configurations.ImportsKeepRepeats` | internal/helpers/configurations.go:30-32 | An additional import equal to the driver package makes the list contain a duplicate: there is no deduplication. |
| `Configurations.RegisteredPairResolves` | internal/helpers/configurations.go:58-80 | For a registered pair with distinct paths, resolution succeeds. Every registry path of the pair is in the import list once, and the handle type is `*<name>.DB`. |
| `Configurations.CombinationProvider.GetConnectionCode` | internal/helpers/configurations.go:37-47 | The connection code, line by line: a blank line, `var err error`, the DSN line, the lines of `DB, err = <initFunc>` (the initialisation expression may span several), the error check, the two log lines and a trailing indent. |
| `Configurations.CombinationProvider.GetDBVariable` | internal/helpers/configurations.go:53-55 | The handle type is `*`, then the ORM's package name, then `.DB`, so the name can be read back from it. It is one line whenever the name is. |
| `Configurations.ConnectionBodyLines` | internal/helpers/configurations.go:40-41 | The DSN line passes the quoted DSN template and the literal placeholders `"your_username"`, `"your_password"`, `"your_database"` to `fmt.Sprintf`. The next line is `    DB, err = ` followed by the initialisation expression. |
| `GoText.Quote` | internal/helpers/configurations.go:27-31 | A quoted literal starts and ends with `"`. |
| `GoText.QuoteRoundTrip` | internal/helpers/configurations.go:27-31 | `Unquote(Quote(s)) == Some(s)`: `%q` loses nothing. |
| `GoText.QuoteInjective` | internal/helpers/configurations.go:27-31 | Distinct strings have distinct quoted forms. |
| `GoText.QuoteHasNoNewline` | internal/helpers/configurations.go:40 | A quoted string is one line of text, so the DSN line never breaks. |
| `GoText.TrimQuotes` | internal/scripts/create.go:196 | The trimmed value is no longer than the literal, and it neither starts nor ends with `"`. |
| `GoText.TrimQuotesMiddle` | internal/scripts/create.go:196 | The trimmed value is a contiguous middle of the literal: every character before it and every character after it is `"`. |
| `GoText.TrimQuotesOfQuote` | internal/scripts/create.go:196 | For a path with nothing to escape, trimming the quotes of its quoted form gives the path back. |
| `Generators.FileSystem.Create` | internal/helpers/generators.go:40-43 | A refused create reports its error and changes nothing. Otherwise the path now holds an empty file. |
| `Generators.FileSystem.Write` | internal/helpers/generators.go:56-59 | A refused write reports its error and changes nothing. Otherwise the text is appended to the file. |
| `Generators.FileStep` | internal/helpers/generators.go:12-62 | One generator run on one path: (1) a done context returns its error with the disk unchanged; (2) a refused create returns the create error with the disk unchanged; (3) a refused write returns the execute error and leaves an empty file. It passes exactly when none of these happen, and then the file holds exactly the rendered text. No other path changes. |
| `Generators.RangeImportsLines` | internal/helpers/generators.go:25-27 | The `{{range}}` block with its `{{- end}}` trim yields the indent line, then one indented line per import in order. |
| `Generators.RenderDatabaseFile` | internal/helpers/generators.go:20-35 | When the imports and the handle type are one line each, the executed database template is, line by line: the header, the indent line and one indented line per import in order, `)`, `var DB <type>`, `func ConnectDB(){`, the lines of the indented connection code, `}` and a final empty line. |
| `Generators.RenderMigrationFile` | internal/helpers/generators.go:73-87 | When the imports are one line each, the executed migration template is, line by line: the header and import block, `func DBMigrate() error {`, the lines of the indented migration code, `    return nil`, `}` and a final empty line. |
| `Generators.IndentedConnectionLines` | internal/helpers/generators.go:33 | The indented connection-code placeholder expands to the indent line, then the connection body lines. |
| `Generators.DatabaseFileLayout` | internal/helpers/generators.go:20-35 | `database.go` line by line: `package initializers`, the import block with `"fmt"` first and then each provider import in provider order, `var DB *<name>.DB`, and `ConnectDB` holding the connection code. The text is determined byte for byte, since `JoinLines(SplitLines(t)) == t` (`GoText.JoinSplitLines`). |
| `Generators.MigrationFileLayout` | internal/helpers/generators.go:73-87 | `migrations.go` line by line: the same import block, and `DBMigrate` holding the migration code followed by `return nil`. As for the database file, the lines determine the text byte for byte. |
| `Generators.GenerateFile` | internal/helpers/generators.go:12-62 | The steps both generators share: the cancellation check, the create and the template execution. The result and the disk afterwards are those of `FileStep` on the given path and text. |
| `Generators.GenerateDatabaseFile` | internal/helpers/generators.go:12-62 | The result and the disk afterwards are those of `FileStep` on `<folder>/database.go` with the rendered database text. |
| `Generators.GenerateMigrationFile` | internal/helpers/generators.go:65-112 | The result and the disk afterwards are those of `FileStep` on `<folder>/migrations.go` with the rendered migration text. |
| `Create.DistinctPaths` | internal/scripts/create.go:91 | The two generated paths in the initializers folder differ. |
| `Create.Populate` | internal/scripts/create.go:79-110 | (1) Cancellation on entry returns the context error unwrapped and touches nothing. (2) A clone error is wrapped as a cloning error and touches nothing. (3) With no database or no ORM it passes untouched. (4) An unregistered pair is wrapped as a provider error and touches nothing. (5) A failing database file comes back as the database-file wrapper around the generator's own error, with the disk as the generator left it. (6) A failing migration file comes back as the migration-file wrapper around its generator's error, and `database.go` still holds its rendered text. Only the two initializer files can change, and a context error comes back exactly when the context was done on entry. |
| `Create.PopulateSucceeds` | internal/scripts/create.go:93-109 | A run passes exactly when nothing on its path fails. Both files then hold the text their generator renders from the resolved provider. |
| `Create.DatabaseFailureSkipsMigration` | internal/scripts/create.go:99-107 | When the database file fails, the error is the database-file wrapper around the cancellation, the create error or the write error, in that order of precedence, and the migration file is left as it was. |
| `Create.MigrationFailureKeepsDatabase` | internal/scripts/create.go:99-107 | When the database file is written and the migration file fails, the error is the migration-file wrapper around the cancellation, the create error or the write error, `database.go` holds its rendered text, and a refused write leaves `migrations.go` empty. |
| `Create.CancelledGeneratorIsWrapped` | internal/scripts/create.go:99-102 | A cancellation seen by the database generator comes back as "error generating database file: context canceled". It is not a context error, and the disk is unchanged. |
| `Create.PopulateDirectory` | internal/scripts/create.go:79-110 | The result and the disk afterwards are those of `Populate`. |
| `Create.TrimmedImports` | internal/scripts/create.go:195-198 | One import path per literal, in order, each the literal with its quotes trimmed. |
| `Create.ParseImports` | internal/scripts/create.go:186-201 | A parse error is passed through. Otherwise the result has one path per literal, in order, each the literal with its quotes trimmed. |
| `Create.ParseQuotedImports` | internal/scripts/create.go:195-198 | Trimming the quoted forms of paths that need no escaping gives back the paths themselves. |
| `Create.ScanRecoversProviderImports` | internal/scripts/create.go:195-198 | Trimming the import literals a generator writes recovers the provider's import paths in order. |
| `Create.Dedup` | internal/scripts/create.go:169-174 | Keeping first occurrences loses no element and adds none. |
| `Create.DedupNoDuplicates` | internal/scripts/create.go:169-174 | The deduplicated list has no repeated element. |
| `Create.DedupFirstOccurrenceOrder` | internal/scripts/create.go:169-174 | Two paths appear in the result in the order of their first occurrences in the walk. |
| `Create.Walked` | internal/scripts/create.go:160-178 | A walk that succeeds met no entry with a visit error or a Go file that fails to parse, and collected at most one import list per entry. |
| `Create.WalkedPaths` | internal/scripts/create.go:163-170 | On a walk that succeeds, a path is in the concatenated import lists exactly when some Go file of the walk imports it. |
| `Create.WalkedFailureSticks` | internal/scripts/create.go:160-168 | Once the walk has failed, later entries do not change its error. |
| `Create.WalkedFailsAt` | internal/scripts/create.go:160-168 | The walk fails exactly when some entry has a visit error or is a Go file that fails to parse, and its error is that of the first such entry. |
| `Create.Visit` | internal/scripts/create.go:160-177 | The walk callback on one entry: a visit error or a parse error of a Go file stops the walk with that error. Otherwise the collected paths grow by the entry's paths not seen before, and the `unique` set stays equal to the collected paths. |
| `Create.ExtractImports` | internal/scripts/create.go:156-184 | The loops with the `unique` set compute the first error of the walk, or the deduplicated concatenation of the per-file import lists. |
| `Create.ExtractedImports` | internal/scripts/create.go:156-184 | The scan succeeds exactly when no entry stops the walk. It then lists every import path of every Go file once and nothing else. Otherwise it fails with the error of the first entry that stops the walk. |
| `Errors.Message` | internal/scripts/create.go:86-107 | Every error text is non-empty. A wrapped error's text is its stage's prefix ("error creating database provider: ", "error generating database file: ", "error generating migration file: ") followed by the whole text of its cause, as `%v` writes it. The body gives the exact texts of the `fmt.Errorf` calls at internal/helpers/configurations.go:61,66,71, internal/helpers/generators.go:42,58,94,108 and internal/scripts/create.go:87,96,101,106. |

## Left out

- The prompts, the spinner, and the `go mod tidy`, `go get` and `goimports`
  subprocesses of `CreateProject` (internal/scripts/create.go:22-77,
  111-154, 202-237). These are user interface and external processes.
- `GitClone` (internal/scripts/git.go) is not part of this model.
  `PopulateDirectory` takes its result as an input: either nothing, or an
  error text. The files the clone writes are not modelled.
- `filepath.Walk` and `go/parser` are inputs. The walk is the sequence of
  callback invocations. Each invocation carries a path, a directory flag,
  the error the walk passes in, and what the parser gives for the path: the
  import literals as written, or an error text. Directory traversal order
  and parsing are not modelled.
- Loading the registry from YAML (internal/initializers/load_config.go) is
  not part of this model. The registry is an already-populated value.
- `Quote`: Unicode escaping is not modelled. Characters at or above 0x80
  are copied verbatim, where Go escapes the non-printable ones. ASCII
  follows `strconv.Quote` exactly.
- `os.Getwd` failure (ignored by the code) is not modelled. The working
  directory is a parameter.
- `filepath.Join` cleaning of `.`, `..` and doubled separators is not
  modelled. Joining is concatenation with `/`.
- `text/template` parse failure is not modelled, since the templates are
  constants.
- `Generators.GenerateDatabaseFile` and `Generators.GenerateMigrationFile`
  render their text before the cancellation check and the create, where the
  code executes the template after them. Rendering is pure, so the result
  and the disk are the same.
- A template execution that fails part-way is modelled as leaving the
  truncated, empty file. The bytes written before the failure are not
  modelled. `defer f.Close()` is not modelled.
- Cancellation is a snapshot of the context at the three points in the
  modelled code that look at it: on entry to `PopulateDirectory` and to
  each generator. `GitClone` looks at the context a fourth time
  (internal/scripts/git.go:14-18); that check surfaces only through the
  clone error, which is an input. Concurrency and the interrupt handler in
  main.go are not modelled.
- The interactive selection in internal/prompts/create_prompts.go, Cobra
  command wiring and the repository lookup `Repositories[framework]` are
  not part of this model.
