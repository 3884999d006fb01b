/**
 * The errors the generation core returns. Go builds them with `fmt.Errorf`
 * and `%v`, so a wrapped error keeps only the text of its cause; the model
 * keeps the structure, and `Message` gives the exact text Go produces.
 */
module Errors {
  import opened GoText

  /** What `ctx.Err()` reports once a context is done. */
  datatype ContextError = Canceled | DeadlineExceeded

  /** The two generated files, for the per-file error texts. */
  datatype FileKind = DatabaseFile | MigrationFile

  datatype Error =
    | ContextErr(reason: ContextError)
    | DatabaseNotFound(database: string)
    | OrmNotFound(orm: string)
    | CombinationNotFound(database: string, orm: string)
    | CreateFileError(file: FileKind, osError: string)
    | ExecuteTemplateError(file: FileKind, writeError: string)
    | CloneFailed(cloneError: string)
    | ProviderFailed(cause: Error)
    | GenerateFailed(file: FileKind, cause: Error)

  function FileWord(f: FileKind): string {
    match f
    case DatabaseFile => "database"
    case MigrationFile => "migration"
  }

  /**
   * The text of the error, as `err.Error()` returns it. No text is empty, and
   * a wrapped error's text is its stage's prefix followed by the whole text
   * of its cause, as `%v` writes it.
   */
  function Message(e: Error): (r: string)
    ensures |r| > 0
    ensures e.ProviderFailed? ==>
      var c := Message(e.cause);
      |r| > |c| && r[|r| - |c|..] == c && r[..|r| - |c|] == "error creating database provider: "
    ensures e.GenerateFailed? ==>
      var c := Message(e.cause);
      |r| > |c| && r[|r| - |c|..] == c && r[..|r| - |c|] == "error generating " + FileWord(e.file) + " file: "
  {
    match e
    case ContextErr(Canceled) => "context canceled"
    case ContextErr(DeadlineExceeded) => "context deadline exceeded"
    case DatabaseNotFound(d) => "database configuration for " + Quote(d) + " not found"
    case OrmNotFound(o) => "ORM configuration for " + Quote(o) + " not found"
    case CombinationNotFound(d, o) =>
      "combination configuration for database " + Quote(d) + " and ORM " + Quote(o) + " not found"
    case CreateFileError(f, msg) => "error creating " + FileWord(f) + " file: " + msg
    case ExecuteTemplateError(f, msg) => "error executing " + FileWord(f) + " template: " + msg
    case CloneFailed(msg) => "error cloning repository: " + msg
    case ProviderFailed(c) => "error creating database provider: " + Message(c)
    case GenerateFailed(f, c) => "error generating " + FileWord(f) + " file: " + Message(c)
  }

  /**
   * What `errors.Is(err, ctx.Err())` answers: with `%v` wrapping only an
   * unwrapped context error is recognised as one.
   */
  predicate IsContextError(e: Error) {
    e.ContextErr?
  }
}
