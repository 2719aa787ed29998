/** Optional values and results with an error, as the Go code returns `(value, error)` pairs. */
module Wrappers {

  datatype Option<T> = None | Some(value: T)
  {
    function GetOr(default: T): T
    {
      match this
      case None => default
      case Some(v) => v
    }
  }

  datatype Result<T, E> = Ok(value: T) | Err(error: E)
}

/** The error values the backend returns (opscore `error/errors.go` and the `fmt.Errorf` failures). */
module Errs {

  datatype Error =
    | UnsupportedDataSource
    | ConnectionFailed
    | TableNotFound
    | DatabaseNotFound
    | InvalidSchema
    | MigrationTaskNotFound
    | MigrationTaskRunning
    | MigrationTaskCompleted
    | InvalidConfig
      /** An error built with `fmt.Errorf` or returned by the database driver, by its text. */
    | Failure(text: string)

  /** The text `err.Error()` yields. */
  function Message(e: Error): string
  {
    match e
    case UnsupportedDataSource => "unsupported data source type"
    case ConnectionFailed => "connection failed"
    case TableNotFound => "table not found"
    case DatabaseNotFound => "database not found"
    case InvalidSchema => "invalid table schema"
    case MigrationTaskNotFound => "migration task not found"
    case MigrationTaskRunning => "migration task is running"
    case MigrationTaskCompleted => "migration task is completed"
    case InvalidConfig => "invalid configuration"
    case Failure(t) => t
  }
}
