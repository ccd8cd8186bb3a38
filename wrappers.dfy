/** Option and Result values, and the errors the modelled code can report. */
module Wrappers {

  datatype Option<+T> = None | Some(value: T) {
    function GetOr(default: T): T {
      match this
      case Some(v) => v
      case None => default
    }
  }

  datatype Result<+T> = Success(value: T) | Failure(error: Error)

  /** Every error value that the core returns or passes on from the store. */
  datatype Error =
      /** errInvalidDirection (backend/api/utils/model.go) */
    | InvalidDirection
      /** errInvalidOrderBy (backend/api/utils/model.go) */
    | InvalidOrderBy
      /** ErrDateTimeFormatNotAllowed (backend/internals/config/config.go) */
    | DateTimeFormatNotAllowed
      /** ErrLoggerLevelNotAllowed (backend/internals/config/config.go) */
    | LoggerLevelNotAllowed
      /** the ad-hoc error the cascade writers return when the parent is not found */
    | ParentNotFound(message: string)
      /** the store refuses a row whose unique column value is already taken */
    | UniqueViolation(table: string, column: string)
      /** the store refuses a statement that names a table or column not in scope */
    | UndefinedColumn
      /** gorm refuses a DELETE without any WHERE condition (ErrMissingWhereClause) */
    | MissingWhereClause
}
