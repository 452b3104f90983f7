/** Option, the errors the backend raises, and a Result over them. */
module Base {

  datatype Option<+T> = None | Some(value: T)

  /** Exceptions that reach the callers of the store and the services.
      ValueError, KeyError, AttributeError and TypeError are Python's own;
      DiscussionNotFound is the backend's DiscussionNotFoundError;
      IntegrityError is a foreign-key violation reported by the database,
      DataError a value longer than its String(n) column, and
      UnmappedInstanceError what SQLAlchemy raises when None is added to a
      session. */
  datatype Error =
    | ValueError
    | DiscussionNotFound
    | IntegrityError
    | DataError
    | KeyError(key: string)
    | AttributeError(attribute: string)
    | TypeError
    | UnmappedInstanceError

  datatype Result<+T> = Ok(value: T) | Err(error: Error)

  /** Python truthiness of an integer id and of a string. */
  predicate FalsyId(id: int) { id == 0 }
  predicate FalsyText(s: string) { s == [] }
}
