/**
 * What the database does with one `commit()` and the `refresh()` that follows it in the
 * same `try`, and the errors the repositories re-raise after `rollback()`.
 */
module Database {
  datatype CommitOutcome =
    | Committed       // the commit goes through and the row is re-read
    | CommitRefused   // the database refuses the commit; the rollback undoes the change
    | RefreshFailed   // the commit goes through, then re-reading the row raises; nothing is undone

  /** Whether the change is in the database once the call returns or raises. */
  predicate Persisted(c: CommitOutcome) {
    c != CommitRefused
  }

  datatype DbError =
    | IntegrityViolation   // a primary-key or unique constraint would be broken
    | CommitFailed         // the database refused the commit for any other reason
    | RefreshError         // the commit went through but the refresh after it raised
}
