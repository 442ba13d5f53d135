/** Classification of PostgreSQL errors into retriable and non-retriable ones
    (internal/repository/database/database.go). The SQLSTATE codes are those of
    Appendix A "PostgreSQL Error Codes" of the PostgreSQL documentation. */
module Database {
  import opened Wrappers
  import opened Errors

  /** PGErrorClassification, an iota enumeration. */
  datatype Classification = NonRetriable | Retriable
  {
    /** The integer value of the Go constant. */
    function Ordinal(): (n: int)
      ensures n == 0 <==> NonRetriable?
      ensures n == 1 <==> Retriable?
    {
      if NonRetriable? then 0 else 1
    }
  }

  // Class 08, connection exception
  const ConnectionException := "08000"
  const ConnectionDoesNotExist := "08003"
  const ConnectionFailure := "08006"
  // Class 22, data exception
  const DataException := "22000"
  const NullValueNotAllowedDataException := "22004"
  // Class 23, integrity constraint violation
  const IntegrityConstraintViolation := "23000"
  const RestrictViolation := "23001"
  const NotNullViolation := "23502"
  const ForeignKeyViolation := "23503"
  const UniqueViolation := "23505"
  const CheckViolation := "23514"
  // Class 40, transaction rollback
  const TransactionRollback := "40000"
  const SerializationFailure := "40001"
  const DeadlockDetected := "40P01"
  // Class 42, syntax error or access rule violation
  const SyntaxErrorOrAccessRuleViolation := "42000"
  const SyntaxError := "42601"
  const UndefinedColumn := "42703"
  const UndefinedTable := "42P01"
  const UndefinedFunction := "42883"
  // Class 57, operator intervention
  const CannotConnectNow := "57P03"

  /** The codes the classifier names explicitly as non-retriable (classes 22, 23 and 42). */
  const ListedNonRetriable: set<string> := {
    DataException, NullValueNotAllowedDataException,
    IntegrityConstraintViolation, RestrictViolation, NotNullViolation,
    ForeignKeyViolation, UniqueViolation, CheckViolation,
    SyntaxErrorOrAccessRuleViolation, SyntaxError, UndefinedColumn, UndefinedTable, UndefinedFunction
  }

  /** СlassifyPgError: the first switch picks out the retriable codes, the second the
      listed non-retriable ones, and every other code falls through to non-retriable. */
  function ClassifyPgError(code: string): (c: Classification)
    ensures c == Retriable <==>
      code in {"08000", "08003", "08006", "40000", "40001", "40P01", "57P03"}
    ensures |code| == 5 && code[0] == '2' && code[1] == '3' ==> c == NonRetriable
  {
    if code in {ConnectionException, ConnectionDoesNotExist, ConnectionFailure} then Retriable
    else if code in {TransactionRollback, SerializationFailure, DeadlockDetected} then Retriable
    else if code == CannotConnectNow then Retriable
    else if code in ListedNonRetriable then NonRetriable
    else NonRetriable
  }

  /** PostgresErrorClassifier.Classify: nil and errors with no PgError on their chain are
      non-retriable; otherwise the PgError's code decides. */
  function Classify(err: Option<Error>): (c: Classification)
    ensures err.None? ==> c == NonRetriable
    ensures err.Some? && AsPgError(err.value).None? ==> c == NonRetriable
    ensures c == Retriable ==> err.Some? && AsPgError(err.value).Some?
    ensures err.Some? && err.value.PgError? ==> c == ClassifyPgError(err.value.code)
  {
    if err.None? then NonRetriable
    else match AsPgError(err.value)
      case Some(code) => ClassifyPgError(code)
      case None => NonRetriable
  }

  /** Every integrity-constraint violation listed in class 23, unique_violation among them,
      is non-retriable, also when it arrives wrapped in another error. */
  lemma IntegrityViolationsAreNonRetriable(text: string, code: string)
    requires code in {IntegrityConstraintViolation, RestrictViolation, NotNullViolation,
                      ForeignKeyViolation, UniqueViolation, CheckViolation}
    ensures Classify(Some(PgError(code))) == NonRetriable
    ensures Classify(Some(Wrapped(text, Some(PgError(code))))) == NonRetriable
  {
  }

  /** A PgError reached through any number of %w wraps is classified by its own code, so a
      wrapped serialization failure or lost connection is retried like a bare one. */
  lemma ClassifyWrappedPgError(err: Error, code: string)
    requires WrapChain(err) && Is(err, PgError(code))
    ensures Classify(Some(err)) == ClassifyPgError(code)
    ensures Classify(Some(Wrapped("", Some(err)))) == ClassifyPgError(code)
  {
  }

  /** The classifier is total with exactly two outcomes, and an error that is not on the
      retriable list is never retried. */
  lemma ClassifyIsTotal(err: Option<Error>)
    ensures Classify(err) == Retriable || Classify(err) == NonRetriable
    ensures Classify(err) == Retriable <==>
      err.Some? && AsPgError(err.value).Some? &&
      AsPgError(err.value).value in {"08000", "08003", "08006", "40000", "40001", "40P01", "57P03"}
  {
  }
}
