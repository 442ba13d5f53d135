/** Option, the enumeration of a set in some order (Go's map iteration), the Go `error`
    values the core produces or inspects, and a result type for the Go `(value, error)`
    return convention. */
module Wrappers {

  datatype Option<+T> = None | Some(value: T)

  /** A sequence lists each element of a set exactly once. */
  ghost predicate Enumerates<T>(order: seq<T>, s: set<T>)
  {
    && (forall i, j | 0 <= i < j < |order| :: order[i] != order[j])
    && (forall i | 0 <= i < |order| :: order[i] in s)
    && (forall x | x in s :: x in order)
  }
}

module Errors {
  import opened Wrappers

  /** A Go `error` value. Sentinels are compared by identity in the source (`err != ErrNotFound`),
      which for these constructors is datatype equality. */
  datatype Error =
    | NotFound                         // database.ErrNotFound, "not found"
    | ObjectDeleted                    // database.ErrObjectDeleted (link soft-deleted)
    | ExecuterNotSupportTransactions   // database.ErrExecuterNotSupportTransactions
    | PgError(code: string)            // *pgconn.PgError carrying a SQLSTATE code
    | NoRows                           // sql.ErrNoRows
    | EOF                              // io.EOF, what the JSON decoder reports on an empty file
    | Message(text: string)            // an error built by fmt.Errorf without %w, or any opaque error
    | Wrapped(text: string, cause: Option<Error>)  // fmt.Errorf with %w; cause None is a wrapped nil
    | Panic(text: string)              // a Go run-time panic on this path
    | Joined(errors: seq<Error>)       // errors.Join of a non-empty list

  /** errors.Is: the error itself or any error on its %w chain, or in a joined list, equals
      the target. */
  predicate Is(err: Error, target: Error)
  {
    || err == target
    || (err.Wrapped? && err.cause.Some? && Is(err.cause.value, target))
    || (err.Joined? && exists i | 0 <= i < |err.errors| :: Is(err.errors[i], target))
  }

  /** errors.As(err, &pgErr): the first *pgconn.PgError met in a depth-first walk of the error
      tree (the error itself, its %w chain, the members of a joined list in order). A code found
      is on the tree, and a PgError itself is its own answer. */
  function AsPgError(err: Error): (r: Option<string>)
    ensures r.Some? ==> Is(err, PgError(r.value))
    ensures err.PgError? ==> r == Some(err.code)
    decreases err, 1
  {
    match err
    case PgError(code) => Some(code)
    case Wrapped(_, cause) => if cause.Some? then AsPgError(cause.value) else None
    case Joined(errors) => FirstPgErrorFrom(err, 0)
    case _ => None
  }

  /** errors.As over the members of a joined error from index i on: the first member in which a
      PgError is found decides. */
  function FirstPgErrorFrom(joined: Error, i: nat): (r: Option<string>)
    requires joined.Joined? && i <= |joined.errors|
    ensures r.Some? ==> exists k | i <= k < |joined.errors| :: Is(joined.errors[k], PgError(r.value))
    decreases joined, 0, |joined.errors| - i
  {
    if i == |joined.errors| then None
    else match AsPgError(joined.errors[i])
      case Some(code) => Some(code)
      case None => FirstPgErrorFrom(joined, i + 1)
  }

  /** errors.As finds no PgError exactly when errors.Is recognises none anywhere on the tree. */
  lemma {:induction false} AsPgErrorComplete(err: Error)
    ensures AsPgError(err).None? <==> forall c :: !Is(err, PgError(c))
    decreases err, 1
  {
    match err
    case Wrapped(_, cause) =>
      if cause.Some? {
        AsPgErrorComplete(cause.value);
      }
    case Joined(_) => FirstPgErrorComplete(err, 0);
    case _ =>
  }

  /** The search of a joined list from index i finds nothing exactly when no member from i on
      carries a PgError. */
  lemma {:induction false} FirstPgErrorComplete(joined: Error, i: nat)
    requires joined.Joined? && i <= |joined.errors|
    ensures FirstPgErrorFrom(joined, i).None? <==>
      forall k, c | i <= k < |joined.errors| :: !Is(joined.errors[k], PgError(c))
    decreases joined, 0, |joined.errors| - i
  {
    if i < |joined.errors| {
      AsPgErrorComplete(joined.errors[i]);
      FirstPgErrorComplete(joined, i + 1);
    }
  }

  /** An error built only by %w wrapping, with no joined list anywhere on it. */
  predicate WrapChain(err: Error)
  {
    match err
    case Wrapped(_, cause) => cause.None? || WrapChain(cause.value)
    case Joined(_) => false
    case _ => true
  }

  /** A wrap chain ends at its first PgError, which has no cause, so it holds at most one:
      errors.As finds exactly the code that errors.Is recognises. */
  lemma {:induction false} WrapChainPgError(err: Error, code: string)
    requires WrapChain(err) && Is(err, PgError(code))
    ensures AsPgError(err) == Some(code)
  {
    if err.Wrapped? {
      WrapChainPgError(err.cause.value, code);
    }
  }

  /** In a joined error, the first member carrying a PgError decides, even when a later member
      carries another code. */
  lemma JoinedFirstPgError(errors: seq<Error>, k: nat, code: string)
    requires k < |errors| && WrapChain(errors[k]) && Is(errors[k], PgError(code))
    requires forall j, c | 0 <= j < k :: !Is(errors[j], PgError(c))
    ensures AsPgError(Joined(errors)) == Some(code)
  {
    var joined := Joined(errors);
    var i := 0;
    while i < k
      invariant i <= k
      invariant FirstPgErrorFrom(joined, 0) == FirstPgErrorFrom(joined, i)
    {
      AsPgErrorComplete(errors[i]);
      i := i + 1;
    }
    WrapChainPgError(errors[k], code);
  }

  /** The Go `(value, error)` pair, for results where the value is meaningless on error. */
  datatype Result<+T> = Ok(value: T) | Err(error: Error)
}
