/** The PostgreSQL link store (internal/repository/link/postgres.go).

    The `links` table is a map from URL to the rest of its row. Its URL column is unique,
    since the upsert names it as the ON CONFLICT target, and its shortcut column is taken to be
    unique as well, so that a shortcut lookup finds at most one row. Transport failures are
    inputs: `faults[k]`, when present, is the error the k-th attempt of a statement fails with
    before reaching the table. */
module PostgresRepository {
  import opened Wrappers
  import opened Errors
  import opened Model
  import opened Database

  /** The columns of a row besides its URL. */
  datatype Row = Row(shortcut: string, userID: string)

  type Table = map<string, Row>

  predicate ShortcutTaken(rows: Table, shortcut: string)
  {
    exists u | u in rows :: rows[u].shortcut == shortcut
  }

  /** The unique index on the shortcut column. */
  ghost predicate ShortcutsUnique(rows: Table)
  {
    forall u, v | u in rows && v in rows && u != v :: rows[u].shortcut != rows[v].shortcut
  }

  /** The two statements the store retries. */
  datatype Statement =
    | Upsert(url: string, shortcut: string, userID: string)         // ON CONFLICT (url) DO UPDATE SET shortcut = links.shortcut
    | InsertIfAbsent(url: string, shortcut: string, userID: string) // ON CONFLICT (url) DO NOTHING

  /** What a statement did to the table and the row it returned, scanned into a link
      (None when it returned no row). */
  datatype Execution = Execution(rows: Table, returned: Option<Link>)

  /** One execution of a statement on a table. A URL already present is the ON CONFLICT case:
      the upsert returns the stored row unchanged and the plain insert does nothing and returns
      no row. A new URL whose shortcut another row holds violates the shortcut index. */
  function Execute(rows: Table, stmt: Statement): Result<Execution>
  {
    if stmt.url in rows then
      if stmt.Upsert? then Ok(Execution(rows, Some(Link(stmt.url, rows[stmt.url].shortcut, rows[stmt.url].userID, false))))
      else Ok(Execution(rows, None))
    else if ShortcutTaken(rows, stmt.shortcut) then Err(PgError(UniqueViolation))
    else
      var returned := if stmt.Upsert? then Link(stmt.url, stmt.shortcut, stmt.userID, false)
                      else Link(stmt.url, stmt.shortcut, "", false);
      Ok(Execution(rows[stmt.url := Row(stmt.shortcut, stmt.userID)], Some(returned)))
  }

  /** A statement fails only with the unique violation, for a new URL whose shortcut another
      row holds; otherwise the URL is in the table afterwards, a URL already present leaves the
      table as it was, a new one gets a row with the statement's shortcut and owner, and the
      upsert returns the URL's stored row. */
  lemma ExecuteSpec(rows: Table, stmt: Statement)
    ensures var r := Execute(rows, stmt);
      && (r.Err? ==> r.error == PgError(UniqueViolation) && stmt.url !in rows && ShortcutTaken(rows, stmt.shortcut))
      && (r.Ok? ==> stmt.url in r.value.rows && r.value.rows.Keys == rows.Keys + {stmt.url})
      && (r.Ok? && stmt.url in rows ==> r.value.rows == rows)
      && (r.Ok? && stmt.url !in rows ==> r.value.rows == rows[stmt.url := Row(stmt.shortcut, stmt.userID)])
      && (r.Ok? && stmt.Upsert? ==>
            r.value.returned == Some(Link(stmt.url, r.value.rows[stmt.url].shortcut, r.value.rows[stmt.url].userID, false)))
  {
  }

  /** A statement keeps the shortcut index intact. */
  lemma ExecuteKeepsShortcutsUnique(rows: Table, stmt: Statement)
    requires ShortcutsUnique(rows)
    ensures Execute(rows, stmt).Ok? ==> ShortcutsUnique(Execute(rows, stmt).value.rows)
  {
  }

  const MaxRetries := 3

  /** The error QueryRowContextWithRetry returns after its last attempt: `lastErr` is never
      assigned, so the %w operand is nil and the message ends in fmt's "%!w(<nil>)". */
  const RetriesExhausted := Wrapped("операция прервана после 3 попыток: %!w(<nil>)", None)

  /** The outcome of attempt k: a transport fault, or the statement's own result. */
  function Attempt(rows: Table, stmt: Statement, faults: seq<Option<Error>>, k: nat): Result<Execution>
  {
    if k < |faults| && faults[k].Some? then Err(faults[k].value) else Execute(rows, stmt)
  }

  /** QueryRowContextWithRetry from attempt k on: the outcome and the number of attempts made
      in total. A failed attempt leaves the table as it was, so every attempt sees `rows`. */
  function Retry(rows: Table, stmt: Statement, faults: seq<Option<Error>>, k: nat): (Result<Execution>, nat)
    requires k <= MaxRetries
    decreases MaxRetries - k
  {
    if k == MaxRetries then (Err(RetriesExhausted), k)
    else match Attempt(rows, stmt, faults, k)
      case Ok(e) => (Ok(e), k + 1)
      case Err(err) =>
        if Classify(Some(err)) == NonRetriable then (Err(err), k + 1) else Retry(rows, stmt, faults, k + 1)
  }

  /** The retry helper makes at most three attempts; it returns the first successful one at once;
      it returns the first non-retriable error unchanged, with no further attempt; and after three
      retriable failures it returns the exhausted error, which wraps nothing. */
  lemma {:induction false} RetrySpec(rows: Table, stmt: Statement, faults: seq<Option<Error>>, k: nat)
    requires k <= MaxRetries
    requires forall j | 0 <= j < k ::
      Attempt(rows, stmt, faults, j).Err? && Classify(Some(Attempt(rows, stmt, faults, j).error)) == Retriable
    ensures var (r, n) := Retry(rows, stmt, faults, k);
      && k <= n <= MaxRetries
      && (forall j | 0 <= j < n - 1 :: Attempt(rows, stmt, faults, j).Err? &&
            Classify(Some(Attempt(rows, stmt, faults, j).error)) == Retriable)
      && (r.Ok? ==> 1 <= n && r == Attempt(rows, stmt, faults, n - 1))
      && (r.Err? && r != Err(RetriesExhausted) ==>
            1 <= n && r == Attempt(rows, stmt, faults, n - 1) && Classify(Some(r.error)) == NonRetriable)
      && ((n == MaxRetries && Attempt(rows, stmt, faults, n - 1).Err? &&
           Classify(Some(Attempt(rows, stmt, faults, n - 1).error)) == Retriable) ==> r == Err(RetriesExhausted))
      && (k == MaxRetries ==> r == Err(RetriesExhausted))
    decreases MaxRetries - k
  {
    if k < MaxRetries {
      var a := Attempt(rows, stmt, faults, k);
      if a.Err? && Classify(Some(a.error)) == Retriable {
        RetrySpec(rows, stmt, faults, k + 1);
      }
    }
  }

  /** Three retriable faults in a row exhaust the helper without the statement ever running,
      and what it returns then carries no cause and is itself classified as non-retriable. */
  lemma RetriesExhaustedByFaults(rows: Table, stmt: Statement, e0: Error, e1: Error, e2: Error)
    requires Classify(Some(e0)) == Retriable && Classify(Some(e1)) == Retriable && Classify(Some(e2)) == Retriable
    ensures Retry(rows, stmt, [Some(e0), Some(e1), Some(e2)], 0) == (Err(RetriesExhausted), 3)
    ensures RetriesExhausted.cause.None? && Classify(Some(RetriesExhausted)) == NonRetriable
  {
  }

  /** A unique violation is never retried: the helper returns it after one attempt. */
  lemma UniqueViolationNotRetried(rows: Table, stmt: Statement)
    requires Execute(rows, stmt).Err?
    ensures Retry(rows, stmt, [], 0) == (Err(PgError(UniqueViolation)), 1)
  {
    IntegrityViolationsAreNonRetriable("", UniqueViolation);
  }

  /** GetByShortcut on a table: `SELECT url, shortcut ... WHERE shortcut = $1` scanned into a
      fresh link, with sql.ErrNoRows reported as ErrNotFound. */
  function LookupShortcut(rows: Table, shortcut: string, fault: Option<Error>): Result<Link>
    requires ShortcutsUnique(rows)
  {
    if fault.Some? then
      if Is(fault.value, NoRows) then Err(NotFound) else Err(fault.value)
    else if !ShortcutTaken(rows, shortcut) then Err(NotFound)
    else
      var u :| u in rows && rows[u].shortcut == shortcut;
      Ok(Link(u, shortcut, "", false))
  }

  /** A transport fault that is sql.ErrNoRows reads as ErrNotFound and any other is returned
      as is; without a fault the lookup reports ErrNotFound exactly when no row holds the
      shortcut, and otherwise returns that row's URL with the shortcut, no owner and no
      deletion flag. */
  lemma LookupShortcutSpec(rows: Table, shortcut: string, fault: Option<Error>)
    requires ShortcutsUnique(rows)
    ensures var r := LookupShortcut(rows, shortcut, fault);
      && (fault.Some? && Is(fault.value, NoRows) ==> r == Err(NotFound))
      && (fault.None? ==> (r == Err(NotFound) <==> !ShortcutTaken(rows, shortcut)))
      && (r.Ok? ==>
            && fault.None? && r.value.FullURL in rows && rows[r.value.FullURL].shortcut == shortcut
            && r.value == Link(r.value.FullURL, shortcut, "", false))
      && (r.Err? && r != Err(NotFound) ==> fault.Some? && r.error == fault.value && !Is(fault.value, NoRows))
  {
  }

  /** Whether the lookup's error is ErrNotFound under errors.Is, read off its inputs: a fault
      that is sql.ErrNoRows or ErrNotFound itself, or, without a fault, no row holding the
      shortcut. */
  predicate LookupReportsNotFound(rows: Table, shortcut: string, fault: Option<Error>)
  {
    if fault.Some? then Is(fault.value, NoRows) || Is(fault.value, NotFound) else !ShortcutTaken(rows, shortcut)
  }

  /** The predicate above is exactly the restore loop's test on the lookup's answer. */
  lemma LookupReportsNotFoundSpec(rows: Table, shortcut: string, fault: Option<Error>)
    requires ShortcutsUnique(rows)
    ensures var r := LookupShortcut(rows, shortcut, fault);
      LookupReportsNotFound(rows, shortcut, fault) <==> r.Err? && Is(r.error, NotFound)
  {
  }

  /** The store never reports a soft-deleted link: the deletion flag is not selected. */
  lemma LookupNeverDeleted(rows: Table, shortcut: string, fault: Option<Error>)
    requires ShortcutsUnique(rows) && (fault.Some? ==> fault.value != ObjectDeleted)
    ensures LookupShortcut(rows, shortcut, fault) != Err(ObjectDeleted)
    ensures LookupShortcut(rows, shortcut, fault).Ok? ==> !LookupShortcut(rows, shortcut, fault).value.IsDeleted
  {
  }

  /** The outcome of Create: the table afterwards, the link, the `created` flag and the error. */
  datatype Creation = Creation(rows: Table, link: Link, created: bool, err: Option<Error>)

  /** Create on a table: the retried upsert; on error the link the request describes, not
      created; otherwise the returned row, created exactly when it kept the requested shortcut. */
  function CreateOn(rows: Table, dto: CreateLinkDto, userID: string, faults: seq<Option<Error>>): Creation
  {
    match Retry(rows, Upsert(dto.FullURL, dto.Shortcut, userID), faults, 0).0
    case Err(e) => Creation(rows, dto.NewLink(userID), false, Some(e))
    case Ok(ex) =>
      var l := ex.returned.value;
      Creation(ex.rows, l, dto.Shortcut == l.Shortcut, None)
  }

  /** Create's outcomes: on error the table is unchanged and the dto-derived link is returned
      not created; an existing URL keeps its row, whose shortcut and owner are returned; a new
      URL gets a row with the requested shortcut and owner; and `created` holds exactly when
      the returned shortcut is the requested one. */
  lemma CreateSpec(rows: Table, dto: CreateLinkDto, userID: string, faults: seq<Option<Error>>)
    ensures var c := CreateOn(rows, dto, userID, faults);
      && (c.err.Some? ==> c.rows == rows && c.link == dto.NewLink(userID) && !c.created)
      && (c.err.None? ==> c.link.FullURL == dto.FullURL && !c.link.IsDeleted && dto.FullURL in c.rows)
      && (c.err.None? ==> (c.created <==> c.link.Shortcut == dto.Shortcut))
      && (c.err.None? && dto.FullURL in rows ==>
            c.rows == rows && c.link.Shortcut == rows[dto.FullURL].shortcut && c.link.UserID == rows[dto.FullURL].userID)
      && (c.err.None? && dto.FullURL !in rows ==>
            c.rows == rows[dto.FullURL := Row(dto.Shortcut, userID)] && c.created && c.link == dto.NewLink(userID))
  {
    RetrySpec(rows, Upsert(dto.FullURL, dto.Shortcut, userID), faults, 0);
  }

  /** Re-creating a stored URL with the shortcut it already has reports it as created, although
      no row was inserted. */
  lemma RecreateSamePairReportsCreated(rows: Table, dto: CreateLinkDto, userID: string)
    requires dto.FullURL in rows && rows[dto.FullURL].shortcut == dto.Shortcut
    ensures CreateOn(rows, dto, userID, []) == Creation(rows, Link(dto.FullURL, dto.Shortcut, rows[dto.FullURL].userID, false), true, None)
  {
  }

  /** A new URL with a shortcut another row holds fails with the unique violation, unretried. */
  lemma CreateTakenShortcutFails(rows: Table, dto: CreateLinkDto, userID: string)
    requires dto.FullURL !in rows && ShortcutTaken(rows, dto.Shortcut)
    ensures CreateOn(rows, dto, userID, []) == Creation(rows, dto.NewLink(userID), false, Some(PgError(UniqueViolation)))
  {
    UniqueViolationNotRetried(rows, Upsert(dto.FullURL, dto.Shortcut, userID));
  }

  /** The faults each step of LoadStoredData meets: beginning the transaction, the lookup of
      record i, the attempts of the insert of record i, and the commit. */
  datatype LoadFaults = LoadFaults(begin: Option<Error>, lookup: nat -> Option<Error>,
                                   insert: nat -> seq<Option<Error>>, commit: Option<Error>)

  /** The restore loop from record i on: an error that stops it, the transaction's table, and
      how many records were restored and skipped. */
  datatype Restoration = Restoration(err: Option<Error>, tx: Table, restored: nat, skipped: nat)

  /** The restore loop from record i on, with `restored` and `skipped` records counted so far.
      Lookups go to the committed table, not to the transaction; a record whose shortcut is not
      found is inserted in the transaction and counted as restored, any other lookup answer
      counts it as skipped, and a failed insert stops the loop. */
  function RestoreFrom(committed: Table, tx: Table, records: seq<Link>, faults: LoadFaults, i: nat,
                       restored: nat, skipped: nat): Restoration
    requires ShortcutsUnique(committed) && i <= |records|
    decreases |records| - i
  {
    if i == |records| then Restoration(None, tx, restored, skipped)
    else
      if LookupReportsNotFound(committed, records[i].Shortcut, faults.lookup(i)) then
        var stmt := InsertIfAbsent(records[i].FullURL, records[i].Shortcut, records[i].UserID);
        match Retry(tx, stmt, faults.insert(i), 0).0
        case Err(e) => Restoration(Some(e), tx, restored, skipped)
        case Ok(ex) => RestoreFrom(committed, ex.rows, records, faults, i + 1, restored + 1, skipped)
      else
        RestoreFrom(committed, tx, records, faults, i + 1, restored, skipped + 1)
  }

  /** How many of the records from i on have a shortcut the committed table does not hold. */
  function NotFoundCount(committed: Table, records: seq<Link>, faults: LoadFaults, i: nat): nat
    requires ShortcutsUnique(committed) && i <= |records|
    decreases |records| - i
  {
    if i == |records| then 0
    else
      (if LookupReportsNotFound(committed, records[i].Shortcut, faults.lookup(i)) then 1 else 0) + NotFoundCount(committed, records, faults, i + 1)
  }

  /** A restore that runs to the end accounts for every record once: exactly the records whose
      lookup reported ErrNotFound are counted as restored, the others as skipped; and the
      transaction's shortcut index stays intact. */
  lemma {:induction false} RestoreAccounting(committed: Table, tx: Table, records: seq<Link>, faults: LoadFaults, i: nat,
                                             restored: nat, skipped: nat)
    requires ShortcutsUnique(committed) && i <= |records|
    ensures var r := RestoreFrom(committed, tx, records, faults, i, restored, skipped);
      && (r.err.None? ==> r.restored + r.skipped == restored + skipped + |records| - i)
      && (r.err.None? ==> r.restored == restored + NotFoundCount(committed, records, faults, i))
    decreases |records| - i
  {
    if i < |records| {
      var stop, tx', d := RestoreStep(committed, tx, records, faults, i, restored, skipped);
      if !stop {
        RestoreAccounting(committed, tx', records, faults, i + 1, restored + d, skipped + 1 - d);
      }
    }
  }

  /** The restore loop keeps the transaction's shortcut index intact. */
  lemma {:induction false} RestoreKeepsShortcutsUnique(committed: Table, tx: Table, records: seq<Link>, faults: LoadFaults,
                                                       i: nat, restored: nat, skipped: nat)
    requires ShortcutsUnique(committed) && ShortcutsUnique(tx) && i <= |records|
    ensures ShortcutsUnique(RestoreFrom(committed, tx, records, faults, i, restored, skipped).tx)
    decreases |records| - i
  {
    if i < |records| {
      var stop, tx', d := RestoreStep(committed, tx, records, faults, i, restored, skipped);
      if !stop {
        ExecuteKeepsShortcutsUnique(tx, InsertIfAbsent(records[i].FullURL, records[i].Shortcut, records[i].UserID));
        RestoreKeepsShortcutsUnique(committed, tx', records, faults, i + 1, restored + d, skipped + 1 - d);
      }
    }
  }

  /** One record of the restore loop: either a failed insert stops the loop with the
      transaction untouched, or the loop goes on, with the transaction the insert produced
      when the record counts as restored (d = 1, exactly when it counts as not found) and
      the same transaction when it is skipped. */
  lemma RestoreStep(committed: Table, tx: Table, records: seq<Link>, faults: LoadFaults, i: nat,
                    restored: nat, skipped: nat)
    returns (stop: bool, tx': Table, d: nat)
    requires ShortcutsUnique(committed) && i < |records|
    ensures d <= 1
    ensures d == 0 ==> tx' == tx
    ensures !stop && d == 1 ==>
      var e := Execute(tx, InsertIfAbsent(records[i].FullURL, records[i].Shortcut, records[i].UserID));
      e.Ok? && tx' == e.value.rows
    ensures NotFoundCount(committed, records, faults, i) == d + NotFoundCount(committed, records, faults, i + 1)
    ensures stop ==> RestoreFrom(committed, tx, records, faults, i, restored, skipped).err.Some?
    ensures stop ==> RestoreFrom(committed, tx, records, faults, i, restored, skipped).tx == tx
    ensures !stop ==> RestoreFrom(committed, tx, records, faults, i, restored, skipped) ==
                      RestoreFrom(committed, tx', records, faults, i + 1, restored + d, skipped + 1 - d)
  {
    stop, tx', d := false, tx, 0;
    if LookupReportsNotFound(committed, records[i].Shortcut, faults.lookup(i)) {
      var stmt := InsertIfAbsent(records[i].FullURL, records[i].Shortcut, records[i].UserID);
      var r := Retry(tx, stmt, faults.insert(i), 0).0;
      d := 1;
      if r.Ok? {
        RetrySpec(tx, stmt, faults.insert(i), 0);
        tx' := r.value.rows;
      } else {
        stop := true;
      }
    }
  }

  /** A record whose shortcut is not committed but whose URL is already in the transaction is
      counted as restored, although the insert did nothing. */
  lemma RestoredWithoutInsert(committed: Table, tx: Table, l: Link)
    requires ShortcutsUnique(committed) && !ShortcutTaken(committed, l.Shortcut) && l.FullURL in tx
    ensures RestoreFrom(committed, tx, [l], LoadFaults(None, _ => None, _ => [], None), 0, 0, 0) ==
      Restoration(None, tx, 1, 0)
  {
  }

  /** A handle on which statements run: the connection pool, whose table is the committed one,
      or a transaction begun on it, which works on its own copy until it commits. */
  class Executer {
    var rows: Table
    const parent: Executer?

    ghost predicate Valid()
      reads this
    {
      ShortcutsUnique(rows)
    }

    /** The `*sql.DB` handed to the repository's constructor, over a table; no transaction. */
    constructor (rows: Table)
      requires ShortcutsUnique(rows)
      ensures Valid() && this.rows == rows && parent == null
    {
      this.rows := rows;
      parent := null;
    }

    /** db.Begin: a transaction sees the committed table. */
    constructor Begin(db: Executer)
      requires db.Valid()
      ensures Valid() && rows == db.rows && parent == db
    {
      rows := db.rows;
      parent := db;
    }

    /** tx.Commit: a failed commit leaves the committed table as it was; otherwise the
        transaction's table becomes the committed one. */
    method Commit(fault: Option<Error>) returns (err: Option<Error>)
      requires Valid() && parent != null
      modifies parent
      ensures err == fault
      ensures fault.Some? ==> parent.rows == old(parent.rows)
      ensures fault.None? ==> parent.rows == rows && parent.Valid()
    {
      if fault.Some? {
        return fault;
      }
      parent.rows := rows;
      return None;
    }
  }

  /** QueryRowContextWithRetry: at most three attempts; a successful one is returned at once
      and a non-retriable error unchanged. */
  method QueryRowContextWithRetry(exec: Executer, stmt: Statement, faults: seq<Option<Error>>)
    returns (res: Result<Option<Link>>, attempts: nat)
    requires exec.Valid()
    modifies exec
    ensures exec.Valid()
    ensures var (r, n) := Retry(old(exec.rows), stmt, faults, 0);
      && attempts == n
      && (r.Ok? ==> res == Ok(r.value.returned) && exec.rows == r.value.rows)
      && (r.Err? ==> res == Err(r.error) && exec.rows == old(exec.rows))
  {
    var i := 0;
    while i < MaxRetries
      invariant i <= MaxRetries
      invariant Retry(exec.rows, stmt, faults, i) == Retry(exec.rows, stmt, faults, 0)
      invariant exec.rows == old(exec.rows)
    {
      var outcome := Attempt(exec.rows, stmt, faults, i);
      if outcome.Ok? {
        ExecuteKeepsShortcutsUnique(exec.rows, stmt);
        exec.rows := outcome.value.rows;
        return Ok(outcome.value.returned), i + 1;
      }
      if Classify(Some(outcome.error)) == NonRetriable {
        return Err(outcome.error), i + 1;
      }
      i := i + 1;
    }
    return Err(RetriesExhausted), MaxRetries;
  }

  /** The store behind a service configured with a database DSN. */
  class PostgreSQLLinksRepository {
    const db: Executer

    ghost predicate Valid()
      reads this, db
    {
      db.Valid() && db.parent == null
    }

    /** NewInPostgresSQLLinksRepository over a connection pool. */
    constructor (db: Executer)
      requires db.Valid() && db.parent == null
      ensures Valid() && this.db == db
    {
      this.db := db;
    }

    /** GetByShortcut on the committed table; `fault` is the error the query fails with, if any. */
    method GetByShortcut(shortcut: string, fault: Option<Error>) returns (r: Result<Link>)
      requires Valid()
      ensures r == LookupShortcut(db.rows, shortcut, fault)
    {
      var err: Option<Error> := fault;
      if err.None? && !ShortcutTaken(db.rows, shortcut) {
        err := Some(NoRows);
      }
      if err.Some? {
        if Is(err.value, NoRows) {
          return Err(NotFound);
        }
        return Err(err.value);
      }
      var u :| u in db.rows && db.rows[u].shortcut == shortcut;
      return Ok(Link(u, shortcut, "", false));
    }

    /** Create: the retried upsert on the given executer, or on the pool when there is none. */
    method Create(dto: CreateLinkDto, userID: string, executer: Executer?, faults: seq<Option<Error>>)
      returns (link: Link, created: bool, err: Option<Error>)
      requires Valid() && (executer != null ==> executer.Valid())
      modifies if executer != null then executer else db
      ensures var exec := if executer != null then executer else db;
        && exec.Valid()
        && Creation(exec.rows, link, created, err) == CreateOn(old(exec.rows), dto, userID, faults)
    {
      var exec := db;
      var oldShortcut := dto.Shortcut;
      if executer != null {
        exec := executer;
      }
      var res, _ := QueryRowContextWithRetry(exec, Upsert(dto.FullURL, dto.Shortcut, userID), faults);
      if res.Err? {
        return dto.NewLink(userID), false, Some(res.error);
      }
      var newLink := res.value.value;
      return newLink, oldShortcut == newLink.Shortcut, None;
    }

    /** LoadStoredData, with the file and the decoder as inputs as in the in-memory store. An
        empty file means no records; a failed begin returns its error; the records are restored
        in a transaction, which a failed insert rolls back; and the transaction is committed. */
    method LoadStoredData(openErr: Option<Error>, decoded: Result<seq<Link>>, faults: LoadFaults)
      returns (err: Option<Error>, restored: nat, skipped: nat)
      requires Valid()
      modifies db
      ensures Valid()
      ensures openErr.Some? ==> err == openErr && db.rows == old(db.rows)
      ensures openErr.None? && decoded.Err? && !Is(decoded.error, EOF) ==>
        err == Some(decoded.error) && db.rows == old(db.rows)
      ensures openErr.None? && !(decoded.Err? && !Is(decoded.error, EOF)) ==>
        var records := if decoded.Ok? then decoded.value else [];
        var r := RestoreFrom(old(db.rows), old(db.rows), records, faults, 0, 0, 0);
        && (faults.begin.Some? ==> err == faults.begin && db.rows == old(db.rows))
        && (faults.begin.None? && r.err.Some? ==> err == r.err && db.rows == old(db.rows))
        && (faults.begin.None? && r.err.None? ==>
              && err == faults.commit
              && restored == r.restored && skipped == r.skipped
              && db.rows == (if faults.commit.Some? then old(db.rows) else r.tx))
    {
      if openErr.Some? {
        return openErr, 0, 0;
      }
      var storedData: seq<Link> := [];
      if decoded.Err? {
        if !Is(decoded.error, EOF) {
          return Some(decoded.error), 0, 0;
        }
      } else {
        storedData := decoded.value;
      }
      if faults.begin.Some? {
        return faults.begin, 0, 0;
      }
      var tx := new Executer.Begin(db);
      err, restored, skipped := Restore(tx, storedData, faults);
      if err.Some? {
        return;
      }
      err := tx.Commit(faults.commit);
    }

    /** The restore loop of LoadStoredData, on a transaction begun on the pool: a failed
        insert stops it (the caller then rolls the transaction back). */
    method Restore(tx: Executer, records: seq<Link>, faults: LoadFaults)
      returns (err: Option<Error>, restored: nat, skipped: nat)
      requires Valid() && tx.Valid() && tx != db
      modifies tx
      ensures tx.Valid()
      ensures var r := RestoreFrom(db.rows, old(tx.rows), records, faults, 0, 0, 0);
        && err == r.err && (err.None? ==> tx.rows == r.tx && restored == r.restored && skipped == r.skipped)
    {
      restored, skipped := 0, 0;
      ghost var total := RestoreFrom(db.rows, tx.rows, records, faults, 0, 0, 0);
      var i := 0;
      while i < |records|
        invariant i <= |records| && tx.Valid()
        invariant RestoreFrom(db.rows, tx.rows, records, faults, i, restored, skipped) == total
      {
        var stop;
        stop, restored, skipped := RestoreRecord(tx, records, faults, i, restored, skipped);
        if stop.Some? {
          return stop, restored, skipped;
        }
        i := i + 1;
      }
      return None, restored, skipped;
    }

    /** One record of the restore loop: its shortcut is looked up on the pool, and when that
        reports ErrNotFound it is inserted in the transaction and counts as restored; any
        other answer counts it as skipped. */
    method RestoreRecord(tx: Executer, records: seq<Link>, faults: LoadFaults, i: nat, restored: nat, skipped: nat)
      returns (err: Option<Error>, restored': nat, skipped': nat)
      requires Valid() && tx.Valid() && tx != db && i < |records|
      modifies tx
      ensures tx.Valid()
      ensures var now := RestoreFrom(db.rows, old(tx.rows), records, faults, i, restored, skipped);
        && (err.Some? ==> now.err == err)
        && (err.None? ==> now == RestoreFrom(db.rows, tx.rows, records, faults, i + 1, restored', skipped'))
    {
      err, restored', skipped' := None, restored, skipped + 1;
      var found := GetByShortcut(records[i].Shortcut, faults.lookup(i));
      if found.Err? && Is(found.error, NotFound) {
        var stmt := InsertIfAbsent(records[i].FullURL, records[i].Shortcut, records[i].UserID);
        var res, _ := QueryRowContextWithRetry(tx, stmt, faults.insert(i));
        if res.Err? {
          return Some(res.error), restored, skipped;
        }
        restored', skipped' := restored + 1, skipped;
      }
    }
  }
}
