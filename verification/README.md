# URL shortener core, modelled in Dafny

This project models the core of a Go URL shortener: the link stores (an in-memory store with
two indices, a PostgreSQL-backed store over an abstract `links` table, and an older single-map
store), the link services that validate URLs, generate random shortcuts and create links one
at a time or in batches, the PostgreSQL error classifier and retry helper, the link model
conversions, a generic object pool, the configuration builder, the generator of `Reset()`
methods (`cmd/reset`) and the `noexit` linter rule (`cmd/linter`).

Modules, one per source file of the core:

| module | file | source |
|---|---|---|
| `Wrappers`, `Errors` | wrappers.dfy | Option, set enumeration (Go map iteration order), Go `error` values, `errors.Is`/`errors.As` |
| `Model` | model.dfy | internal/model/link.go |
| `ObjectPool` | pool.dfy | internal/utils/pool.go |
| `Database` | database.dfy | internal/repository/database/database.go |
| `Shortcuts` | shortcuts.dfy | `generateShortcut` of both services |
| `InMemoryRepository` | in_memory.dfy | internal/repository/link/in_memory.go |
| `PostgresRepository` | postgres.dfy | internal/repository/link/postgres.go |
| `LegacyLinkRepository` | legacy_store.dfy | internal/repository/shortened_link.go |
| `LinksService` | links_service.dfy | internal/service/links_service.go |
| `LegacyLinksService` | legacy_service.dfy | internal/service/linksService.go |
| `GoStrconv`, `Config` | config.dfy | internal/config/config.go (with `strconv.Itoa`/`Atoi`) |
| `ResetGenerator` | reset_gen.dfy | cmd/reset/main.go |
| `NoExitLinter` | linter.dfy | cmd/linter/linter.go |

How the model is built:

- Stateful Go objects are classes: `InMemoryLinkRepository`, the legacy `LinkRepository`,
  `Pool<T>`, `AppConfigBuilder`, the `strings.Builder` of the reset generator, the analysis
  `Pass` of the linter, and the PostgreSQL database handle (`*sql.DB`) and its transactions (`Executer`).
  Each method is proved against a pure specification function of the old state. The
  properties the source promises are then proved about those functions as lemmas.
- The in-memory store keeps Go's pointer sharing. `shortStorage` and `fullStorage` map keys
  to positions in one array of records, so a soft delete through one index is seen through
  the other, as in Go.
- The repository that a service calls is a Go interface. It is modelled as a set of answer
  functions indexed by call number, and each service operation also returns the log of the
  calls it made. `math/rand` is a letter-drawing function of (generation, position).
  `url.ParseRequestURI` and `url.JoinPath` are uninterpreted function parameters. The owner
  ID that gin and the auth service supply is an input.
- The `links` table is a map from URL to (shortcut, userID). `INSERT … ON CONFLICT (url)` needs
  the URL to be unique, and the model also takes shortcuts to be unique (`ShortcutsUnique`).
  Transport faults of a query are inputs, one optional error per attempt.
- The file I/O and JSON decoding of snapshots are inputs: the error opening the file, and
  the decoded list or the decoding error. The environment is a `map<string, string>`, and
  command-line flags are optional strings.

Where the code behaves differently from what one would expect, the model follows the code:

- In-memory `Create` is idempotent by URL. For a stored URL it returns the stored record with
  `created = false`, whatever shortcut was asked for.
- In-memory `GetByUserID` has no deletion filter.
- `ErrObjectDeleted` is used by the in-memory store but not declared in database.go. It is
  `Errors.ObjectDeleted`.
- The `createUniqueShortcut` loop (links_service.go:145-152) draws a new candidate when the
  lookup *fails* (the candidate is free) and stops when the candidate is *taken*. Only the
  final check decides. When the last candidate is live, `err.Error()` is called on a nil
  error; that path is the failure `Panic(NilErrorPanic)`. In the batch the panic unwinds
  past the error branch, so unlike every other failed item it is not followed by a commit.
- `index+1%1000 == 0` parses as `index + 1 == 0`, so the batch commits inside the loop only
  after its last item. It then commits once more after the loop, and begins a second
  transaction in between.
- `QueryRowContextWithRetry` wraps `lastErr`, which is never assigned. After three retriable
  failures, the error it returns wraps nothing.
- The PostgreSQL restore loop counts a record as restored when the insert ran without error,
  even when `ON CONFLICT DO NOTHING` inserted nothing.
- The older `LinksService.CreateLink` loops for as long as lookups succeed, with no bound.
- The older service is built with the gorm-backed repository of
  internal/repository/shortenedLink.go. Its `Create(link) error` matches the service's call,
  but it offers `GetByShortUrl`, which answers `(nil, nil)` when nothing is found, not the
  `GetByShortcut(shortcut) (link, error)` the service calls. The map-backed store of
  shortened_link.go declares the same type `LinkRepository` in the same package, with a
  `GetByShortcut` answering `(link, ok)` and a `Create` returning nothing. Neither matches, so
  the older service is modelled against an abstract repository with the signature it uses.

## Model

| member | source | states |
|---|---|---|
| Model.Link.ToCreateDto | internal/model/link.go:16-21 | the request keeps URL and shortcut; re-creating it for the same owner gives the link back exactly when the link is not deleted |
| Model.CreateLinkDto.NewLink | internal/model/link.go:40-46 | the new link carries the request's URL and shortcut, the given owner, and is not deleted |
| Model.NewLinkThenToCreateDto | internal/model/link.go:16-46 | `NewLink(u).ToCreateDto()` is the original request, for every owner |
| Model.ToCreateDtoThenNewLink | internal/model/link.go:4-46 | `l.ToCreateDto().NewLink(l.UserID) == l` iff `l` is live; otherwise the result is `l` undeleted |
| ObjectPool.Pushed | internal/utils/pool.go:36-42 | Put's new item list: the old items, then the reset item on top |
| ObjectPool.Popped | internal/utils/pool.go:22-34 | Get on an empty pool: the zero value, pool unchanged; otherwise the last item, and only it is removed |
| ObjectPool.PutThenGet | internal/utils/pool.go:22-42 | LIFO: Get right after Put(x) returns reset(x) and restores the earlier items |
| ObjectPool.PutsStackInOrder | internal/utils/pool.go:22-42 | a sequence of Puts stacks the reset items in order on top of the earlier ones, so Gets return them last first |
| ObjectPool.Pool.constructor | internal/utils/pool.go:16-20 | New yields an empty pool with the given zero value and reset function |
| ObjectPool.Pool.Get | internal/utils/pool.go:22-34 | the returned item and the new items are `Popped(old items)` |
| ObjectPool.Pool.Put | internal/utils/pool.go:36-42 | the new items are `Pushed(old items, item)` |
| Database.Classification.Ordinal | internal/repository/database/database.go:39-42 | NonRetriable is 0 and Retriable is 1 |
| Database.ClassifyPgError | internal/repository/database/database.go:114-163 | Retriable iff the code is 08000, 08003, 08006, 40000, 40001, 40P01 or 57P03; every class 23 code is NonRetriable |
| Database.Classify | internal/repository/database/database.go:100-112 | nil and errors without a PgError on their chain are NonRetriable; a PgError is classified by its code |
| Database.IntegrityViolationsAreNonRetriable | internal/repository/database/database.go:143-150 | class 23 violations, 23505 unique_violation among them, are NonRetriable, also when wrapped |
| Database.ClassifyIsTotal | internal/repository/database/database.go:100-163 | exactly two outcomes; Retriable iff the error carries one of the seven retriable codes |
| Errors.AsPgError | internal/repository/database/database.go:105-111 | a code found is one `errors.Is` recognises on the error tree; a PgError yields its own code |
| Errors.FirstPgErrorFrom | internal/repository/database/database.go:105-111 | in a joined list, a code found comes from a member at or after the starting index |
| Errors.AsPgErrorComplete | internal/repository/database/database.go:105-111 | no code is found exactly when no PgError is anywhere on the tree, joined lists included |
| Errors.FirstPgErrorComplete | internal/repository/database/database.go:105-111 | the joined-list search finds nothing exactly when no remaining member carries a PgError |
| Errors.WrapChainPgError | internal/repository/database/database.go:105-111 | on a chain of %w wraps, the code found is exactly the PgError the chain carries |
| Errors.JoinedFirstPgError | internal/repository/database/database.go:105-111 | in a joined error the first member carrying a PgError decides |
| Database.ClassifyWrappedPgError | internal/repository/database/database.go:100-112 | a PgError behind any number of wraps is classified by its own code |
| Shortcuts.ShortcutShape | internal/service/links_service.go:162-171 | a generated shortcut has exactly the requested length and only ASCII letters, each the letter drawn for its position |
| Shortcuts.GenerateShortcut | internal/service/links_service.go:162-171 | the rune-buffer loop produces `ShortcutFrom(length, rng, g)` |
| InMemoryRepository.CreateOn | internal/repository/link/in_memory.go:69-91 | a stored URL: the stored record, `created = false`, store unchanged; a new URL: one new live record owned by the caller, indexed under its shortcut and its URL, `created = true` |
| InMemoryRepository.CreateThenLookup | internal/repository/link/in_memory.go:30-91 | after an inserting Create both lookups find the new link and every other key answers as before |
| InMemoryRepository.KnownPrefix | internal/repository/link/in_memory.go:94-101 | the number of leading shortcuts that are stored; the next one, if any, is not |
| InMemoryRepository.ReachedRecordsOfKnownPrefix | internal/repository/link/in_memory.go:94-108 | DeleteUserLinks reaches exactly the records indexed by the shortcuts before the first unknown one |
| InMemoryRepository.MarkDeleted | internal/repository/link/in_memory.go:103-105 | one loop step: the record is flagged deleted iff the caller owns it; nothing else changes |
| InMemoryRepository.DeleteOn | internal/repository/link/in_memory.go:93-111 | a soft delete never changes either index or the number of records |
| InMemoryRepository.DeleteOnError | internal/repository/link/in_memory.go:94-101 | ErrNotFound iff some shortcut of the list is unknown |
| InMemoryRepository.DeleteOnRecords | internal/repository/link/in_memory.go:93-111 | exactly the reached records owned by the caller become deleted; other owners' records and all other fields are unchanged |
| InMemoryRepository.Replayed | internal/repository/link/in_memory.go:134-136 | replaying records through Create with owner "" keeps the store well formed |
| InMemoryRepository.Appended | internal/repository/link/in_memory.go:134-136 | the store holding the records in order, one record per input |
| InMemoryRepository.AppendedRecords | internal/repository/link/in_memory.go:134-136 | record j is input j with owner "" and not deleted |
| InMemoryRepository.AppendedShortcutIndex | internal/repository/link/in_memory.go:83 | with distinct shortcuts, each record's shortcut indexes that record |
| InMemoryRepository.SnapshotKeysDistinct | internal/repository/link/in_memory.go:154-156 | what SaveInStorage writes has distinct shortcuts and distinct URLs |
| InMemoryRepository.ReplayIntoEmpty | internal/repository/link/in_memory.go:134-136 | with distinct URLs, replaying into an empty store inserts every record in order |
| InMemoryRepository.RestoredShortcuts | internal/repository/link/in_memory.go:134-156 | each saved shortcut leads, after reloading, to a live record owned by "" with the URL it had |
| InMemoryRepository.RestoredNoOtherShortcut | internal/repository/link/in_memory.go:134-156 | reloading adds no shortcut the saved store lacked |
| InMemoryRepository.SaveLoadRoundTrip | internal/repository/link/in_memory.go:113-167 | save, then load into a fresh store: the same shortcut → URL pairs, every record live and owned by "" (owner and deletion flag are not restored) |
| InMemoryRepository.InMemoryLinkRepository.constructor | internal/repository/link/in_memory.go:173-175 | both indices empty |
| InMemoryRepository.InMemoryLinkRepository.GetByShortcut | internal/repository/link/in_memory.go:30-42 | absent → ErrNotFound; present and deleted → ErrObjectDeleted; present and live → the stored link, each iff |
| InMemoryRepository.InMemoryLinkRepository.GetByUserID | internal/repository/link/in_memory.go:44-56 | one item per stored shortcut whose record has this owner, in map order, deleted records included |
| InMemoryRepository.InMemoryLinkRepository.GetByFullURL | internal/repository/link/in_memory.go:58-67 | the record stored under the URL, deleted or not; ErrNotFound iff the URL is absent |
| InMemoryRepository.InMemoryLinkRepository.Create | internal/repository/link/in_memory.go:69-91 | the new state and answer are `CreateOn(old state, dto, userID)` |
| InMemoryRepository.InMemoryLinkRepository.DeleteUserLinks | internal/repository/link/in_memory.go:93-111 | the new state and error are `DeleteOn(old state, shortcuts, userID)` |
| InMemoryRepository.InMemoryLinkRepository.MarkDeletedAt | internal/repository/link/in_memory.go:103-105 | the loop body is `MarkDeleted` |
| InMemoryRepository.InMemoryLinkRepository.LoadStoredData | internal/repository/link/in_memory.go:113-141 | an open error or a non-EOF decode error is returned with the store unchanged; EOF counts as no records; otherwise the records are replayed through Create with owner "" |
| InMemoryRepository.InMemoryLinkRepository.Replay | internal/repository/link/in_memory.go:134-136 | the loop leaves `Replayed(old state, records)` |
| InMemoryRepository.InMemoryLinkRepository.SaveInStorage | internal/repository/link/in_memory.go:143-167 | every shortcut-index value, deleted ones included, is written once, in map order; the open or encode error is returned |
| InMemoryRepository.InMemoryLinkRepository.GetTransactionExecuter | internal/repository/link/in_memory.go:169-171 | always ErrExecuterNotSupportTransactions |
| PostgresRepository.ExecuteSpec | internal/repository/link/postgres.go:155-167 | the upsert keeps a stored URL's row and returns it; a new URL is inserted with its shortcut and owner unless another row holds the shortcut (unique violation); DO NOTHING leaves a stored URL alone |
| PostgresRepository.ExecuteKeepsShortcutsUnique | internal/repository/link/postgres.go:155-167 | a successful statement keeps shortcuts unique across rows |
| PostgresRepository.RetrySpec | internal/repository/link/postgres.go:278-301 | at most three attempts; the first error-free one is returned at once; a non-retriable error is returned unchanged at once; after retriable failures the exhausted error wraps nothing |
| PostgresRepository.RetriesExhaustedByFaults | internal/repository/link/postgres.go:279-300 | three retriable faults exhaust the helper; the returned error has no cause and is itself NonRetriable |
| PostgresRepository.UniqueViolationNotRetried | internal/repository/link/postgres.go:292-297 | a unique violation is returned after a single attempt |
| PostgresRepository.LookupShortcutSpec | internal/repository/link/postgres.go:28-56 | no row → ErrNotFound; a row → its URL and shortcut with empty owner and no deletion flag; a query error is returned |
| PostgresRepository.LookupReportsNotFoundSpec | internal/repository/link/postgres.go:208-210 | the restore loop inserts exactly when the lookup's error `errors.Is` ErrNotFound |
| PostgresRepository.LookupNeverDeleted | internal/repository/link/postgres.go:38-47 | GetByShortcut never reports a deleted link |
| PostgresRepository.CreateSpec | internal/repository/link/postgres.go:143-177 | on error: the dto-derived link, `created = false`, the error; otherwise the row now stored for the URL, and `created` iff its shortcut is the requested one |
| PostgresRepository.RecreateSamePairReportsCreated | internal/repository/link/postgres.go:155-176 | re-creating a stored URL with its own shortcut reports `created = true` although nothing was inserted |
| PostgresRepository.CreateTakenShortcutFails | internal/repository/link/postgres.go:155-171 | a new URL with a taken shortcut fails with the unique violation, unretried |
| PostgresRepository.RestoreAccounting | internal/repository/link/postgres.go:207-239 | when the loop ends without error, restored + skipped = number of records and restored = number of records whose lookup reported not found |
| PostgresRepository.RestoreKeepsShortcutsUnique | internal/repository/link/postgres.go:207-239 | the restore loop keeps the transaction's shortcuts unique |
| PostgresRepository.RestoreStep | internal/repository/link/postgres.go:208-238 | one record: either stop with the insert's error, or count it restored (after an insert) or skipped (transaction unchanged) and continue |
| PostgresRepository.RestoredWithoutInsert | internal/repository/link/postgres.go:211-233 | a record whose URL is already in the transaction is counted restored though DO NOTHING inserted nothing |
| PostgresRepository.Executer.constructor | internal/repository/link/postgres.go:307-314 | stands for the `db *sql.DB` handed to NewInPostgresSQLLinksRepository: no transaction is open, over a table of unique shortcuts |
| PostgresRepository.Executer.Begin | internal/repository/link/postgres.go:201-205 | a transaction starts from the committed table |
| PostgresRepository.Executer.Commit | internal/repository/link/postgres.go:241-245 | a failed commit leaves the committed table unchanged; otherwise the transaction's table becomes the committed one |
| PostgresRepository.QueryRowContextWithRetry | internal/repository/link/postgres.go:278-301 | the loop's outcome, attempt count and new table are those of `Retry` |
| PostgresRepository.PostgreSQLLinksRepository.constructor | internal/repository/link/postgres.go:307-314 | a repository over the given pool |
| PostgresRepository.PostgreSQLLinksRepository.GetByShortcut | internal/repository/link/postgres.go:28-56 | the answer is `LookupShortcut(committed table, shortcut, fault)` |
| PostgresRepository.PostgreSQLLinksRepository.Create | internal/repository/link/postgres.go:143-177 | the retried upsert runs on the given executer, or on the pool when none is given, and answers as `CreateOn` |
| PostgresRepository.PostgreSQLLinksRepository.LoadStoredData | internal/repository/link/postgres.go:179-250 | open or non-EOF decode error: returned, table unchanged; otherwise begin, restore loop, and commit; a failed insert rolls back, leaving the committed table unchanged |
| PostgresRepository.PostgreSQLLinksRepository.Restore | internal/repository/link/postgres.go:207-239 | the loop's error, transaction table and counters are `RestoreFrom(…, 0, 0, 0)` |
| PostgresRepository.PostgreSQLLinksRepository.RestoreRecord | internal/repository/link/postgres.go:208-238 | one loop body, stated as the step of `RestoreFrom` |
| LegacyLinkRepository.StoredAll | internal/repository/shortened_link.go:50-52 | storing records in turn leaves exactly the old keys plus the records' shortcuts |
| LegacyLinkRepository.StoredAllKeyedByShortcut | internal/repository/shortened_link.go:20-24 | storing records keeps every key equal to its link's shortcut |
| LegacyLinkRepository.SaveLoadRoundTrip | internal/repository/shortened_link.go:20-83 | loading a saved snapshot into an empty store rebuilds the same shortcut → link map, since keys equal each link's shortcut |
| LegacyLinkRepository.LoadSnapshotPrefix | internal/repository/shortened_link.go:50-52 | storing the first n saved links rebuilds the entries of the first n keys |
| LegacyLinkRepository.LinkRepository.constructor | internal/repository/shortened_link.go:85-87 | an empty map |
| LegacyLinkRepository.LinkRepository.Create | internal/repository/shortened_link.go:20-24 | the link is stored under its shortcut, replacing any earlier entry; no other key changes |
| LegacyLinkRepository.LinkRepository.GetByShortcut | internal/repository/shortened_link.go:26-31 | `(link, true)` iff the key is stored, else `(nil, false)` |
| LegacyLinkRepository.LinkRepository.LoadStoredData | internal/repository/shortened_link.go:33-57 | every open or decode error is returned, EOF included; otherwise every record is stored as is, in order; a store keyed by shortcut stays so |
| LegacyLinkRepository.LinkRepository.SaveInStorage | internal/repository/shortened_link.go:59-83 | every stored link is written once, in map order; the open or encode error is returned |
| LinksService.GetFullURLFromShort | internal/service/links_service.go:24-30 | the found link's URL, or the repository's error |
| LinksService.ShortURLPrefix | internal/service/links_service.go:173-177 | the configured base URL, else `http://<host>/` |
| LinksService.LookupCalls | internal/service/links_service.go:143-152 | the lookups of n consecutive candidates, in order |
| LinksService.ProbingBounds | internal/service/links_service.go:143-152 | the loop makes one to five lookups; it stops at the first taken candidate, and every earlier candidate was free |
| LinksService.UniqueShortcutOnlyLooksUp | internal/service/links_service.go:140-160 | createUniqueShortcut calls nothing but GetByShortcut |
| LinksService.UniqueShortcutSpec | internal/service/links_service.go:140-160 | success iff the final lookup returned exactly ErrNotFound, so the shortcut is neither live nor deleted; at most six lookups; a live final candidate panics, any other error gives the "after 5 attempts" error |
| LinksService.FreeCandidatesAreDiscarded | internal/service/links_service.go:145-159 | when every lookup fails, five free candidates are drawn and discarded and the sixth is returned |
| LinksService.TakenCandidatePanics | internal/service/links_service.go:154-155 | when the first candidate is live, the final check calls `Error()` on a nil error |
| LinksService.ProbingOutcome | internal/service/links_service.go:143-152 | the loop outcome characterised by ProbingBounds is the one computed |
| LinksService.ProbeAttempt | internal/service/links_service.go:146-150 | one pass: a lookup of the current candidate, and a fresh candidate when the lookup fails |
| LinksService.ProbeCandidates | internal/service/links_service.go:143-152 | the loop: one to five lookups of fresh candidates; it ends on the first taken one or after five |
| LinksService.CreateUniqueShortcut | internal/service/links_service.go:140-160 | the method's answer and calls are those of `UniqueShortcut` |
| LinksService.CreateLink | internal/service/links_service.go:42-64 | auth error returned; invalid URL → "invalid URL" error, no repository call; a non-empty shortcut is kept; an empty one is replaced by createUniqueShortcut's; then one Create, outside a transaction, whose answer is returned; the shortcut (or "" when generation fails) is written into the caller's dto, which is the dto Create receives |
| LinksService.CommitDueOnlyAtLast | internal/service/links_service.go:124 | `index+1%1000 == 0 \|\| index == n-1` holds only at the last index |
| LinksService.BatchItemCalls | internal/service/links_service.go:87-122 | an item makes lookups and at most one Create, for the caller and in the transaction when there is one, and never commits or begins a transaction |
| LinksService.BatchItemSuccess | internal/service/links_service.go:87-122 | a successful item passed URL validation, echoes its correlation ID, and created exactly one link for its own URL |
| LinksService.BatchItemShortURL | internal/service/links_service.go:94-122 | a successful item's last call is the Create of its URL, and its response's short URL is built from the shortcut of the link that Create returned; a panicking item made no Create and reports the nil-pointer panic |
| LinksService.CreateBatchItem | internal/service/links_service.go:87-122 | the method's answer, calls and panic flag are those of `BatchItem` |
| LinksService.ShortURLsExtend | internal/service/links_service.go:86-131 | later calls leave each earlier response tied to its Create call and answer, those calls still in item order |
| LinksService.ShortURLsComplete | internal/service/links_service.go:86-131 | once every item has a response, each response is tied to its own item's Create call and answer, whatever calls follow, and those Creates come in item order |
| LinksService.ShortURLsStep | internal/service/links_service.go:113-122 | a successful item adds its response, tied to its own Create call, which comes after every earlier item's |
| LinksService.BatchProgressStep | internal/service/links_service.go:86-131 | a successful item extends the result and the log by one item |
| LinksService.BatchStep | internal/service/links_service.go:87-122 | one item, with its call-log facts stated for the whole log, its response tied to its Create answer, and a panic reported as the nil-pointer panic |
| LinksService.Recommit | internal/service/links_service.go:124-130 | commit, then ask for a new transaction; no link is created |
| LinksService.BatchIteration | internal/service/links_service.go:86-131 | one iteration keeps the loop state and the responses' ties to their Create answers, or stops with an error after committing when in a transaction; after a panic nothing has been committed |
| LinksService.BatchAdvance | internal/service/links_service.go:122-130 | a successful item's response is appended and the loop state kept; the in-loop commit and new transaction come only with transactions, and a failure to begin stops after them |
| LinksService.BatchLoop | internal/service/links_service.go:86-131 | on success: one response per item, in order, each echoing its correlation ID and carrying the short URL of the link its own Create returned (the Creates in item order, one per item), the links created for exactly the items' URLs in order; without transactions no commit; a failure with transactions ends with a commit, except a panic, after which nothing was committed |
| LinksService.BatchItemLoop | internal/service/links_service.go:86-131 | the `for` loop runs until an item stops it or every item is done; when done, every item has a response tied to its own Create call, in item order, and the loop state holds; after the shortcut panic nothing was committed; any other stop in a transaction ends with a commit |
| LinksService.BatchLoopExit | internal/service/links_service.go:131-135 | when every item is done, the results and the log are complete |
| LinksService.CommittedBatch | internal/service/links_service.go:86-138 | success: one response per item with its correlation ID and the short URL from its own Create, Creates in item order, the links created for exactly the items' URLs; in a transaction a successful batch ends with commit, new transaction, commit and has no earlier commit; a panic leaves nothing committed |
| LinksService.BulkCreateWithCorrelationID | internal/service/links_service.go:66-138 | auth error: returned, no calls; any error: no results; success: one response per input in order with its correlation ID and the short URL of the link its item's own Create returned, those Creates in item order; without transactions no commit; with them, for a non-empty batch, two commits, both after the last item; a failure in a transaction ends with a commit unless it is the shortcut panic, after which nothing is committed |
| LegacyLinksService.GetFullURLFromShort | internal/service/linksService.go:20-26 | no link → "specified link not found"; a link → its URL with the repository's error |
| LegacyLinksService.GetFullURLAgreesWithCurrentService | internal/service/linksService.go:20-26 | for repositories that return a link iff no error, the same as the current service except that the error is the fixed "not found" one |
| LegacyLinksService.TriedShape | internal/service/linksService.go:59-70 | every generated shortcut has the configured length and only ASCII letters |
| LegacyLinksService.SearchContinues | internal/service/linksService.go:39-42 | a lookup without error generates a new shortcut and continues |
| LegacyLinksService.SearchStops | internal/service/linksService.go:39-44 | a failing lookup ends the search at that shortcut |
| LegacyLinksService.SearchStep | internal/service/linksService.go:38-45 | one pass: one lookup, and the loop continues iff it returned no error |
| LegacyLinksService.CreateLink | internal/service/linksService.go:28-48 | invalid URL: error, no repository call; otherwise an empty shortcut is first generated, lookups run until one fails, and Create is called once with that final shortcut, which is also written into the caller's link |
| LegacyLinksService.FindShortcut | internal/service/linksService.go:37-45 | the loop ends at the first failing lookup, with no attempt bound |
| LegacyLinksService.BuildShortURL | internal/service/linksService.go:50-57 | the shortcut joined onto the configured prefix, else onto `http://<host>/` |
| LegacyLinksService.SameAsCurrentService | internal/service/linksService.go:50-83 | URL validation and short-URL building agree with the current service |
| GoStrconv.Digits | internal/config/config.go:230 | the decimal spelling of a number is a non-empty digit string |
| GoStrconv.DigitsValueOfDigits | internal/config/config.go:230 | the digits read back as the number |
| GoStrconv.Itoa | internal/config/config.go:230 | a minus sign for negative numbers, then the digits of the magnitude |
| GoStrconv.ScanDigitsSpec | internal/config/config.go:237 | the digit scan succeeds exactly on digit strings within the uint64 range, with their value |
| GoStrconv.Atoi | internal/config/config.go:237 | the result is within int64; a syntax error yields 0 and a range error the nearest bound |
| GoStrconv.AtoiSpec | internal/config/config.go:237-241 | no error iff the text is a decimal int64, and then its value |
| GoStrconv.AtoiItoa | internal/config/config.go:230-237 | Atoi reads back what Itoa writes, for every int64 |
| Config.Resolve | internal/config/config.go:213-225 | a non-empty environment value wins, else the default if any; empty iff neither gives a value |
| Config.FlagOrDefault | internal/config/config.go:110-114 | a non-empty flag, else the built-in default |
| Config.MissingErrors | internal/config/config.go:220-222 | exactly one error iff the settled value is empty |
| Config.IntErrors | internal/config/config.go:233-241 | no error iff the setting is a decimal int64 |
| Config.DefaultedNeverMissing | internal/config/config.go:213-225 | a non-empty default never leads to a "not specified" error |
| Config.IntDefaultApplies | internal/config/config.go:229-244 | an unset integer variable takes its default without error |
| Config.AppConfigBuilder.constructor | internal/config/config.go:101-105 | an empty configuration and no errors |
| Config.AppConfigBuilder.LoadStringVariableFromEnv | internal/config/config.go:213-225 | the value is `Resolve(env value, default)`, and one "not specified" error is appended iff it is empty |
| Config.AppConfigBuilder.LoadIntVariableFromEnv | internal/config/config.go:229-244 | resolves against the spelled-out default; 0 when empty; otherwise Atoi's value, with a conversion error appended when Atoi fails |
| Config.AppConfigBuilder.WithStartupAddress | internal/config/config.go:109-119 | SERVER_ADDRESS, else a non-empty -a flag, else localhost:8080; only that field changes |
| Config.AppConfigBuilder.WithDatabaseDSN | internal/config/config.go:123-132 | DATABASE_CONN_STRING, else a non-empty -d flag, else "" with a "not specified" error |
| Config.AppConfigBuilder.WithStoragePath | internal/config/config.go:136-146 | FILE_STORAGE_PATH, else a non-empty -f flag, else storage.json |
| Config.AppConfigBuilder.WithTokenLifeTime | internal/config/config.go:150-156 | AUTH_TOKEN_LIFE_TIME_HOURS as an integer, else 24 |
| Config.AppConfigBuilder.WithTokenSecretKey | internal/config/config.go:160-164 | AUTH_TOKEN_SECRET_KEY, else the built-in key |
| Config.AppConfigBuilder.WithBaseURL | internal/config/config.go:167-170 | BASE_URL, else the -b flag; an error when neither gives a non-empty value |
| Config.AppConfigBuilder.WithShortLinksLength | internal/config/config.go:174-177 | SHORT_LINKS_LENGTH as an integer, else 8 |
| Config.AppConfigBuilder.WithLoggingLevel | internal/config/config.go:181-184 | LOGGING_LEVEL, else info |
| Config.AppConfigBuilder.WithAuditFile | internal/config/config.go:187-193 | the flag is copied when set; never an error |
| Config.AppConfigBuilder.WithAuditURL | internal/config/config.go:196-202 | the flag is copied when set; never an error |
| Config.AppConfigBuilder.Build | internal/config/config.go:206-208 | the configuration, and a nil error iff no errors were recorded, else their join |
| Config.DSNFlag | internal/config/config.go:124-128 | the -d flag when it is set, else "" |
| Config.GetConfig | internal/config/config.go:263-276 | every field follows env > flag > default, and the error is nil iff no step recorded one |
| Config.DefaultsOnEmptyEnvironment | internal/config/config.go:91-98 | with no environment and no flags: storage.json, localhost:8080, length 8, info, 24 hours, and errors for exactly BASE_URL and the DSN |
| Config.NonNumericLengthReported | internal/config/config.go:229-244 | a non-numeric SHORT_LINKS_LENGTH is reported as a conversion error |
| ResetGenerator.GetBaseType | cmd/reset/main.go:221-226 | every pointer layer is removed, and a non-pointer is returned as is |
| ResetGenerator.TypeStringOfPointers | cmd/reset/main.go:229-247 | a type's string is one star per pointer layer in front of its base type's string |
| ResetGenerator.TrimStar | cmd/reset/main.go:357 | at most one leading star is removed |
| ResetGenerator.PointeeTypeString | cmd/reset/main.go:233-234 | trimming a pointer type's star gives the pointee's string |
| ResetGenerator.StructTypeThroughPointers | cmd/reset/main.go:271-292 | pointers make no difference to isStructType |
| ResetGenerator.ZeroValueAgreesWithStructCheck | cmd/reset/main.go:471-496 | for a type name, getZeroValue gives a composite literal iff isStructType counts the name as a struct |
| ResetGenerator.InfosOf | cmd/reset/main.go:205-214 | one description per declared name, in order, or one unnamed description for an embedded field |
| ResetGenerator.AnonymousFieldsOfBase | cmd/reset/main.go:185-193 | the nested fields are extracted from the base type behind the pointers |
| ResetGenerator.FieldsOfConsistent | cmd/reset/main.go:178-218 | every description, at any depth, has flags consistent with its type |
| ResetGenerator.ExtractFields | cmd/reset/main.go:178-218 | the loop produces `FieldsOf(fields)` |
| ResetGenerator.ExpandNames | cmd/reset/main.go:206-214 | the inner loop produces `InfosOf(field)` |
| ResetGenerator.Builder.constructor | cmd/reset/main.go:300 | an empty builder |
| ResetGenerator.Builder.WriteString | cmd/reset/main.go:304 | the text is appended |
| ResetGenerator.UnnamedFieldsSkipped | cmd/reset/main.go:402-405 | an unnamed field adds nothing |
| ResetGenerator.TopFieldIsNested | cmd/reset/main.go:326-393 | generateResetMethod's loop writes for a field what generateResetForFields writes for prefix `rs` at one tab |
| ResetGenerator.TopPointeeIsNested | cmd/reset/main.go:346-360 | inside a pointer's nil check the two generators also agree |
| ResetGenerator.TopFieldsAreNested | cmd/reset/main.go:326-393 | the whole field loop of a method equals generateResetForFields for `rs` at one tab |
| ResetGenerator.ResetMethodShape | cmd/reset/main.go:318-397 | a method opens with the receiver and the nil guard, resets the fields, and closes with `}\n` |
| ResetGenerator.FieldsResetStep | cmd/reset/main.go:401-467 | each field adds its own statements, and an unnamed field adds nothing |
| ResetGenerator.GenerateResetForFields | cmd/reset/main.go:400-468 | appends `FieldsReset(fields, prefix, indent)` |
| ResetGenerator.GenerateFieldReset | cmd/reset/main.go:402-466 | one field: slice `[:0]`, map `clear`, nested struct, Reset-or-zero call, or `= <zero>`, with nil checks for pointers |
| ResetGenerator.GeneratePointeeReset | cmd/reset/main.go:421-442 | the statements inside a pointer field's nil check |
| ResetGenerator.GenerateResetterCall | cmd/reset/main.go:429-433 | the Reset-or-zero statement for a named struct |
| ResetGenerator.GenerateResetMethod | cmd/reset/main.go:318-397 | the method's text is `ResetMethodText(s)` |
| ResetGenerator.GenerateMethodHeader | cmd/reset/main.go:321-324 | the receiver line and the nil guard |
| ResetGenerator.GenerateTopFieldsReset | cmd/reset/main.go:326-393 | the loop appends what generateResetForFields writes for `rs` at one tab |
| ResetGenerator.GenerateTopFieldReset | cmd/reset/main.go:327-392 | one pass of the method's own loop |
| ResetGenerator.WriteTopFieldReset | cmd/reset/main.go:332-392 | the literal writes of one pass |
| ResetGenerator.GenerateTopPointeeReset | cmd/reset/main.go:334-368 | the writes inside a pointer field's nil check |
| ResetGenerator.FileHeader | cmd/reset/main.go:304-306 | the generated-code marker, the go:generate line and the package clause |
| ResetGenerator.BlocksAppend | cmd/reset/main.go:309-312 | the blocks of two lists are laid out one after the other |
| ResetGenerator.BlocksAround | cmd/reset/main.go:309-312 | each struct's method sits between those of the structs before and after it |
| ResetGenerator.ResetFileLayout | cmd/reset/main.go:295-315 | the file is the header with the first struct's package, then each method followed by an empty line, in order |
| ResetGenerator.GenerateResetMethods | cmd/reset/main.go:295-315 | the text is `ResetFileText(structs)`; empty iff there are no structs |
| ResetGenerator.GenerateFileHeader | cmd/reset/main.go:304-306 | appends the header |
| ResetGenerator.GenerateMethods | cmd/reset/main.go:309-312 | appends each method and an empty line, in order |
| NoExitLinter.InnermostFuncDecl | cmd/linter/linter.go:43-49 | the position of the innermost function declaration on the stack; none above it, or none at all |
| NoExitLinter.FindInMainFunc | cmd/linter/linter.go:41-51 | inside main iff in package main and the innermost declaration is named main |
| NoExitLinter.PanicAlwaysReported | cmd/linter/linter.go:54-57 | a call of `panic` is reported as "usage of panic is not allowed" anywhere |
| NoExitLinter.ExitCallRule | cmd/linter/linter.go:69-82 | log.Fatal and os.Exit are reported iff not directly inside main of package main, naming package and function |
| NoExitLinter.OnlyPanicAndExitReported | cmd/linter/linter.go:59-84 | nothing else is reported, log.Fatalf and unresolved selectors included |
| NoExitLinter.InnermostDeclarationDecides | cmd/linter/linter.go:43-49 | only the innermost declaration counts |
| NoExitLinter.Pass.constructor | cmd/linter/linter.go:27 | no diagnostics yet |
| NoExitLinter.Pass.Reportf | cmd/linter/linter.go:55 | one diagnostic appended |
| NoExitLinter.Inspect | cmd/linter/linter.go:29-87 | the callback reports `Report(...)` on push, nothing on pop, and always continues |
| NoExitLinter.Run | cmd/linter/linter.go:19-90 | the diagnostics are those of each callback, in order |
| NoExitLinter.MainPackageExample | cmd/linter/testdata/src/noexit/linter_test_main_pkg.go:8-18 | in main only the panic is reported; in helper all three calls are |
| NoExitLinter.MainFunctionExample | cmd/linter/testdata/src/noexit/linter_test_main_pkg.go:8-12 | log.Fatal and os.Exit pass in main; panic is reported |
| NoExitLinter.HelperFunctionExample | cmd/linter/testdata/src/noexit/linter_test_main_pkg.go:14-18 | all three calls are reported |
| NoExitLinter.OtherPackageExample | cmd/linter/testdata/src/noexit_utils/linter_test_not_main_pkg.go:8-12 | all three calls are reported |
| NoExitLinter.PushPopReports | cmd/linter/linter.go:29-32 | a call is reported on push and not again on pop |
| NoExitLinter.ReportsAppend | cmd/linter/linter.go:29-87 | the reports of a walk split along the walk |

## Left out

- HTTP handlers, middleware, auth, audit, process startup and load scripts. They are routing,
  library calls and I/O around the core. The owner ID from auth is an input.
- LinksService.GetUserLinks: it only forwards to the repository's `GetByUserID`, which is
  modelled for the in-memory store.
- PostgreSQL `GetByUserID`, `getAll`, `SaveInStorage` and `GetTransactionExecuter`. They
  iterate SQL result sets and write files. Only the table-level logic of `Create`,
  `GetByShortcut`, `QueryRowContextWithRetry` and `LoadStoredData` is modelled.
- Locking: the `sync.RWMutex` of both in-memory stores and the pool mutex. The model is
  sequential, so it does not capture the in-memory `DeleteUserLinks` returning with the read
  lock held, or its write under a read lock.
- Context timeouts, logging, and the `fmt.Printf` in the retry helper.
- Opening, truncating and closing files, and JSON encoding and decoding. The open error, the
  decoded list or decode error, and the encode error are inputs. What the encoder writes is
  the list handed to it.
- Go map iteration order is an arbitrary enumeration of the keys, passed in as `order`.
- `math/rand` is a drawing function. The older service's `rand.NewSource(time.Now()…)` has
  no effect and is not modelled.
- `url.ParseRequestURI` and `url.JoinPath` are uninterpreted functions.
- LegacyLinksService.CreateLink: requires that some lookup eventually fails. The source loops
  forever otherwise, and that non-terminating run is not modelled.
- LegacyLinksService.FindShortcut: the same requirement as CreateLink.
- PostgresRepository.LookupShortcut and every member over the table require unique
  shortcuts. The UNIQUE constraint comes from the migrations, which are not part of this
  model. Without it, `QueryRow` would pick an arbitrary matching row.
- PostgresRepository.Execute: a statement error is the unique violation only. Other SQL
  failures, and the value `row.Err()` reports, are transport faults given per attempt.
- PostgresRepository.PostgreSQLLinksRepository.GetByShortcut: the query's failure is an
  input `fault`. In the restore loop these lookup faults are given per record.
- PostgresRepository.PostgreSQLLinksRepository.LoadStoredData: the rollback is modelled as
  discarding the transaction, and the result of `res.Scan` in the loop is not used.
- ObjectPool.Pool.Put: the item is a value. When `T` is a pointer type, Go's `Reset` also
  clears the caller's object, which stays aliased with the pooled one. That aliasing is not
  captured.
- LegacyLinkRepository.LinkRepository.Create: the store keeps the caller's `*model.Link`
  pointer, so later changes the caller makes to that link show through the store. The model
  stores a copy and does not capture this aliasing.
- InMemoryRepository.InMemoryLinkRepository.Create: the returned `*model.Link` is the very
  record stored in both maps. The model stores and returns values, so that sharing between
  the two maps and the caller is not captured.
- Config.Quote: escapes only backslashes and double quotes, as for printable ASCII. Go's
  escaping of other characters is not modelled.
- GoStrconv.Atoi: modelled through ParseInt's general path (sign, digit scan, range clamp).
  Go's fast path for short inputs gives the same results and is not modelled separately.
- Config.GetConfig: the configuration is a value rather than a shared pointer, and
  `CreateFLagsInitialConfig` (flag registration) is an input of optional strings.
- ResetGenerator: the file walk, the Go parser, the grouping of structs by package, the
  `go:generate` comment scan, `format.Source` and writing files. Only what happens after the
  AST becomes a `FieldInfo` list is modelled.
- ResetGenerator.GetZeroValue, ResetGenerator.GetTypeString, ResetGenerator.IsSliceType
  and ResetGenerator.IsPointerType: these are definitions without contracts of their own.
  Their partners are ZeroValueAgreesWithStructCheck, TypeStringOfPointers, PointeeTypeString
  and FieldsOfConsistent.
- ResetGenerator.IsStructType: a definition without a contract of its own (after removing
  pointers, a struct literal or an identifier that is not a predeclared type name). Its partners are
  StructTypeThroughPointers and ZeroValueAgreesWithStructCheck.
- ResetGenerator.IsMapType: a definition without a contract of its own. Its partner is
  FieldsOfConsistent: no field is both a map and a slice or a struct.
- NoExitLinter.Report: the decision for one visited call, a definition without a contract of
  its own. Its partners are PanicAlwaysReported, ExitCallRule and OnlyPanicAndExitReported.
- NoExitLinter: the analysis framework, the inspector's node filter and type information
  are inputs. Positions are natural numbers, and a callee's resolved object is an optional
  (package path, name) pair.
- LinksService.IsValidURL: a definition (the URL parses and has a scheme and a host). Its
  partner is the URL gate stated in CreateLink, BatchItemSuccess and SameAsCurrentService.
- LinksService.BuildShortURL: a definition (url.JoinPath of ShortURLPrefix and the
  shortcut). Its partners are BatchItemShortURL, which ties each batch response to it, and
  SameAsCurrentService.
- LegacyLinksService.IsValidURL: a definition, the same test as LinksService.IsValidURL. Its
  partners are the URL gate stated in the older CreateLink and SameAsCurrentService.
- Shortcuts.GenerateShortcut: the length is a `nat`, and so are the services' configured
  lengths (LinksService.Service, LegacyLinksService.LegacyService). A negative
  SHORT_LINKS_LENGTH passes the configuration, since Config.GetConfig reports no error for
  it, and Go's `make([]rune, length)` then panics on every generated shortcut
  (internal/service/links_service.go:165, internal/service/linksService.go:64). That panic is
  not modelled: CreateUniqueShortcut, CreateLink, BulkCreateWithCorrelationID and the older
  CreateLink and FindShortcut cover only non-negative lengths.
