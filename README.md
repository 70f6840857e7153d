# ORM comparison benchmark: a verified model of its deterministic core

The repository benchmarks nine JavaScript ORMs (plus a raw-SQL backend) behind
one article API. Two scripts drive it:

- The select benchmark seeds a fixed dataset, checks that every ORM answers one
  list request identically, then times repeated requests.
- The insert benchmark seeds one user, then times 1000 article creations per ORM.

This project models the parts of that code that do not depend on timing or on
a live database:

- **Fixture and workload generators.** These are the select benchmark's
  `prepareDb` rows and the insert benchmark's tags, payloads, token and
  `results` map. They are modelled as pure functions of the loop indices, with
  lemmas for their id ranges, foreign keys, distinctness and counts.
- **Drivers.** These are `verifyResponses`, the insert benchmark's
  `measureORMs` loops, and both scripts' top-level `try`/`finally` phase
  sequences. They are modelled as methods over an environment that says which
  I/O step succeeds. The phases attempted are returned as a trace.
- **Raw-SQL article repository.** `listArticles` builds its query text
  imperatively, and the model proves that the text parses back to the truthy
  `limit`/`offset`. `createArticle` serialises two VALUES lists, proved to
  round-trip, and runs a BEGIN … COMMIT statement protocol with ROLLBACK sent
  via the pool. The stub operations always throw.
- **Connection lifecycle.**
  - `sqlRaw.close` keeps a `poolEnded` flag.
  - Drizzle's `getDb`/`closeDb` create the pool lazily and reset it.
  - Both are classes whose fields play the role of the module-level variables.
  - The `pg` pool is a class with a configuration and an `end` that may fail.

Modules:

| module | what it models |
|---|---|
| Outcomes | Option and Result datatypes |
| Text | decimal rendering of template-literal numbers, its parser, and `Array.join` |
| Arith and Seqs | division and flattening facts, used by the fixture lemmas |
| Registry | the ORM names |
| Harness | tables and foreign keys, run phases, and the shared final cleanup |
| SelectFixture | the select benchmark's seed data |
| SelectBenchmark | the select benchmark's driver |
| InsertBenchmark | the insert benchmark's workload and driver |
| SqlArticleRepo | the raw-SQL article repository |
| PgPool | the `pg` pool |
| SqlRaw | the raw-SQL backend's module state |
| DrizzleDb | the drizzle backend's module state |

Two behaviours of the code are modelled as written and stated in contracts:

- `listArticles` has no `try`/`finally`, so a failing query leaves the client
  checked out.
- When drizzle's constructor throws inside `getDb`, the new pool is kept. Every
  later `getDb` then returns the unassigned `db` without retrying.

The benchmarks' final `clearDb`, `db.end()` and `process.exit()` sit in one
`finally` block. A throw from the final `clearDb` skips the last two, and a
throw from `db.end()` skips the exit. So "cleanup always runs" holds only
while those steps succeed. The model follows the code here, and
`Harness.RunCleanup` states exactly which steps run.

## Model

| member | source | states |
|---|---|---|
| SelectFixture.TagRowsSequential | src/benchmarks/select.benchmark.ts:73-78 | 30 tag rows; row k has id k+1 and label `tag-(k+1)`; labels are pairwise distinct; the id set is exactly 1..30 |
| SelectFixture.UserRowsSequential | src/benchmarks/select.benchmark.ts:87-94 | 10 user rows; row k has id k+1, `username-(k+1)`, `email-(k+1)@mail.com` and password `password`; usernames and emails are distinct; the id set is exactly 1..10 |
| SelectFixture.ArticleRowsSequential | src/benchmarks/select.benchmark.ts:103-115 | 10000 article rows with id k+1, author `k % 10 + 1` (a seeded user), slug/title/description/body numbered by the id, stored favourite count 5, both timestamps `now`; slugs are distinct; the id set is 1..10000 |
| SelectFixture.ArticleTagRowsAt | src/benchmarks/select.benchmark.ts:124-132 | the flattened articleTag row at position k has id k+1, article `k/5+1` and tag `((k/5+1 + k%5) % 30) + 1` |
| SelectFixture.ArticleTagIdsSequential | src/benchmarks/select.benchmark.ts:128 | articleTag ids `i*5+n+1` are the positions plus one, so they are distinct and cover exactly 1..50000 |
| SelectFixture.ArticleTagForeignKeys | src/benchmarks/select.benchmark.ts:126-130 | every articleTag row references a seeded article and a seeded tag |
| SelectFixture.ArticleTagsDistinctPerArticle | src/benchmarks/select.benchmark.ts:125-130 | the 5 tag ids of one article are pairwise distinct |
| SelectFixture.FavoriteRowsAt | src/benchmarks/select.benchmark.ts:141-149 | the flattened favourite row at position k has id k+1, article `k/3+1` and user `((k/3+1 + k%3) % 10) + 1` |
| SelectFixture.FavoriteIdsSequential | src/benchmarks/select.benchmark.ts:145 | favourite ids are distinct and cover exactly 1..30000 |
| SelectFixture.FavoriteForeignKeys | src/benchmarks/select.benchmark.ts:143-147 | every favourite row references a seeded article and a seeded user |
| SelectFixture.FavoriteUsersDistinctPerArticle | src/benchmarks/select.benchmark.ts:142-147 | the 3 users favouring one article are pairwise distinct |
| SelectFixture.StoredFavoritesCountIsWrong | src/benchmarks/select.benchmark.ts:101-154 | every article is referenced by exactly 3 favourite rows, while its stored `favoritesCount` is 5 |
| SelectFixture.PrepareDbFollowsSeedOrder | src/benchmarks/select.benchmark.ts:71-154 | `prepareDb` inserts tag, user, article, articleTag, userArticleFavorite, in that order |
| SelectFixture.SeedOrderRespectsForeignKeys | src/benchmarks/select.benchmark.ts:71-154 | in that insertion order every referenced table precedes each table that references it |
| SelectFixture.ClearOrderRespectsForeignKeys | src/benchmarks/select.benchmark.ts:25 | the clear list names each table once, and each table comes after every table that references it |
| SelectBenchmark.VerifyResponses | src/benchmarks/select.benchmark.ts:157-172 | the first ORM is the oracle; the others are requested in registry order and stop at the first mismatch; it reports "all agree" exactly when every response equals the oracle's; a mismatch is returned, not thrown, and names the last ORM asked; only a fetch that throws propagates; the verdict is `VerdictOf`, decided by the first registry position that does not answer like the oracle |
| SelectBenchmark.RunOrmPhases | src/benchmarks/select.benchmark.ts:40-50 | connect, then verify only if connect succeeded, then measure only if verify returned; disconnect comes last in every case; the verdict is the one the responses call for, so measuring happens exactly when connect succeeds and no fetch throws before the first mismatch |
| SelectBenchmark.RunBody | src/benchmarks/select.benchmark.ts:35-50 | the seed runs only after the initial clear succeeds; the ORM phases run only after seeding succeeds; disconnect happens exactly when the ORM phases were entered; measuring happens exactly when every earlier phase succeeded and the responses' verdict is not a throw |
| SelectBenchmark.RunSelect | src/benchmarks/select.benchmark.ts:27-61 | the whole run as a phase trace in strict phase order; for each phase, the exact condition under which it is attempted, in terms of the phases' success and the responses' verdict; the initial and final clears run whenever the database connected; exit is reached exactly when the final clear and `db.end` succeed |
| Harness.RunCleanup | src/benchmarks/select.benchmark.ts:53-60 | the shared `finally`: the final clear always runs, `db.end` only after it succeeds, and exit only after both succeed; the trace stays in phase order |
| InsertBenchmark.TagsAreLabels | src/benchmarks/insert.benchmark.ts:23 | `tags` is exactly `tag-1` … `tag-30` in order; these are the select fixture's labels, pairwise distinct |
| InsertBenchmark.ArticleTagsDistinct | src/benchmarks/insert.benchmark.ts:87-89 | article i's tag list has 5 entries; entry n is `tags[(i+n) % 30]`; each is a member of `tags`; they are pairwise distinct |
| InsertBenchmark.PayloadsDistinct | src/benchmarks/insert.benchmark.ts:91-96 | the payload of article i has title `title i`, description `description i` and body `body i`; titles of different articles differ |
| InsertBenchmark.TokenNamesSeededUser | src/benchmarks/insert.benchmark.ts:49-67 | exactly one user is seeded, and the token carries that user's id and email |
| InsertBenchmark.InitialResultsCoverEveryOrm | src/benchmarks/insert.benchmark.ts:68-78 | `results` starts with exactly one key per ORM name, each mapped to an empty list |
| InsertBenchmark.MeasurePlanShape | src/benchmarks/insert.benchmark.ts:80-99 | each ORM's block is one clear of articleTag, tag and article (a safe delete order), then 1000 posts; post i carries the token and payload i |
| InsertBenchmark.MeasureOrm | src/benchmarks/insert.benchmark.ts:81-99 | one ORM's actions are a prefix of its block that stops at the first failure; when nothing fails it issues the whole block and yields one timing per request, in request order |
| InsertBenchmark.MeasureOrms | src/benchmarks/insert.benchmark.ts:80-104 | the actions are a prefix of the whole plan that stops at the first failure; when nothing fails, `results` has exactly the ORM keys, and each listed ORM holds its 1000 timings while every other ORM holds `[]` |
| InsertBenchmark.ClearListsRespectForeignKeys | src/benchmarks/insert.benchmark.ts:31-46 | the initial clear touches only `user`, which is not a safe delete order when articles remain from an earlier run; the final clear order deletes every referencing table before the tables it references |
| InsertBenchmark.RunOrmPhases | src/benchmarks/insert.benchmark.ts:34-39 | measurement runs only after connect succeeds; disconnect comes last in every case; nothing is issued unless measurement ran, and then the actions are the measurement plan up to its first failing step, or all of it |
| InsertBenchmark.RunBody | src/benchmarks/insert.benchmark.ts:31-39 | the seed runs only after the initial clear; the ORM phases run only after seeding; disconnect happens exactly when they were entered; a measurement issues the plan up to its first failing step |
| InsertBenchmark.RunInsert | src/benchmarks/insert.benchmark.ts:25-47 | the whole run as an ordered phase trace, with the exact condition for each phase; the initial and final clears run whenever the database connected; the actions are the measurement plan up to its first failing step; exit happens exactly when the final clear and `db.end` succeed |
| SqlArticleRepo.BuildListQuery | src/orms/sql/article/artice.repo.ts:10-17 | the query built by `+=` is the base select, then the limit clause, then the offset clause |
| SqlArticleRepo.ListQueryRoundTrip | src/orms/sql/article/artice.repo.ts:10-17 | the list query parses back to exactly the truthy limit and offset; LIMIT appears only for a truthy limit, OFFSET only for a truthy offset, and LIMIT comes first |
| SqlArticleRepo.ListQueryDistinguishes | src/orms/sql/article/artice.repo.ts:12-16 | two requests produce the same query if and only if their truthy limits and offsets agree, so a 0 and an absent value are the same |
| SqlArticleRepo.ListArticles | src/orms/sql/article/artice.repo.ts:8-31 | sends the list query, then the constant count query; the result holds every returned article row and the count result's first row; it succeeds exactly when both queries do, and otherwise stops at the failing query, sending nothing after it; the client is released only on success |
| SqlArticleRepo.TagValuesRoundTrip | src/orms/sql/article/artice.repo.ts:56 | a quote-free tag list is read back from its `('tag')` VALUES text exactly, in order |
| SqlArticleRepo.TagValuesUnescaped | src/orms/sql/article/artice.repo.ts:56 | tags are not escaped: one tag containing `'),('` serialises exactly like two tags |
| SqlArticleRepo.TagValuesSeparators | src/orms/sql/article/artice.repo.ts:56 | n comma-free tags give exactly n - 1 commas |
| SqlArticleRepo.ArticleTagValuesRoundTrip | src/orms/sql/article/artice.repo.ts:63-68 | the articleTag VALUES text parses back to one `(articleId, tagId)` pair per returned tag id, in row order, all with the same article id |
| SqlArticleRepo.RunTransaction | src/orms/sql/article/artice.repo.ts:48-81 | statements go in the order BEGIN, article insert with the current user as author, tag upsert of the tag list, links to the returned tag ids, COMMIT, select by the new id; it stops at the first failure or a missing article row, which throws right after the upsert when tag ids came back and after COMMIT when none did; it succeeds with the selected first row exactly when all six statements succeed |
| SqlArticleRepo.CreateArticle | src/orms/sql/article/artice.repo.ts:39-88 | a connect failure sends nothing; otherwise the client statements follow that protocol and stop at the first failing statement or the missing-row point; on any error ROLLBACK goes to the pool and the original error is rethrown, unless ROLLBACK itself fails, in which case its error is thrown; release is the last event on every connected path |
| SqlArticleRepo.FailedTransactionStaysOpen | src/orms/sql/article/artice.repo.ts:74-84 | a transaction that stops before COMMIT sends neither COMMIT nor ROLLBACK on its client |
| SqlArticleRepo.CallStub | src/orms/sql/article/artice.repo.ts:32-120 | each of `getArticleBySlug` (line 37), `updateArticleBySlug` (98), `deleteArticleBySlug` (105), `markAsFavoriteBySlug` (112) and `unmarkAsFavoriteBySlug` (119) throws `Function not implemented.` for every argument, without checking out a client, so nothing happens on the pool |
| SqlRaw.SqlRawModule.constructor | src/orms/sql/sql.ts:6-12 | module load creates one pool of at most 10 and at least 0 clients, and `poolEnded` is false |
| SqlRaw.SqlRawModule.Initialize | src/orms/sql/sql.ts:15-17 | `initialize` changes no state |
| SqlRaw.SqlRawModule.Close | src/orms/sql/sql.ts:18-23 | once `poolEnded` is set, `close` calls no `end` and the flag stays set; otherwise it calls `end` once and sets the flag exactly when `end` succeeds, so a failing `end` leaves it false |
| DrizzleDb.DrizzleDbModule.GetDb | src/orms/drizzle/db.ts:8-25 | with no pool it creates a fresh one (max 10, min 0, 5000 ms timeout) and a drizzle instance over it, and returns that; if drizzle throws, the error propagates and the pool is kept; with a pool it creates nothing and returns the current `db` |
| DrizzleDb.DrizzleDbModule.CloseDb | src/orms/drizzle/db.ts:27-36 | with a pool it calls `end` exactly once, swallows a failure and leaves `pool` null, so the next `getDb` creates a fresh pool; with no pool it does nothing |
| DrizzleDb.DrizzleDbModule.constructor | src/orms/drizzle/db.ts:38-44 | module load calls `getDb` once and swallows its error: a configured pool exists afterwards, and `db` is set exactly when drizzle did not throw |

## Left out

- Timing and statistics are left out: floating-point wall-clock values and a foreign library.
  - This covers `getMs`, `formatMs`, the console output, and the `mean`/`std`/`median` summary of the insert benchmark (src/benchmarks/insert.benchmark.ts:101-118).
  - It also covers the select benchmark's `measureORMs` with `requestsPerORM` (src/benchmarks/select.benchmark.ts:174-186).
  - The insert benchmark's per-request durations are an input function `elapsed`.
- HTTP dispatch is an input function that yields the parsed body, or nothing when it throws. This covers `app.inject`, `JSON.parse` and the request built by `performRequest`. The request's parameters (`limit` and `offset` of 1000) are not modelled; every ORM receives the same request.
- Imported helpers are abstract phases that succeed or fail: `clearDb`, `connectAllORMs`, `disconnectAllORMs`, `ormNames` and the `create` helper. The modules that define them are not part of this model.
  - `ormNames` is a parameter.
  - The rows `create` receives are modelled exactly.
- SelectBenchmark.VerifyResponses: requires a non-empty ORM name list. The list comes from a module that is not part of this model, and the registry it mirrors lists nine ORMs.
- `createToken` (JWT signing) is left out. The token is modelled by the claims it signs.
- `new Date()` is a parameter `now`.
- Concurrency is not modelled. An `await` is a sequential step.
- The `pg` client and pool are abstract.
  - Statement execution is an input function that returns rows or fails.
  - `pool.connect` and `pool.end` are inputs that succeed or fail.
  - Calling `end` twice on the real pool throws; the model only counts the calls.
- SqlArticleRepo.ListArticles: `limit` and `offset` are integers or absent. Strings, fractions and `NaN`, which the template literal would also render, are not modelled. The unused `currentUser` argument is dropped.
- SqlArticleRepo.CreateArticle: the SQL text of the parameterised statements and their whitespace is represented by statement constructors that carry the parameters and the VALUES texts. The `meta` argument is dropped.
- `console.error` logging is left out wherever an error is logged and swallowed.
- The drizzle repositories, the raw-SQL user repository, the schema (`*.modal.ts`) files and the registry wiring are plain delegation to libraries that are not part of this model.
