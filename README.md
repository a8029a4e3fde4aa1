# Tryout scoring and ranking, modelled in Dafny

This project models the two state-changing endpoints of the tryout results
service (`index.js`):

- **Answer ingestion** (`POST /simpan-jawaban-user/:id_tryout`). The handler
  reads every stored per-subject answer blob of a tryout from
  `jawaban_user_tryout_v2` and decodes each one. A blob that does not parse,
  or does not parse to an array, is skipped. The remaining arrays are
  flattened in row order. `"` is stripped from `status`, `jawaban` and
  `peminatan`, and one `jawaban_user_tryout` row per entry is bulk-inserted.
  The handler answers 404 when there are no stored rows and 400 when there
  are no entries, and writes nothing in either case. A rejected statement
  answers 500.
- **Score and rank** (`POST /process-tryout/:idTryout`). This is one
  transaction. It deletes the tryout's rows in `rank_tryout_2025` and
  inserts freshly computed ones:
  - the answers are inner-joined with `soal_tryout` and `users`;
  - they are grouped by (`id_user`, `username`, `peminatan`);
  - each group's total is `SUM(point*100 if status='benar')/7`;
  - rows are numbered by `ROW_NUMBER() OVER (ORDER BY total DESC)`;
  - the result is left-joined with `userdata`.

  The transaction then appends the tryout's answers and answer batches to
  the two review tables and commits. On any error it rolls back.

Modules:

- `Sql` (sql.dfy): column values (`Null | Num | Str`) and SQL `=`, under which NULL matches nothing.
- `Seqs` (seqs.dfy): order-preserving selection, used for `WHERE` and for `replace(/"/g, "")`.
- `Schema` (schema.dfy): the rows of every table touched, and the `WHERE id_tryout = ?` selections.
- `Ingestion` (ingestion.dfy): decoding, skipping and flattening. It includes the imperative `forEach` loop (`CollectAnswers`), quote stripping, row building and the handler's decision (`PlanIngest`).
- `Scoring` (scoring.dfy): the inner join, the grouping and the sum. The sum is also restated as a plain fold over the answer rows (`ReferenceSum`) and proved equal to the join.
- `Ranking` (ranking.dfy): the descending sort, the row numbering, the left join with `userdata`, and the rows inserted into `rank_tryout_2025` (`RankTryout`).
- `Store` (store.dfy): class `Database` holds the eight tables as sequence fields, with both handlers as methods. The committed state is the pure function `Processed`. A failure is a parameter naming the statement the store rejects (`SaveFault` for the ingestion handler, `Fault` for the transaction), and it leaves every table as it was.
- `Example` (example.dfy): a worked instance of the pipeline.

Each table is a sequence of rows. The model's ranking (`RankTryout`) breaks
ties by the order in which groups first appear. The query leaves that order
to the engine. `IsRowNumbering` describes every numbering the query may
return, and the following are proved for every such numbering:

- density of the ranks (`RowNumberingDense`, `LeftJoinDense`);
- their order (`RowNumberingOrdered`, `LeftJoinOrdered`);
- the groups (`LeftJoinGroups`);
- the totals (`LeftJoinTotals`);
- agreement between two numberings (`RowNumberingsAgree`).

The `RankTryout...` lemmas restate these for the model's own numbering.

Properties that depend on keys of the input tables take those keys as
`requires`:

- (`no_soal`, `id_mapel`, `id_tryout`) is a key of `soal_tryout`;
- `id` is a key of `users`;
- `id_user` is a key of `userdata`.

Without the last key the left join really does repeat a ranked row once per
`userdata` row, and the model does so too.

Behaviour of `index.js` worth noting:

- The review tables `jawaban_user_tryout_pembahasan` and
  `jawaban_user_tryout_pembahasan_v2` are appended to with no prior delete.
  A second run therefore copies the tryout's rows into them again
  (`Store.ProcessedTwice`). Only `rank_tryout_2025` is cleared first.
- The total is `SUM(point * 100) / 7`. The factor 100 is part of every total.
- `ROW_NUMBER() OVER (ORDER BY n.total DESC)` has no tie-break column, so
  the engine chooses the order among equal totals. A rerun may give tied
  groups each other's ranks. `Store.RerunNumberingsAgree` states what every
  run keeps.
- A ranked row without a `userdata` row gets NULL `instansi` and `provinsi`.
- Groups are (`id_user`, `username`, `peminatan`), so a user who answered
  under two `peminatan` values gets two rank rows.
- The inserted answer rows carry each entry's own `id_tryout`. It is copied
  unchanged and need not equal the route parameter.
- A SELECT or INSERT that the store rejects in the ingestion handler ends
  in the outer `catch` with 500, and nothing is written.

## Model

| member | source | states |
|---|---|---|
| `Schema.BatchesOf` | index.js:23-26 | `WHERE id_tryout = ?` on `jawaban_user_tryout_v2` (also the copy at index.js:154-156): the selected rows are exactly those whose `id_tryout` equals the parameter (NULL matches nothing), each as often as in the table |
| `Schema.AnswersOf` | index.js:143-145 | `WHERE id_tryout = ?` on `jawaban_user_tryout`: exactly the rows of that tryout, each as often as in the table |
| `Schema.RanksNotOf` | index.js:88-91 | what `DELETE ... WHERE id_tryout = ?` leaves: exactly the rows of other tryouts or with a NULL `id_tryout`, each as often as before (their order is kept, by `Store.ProcessedKeepsOtherRanks`) |
| `Ingestion.StripQuotes` | index.js:55-57 | the result has no `"`, is no longer than the input, and has every other character exactly as often as the input |
| `Ingestion.StripQuotesAppend` | index.js:55-57 | stripping a concatenation is the concatenation of the stripped parts, so the kept characters stay in their order |
| `Ingestion.StripQuotesFixed` | index.js:55-57 | stripping leaves a string unchanged if and only if it has no `"` |
| `Ingestion.StripQuotesIdempotent` | index.js:55-57 | stripping twice equals stripping once |
| `Ingestion.Sanitize` | index.js:55-57 | a missing value stays missing, a string comes back as a string without `"`, and the call throws exactly for a non-string value (it has no `replace`) |
| `Ingestion.SanitizeIdempotent` | index.js:55-57 | sanitising a sanitised value changes nothing |
| `Ingestion.BuildRow` | index.js:50-58 | building one element succeeds exactly when it is not `null` and none of its three text fields is a non-string; the row then has the four identifiers copied and each text field sanitised |
| `Ingestion.BuildRows` | index.js:50-58 | building succeeds exactly when every entry is a non-null element whose three text fields are strings or missing; then there is one row per entry, in order, with `id_user`, `id_tryout`, `id_mapel`, `no_soal` copied and the text fields sanitised |
| `Ingestion.Contributed` | index.js:35-42 | what one stored row adds: its array when it parses to one, otherwise nothing (stated over many rows by `Ingestion.SkipsUndecodable` and `Ingestion.FlattenArraysOnly`) |
| `Ingestion.Flatten` | index.js:33-43 | the concatenation in row order of what each row adds; `Ingestion.FlattenAppend`, `Ingestion.SkipsUndecodable`, `Ingestion.FlattenArraysOnly` and `Ingestion.FlattenMembers` characterise it, and `Ingestion.CollectAnswers` is proved equal to it |
| `Ingestion.FlattenAppend` | index.js:33-43 | the entries collected from two runs of rows are the entries of the first run followed by those of the second |
| `Ingestion.SkipsUndecodable` | index.js:34-43 | a row whose blob does not parse or is not an array contributes nothing and does not stop the rows after it from contributing |
| `Ingestion.FlattenArraysOnly` | index.js:34-43 | the collected entries are the concatenation, in row order, of the arrays of exactly the rows that decode to arrays |
| `Ingestion.FlattenMembers` | index.js:33-43 | an entry is collected exactly when it is in the array of some stored row |
| `Ingestion.CollectAnswers` | index.js:33-43 | the `forEach` loop that pushes each decoded array returns exactly the flattened entries |
| `Ingestion.PlanIngest` | index.js:23-58 | no stored rows for the tryout gives not-found; rows with zero collected entries gives invalid-data; otherwise the rows to insert are the built rows of the collected entries |
| `Ingestion.PlanInsertsOnePerEntry` | index.js:45-58 | when rows are inserted there is at least one and exactly one per collected entry, with identifiers copied and no `"` in the text fields |
| `Ingestion.PlanInsertsIff` | index.js:28-58 | rows are inserted if and only if at least one entry is collected and every collected entry can be built |
| `Store.SaveOutcome` | index.js:23-76 | the response for a plan and a rejected statement; `Store.SaveOutcomeCounts` states its cases |
| `Store.Ingested` | index.js:60-67 | the tables after the bulk insert: the built rows appended to `jawaban_user_tryout`, every other table unchanged (used by `Store.Database.SaveAnswers`) |
| `Store.SaveOutcomeCounts` | index.js:23-76 | a rejected statement gives 500; otherwise not-found if and only if there are no stored rows, and invalid-data if and only if there are rows but no entries; a success reports `inserted` equal to the number of collected entries, never 0 |
| `Store.Database.SaveAnswers` | index.js:18-77 | the response is the plan's outcome for the given rejected statement, if any; on success the answer table gains exactly the built rows at its end, and on every other outcome no table changes |
| `Scoring.Join` | index.js:121-127 | the rows of the two inner joins under `WHERE jut.id_tryout = ?`; `Scoring.JoinMembers` and `Scoring.WithQuestionsSingle` characterise it |
| `Scoring.JoinMembers` | index.js:121-127 | a joined row exists exactly for an answer of the tryout, a question matching it on all three columns and a user matching its `id_user` (NULL matches nothing) |
| `Scoring.KeysFrom` | index.js:128 | the groups are listed without repetition, and a group is listed exactly when some joined row falls into it |
| `Scoring.Points` | index.js:120 | `CASE WHEN status = 'benar' THEN point*100 ELSE 0 END`; `Scoring.SumMatchesReference` states the sum it feeds |
| `Scoring.GroupSum` | index.js:120 | the `SUM` over the joined rows of one group; `Scoring.SumMatchesReference` proves it equal to the reference fold over the answer rows |
| `Scoring.Total` | index.js:120 | the sum divided by 7, kept exact (used by `Scoring.ScoreRowTotals` and `Ranking.RankTryoutTotals`) |
| `Scoring.Scores` | index.js:116-128 | the derived table `n`: no group twice, a group present exactly when some joined row falls into it, and each row's total its group's sum over 7 |
| `Scoring.ScoreTryout` | index.js:116-128 | `n` for the answers of one tryout; `Scoring.ScoreRowsAreGroups` and `Scoring.ScoreRowTotals` characterise it |
| `Scoring.ScoreRowsAreGroups` | index.js:116-128 | there is one score row per distinct (`id_user`, `username`, `peminatan`) group of the joined answers, and no other |
| `Scoring.WithQuestionsSingle` | index.js:122-126 | with the keys of `soal_tryout` and `users` in place, an answer that has a question and a user yields exactly one joined row |
| `Scoring.SumMatchesReference` | index.js:120-127 | with those keys, a group's sum is 100 × the point of every answer in it that has status 'benar', has a question and has a user; other statuses add 0, and unmatched answers are excluded |
| `Scoring.ScoreRowTotals` | index.js:116-128 | with those keys, each score row's total is its reference sum divided by 7 |
| `Ranking.SortDesc` | index.js:114 | the result is ordered by non-increasing total and is a permutation of the input |
| `Ranking.RowNumber` | index.js:114 | one numbered row per input row, and position i holds input row i with rank i + 1 |
| `Ranking.RankScores` | index.js:109-114 | the derived table `r`: the model's numbering, shown by `Ranking.RankScoresIsRowNumbering` to be one the window function may return |
| `Ranking.RankScoresIsRowNumbering` | index.js:109-114 | the model's numbering is one that `ROW_NUMBER() OVER (ORDER BY total DESC)` may return |
| `Ranking.RowNumberingDense` | index.js:109-114 | in every such numbering the ranks are exactly 1..N, each used once |
| `Ranking.RowNumberingOrdered` | index.js:109-114 | in every such numbering a strictly higher total never has a larger rank |
| `Ranking.RowNumberingsAgree` | index.js:109-114 | two numberings of the same score rows use the same rows and ranks and give every rank the same total |
| `Ranking.SortedSameTotals` | index.js:114 | two orderings by non-increasing total of the same rows agree on the total at every position |
| `Ranking.ProfilesOf` | index.js:131 | the `userdata` rows joined to a user are exactly those whose `id_user` equals it |
| `Ranking.Enrich` | index.js:131 | the rank rows of one ranked row: one per matching `userdata` row, or a single row with NULL origin when none matches (characterised by `Ranking.LeftJoinOnePerRow`) |
| `Ranking.LeftJoin` | index.js:98-131 | `LEFT JOIN userdata`, ranked row by ranked row; `Ranking.LeftJoinRowsFrom` and `Ranking.LeftJoinOnePerRow` characterise it |
| `Ranking.LeftJoinRowsFrom` | index.js:96-131 | every inserted row carries the group, total and rank of some ranked row, the tryout id and year 2026 |
| `Ranking.RowOfRanked` | index.js:131 | the left join drops no ranked row: every ranked row, with or without a profile, has a joined row carrying its group, total and rank |
| `Ranking.LeftJoinOnePerRow` | index.js:131 | with `id_user` a key of `userdata`, the left join keeps every ranked row once and in place, with its profile's `instansi` and `provinsi`, or NULL ones when it has no profile |
| `Ranking.RankTryout` | index.js:94-134 | the rows the `INSERT ... SELECT` adds to `rank_tryout_2025`; `Ranking.RankTryoutTagged`, `RankTryoutOrdered`, `RankTryoutDense`, `RankTryoutGroups`, `RankTryoutOneRowPerGroup` and `RankTryoutTotals` characterise it |
| `Ranking.RankTryoutTagged` | index.js:96-131 | every inserted row is tagged with the tryout id and year 2026, and a row whose user has no `userdata` row has NULL `instansi` and `provinsi` |
| `Ranking.RankTryoutOrdered` | index.js:96-131 | among the inserted rows a strictly higher total never has a larger rank |
| `Ranking.LeftJoinOrdered` | index.js:109-131 | for every numbering the query may return, among the joined rows a strictly higher total never has a larger rank, whatever `userdata` holds |
| `Ranking.LeftJoinDense` | index.js:109-131 | for every numbering the query may return, with `id_user` a key of `userdata`, there is one joined row per score row and the ranks are exactly 1..N, each once |
| `Ranking.LeftJoinGroups` | index.js:109-131 | for every numbering the query may return, the joined rows have exactly the groups of the score rows, whatever `userdata` holds |
| `Ranking.RankTryoutDense` | index.js:96-131 | with `id_user` a key of `userdata`, there are as many inserted rows as groups, and their ranks are exactly 1..N, each once |
| `Ranking.RankTryoutGroups` | index.js:96-131 | whatever `userdata` holds, the inserted rows' groups are exactly the joined groups, so a group whose user has no profile keeps its row |
| `Ranking.RankTryoutOneRowPerGroup` | index.js:96-131 | with `id_user` a key of `userdata`, there is exactly one inserted row per joined group |
| `Ranking.RankTryoutTotals` | index.js:96-131 | with the keys of `soal_tryout` and `users` in place, each inserted row's total is 100 × its group's counted 'benar' points / 7 |
| `Ranking.LeftJoinTotals` | index.js:98-131 | the same for every numbering the query may return |
| `Store.Processed` | index.js:87-159 | the tables after a committed run; `Store.ProcessedReplacesRanks`, `Store.ProcessedKeepsOtherRanks` and `Store.ProcessedTwice` characterise it |
| `Store.ProcessedReplacesRanks` | index.js:87-134 | after a committed run the tryout's rank rows are exactly the freshly computed rows |
| `Store.ProcessedKeepsOtherRanks` | index.js:88-91 | a committed run leaves the rank rows of every other tryout unchanged and in order |
| `Store.ProcessedTwice` | index.js:87-159 | a second committed run leaves the rank table as the first left it, and appends the tryout's answers and batches to the review tables a second time |
| `Store.RerunNumberingsAgree` | index.js:109-131 | whatever tie order the engine picks in each of two runs, both number the same rows with the same ranks, give every rank the same total, and join the same `userdata` |
| `Store.Database.ProcessTryout` | index.js:80-170 | with no fault the response is success and the tables become `Processed` of the old tables; with a fault at any statement, including the commit, the response is failure and every table is as before the call |
| `Store.Database.Rollback` | index.js:163-164 | the written tables return to their contents at the start of the transaction |
| `Example.ExampleRanking` | index.js:94-134 | for two users with 2 and 1 correct answers at 10 points, the rank rows are (user 1, 2000/7, rank 1, with origin) and (user 2, 1000/7, rank 2, NULL origin) |

## Left out

- HTTP routing, parameter extraction, status codes and JSON response bodies. The outcomes are the datatypes `SaveResponse` and `ProcessResponse`, and error message texts are not modelled.
- `JSON.parse`. Each stored blob is given as its parse outcome (`Blob`).
- The connection pool and `getConnection`/`release`. A failing `getConnection` happens outside the `try` and is not modelled.
- Concurrency and transaction isolation. Runs are sequential, and a failed statement is a `Fault` parameter.
- A `rollback` that itself fails is not modelled.
- `console.error` logging and `app.listen`.
- The `GET /ranking/:idTryout` reader, a sorted projection with `COALESCE` defaults.
- MySQL's DECIMAL result of `/ 7`, which is rounded to four fractional digits. Totals are exact reals. Rounding is monotone, so it cannot reverse the order of two totals.
- MySQL's implicit conversion between strings and numbers in comparisons, and collation. `status = 'benar'` is modelled as exact string equality.
- Column types and constraints of the tables. A rejected SELECT or bulk insert is the `SaveFault` parameter. A rejected transaction statement is a `Fault` (for example a duplicate `id` in `jawaban_user_tryout_pembahasan_v2` on a rerun, if that column is a key).
- JSON values other than null, integers and strings. `Num` stands for every non-string value, and none of them has a `replace` method.
- NULL `point` values in `soal_tryout`. `point` is an integer.
- Scoring.SumMatchesReference: proved only when (`no_soal`, `id_mapel`, `id_tryout`) is a key of `soal_tryout` and `id` is a key of `users`. Without these keys the join repeats rows and the model sums the repeats, as SQL does.
- Ranking.RankTryoutDense: proved only when `id_user` is a key of `userdata`. Without it the left join repeats ranked rows with the same rank, in both the model and the source.
- Ranking.RankTryoutOneRowPerGroup: proved only when `id_user` is a key of `userdata`, for the same reason. The set of groups (`Ranking.RankTryoutGroups`) needs no key.
- Ingestion.Flatten: `allJawaban.push(...parsed)` passes every element as an argument, and an array too long for the engine's argument limit throws a RangeError. The handler then skips that row. The model adds every array whatever its length.
- Store.ProcessedTwice: the equality of the whole rank table on a rerun holds for the model's tie order. For the engine, `Store.RerunNumberingsAgree` gives what every rerun keeps: the same rows, ranks and per-rank totals. Tied groups may swap ranks.
- The order of the rows returned by the SELECT at index.js:23-26, which has no `ORDER BY`. The engine chooses the order in which `forEach` sees the rows, and the model takes table order. Through first appearance, table order of `jawaban_user_tryout` also fixes the model's order among equal totals. The `LeftJoin...` and `RowNumbering...` lemmas hold for every order.
