# Gym occupancy tracker: the poll cycle and its read side

The tracker's server (`api/index.js`) polls an upstream occupancy endpoint every
15 minutes. It keeps two SQLite tables:

- `stats` holds one row per recurring weekly slot. The key is "dddd, HH:mm", for example "Monday, 09:15". Each row holds a count-weighted running average of every value seen at that slot.
- `history` holds one row per poll. The key is "YYYY/MM/DD HH:mm".

The server answers `GET /sunday` … `GET /saturday` with the `stats` rows of that
weekday. It answers `GET /today` with today's `history` rows. Every answer is
sorted by key and projected to `{ timestamp, value }`.

The model has five modules:

- `Wrappers`: `Option`.
- `Collation`: what SQLite does with the keys.
  - `Less` is the BINARY collation behind `ORDER BY timestamp`.
  - `Lower` is the ASCII-only case folding `LIKE` uses.
  - `Like` is the `LIKE` matcher, with `%` and `_`.
  - `Ascending` is the key order an `ORDER BY` on the primary key yields.
- `TimeKeys`: the key formats moment produces in its default English locale. It also proves:
  - the keys can be parsed back;
  - the keys are injective;
  - within one weekday or one date, key order is time order.
- `Averaging`: the weighted average `Fold` and its meaning. After n observations, a row holds their mean with weight n, in any order.
- `Tracker`:
  - `Tables` and the functional poll cycle `Poll`.
  - The `Database` class. Its `stats` and `history` map fields are updated in place by `PollCycle`, which is split into `UpsertStats` and `InsertHistory` as in the source. `PollCycle` is proved against `Poll`. It keeps the invariant `Valid()`: every key is well-formed, and every `stats` row is the mean and count of the values observed at its slot. The observations are kept in the ghost field `observed`.
  - The read side: `SelectStats` and `SelectHistory` (a `LIKE` prefix filter, then `ORDER BY`), `RequestData`, `Project`, the route list `Routes` and `Serve`.

Some inputs are parameters rather than effects:

- The fetched `value` is a `Fetch`. A failed request or a response without a usable body is `Unavailable`.
- Each clock reading is a `LocalTime` holding a date, weekday, hour and minute. The cron callback reads the clock twice, once for the `stats` key (line 31) and once for the `history` key (line 51), so `PollCycle` takes two readings.
- "Today" for the `/today` route is a `Date` parameter.

`SlotOfKey` and `StampOfKey` give back the slot or calendar minute that a well-formed key names. The query lemmas are stated through them.

## Model

| member | source | states |
|---|---|---|
| Averaging.Fold | api/index.js:43-50 | with no existing row the new row is the value with weight 1; with one, the weight grows by exactly 1 |
| Averaging.FoldKeepsTotal | api/index.js:44-46 | the new average times the new weight equals the old average times the old weight plus the value |
| Averaging.FoldStep | api/index.js:43-50 | folding a value into the mean-and-count of some observations gives the mean-and-count of those observations plus the value |
| Averaging.FoldAllIsMean | api/index.js:43-50 | after n ≥ 1 observations at a slot the row is their arithmetic mean with weight n; there is a row iff there was an observation |
| Averaging.FoldOrderIndependent | api/index.js:43-50 | the row depends only on the multiset of observed values, not on their order |
| Collation.LessTransitive | api/index.js:61 | the order `ORDER BY timestamp` sorts by is transitive |
| Collation.LessTotal | api/index.js:61 | any two different keys are ordered one way or the other |
| Collation.LessIrreflexive | api/index.js:61 | no key sorts before itself |
| Collation.LessCommonPrefix | api/index.js:61 | keys sharing a prefix are ordered by what follows it |
| Collation.LowerAll | api/index.js:82-84 | lower-casing keeps the length and folds each character |
| Collation.LikePrefix | api/index.js:61-62 | `LIKE 'p%'` with a wildcard-free `p` holds exactly when `p` is a case-insensitive prefix of the key |
| Collation.Ascending | api/index.js:61 | `ORDER BY` on the primary key lists every key once, nothing else, in strictly ascending order |
| TimeKeys.Pad | api/index.js:31 | zero filling gives exactly `width` decimal digits |
| TimeKeys.ValuePad | api/index.js:31 | zero-filled digits read back as the number |
| TimeKeys.PadOrder | api/index.js:31 | zero-filled numbers of one width sort as the numbers do |
| TimeKeys.ClockOrder | api/index.js:31 | "HH:mm" strings sort as the times of day they denote |
| TimeKeys.SlotKey | api/index.js:31 | a "dddd, HH:mm" key is the weekday name plus seven characters |
| TimeKeys.DateKey | api/index.js:65 | a "YYYY/MM/DD" key has ten characters |
| TimeKeys.HistoryKey | api/index.js:51 | a "YYYY/MM/DD HH:mm" key has sixteen characters |
| TimeKeys.NamedDay | api/index.js:31 | a recognised "dddd" token names the weekday it was read as |
| TimeKeys.ParseClockRoundTrip | api/index.js:31 | "HH:mm" reads back as the hour and minute it was made from |
| TimeKeys.SlotKeyRoundTrip | api/index.js:31 | a slot key reads back as its weekday, hour and minute |
| TimeKeys.DateKeyRoundTrip | api/index.js:65 | a date key reads back as its date |
| TimeKeys.HistoryKeyRoundTrip | api/index.js:51 | a history key reads back as its date, hour and minute |
| TimeKeys.SlotKeyInjective | api/index.js:31 | two readings share a `stats` key iff they share weekday, hour and minute |
| TimeKeys.HistoryKeyInjective | api/index.js:51 | two readings share a `history` key iff they share date, hour and minute |
| TimeKeys.WeeklyRecurrence | api/index.js:31-51 | readings on different dates with the same weekday and time (a week apart) update one `stats` row and make two different `history` keys |
| TimeKeys.SlotKeyOrder | api/index.js:31 | within one weekday, slot-key order is time-of-day order, both ways |
| TimeKeys.HistoryKeyOrder | api/index.js:51 | within one date, history-key order is time-of-day order, both ways |
| TimeKeys.WeekdayPrefix | api/index.js:82-84 | a lower-case weekday name is a case-insensitive prefix of a slot key iff the key is of that weekday |
| TimeKeys.DateKeyLiteral | api/index.js:65-67 | a date key contains no `LIKE` wildcard |
| TimeKeys.DatePrefix | api/index.js:65-67 | today's date key is a prefix of a history key iff the key is of today's date |
| Tracker.PollEffect | api/index.js:26-57 | a failed fetch changes nothing; otherwise only the slot's `stats` row changes, to the folded row; `history` gains at most its new key; old rows are unchanged; the insert fails iff the key was taken |
| Tracker.PollConflict | api/index.js:51 | a successful poll's `history` insert fails iff an earlier poll fell in the same calendar minute |
| Tracker.ClockKeys | api/index.js:31-51 | both keys of a clock reading are well-formed |
| Tracker.PollKeepsWellFormed | api/index.js:31-51 | a poll cycle writes only keys of the two formats |
| Tracker.FoldKeepsConsistent | api/index.js:33-50 | folding a value into a slot's row, and recording it as observed there, keeps every row the mean and count of its observations |
| Tracker.Database.constructor | api/index.js:20-23 | a fresh database has two empty tables and satisfies the invariant |
| Tracker.Database.PollCycle | api/index.js:26-57 | one cron run leaves exactly the tables and outcome that `Poll` gives; it keeps the invariant; it records the value as observed at its slot |
| Tracker.Database.UpsertStats | api/index.js:33-50 | reads the slot's row, then updates it to the folded row or inserts the value with weight 1; `history` is untouched; rows stay averaged |
| Tracker.Database.InsertHistory | api/index.js:51 | inserts the value under a fresh key; a taken key leaves `history` unchanged and reports the conflict |
| Tracker.StatsRecords | api/index.js:71 | one `stats` record per key, in the keys' order, with its columns |
| Tracker.HistoryRecords | api/index.js:71 | one `history` record per key, in the keys' order, with its columns |
| Tracker.SelectKeys | api/index.js:60-71 | the selected keys are exactly the matching ones, in strictly ascending order |
| Tracker.SelectStats | api/index.js:61-62 | the records are exactly the matching `stats` rows with their columns, in ascending key order |
| Tracker.SelectHistory | api/index.js:66-67 | the records are exactly the matching `history` rows with their columns, in ascending key order |
| Tracker.Project | api/index.js:90 | one row per record, keeping `timestamp` and `value` and dropping `weight` |
| Tracker.DropFirstSlash | api/index.js:89 | `replace("/", "")` drops the first slash only; a path starting with a slash loses just that character |
| Tracker.DropFirstSlashAt | api/index.js:89 | the slash removed is the first one: the path loses that character and keeps every other, in order |
| Tracker.WeekdayRoutes | api/index.js:82-86 | the i-th weekday route is "/" plus the i-th weekday's lower-case name |
| Tracker.RoutesAre | api/index.js:82-86 | the served paths are exactly "/today" and "/" plus a lower-case weekday name |
| Tracker.WeekdayRouteServed | api/index.js:82-86 | every weekday has its route |
| Tracker.Serve | api/index.js:86-91 | a path is answered iff it is one of the routes |
| Tracker.WeekdayRouteRequest | api/index.js:88-90 | a weekday route sends the projected `stats` rows matching its lower-case name as a prefix |
| Tracker.TodayRouteRequest | api/index.js:64-67 | `/today` sends the projected `history` rows matching today's date key as a prefix |
| Tracker.WeekdayPattern | api/index.js:62 | among well-formed `stats` keys, the weekday pattern selects exactly that weekday's |
| Tracker.DatePattern | api/index.js:65-67 | among well-formed `history` keys, today's pattern selects exactly today's |
| Tracker.WeekdayRowsSound | api/index.js:60-62 | every weekday row is a `stats` row of that weekday, carrying its average |
| Tracker.WeekdayRowsComplete | api/index.js:60-62 | every `stats` row of the weekday is sent |
| Tracker.WeekdayRowsByTime | api/index.js:61 | weekday rows come in strictly ascending time of day |
| Tracker.TodayRowsSound | api/index.js:64-67 | every `/today` row is a `history` row of today's date, with its value |
| Tracker.TodayRowsComplete | api/index.js:64-67 | every `history` row of today's date is sent, unaggregated |
| Tracker.TodayRowsByTime | api/index.js:66 | `/today` rows come in strictly ascending time of day |
| Tracker.ServeWeekday | api/index.js:60-91 | `GET /<weekday>` answers exactly that weekday's `stats` rows with their averages, in ascending time of day |
| Tracker.ServeToday | api/index.js:64-91 | `GET /today` answers exactly today's `history` rows, in ascending time of day |

## Left out

- The HTTP fetch and the `/live` passthrough with its 424 body (api/index.js:28-29, 94-102) are network I/O. The fetched value is the `Fetch` parameter, and a failed request or missing body is `Unavailable`.
- An upstream body whose `value` is missing or not a number is not modelled. The source would then store `undefined` or NaN arithmetic. The model assumes a real number.
- The cron schedule (api/index.js:26), `app.listen`, and express's transport are left out. `PollCycle` is one run of the callback.
- Express matches routes case-insensitively and ignores a trailing slash by default. `Serve` matches paths exactly. With express, "/Monday" would be served like "/monday". "/TODAY" and "/monday/" would reach the `stats` branch with a pattern that matches no key, where the model answers `None`.
- A path outside the routes is not answered by this handler (express replies 404). `Serve` gives `None`. No empty array is returned for such a path.
- The clock, the time zone, daylight-saving shifts and moment's locale are left out. A reading is a `LocalTime` with field ranges checked. The model does not check that the date is a real calendar date or that the weekday agrees with it.
- Years from 10000 on are left out (`Date.Valid`), since "YYYY" then stops being four digits.
- The sqlite engine is left out: the Promise wrapper around `db.get`, errors of `db.get` and `db.all`, and `db.run` called without a callback (api/index.js:18-23, 33-41, 70-78). A failed `history` insert is the `HistoryConflict` outcome with `history` unchanged and the earlier `stats` write kept. With no callback, node-sqlite3 reports the failed INSERT as an `error` event on the database object. With no listener that event is thrown outside the try/catch at api/index.js:27-56, so a duplicate `history` key is not merely logged. The model stops at the `HistoryConflict` outcome.
- Concurrency between the cron callback and the route handlers is left out. Each operation is atomic.
- Floating-point rounding of the average is left out. `Fold` uses exact `real` arithmetic.
- `console` logging is left out.
- The `stats` LIKE pattern is built from the path, and a name containing `%` or `_` would act as a wildcard. Only the fixed route names reach it, and they contain neither; `Like` models the wildcards anyway.
- `RequestData` and `Poll` carry no contract of their own. What they do is stated by `PollEffect`, `PollConflict`, `PollCycle` and the route lemmas above.
- Reopening a database file that already holds rows is not modelled (`CREATE TABLE IF NOT EXISTS`, api/index.js:21-22). The `Database` invariant is established from empty tables by the constructor.
