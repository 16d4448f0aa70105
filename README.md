# Weekly task store: a Dafny model

The service keeps, for each user name, a weekly schedule: a map from a day
key to an ordered list of task texts. Five HTTP handlers read and write it,
each through one lookup or one upsert on a MongoDB collection of
`{name, tasks}` documents:

- `GET /api/users` lists every user with their tasks;
- `POST /api/users` sets a user's whole `tasks` map (or leaves it, when the
  body has none) and creates the user if absent;
- `GET /api/users/{name}` returns one user or 404;
- `GET /api/users/{name}/day/{day}` returns one day's list, empty when the
  day key is missing, 404 when the user is;
- `POST /api/users/{name}/day/{day}` sets one day key and creates the user
  if absent.

The model has six modules:

- `Wrappers` holds `Option`.
- `StrConv` models Go's `strconv.Atoi` on a 64-bit platform. It accepts an
  optional sign, then one or more ASCII digits, then checks the int64 range.
  `Decimal` is the canonical rendering that Atoi inverts.
- `Api` holds the document, the decoded request bodies and the handler
  outcomes.
- `Days` holds the day-segment check: Atoi, then 1..7.
- `Collection` holds MongoDB's `$set` with upsert, as pure functions on a
  map from name to day map.
- `Handlers` holds the class `TaskStore`. Its `users` field is the
  collection, and its five methods are the handlers. Two client methods
  state what a write followed by a read returns.

The day handlers use the raw `{day}` segment as the key, not the parsed
number (main.go:406, main.go:457, main.go:472). So `"3"`, `"03"`, `"+3"`
and `"003"` all pass validation as day 3, but they read and write four
different keys. `Days.DaySpellings` proves that these spellings parse alike
and differ as strings. `Handlers.WriteThenReadDay` proves that a read under
another spelling does not see the write. A day key might be expected to be
the canonical numeral 1..7; the code does not keep that, and the model
follows the code.

## Model

| member | source | states |
|---|---|---|
| `StrConv.Atoi` | main.go:383 | the `strconv.Atoi` call on the day segment (also main.go:423): a value only within the int64 range and only for a segment that starts with a digit or a sign; what it accepts is carried by `StrConv.AtoiDecimal`, `StrConv.PaddedSpellings` and `Days.ParseDayAccepts` |
| `StrConv.AtoiDecimal` | main.go:383-387 | Atoi reads back the canonical decimal rendering of every int64, negative numbers included |
| `StrConv.PaddedSpellings` | main.go:383-387 | Atoi gives the same value to a digit string with any number of leading zeros, with or without a `+` sign |
| `Days.ParseDay` | main.go:383-392 | accepted if and only if Atoi succeeds with a value in 1..7, and then the day is that value; a format error exactly when Atoi fails; a range error exactly when the number is outside 1..7 |
| `Days.ParseDayAccepts` | main.go:383-392 | a segment is accepted if and only if it is an optional `+`, then zeros, then one digit 1-7; the day is that last digit |
| `Days.DaySpellings` | main.go:423-432 | every day 1..7 is accepted in its canonical form, zero-padded, and `+`-prefixed; those spellings are distinct strings |
| `Collection.DayOrEmpty` | main.go:406-409 | a day key present in the user's tasks reads as its list; a missing key reads as the empty list, not an error |
| `Collection.SetDay` | main.go:452-459 | setting `tasks.<key>` with upsert: the user exists afterwards, the key holds the new list, the user's other keys and all other users are unchanged |
| `Collection.SetAllTasks` | main.go:324-339 | setting `tasks` with upsert: the user exists afterwards and holds exactly the given map (no merge), or keeps its tasks when none were given; other users are unchanged |
| `Collection.DistinctDayWritesCommute` | main.go:454-459 | writes to two different day keys of one user give the same collection in either order |
| `Collection.SameDayLastWriteWins` | main.go:454-459 | a second write to a day key overwrites the first |
| `Collection.FullWriteDiscardsDayWrite` | main.go:324-339 | a full `tasks` write after a day write gives the same collection as the full write alone |
| `Handlers.TaskStore.constructor` | main.go:38-39 | the store starts with the given collection |
| `Handlers.TaskStore.GetAllUsers` | main.go:285-309 | on success, one entry per stored name, mapped to that user's tasks; 500 on storage failure; nothing changes |
| `Handlers.TaskStore.UpdateUserTasks` | main.go:312-354 | 400 for an unbindable body, then 400 for an empty name, both with the store unchanged; on success the store is the `tasks` upsert of the old store and the answer is the stored document after the write |
| `Handlers.TaskStore.GetUserTasks` | main.go:357-376 | 404 exactly when the name is not stored, otherwise its document; 500 on storage failure |
| `Handlers.TaskStore.GetUserDayTasks` | main.go:379-416 | 400 for a bad day before storage is reached; 404 for a missing user; for a stored user, the list under the raw segment, or the empty list when that key is missing, never 404 |
| `Handlers.TaskStore.UpdateUserDayTasks` | main.go:419-475 | checks in order: day format, day range, body binding, null `tasks`; every failure leaves the store unchanged; on success only `tasks[dayStr]` of that user changes (the user is created if absent), and the answer is the value stored there |
| `Handlers.WriteThenReadDay` | main.go:452-474 | after a successful day write, a read of the same segment returns the written list, and a read of any other segment, including one that parses to the same day, returns what was stored before |
| `Handlers.WriteThenReadAll` | main.go:332-353 | after a full write with a non-empty name, both the write's answer and a following read give exactly the written map |

## Left out

- HTTP routing, the CORS middleware and its `OPTIONS` short-circuit (main.go:490-501, main.go:532-539). These are transport plumbing.
- Request logging, the response-writer wrapper and `safeStringify` (main.go:42-89). These are logging only.
- Connecting to MongoDB, the ping, environment defaults and server start (main.go:504-549). These are I/O.
- Seed data (`initializeData`, main.go:92-282). It is literal data inserted when the collection is empty. The constructor instead takes any initial collection.
- Storage failures. Each handler takes a `dbFails` flag in place of the driver's error. A failure gives StorageError and writes nothing.
- JSON decoding and encoding. Bodies arrive already decoded, with `Unbindable` standing for a binding error. The response key names, such as `"任务"` in the listing, are not modelled.
- A document whose `tasks` field is absent is modelled as one with an empty map. The two differ only as `null` versus `{}` in JSON answers.
- A `null` list inside a full-update map is modelled as an empty list. `getUserDayTasks` reads both as `[]`.
- `StrConv.Atoi` returns None for both of Go's error kinds, syntax and range. Both give the same 400 answer.
- The collection has no unique index on `name`. The model holds at most one document per name, which is what upserts and the seed data produce.
- An empty `$set` from `POST /api/users` without `tasks` is modelled as a successful upsert. That is the behaviour of MongoDB 5.0 and later. Older servers reject it, which the StorageError outcome covers.
- Concurrency between requests. Each handler runs as one atomic step, as the single-document upsert provides.
- Field names that MongoDB would refuse inside a supplied `tasks` map are not modelled.
