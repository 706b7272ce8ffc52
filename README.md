# Song library: verse pagination and the filtered listing query

A Dafny model of the two pieces of logic in the song library HTTP service
(a Go CRUD service over one `songs` table):

- **Verse pagination** (`songService.GetSongText`). A song's text is split on
  the blank-line delimiter `"\n\n"`. The window `[offset, offset + limit)` is
  clamped to the verse count, and the verses in it are joined again with the
  same delimiter. A window that starts past the last verse is an empty page,
  not an error.
- **Filtered listing query** (`songRepository.FilterWithPagination`). The
  query starts from `SELECT * FROM songs WHERE 1=1`. It gets one
  ` AND <column> = $i` clause per filter, numbered by a running counter, then
  ` LIMIT $(n+1) OFFSET $(n+2)`. The arguments bound to those placeholders are
  the filter values, then `limit`, then `offset`.

Around these sit the service's other operations. `AddSong` builds a new
record, passes it to the repository's `Create` and logs the outcome.
`GetSongs`, `UpdateSong` and `DeleteSong` are one-line hand-offs to the
repository.
The repository's database calls are foreign, so they enter the model as the
function-typed fields of the `Repository` datatype.

Files, one module each:

- `wrappers.dfy`: Go's `(value, error)` and `error` returns, plus a
  "returns or panics" result for code that can hit a runtime panic.
- `models.dfy`: the `Song` record; `time.Time` is an opaque type.
- `verses.dfy`: Go's `strings.Split` and `strings.Join` on `"\n\n"`, with
  both inverse laws.
- `decimal.dfy`: the `%d` numeral that numbers placeholders, with its
  parse-back inverse.
- `song_repository.dfy`: `FilterWithPagination` as a loop with invariants,
  proved against a functional description of the query and its arguments. A
  second view of the query, as literal SQL pieces and numbered parameters,
  states how placeholders are numbered and bound.
- `song_service.dfy`: the paginator, the paginator on Go's 64-bit `int`
  exactly as written, and the service operations.

`strings.Split` is modelled character by character. It takes occurrences of
`"\n\n"` leftmost first and without overlap, as Go does, so `"a\n\n\nb"`
splits into `"a"` and `"\nb"`. Go ranges over the `filters` map in no fixed
order. The model takes the filters as a sequence and states every property
relative to that sequence's order; duplicate keys, which a map cannot hold,
are allowed.

## Model

| member | source | states |
|---|---|---|
| `Verses.Split` | internal/services/song_service.go:62 | Splitting yields at least one verse; no verse contains the delimiter; no verse but the last ends with a newline; the first verse is a prefix of the text |
| `Verses.Join` | internal/services/song_service.go:72 | `strings.Join` with the delimiter; its meaning is fixed by the two inverse laws below |
| `Verses.JoinSplit` | internal/services/song_service.go:62-72 | Joining the verses of a text with the delimiter gives back the text exactly |
| `Verses.SplitJoin` | internal/services/song_service.go:62-72 | Splitting the join of a well-formed verse list gives back that list, so Split and Join are inverse bijections |
| `Verses.SingleVerse` | internal/services/song_service.go:62 | A text splits into the single verse `[text]` exactly when it contains no blank line; `""` is one verse |
| `SongService.Paginate` | internal/services/song_service.go:62-72 | Where `offset + limit` does not overflow, defined on exactly the inputs where the Go code does not panic: an offset at or past the verse count with any limit, or a non-negative offset and limit. With an offset in range and a positive limit, the page re-splits into exactly the verses `[offset, min(offset + limit, verseCount))` of the text |
| `SongService.PageBeyondEnd` | internal/services/song_service.go:65-67 | When offset is at or past the verse count, the page is `""` for every limit, negative ones included |
| `SongService.ZeroLimitPage` | internal/services/song_service.go:63-72 | Limit 0 with an offset in range gives `""` |
| `SongService.PageSelectsVerses` | internal/services/song_service.go:62-72 | A non-empty page re-splits into exactly `min(limit, verseCount - offset)` verses, the i-th being verse `offset + i` of the text |
| `SongService.PageRoundTrip` | internal/services/song_service.go:62-72 | Offset 0 with limit at least the verse count returns the text unchanged |
| `SongService.PageInText` | internal/services/song_service.go:62-72 | A non-empty page is a contiguous piece of the text, cut at verse boundaries: text = verses before + page + verses after |
| `SongService.SingleVersePage` | internal/services/song_service.go:62-72 | A text without a blank line is one verse and is returned whole from offset 0 for every positive limit |
| `SongService.TestTextVerses` | internal/services/song_service_test.go:92 | The test's text `"Verse 1\n\nVerse 2\n\nVerse 3"` splits into its three verses |
| `SongService.TestTextPage` | internal/services/song_service_test.go:92-104 | With limit 1 and offset 1 that text gives `"Verse 2"` |
| `SongService.TestTextWholePage` | internal/services/song_service.go:62-72 | With limit 10 and offset 0 that text comes back whole (a case the unit test does not cover) |
| `SongService.GetSongTextTestCase` | internal/services/song_service_test.go:87-106 | With the mocked lookup of song "1", `GetSongText("1", 1, 1)` returns `"Verse 2"` and no error |
| `SongService.WrapInt64` | internal/services/song_service.go:64 | The result is a 64-bit integer congruent to the input modulo 2^64, and equals an input already in range |
| `SongService.PaginateAsWritten` | internal/services/song_service.go:62-72 | The paging step on Go's 64-bit `int`, returning a page or a panic; its properties are the four rows below |
| `SongService.AsWrittenAgrees` | internal/services/song_service.go:62-72 | Where `offset + limit` does not overflow, the code on Go's `int` computes the same page as `Paginate` wherever `Paginate` is defined |
| `SongService.AsWrittenPanicsExactly` | internal/services/song_service.go:63-72 | Where `offset + limit` does not overflow, the code panics exactly outside the domain of `Paginate` |
| `SongService.AsWrittenOverflowPanics` | internal/services/song_service.go:64-72 | An offset inside the text with `offset + limit` past the largest int wraps the end index negative and the slice panics |
| `SongService.AsWrittenOverflowExample` | internal/services/song_service.go:64-72 | On the test's text with limit 2^63-1 and offset 1 the code panics where `"Verse 2\n\nVerse 3"` is intended |
| `SongService.AsWrittenNegativePanics` | internal/services/song_service.go:63-72 | A negative offset, or a negative limit with an offset in range, reaches the slice and panics |
| `SongService.NewSong` | internal/services/song_service.go:32-38 | The new record has the given group and title, the clock reading, the placeholder text and link, and the zero id |
| `SongService.AddSong` | internal/services/song_service.go:31-48 | `Create` receives the new record; its error, or nil, is returned unchanged |
| `SongService.GetSongs` | internal/services/song_service.go:51-53 | The listing is the database's answer to the query and arguments that `FilterWithPagination` builds |
| `SongService.GetSongText` | internal/services/song_service.go:56-73 | A failed lookup returns `""` and the same error without paginating, for any limit and offset; a found song returns its page (the corrected `Paginate`) and no error |
| `SongService.GetSongTextPropagatesError` | internal/services/song_service.go:57-60 | Whatever the page asked for, negative values included, a lookup error reaches the caller unchanged with an empty text |
| `SongService.UpdateSong` | internal/services/song_service.go:76-78 | Returns the repository's update outcome unchanged |
| `SongService.DeleteSong` | internal/services/song_service.go:81-83 | Returns the repository's delete outcome unchanged |
| `SongRepository.FilterWithPagination` | internal/repository/song_repository.go:58-75 | The database is asked for exactly `FilterQuery(filters)` with `FilterArgs(filters, limit, offset)`, and its answer is returned |
| `SongRepository.Placeholder` | internal/repository/song_repository.go:64-69 | `$i` is a dollar sign followed by digits that read back as `i` |
| `SongRepository.AndClause` | internal/repository/song_repository.go:64 | `fmt.Sprintf(" AND %s = $%d", k, i)`, as a definition; what the clauses mean is stated by `FilterQuery`'s ensures and `PlaceholdersBindArguments` |
| `SongRepository.LimitOffsetClause` | internal/repository/song_repository.go:69 | `fmt.Sprintf(" LIMIT $%d OFFSET $%d", i, i+1)`, as a definition; what it means is stated by `FilterQuery`'s ensures and `PlaceholdersBindArguments` |
| `SongRepository.FilterQuery` | internal/repository/song_repository.go:59-69 | The query text is the rendering of the template: the prefix, one column test and parameter per filter, then the LIMIT and OFFSET parameters |
| `SongRepository.FilterArgs` | internal/repository/song_repository.go:60-70 | There are n+2 arguments: the j-th filter's value at position j, then limit, then offset |
| `SongRepository.Values` | internal/repository/song_repository.go:65 | One value per filter, the j-th being the j-th filter's value |
| `SongRepository.PlaceholdersNumberedInOrder` | internal/repository/song_repository.go:61-69 | The template's parameters are `$1` to `$(n+2)` in order, so they are distinct and strictly increasing. These are all the placeholders of the query only when no column name contains `$` (see Left out) |
| `SongRepository.PlaceholdersBindArguments` | internal/repository/song_repository.go:60-70 | There are n+2 arguments; filter j's column is compared with `$j`, which is bound to its value; `$(n+1)` follows LIMIT and is bound to limit; `$(n+2)` follows OFFSET and is bound to offset |
| `SongRepository.QueryIgnoresValues` | internal/repository/song_repository.go:64 | The query text depends only on the filter keys; values never enter it |
| `SongRepository.QueryShape` | internal/repository/song_repository.go:59-70 | The query begins with `SELECT * FROM songs WHERE 1=1`; the arguments are the filter values, then limit, then offset |
| `SongRepository.NoFilters` | internal/repository/song_repository.go:59-70 | With no filters the query is `SELECT * FROM songs WHERE 1=1 LIMIT $1 OFFSET $2` and the arguments are `[limit, offset]` |
| `SongRepository.GroupFilterExample` | internal/repository/song_repository.go:59-70 | A group filter `"Muse"` with limit 10 and offset 0 gives `... WHERE 1=1 AND group_name = $1 LIMIT $2 OFFSET $3` with arguments `["Muse", 10, 0]` |
| `Decimal.Format` | internal/repository/song_repository.go:64-69 | The numeral is non-empty, all digits, and starts with `0` only for zero |
| `Decimal.ParseFormat` | internal/repository/song_repository.go:64-69 | Reading the numeral back gives the number |
| `Decimal.FormatInjective` | internal/repository/song_repository.go:64-69 | Two counters print the same numeral exactly when they are equal, so distinct placeholders never collide |

## Findings

| source | as written | input that shows it | evidently intended | confidence | as-written member | corrected member |
|---|---|---|---|---|---|---|
| internal/services/song_service.go:64 | `end := offset + limit` is computed in Go's 64-bit `int`, and the sum wraps to a negative value when it passes 2^63-1; `verses[start:end]` then panics because `end < start` | the test's text `"Verse 1\n\nVerse 2\n\nVerse 3"`, limit 9223372036854775807, offset 1; both pass `strconv.Atoi` in the handler | clamp the end to the verse count, giving `"Verse 2\n\nVerse 3"` | high (the wrap-around is Go's defined behaviour on 64-bit platforms); not executed | `SongService.AsWrittenOverflowExample` | `SongService.Paginate` |

`SongService.PaginateAsWritten` models the code on 64-bit ints. You can only
compute the clamp `min(offset + limit, verseCount)` the way `Paginate` does,
without overflow, if you compare `limit` with `len(verses) - offset`.
`SongService.AsWrittenNegativePanics` also records that negative values reach
the slice. The text handler parses `limit` and `offset` with
`strconv.Atoi` and never rejects a negative value
(internal/handlers/song_handler.go, lines 133 and 140). This is not a separate finding, because the handler is not
part of this model.

## Left out

- The HTTP handlers (internal/handlers/song_handler.go) are not part of this model. That covers JSON decoding, path variables, `strconv.Atoi` and status codes.
- cmd/main.go is not part of this model. That covers configuration, the database connection, migrations, routing and the listening server.
- Logging through `utils.Logger` in `AddSong` is left out. It is a side effect with no bearing on the result.
- `time.Now()` in `AddSong` is left out, because it is a clock. `AddSong` takes the reading as the parameter `now`, and `Time` is opaque.
- The repository's `Create`, `GetByID`, `Update` and `Delete` are single sqlx calls against Postgres. They are abstract functions in `Repository`. So is `db.Select`, which runs the built query. What Postgres does with the rows (ids, missing rows, ordering) is outside the model.
- `SongService.Paginate`: it requires `PageDefined`, meaning an offset at or past the verse count (with any limit), or a non-negative offset and limit. Outside that domain the Go code panics. `PaginateAsWritten` models that panic and `AsWrittenPanicsExactly` characterises it.
- `SongService.GetSongText`: when the lookup succeeds it requires `PageDefined` for the song's text, so the model does not return the panic the code raises for a negative offset, or for a negative limit with an offset in range. A failed lookup has no requirement.
- `SongService.Paginate`, `SongService.GetSongText`: their arithmetic is unbounded, which is the corrected behaviour. A found song with an offset in range and `offset + limit` above 2^63-1 panics in the code (see Findings) but gets its clamped page in the model. Go's 64-bit `int` is modelled in `PaginateAsWritten` only.
- `SongRepository.FilterWithPagination`: the counter `i` is unbounded. It could only wrap with more than 2^63 filters.
- Go's random map iteration order is not modelled as nondeterminism. The filters are a sequence in one chosen order.
- The external enrichment API mocked in the service test is left out: it is network I/O, and the service code never calls it.
- Column names are pasted into the SQL text verbatim. A key that itself contains `$` (for example `x = $9 OR 1`) adds placeholders that the template does not count. The placeholder lemmas describe the template's parameters, and they match the placeholders in the string only for column names without `$`. The handler builds the keys only from the fixed column names `group_name` and `song_name` (internal/handlers/song_handler.go:72-75).
- Go strings are byte sequences; here they are sequences of characters. No behaviour is lost: the byte `\n` never occurs inside a multi-byte UTF-8 character, so splitting on `"\n\n"` makes the same cuts either way.
- Go `interface{}` values are modelled as `Str` or `Int`, the only kinds the handler and the service put into the argument list.
