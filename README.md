# songs — a Dafny model of the song library service

The service stores songs (group, song name, lyrics text, release date,
link). It exposes a REST API: list with filters, read, update, delete,
and "info", which returns one page of a song's lyrics, four verses at a
time. A small scraper takes lyrics out of an HTML page that lies between
two comment markers and cleans them up. This project models:

- the repository: the filtered, paginated listing, and the lyrics pages
  of one song;
- the handlers' decisions: the filter map built from the query, the
  status code for each outcome, the forced page size of Info, and the
  identifier override of Update;
- the record conversions of the model file;
- the scraper's marker extraction and its clean-up of the lyrics.

Modules:

- `Wrappers` holds `Option` and `Result`.
- `GoStrings` models the functions of Go's `strings` package this code
  calls: `Index`, `Split`, `ReplaceAll` and `TrimSpace`, with `Join` as
  the partner of `Split`.
- `Pagination` is the page envelope. It records the page number, page
  size, total and items.
- `SongModel` covers the records and their conversions.
- `SongRepository` covers the database queries.
- `SongHandler` covers the HTTP handlers.
- `LyricsScraper` covers the scraper.

The database is a sequence of rows in primary-key order, passed as a
parameter. Whether a query fails is a boolean parameter. For the
repository calls that are not modelled (read, update and delete by
identifier), what the repository answered is a parameter of the handler.
A request is reduced to the inputs it actually supplies:

- its query parameters;
- its path identifier, already parsed, or `None` when it does not parse;
- its decoded body, or `None`;
- whether the body passes validation.

## Model

| member | source | states |
|---|---|---|
| GoStrings.Index | main.go:27-28 | -1 exactly when the pattern does not occur; otherwise an occurrence with none before it |
| GoStrings.Split | api/resource/song/repository.go:75 | at least one piece, and no piece contains the separator |
| GoStrings.JoinSplit | api/resource/song/repository.go:75 | joining the pieces of a split with its separator gives back the original text |
| GoStrings.ReplaceAll | main.go:55-59 | a replacement no longer than the pattern never lengthens the text (all five calls), and text without the pattern is left unchanged |
| GoStrings.ReplaceAllRemoves | main.go:59 | after replacing every occurrence of a pattern with one character that the pattern does not contain, the pattern no longer occurs |
| GoStrings.TrimSpace | main.go:60 | the result is the input with white space, and only white space, removed before and after it, and it neither starts nor ends with white space |
| GoStrings.TrimSpaceUnique | main.go:60 | any substring surrounded only by white space that neither starts nor ends with white space is the result, so the result is fully determined |
| GoStrings.TrimSpaceExample | main.go:60 | `" \tabc\n "` trims to `"abc"` |
| GoStrings.TrimSpaceKeepsAbsence | main.go:60 | trimming cannot create an occurrence of a pattern |
| LyricsScraper.CleanUpLyrics | main.go:53-63 | the cleaned lyrics have no surrounding white space, contain no `&#39;` entity and are no longer than the input |
| LyricsScraper.CleanUpIdentity | main.go:53-63 | on text free of the four tags and the entity the clean-up only trims white space; text also free of surrounding white space is left unchanged |
| LyricsScraper.MarkersDoNotOverlap | main.go:27-32 | a closing marker that starts after the opening marker also starts after it ends, so the slice of line 32 is well formed |
| LyricsScraper.Section | main.go:27-32 | a section exists exactly when both markers occur and the closing one is found after the opening one; it then starts right after the opening marker and ends where the closing marker starts |
| LyricsScraper.SectionSlice | main.go:32 | a section is exactly the slice from the end of the opening marker to the start of the closing one |
| LyricsScraper.ExtractLyricsCondition | main.go:24-34 | the callback's extraction (`ExtractLyrics`, the clean-up of the section) succeeds exactly when both markers are found and the banner comes after the usage marker |
| LyricsScraper.SectionBetweenMarkers | main.go:27-32 | prefix, opening marker, body, closing marker, suffix gives back the body, when neither marker comes too early |
| LyricsScraper.ExtractBetweenMarkers | main.go:23-35 | a page laid out around the two markers yields the cleaned-up body |
| LyricsScraper.Overwrite | main.go:30-34 | one run of the callback overwrites the captured lyrics with a successful extraction and keeps them otherwise |
| LyricsScraper.CapturedEmpty | main.go:20-35 | `Captured`, the callback run over a sequence of extraction outcomes from `""`, stays `""` when no extraction succeeds |
| LyricsScraper.CapturedIsLast | main.go:20-35 | the captured lyrics are those of the last successful extraction |
| LyricsScraper.CapturedFromSome | main.go:20-35 | the captured lyrics are always `""` or one of the successful extractions |
| LyricsScraper.Outcomes | main.go:23-24 | the outcome for each element, in document order, is that element's extraction |
| LyricsScraper.ScrapedFromSomeElement | main.go:20-35 | the captured lyrics (`Scraped`: the callback run over the elements in order from `""`) are always `""` or the extraction of one of the elements |
| LyricsScraper.ScrapedEmpty | main.go:20-35 | when no element holds both markers in order, the captured lyrics stay empty |
| LyricsScraper.ScrapedIsLastExtraction | main.go:20-35 | the captured lyrics are those of the last element that holds both markers in order |
| LyricsScraper.FetchLyrics | main.go:12-50 | a failed visit is an error; otherwise the result is what the callback captured over the elements in document order |
| SongModel.Song.ToDto | api/resource/song/model.go:37-43 | the DTO carries the release date, text and link of the song |
| SongModel.ToDtoForgetsIdentity | api/resource/song/model.go:37-43 | two songs have the same DTO exactly when they agree on release date, text and link |
| SongModel.Form.ToModel | api/resource/song/model.go:54-60 | the song has the form's group and song name and zero values elsewhere |
| SongModel.FormRoundTrip | api/resource/song/model.go:54-60 | a corollary of the two conversions: the group and song name of the song built from a form give back the form |
| SongModel.SongsToDto | api/resource/song/model.go:45-52 | one DTO per song, in order, each the song's own DTO |
| SongRepository.Matches | api/resource/song/repository.go:35-43 | the text entry matches when the value is found in the text, so an empty value matches every row; every other entry matches on equality with its column |
| SongRepository.Where | api/resource/song/repository.go:36-40 | one condition never adds rows |
| SongRepository.WhereMembers | api/resource/song/repository.go:36-40 | one condition keeps exactly the rows that satisfy it |
| SongRepository.FilterBy | api/resource/song/repository.go:34-44 | filtering never adds rows |
| SongRepository.FilterByMembers | api/resource/song/repository.go:34-44 | a row is selected exactly when it is in the table and satisfies the conditions of every key |
| SongRepository.WhereNarrows | api/resource/song/repository.go:34-44 | adding one more condition to a query selects the rows of the query that satisfy the condition too |
| SongRepository.ApplyFilters | api/resource/song/repository.go:31-44 | whatever order the keys are visited in, the query selects exactly the rows that meet every filter |
| SongRepository.Window | api/resource/song/repository.go:52-53 | page `page` holds the items from index `(page-1)*pageSize` on, at most `pageSize` of them, all the remaining ones when fewer are left, and none past the end |
| SongRepository.PagesTile | api/resource/song/repository.go:52-53 | the first n pages together are the first n*pageSize items, so no item is skipped or repeated |
| SongRepository.List | api/resource/song/repository.go:24-63 | either query failing gives an error; otherwise the total is the number of matching rows and the items are the requested page of them |
| SongRepository.Verses | api/resource/song/repository.go:75-76 | the stored text gives at least one verse |
| SongRepository.VersesIgnoreNewlines | api/resource/song/repository.go:75 | the separator is the two characters backslash and n, so text without a backslash has a single verse |
| SongRepository.JoinVersesIsJoin | api/resource/song/repository.go:90-94 | the verses each followed by a newline are the verses joined with newlines, plus one newline |
| SongRepository.LyricsPage | api/resource/song/repository.go:81-95 | a page past the last verse is empty; otherwise it is its verses joined with newlines, plus a final newline |
| SongRepository.LyricsPagesAreVerses | api/resource/song/repository.go:81-95 | the first n page texts, one after the other, are the verses of the first n windows, each followed by a newline |
| SongRepository.AllLyricsPages | api/resource/song/repository.go:74-95 | the texts of all the lyrics pages in order give back the stored text with every literal separator turned into a newline, and a newline at the end |
| SongRepository.FirstMatch | api/resource/song/repository.go:70-72 | nothing is found exactly when no row has the group and song name; otherwise the match is the first such row |
| SongRepository.AppendVerses | api/resource/song/repository.go:90-94 | the loop appends verses `start` up to `end`, each followed by a newline, in order |
| SongRepository.GetLyrics | api/resource/song/repository.go:65-103 | lookup failure and absence give the two errors; otherwise the song's text is replaced by its requested page of verses and the total is the number of verses |
| SongHandler.QueryGet | api/resource/song/handler.go:60-76 | a parameter's value is its first value, and the empty string when it is absent or has no value |
| SongHandler.FiltersOf | api/resource/song/handler.go:59-79 | the filter map has only column keys and never an empty value |
| SongHandler.FiltersOfRenames | api/resource/song/handler.go:59-79 | each column is filtered exactly when its query parameter is non-empty, with that value |
| SongHandler.RenamesDetermineFilters | api/resource/song/handler.go:59-79 | those five renames determine the filter map |
| SongHandler.BuildFilters | api/resource/song/handler.go:59-79 | the map built by the conditional inserts renames every non-empty parameter to its column |
| SongHandler.List | api/resource/song/handler.go:49-101 | the repository is asked for the resolved page and size with the built filters; its failure gives 500, its page is returned with 200 |
| SongHandler.LookupStatus | api/resource/song/handler.go:192-203 | record-not-found gives 404 and every other lookup error 500 |
| SongHandler.Info | api/resource/song/handler.go:230-273 | an empty group or song gives 400 before any lookup; otherwise the lyrics page is fetched with four verses per page whatever size was requested; not found gives 404, another failure 500 |
| SongHandler.Read | api/resource/song/handler.go:178-214 | an unparsable identifier gives 400; not found gives 404, another failure 500, success 200 with the song |
| SongHandler.AffectedStatus | api/resource/song/handler.go:330-340 | a repository error gives 500, zero affected rows 404, anything else 200 |
| SongHandler.Update | api/resource/song/handler.go:290-343 | an unparsable identifier or body gives 400 and invalid data 422, in that order, without a repository call; otherwise the body is sent with exactly its identifier replaced by the path's, and the affected rows decide the status |
| SongHandler.Delete | api/resource/song/handler.go:358-385 | an unparsable identifier gives 400; otherwise the affected rows decide the status |

## Left out

- Database and ORM: the SQL of the queries, the ORM's `Model`, `Create`,
  `Updates` and `Delete`, and the connection. The table is a sequence of
  rows. Failures are parameters. The row order of an unordered `Find` is
  taken to be primary-key order.
- SongRepository.List: requires page and page size of at least 1. The
  parameter resolver is not part of this model, and neither is what the
  database does with a negative offset or limit.
- SongRepository.Matches: the LIKE special characters inside a text
  filter value are treated as literal characters. These are the wildcards
  `%` and `_`, and the backslash, which is PostgreSQL's default LIKE escape
  character. So a filter value holding the literal separator backslash, n
  matches a plain `n` in the database, but the model looks for backslash,
  n. Matching is case-sensitive, as in PostgreSQL.
- SongRepository.GetLyrics: requires `page >= 1 || pageSize <= 0`.
  That is exactly the condition under which the verse loop does not start
  at a negative index, which would panic.
- Integer width: page numbers, sizes, offsets and counts are unbounded
  integers. The 64-bit overflow of `(page-1)*pageSize` is not modelled.
- GoStrings.TrimSpace: trims ASCII white space only, not the other
  Unicode space characters Go also trims.
- Strings are sequences of characters, not UTF-8 bytes. Go's byte
  offsets coincide with these indices only for ASCII text.
- LyricsScraper.CleanUpLyrics: does not promise that the four tags are
  gone. Each replacement is one left-to-right pass, as in Go, so a tag can
  reappear when the text around a removed one joins up (`<br<br/>/>`
  becomes `<br/>`).
- HTTP, JSON and logging:
  - response error messages, headers and the pagination `Link` header;
  - JSON encoding and decoding, and the 500 sent when encoding fails
    after the repository call;
  - the 500 sent when the validation errors themselves cannot be encoded;
  - request identifiers and every log line.
- The validator's rules: validation is a boolean parameter.
- Identifier parsing: a path identifier is given already parsed, or as
  `None`.
- The pagination package: parsing page and size from the request, the
  page count and the link header. The envelope is a plain record.
- The Create handler and the repository's `Create`, `Read`, `Update` and
  `Delete` bodies, which are single ORM calls.
- The scraper's network access:
  - the colly collector, the URL built with `ToLower`, and HTML
    rendering;
  - the elements' HTML is a parameter, in document order;
  - a failed visit is a boolean parameter.
- The command entry points, configuration, router and the `main` that
  prints the lyrics.
- SongModel.SongsToDto: a nil element in the input slice, which would
  panic in Go, has no counterpart: sequences hold values.
