/** The song repository: the filtered, paginated listing of songs and the
    paginated lyrics of one song. The database is a sequence of rows in
    primary-key order; whether a query fails is a parameter. */
module SongRepository {
  import opened Wrappers
  import opened GoStrings
  import opened SongModel
  import opened Pagination

  /** The errors a query can return: gorm.ErrRecordNotFound from First, or
      any other database failure. */
  datatype DbError = RecordNotFound | QueryFailed

  /** The column names a filter may use. */
  const Columns: set<string> := {"group_name", "song_name", "text", "release_date", "link"}

  /** The value of a filterable column of a row. */
  function Column(s: Song, key: string): string
    requires key in Columns
  {
    if key == "group_name" then s.group
    else if key == "song_name" then s.song
    else if key == "text" then s.text
    else if key == "release_date" then s.releaseDate
    else s.link
  }

  /** The condition one filter entry adds to the query: `text LIKE %value%`
      for the text column, column equality for every other column. */
  predicate Matches(s: Song, key: string, value: string)
    requires key in Columns
    ensures key == "text" ==> (Matches(s, key, value) <==> Index(s.text, value) != -1)
    ensures key == "text" && value == "" ==> Matches(s, key, value)
    ensures key != "text" ==> (Matches(s, key, value) <==> Column(s, key) == value)
  {
    assert key == "text" && value == "" ==> OccursAt(s.text, value, 0);
    if key == "text" then Occurs(s.text, value) else Column(s, key) == value
  }

  /** A row satisfies the conditions of every key of `keys`. */
  predicate MatchesKeys(s: Song, filters: map<string, string>, keys: set<string>)
    requires keys <= filters.Keys <= Columns
  {
    forall k | k in keys :: Matches(s, k, filters[k])
  }

  /** The rows of `rows` that satisfy the conditions of the keys `keys`, in
      their original order. */
  function FilterBy(rows: seq<Song>, filters: map<string, string>, keys: set<string>): (r: seq<Song>)
    requires keys <= filters.Keys <= Columns
    ensures |r| <= |rows|
  {
    if rows == [] then []
    else
      (if MatchesKeys(rows[0], filters, keys) then [rows[0]] else [])
      + FilterBy(rows[1..], filters, keys)
  }

  /** A row is selected exactly when it is in the table and satisfies every
      condition. */
  lemma {:induction false} FilterByMembers(rows: seq<Song>, filters: map<string, string>, keys: set<string>, x: Song)
    requires keys <= filters.Keys <= Columns
    ensures x in FilterBy(rows, filters, keys) <==> x in rows && MatchesKeys(x, filters, keys)
  {
    if rows != [] {
      FilterByMembers(rows[1..], filters, keys, x);
      assert rows == [rows[0]] + rows[1..];
    }
  }

  /** With no conditions a query selects the whole table. */
  lemma {:induction false} FilterByNoKeys(rows: seq<Song>, filters: map<string, string>)
    requires filters.Keys <= Columns
    ensures FilterBy(rows, filters, {}) == rows
  {
    if rows != [] {
      FilterByNoKeys(rows[1..], filters);
      assert MatchesKeys(rows[0], filters, {});
      assert rows == [rows[0]] + rows[1..];
    }
  }

  /** The rows a query selects once every filter has been applied. */
  function Filtered(table: seq<Song>, filters: map<string, string>): seq<Song>
    requires filters.Keys <= Columns
  {
    FilterBy(table, filters, filters.Keys)
  }

  /** query.Where for one filter entry: the rows of `rows` that also satisfy
      this entry's condition. */
  function Where(rows: seq<Song>, key: string, value: string): (r: seq<Song>)
    requires key in Columns
    ensures |r| <= |rows|
  {
    if rows == [] then []
    else (if Matches(rows[0], key, value) then [rows[0]] else []) + Where(rows[1..], key, value)
  }

  /** A row is kept by `Where` exactly when it is among the rows and
      satisfies the entry's condition. */
  lemma {:induction false} WhereMembers(rows: seq<Song>, key: string, value: string, x: Song)
    requires key in Columns
    ensures x in Where(rows, key, value) <==> x in rows && Matches(x, key, value)
  {
    if rows != [] {
      WhereMembers(rows[1..], key, value, x);
      assert rows == [rows[0]] + rows[1..];
    }
  }

  /** Adding one more filter entry to a query narrows it by exactly that
      entry's condition: filters are conjunctive and their order does not
      matter. */
  lemma {:induction false} WhereNarrows(rows: seq<Song>, filters: map<string, string>, keys: set<string>, key: string)
    requires keys <= filters.Keys <= Columns && key in filters
    ensures Where(FilterBy(rows, filters, keys), key, filters[key]) == FilterBy(rows, filters, keys + {key})
  {
    if rows != [] {
      WhereNarrows(rows[1..], filters, keys, key);
      var x := rows[0];
      assert MatchesKeys(x, filters, keys + {key}) <==>
             MatchesKeys(x, filters, keys) && Matches(x, key, filters[key]);
      var head := if MatchesKeys(x, filters, keys) then [x] else [];
      assert FilterBy(rows, filters, keys) == head + FilterBy(rows[1..], filters, keys);
      if head == [] {
        assert head + FilterBy(rows[1..], filters, keys) == FilterBy(rows[1..], filters, keys);
      } else {
        assert (head + FilterBy(rows[1..], filters, keys))[1..] == FilterBy(rows[1..], filters, keys);
      }
    }
  }

  /** The page window: the items at positions (page-1)*pageSize up to, and
      not including, (page-1)*pageSize + pageSize, cut off at the end of
      the sequence. A page past the end is empty; a page size that is not
      positive selects nothing. The window never starts at a negative
      position, which is what the precondition guarantees. */
  function Window<T>(s: seq<T>, page: int, pageSize: int): (r: seq<T>)
    requires page >= 1 || pageSize <= 0
    ensures |r| <= if pageSize > 0 then pageSize else 0
    ensures forall k :: 0 <= k < |r| ==>
      0 <= (page - 1) * pageSize + k < |s| && r[k] == s[(page - 1) * pageSize + k]
    ensures pageSize > 0 && (page - 1) * pageSize < |s| ==>
      |r| == if (page - 1) * pageSize + pageSize <= |s| then pageSize else |s| - (page - 1) * pageSize
    ensures (page - 1) * pageSize >= |s| ==> r == []
  {
    var start := (page - 1) * pageSize;
    var end := if start + pageSize > |s| then |s| else start + pageSize;
    if start < end then
      assert pageSize > 0 && page >= 1;
      assert start >= 0;
      s[start..end]
    else
      []
  }

  /** The window is the slice from the start of the page to its end
      clamped to the length of the sequence, or empty when that end does not
      lie past the start. */
  lemma WindowSlice<T>(s: seq<T>, page: int, pageSize: int, start: int, end: int)
    requires page >= 1 || pageSize <= 0
    requires start == (page - 1) * pageSize
    requires end == if start + pageSize > |s| then |s| else start + pageSize
    ensures start < end ==> 0 <= start && Window(s, page, pageSize) == s[start..end]
    ensures start >= end ==> Window(s, page, pageSize) == []
  {
  }

  /** The first `n` pages, one after the other. */
  function PagesUpTo<T>(s: seq<T>, pageSize: int, n: nat): seq<T>
    requires pageSize >= 1
  {
    if n == 0 then [] else PagesUpTo(s, pageSize, n - 1) + Window(s, n, pageSize)
  }

  /** The pages tile the sequence: the first `n` pages together are exactly
      its first n*pageSize items, so no item is skipped or repeated. */
  lemma {:induction false} PagesTile<T>(s: seq<T>, pageSize: int, n: nat)
    requires pageSize >= 1
    ensures PagesUpTo(s, pageSize, n) == s[..if n * pageSize <= |s| then n * pageSize else |s|]
  {
    if n > 0 {
      PagesTile(s, pageSize, n - 1);
      var before := (n - 1) * pageSize;
      assert n * pageSize == before + pageSize;
      assert before >= 0;
      var w := Window(s, n, pageSize);
      var lo := if before <= |s| then before else |s|;
      var hi := if n * pageSize <= |s| then n * pageSize else |s|;
      if before < |s| {
        assert w == s[before..hi];
        assert s[..lo] + s[lo..hi] == s[..hi];
      } else {
        assert w == [];
      }
    }
  }

  /** The query List builds: one `Where` per filter entry, applied in
      whatever order the map yields its keys. */
  method ApplyFilters(table: seq<Song>, filters: map<string, string>) returns (query: seq<Song>)
    requires filters.Keys <= Columns
    ensures query == Filtered(table, filters)
  {
    query := table;
    var pending := filters.Keys;
    FilterByNoKeys(table, filters);
    assert filters.Keys - pending == {};
    while pending != {}
      invariant pending <= filters.Keys
      invariant query == FilterBy(table, filters, filters.Keys - pending)
      decreases |pending|
    {
      var key :| key in pending;
      WhereNarrows(table, filters, filters.Keys - pending, key);
      query := Where(query, key, filters[key]);
      assert filters.Keys - pending + {key} == filters.Keys - (pending - {key});
      pending := pending - {key};
    }
    assert filters.Keys - pending == filters.Keys;
  }

  /** Repository.List: the songs matching every filter, counted in full and
      returned one page at a time. */
  method List(table: seq<Song>, page: int, pageSize: int, filters: map<string, string>,
              countFails: bool, findFails: bool)
    returns (r: Result<Pages<seq<Song>>, DbError>)
    requires page >= 1 && pageSize >= 1
    requires filters.Keys <= Columns
    ensures countFails || findFails <==> r == Failure(QueryFailed)
    ensures !countFails && !findFails ==>
      r == Success(Pages(page, pageSize, |Filtered(table, filters)|,
                         Window(Filtered(table, filters), page, pageSize)))
  {
    var query := ApplyFilters(table, filters);
    if countFails {
      return Failure(QueryFailed);
    }
    var total := |query|;
    var offset := (page - 1) * pageSize;
    if findFails {
      return Failure(QueryFailed);
    }
    var end := if offset + pageSize > |query| then |query| else offset + pageSize;
    var songs := if offset < end then query[offset..end] else [];
    WindowSlice(query, page, pageSize, offset, end);
    return Success(Pages(page, pageSize, total, songs));
  }

  /** The literal two-character sequence backslash, n that separates the
      verses of stored lyrics. */
  const VerseSeparator: string := "\\n"

  /** The verses of stored lyrics: the pieces between the literal
      separators. */
  function Verses(text: string): (r: seq<string>)
    ensures |r| >= 1
  {
    Split(text, VerseSeparator)
  }

  /** A real newline is not a verse separator: text without a backslash is a
      single verse. */
  lemma VersesIgnoreNewlines(text: string)
    requires '\\' !in text
    ensures Verses(text) == [text]
  {
    forall j | 0 <= j && j + 2 <= |text| ensures !OccursAt(text, VerseSeparator, j) {
      assert text[j..j + 2][0] == text[j];
    }
  }

  /** Each verse followed by a real newline, in order. */
  function JoinVerses(verses: seq<string>): string
  {
    if verses == [] then "" else JoinVerses(verses[..|verses| - 1]) + verses[|verses| - 1] + "\n"
  }

  lemma {:induction false} JoinVersesAppend(a: seq<string>, b: seq<string>)
    ensures JoinVerses(a + b) == JoinVerses(a) + JoinVerses(b)
    decreases |b|
  {
    if b != [] {
      var b' := b[..|b| - 1];
      assert (a + b)[..|a + b| - 1] == a + b';
      assert (a + b)[|a + b| - 1] == b[|b| - 1];
      JoinVersesAppend(a, b');
    } else {
      assert a + b == a;
    }
  }

  /** Joining verses with a newline after each one is joining them with
      newlines and ending with one more. */
  lemma {:induction false} JoinVersesIsJoin(verses: seq<string>)
    requires verses != []
    ensures JoinVerses(verses) == Join(verses, "\n") + "\n"
  {
    if |verses| > 1 {
      JoinVersesIsJoin(verses[1..]);
      JoinVersesAppend([verses[0]], verses[1..]);
      assert [verses[0]] + verses[1..] == verses;
      assert JoinVerses([verses[0]]) == verses[0] + "\n";
    }
  }

  /** The text of lyrics page `page`: empty past the last verse, otherwise
      the page's verses joined with newlines and a final newline. */
  function LyricsPage(text: string, page: int, pageSize: int): (r: string)
    requires page >= 1 || pageSize <= 0
    ensures Window(Verses(text), page, pageSize) == [] ==> r == ""
    ensures Window(Verses(text), page, pageSize) != [] ==>
      r == Join(Window(Verses(text), page, pageSize), "\n") + "\n"
  {
    var w := Window(Verses(text), page, pageSize);
    if w != [] then JoinVersesIsJoin(w); JoinVerses(w) else JoinVerses(w)
  }

  /** The texts of lyrics pages 1 to n, one after the other. */
  function LyricsPagesUpTo(text: string, pageSize: int, n: nat): string
    requires pageSize >= 1
  {
    if n == 0 then "" else LyricsPagesUpTo(text, pageSize, n - 1) + LyricsPage(text, n, pageSize)
  }

  /** Reading the lyrics page by page, as the sequence of texts GetLyrics
      returns, until the last verse gives back the whole stored text, each
      literal separator turned into a real newline and one more newline at
      the end. */
  lemma {:induction false} AllLyricsPages(text: string, pageSize: int, n: nat)
    requires pageSize >= 1 && n * pageSize >= |Verses(text)|
    ensures LyricsPagesUpTo(text, pageSize, n) == ReplaceAll(text, VerseSeparator, "\n") + "\n"
  {
    var v := Verses(text);
    LyricsPagesAreVerses(text, pageSize, n);
    PagesTile(v, pageSize, n);
    assert v[..|v|] == v;
    JoinVersesIsJoin(v);
  }

  /** The first n lyrics pages are the verses of the first n windows, each
      followed by a newline. */
  lemma {:induction false} LyricsPagesAreVerses(text: string, pageSize: int, n: nat)
    requires pageSize >= 1
    ensures LyricsPagesUpTo(text, pageSize, n) == JoinVerses(PagesUpTo(Verses(text), pageSize, n))
  {
    if n > 0 {
      LyricsPagesAreVerses(text, pageSize, n - 1);
      JoinVersesAppend(PagesUpTo(Verses(text), pageSize, n - 1), Window(Verses(text), n, pageSize));
    }
  }

  /** The row has this group and song name. */
  predicate Named(s: Song, group: string, song: string)
  {
    s.group == group && s.song == song
  }

  /** The first row with this group and song name: what
      `Where(...).First` finds in a table kept in primary-key order. */
  function FirstMatch(table: seq<Song>, group: string, song: string): (r: Option<Song>)
    ensures r.None? <==> forall i :: 0 <= i < |table| ==> !Named(table[i], group, song)
    ensures r.Some? ==> Named(r.value, group, song)
    ensures r.Some? ==>
      exists i :: 0 <= i < |table| && table[i] == r.value && (forall j :: 0 <= j < i ==> !Named(table[j], group, song))
  {
    if table == [] then None
    else if Named(table[0], group, song) then
      // Index 0 is the witness: the first row, and a match.
      assert Named(table[0], group, song) && table[0] == table[0];
      Some(table[0])
    else
      var r := FirstMatch(table[1..], group, song);
      assert forall i :: 0 < i < |table| ==> table[i] == table[1..][i - 1];
      r
  }

  /** The verses between `lo` and `hi`, each followed by a newline, in the
      order the lyrics loop appends them. */
  lemma JoinVersesStep(verses: seq<string>, lo: int, i: int)
    requires 0 <= lo <= i < |verses|
    ensures JoinVerses(verses[lo..i + 1]) == JoinVerses(verses[lo..i]) + verses[i] + "\n"
  {
    assert verses[lo..i + 1][..i - lo] == verses[lo..i];
  }

  /** The lyrics loop: verses `start` up to `end`, each followed by a
      newline; nothing when the range is empty. */
  method AppendVerses(verses: seq<string>, start: int, end: int) returns (text: string)
    requires start < end ==> 0 <= start && end <= |verses|
    ensures text == if start < end then JoinVerses(verses[start..end]) else ""
  {
    text := "";
    var i := start;
    while i < end
      invariant start < end ==> 0 <= start <= i <= end
      invariant start < end ==> text == JoinVerses(verses[start..i])
      invariant start >= end ==> i == start && text == ""
    {
      JoinVersesStep(verses, start, i);
      text := text + verses[i];
      text := text + "\n";
      i := i + 1;
    }
  }

  /** Repository.GetLyrics: the first song with this group and song name,
      its text replaced by one page of its verses, in an envelope whose total
      is the number of verses of the whole text. */
  method GetLyrics(table: seq<Song>, group: string, song: string, page: int, pageSize: int,
                   lookupFails: bool)
    returns (r: Result<Pages<Song>, DbError>)
    requires page >= 1 || pageSize <= 0
    ensures lookupFails ==> r == Failure(QueryFailed)
    ensures !lookupFails && FirstMatch(table, group, song).None? ==> r == Failure(RecordNotFound)
    ensures !lookupFails && FirstMatch(table, group, song).Some? ==>
      var s := FirstMatch(table, group, song).value;
      r == Success(Pages(page, pageSize, |Verses(s.text)|, s.(text := LyricsPage(s.text, page, pageSize))))
  {
    if lookupFails {
      return Failure(QueryFailed);
    }
    var found := FirstMatch(table, group, song);
    if found.None? {
      return Failure(RecordNotFound);
    }
    var s := found.value;
    var allVerses := Split(s.text, VerseSeparator);
    var total := |allVerses|;
    var start := (page - 1) * pageSize;
    var end := start + pageSize;
    if end > total {
      end := total;
    }
    var paginatedLyrics := AppendVerses(allVerses, start, end);
    WindowSlice(allVerses, page, pageSize, start, end);
    s := s.(text := paginatedLyrics);
    return Success(Pages(page, pageSize, total, s));
  }
}
