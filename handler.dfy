/** The HTTP handlers of the songs resource, with HTTP, JSON and logging
    abstracted away: a request is its query parameters (and, where used, its
    parsed path identifier and decoded body), a response is a status code
    and an optional body, and what the repository answers is a parameter
    where the repository call itself is not part of this model. */
module SongHandler {
  import opened Wrappers
  import opened SongModel
  import opened Pagination
  import opened SongRepository

  const StatusOK := 200
  const StatusBadRequest := 400
  const StatusNotFound := 404
  const StatusUnprocessableEntity := 422
  const StatusInternalServerError := 500

  /** A response: its status and, on success, the value encoded as its
      body. Error messages are not modelled. */
  datatype Response<T> = Response(status: int, body: Option<T>)

  /** The query parameters of a request URL, each name with its values in
      order. */
  type Query = map<string, seq<string>>

  /** url.Values.Get: the first value of a parameter, or the empty string
      when it is absent. */
  function QueryGet(q: Query, name: string): (v: string)
    ensures name !in q || q[name] == [] ==> v == ""
    ensures name in q && q[name] != [] ==> v == q[name][0]
  {
    if name in q && |q[name]| > 0 then q[name][0] else ""
  }

  /** The query parameter that filters each column. */
  function ParamOf(column: string): string
    requires column in Columns
  {
    if column == "group_name" then "group"
    else if column == "song_name" then "song"
    else if column == "text" then "text"
    else if column == "release_date" then "releaseDate"
    else "link"
  }

  /** The filters of a list request: every column whose query parameter is
      present and non-empty, mapped to that parameter's value. */
  function FiltersOf(q: Query): (filters: map<string, string>)
    ensures filters.Keys <= Columns
    ensures forall c :: c in filters ==> filters[c] != ""
  {
    map c | c in Columns && QueryGet(q, ParamOf(c)) != "" :: QueryGet(q, ParamOf(c))
  }

  /** One rename of the filter map: `column` is present exactly when
      parameter `param` is non-empty, and then holds its value. */
  predicate Renamed(q: Query, filters: map<string, string>, param: string, column: string)
  {
    && (column in filters <==> QueryGet(q, param) != "")
    && (column in filters ==> filters[column] == QueryGet(q, param))
  }

  /** The filter map holds the five renames. */
  lemma FiltersOfRenames(q: Query)
    ensures Renamed(q, FiltersOf(q), "group", "group_name")
    ensures Renamed(q, FiltersOf(q), "song", "song_name")
    ensures Renamed(q, FiltersOf(q), "text", "text")
    ensures Renamed(q, FiltersOf(q), "releaseDate", "release_date")
    ensures Renamed(q, FiltersOf(q), "link", "link")
  {
  }

  /** A filter map that renames `param` to `column` agrees with FiltersOf
      on `column`. */
  lemma RenamedAgrees(q: Query, filters: map<string, string>, param: string, column: string)
    requires column in Columns && ParamOf(column) == param
    requires Renamed(q, filters, param, column)
    ensures column in filters <==> column in FiltersOf(q)
    ensures column in filters ==> filters[column] == FiltersOf(q)[column]
  {
  }

  /** The five renames determine the filter map: it is FiltersOf. */
  lemma RenamesDetermineFilters(q: Query, filters: map<string, string>)
    requires Renamed(q, filters, "group", "group_name")
    requires Renamed(q, filters, "song", "song_name")
    requires Renamed(q, filters, "text", "text")
    requires Renamed(q, filters, "releaseDate", "release_date")
    requires Renamed(q, filters, "link", "link")
    requires filters.Keys <= Columns
    ensures filters == FiltersOf(q)
  {
    RenamedAgrees(q, filters, "group", "group_name");
    RenamedAgrees(q, filters, "song", "song_name");
    RenamedAgrees(q, filters, "text", "text");
    RenamedAgrees(q, filters, "releaseDate", "release_date");
    RenamedAgrees(q, filters, "link", "link");
    var f := FiltersOf(q);
    forall c | c in filters || c in f
      ensures c in filters && c in f && filters[c] == f[c]
    {
      ColumnCases(c);
    }
    assert filters.Keys == f.Keys;
  }

  /** The five column names. */
  lemma ColumnCases(c: string)
    requires c in Columns
    ensures c == "group_name" || c == "song_name" || c == "text" || c == "release_date" || c == "link"
  {
  }

  /** The filter construction of List: a conditional insert per query
      parameter. */
  method BuildFilters(q: Query) returns (filters: map<string, string>)
    ensures Renamed(q, filters, "group", "group_name")
    ensures Renamed(q, filters, "song", "song_name")
    ensures Renamed(q, filters, "text", "text")
    ensures Renamed(q, filters, "releaseDate", "release_date")
    ensures Renamed(q, filters, "link", "link")
    ensures filters.Keys <= Columns
  {
    filters := map[];
    var group := QueryGet(q, "group");
    if group != "" {
      filters := filters["group_name" := group];
    }
    var song := QueryGet(q, "song");
    if song != "" {
      filters := filters["song_name" := song];
    }
    var text := QueryGet(q, "text");
    if text != "" {
      filters := filters["text" := text];
    }
    var releaseDate := QueryGet(q, "releaseDate");
    if releaseDate != "" {
      filters := filters["release_date" := releaseDate];
    }
    var link := QueryGet(q, "link");
    if link != "" {
      filters := filters["link" := link];
    }
  }

  /** API.List: the page of songs selected by the request's filters, with
      the page number and size the parameter resolver produced, or a server
      error when the repository fails. */
  method List(table: seq<Song>, q: Query, params: PageParams, countFails: bool, findFails: bool)
    returns (resp: Response<Pages<seq<Song>>>)
    requires params.page >= 1 && params.perPage >= 1
    ensures countFails || findFails ==> resp == Response(StatusInternalServerError, None)
    ensures !countFails && !findFails ==>
      var selected := Filtered(table, FiltersOf(q));
      resp == Response(StatusOK, Some(Pages(params.page, params.perPage, |selected|,
                                            Window(selected, params.page, params.perPage))))
  {
    var filters := BuildFilters(q);
    RenamesDetermineFilters(q, filters);
    var page := SongRepository.List(table, params.page, params.perPage, filters, countFails, findFails);
    if page.Failure? {
      return Response(StatusInternalServerError, None);
    }
    return Response(StatusOK, Some(page.value));
  }

  /** The status of a failed lookup: not found, or a server error. */
  function LookupStatus(e: DbError): (status: int)
    ensures status == StatusNotFound <==> e == RecordNotFound
    ensures status == StatusNotFound || status == StatusInternalServerError
  {
    if e == RecordNotFound then StatusNotFound else StatusInternalServerError
  }

  /** API.Info: one page of four verses of the lyrics of the song named by
      the `group` and `song` parameters, or a bad request when either is
      empty, before the repository is asked anything. */
  method Info(table: seq<Song>, q: Query, params: PageParams, lookupFails: bool)
    returns (resp: Response<Pages<Song>>)
    requires params.page >= 1
    ensures QueryGet(q, "group") == "" || QueryGet(q, "song") == "" ==>
      resp == Response(StatusBadRequest, None)
    ensures QueryGet(q, "group") != "" && QueryGet(q, "song") != "" ==>
      var found := FirstMatch(table, QueryGet(q, "group"), QueryGet(q, "song"));
      && (lookupFails ==> resp == Response(StatusInternalServerError, None))
      && (!lookupFails && found.None? ==> resp == Response(StatusNotFound, None))
      && (!lookupFails && found.Some? ==>
            var s := found.value;
            resp == Response(StatusOK, Some(Pages(params.page, 4, |Verses(s.text)|,
                                                  s.(text := LyricsPage(s.text, params.page, 4))))))
  {
    var group := QueryGet(q, "group");
    var song := QueryGet(q, "song");
    if group == "" || song == "" {
      return Response(StatusBadRequest, None);
    }
    var pages := params;
    pages := pages.(perPage := 4);
    var dto := GetLyrics(table, group, song, pages.page, pages.perPage, lookupFails);
    if dto.Failure? {
      return Response(LookupStatus(dto.error), None);
    }
    return Response(StatusOK, Some(dto.value));
  }

  /** API.Read: a bad request for an unparsable identifier, otherwise the
      song the repository found, not found, or a server error. */
  method Read(id: Option<Uuid>, lookup: Result<Song, DbError>) returns (resp: Response<Song>)
    ensures id.None? ==> resp == Response(StatusBadRequest, None)
    ensures id.Some? && lookup.Success? ==> resp == Response(StatusOK, Some(lookup.value))
    ensures id.Some? && lookup.Failure? ==>
      resp.body.None? && (resp.status == StatusNotFound <==> lookup.error == RecordNotFound)
      && (resp.status == StatusNotFound || resp.status == StatusInternalServerError)
  {
    if id.None? {
      return Response(StatusBadRequest, None);
    }
    if lookup.Failure? {
      return Response(LookupStatus(lookup.error), None);
    }
    return Response(StatusOK, Some(lookup.value));
  }

  /** The status after an update or delete: a server error when the
      repository fails, not found when no row was affected, success
      otherwise. */
  function AffectedStatus(outcome: Result<int, DbError>): (status: int)
    ensures outcome.Failure? <==> status == StatusInternalServerError
    ensures outcome.Success? && outcome.value == 0 <==> status == StatusNotFound
    ensures outcome.Success? && outcome.value != 0 <==> status == StatusOK
  {
    match outcome
    case Failure(_) => StatusInternalServerError
    case Success(rows) => if rows == 0 then StatusNotFound else StatusOK
  }

  /** API.Update: checks the path identifier, the decoded body and its
      validation in that order; the record handed to the repository is the
      body with its identifier replaced by the path's; the repository's
      answer is turned into a status. `sent` is that record, or None when
      the repository is not called. */
  method Update(pathId: Option<Uuid>, body: Option<Song>, valid: bool, outcome: Result<int, DbError>)
    returns (resp: Response<()>, sent: Option<Song>)
    ensures pathId.None? || body.None? ==> resp == Response(StatusBadRequest, None) && sent.None?
    ensures pathId.Some? && body.Some? && !valid ==>
      resp == Response(StatusUnprocessableEntity, None) && sent.None?
    ensures pathId.Some? && body.Some? && valid ==>
      && sent.Some?
      && sent.value.id == pathId.value
      && sent.value.(id := body.value.id) == body.value
      && resp == Response(AffectedStatus(outcome), None)
  {
    if pathId.None? {
      return Response(StatusBadRequest, None), None;
    }
    if body.None? {
      return Response(StatusBadRequest, None), None;
    }
    if !valid {
      return Response(StatusUnprocessableEntity, None), None;
    }
    var song := body.value;
    song := song.(id := pathId.value);
    sent := Some(song);
    resp := Response(AffectedStatus(outcome), None);
  }

  /** API.Delete: a bad request for an unparsable identifier, otherwise the
      repository's answer turned into a status. */
  method Delete(pathId: Option<Uuid>, outcome: Result<int, DbError>) returns (resp: Response<()>)
    ensures pathId.None? ==> resp == Response(StatusBadRequest, None)
    ensures pathId.Some? ==> resp == Response(AffectedStatus(outcome), None)
  {
    if pathId.None? {
      return Response(StatusBadRequest, None);
    }
    return Response(AffectedStatus(outcome), None);
  }
}
