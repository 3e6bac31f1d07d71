/** The lyrics scraper of the top-level main.go: the clean-up pipeline
    applied to scraped HTML and the extraction of the lyrics section that
    lies between two HTML comment markers. */
module LyricsScraper {
  import opened Wrappers
  import opened GoStrings

  /** The comment that precedes the lyrics on a lyrics page. */
  const UsageMarker: string :=
    UsageMarker1 + UsageMarker2 + UsageMarker3 + UsageMarker4 + UsageMarker5

  /** The usage marker in five pieces, so that its characters can be
      reasoned about piece by piece. */
  const UsageMarker1: string := "<!-- Usage of azlyrics.com "
  const UsageMarker2: string := "content by any third-party "
  const UsageMarker3: string := "lyrics provider is prohibited "
  const UsageMarker4: string := "by our licensing agreement. "
  const UsageMarker5: string := "Sorry about that. -->"

  /** The comment that follows the lyrics on a lyrics page. */
  const BannerMarker: string := "<!-- MxM banner -->"

  /** The HTML fragments the clean-up removes, in the order it removes them,
      and the entity it decodes last. */
  const LineBreak: string := "<br/>"
  const DivClose: string := "</div>"
  const ItalicOpen: string := "<i>"
  const ItalicClose: string := "</i>"
  const ApostropheEntity: string := "&#39;"

  /** cleanUpLyrics: remove four tags, decode the apostrophe entity, then
      trim surrounding white space. */
  function CleanUpLyrics(lyrics: string): (r: string)
    ensures r == [] || (!IsSpace(r[0]) && !IsSpace(r[|r| - 1]))
    ensures !Occurs(r, ApostropheEntity)
    ensures |r| <= |lyrics|
  {
    var s1 := ReplaceAll(lyrics, LineBreak, "");
    var s2 := ReplaceAll(s1, DivClose, "");
    var s3 := ReplaceAll(s2, ItalicOpen, "");
    var s4 := ReplaceAll(s3, ItalicClose, "");
    var s5 := ReplaceAll(s4, ApostropheEntity, "'");
    var r := TrimSpace(s5);
    ReplaceAllRemoves(s4, ApostropheEntity, '\'');
    TrimSpaceKeepsAbsence(s5, ApostropheEntity);
    r
  }

  /** On text that holds none of the five patterns the clean-up only trims
      white space, so text without surrounding white space comes out
      unchanged. */
  lemma CleanUpIdentity(lyrics: string)
    requires !Occurs(lyrics, LineBreak) && !Occurs(lyrics, DivClose)
    requires !Occurs(lyrics, ItalicOpen) && !Occurs(lyrics, ItalicClose)
    requires !Occurs(lyrics, ApostropheEntity)
    ensures CleanUpLyrics(lyrics) == TrimSpace(lyrics)
    ensures lyrics == [] || (!IsSpace(lyrics[0]) && !IsSpace(lyrics[|lyrics| - 1])) ==>
      CleanUpLyrics(lyrics) == lyrics
  {
    var s1 := ReplaceAll(lyrics, LineBreak, "");
    assert s1 == lyrics;
    var s2 := ReplaceAll(s1, DivClose, "");
    assert s2 == lyrics;
    var s3 := ReplaceAll(s2, ItalicOpen, "");
    assert s3 == lyrics;
    var s4 := ReplaceAll(s3, ItalicClose, "");
    assert s4 == lyrics;
    var s5 := ReplaceAll(s4, ApostropheEntity, "'");
    assert s5 == lyrics;
    if lyrics == [] || (!IsSpace(lyrics[0]) && !IsSpace(lyrics[|lyrics| - 1])) {
      TrimSpaceClean(lyrics);
    }
  }

  /** A marker begins with '<' and holds no other '<'. */
  predicate SoleLeadingAngle(m: string)
  {
    |m| > 0 && m[0] == '<' && '<' !in m[1..]
  }

  /** Appending text without '<' keeps a sole leading '<' sole. */
  lemma SoleLeadingAngleAppend(a: string, b: string)
    requires SoleLeadingAngle(a) && '<' !in b
    ensures SoleLeadingAngle(a + b)
  {
    assert (a + b)[1..] == a[1..] + b;
  }

  lemma UsageMarker1SoleLeadingAngle() ensures SoleLeadingAngle(UsageMarker1) {}
  lemma UsageMarker2NoAngle() ensures '<' !in UsageMarker2 {}
  lemma UsageMarker3NoAngle() ensures '<' !in UsageMarker3 {}
  lemma UsageMarker4NoAngle() ensures '<' !in UsageMarker4 {}
  lemma UsageMarker5NoAngle() ensures '<' !in UsageMarker5 {}

  lemma UsageMarkerSoleLeadingAngle()
    ensures SoleLeadingAngle(UsageMarker)
  {
    UsageMarker1SoleLeadingAngle();
    UsageMarker2NoAngle();
    UsageMarker3NoAngle();
    UsageMarker4NoAngle();
    UsageMarker5NoAngle();
    SoleLeadingAngleAppend(UsageMarker1, UsageMarker2);
    SoleLeadingAngleAppend(UsageMarker1 + UsageMarker2, UsageMarker3);
    SoleLeadingAngleAppend(UsageMarker1 + UsageMarker2 + UsageMarker3, UsageMarker4);
    SoleLeadingAngleAppend(UsageMarker1 + UsageMarker2 + UsageMarker3 + UsageMarker4, UsageMarker5);
  }

  lemma BannerMarkerSoleLeadingAngle()
    ensures SoleLeadingAngle(BannerMarker)
  {
  }

  /** An occurrence of a marker with a sole leading '<' holds '<' only at its
      first position. */
  lemma AngleOnlyAtStart(html: string, p: string, i: int)
    requires SoleLeadingAngle(p) && OccursAt(html, p, i)
    ensures html[i] == '<'
    ensures forall k :: i < k < i + |p| ==> html[k] != '<'
  {
    assert html[i] == html[i..i + |p|][0];
    forall k | i < k < i + |p| ensures html[k] != '<' {
      assert html[k] == html[i..i + |p|][k - i] == p[1..][k - i - 1];
    }
  }

  /** When a closing marker starts after an opening marker it also starts
      after the opening marker ends: two markers with a sole leading '<'
      cannot overlap. */
  lemma MarkersDoNotOverlap(html: string, open: string, close: string, i: int, j: int)
    requires SoleLeadingAngle(open) && SoleLeadingAngle(close)
    requires OccursAt(html, open, i) && OccursAt(html, close, j) && i < j
    ensures i + |open| <= j
  {
    AngleOnlyAtStart(html, open, i);
    AngleOnlyAtStart(html, close, j);
  }

  /** The text between the first `open` marker and the first `close`
      marker, present only when both are found and `close` starts after
      `open`: it starts where `open` ends and ends where `close` starts. */
  function Section(html: string, open: string, close: string): (r: Option<string>)
    requires SoleLeadingAngle(open) && SoleLeadingAngle(close)
    ensures r.Some? <==>
      Occurs(html, open) && Occurs(html, close) && Index(html, close) > Index(html, open)
    ensures r.Some? ==>
      OccursAt(html, r.value, Index(html, open) + |open|)
      && Index(html, open) + |open| + |r.value| == Index(html, close)
  {
    var start := Index(html, open);
    var end := Index(html, close);
    if start != -1 && end != -1 && end > start then
      MarkersDoNotOverlap(html, open, close, start, end);
      Some(html[start + |open|..end])
    else
      None
  }

  /** The HTML callback of fetchLyrics on one element: the cleaned-up text
      between the usage marker and the banner marker, if both are there in
      that order. */
  function ExtractLyrics(html: string): Option<string>
  {
    UsageMarkerSoleLeadingAngle();
    BannerMarkerSoleLeadingAngle();
    match Section(html, UsageMarker, BannerMarker)
    case Some(s) => Some(CleanUpLyrics(s))
    case None => None
  }

  /** The extraction succeeds exactly when both markers are found and the
      banner marker is found after the usage marker. */
  lemma ExtractLyricsCondition(html: string)
    ensures ExtractLyrics(html).Some? <==>
      Index(html, UsageMarker) != -1 && Index(html, BannerMarker) != -1
      && Index(html, BannerMarker) > Index(html, UsageMarker)
  {
    UsageMarkerSoleLeadingAngle();
    BannerMarkerSoleLeadingAngle();
  }

  /** A section is the slice from the end of the opening marker to the
      start of the closing one. */
  lemma SectionSlice(html: string, open: string, close: string)
    requires SoleLeadingAngle(open) && SoleLeadingAngle(close)
    requires Section(html, open, close).Some?
    ensures
      var start := Index(html, open) + |open|;
      var end := Index(html, close);
      0 <= start <= end <= |html| && Section(html, open, close).value == html[start..end]
  {
  }

  /** The first occurrence of a pattern that begins with a character it does
      not repeat is found at the start of `b` when `a` holds none. */
  lemma IndexAfterPrefix(a: string, b: string, p: string)
    requires SoleLeadingAngle(p) && p <= b && !Occurs(a, p)
    ensures Index(a + b, p) == |a|
  {
    var s := a + b;
    assert OccursAt(s, p, |a|) by { assert s[|a|..|a| + |p|] == b[..|p|]; }
    var r := Index(s, p);
    AngleOnlyAtStart(s, p, |a|);
    AngleOnlyAtStart(s, p, r);
    assert r + |p| <= |a| ==> OccursAt(a, p, r) by {
      if r + |p| <= |a| { assert s[r..r + |p|] == a[r..r + |p|]; }
    }
  }

  /** Section round trip: a document laid out as prefix, opening marker,
      body, closing marker, suffix yields exactly the body, when the prefix
      holds no opening marker and no closing marker comes before the body's
      end. */
  lemma SectionBetweenMarkers(prefix: string, open: string, body: string, close: string, suffix: string)
    requires SoleLeadingAngle(open) && SoleLeadingAngle(close)
    requires !Occurs(prefix, open)
    requires !Occurs(prefix + open + body, close)
    ensures Section(prefix + open + body + close + suffix, open, close) == Some(body)
  {
    var tail := open + body + close + suffix;
    var head := prefix + open + body;
    var rest := close + suffix;
    var html := head + rest;
    assert html == prefix + open + body + close + suffix;
    assert html == prefix + tail;
    assert open <= tail by { assert tail[..|open|] == open; }
    assert close <= rest by { assert rest[..|close|] == close; }
    IndexAfterPrefix(prefix, tail, open);
    IndexAfterPrefix(head, rest, close);
    assert html[|prefix| + |open|..|head|] == body;
  }

  /** Extraction round trip for the lyrics page: the usage marker, the
      lyrics and the banner marker in that order give back the cleaned-up
      lyrics. */
  lemma ExtractBetweenMarkers(prefix: string, body: string, suffix: string)
    requires !Occurs(prefix, UsageMarker)
    requires !Occurs(prefix + UsageMarker + body, BannerMarker)
    ensures ExtractLyrics(prefix + UsageMarker + body + BannerMarker + suffix) == Some(CleanUpLyrics(body))
  {
    UsageMarkerSoleLeadingAngle();
    BannerMarkerSoleLeadingAngle();
    SectionBetweenMarkers(prefix, UsageMarker, body, BannerMarker, suffix);
  }

  /** One run of the HTML callback, given what its extraction gave: the
      captured lyrics are overwritten on success and kept otherwise. */
  function Overwrite(lyrics: string, outcome: Option<string>): (r: string)
    ensures outcome.Some? ==> outcome == Some(r)
    ensures outcome.None? ==> r == lyrics
  {
    match outcome
    case Some(t) => t
    case None => lyrics
  }

  /** The captured lyrics after the callback has run once per outcome, in
      order, starting from the empty string. */
  function Captured(outcomes: seq<Option<string>>): string
  {
    if outcomes == [] then "" else Overwrite(Captured(outcomes[..|outcomes| - 1]), outcomes[|outcomes| - 1])
  }

  /** When no extraction succeeds the captured lyrics stay empty. */
  lemma {:induction false} CapturedEmpty(outcomes: seq<Option<string>>)
    requires forall k :: 0 <= k < |outcomes| ==> outcomes[k].None?
    ensures Captured(outcomes) == ""
  {
    if outcomes != [] {
      var n := |outcomes| - 1;
      assert forall k :: 0 <= k < n ==> outcomes[..n][k] == outcomes[k];
      CapturedEmpty(outcomes[..n]);
    }
  }

  /** The captured lyrics are those of the last successful extraction:
      later failures never overwrite it. */
  lemma {:induction false} CapturedIsLast(outcomes: seq<Option<string>>, k: int)
    requires 0 <= k < |outcomes| && outcomes[k].Some?
    requires forall m :: k < m < |outcomes| ==> outcomes[m].None?
    ensures outcomes[k] == Some(Captured(outcomes))
  {
    var n := |outcomes| - 1;
    if k < n {
      assert forall m :: 0 <= m < n ==> outcomes[..n][m] == outcomes[m];
      CapturedIsLast(outcomes[..n], k);
    }
  }

  /** The captured lyrics are always the initial empty string or one of the
      successful extractions. */
  lemma {:induction false} CapturedFromSome(outcomes: seq<Option<string>>)
    ensures Captured(outcomes) == "" || exists k | 0 <= k < |outcomes| :: outcomes[k] == Some(Captured(outcomes))
  {
    if outcomes != [] {
      var n := |outcomes| - 1;
      CapturedFromSome(outcomes[..n]);
      assert forall k :: 0 <= k < n ==> outcomes[..n][k] == outcomes[k];
    }
  }

  /** The extraction outcome of each element, in document order. */
  function Outcomes(divs: seq<string>): (r: seq<Option<string>>)
    ensures |r| == |divs|
    ensures forall k :: 0 <= k < |divs| ==> r[k] == ExtractLyrics(divs[k])
  {
    seq(|divs|, k requires 0 <= k < |divs| => ExtractLyrics(divs[k]))
  }

  /** The lyrics left in the scraper's captured variable after the callback
      has run over `divs` in document order. */
  function Scraped(divs: seq<string>): string
  {
    Captured(Outcomes(divs))
  }

  /** The next element's run of the callback extends the scraped lyrics. */
  lemma ScrapedSnoc(divs: seq<string>, i: int)
    requires 0 <= i < |divs|
    ensures Scraped(divs[..i + 1]) == Overwrite(Scraped(divs[..i]), ExtractLyrics(divs[i]))
  {
    var o := Outcomes(divs[..i + 1]);
    assert o[..i] == Outcomes(divs[..i]);
  }

  /** The captured lyrics are always `""` or the extraction of one of the
      elements: nothing else is ever stored. */
  lemma ScrapedFromSomeElement(divs: seq<string>)
    ensures Scraped(divs) == "" || exists k | 0 <= k < |divs| :: ExtractLyrics(divs[k]) == Some(Scraped(divs))
  {
    CapturedFromSome(Outcomes(divs));
  }

  /** When no element yields lyrics the scraped lyrics are empty. */
  lemma ScrapedEmpty(divs: seq<string>)
    requires forall k :: 0 <= k < |divs| ==> ExtractLyrics(divs[k]).None?
    ensures Scraped(divs) == ""
  {
    CapturedEmpty(Outcomes(divs));
  }

  /** The scraped lyrics are the extraction of the last element whose
      extraction succeeded. */
  lemma ScrapedIsLastExtraction(divs: seq<string>, k: int)
    requires 0 <= k < |divs| && ExtractLyrics(divs[k]).Some?
    requires forall m :: k < m < |divs| ==> ExtractLyrics(divs[m]).None?
    ensures ExtractLyrics(divs[k]) == Some(Scraped(divs))
  {
    CapturedIsLast(Outcomes(divs), k);
  }

  datatype FetchError = VisitFailed

  /** fetchLyrics after the page has been fetched: the HTML callback runs
      once per element of `divs`, in order, and overwrites the captured
      lyrics whenever an extraction succeeds; a failed visit returns the
      error instead of the lyrics. */
  method FetchLyrics(divs: seq<string>, visitFailed: bool) returns (r: Result<string, FetchError>)
    ensures visitFailed ==> r == Failure(VisitFailed)
    ensures !visitFailed ==> r == Success(Scraped(divs))
  {
    var lyrics := "";
    var i := 0;
    while i < |divs|
      invariant 0 <= i <= |divs|
      invariant lyrics == Scraped(divs[..i])
    {
      ScrapedSnoc(divs, i);
      lyrics := Overwrite(lyrics, ExtractLyrics(divs[i]));
      i := i + 1;
    }
    assert divs[..i] == divs;
    if visitFailed {
      return Failure(VisitFailed);
    }
    return Success(lyrics);
  }
}
