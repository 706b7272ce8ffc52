/**
 * `songService` (internal/services/song_service.go): verse pagination of a
 * song's text, and the thin operations that hand records and errors between
 * the HTTP handlers and the repository.
 */
module SongService {
  import opened Wrappers
  import opened Models
  import opened Verses
  import opened SongRepository

  function Min(a: int, b: int): int {
    if a <= b then a else b
  }

  // ----- Verse pagination -----

  /**
   * The inputs on which the paging step does not panic: an offset at or past
   * the last verse returns before the slice whatever the limit, and
   * otherwise Go's slice `verses[start:end]` needs `0 <= start <= end`.
   */
  predicate PageDefined(text: string, limit: int, offset: int) {
    offset >= VerseCount(text) || (0 <= offset && 0 <= limit)
  }

  /**
   * `GetSongText`'s paging step (lines 62-72) on a song's text: split the text
   * into verses, clamp the window `[offset, offset + limit)` to the verse count
   * and join the verses in it. A window starting past the last verse is an
   * empty page, not an error. The arithmetic is unbounded here (see
   * `PaginateAsWritten` for Go's 64-bit `int`). A page of at least one verse
   * splits again into exactly the verses of the clamped window.
   */
  function Paginate(text: string, limit: int, offset: int): (page: string)
    requires PageDefined(text, limit, offset)
    ensures offset < VerseCount(text) && limit > 0 ==>
      Split(page) == Split(text)[offset..Min(offset + limit, VerseCount(text))]
  {
    var verses := Split(text);
    var start := offset;
    var end := offset + limit;
    if start >= |verses| then ""
    else
      var end := if end > |verses| then |verses| else end;
      var page := Join(verses[start..end]);
      if start < end then
        WellFormedSlice(verses, start, end);
        SplitJoin(verses[start..end]);
        page
      else
        page
  }

  /** The page past the last verse is empty, for every limit. */
  lemma PageBeyondEnd(text: string, limit: int, offset: int)
    requires offset >= VerseCount(text)
    ensures Paginate(text, limit, offset) == ""
  {
  }

  /**
   * The definition unfolded for an offset in range: the page is the join of
   * the verses from `offset` up to `offset + limit` clamped to the verse count.
   */
  lemma PageIsClampedSlice(text: string, limit: int, offset: int)
    requires limit >= 0 && 0 <= offset < VerseCount(text)
    ensures var end := Min(offset + limit, VerseCount(text));
      offset <= end <= VerseCount(text) && Paginate(text, limit, offset) == Join(Split(text)[offset..end])
  {
  }

  /** A zero limit gives an empty page even when the offset is in range. */
  lemma ZeroLimitPage(text: string, offset: int)
    requires 0 <= offset < VerseCount(text)
    ensures Paginate(text, 0, offset) == ""
  {
  }

  /**
   * A page of at least one verse consists of exactly the requested verses:
   * splitting it again gives `min(limit, count - offset)` verses, the i-th of
   * which is verse `offset + i` of the text.
   */
  lemma PageSelectsVerses(text: string, limit: int, offset: int)
    requires limit > 0 && 0 <= offset < VerseCount(text)
    ensures var vs, page := Split(text), Split(Paginate(text, limit, offset));
      && |page| == Min(limit, |vs| - offset)
      && forall i :: 0 <= i < |page| ==> page[i] == vs[offset + i]
  {
    var vs := Split(text);
    var end := Min(offset + limit, |vs|);
    var page := Split(Paginate(text, limit, offset));
    assert page == vs[offset..end];
    forall i | 0 <= i < |page| ensures page[i] == vs[offset + i] {
      assert page[i] == vs[offset..end][i];
    }
  }

  /** The full window gives the text back unchanged: Join inverts Split. */
  lemma PageRoundTrip(text: string, limit: int)
    requires limit >= VerseCount(text)
    ensures Paginate(text, limit, 0) == text
  {
    var vs := Split(text);
    assert vs[0..|vs|] == vs;
    JoinSplit(text);
  }

  /** The text before a page: the verses before `offset`, each followed by the delimiter. */
  function Before(vs: seq<string>, offset: nat): string
    requires offset <= |vs|
  {
    if offset == 0 then "" else Join(vs[..offset]) + Delimiter
  }

  /** The text after a page: the verses from `end` on, each preceded by the delimiter. */
  function After(vs: seq<string>, end: nat): string
    requires end <= |vs|
  {
    if end == |vs| then "" else Delimiter + Join(vs[end..])
  }

  /**
   * A page of at least one verse is cut out of the text at verse boundaries:
   * the text is what precedes verse `offset`, then the page, then what
   * follows the last verse of the page.
   */
  lemma PageInText(text: string, limit: int, offset: int)
    requires limit > 0 && 0 <= offset < VerseCount(text)
    ensures var vs := Split(text);
      text == Before(vs, offset) + Paginate(text, limit, offset) + After(vs, Min(offset + limit, |vs|))
  {
    var vs := Split(text);
    var end := Min(offset + limit, |vs|);
    var rest := vs[offset..];
    assert rest[..end - offset] == vs[offset..end];
    assert After(rest, end - offset) == After(vs, end) by {
      assert rest[end - offset..] == vs[end..];
    }
    calc {
      text;
      { JoinSplit(text); }
      Join(vs);
      { JoinFrom(vs, offset); }
      Before(vs, offset) + Join(rest);
      { JoinUpTo(rest, end - offset); }
      Before(vs, offset) + (Join(vs[offset..end]) + After(vs, end));
      { PageIsClampedSlice(text, limit, offset); }
      Before(vs, offset) + (Paginate(text, limit, offset) + After(vs, end));
      Before(vs, offset) + Paginate(text, limit, offset) + After(vs, end);
    }
  }

  /** Joining all verses is joining those before `lo`, the delimiter, and those from `lo` on. */
  lemma JoinFrom(vs: seq<string>, lo: nat)
    requires lo < |vs|
    ensures Join(vs) == Before(vs, lo) + Join(vs[lo..])
  {
    if lo > 0 {
      JoinCut(vs, lo);
    } else {
      assert vs[lo..] == vs;
    }
  }

  /** Joining all verses is joining those before `hi`, then the delimiter and those from `hi` on. */
  lemma JoinUpTo(vs: seq<string>, hi: nat)
    requires 0 < hi <= |vs|
    ensures Join(vs) == Join(vs[..hi]) + After(vs, hi)
  {
    if hi < |vs| {
      JoinCut(vs, hi);
      Assoc(Join(vs[..hi]), Delimiter, Join(vs[hi..]));
    } else {
      assert vs[..hi] == vs;
    }
  }

  /** A text with no blank line is one verse, which every page from offset 0 returns whole. */
  lemma SingleVersePage(text: string, limit: int)
    requires IsVerse(text) && limit > 0
    ensures VerseCount(text) == 1 && Paginate(text, limit, 0) == text
  {
    SingleVerse(text);
  }

  // ----- The test's three-verse song -----

  /** The text `"Verse 1\n\nVerse 2\n\nVerse 3"`. */
  const TestText: string := "Verse 1" + Delimiter + "Verse 2" + Delimiter + "Verse 3"

  /** "Verse " followed by any character but a newline holds no blank line. */
  lemma VerseLabel(d: char)
    requires d != '\n'
    ensures IsVerse("Verse " + [d])
  {
    var s := "Verse " + [d];
    forall i | 0 <= i < |s| ensures !DelimiterAt(s, i) {
      if i < 6 {
        assert s[i] == "Verse "[i];
      }
    }
  }

  lemma TestVersesWellFormed()
    ensures WellFormed(["Verse 1", "Verse 2", "Verse 3"])
  {
    assert "Verse 1" == "Verse " + ['1'] && "Verse 2" == "Verse " + ['2'] && "Verse 3" == "Verse " + ['3'];
    VerseLabel('1');
    VerseLabel('2');
    VerseLabel('3');
  }

  lemma TestTextVerses()
    ensures Split(TestText) == ["Verse 1", "Verse 2", "Verse 3"]
  {
    var vs := ["Verse 1", "Verse 2", "Verse 3"];
    TestVersesWellFormed();
    calc {
      Split(TestText);
      { JoinThree("Verse 1", "Verse 2", "Verse 3"); }
      Split(Join(vs));
      { SplitJoin(vs); }
      vs;
    }
  }

  /** The unit test's case: limit 1 and offset 1 give the second verse. */
  lemma TestTextPage()
    ensures Paginate(TestText, 1, 1) == "Verse 2"
  {
    TestTextVerses();
    var vs := ["Verse 1", "Verse 2", "Verse 3"];
    assert vs[1..2] == ["Verse 2"];
  }

  /** A window wider than the song, from offset 0, gives the whole text. */
  lemma TestTextWholePage()
    ensures Paginate(TestText, 10, 0) == TestText
  {
    TestTextVerses();
    PageRoundTrip(TestText, 10);
  }

  // ----- Go's 64-bit int, as the code is written -----

  const MinInt64: int := -0x8000_0000_0000_0000
  const MaxInt64: int := 0x7fff_ffff_ffff_ffff

  predicate IsInt64(x: int) {
    MinInt64 <= x <= MaxInt64
  }

  /** Two's-complement wrap-around of a Go `int` on a 64-bit platform. */
  function WrapInt64(x: int): (r: int)
    ensures IsInt64(r)
    ensures (r - x) % 0x1_0000_0000_0000_0000 == 0
    ensures IsInt64(x) ==> r == x
  {
    (x - MinInt64) % 0x1_0000_0000_0000_0000 + MinInt64
  }

  /**
   * The paging step exactly as written, on 64-bit `int`s: `offset + limit`
   * wraps around, and the slice `verses[start:end]` panics unless
   * `0 <= start <= end` (`end <= len(verses)` holds after the clamp).
   */
  function PaginateAsWritten(text: string, limit: int, offset: int): (r: Run<string>)
    requires IsInt64(limit) && IsInt64(offset)
  {
    var verses := Split(text);
    var start := offset;
    var end := WrapInt64(offset + limit);
    if start >= |verses| then Returns("")
    else
      var end := if end > |verses| then |verses| else end;
      if 0 <= start <= end then Returns(Join(verses[start..end])) else Panics
  }

  /** Where the sum does not overflow, the code as written computes `Paginate` wherever that is defined. */
  lemma AsWrittenAgrees(text: string, limit: int, offset: int)
    requires IsInt64(limit) && IsInt64(offset) && IsInt64(offset + limit)
    requires PageDefined(text, limit, offset)
    ensures PaginateAsWritten(text, limit, offset) == Returns(Paginate(text, limit, offset))
  {
  }

  /**
   * Where the sum does not overflow, the code as written panics exactly
   * outside the domain of `Paginate`.
   */
  lemma AsWrittenPanicsExactly(text: string, limit: int, offset: int)
    requires IsInt64(limit) && IsInt64(offset) && IsInt64(offset + limit)
    ensures PaginateAsWritten(text, limit, offset).Panics? <==> !PageDefined(text, limit, offset)
  {
  }

  /**
   * An offset inside the text with a limit so large that `offset + limit`
   * passes the largest `int` makes the end index negative, and the slice panics.
   */
  lemma AsWrittenOverflowPanics(text: string, limit: int, offset: int)
    requires 0 <= offset < VerseCount(text) && offset <= MaxInt64 && 0 <= limit <= MaxInt64
    requires offset + limit > MaxInt64
    ensures PaginateAsWritten(text, limit, offset) == Panics
  {
    var y := offset + limit - MinInt64;
    ModOnce(y, 0x1_0000_0000_0000_0000);
    assert WrapInt64(offset + limit) == offset + limit - 0x1_0000_0000_0000_0000;
  }

  lemma ModOnce(y: int, m: int)
    requires 0 < m <= y < 2 * m
    ensures y % m == y - m
  {
  }

  /** The overflow on the test's song: the page "Verse 2\n\nVerse 3" is intended, a panic results. */
  lemma AsWrittenOverflowExample()
    ensures PaginateAsWritten(TestText, MaxInt64, 1) == Panics
    ensures Paginate(TestText, MaxInt64, 1) == "Verse 2\n\nVerse 3"
  {
    TestTextVerses();
    AsWrittenOverflowPanics(TestText, MaxInt64, 1);
    var vs := ["Verse 1", "Verse 2", "Verse 3"];
    assert vs[1..3] == ["Verse 2", "Verse 3"];
    assert ["Verse 2", "Verse 3"][1..] == ["Verse 3"];
  }

  /**
   * Negative values reach the slice unchecked: a negative offset always
   * panics, and so does a negative limit with an offset inside the text.
   */
  lemma AsWrittenNegativePanics(text: string, limit: int, offset: int)
    requires IsInt64(limit) && IsInt64(offset)
    requires offset < 0 || (offset < VerseCount(text) && limit < 0)
    ensures PaginateAsWritten(text, limit, offset) == Panics
  {
  }

  // ----- The service operations over the repository -----

  /** The placeholder text and link `AddSong` stores (lines 36-37). */
  const PlaceholderText: string := "Тестовый текст песни."
  const PlaceholderLink: string := "https://example.com"

  /**
   * The record `AddSong` builds: the given group and title, the clock reading
   * `now` (`time.Now()`), the placeholder text and link, and `ID` left at Go's
   * zero value for the database to assign.
   */
  function NewSong(group: string, title: string, now: Time): (s: Song)
    ensures s.groupName == group && s.songName == title && s.releaseDate == now
    ensures s.text == PlaceholderText && s.link == PlaceholderLink && s.id == 0
  {
    Song(0, group, title, now, PlaceholderText, PlaceholderLink)
  }

  /** `AddSong`: hands the new record to `Create` and returns its error unchanged. */
  function AddSong(repo: Repository, group: string, title: string, now: Time): (r: Outcome)
    ensures r == repo.create(NewSong(group, title, now))
  {
    repo.create(NewSong(group, title, now))
  }

  /** `GetSongs`: the repository's filtered, paginated listing. */
  method GetSongs(repo: Repository, filters: seq<Filter>, limit: int, offset: int)
    returns (songs: Result<seq<Song>>)
    ensures songs == repo.select(FilterQuery(filters), FilterArgs(filters, limit, offset))
  {
    songs := FilterWithPagination(repo.select, filters, limit, offset);
  }

  /**
   * `GetSongText`: Go's `(string, error)` pair. A failed lookup yields `""`
   * and the lookup's error without paginating, whatever the limit and offset;
   * a found song yields its page and no error.
   */
  function GetSongText(repo: Repository, id: string, limit: int, offset: int): (r: (string, Outcome))
    requires repo.getByID(id).Success? ==> PageDefined(repo.getByID(id).value.text, limit, offset)
    ensures repo.getByID(id).Failure? ==> r == ("", Fail(repo.getByID(id).error))
    ensures repo.getByID(id).Success? ==> r == (Paginate(repo.getByID(id).value.text, limit, offset), Pass)
  {
    match repo.getByID(id)
    case Failure(err) => ("", Fail(err))
    case Success(song) => (Paginate(song.text, limit, offset), Pass)
  }

  /** `UpdateSong`: the repository's update, its error unchanged (a missing id is not detected). */
  function UpdateSong(repo: Repository, song: Song): (r: Outcome)
    ensures r == repo.update(song)
  {
    repo.update(song)
  }

  /** `DeleteSong`: the repository's delete, its error unchanged (a missing id is not detected). */
  function DeleteSong(repo: Repository, id: string): (r: Outcome)
    ensures r == repo.delete(id)
  {
    repo.delete(id)
  }

  /** The unit test of `GetSongText`: song "1" holds the three-verse text; limit 1, offset 1. */
  lemma GetSongTextTestCase(repo: Repository, zero: Time)
    requires repo.getByID("1") == Success(Song(1, "", "", zero, TestText, ""))
    ensures GetSongText(repo, "1", 1, 1) == ("Verse 2", Pass)
  {
    TestTextPage();
  }

  /** Any lookup failure reaches the caller as it is, whatever the page requested. */
  lemma GetSongTextPropagatesError(repo: Repository, id: string, limit: int, offset: int, e: Error)
    requires repo.getByID(id) == Failure(e)
    ensures GetSongText(repo, id, limit, offset).1 == Fail(e)
    ensures GetSongText(repo, id, limit, offset).0 == ""
  {
  }
}
