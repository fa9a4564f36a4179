/**
 * What the feed parser hands to the store: a `bozo` flag (the document was
 * malformed) and the feed's metadata and entries, every field of which may be
 * absent. Also the normalisation of one entry into the columns of an article
 * row (models.py:211-228) and the feed metadata defaults (models.py:72-74).
 */
module FeedParsing {
  import opened Wrappers
  import opened Text

  /** The first six fields of a parsed `time.struct_time`: `parsed[:6]`. */
  datatype TimeStruct = TimeStruct(year: int, month: int, day: int, hour: int, minute: int, second: int)

  /** A Python `datetime` whose microseconds are zero. */
  datatype DateTime = DateTime(year: int, month: int, day: int, hour: int, minute: int, second: int)

  /** One entry as the parser reports it; `None` is a key the entry does not have. */
  datatype Entry = Entry(
    id: Option<string>,
    link: Option<string>,
    title: Option<string>,
    description: Option<string>,
    summary: Option<string>,
    author: Option<string>,
    published: Option<string>,
    updated: Option<string>,
    publishedParsed: Option<TimeStruct>,  // None also covers a key holding None
    updatedParsed: Option<TimeStruct>)

  datatype FeedInfo = FeedInfo(
    title: Option<string>,
    description: Option<string>,
    subtitle: Option<string>,
    link: Option<string>,
    updated: Option<string>)

  /** The parse result of one feed URL. */
  datatype Document = Document(bozo: bool, feed: FeedInfo, entries: seq<Entry>)

  /** An entry reduced to the columns an article row stores. */
  datatype ArticleData = ArticleData(
    guid: string,
    title: string,
    link: string,
    description: string,
    author: string,
    published: Option<DateTime>)

  /** The feed columns taken from the document's metadata. */
  datatype FeedMeta = FeedMeta(title: string, description: string, link: string)

  /** `feed_data.bozo and not feed_data.entries`: the one case every caller treats as a failed parse. */
  predicate ParseFailed(doc: Document)
  {
    doc.bozo && |doc.entries| == 0
  }

  predicate IsLeapYear(y: int)
  {
    y % 4 == 0 && (y % 100 != 0 || y % 400 == 0)
  }

  function DaysInMonth(year: int, month: int): (r: int)
    requires 1 <= month <= 12
    ensures 28 <= r <= 31
    ensures r == 29 <==> month == 2 && IsLeapYear(year)
  {
    if month == 2 then (if IsLeapYear(year) then 29 else 28)
    else if month == 4 || month == 6 || month == 9 || month == 11 then 30
    else 31
  }

  /** The arguments Python's `datetime(...)` constructor accepts without raising. */
  predicate ValidDateTime(d: DateTime)
  {
    && 1 <= d.year <= 9999
    && 1 <= d.month <= 12
    && 1 <= d.day <= DaysInMonth(d.year, d.month)
    && 0 <= d.hour <= 23
    && 0 <= d.minute <= 59
    && 0 <= d.second <= 59
  }

  /** `datetime(*parsed[:6])`, with the exception it raises on an impossible date turned into `None`. */
  function ToDateTime(t: TimeStruct): (r: Option<DateTime>)
    ensures r.Some? ==> ValidDateTime(r.value)
    ensures r.Some? ==> r.value.year == t.year && r.value.month == t.month && r.value.day == t.day
    ensures r.Some? ==> r.value.hour == t.hour && r.value.minute == t.minute && r.value.second == t.second
    ensures r.None? <==> !ValidDateTime(DateTime(t.year, t.month, t.day, t.hour, t.minute, t.second))
  {
    var d := DateTime(t.year, t.month, t.day, t.hour, t.minute, t.second);
    if ValidDateTime(d) then Some(d) else None
  }

  /**
   * The `published` column (models.py:218-228): the converted `published_parsed`
   * when that key is present, whether or not it converts; only without it the
   * converted `updated_parsed`; else NULL.
   */
  function PublishedDate(e: Entry): (r: Option<DateTime>)
    ensures r.Some? ==> ValidDateTime(r.value)
    ensures r.Some? ==> (e.publishedParsed.Some? && r == ToDateTime(e.publishedParsed.value)) ||
                        (e.publishedParsed.None? && e.updatedParsed.Some? && r == ToDateTime(e.updatedParsed.value))
    ensures e.publishedParsed.Some? && ToDateTime(e.publishedParsed.value).None? ==> r.None?
    ensures e.publishedParsed.None? && e.updatedParsed.None? ==> r.None?
    ensures r.Some? <==> (e.publishedParsed.Some? && ToDateTime(e.publishedParsed.value).Some?) ||
                         (e.publishedParsed.None? && e.updatedParsed.Some? && ToDateTime(e.updatedParsed.value).Some?)
  {
    if e.publishedParsed.Some? then ToDateTime(e.publishedParsed.value)
    else if e.updatedParsed.Some? then ToDateTime(e.updatedParsed.value)
    else None
  }

  /** `entry.get('id', entry.get('link', ''))`: the identity of an entry within its feed. */
  function GuidOf(e: Entry): string
  {
    e.id.GetOr(e.link.GetOr(""))
  }

  /**
   * One entry's article columns (models.py:211-228). Every column falls back
   * as a chain of `dict.get` defaults does: the first key present wins, even
   * when its value is empty.
   */
  function NormaliseEntry(e: Entry): (r: ArticleData)
    ensures r.guid == FirstPresent([e.id, e.link], "")
    ensures r.title == FirstPresent([e.title], "Untitled")
    ensures r.link == FirstPresent([e.link], "")
    ensures r.description == FirstPresent([e.description, e.summary], "")
    ensures r.author == FirstPresent([e.author], "")
    ensures r.published == PublishedDate(e)
  {
    ArticleData(
      GuidOf(e),
      e.title.GetOr("Untitled"),
      e.link.GetOr(""),
      e.description.GetOr(e.summary.GetOr("")),
      e.author.GetOr(""),
      PublishedDate(e))
  }

  /** Feed title, description and link taken from the metadata (models.py:72-74). */
  function FeedMetadata(info: FeedInfo): (r: FeedMeta)
    ensures r.title == FirstPresent([info.title], "Untitled Feed")
    ensures r.description == FirstPresent([info.description, info.subtitle], "")
    ensures r.link == FirstPresent([info.link], "")
  {
    FeedMeta(info.title.GetOr("Untitled Feed"), info.description.GetOr(info.subtitle.GetOr("")), info.link.GetOr(""))
  }

  /** A key present with an empty value wins over the fallback: an entry with `id: ""` keeps the empty guid. */
  lemma EmptyIdIsKept(e: Entry)
    requires e.id == Some("") && e.link.Some? && e.link.value != ""
    ensures NormaliseEntry(e).guid == ""
    ensures NormaliseEntry(e).guid != e.link.value
  {
  }

  /** An unconvertible `published_parsed` yields NULL even when `updated_parsed` would convert. */
  lemma BadPublishedHidesUpdated(e: Entry)
    requires e.publishedParsed.Some? && ToDateTime(e.publishedParsed.value).None?
    requires e.updatedParsed.Some? && ToDateTime(e.updatedParsed.value).Some?
    ensures NormaliseEntry(e).published.None?
  {
  }

  /** NULL sorts below every timestamp; timestamps compare field by field, as their ISO text does. */
  predicate PublishedLe(a: Option<DateTime>, b: Option<DateTime>)
  {
    match (a, b)
    case (None, _) => true
    case (Some(_), None) => false
    case (Some(x), Some(y)) => DateTimeLe(x, y)
  }

  predicate DateTimeLe(x: DateTime, y: DateTime)
  {
    if x.year != y.year then x.year < y.year
    else if x.month != y.month then x.month < y.month
    else if x.day != y.day then x.day < y.day
    else if x.hour != y.hour then x.hour < y.hour
    else if x.minute != y.minute then x.minute < y.minute
    else x.second <= y.second
  }
}
