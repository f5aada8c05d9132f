/** verEstadisticas: the report of the stored analytics, and the engagement
    rate, clicks per hundred visits. It only reads storage. */
module Statistics {
  import opened Wrappers
  import opened JsNumbers
  import opened Json
  import opened WebStorage
  import opened Analytics
  import opened Visits

  /** The engagement rate before toFixed(1): a percentage, or NaN when the
      click count is text that is not a number. */
  datatype Rate = Percent(value: real) | NotANumber

  /** The number the stored visit count stands for in a comparison or a
      division: null converts to 0, text as Number(text) (None for NaN). */
  function VisitsNumber(visits: Option<string>): (r: Option<int>)
    ensures visits.None? ==> r == Some(0)
    ensures visits.Some? ==> r == ToNumber(visits.value)
  {
    if visits.None? then Some(0) else ToNumber(visits.value)
  }

  /** JavaScript's `visits > 0`; NaN compares false. */
  predicate VisitsPositive(visits: Option<string>)
    ensures visits.None? || visits == Some("") ==> !VisitsPositive(visits)
  {
    VisitsNumber(visits).Some? && VisitsNumber(visits).value > 0
  }

  /** The number `analytics.totalClicks || 0` stands for in a division. */
  function ClicksNumber(total: Option<Value>): (r: Option<int>)
    ensures IsCounter(total) ==> r == Some(CountOf(total))
    ensures total.Some? && total.value.Str? && total.value.s != "" ==> r == ToNumber(total.value.s)
    ensures total == Some(Str("")) ==> r == Some(0)
  {
    if total.None? || !Truthy(total.value) then Some(0)
    else
      match total.value
      case Num(n) => Some(n)
      case Str(s) => ToNumber(s)
  }

  /** `clicks / visits * 100` on exact numbers. */
  function Percentage(clicks: int, visits: int): (p: real)
    requires visits > 0
    ensures p * (visits as real) == 100.0 * (clicks as real)
    ensures 0 <= clicks <= visits ==> 0.0 <= p <= 100.0
  {
    var q := (clicks as real) / (visits as real);
    assert q * (visits as real) == clicks as real;
    assert 0 <= clicks <= visits ==> 0.0 <= q <= 1.0;
    q * 100.0
  }

  /** The engagement expression on the numbers its operands convert to:
      0 unless visits is a positive number, NaN when the click count is NaN,
      and otherwise clicks / visits * 100, which never divides by zero. */
  function EngagementRate(clicks: Option<int>, visits: Option<int>): (r: Rate)
    ensures visits.None? || visits.value <= 0 ==> r == Percent(0.0)
    ensures r.NotANumber? <==> visits.Some? && visits.value > 0 && clicks.None?
    ensures visits.Some? && visits.value > 0 && clicks.Some? ==>
              r.Percent? && r.value * (visits.value as real) == 100.0 * (clicks.value as real)
    ensures visits.Some? && clicks.Some? && 0 <= clicks.value <= visits.value && 0 < visits.value ==>
              r.Percent? && 0.0 <= r.value <= 100.0
  {
    if visits.None? || visits.value <= 0 then Percent(0.0)
    else if clicks.None? then NotANumber
    else Percent(Percentage(clicks.value, visits.value))
  }

  /** The engagement expression
      `visits > 0 ? (analytics.totalClicks || 0) / visits * 100 : 0`
      on the stored totalClicks property and the stored visit count. */
  function Engagement(totalClicks: Option<Value>, visits: Option<string>): (r: Rate)
    ensures !VisitsPositive(visits) ==> r == Percent(0.0)
    ensures r.NotANumber? <==> VisitsPositive(visits) && ClicksNumber(totalClicks).None?
    ensures VisitsPositive(visits) && IsCounter(totalClicks) ==>
              r == EngagementRate(Some(CountOf(totalClicks)), VisitsNumber(visits))
  {
    EngagementRate(ClicksNumber(totalClicks), VisitsNumber(visits))
  }

  /** What `x || fallback` shows: x itself when it is truthy, and the
      fallback when x is undefined, null, 0 or the empty string. */
  predicate Shows(x: Option<Value>, fallback: Value, shown: Value)
  {
    && (x.Some? && Truthy(x.value) ==> shown == x.value)
    && (x.None? || !Truthy(x.value) ==> shown == fallback)
  }

  /** JavaScript's `x || fallback` on a property or a stored text. */
  function Or(x: Option<Value>, fallback: Value): (r: Value)
    ensures Shows(x, fallback, r)
    ensures Truthy(fallback) ==> Truthy(r)
  {
    if x.Some? && Truthy(x.value) then x.value else fallback
  }

  /** What getItem returns on accessible storage: the stored text, or None
      for null. */
  function StoredText(items: map<string, string>, key: string): (r: Option<string>)
    ensures r.Some? <==> key in items
    ensures r.Some? ==> r.value == items[key]
  {
    match Fetch(items, true, key)
    case Item(text) => Some(text)
    case _ => None
  }

  /** A stored text as a property value. */
  function TextValue(text: Option<string>): Option<Value>
  {
    if text.Some? then Some(Str(text.value)) else None
  }

  /** The rows of the console table, and the engagement rate. */
  datatype Report = Report(
    visits: Value,
    lastVisit: Value,
    totalClicks: Value,
    facebook: Value,
    instagram: Value,
    tiktok: Value,
    twitter: Value,
    lastClick: Value,
    engagement: Rate)

  /** The report on a parsed record and the stored visit count and last
      visit: missing or empty entries show as 0 or "N/A". */
  function ReportOf(record: Object, visits: Option<string>, lastVisit: Option<string>): (r: Report)
    ensures IsCounter(Get(record, TotalClicksName)) ==> r.totalClicks == Num(Count(record, TotalClicksName))
    ensures IsCounter(Get(record, "facebook")) ==> r.facebook == Num(Count(record, "facebook"))
    ensures IsCounter(Get(record, "instagram")) ==> r.instagram == Num(Count(record, "instagram"))
    ensures IsCounter(Get(record, "tiktok")) ==> r.tiktok == Num(Count(record, "tiktok"))
    ensures IsCounter(Get(record, "twitter")) ==> r.twitter == Num(Count(record, "twitter"))
    ensures Shows(Get(record, TotalClicksName), Num(0), r.totalClicks)
    ensures Shows(Get(record, "facebook"), Num(0), r.facebook)
    ensures Shows(Get(record, "instagram"), Num(0), r.instagram)
    ensures Shows(Get(record, "tiktok"), Num(0), r.tiktok)
    ensures Shows(Get(record, "twitter"), Num(0), r.twitter)
    ensures Shows(Get(record, LastClickName), Str("N/A"), r.lastClick)
    ensures visits.None? || visits == Some("") ==> r.visits == Num(0)
    ensures visits.Some? && visits.value != "" ==> r.visits == Str(visits.value)
    ensures lastVisit.None? || lastVisit == Some("") ==> r.lastVisit == Str("N/A")
    ensures lastVisit.Some? && lastVisit.value != "" ==> r.lastVisit == Str(lastVisit.value)
    ensures r.engagement == Engagement(Get(record, TotalClicksName), visits)
  {
    Report(
      visits := Or(TextValue(visits), Num(0)),
      lastVisit := Or(TextValue(lastVisit), Str("N/A")),
      totalClicks := Or(Get(record, TotalClicksName), Num(0)),
      facebook := Or(Get(record, "facebook"), Num(0)),
      instagram := Or(Get(record, "instagram"), Num(0)),
      tiktok := Or(Get(record, "tiktok"), Num(0)),
      twitter := Or(Get(record, "twitter"), Num(0)),
      lastClick := Or(Get(record, LastClickName), Str("N/A")),
      engagement := Engagement(Get(record, TotalClicksName), visits))
  }

  /** verEstadisticas on given storage contents. None when getItem or
      JSON.parse throws, which the function catches; it writes nothing. */
  function ReadStatistics(items: map<string, string>, accessible: bool): (r: Option<Report>)
    ensures r.None? <==> LoadRecord(Fetch(items, accessible, AnalyticsKey)).None?
    ensures r.Some? ==> r.value == ReportOf(LoadRecord(Fetch(items, accessible, AnalyticsKey)).value,
                                            StoredText(items, VisitsKey), StoredText(items, LastVisitKey))
  {
    match LoadRecord(Fetch(items, accessible, AnalyticsKey))
    case None => None
    case Some(analytics) => Some(ReportOf(analytics, StoredText(items, VisitsKey), StoredText(items, LastVisitKey)))
  }
}
