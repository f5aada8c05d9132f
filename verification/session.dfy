/** A browsing session on one page: page loads, each of which runs
    trackVisit, and clicks on the social links, each of which runs
    storeClick, on storage that accepts every call. */
module Session {
  import opened Wrappers
  import opened JsNumbers
  import opened Json
  import opened WebStorage
  import opened Analytics
  import opened Visits
  import opened Statistics

  datatype Event = PageLoad(at: string) | SocialClick(platform: string, at: string)

  /** The storage after the given events, oldest first. */
  function Run(items: map<string, string>, events: seq<Event>): map<string, string>
    decreases |events|
  {
    if events == [] then items
    else
      var before := Run(items, events[..|events| - 1]);
      match events[|events| - 1]
      case PageLoad(at) => TrackVisitEffect(before, true, true, at)
      case SocialClick(platform, at) => StoreClickEffect(before, true, true, platform, at)
  }

  /** The social clicks among the events, oldest first. */
  function Clicks(events: seq<Event>): seq<Click>
    decreases |events|
  {
    if events == [] then []
    else
      var before := Clicks(events[..|events| - 1]);
      match events[|events| - 1]
      case PageLoad(_) => before
      case SocialClick(platform, at) => before + [Click(platform, at)]
  }

  /** The number of page loads among the events. */
  function Loads(events: seq<Event>): nat
    decreases |events|
  {
    if events == [] then 0
    else Loads(events[..|events| - 1]) + (if events[|events| - 1].PageLoad? then 1 else 0)
  }

  /** Starting from storage without the analytics record, the stored
      record reads back as the replay of the session's clicks on an empty
      record. */
  lemma {:induction false} RunRecord(items: map<string, string>, events: seq<Event>)
    requires AnalyticsKey !in items
    ensures LoadRecord(Fetch(Run(items, events), true, AnalyticsKey)) == Some(Replay([], Clicks(events)))
  {
    if events == [] {
      assert LoadRecord(Fetch(items, true, AnalyticsKey)) == Parse("{}");
    } else {
      var init := events[..|events| - 1];
      RunRecord(items, init);
      var before := Run(items, init);
      match events[|events| - 1]
      case PageLoad(at) =>
        assert Fetch(Run(items, events), true, AnalyticsKey) == Fetch(before, true, AnalyticsKey);
      case SocialClick(platform, at) =>
        StoreClickReadBack(before, true, true, platform, at);
    }
  }

  /** A social click leaves the visit count alone. */
  lemma ClickKeepsCount(items: map<string, string>, count: nat, platform: string, now: string)
    requires HoldsCount(items, count)
    ensures HoldsCount(StoreClickEffect(items, true, true, platform, now), count)
  {
    var after := StoreClickEffect(items, true, true, platform, now);
    assert VisitsKey != AnalyticsKey;
    assert VisitsKey in after <==> VisitsKey in items;
  }

  /** Starting from storage without a visit count, the stored count is the
      number of page loads, as decimal text. */
  lemma {:induction false} RunVisits(items: map<string, string>, events: seq<Event>)
    requires VisitsKey !in items
    ensures HoldsCount(Run(items, events), Loads(events))
  {
    if events != [] {
      var init := events[..|events| - 1];
      RunVisits(items, init);
      var before := Run(items, init);
      match events[|events| - 1]
      case PageLoad(at) =>
        VisitStep(before, Loads(init), at);
      case SocialClick(platform, at) =>
        ClickKeepsCount(before, Loads(init), platform, at);
    }
  }

  /** A session whose social links carry ordinary platform names: neither
      the record's own two property names nor names every object inherits. */
  predicate PlainPlatforms(events: seq<Event>)
  {
    forall i | 0 <= i < |events| :: events[i].SocialClick? ==> Ordinary(events[i].platform)
  }

  lemma {:induction false} ClicksAreOrdinary(events: seq<Event>)
    requires PlainPlatforms(events)
    ensures OrdinaryClicks(Clicks(events))
  {
    if events != [] {
      var init := events[..|events| - 1];
      assert PlainPlatforms(init) by {
        forall i | 0 <= i < |init| ensures init[i] == events[i] { }
      }
      ClicksAreOrdinary(init);
    }
  }

  /** The counters reported for a record that counts the given clicks. */
  lemma ReportedCounts(record: Object, clicks: seq<Click>, visits: Option<string>, lastVisit: Option<string>)
    requires forall p | !Reserved(p) :: IsCounter(Get(record, p)) && Count(record, p) == Occurrences(clicks, p)
    requires IsCounter(Get(record, TotalClicksName)) && Count(record, TotalClicksName) == |clicks|
    ensures var report := ReportOf(record, visits, lastVisit);
            && report.totalClicks == Num(|clicks|)
            && report.facebook == Num(Occurrences(clicks, "facebook"))
            && report.instagram == Num(Occurrences(clicks, "instagram"))
            && report.tiktok == Num(Occurrences(clicks, "tiktok"))
            && report.twitter == Num(Occurrences(clicks, "twitter"))
  {
    assert IsCounter(Get(record, "facebook")) && Count(record, "facebook") == Occurrences(clicks, "facebook") by {
      assert !Reserved("facebook");
    }
    assert IsCounter(Get(record, "instagram")) && Count(record, "instagram") == Occurrences(clicks, "instagram") by {
      assert !Reserved("instagram");
    }
    assert IsCounter(Get(record, "tiktok")) && Count(record, "tiktok") == Occurrences(clicks, "tiktok") by {
      assert !Reserved("tiktok");
    }
    assert IsCounter(Get(record, "twitter")) && Count(record, "twitter") == Occurrences(clicks, "twitter") by {
      assert !Reserved("twitter");
    }
  }

  /** The engagement rate reported for a record that counts the given
      number of clicks, beside a visit count of the given number of loads. */
  lemma ReportedEngagement(record: Object, clicks: nat, loads: nat, lastVisit: Option<string>)
    requires IsCounter(Get(record, TotalClicksName)) && Count(record, TotalClicksName) == clicks
    ensures var rate := ReportOf(record, if loads == 0 then None else Some(IntToString(loads)), lastVisit).engagement;
            && (loads == 0 ==> rate == Percent(0.0))
            && (loads > 0 ==> rate == EngagementRate(Some(clicks), Some(loads)))
  {
    if loads > 0 {
      ToNumberOfIntToString(loads);
    }
  }

  /** The storage after a session from storage without analytics and visit
      count holds a record that reads back as the replay of the session's
      clicks, and verEstadisticas reports on that record. */
  lemma SessionStatistics(items: map<string, string>, events: seq<Event>)
    requires AnalyticsKey !in items && VisitsKey !in items
    ensures ReadStatistics(Run(items, events), true)
            == Some(ReportOf(Replay([], Clicks(events)),
                             if Loads(events) == 0 then None else Some(IntToString(Loads(events))),
                             StoredText(Run(items, events), LastVisitKey)))
  {
    RunRecord(items, events);
    RunVisits(items, events);
  }

  /** What verEstadisticas reports after a session from storage without
      analytics and visit count: totalClicks is the number of social clicks,
      each platform's counter the number of clicks on it, and the engagement
      rate is the rate of those clicks over the page loads (0 without page
      loads), which is clicks per hundred page loads. */
  lemma SessionReport(items: map<string, string>, events: seq<Event>)
    requires AnalyticsKey !in items && VisitsKey !in items && PlainPlatforms(events)
    ensures ReadStatistics(Run(items, events), true).Some?
    ensures var report := ReadStatistics(Run(items, events), true).value;
            && report.totalClicks == Num(|Clicks(events)|)
            && report.facebook == Num(Occurrences(Clicks(events), "facebook"))
            && report.instagram == Num(Occurrences(Clicks(events), "instagram"))
            && report.tiktok == Num(Occurrences(Clicks(events), "tiktok"))
            && report.twitter == Num(Occurrences(Clicks(events), "twitter"))
            && (Loads(events) == 0 ==> report.engagement == Percent(0.0))
            && (Loads(events) > 0 ==> report.engagement == EngagementRate(Some(|Clicks(events)|), Some(Loads(events))))
  {
    var clicks := Clicks(events);
    var loads := Loads(events);
    var lastVisit := StoredText(Run(items, events), LastVisitKey);
    SessionStatistics(items, events);
    ClicksAreOrdinary(events);
    ClicksFromEmptyRecord(clicks);
    ReportedCounts(Replay([], clicks), clicks, if loads == 0 then None else Some(IntToString(loads)), lastVisit);
    ReportedEngagement(Replay([], clicks), |clicks|, loads, lastVisit);
  }
}
