/** The page's script state: the storage it writes its analytics to and the
    easter-egg counter `clickCount`, with the handlers that change them. */
module PageScript {
  import opened Wrappers
  import opened Json
  import opened WebStorage
  import opened Analytics
  import opened Visits
  import opened Statistics
  import opened EasterEgg

  class Page {
    /** The browser's localStorage. */
    const storage: LocalStorage
    /** The easter-egg counter. */
    var clickCount: int
    /** How many times the logo has been clicked since the page loaded. */
    ghost var logoClicks: nat

    /** Between handlers the counter is the number of logo clicks modulo 5. */
    ghost predicate Valid()
      reads this
    {
      clickCount == logoClicks % ClicksToReveal
    }

    /** Loading the script: clickCount starts at 0, and trackVisit() runs
        once. */
    constructor Load(storage: LocalStorage, now: string)
      modifies storage`items
      ensures this.storage == storage
      ensures Valid() && clickCount == 0 && logoClicks == 0
      ensures storage.items == TrackVisitEffect(old(storage.items), storage.accessible, storage.acceptsWrites, now)
    {
      this.storage := storage;
      clickCount := 0;
      logoClicks := 0;
      new;
      TrackVisit(now);
    }

    /** storeClick(platform) at time now: read the record (an absent one is
        {}), count the click on the platform and in totalClicks, stamp
        lastClick and write the record back. A throwing getItem, JSON.parse
        or setItem ends the call with nothing stored. */
    method StoreClick(platform: string, now: string)
      modifies storage`items
      ensures storage.items == StoreClickEffect(old(storage.items), storage.accessible, storage.acceptsWrites, platform, now)
    {
      var loaded := LoadRecord(storage.GetItem(AnalyticsKey));
      if loaded.Some? {
        var analytics := loaded.value;
        analytics := Put(analytics, platform, Bump(Get(analytics, platform)));
        analytics := Put(analytics, LastClickName, Str(now));
        analytics := Put(analytics, TotalClicksName, Bump(Get(analytics, TotalClicksName)));
        var _ := storage.SetItem(AnalyticsKey, Stringify(analytics));
      }
    }

    /** trackVisit() at time now: parse the stored count (absent is 0), add
        one, write it back and then stamp the visit. A throwing getItem or
        setItem ends the call. */
    method TrackVisit(now: string)
      modifies storage`items
      ensures storage.items == TrackVisitEffect(old(storage.items), storage.accessible, storage.acceptsWrites, now)
    {
      var stored := storage.GetItem(VisitsKey);
      if !stored.Throws? {
        var visits := StoredVisits(stored);
        var written := storage.SetItem(VisitsKey, NextVisitsText(visits));
        if written {
          var _ := storage.SetItem(LastVisitKey, now);
        }
      }
    }

    /** window.verEstadisticas(): the report on the current storage. */
    function StatisticsReport(): (r: Option<Report>)
      reads this, storage
      ensures r.None? <==> LoadRecord(storage.GetItem(AnalyticsKey)).None?
      ensures r.Some? ==> r.value == ReportOf(LoadRecord(storage.GetItem(AnalyticsKey)).value,
                                              StoredText(storage.items, VisitsKey),
                                              StoredText(storage.items, LastVisitKey))
    {
      ReadStatistics(storage.items, storage.accessible)
    }

    /** The logo's click handler. The result says whether the easter-egg
        message was shown. */
    method LogoClick() returns (revealed: bool)
      requires Valid()
      modifies this`clickCount, this`logoClicks
      ensures Valid() && logoClicks == old(logoClicks) + 1
      ensures 0 <= clickCount < ClicksToReveal
      ensures revealed <==> logoClicks % ClicksToReveal == 0
      ensures (clickCount, revealed) == LogoClickStep(old(clickCount))
    {
      clickCount := clickCount + 1;
      revealed := false;
      if clickCount == ClicksToReveal {
        revealed := true;
        clickCount := 0;
      }
      logoClicks := logoClicks + 1;
    }
  }
}
