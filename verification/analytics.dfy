/** storeClick: the click counters kept in one JSON record under the storage
    key "elPelonAnalytics". The record holds one counter per platform name,
    beside them "totalClicks" and the time of the last click, "lastClick",
    all as properties of the same object. */
module Analytics {
  import opened Wrappers
  import opened Json
  import opened WebStorage

  const AnalyticsKey := "elPelonAnalytics"
  const LastClickName := "lastClick"
  const TotalClicksName := "totalClicks"

  /** The two property names the record uses for itself. A platform with one
      of these names shares its counter with them. */
  predicate Reserved(name: string)
  {
    name == LastClickName || name == TotalClicksName
  }

  /** A platform name that storeClick counts in a property of its own: not
      one of the record's two names, and not a name the record inherits, whose
      first read would find the inherited function. */
  predicate Ordinary(name: string)
  {
    !Reserved(name) && !Inherited(name)
  }

  /** A property holds a counter when it is absent or a number. */
  predicate IsCounter(v: Option<Value>)
  {
    v.None? || v.value.Num?
  }

  /** The count a counter stands for; an absent property counts as 0. */
  function CountOf(v: Option<Value>): int
  {
    if v.Some? && v.value.Num? then v.value.n else 0
  }

  function Count(o: Object, name: string): int
  {
    CountOf(Get(o, name))
  }

  /** JavaScript's `(x || 0) + 1` on a property value x. */
  function Bump(x: Option<Value>): (r: Value)
    ensures IsCounter(x) ==> r == Num(CountOf(x) + 1)
    ensures x.Some? && !Truthy(x.value) ==> r == Num(1)
    ensures x.Some? && x.value.Str? && x.value.s != "" ==> r == Str(x.value.s + "1")
  {
    match x
    case None => Num(1)
    case Some(v) =>
      if !Truthy(v) then Num(1)
      else
        match v
        case Num(n) => Num(n + 1)
        case Str(s) => Str(s + "1")
  }

  /** The three assignments storeClick makes to the parsed record: the
      platform's counter, then lastClick, then totalClicks. */
  function RecordClick(o: Object, platform: string, now: string): (r: Object)
    ensures Get(r, LastClickName) == Some(Str(now))
    ensures !Reserved(platform) && (platform in KeySet(o) || !Inherited(platform)) ==>
              Get(r, platform) == Some(Bump(Get(o, platform)))
    ensures platform != TotalClicksName ==> Get(r, TotalClicksName) == Some(Bump(Get(o, TotalClicksName)))
    ensures platform == TotalClicksName ==>
              Get(r, TotalClicksName) == Some(Bump(Some(Bump(Get(o, TotalClicksName)))))
    ensures forall k | k != platform && !Reserved(k) :: Get(r, k) == Get(o, k)
    ensures KeySet(r) == KeySet(o) + {platform, LastClickName, TotalClicksName}
    ensures DistinctKeys(o) ==> DistinctKeys(r)
  {
    var o1 := Put(o, platform, Bump(Get(o, platform)));
    var o2 := Put(o1, LastClickName, Str(now));
    assert LastClickName != TotalClicksName by { assert LastClickName[0] != TotalClicksName[0]; }
    assert Get(o2, TotalClicksName) == Get(o1, TotalClicksName);
    Put(o2, TotalClicksName, Bump(Get(o2, TotalClicksName)))
  }

  /** A click adds exactly one to its platform's counter and to
      totalClicks, an absent counter counting as 0, and changes no other
      platform's counter. */
  lemma RecordClickCounts(o: Object, platform: string, now: string)
    requires Ordinary(platform) && IsCounter(Get(o, platform)) && IsCounter(Get(o, TotalClicksName))
    ensures Count(RecordClick(o, platform, now), platform) == Count(o, platform) + 1
    ensures Count(RecordClick(o, TotalClicksName, now), TotalClicksName) == Count(o, TotalClicksName) + 2
    ensures Count(RecordClick(o, platform, now), TotalClicksName) == Count(o, TotalClicksName) + 1
    ensures forall p | p != platform && !Reserved(p) :: Count(RecordClick(o, platform, now), p) == Count(o, p)
  {
  }

  /** The record storeClick starts from:
      JSON.parse(localStorage.getItem(AnalyticsKey) || '{}').
      None when getItem or JSON.parse throws. */
  function LoadRecord(stored: Lookup): (r: Option<Object>)
    ensures stored.Throws? ==> r.None?
    ensures stored.Null? || stored == Item("") ==> r == Some([])
    ensures stored.Item? && stored.text != "" ==> r == Parse(stored.text)
    ensures r.Some? ==> DistinctKeys(r.value)
  {
    match stored
    case Throws => None
    case Null => Parse("{}")
    case Item(text) => Parse(if text == "" then "{}" else text)
  }

  /** The storage contents after storeClick(platform) at time now. When
      getItem, JSON.parse or setItem throws, the exception is caught and
      nothing is stored. */
  function StoreClickEffect(items: map<string, string>, accessible: bool, acceptsWrites: bool,
                            platform: string, now: string): (r: map<string, string>)
    ensures forall k | k != AnalyticsKey :: k in r <==> k in items
    ensures forall k | k != AnalyticsKey && k in items :: r[k] == items[k]
    ensures !acceptsWrites || LoadRecord(Fetch(items, accessible, AnalyticsKey)).None? ==> r == items
  {
    var loaded := LoadRecord(Fetch(items, accessible, AnalyticsKey));
    if acceptsWrites && loaded.Some?
    then items[AnalyticsKey := Stringify(RecordClick(loaded.value, platform, now))]
    else items
  }

  /** After a storeClick that succeeds, reading the record back gives the
      record before the click with that click counted. */
  lemma StoreClickReadBack(items: map<string, string>, accessible: bool, acceptsWrites: bool,
                           platform: string, now: string)
    requires acceptsWrites && LoadRecord(Fetch(items, accessible, AnalyticsKey)).Some?
    ensures LoadRecord(Fetch(StoreClickEffect(items, accessible, acceptsWrites, platform, now), accessible, AnalyticsKey))
            == Some(RecordClick(LoadRecord(Fetch(items, accessible, AnalyticsKey)).value, platform, now))
  {
    var o := LoadRecord(Fetch(items, accessible, AnalyticsKey)).value;
    var written := RecordClick(o, platform, now);
    ParseStringify(written);
  }

  // ---------------------------------------------------------------------
  // Consistency of the counters

  /** A property's share of the per-platform sum: its count, unless it is
      one of the record's own properties. */
  function MemberTally(m: Member): int
  {
    if Reserved(m.0) || !m.1.Num? then 0 else m.1.n
  }

  /** The sum of all per-platform counters of a record. */
  function PlatformTotal(o: Object): int
  {
    if o == [] then 0 else MemberTally(o[0]) + PlatformTotal(o[1..])
  }

  /** Every per-platform property is a non-negative number. */
  predicate Counted(o: Object)
  {
    o == [] || ((Reserved(o[0].0) || (o[0].1.Num? && o[0].1.n >= 0)) && Counted(o[1..]))
  }

  /** The record's invariant: every platform counter is a number of clicks,
      and totalClicks is their sum. */
  predicate Tallied(o: Object)
  {
    Counted(o) && IsCounter(Get(o, TotalClicksName)) && Count(o, TotalClicksName) == PlatformTotal(o)
  }

  /** Assigning a property changes the per-platform sum by the difference
      between the new value's share and the old one's. */
  lemma {:induction false} PutTally(o: Object, k: string, v: Value)
    ensures PlatformTotal(Put(o, k, v))
            == PlatformTotal(o) - (if Get(o, k).Some? then MemberTally((k, Get(o, k).value)) else 0) + MemberTally((k, v))
  {
    if o != [] && o[0].0 != k {
      PutTally(o[1..], k, v);
      assert Put(o, k, v)[1..] == Put(o[1..], k, v);
    }
  }

  lemma {:induction false} PutCounted(o: Object, k: string, v: Value)
    requires Counted(o) && (Reserved(k) || (v.Num? && v.n >= 0))
    ensures Counted(Put(o, k, v))
  {
    if o != [] && o[0].0 != k {
      PutCounted(o[1..], k, v);
      assert Put(o, k, v)[1..] == Put(o[1..], k, v);
    }
  }

  lemma {:induction false} CountedGet(o: Object, k: string)
    requires Counted(o) && !Reserved(k)
    ensures IsCounter(Get(o, k)) && Count(o, k) >= 0
  {
    if o != [] && o[0].0 != k {
      CountedGet(o[1..], k);
    }
  }

  /** A click on a platform with an ordinary name keeps the record's
      invariant: totalClicks stays the sum of the platform counters. */
  lemma RecordClickKeepsTally(o: Object, platform: string, now: string)
    requires Tallied(o) && Ordinary(platform)
    ensures Tallied(RecordClick(o, platform, now))
    ensures PlatformTotal(RecordClick(o, platform, now)) == PlatformTotal(o) + 1
  {
    CountedGet(o, platform);
    var o1 := Put(o, platform, Bump(Get(o, platform)));
    PutTally(o, platform, Bump(Get(o, platform)));
    PutCounted(o, platform, Bump(Get(o, platform)));
    var o2 := Put(o1, LastClickName, Str(now));
    PutTally(o1, LastClickName, Str(now));
    PutCounted(o1, LastClickName, Str(now));
    var v3 := Bump(Get(o2, TotalClicksName));
    PutTally(o2, TotalClicksName, v3);
    PutCounted(o2, TotalClicksName, v3);
  }

  /** Where the counters go wrong: a click whose platform is named
      "totalClicks" adds two to totalClicks and nothing to any platform. */
  lemma ReservedPlatformCountsTwice(o: Object, now: string)
    requires IsCounter(Get(o, TotalClicksName))
    ensures Count(RecordClick(o, TotalClicksName, now), TotalClicksName) == Count(o, TotalClicksName) + 2
    ensures PlatformTotal(RecordClick(o, TotalClicksName, now)) == PlatformTotal(o)
  {
    var o1 := Put(o, TotalClicksName, Bump(Get(o, TotalClicksName)));
    PutTally(o, TotalClicksName, Bump(Get(o, TotalClicksName)));
    var o2 := Put(o1, LastClickName, Str(now));
    PutTally(o1, LastClickName, Str(now));
    PutTally(o2, TotalClicksName, Bump(Get(o2, TotalClicksName)));
  }

  // ---------------------------------------------------------------------
  // A sequence of clicks

  datatype Click = Click(platform: string, at: string)

  /** The record after the given clicks, oldest first. */
  function Replay(o: Object, clicks: seq<Click>): Object
    decreases |clicks|
  {
    if clicks == [] then o
    else
      var last := clicks[|clicks| - 1];
      RecordClick(Replay(o, clicks[..|clicks| - 1]), last.platform, last.at)
  }

  /** How many of the clicks were on the given platform. */
  function Occurrences(clicks: seq<Click>, platform: string): nat
    decreases |clicks|
  {
    if clicks == [] then 0
    else Occurrences(clicks[..|clicks| - 1], platform) + (if clicks[|clicks| - 1].platform == platform then 1 else 0)
  }

  /** Clicks whose platform names are all ordinary. */
  predicate OrdinaryClicks(clicks: seq<Click>)
  {
    forall i | 0 <= i < |clicks| :: Ordinary(clicks[i].platform)
  }

  /** Replaying clicks on platforms with ordinary names keeps the record's
      invariant, adds to each platform exactly its number of clicks, adds
      their number to totalClicks, and leaves the last click's time. */
  lemma {:induction false} ReplayCounts(o: Object, clicks: seq<Click>)
    requires Tallied(o) && OrdinaryClicks(clicks)
    ensures Tallied(Replay(o, clicks))
    ensures forall p | !Reserved(p) :: Count(Replay(o, clicks), p) == Count(o, p) + Occurrences(clicks, p)
    ensures Count(Replay(o, clicks), TotalClicksName) == Count(o, TotalClicksName) + |clicks|
    ensures clicks != [] ==> Get(Replay(o, clicks), LastClickName) == Some(Str(clicks[|clicks| - 1].at))
  {
    if clicks != [] {
      var before := clicks[..|clicks| - 1];
      var last := clicks[|clicks| - 1];
      ReplayCounts(o, before);
      var prior := Replay(o, before);
      RecordClickKeepsTally(prior, last.platform, last.at);
      CountedGet(prior, last.platform);
      forall p | !Reserved(p)
        ensures Count(Replay(o, clicks), p) == Count(o, p) + Occurrences(clicks, p)
      {
        if p != last.platform {
          assert Get(Replay(o, clicks), p) == Get(prior, p);
        }
      }
    }
  }

  /** From an empty record: each platform's counter is its number of clicks,
      and totalClicks is the number of all clicks and the sum of the
      platform counters. */
  lemma ClicksFromEmptyRecord(clicks: seq<Click>)
    requires OrdinaryClicks(clicks)
    ensures forall p | !Reserved(p) ::
              IsCounter(Get(Replay([], clicks), p)) && Count(Replay([], clicks), p) == Occurrences(clicks, p)
    ensures IsCounter(Get(Replay([], clicks), TotalClicksName))
    ensures Count(Replay([], clicks), TotalClicksName) == |clicks| == PlatformTotal(Replay([], clicks))
  {
    var r := Replay([], clicks);
    assert Tallied([]) by {
      assert Count([], TotalClicksName) == 0 == PlatformTotal([]);
    }
    ReplayCounts([], clicks);
    forall p | !Reserved(p)
      ensures IsCounter(Get(r, p)) && Count(r, p) == Occurrences(clicks, p)
    {
      CountedGet(r, p);
    }
  }
}
