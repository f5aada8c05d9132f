/** trackVisit: the visit counter kept as decimal text under the storage key
    "elPelonVisits", and the time of the latest visit under
    "elPelonLastVisit". */
module Visits {
  import opened Wrappers
  import opened JsNumbers
  import opened WebStorage

  const VisitsKey := "elPelonVisits"
  const LastVisitKey := "elPelonLastVisit"

  /** parseInt(localStorage.getItem(VisitsKey) || '0') once getItem has
      returned: an absent or empty entry reads as 0, any other text as
      parseInt reads it (None for NaN). */
  function StoredVisits(stored: Lookup): (r: Option<int>)
    requires !stored.Throws?
    ensures stored.Null? || stored == Item("") ==> r == Some(0)
    ensures stored.Item? && stored.text != "" ==> r == ParseInt(stored.text)
  {
    ZeroText();
    match stored
    case Null => ParseInt("0")
    case Item(text) => ParseInt(if text == "" then "0" else text)
  }

  /** visits++ followed by visits.toString(): the text written back. NaN
      stays NaN, written as "NaN". */
  function NextVisitsText(visits: Option<int>): (r: string)
    ensures visits.None? ==> r == "NaN"
    ensures visits.Some? && visits.value >= 0 ==> r == NatToString(visits.value + 1)
  {
    match visits
    case None => "NaN"
    case Some(v) => IntToString(v + 1)
  }

  /** parseInt and Number() read the written text as the count plus one,
      and as NaN again when the count was NaN. */
  lemma NextVisitsTextReadsBack(visits: Option<int>)
    ensures visits.Some? ==> ParseInt(NextVisitsText(visits)) == Some(visits.value + 1)
    ensures visits.Some? ==> ToNumber(NextVisitsText(visits)) == Some(visits.value + 1)
    ensures visits.None? ==> ParseInt(NextVisitsText(visits)) == None && ToNumber(NextVisitsText(visits)) == None
  {
    if visits.None? {
      assert NextVisitsText(visits) == "NaN";
      NaNTextIsNaN();
    } else {
      var v := visits.value;
      assert NextVisitsText(visits) == IntToString(v + 1);
      ParseIntOfIntToString(v + 1);
      ToNumberOfIntToString(v + 1);
    }
  }

  /** The storage contents after trackVisit() at time now. When getItem or
      setItem throws, the exception is caught and nothing is stored. */
  function TrackVisitEffect(items: map<string, string>, accessible: bool, acceptsWrites: bool,
                            now: string): (r: map<string, string>)
    ensures forall k | k != VisitsKey && k != LastVisitKey :: k in r <==> k in items
    ensures forall k | k != VisitsKey && k != LastVisitKey && k in items :: r[k] == items[k]
    ensures !accessible || !acceptsWrites ==> r == items
    ensures accessible && acceptsWrites ==>
              VisitsKey in r && LastVisitKey in r && r[LastVisitKey] == now &&
              r[VisitsKey] == NextVisitsText(StoredVisits(Fetch(items, accessible, VisitsKey)))
  {
    if !accessible || !acceptsWrites then items
    else WriteVisit(items, NextVisitsText(StoredVisits(Fetch(items, accessible, VisitsKey))), now)
  }

  /** The two writes of a visit that succeeds: the count text, then the time. */
  function WriteVisit(items: map<string, string>, text: string, now: string): (r: map<string, string>)
    ensures forall k | k != VisitsKey && k != LastVisitKey :: k in r <==> k in items
    ensures forall k | k != VisitsKey && k != LastVisitKey && k in items :: r[k] == items[k]
    ensures VisitsKey in r && LastVisitKey in r && r[VisitsKey] == text && r[LastVisitKey] == now
  {
    assert VisitsKey != LastVisitKey by { assert VisitsKey[7] != LastVisitKey[7]; }
    items[VisitsKey := text][LastVisitKey := now]
  }

  /** trackVisit on storage that accepts every call stores the previous
      count plus one (an absent count is 0, so the first visit stores "1"),
      and stamps the visit. */
  lemma TrackVisitAddsOne(items: map<string, string>, now: string)
    ensures var r := TrackVisitEffect(items, true, true, now);
            var before := StoredVisits(Fetch(items, true, VisitsKey));
            && VisitsKey in r && r[LastVisitKey] == now
            && (before.Some? ==> ParseInt(r[VisitsKey]) == Some(before.value + 1))
            && (before.None? ==> r[VisitsKey] == "NaN")
            && (VisitsKey !in items ==> r[VisitsKey] == "1")
  {
    var r := TrackVisitEffect(items, true, true, now);
    var before := StoredVisits(Fetch(items, true, VisitsKey));
    assert r[VisitsKey] == NextVisitsText(before);
    NextVisitsTextReadsBack(before);
    if VisitsKey !in items {
      FirstVisit(items, now);
    }
  }

  /** The first visit stores "1". */
  lemma FirstVisit(items: map<string, string>, now: string)
    requires VisitsKey !in items
    ensures TrackVisitEffect(items, true, true, now)[VisitsKey] == "1"
  {
    VisitStep(items, 0, now);
    assert IntToString(1) == "1" by {
      assert NatToString(1) == [DigitChar(1)];
    }
  }

  /** A count that toString wrote is read back by the next trackVisit. */
  lemma CountReadsBack(count: int)
    ensures StoredVisits(Item(IntToString(count))) == Some(count)
  {
    ParseIntOfIntToString(count);
  }

  /** The storage holds the visit count as toString writes it; no entry
      stands for 0. */
  predicate HoldsCount(items: map<string, string>, count: nat)
  {
    && (count == 0 ==> VisitsKey !in items)
    && (count > 0 ==> VisitsKey in items && items[VisitsKey] == IntToString(count))
  }

  /** The count trackVisit reads from storage that accepts every call. */
  lemma StoredCount(items: map<string, string>, count: nat)
    requires HoldsCount(items, count)
    ensures StoredVisits(Fetch(items, true, VisitsKey)) == Some(count)
  {
    if count > 0 {
      CountReadsBack(count);
    } else {
      ZeroText();
    }
  }

  /** One visit, on storage that accepts every call, adds one to the count. */
  lemma VisitStep(items: map<string, string>, count: nat, now: string)
    requires HoldsCount(items, count)
    ensures HoldsCount(TrackVisitEffect(items, true, true, now), count + 1)
    ensures TrackVisitEffect(items, true, true, now)[LastVisitKey] == now
  {
    StoredCount(items, count);
  }

  /** The storage after the given visits, oldest first, with storage that
      accepts every call. */
  function Visit(items: map<string, string>, times: seq<string>): map<string, string>
    decreases |times|
  {
    if times == [] then items
    else TrackVisitEffect(Visit(items, times[..|times| - 1]), true, true, times[|times| - 1])
  }

  /** Starting from storage without a visit count, n visits leave the count
      n as its decimal text, and the last visit's time. */
  lemma {:induction false} VisitsCounted(items: map<string, string>, times: seq<string>)
    requires VisitsKey !in items
    ensures HoldsCount(Visit(items, times), |times|)
    ensures times != [] ==> Visit(items, times)[LastVisitKey] == times[|times| - 1]
  {
    if times != [] {
      var before := times[..|times| - 1];
      var last := times[|times| - 1];
      VisitsCounted(items, before);
      assert Visit(items, times) == TrackVisitEffect(Visit(items, before), true, true, last);
      VisitStep(Visit(items, before), |before|, last);
    }
  }

  /** Once the stored count is text that parseInt reads as NaN, every later
      visit writes "NaN" again: the counter never recovers. */
  lemma {:induction false} NaNIsSticky(items: map<string, string>, times: seq<string>)
    requires VisitsKey in items && items[VisitsKey] != "" && ParseInt(items[VisitsKey]).None?
    ensures VisitsKey in Visit(items, times) && ParseInt(Visit(items, times)[VisitsKey]).None?
    ensures times != [] ==> Visit(items, times)[VisitsKey] == "NaN"
  {
    if times != [] {
      NaNIsSticky(items, times[..|times| - 1]);
      NextVisitsTextReadsBack(None);
    }
  }
}
