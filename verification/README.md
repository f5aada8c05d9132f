# El Pelón campaign page: click and visit analytics

This project models the analytics part of the campaign page's `script.js`, which keeps three entries in the browser's `localStorage`:

- `storeClick(platform)` runs on every click on a social link. It reads the JSON record stored under `"elPelonAnalytics"` and does three things:
  - adds one to the property named after the platform (`(x || 0) + 1`);
  - stamps `lastClick`;
  - adds one to `totalClicks`.

  It then writes the record back. Any exception is caught.
- `trackVisit()` runs once when the script loads. It reads the count under `"elPelonVisits"` with `parseInt(... || '0')` and adds one. It writes the count back with `toString()`, then stamps `"elPelonLastVisit"`.
- `verEstadisticas()` reads all three entries and reports them, each with a `|| 0` or `|| 'N/A'` default. It also computes the engagement rate `visits > 0 ? (totalClicks || 0) / visits * 100 : 0`.
- The logo's easter egg counts logo clicks in `clickCount`. On the fifth click it shows a message and resets the counter to 0.

## Structure

The modules are:

- **Wrappers**: `Option`.
- **JsNumbers**: the JavaScript number conversions the page relies on, on integers.
  - `toString`.
  - The global `parseInt` without a radix: white space, sign, `0x`, and the longest digit prefix.
  - `Number()` on a string: trimmed, the empty text is 0, digits only.
  - Proofs that both parsers read back every integer `toString` writes, and that both read `"NaN"` as NaN.
- **Json**: a JavaScript object with integer and string properties, kept as its property list in property order.
  - Property read and property assignment.
  - `JSON.stringify`, and `JSON.parse` of such objects.
  - A proof that `JSON.parse(JSON.stringify(o))` gives back `o`.
- **WebStorage**: `localStorage` as a class. It holds the entries and two flags: whether the storage can be reached at all, and whether it accepts writes. `getItem` is modelled as a function and `setItem` as a method.
- **Analytics**: the part of `storeClick` that works on the record.
  - The invariant "`totalClicks` is the sum of the platform counters", and the clicks that keep it.
  - What a sequence of clicks leaves in the record.
- **Visits**: `trackVisit` on the storage contents. Covers the step from n to n + 1, n visits leaving the count n, and a count that has become NaN staying NaN.
- **Statistics**: the report of `verEstadisticas` and its engagement rate. The engagement rate is computed on the numbers its operands convert to.
- **EasterEgg**: the logo counter as a step function, and what it does over n clicks.
- **PageScript**: the page's script as a class `Page` with:
  - the storage;
  - the easter-egg counter;
  - imperative `StoreClick` and `TrackVisit`, each proved to leave exactly the storage contents the Analytics and Visits functions describe;
  - `LogoClick`;
  - a named constructor `Load`, which runs `trackVisit()` the way the script does when it loads.
- **Session**: a run of page loads and social clicks on storage that accepts every call, and what `verEstadisticas` then reports.

What `script.js` does not do, and the model therefore does not do either:

- It keeps no history of individual click events, has no reset operation and records no session start time.
- The visit count is not part of the analytics record. It is a separate storage entry holding decimal text.
- An empty platform name is not rejected. Such a click is counted under the empty property name.

## Model

| member | source | states |
|---|---|---|
| WebStorage.Fetch | script.js:119 | `getItem` throws exactly when the storage cannot be reached. It returns null exactly for a missing key, and otherwise the stored text. |
| WebStorage.ReadAfterWrite | script.js:123 | getItem after setItem: the key written reads back as the value written, and every other key reads as before. |
| WebStorage.LocalStorage.GetItem | script.js:119 | `localStorage.getItem` on the object's entries: it throws exactly when the storage cannot be reached. It returns text exactly for a present key, and that text is the stored one. |
| WebStorage.LocalStorage.SetItem | script.js:123 | `setItem` succeeds exactly when the storage is reachable and accepts writes. It then stores the value under the key. When it throws, nothing changes. After success, getItem of the key gives the value, and every other key reads as before. |
| JsNumbers.NatToString | script.js:236 | `toString` of a non-negative integer is a non-empty run of decimal digits whose value is the integer, with no leading zero. |
| JsNumbers.IntToString | script.js:236 | `toString` of an integer starts with `-` exactly for a negative integer. The digits after the sign have the integer's magnitude as their value. |
| JsNumbers.ParseInt | script.js:234 | `parseInt` without a radix gives NaN for a blank text and for any text that holds no decimal digit. Its read-back property is stated by `ParseIntOfIntToString`. |
| JsNumbers.ToNumber | script.js:266 | `Number()` of a string that `visits > 0` and the division apply: a blank text is 0. A non-blank text without a decimal digit is NaN. Its read-back property is stated by `ToNumberOfIntToString`. |
| JsNumbers.ParseIntOfIntToString | script.js:234-236 | `parseInt` reads back every integer that `toString` writes. |
| JsNumbers.ToNumberOfIntToString | script.js:266 | `Number()` reads back every integer that `toString` writes. The stored visit count therefore converts to itself in `visits > 0` and in the division. |
| JsNumbers.NaNTextIsNaN | script.js:234-236 | The text `"NaN"` that `NaN.toString()` writes is NaN again for both `parseInt` and `Number()`. |
| Json.Truthy | script.js:120 | ToBoolean inside `\|\|`: every value is truthy except the number 0 and the empty string. |
| Json.Get | script.js:120-122 | A read of an own property is defined exactly when the object has a property of that name. |
| Json.Put | script.js:120-122 | After an assignment the property holds the new value and every other property reads as before. The key set gains the name. Names stay distinct. A new name is added after the existing properties. |
| Json.Stringify | script.js:123 | `JSON.stringify` of an object is a text that opens with `{`. |
| Json.Parse | script.js:119 | An object read by `JSON.parse` never has a property name twice. |
| Json.ParseStringify | script.js:119-123 | `JSON.parse(JSON.stringify(o))` is `o` for every object with distinct property names. The record `storeClick` writes is therefore the record it reads next time. |
| Analytics.Bump | script.js:120 | `(x \|\| 0) + 1`: an absent or numeric counter becomes its count plus one, and a falsy value becomes 1. A non-empty string has `"1"` appended. |
| Analytics.RecordClick | script.js:119-122 | Covers the three assignments of `storeClick`. `lastClick` becomes the click time. An unreserved platform's property is bumped, unless the name is inherited and not yet the record's own. `totalClicks` is bumped once, or twice when the platform is itself named `totalClicks`. Every other unreserved property is unchanged. The key set gains exactly the three names. Property names stay distinct. |
| Analytics.RecordClickCounts | script.js:120-122 | On counters, a click on an ordinary platform name adds exactly 1 to its platform and 1 to `totalClicks`. A platform named `totalClicks` adds 2. It leaves every other platform's count unchanged. |
| Analytics.LoadRecord | script.js:119 | `JSON.parse(getItem(...) \|\| '{}')`: a throwing `getItem` gives no record. Null or an empty text gives the empty object. Any other text is parsed. A record always has distinct property names. |
| Analytics.StoreClickEffect | script.js:117-127 | `storeClick` changes no storage entry except `"elPelonAnalytics"`. It changes nothing at all when reading, parsing or writing throws. |
| Analytics.StoreClickReadBack | script.js:119-123 | After a successful `storeClick`, reading the record back gives the old record with the click recorded. |
| Analytics.RecordClickKeepsTally | script.js:120-122 | A click on an ordinary platform name keeps the invariant "`totalClicks` equals the sum of the platform counters". It raises that sum by exactly one. |
| Analytics.ReservedPlatformCountsTwice | script.js:120-122 | A click whose platform is named `totalClicks` adds 2 to `totalClicks` and leaves the platform sum unchanged. This breaks the invariant above. |
| Analytics.ReplayCounts | script.js:117-127 | Replaying clicks on ordinary platform names keeps the invariant. Each platform's counter grows by its number of clicks and `totalClicks` by the number of clicks. `lastClick` is the last click's time. |
| Analytics.ClicksFromEmptyRecord | script.js:119-122 | From an empty record, after clicks on ordinary platform names, every counter is absent or a number. Each platform's count (0 when absent) equals its clicks. `totalClicks` is the number of clicks and equals the platform sum. |
| Visits.StoredVisits | script.js:234 | `parseInt(getItem(...) \|\| '0')`: a missing or empty entry reads as 0. Any other text is read as `parseInt` reads it. |
| Visits.NextVisitsText | script.js:235-236 | `visits++` then `toString()`: a NaN count is written as `"NaN"`. A count of n ≥ 0 is written as the decimal digits of n + 1. |
| Visits.NextVisitsTextReadsBack | script.js:235-236 | The text written after `visits++` reads back, for both parsers, as the old count plus one. It reads as NaN again when the count was NaN. |
| Visits.TrackVisitEffect | script.js:232-242 | `trackVisit` changes no other entry. It changes nothing when the storage throws. Otherwise it writes the next count and stamps the visit time. |
| Visits.TrackVisitAddsOne | script.js:234-237 | On working storage, the stored count reads back as the previous count plus one. The first visit stores `"1"`. A NaN count is stored as `"NaN"`. The visit time is stamped. |
| Visits.VisitStep | script.js:234-237 | A visit turns a stored count n into the stored count n + 1 and stamps the time. |
| Visits.VisitsCounted | script.js:232-244 | Starting without a count, n visits leave the count n as `toString` writes it, and the last visit's time. |
| Visits.NaNIsSticky | script.js:234-236 | Once the stored count is non-empty text that `parseInt` reads as NaN, every later visit writes `"NaN"`. The counter never recovers. |
| Statistics.VisitsNumber | script.js:266 | The stored visit text as a number: null is 0, and a text converts as `Number()` converts it. |
| Statistics.VisitsPositive | script.js:266 | `visits > 0` on the stored visit text: null and the empty text are never positive. |
| Statistics.ClicksNumber | script.js:266 | `analytics.totalClicks \|\| 0` as a number: a counter is its count, a non-empty text is its `Number()` value, and the empty text is 0. |
| Statistics.Percentage | script.js:266 | `clicks / visits * 100` multiplied by visits is 100 times clicks. It lies in [0, 100] when 0 ≤ clicks ≤ visits. |
| Statistics.EngagementRate | script.js:266 | The rate is 0 unless visits is a positive number, so it never divides by zero. It is NaN exactly when visits is positive and the clicks are NaN. Otherwise it is clicks per hundred visits, bounded by 100 when clicks ≤ visits. |
| Statistics.Engagement | script.js:266 | On the stored values: 0 when `visits > 0` is false. NaN exactly when visits is positive and `totalClicks` is non-numeric text. On a counter it is the rate of its count over the visit number. |
| Statistics.Or | script.js:255-262 | `x \|\| fallback` is x when x is truthy, and otherwise the fallback. With a truthy fallback, the shown value is never falsy. |
| Statistics.StoredText | script.js:250-251 | `getItem` on reachable storage, as defined by `Fetch`, is the stored text exactly when the key is present. |
| Statistics.ReportOf | script.js:254-266 | The console table. Every counter and `lastClick` is shown as itself when truthy, and otherwise as 0 or `N/A`, so a counter stored as text shows that text. Numeric counters are shown as their counts. `lastVisit` is shown as `N/A` when missing. The visit count is shown as its text, or 0. The engagement rate is computed from the stored `totalClicks` and visit text. |
| Statistics.ReadStatistics | script.js:247-272 | `verEstadisticas` reports nothing exactly when reading or parsing the record throws. Otherwise it reports on the record and the two stored visit entries. |
| EasterEgg.LogoClickStep | script.js:304-308 | A logo click shows the message exactly when the counter was 4. The counter then returns to 0, and otherwise it grows by one. |
| EasterEgg.CountAfterIsRemainder | script.js:302-309 | After n logo clicks the counter is n mod 5, so it stays in 0..4. |
| EasterEgg.RevealsEveryFifthClick | script.js:305-307 | The message is shown on the n-th click exactly when n is a multiple of 5, and the counter is then 0. |
| EasterEgg.RevealCountIsQuotient | script.js:305-307 | In n logo clicks the message is shown n / 5 times. |
| PageScript.Page.Load | script.js:244 | Loading the script sets the counter to 0 and leaves the storage as one `trackVisit()` does. |
| PageScript.Page.StoreClick | script.js:117-127 | Performs the imperative reads, assignments and `setItem` of `storeClick`. It leaves exactly the storage `StoreClickEffect` describes. |
| PageScript.Page.TrackVisit | script.js:232-242 | Performs the imperative `getItem` and the two `setItem` calls, the second only after the first succeeded. It leaves exactly the storage `TrackVisitEffect` describes. |
| PageScript.Page.StatisticsReport | script.js:247-251 | `verEstadisticas` on the page's storage reports nothing exactly when the record cannot be read. Otherwise it reports on the record and the stored visit entries. |
| PageScript.Page.LogoClick | script.js:303-309 | The logo handler keeps the counter equal to the number of logo clicks mod 5, within 0..4. It shows the message exactly on every fifth click. |
| Session.RunRecord | script.js:117-127 | After a session on storage without a record, the stored record reads back as the session's clicks replayed on an empty record. Page loads do not touch it. |
| Session.ClickKeepsCount | script.js:117-127 | A social click leaves the stored visit count unchanged. |
| Session.RunVisits | script.js:232-244 | After a session on storage without a count, the stored count is the number of page loads. |
| Session.ReportedCounts | script.js:254-263 | For a record that counts the given clicks, the table shows the number of clicks as `totalClicks` and each platform's number of clicks. |
| Session.ReportedEngagement | script.js:266 | With the visit count as `toString` wrote it, the rate is 0 without page loads. Otherwise it is the clicks over the page loads. |
| Session.SessionStatistics | script.js:247-251 | After a session, `verEstadisticas` reports on the replayed clicks and on the page-load count as stored text. |
| Session.SessionReport | script.js:247-266 | After a session on fresh storage with ordinary platform names (neither `totalClicks`, `lastClick` nor a name inherited from `Object.prototype`), the report shows the number of social clicks as `totalClicks` and each platform's own clicks. The engagement rate is the clicks over the page loads, or 0 without page loads. |

## Left out

- Visual effects, event listener plumbing and the `console.log` and `console.table` output are left out. The report is modelled as the values the table would show.
- `toFixed(1)` is left out. The rate is an exact rational `Percent` value or `NotANumber`. Also left out: the engagement is the number 0 rather than the text `"0.0"` when there are no visits. That zero is modelled as `Percent(0.0)`.
- The current time (`new Date().toISOString()`) is a parameter `now` or `at`, treated as an opaque string.
- The platform is a string. The `data-platform` attribute of a link without one (`null`, stored under the name `"null"`) is not modelled separately.
- JSON values other than integers and strings are outside the model: fractions, exponents, booleans, null, arrays and nested objects. `Json.Parse` rejects them, so the model's `storeClick` stores nothing and its `verEstadisticas` reports nothing. The page differs:
  - For a stored top-level `null`, both page functions throw when they read a property. The exception is caught, so the page also stores and reports nothing.
  - For a stored top-level number, string or boolean, the page's `storeClick` assignments have no effect, and it writes back `JSON.stringify` of the parsed value. For example, `" 5 "` is rewritten as `"5"`. The page's `verEstadisticas` reports the defaults.
  - A stored array is not modelled.
- Json.Unescape: a `\u` escape that names a surrogate code unit (`\uD800` to `\uDFFF`) is refused, alone or in a pair such as `"\ud83d\ude00"`, although `JSON.parse` accepts it. Characters are Unicode scalar values rather than UTF-16 code units. A stored record that contains such an escape is therefore a parse failure in the model. There, `storeClick` stores nothing and `verEstadisticas` reports nothing.
- Json.Get: reads see own properties only. A read in the page also finds the members every object inherits from `Object.prototype`: `constructor`, `toString`, `valueOf`, `hasOwnProperty`, `isPrototypeOf`, `propertyIsEnumerable`, `toLocaleString`, `__proto__` and the four `__define…__`/`__lookup…__` names (`Json.Inherited`).
  - For a platform with such a name that the record does not own, the page's `(analytics[platform] || 0) + 1` is the function's source text followed by `"1"`. The model stores 1. For `__proto__`, the page's assignment does not create a property at all.
  - Analytics.RecordClick therefore promises its platform clause only for names that are not inherited or already own. The counting lemmas (`RecordClickCounts`, `RecordClickKeepsTally`, `ReplayCounts`, `ClicksFromEmptyRecord`, `Session.SessionReport`) hold only for ordinary names (`Analytics.Ordinary`). The page breaks the invariant "`totalClicks` is the platform sum" on inherited names, just as it does on `totalClicks` itself.
- JavaScript's ordering of integer-like property names before the others is left out. Properties keep insertion order.
- Number precision is not modelled. Counts above 2^53, and the exponent notation `toString` uses for very large numbers, are left out. `Number()` on texts with fractions, exponents, `Infinity` or `0x`/`0o`/`0b` prefixes is left out too; the model reads those texts as NaN.
- One `acceptsWrites` flag covers both `setItem` calls of `trackVisit`. A quota failure between the two writes is not modelled.
- Several tabs writing the same storage concurrently are left out.
- Json.Stringify: its own contract states only the opening brace. What the text means is stated by `Json.ParseStringify`.
