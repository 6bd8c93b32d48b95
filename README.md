# Weather widget: suggestion cache and weekly forecast, modelled in Dafny

The widget is a city search box and a set of forecast panels over the OpenWeatherMap HTTP API.
Two parts of it do more than format JSON, and this project models and proves those two:

- **The search box** (`src/components/Data.jsx`). It holds the text field, the list of
  autocomplete suggestions, a session cache of geocoding answers keyed by the normalised query
  (lower-cased, then trimmed), and one pending debounce timer. `loadSuggestions` rejects keys
  shorter than two UTF-16 code units. It serves a cache entry younger than 120000 ms. Otherwise it
  issues a geocoding request for the raw query. On success it shows the cleaned list and stores
  it, stamped with the clock reading taken before the request. On failure it changes nothing.
  `onChange`, the timer firing, `onSubmit` and `selectSuggestion` are the other state transitions.
  `SearchBox` is a class whose fields are the component's state and refs. The pure function
  `LoadStep` states what one lookup does, and the methods are proved against it.
- **The weekly forecast** (`src/components/ForecastWeek.jsx`). A flat list of 3-hour entries
  and a UTC offset in seconds are grouped by the UTC calendar day of `dt + offset`. Each day keeps
  its entries, a running minimum of `temp_min ?? temp`, a running maximum of `temp_max ?? temp`,
  and the entry nearest to local noon (a tie keeps the earlier entry). The first seven days in
  first-seen order become the day cards. `Aggregate` is the `forEach` loop over a dictionary. It
  is proved equal to the fold `Fold`, and the properties are proved about `Fold` and about
  `WeekForecast`, the projection of the first seven records.

Modules: `Wrappers` (Option), `Text` (JavaScript `trim`, `toLowerCase` and `length` on
strings of Unicode scalar values), `Suggestions` (Data.jsx) and `Forecast` (ForecastWeek.jsx).

Boundaries of the model:
- The clock (`Date.now()`) is an explicit argument `now`.
- The geocoding request's outcome is an argument `Option<seq<GeoRecord>>`. `None` stands for
  every path into the silent `catch`.
- The weather lookups that `onSubmit` and `selectSuggestion` start are returned as a
  `WeatherRequest` value and not performed.
- Timer delays (300 ms) are not modelled. A timer is a slot holding the query it will look up,
  and `FireTimer` is the moment it fires.

Choices that follow the code:
- Day keys are day numbers `(dt + tz) / 86400`. Dafny's Euclidean division agrees with the
  `getUTC*` accessors for negative times. A time beyond the ECMAScript `Date` range (±8.64e15 ms)
  gives an invalid date. Every such entry lands in the single key `InvalidDate`, which is the
  text "NaN-NaN-NaN" in the source. Its hour is NaN, so its first entry stays the representative.
- A kept representative with an empty `weather` array makes the source throw while building
  the cards. `Project` returns `None` in that case.
- A missing `name` or `country` prints as "undefined" in a label. An empty `local_names.ru` or
  `state` counts as missing (JavaScript truthiness).
- `selectSuggestion` does not cancel a pending timer, so a lookup typed just before the click
  still runs when its timer fires. The model keeps that behaviour.

Behaviour worth noting:
- A failed lookup leaves the suggestion list as it was: `Data.jsx:68` swallows the error
  (`FetchFailureKeeps`).
- The timer waits 300 ms (`Data.jsx:75`). The delay itself is not modelled.
- An entry exactly 120000 ms old is refetched, because the freshness test is a strict `<`
  (`CacheHitIff`).

## Model

| member | source | states |
|---|---|---|
| `Text.TrimStart` | src/components/Data.jsx:44 | the result is the suffix of the input after exactly its leading JavaScript white space; it does not start with white space |
| `Text.TrimEnd` | src/components/Data.jsx:44 | the result is the prefix of the input before exactly its trailing white space; it does not end with white space |
| `Text.Trim` | src/components/Data.jsx:44 | `trim`: drop the leading, then the trailing JavaScript white space |
| `Text.TrimIsSlice` | src/components/Data.jsx:44 | `trim` returns a slice `s[i..j]` with only white space before `i` and from `j` on |
| `Text.TrimEnds` | src/components/Data.jsx:44 | a trimmed string is empty or starts and ends with a non-space character |
| `Text.TrimIdempotent` | src/components/Data.jsx:44 | trimming a trimmed string changes nothing |
| `Text.LowerChar` | src/components/Data.jsx:44 | lower-casing a code point neither creates nor removes white space |
| `Text.ToLower` | src/components/Data.jsx:44 | `toLowerCase` keeps the length and maps each code point in place |
| `Text.ToLowerIdempotent` | src/components/Data.jsx:44 | lower-casing twice is lower-casing once |
| `Text.ToLowerTrimStart` | src/components/Data.jsx:44 | lower-casing commutes with dropping leading white space |
| `Text.ToLowerTrimEnd` | src/components/Data.jsx:44 | lower-casing commutes with dropping trailing white space |
| `Text.Utf16Length` | src/components/Data.jsx:45 | `length` counts UTF-16 code units: between one and two per code point |
| `Suggestions.LongEnoughIff` | src/components/Data.jsx:45 | `key.length >= 2` holds exactly for two or more code points, or for one code point outside the Basic Multilingual Plane |
| `Suggestions.Normalize` | src/components/Data.jsx:44 | the cache key: the query lower-cased, then trimmed |
| `Suggestions.NormalizeIdempotent` | src/components/Data.jsx:44 | a normalised key normalises to itself, so a stored key is found again under the same key |
| `Suggestions.PlaceName` | src/components/Data.jsx:61 | `local_names?.ru` when it is a non-empty string, otherwise `name`, printed as "undefined" when missing |
| `Suggestions.Label` | src/components/Data.jsx:61 | the place name, then ", " and the state only when the state is a non-empty string, then ", " and the country ("undefined" when missing) |
| `Suggestions.Clean` | src/components/Data.jsx:60-64 | one suggestion per fetched record, same length and order, each with its record's label, latitude and longitude |
| `Suggestions.LabelFields` | src/components/Data.jsx:61 | a label splits at its commas back into the place name (Russian name, else name), the state only when it is present, and the country |
| `Suggestions.Fresh` | src/components/Data.jsx:49 | an entry exists under the key and `now - ts < 120000`, strictly |
| `Suggestions.LoadStep` | src/components/Data.jsx:43-69 | a lookup never removes a cache key and never changes an entry under another key; the only key it can add is the normalised query |
| `Suggestions.ShortQueryRejected` | src/components/Data.jsx:44-45 | a key shorter than two code units empties the list, makes no request and leaves the cache unchanged |
| `Suggestions.CacheHitIff` | src/components/Data.jsx:47-52 | for a long enough key, no request is made exactly when the cached entry is younger than 120000 ms; then the list becomes the cached data and the cache is unchanged; an entry exactly 120000 ms old is refetched with the raw query |
| `Suggestions.FetchSuccessStores` | src/components/Data.jsx:54-67 | on a miss, a successful request shows the cleaned list and stores it under the key with the clock reading taken before the request |
| `Suggestions.FetchFailureKeeps` | src/components/Data.jsx:54-68 | on a miss, a failed request leaves the suggestion list and the cache exactly as they were |
| `Suggestions.LoadKeepsKeysNormal` | src/components/Data.jsx:43-67 | every cache key stays a normalised query of at least two code units |
| `Suggestions.RepeatWithinTtl` | src/components/Data.jsx:47-67 | after a successful lookup, a query with the same key less than 120000 ms later returns the same list from the cache, without a request |
| `Suggestions.SearchBox.constructor` | src/components/Data.jsx:11-17 | the box starts with empty text, no suggestions, an empty cache and no pending timer |
| `Suggestions.SearchBox.LoadSuggestions` | src/components/Data.jsx:43-69 | the new suggestion list, the new cache and the request made are those of `LoadStep`; the cache invariant is kept; the text and the timer are untouched |
| `Suggestions.SearchBox.OnChange` | src/components/Data.jsx:71-76 | the text becomes the new value and the one pending lookup is replaced by one for that value; the cache invariant is kept |
| `Suggestions.SearchBox.FireTimer` | src/components/Data.jsx:75 | with a pending lookup, the slot empties and the lookup runs as `LoadStep`; without one, nothing changes |
| `Suggestions.SearchBox.OnSubmit` | src/components/Data.jsx:78-81 | a by-name weather request with the trimmed text is made exactly when the trimmed text is not empty |
| `Suggestions.SearchBox.SelectSuggestion` | src/components/Data.jsx:83-87 | the text becomes the label, the list empties, and a weather request by the suggestion's coordinates is made; cache and timer are untouched; the cache invariant is kept |
| `Suggestions.TypeThenPause` | src/components/Data.jsx:71-76 | any burst of keystrokes followed by the timer firing makes exactly one lookup, for the last text typed |
| `Forecast.DayKey` | src/components/ForecastWeek.jsx:5-11 | a valid time gets day `n` exactly when `n * 86400 <= dt + tz < (n + 1) * 86400`; a time outside the `Date` range gets the invalid key |
| `Forecast.UtcHour` | src/components/ForecastWeek.jsx:35-36 | the hour is defined only for a valid time, lies in 0..23 and locates `dt + tz` within its day |
| `Forecast.SameBucketIff` | src/components/ForecastWeek.jsx:21 | two entries share a bucket iff `dt + tz` falls on the same UTC day for both, or both are out of range |
| `Forecast.KeyDependsOnSum` | src/components/ForecastWeek.jsx:5-11 | the key and the hour depend on the time and the offset only through their sum |
| `Forecast.Low` | src/components/ForecastWeek.jsx:31 | an entry's low is `temp_min ?? temp` |
| `Forecast.High` | src/components/ForecastWeek.jsx:32 | an entry's high is `temp_max ?? temp` |
| `Forecast.Closer` | src/components/ForecastWeek.jsx:35-37 | the new entry replaces the representative only when both hours are valid and its distance to hour 12 is strictly smaller |
| `Forecast.NewBucket` | src/components/ForecastWeek.jsx:22-39 | a day's first entry leaves the record with items `[e]`, min `Low(e)`, max `High(e)` and itself as representative, since `Math.min(+Infinity, x)` is `x` and an entry is never strictly closer than itself |
| `Forecast.AddEntry` | src/components/ForecastWeek.jsx:30-39 | a later entry of the day joins: it is appended to `items`, min and max absorb its low and high, and it becomes the representative when `Closer` holds |
| `Forecast.Step` | src/components/ForecastWeek.jsx:20-40 | one iteration keeps the insertion order free of repeats and in step with the dictionary's keys |
| `Forecast.Fold` | src/components/ForecastWeek.jsx:19-40 | the finished dictionary has each key once in its insertion order, and the order lists exactly its keys |
| `Forecast.FoldItems` | src/components/ForecastWeek.jsx:21-30 | the records are keyed by exactly the days present, and day `k`'s `items` are exactly the entries of day `k` in input order |
| `Forecast.NewBucketSound` | src/components/ForecastWeek.jsx:22-29 | the record created by a day's first entry satisfies the record invariant |
| `Forecast.AddEntryTemperatures` | src/components/ForecastWeek.jsx:30-32 | after an entry of the same day joins, min and max are still attained by entries and bound all of them |
| `Forecast.AddEntryRepresentative` | src/components/ForecastWeek.jsx:35-39 | after an entry joins, the representative is still the first of the entries closest to noon (the strict `<`) |
| `Forecast.AddEntrySound` | src/components/ForecastWeek.jsx:30-39 | adding an entry of the same day keeps the record invariant |
| `Forecast.StepSound` | src/components/ForecastWeek.jsx:20-40 | one iteration keeps every record sound for its key |
| `Forecast.FoldSound` | src/components/ForecastWeek.jsx:19-40 | in the finished dictionary every record holds only its day's entries, min is the least low and max the greatest high, and the representative is the first entry closest to noon |
| `Forecast.FoldSizes` | src/components/ForecastWeek.jsx:30 | the record sizes sum to the length of the input |
| `Forecast.StepFirstSeen` | src/components/ForecastWeek.jsx:22-23 | one iteration keeps the insertion order equal to the order of first occurrence |
| `Forecast.FoldFirstSeenOrder` | src/components/ForecastWeek.jsx:20-23 | the dictionary's keys come in the order their day first occurs in the input, and they are exactly the days present |
| `Forecast.Project` | src/components/ForecastWeek.jsx:42-51 | each card has its record's key, min and max and its representative's icon, description and time; the result is absent exactly when a kept representative has no `weather[0]` |
| `Forecast.WeekForecast` | src/components/ForecastWeek.jsx:42-51 | the cards are the projection of the first `min(7, days present)` records of the grouped dictionary |
| `Forecast.WeekKeys` | src/components/ForecastWeek.jsx:42-45 | the cards follow the first `min(7, days present)` records, in order |
| `Forecast.WeekShape` | src/components/ForecastWeek.jsx:42-43 | at most seven cards, no day twice, each a day of the input |
| `Forecast.WeekFirstSeenOrder` | src/components/ForecastWeek.jsx:42-43 | the cards come in the order in which their days first occur in the input |
| `Forecast.WeekAllDaysWhenShort` | src/components/ForecastWeek.jsx:42-43 | fewer than seven cards only when every day of the input has a card |
| `Forecast.DayFromRecord` | src/components/ForecastWeek.jsx:44-51 | a card's fields are those of its day's record and of the record's representative |
| `Forecast.WeekTemperatures` | src/components/ForecastWeek.jsx:31-32 | a card's min is the least `temp_min ?? temp` and its max the greatest `temp_max ?? temp` over the entries of its day |
| `Forecast.WeekMinAtMostMax` | src/components/ForecastWeek.jsx:31-32 | when every entry's low is at most its high, every card's min is at most its max |
| `Forecast.WeekRepresentative` | src/components/ForecastWeek.jsx:35-50 | a card's time, icon and description come from the first entry of its day closest to noon |
| `Forecast.FirstClosestIsNearest` | src/components/ForecastWeek.jsx:35-39 | on a valid day the representative minimises |hour − 12|, strictly against earlier entries; in the invalid-date bucket it is the first entry |
| `Forecast.Aggregate` | src/components/ForecastWeek.jsx:19-40 | the in-place `forEach` loop builds exactly the dictionary `Fold` describes |
| `Forecast.ForecastWeek` | src/components/ForecastWeek.jsx:17-51 | the computed `days` are `WeekForecast` of the list and the offset |

## Left out

- HTTP: `fetch`, URL construction, `r.ok` and JSON parsing (`Data.jsx:21-40`, 54-58). The
  geocoding outcome is an argument. The weather lookups are returned as `WeatherRequest` values.
  `fetchWeatherByCoords` and `fetchWeatherByCity`, with their `setError` / `setWeather` updates,
  are not part of this model.
- Timing: the 300 ms `setTimeout` / `clearTimeout` delay and `Date.now()`. They are a pending
  slot and an explicit clock argument.
- Overlapping requests: each `LoadSuggestions` call is one atomic step with its outcome. The
  interleaving of two lookups in flight, where an older answer can overwrite a newer list, is
  not modelled.
- `hPaToMm` and `mToKm` (`Data.jsx:7-8`): floating-point display conversions.
- `Math.round` of temperatures (`ForecastWeek.jsx:46-47`): temperatures are integers, on which
  it is the identity. NaN and missing `main` / `dt` fields are not modelled.
- `weekdayRU` (`ForecastWeek.jsx:14-15`): it depends on locale formatting.
- All JSX rendering, `e.preventDefault()`, `AnimatedWeatherIcon`, and `src/App.jsx`, which is
  UI composition.
- The `timezone = 0` default of the component's props: the model always takes the offset as the
  parameter `tz`, and the default is the call with `tz = 0`.
- Forecast.DayKey: returns the day number instead of the `YYYY-MM-DD` text. The civil-calendar
  conversion is not modelled. It is one-to-one on valid dates, so key equality, bucket identity and
  insertion order are the same.
- Text.LowerChar: models `toLowerCase` only for the Basic Latin, Latin-1 Supplement and basic
  Cyrillic capitals. Other scripts and special mappings, such as U+0130 becoming two code points,
  are left unchanged.
- Lone surrogates: JavaScript strings are sequences of UTF-16 code units, and the model's `string`
  holds Unicode scalar values only. A query with an unpaired surrogate makes `encodeURIComponent`
  (`Data.jsx:55`) throw into the silent `catch`. The model does not represent such a query.
