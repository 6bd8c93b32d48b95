/**
 * The city search box of the `Data` component: the text field, the autocomplete
 * suggestion list, the session cache of geocoding answers keyed by normalised
 * query, and the single pending debounce timer.
 *
 * Time is an explicit millisecond clock reading `now` (the `Date.now()` taken
 * before the lookup), and the geocoding request's outcome is a parameter:
 * `Some(records)` when the response was OK and parsed, `None` when anything threw.
 */
module Suggestions {
  import opened Wrappers
  import opened Text

  /** Cache lifetime of one geocoding answer, in milliseconds (two minutes). */
  const SuggestTtl := 120_000
  /** Shortest normalised query, in UTF-16 code units, that is looked up. */
  const MinKeyLength := 2

  /** One geocoding answer. Missing JSON fields are `None`. */
  datatype GeoRecord = GeoRecord(
    name: Option<string>,
    ruName: Option<string>,     // `local_names?.ru`
    state: Option<string>,
    country: Option<string>,
    lat: real,
    lon: real)

  /** One entry of the suggestion list. */
  datatype Suggestion = Suggestion(display: string, lat: real, lon: real)

  /** What the cache keeps under a normalised query. */
  datatype CacheEntry = CacheEntry(ts: int, data: seq<Suggestion>)

  /** A weather lookup the box hands to the weather client. */
  datatype WeatherRequest = ByName(q: string) | ByCoords(lat: real, lon: real)

  // ---------------------------------------------------------------- labels

  /** JavaScript truthiness of an optional string: present and not empty. */
  predicate Truthy(v: Option<string>) {
    v.Some? && v.value != ""
  }

  /** A template-literal interpolation `${v}`: a missing value prints as "undefined". */
  function Shown(v: Option<string>): string {
    match v
    case Some(s) => s
    case None => "undefined"
  }

  /** `it.local_names?.ru || it.name` */
  function PlaceName(g: GeoRecord): string {
    if Truthy(g.ruName) then g.ruName.value else Shown(g.name)
  }

  /** The display label of one record: place name, then the state when there is one, then the country. */
  function Label(g: GeoRecord): string {
    PlaceName(g) + (if Truthy(g.state) then ", " + g.state.value else "") + ", " + Shown(g.country)
  }

  /** `data.map(...)`: one suggestion per record, in the same order, carrying its coordinates. */
  function Clean(data: seq<GeoRecord>): (r: seq<Suggestion>)
    ensures |r| == |data|
    ensures forall i :: 0 <= i < |data| ==>
              r[i].display == Label(data[i]) && r[i].lat == data[i].lat && r[i].lon == data[i].lon
  {
    if data == [] then [] else [Suggestion(Label(data[0]), data[0].lat, data[0].lon)] + Clean(data[1..])
  }

  /** The pieces of `s` between occurrences of `sep` (JavaScript's `s.split(sep)`). */
  function Split(s: string, sep: char): (parts: seq<string>)
    ensures |parts| >= 1
  {
    if s == [] then [""]
    else
      var rest := Split(s[1..], sep);
      if s[0] == sep then [""] + rest else [[s[0]] + rest[0]] + rest[1..]
  }

  lemma {:induction false} SplitNoSep(a: string, sep: char)
    requires sep !in a
    ensures Split(a, sep) == [a]
  {
    if a != [] {
      SplitNoSep(a[1..], sep);
      assert [a[0]] + a[1..] == a;
    }
  }

  lemma {:induction false} SplitAt(a: string, sep: char, b: string)
    requires sep !in a
    ensures Split(a + [sep] + b, sep) == [a] + Split(b, sep)
  {
    if a == [] {
      assert a + [sep] + b == [sep] + b;
      assert ([sep] + b)[1..] == b;
    } else {
      SplitAt(a[1..], sep, b);
      assert (a + [sep] + b)[1..] == a[1..] + [sep] + b;
      assert [a[0]] + a[1..] == a;
    }
  }

  /** A label splits back at its commas into the place name, the state (when shown) and the
      country, provided none of them contains a comma of its own: the label loses nothing. */
  lemma LabelFields(g: GeoRecord)
    requires ',' !in PlaceName(g) && ',' !in Shown(g.country)
    requires Truthy(g.state) ==> ',' !in g.state.value
    ensures Split(Label(g), ',') ==
              [PlaceName(g)] + (if Truthy(g.state) then [" " + g.state.value] else []) + [" " + Shown(g.country)]
  {
    var c := " " + Shown(g.country);
    assert ',' !in c;
    SplitNoSep(c, ',');
    if Truthy(g.state) {
      var st := " " + g.state.value;
      assert ',' !in st;
      assert Label(g) == PlaceName(g) + [','] + (st + [','] + c);
      SplitAt(PlaceName(g), ',', st + [','] + c);
      SplitAt(st, ',', c);
    } else {
      assert Label(g) == PlaceName(g) + [','] + c;
      SplitAt(PlaceName(g), ',', c);
    }
  }

  // ---------------------------------------------------------------- the lookup

  /** The cache key of a query: lower-cased, then trimmed. */
  function Normalize(q: string): string {
    Trim(ToLower(q))
  }

  /** A normalised key normalises to itself, so cache keys are stable. */
  lemma NormalizeIdempotent(q: string)
    ensures Normalize(Normalize(q)) == Normalize(q)
  {
    var l := ToLower(q);
    ToLowerTrimStart(l);
    ToLowerTrimEnd(TrimStart(l));
    ToLowerIdempotent(q);
    TrimIdempotent(l);
  }

  /** The cache answers `key` at time `now`: an entry exists and is younger than the TTL. */
  predicate Fresh(cache: map<string, CacheEntry>, key: string, now: int) {
    key in cache && now - cache[key].ts < SuggestTtl
  }

  /** At least two UTF-16 code units: two code points, or one outside the Basic Multilingual Plane. */
  predicate LongEnough(key: string) {
    |key| >= 2 || (|key| == 1 && key[0] as int > 0xFFFF)
  }

  /** `key.length >= 2`, without counting code units. */
  lemma {:induction false} LongEnoughIff(key: string)
    ensures Utf16Length(key) >= MinKeyLength <==> LongEnough(key)
  {
    if |key| >= 2 {
      assert Utf16Length(key[1..]) >= 1;
    }
  }

  /** Every cache key is a normalised query long enough to be looked up. */
  ghost predicate KeysNormal(cache: map<string, CacheEntry>) {
    forall k {:trigger k in cache} :: k in cache ==> Normalize(k) == k && LongEnough(k)
  }

  /** What one `loadSuggestions(q)` leaves behind: the suggestion list, the cache, and the
      geocoding request it issued (the raw query), if any. */
  datatype Loaded = Loaded(suggestions: seq<Suggestion>, cache: map<string, CacheEntry>, request: Option<string>)

  /** The effect of `loadSuggestions(q)` started at clock reading `now` whose request, if it
      makes one, ends in `outcome`. */
  function LoadStep(suggestions: seq<Suggestion>, cache: map<string, CacheEntry>, q: string, now: int,
                    outcome: Option<seq<GeoRecord>>): (r: Loaded)
    ensures cache.Keys <= r.cache.Keys
    ensures forall k :: k in cache && k != Normalize(q) ==> r.cache[k] == cache[k]
    ensures r.cache.Keys <= cache.Keys + {Normalize(q)}
  {
    var key := Normalize(q);
    if !LongEnough(key) then Loaded([], cache, None)
    else if Fresh(cache, key, now) then Loaded(cache[key].data, cache, None)
    else match outcome
      case Some(data) => Loaded(Clean(data), cache[key := CacheEntry(now, Clean(data))], Some(q))
      case None => Loaded(suggestions, cache, Some(q))
  }

  /** A query whose key is shorter than two code units empties the list and touches nothing else. */
  lemma ShortQueryRejected(suggestions: seq<Suggestion>, cache: map<string, CacheEntry>, q: string, now: int,
                           outcome: Option<seq<GeoRecord>>)
    requires !LongEnough(Normalize(q))
    ensures LoadStep(suggestions, cache, q, now, outcome) == Loaded([], cache, None)
  {
  }

  /** A fresh entry is served as it is, with no request; an entry exactly 120000 ms old or older is refetched. */
  lemma CacheHitIff(suggestions: seq<Suggestion>, cache: map<string, CacheEntry>, q: string, now: int,
                    outcome: Option<seq<GeoRecord>>)
    requires LongEnough(Normalize(q))
    ensures var r := LoadStep(suggestions, cache, q, now, outcome);
            r.request == None <==> Fresh(cache, Normalize(q), now)
    ensures var r := LoadStep(suggestions, cache, q, now, outcome);
            Fresh(cache, Normalize(q), now) ==> r.suggestions == cache[Normalize(q)].data && r.cache == cache
    ensures Normalize(q) in cache && now == cache[Normalize(q)].ts + SuggestTtl ==>
              LoadStep(suggestions, cache, q, now, outcome).request == Some(q)
  {
  }

  /** A successful request shows the cleaned list and stores it under the key, stamped with `now`. */
  lemma FetchSuccessStores(suggestions: seq<Suggestion>, cache: map<string, CacheEntry>, q: string, now: int,
                           data: seq<GeoRecord>)
    requires LongEnough(Normalize(q)) && !Fresh(cache, Normalize(q), now)
    ensures LoadStep(suggestions, cache, q, now, Some(data))
              == Loaded(Clean(data), cache[Normalize(q) := CacheEntry(now, Clean(data))], Some(q))
  {
  }

  /** A failed request leaves the list and the cache as they were. */
  lemma FetchFailureKeeps(suggestions: seq<Suggestion>, cache: map<string, CacheEntry>, q: string, now: int)
    requires LongEnough(Normalize(q)) && !Fresh(cache, Normalize(q), now)
    ensures LoadStep(suggestions, cache, q, now, None) == Loaded(suggestions, cache, Some(q))
  {
  }

  /** Only normalised keys of two or more code units ever enter the cache. */
  lemma LoadKeepsKeysNormal(suggestions: seq<Suggestion>, cache: map<string, CacheEntry>, q: string, now: int,
                            outcome: Option<seq<GeoRecord>>)
    requires KeysNormal(cache)
    ensures KeysNormal(LoadStep(suggestions, cache, q, now, outcome).cache)
  {
    var key := Normalize(q);
    if LongEnough(key) && !Fresh(cache, key, now) && outcome.Some? {
      var c := cache[key := CacheEntry(now, Clean(outcome.value))];
      assert LoadStep(suggestions, cache, q, now, outcome).cache == c;
      NormalizeIdempotent(q);
      forall k | k in c ensures Normalize(k) == k && LongEnough(k) {
        if k != key {
          assert k in cache;
        }
      }
    }
  }

  /** After a successful lookup, any query with the same key made less than 120000 ms later is
      answered from the cache with the same list and without a request. */
  lemma RepeatWithinTtl(suggestions: seq<Suggestion>, cache: map<string, CacheEntry>, q: string, now: int,
                        data: seq<GeoRecord>, q': string, now': int, outcome': Option<seq<GeoRecord>>)
    requires LongEnough(Normalize(q)) && !Fresh(cache, Normalize(q), now)
    requires Normalize(q') == Normalize(q) && now' - now < SuggestTtl
    ensures var first := LoadStep(suggestions, cache, q, now, Some(data));
            var second := LoadStep(first.suggestions, first.cache, q', now', outcome');
            second == Loaded(Clean(data), first.cache, None) && first.suggestions == Clean(data)
  {
  }

  // ---------------------------------------------------------------- the component state

  class SearchBox {
    /** The input field's text. */
    var city: string
    /** The suggestion list shown under the field. */
    var suggestions: seq<Suggestion>
    /** `suggestCache.current` */
    var cache: map<string, CacheEntry>
    /** The query of the debounce timer that has not fired yet (`typingTimer.current`). */
    var pending: Option<string>

    ghost predicate Valid()
      reads this
    {
      KeysNormal(cache)
    }

    constructor ()
      ensures Valid()
      ensures city == "" && suggestions == [] && cache == map[] && pending == None
    {
      city, suggestions, cache, pending := "", [], map[], None;
    }

    /** `loadSuggestions(q)`, started at clock reading `now`, its request ending in `outcome`. */
    method LoadSuggestions(q: string, now: int, outcome: Option<seq<GeoRecord>>) returns (request: Option<string>)
      requires Valid()
      modifies this`suggestions, this`cache
      ensures Valid()
      ensures Loaded(suggestions, cache, request) == LoadStep(old(suggestions), old(cache), q, now, outcome)
    {
      ghost var after := LoadStep(suggestions, cache, q, now, outcome);
      assert KeysNormal(after.cache) by { LoadKeepsKeysNormal(suggestions, cache, q, now, outcome); }
      var key := Normalize(q);
      if !LongEnough(key) {
        assert after == Loaded([], cache, None) by { ShortQueryRejected(suggestions, cache, q, now, outcome); }
        suggestions := [];
        return None;
      }
      if key in cache && now - cache[key].ts < SuggestTtl {
        assert after == Loaded(cache[key].data, cache, None) by { CacheHitIff(suggestions, cache, q, now, outcome); }
        suggestions := cache[key].data;
        return None;
      }
      request := Some(q);
      match outcome
      case Some(data) =>
        var cleaned := Clean(data);
        assert after == Loaded(cleaned, cache[key := CacheEntry(now, cleaned)], request) by {
          FetchSuccessStores(suggestions, cache, q, now, data);
        }
        suggestions := cleaned;
        cache := cache[key := CacheEntry(now, cleaned)];
      case None =>
        assert after == Loaded(suggestions, cache, request) by { FetchFailureKeeps(suggestions, cache, q, now); }
    }

    /** `onChange`: the field shows the new text, and its lookup replaces any pending one. */
    method OnChange(val: string)
      requires Valid()
      modifies this`city, this`pending
      ensures Valid()
      ensures city == val && pending == Some(val)
    {
      city := val;
      pending := Some(val);
    }

    /** The debounce timer fires: the pending lookup, if any, runs and the slot empties. */
    method FireTimer(now: int, outcome: Option<seq<GeoRecord>>) returns (request: Option<string>)
      requires Valid()
      modifies this`suggestions, this`cache, this`pending
      ensures Valid() && pending == None
      ensures old(pending) == None ==> request == None && suggestions == old(suggestions) && cache == old(cache)
      ensures old(pending).Some? ==>
                Loaded(suggestions, cache, request)
                  == LoadStep(old(suggestions), old(cache), old(pending).value, now, outcome)
    {
      match pending
      case None =>
        request := None;
      case Some(q) =>
        pending := None;
        request := LoadSuggestions(q, now, outcome);
    }

    /** `onSubmit`: a by-name lookup of the trimmed text, only when that is not empty. */
    method OnSubmit() returns (request: Option<WeatherRequest>)
      ensures request.Some? <==> Trim(city) != ""
      ensures request.Some? ==> request.value == ByName(Trim(city))
    {
      var q := Trim(city);
      if q != "" {
        request := Some(ByName(q));
      } else {
        request := None;
      }
    }

    /** `selectSuggestion(s)`: the field takes the label, the list empties, and the weather is
        looked up by the suggestion's coordinates. The pending timer is left alone. */
    method SelectSuggestion(s: Suggestion) returns (request: WeatherRequest)
      requires Valid()
      modifies this`city, this`suggestions
      ensures Valid()
      ensures city == s.display && suggestions == []
      ensures request == ByCoords(s.lat, s.lon)
    {
      city := s.display;
      suggestions := [];
      request := ByCoords(s.lat, s.lon);
    }
  }

  /** A burst of keystrokes followed by a pause: every keystroke replaces the pending lookup, so
      the timer that finally fires makes exactly one lookup, for the last text typed. */
  method TypeThenPause(box: SearchBox, keystrokes: seq<string>, now: int, outcome: Option<seq<GeoRecord>>)
    returns (request: Option<string>)
    requires box.Valid() && keystrokes != []
    modifies box
    ensures box.Valid() && box.pending == None
    ensures box.city == keystrokes[|keystrokes| - 1]
    ensures Loaded(box.suggestions, box.cache, request)
              == LoadStep(old(box.suggestions), old(box.cache), keystrokes[|keystrokes| - 1], now, outcome)
  {
    var i := 0;
    while i < |keystrokes|
      invariant 0 <= i <= |keystrokes|
      invariant box.Valid()
      invariant box.suggestions == old(box.suggestions) && box.cache == old(box.cache)
      invariant i > 0 ==> box.pending == Some(keystrokes[i - 1]) && box.city == keystrokes[i - 1]
    {
      box.OnChange(keystrokes[i]);
      i := i + 1;
    }
    request := box.FireTimer(now, outcome);
  }
}
