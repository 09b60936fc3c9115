/**
 * The weather card (src/components/WeatherWidget.tsx). It chooses where its
 * reading comes from (a saved city, the browser's position, or generated
 * sample data when no API key is stored), keeps the last reading with its
 * time in the store, falls back to that cache on errors while it is under
 * three hours old, and refreshes at most once an hour.
 *
 * The network, the position lookup and the clock are inputs: a request
 * either yields a `Reading` or fails, and `now` is `Date.now()`.
 */
module WeatherWidget {
  import opened Wrappers
  import opened Storage
  import opened Text

  const CacheKey := "edge-homepage-weather"
  const LastUpdateKey := "edge-homepage-weather-last-update"
  const ApiKeyKey := "edge-homepage-weather-api-key"
  const UseCustomKey := "edge-homepage-use-custom-location"
  const LocationKey := "edge-homepage-weather-location"
  const HourMs := 60 * 60 * 1000
  const CacheLifeMs := 3 * 60 * 60 * 1000
  const FallbackCity := "New York"
  const FetchError := "Could not fetch weather data"
  const NoKeyHint := "For accurate weather data, add an API key in Settings."

  datatype Icon = Sun | CloudRain | Cloud | CloudSun

  /** `getWeatherIcon`: the first matching keyword group, tried in this order, wins. */
  function GetWeatherIcon(condition: string): (r: Icon)
    ensures var c := ToLower(condition);
      (r == Sun <==> Contains(c, "sun") || Contains(c, "clear")) &&
      (r == CloudRain <==> !Contains(c, "sun") && !Contains(c, "clear") && Contains(c, "rain")) &&
      (r == CloudSun <==> !Contains(c, "sun") && !Contains(c, "clear") && !Contains(c, "rain") &&
                          !Contains(c, "snow") && !Contains(c, "fog") && !Contains(c, "mist") &&
                          !Contains(c, "thunder") && !Contains(c, "lightning") && Contains(c, "cloud"))
  {
    var c := ToLower(condition);
    if Contains(c, "sun") || Contains(c, "clear") then Sun
    else if Contains(c, "rain") then CloudRain
    else if Contains(c, "snow") then Cloud
    else if Contains(c, "fog") || Contains(c, "mist") then Cloud
    else if Contains(c, "thunder") || Contains(c, "lightning") then Cloud
    else if Contains(c, "cloud") then CloudSun
    else Cloud
  }

  /** The icon does not depend on how the condition is capitalised. */
  lemma IconIgnoresCase(condition: string)
    ensures GetWeatherIcon(ToUpper(condition)) == GetWeatherIcon(condition)
    ensures GetWeatherIcon(ToLower(condition)) == GetWeatherIcon(condition)
  {
    ToLowerIgnoresCase(condition);
  }

  /** The fields of a reading as the service reports them, rounded. */
  datatype Reading = Reading(location: string, temperature: int, condition: string,
                             humidity: int, windSpeed: int, minTemp: int, maxTemp: int)

  /** What the card shows: a reading and the icon for its condition. */
  datatype Display = Display(reading: Reading, icon: Icon)

  function Show(r: Reading): Display {
    Display(r, GetWeatherIcon(r.condition))
  }

  const Placeholder := Display(Reading("Loading...", 0, "Loading...", 0, 0, 0, 0), CloudSun)

  /** `useMockData`: the fixed sample shown when the position cannot be had. */
  const Sample := Display(Reading("New York", 19, "Partly Cloudy", 40, 5, 15, 22), CloudSun)

  function EncodeReading(r: Reading): Record {
    map["location" := Str(r.location), "temperature" := Num(r.temperature), "condition" := Str(r.condition),
        "humidity" := Num(r.humidity), "windSpeed" := Num(r.windSpeed),
        "minTemp" := Num(r.minTemp), "maxTemp" := Num(r.maxTemp)]
  }

  function DecodeReading(d: Record): Option<Reading> {
    match (GetStr(d, "location"), GetNum(d, "temperature"), GetStr(d, "condition"), GetNum(d, "humidity"),
           GetNum(d, "windSpeed"), GetNum(d, "minTemp"), GetNum(d, "maxTemp"))
    case (Some(l), Some(t), Some(c), Some(h), Some(w), Some(lo), Some(hi)) => Some(Reading(l, t, c, h, w, lo, hi))
    case _ => None
  }

  lemma DecodeEncodeReading(r: Reading)
    ensures DecodeReading(EncodeReading(r)) == Some(r)
  {
    var d := EncodeReading(r);
    assert GetStr(d, "location") == Some(r.location) && GetStr(d, "condition") == Some(r.condition);
    assert GetNum(d, "temperature") == Some(r.temperature) && GetNum(d, "humidity") == Some(r.humidity);
    assert GetNum(d, "windSpeed") == Some(r.windSpeed) && GetNum(d, "minTemp") == Some(r.minTemp);
    assert GetNum(d, "maxTemp") == Some(r.maxTemp);
  }

  /** The cached reading `handleWeatherError` may fall back to: present, readable and under three hours old. */
  function FreshCache(items: map<string, Value>, now: int): (r: Option<Reading>)
    ensures r.Some? ==> CacheKey in items && items[CacheKey].Cache? && now - items[CacheKey].timestamp < CacheLifeMs
    ensures CacheKey in items && items[CacheKey].Cache? && now - items[CacheKey].timestamp >= CacheLifeMs ==> r.None?
  {
    match Lookup(items, CacheKey)
    case Some(Cache(data, timestamp)) =>
      if now - timestamp < CacheLifeMs then DecodeReading(data) else None
    case _ => None
  }

  /**
   * `shouldUpdateWeather`: with no stored time, refresh; otherwise refresh when
   * more than an hour has passed. A stored time that is not a number never
   * triggers a refresh (the comparison with NaN is false).
   */
  function ShouldUpdate(items: map<string, Value>, now: int): (r: bool)
    ensures LookupText(items, LastUpdateKey) in {None, Some("")} ==> r
    ensures LookupText(items, LastUpdateKey).Some? && LookupText(items, LastUpdateKey) != Some("") ==>
      (r <==> ParseInt(LookupText(items, LastUpdateKey).value).Some? &&
              now - ParseInt(LookupText(items, LastUpdateKey).value).value > HourMs)
  {
    match LookupText(items, LastUpdateKey)
    case None => true
    case Some(last) =>
      if last == "" then true
      else match ParseInt(last)
        case Some(t) => now - t > HourMs
        case None => false
  }

  /** After a successful fetch at `t`, the next refresh is due exactly when more than an hour has passed. */
  lemma UpdateDueAfterFetch(items: map<string, Value>, t: nat, now: int)
    ensures ShouldUpdate(items[LastUpdateKey := Text(NatToString(t))], now) <==> now - t > HourMs
  {
    ParseIntOfIntToString(t);
    assert IntToString(t) == NatToString(t);
  }

  /** Where the card looks for its position. */
  datatype Geolocation = Position | Denied | Unsupported

  /** The request a fetch sends. */
  datatype Request = ByCity(city: string) | ByCoords | NoRequest

  /** The source chosen at mount (and on each hourly refresh), before the API key check of the fetch itself. */
  function MountRequest(hasKey: bool, useCustom: bool, saved: Option<string>, geo: Geolocation): (r: Request)
    ensures r.ByCity? <==> hasKey && useCustom && saved.Some? && saved.value != ""
    ensures r.ByCity? ==> r.city == saved.value
    ensures r.ByCoords? <==> hasKey && !(useCustom && saved.Some? && saved.value != "") && geo == Position
  {
    if hasKey then
      if useCustom && saved.Some? && saved.value != "" then ByCity(saved.value)
      else if geo == Position then ByCoords else NoRequest
    else NoRequest
  }

  /** Without an API key: the saved city when custom location is on and one is saved, else New York. */
  function SampleLocation(useCustom: bool, saved: Option<string>): (r: string)
    ensures r != ""
    ensures r == FallbackCity || (useCustom && saved == Some(r))
  {
    if useCustom && saved.Some? && saved.value != "" then saved.value else FallbackCity
  }

  /** The source a `weatherLocationChanged` event selects. */
  function ChangeRequest(location: string, useCustom: bool, geo: Geolocation): (r: Request)
    ensures r.ByCity? <==> useCustom && location != ""
    ensures r.ByCity? ==> r.city == location
    ensures r.ByCoords? <==> !(useCustom && location != "") && geo == Position
  {
    if useCustom && location != "" then ByCity(location)
    else if geo == Position then ByCoords else NoRequest
  }

  /** What a failed position lookup shows as the error. */
  function GeoError(geo: Geolocation): string {
    if geo == Denied then "Location access denied" else "Geolocation not supported"
  }

  class Widget {
    var display: Display
    var loading: bool
    var error: Option<string>
    var customLocation: Option<string>
    var useCustomLocation: bool
    const store: Store
    /**
     * What the mount effect read from the store: whether an API key is set,
     * the custom-location flag and the saved city. `fetchWeather` closes over
     * these, so the hourly refresh reuses them rather than reading again.
     */
    const mountHasKey: bool
    const mountUseCustom: bool
    const mountSaved: Option<string>

    constructor (store: Store)
      ensures this.store == store && display == Placeholder && loading && error == None && customLocation == None
      ensures useCustomLocation <==> LookupText(store.items, UseCustomKey) == Some("true")
      ensures mountHasKey <==> LookupText(store.items, ApiKeyKey).Some? && LookupText(store.items, ApiKeyKey) != Some("")
      ensures mountUseCustom <==> LookupText(store.items, UseCustomKey) == Some("true")
      ensures mountSaved == LookupText(store.items, LocationKey)
    {
      this.store := store;
      display := Placeholder;
      loading := true;
      error := None;
      customLocation := None;
      useCustomLocation := LookupText(store.items, UseCustomKey) == Some("true");
      mountHasKey := LookupText(store.items, ApiKeyKey).Some? && LookupText(store.items, ApiKeyKey) != Some("");
      mountUseCustom := LookupText(store.items, UseCustomKey) == Some("true");
      mountSaved := LookupText(store.items, LocationKey);
    }

    function HasApiKey(): (r: bool)
      reads this, store
      ensures r <==> LookupText(store.items, ApiKeyKey).Some? && LookupText(store.items, ApiKeyKey) != Some("")
    {
      match LookupText(store.items, ApiKeyKey)
      case Some(k) => k != ""
      case None => false
    }

    /** `handleWeatherError`: show the error, unless a fresh cached reading can be shown instead. */
    method HandleWeatherError(now: int)
      modifies this`display, this`error, this`loading
      ensures !loading
      ensures FreshCache(store.items, now).Some? ==> display == Show(FreshCache(store.items, now).value) && error == None
      ensures FreshCache(store.items, now).None? ==> display == old(display) && error == Some(FetchError)
    {
      error := Some(FetchError);
      loading := false;
      var cached := FreshCache(store.items, now);
      if cached.Some? {
        display := Show(cached.value);
        error := None;
      }
    }

    /** `processWeatherData` and the timestamp write of a successful fetch. */
    method ProcessWeatherData(reading: Reading, now: nat)
      modifies this`display, this`loading, store
      ensures display == Show(reading) && !loading
      ensures store.items == old(store.items)[CacheKey := Cache(EncodeReading(reading), now)]
                                             [LastUpdateKey := Text(NatToString(now))]
    {
      display := Show(reading);
      store.Set(CacheKey, Cache(EncodeReading(reading), now));
      loading := false;
      store.Set(LastUpdateKey, Text(NatToString(now)));
    }

    /**
     * The start of `fetchWeatherByCity` / `fetchWeatherByCoords`: loading, no
     * error, and without an API key straight to the error handler.
     */
    method StartFetch(now: int) returns (sent: bool)
      modifies this`display, this`error, this`loading
      ensures sent <==> old(HasApiKey())
      ensures sent ==> loading && error == None && display == old(display)
      ensures !sent ==> !loading
      ensures !sent && FreshCache(store.items, now).Some? ==> display == Show(FreshCache(store.items, now).value) && error == None
      ensures !sent && FreshCache(store.items, now).None? ==> display == old(display) && error == Some(FetchError)
    {
      loading := true;
      error := None;
      sent := HasApiKey();
      if !sent {
        HandleWeatherError(now);
      }
    }

    /** The outcome of a sent request: a reading, or a failure (network, HTTP status, malformed body). */
    method Receive(response: Option<Reading>, now: nat)
      modifies this`display, this`error, this`loading, store
      ensures response.Some? ==> display == Show(response.value) && !loading && error == old(error)
      ensures response.Some? ==> store.items == old(store.items)[CacheKey := Cache(EncodeReading(response.value), now)]
                                                                [LastUpdateKey := Text(NatToString(now))]
      ensures response.None? ==> !loading && store.items == old(store.items)
      ensures response.None? && FreshCache(store.items, now).Some? ==> display == Show(FreshCache(store.items, now).value) && error == None
      ensures response.None? && FreshCache(store.items, now).None? ==> display == old(display) && error == Some(FetchError)
    {
      if response.Some? {
        ProcessWeatherData(response.value, now);
      } else {
        HandleWeatherError(now);
      }
    }

    /** `useMockData` after a failed position lookup. */
    method PositionFailed(geo: Geolocation)
      requires geo != Position
      modifies this`display, this`error, this`loading
      ensures error == Some(GeoError(geo)) && display == Sample && !loading
    {
      error := Some(GeoError(geo));
      display := Sample;
      loading := false;
    }

    /**
     * `fetchWeather`: the source selection, from the values read at mount.
     * `chosen` is the request those values call for; it is sent only when the
     * store holds an API key now. `sample` holds the generated values shown
     * without an API key.
     */
    method FetchWeather(now: int, geo: Geolocation, sample: Reading) returns (chosen: Request)
      modifies this`display, this`error, this`loading, this`customLocation, this`useCustomLocation
      ensures chosen == MountRequest(mountHasKey, mountUseCustom, mountSaved, geo)
      ensures chosen != NoRequest ==> customLocation == if chosen.ByCity? then Some(chosen.city) else old(customLocation)
      ensures chosen.ByCity? ==> useCustomLocation
      ensures chosen.ByCoords? ==> useCustomLocation == old(useCustomLocation)
      ensures chosen != NoRequest && old(HasApiKey()) ==> loading && error == None && display == old(display)
      ensures chosen != NoRequest && !old(HasApiKey()) && FreshCache(store.items, now).Some? ==>
        !loading && display == Show(FreshCache(store.items, now).value) && error == None
      ensures chosen != NoRequest && !old(HasApiKey()) && FreshCache(store.items, now).None? ==>
        !loading && display == old(display) && error == Some(FetchError)
      ensures !mountHasKey ==>
        var location := SampleLocation(mountUseCustom, mountSaved);
        customLocation == Some(location) && useCustomLocation == mountUseCustom &&
        display == Show(sample.(location := location)) && !loading && error == Some(NoKeyHint)
      ensures mountHasKey && chosen == NoRequest ==>
        error == Some(GeoError(geo)) && display == Sample && !loading &&
        customLocation == old(customLocation) && useCustomLocation == old(useCustomLocation)
    {
      if mountHasKey {
        if mountUseCustom && mountSaved.Some? && mountSaved.value != "" {
          customLocation := mountSaved;
          useCustomLocation := true;
          var started := StartFetch(now);
          chosen := ByCity(mountSaved.value);
        } else if geo == Position {
          var started := StartFetch(now);
          chosen := ByCoords;
        } else {
          PositionFailed(geo);
          chosen := NoRequest;
        }
      } else {
        var location := SampleLocation(mountUseCustom, mountSaved);
        customLocation := Some(location);
        useCustomLocation := mountUseCustom;
        display := Show(sample.(location := location));
        loading := false;
        error := Some(NoKeyHint);
        chosen := NoRequest;
      }
    }

    /** The quarter-hourly check: fetch again only when the last update is more than an hour old. */
    method Refresh(now: int, geo: Geolocation, sample: Reading) returns (chosen: Option<Request>)
      modifies this`display, this`error, this`loading, this`customLocation, this`useCustomLocation
      ensures chosen.Some? <==> ShouldUpdate(store.items, now)
      ensures chosen.Some? ==> chosen.value == MountRequest(mountHasKey, mountUseCustom, mountSaved, geo)
      ensures chosen.None? ==> display == old(display) && error == old(error) && loading == old(loading)
      ensures chosen.None? ==> customLocation == old(customLocation) && useCustomLocation == old(useCustomLocation)
      ensures chosen.Some? && chosen.value != NoRequest ==>
        customLocation == if chosen.value.ByCity? then Some(chosen.value.city) else old(customLocation)
      ensures chosen.Some? && chosen.value.ByCity? ==> useCustomLocation
      ensures chosen.Some? && chosen.value.ByCoords? ==> useCustomLocation == old(useCustomLocation)
      ensures chosen.Some? && chosen.value != NoRequest && old(HasApiKey()) ==> loading && error == None && display == old(display)
      ensures chosen.Some? && chosen.value != NoRequest && !old(HasApiKey()) && FreshCache(store.items, now).Some? ==>
        !loading && display == Show(FreshCache(store.items, now).value) && error == None
      ensures chosen.Some? && chosen.value != NoRequest && !old(HasApiKey()) && FreshCache(store.items, now).None? ==>
        !loading && display == old(display) && error == Some(FetchError)
      ensures chosen.Some? && !mountHasKey ==>
        var location := SampleLocation(mountUseCustom, mountSaved);
        customLocation == Some(location) && useCustomLocation == mountUseCustom &&
        display == Show(sample.(location := location)) && !loading && error == Some(NoKeyHint)
      ensures chosen.Some? && mountHasKey && chosen.value == NoRequest ==>
        error == Some(GeoError(geo)) && display == Sample && !loading &&
        customLocation == old(customLocation) && useCustomLocation == old(useCustomLocation)
    {
      if ShouldUpdate(store.items, now) {
        var r := FetchWeather(now, geo, sample);
        chosen := Some(r);
      } else {
        chosen := None;
      }
    }

    /**
     * `weatherLocationChanged`: adopt the event's settings, then fetch by city
     * or by position; the fetch itself still needs an API key. `sent` is the
     * request actually sent, `NoRequest` when none is.
     */
    method HandleLocationChange(location: string, useCustom: bool, geo: Geolocation, now: int) returns (sent: Request)
      modifies this`display, this`error, this`loading, this`customLocation, this`useCustomLocation
      ensures customLocation == Some(location) && useCustomLocation == useCustom
      ensures sent == NoRequest || sent == ChangeRequest(location, useCustom, geo)
      ensures sent != NoRequest <==> ChangeRequest(location, useCustom, geo) != NoRequest && old(HasApiKey())
      ensures sent != NoRequest ==> loading && error == None && display == old(display)
      ensures ChangeRequest(location, useCustom, geo) != NoRequest && !old(HasApiKey()) && FreshCache(store.items, now).Some? ==>
        !loading && display == Show(FreshCache(store.items, now).value) && error == None
      ensures ChangeRequest(location, useCustom, geo) != NoRequest && !old(HasApiKey()) && FreshCache(store.items, now).None? ==>
        !loading && display == old(display) && error == Some(FetchError)
      ensures ChangeRequest(location, useCustom, geo) == NoRequest ==> error == Some(GeoError(geo)) && display == Sample && !loading
    {
      customLocation := Some(location);
      useCustomLocation := useCustom;
      var wanted := ChangeRequest(location, useCustom, geo);
      if wanted != NoRequest {
        var started := StartFetch(now);
        sent := if started then wanted else NoRequest;
      } else {
        PositionFailed(geo);
        sent := NoRequest;
      }
    }
  }

  /** A reading fetched at `t` is what an error at `now` falls back to, exactly while it is under three hours old. */
  lemma CacheFallback(items: map<string, Value>, reading: Reading, t: nat, now: int)
    ensures var after := items[CacheKey := Cache(EncodeReading(reading), t)][LastUpdateKey := Text(NatToString(t))];
      FreshCache(after, now) == if now - t < CacheLifeMs then Some(reading) else None
  {
    DecodeEncodeReading(reading);
  }
}
