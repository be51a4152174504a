/**
 * The `get-weather` serverless handler: reshaping a 3-hourly forecast into at most seven daily
 * entries, the cache key, and the expiring cache consulted before the upstream forecast service.
 */
module Weather {
  import opened Common
  import opened Text

  // ---------------------------------------------------------------------------------------
  // Upstream forecast and its reshaping
  // ---------------------------------------------------------------------------------------

  datatype Condition = Condition(description: string, icon: string)

  /** One 3-hourly entry of the upstream `list`; `rain3h` is `rain['3h']`, possibly absent. */
  datatype ForecastItem = ForecastItem(
    dtTxt: string, temp: real, tempMin: real, tempMax: real, humidity: int,
    windSpeed: real, weather: seq<Condition>, rain3h: Option<real>)

  datatype ForecastResponse = ForecastResponse(cityName: string, country: string, list: seq<ForecastItem>)

  datatype Temperature = Temperature(day: int, night: int, min: int, max: int)

  datatype DayForecast = DayForecast(
    date: string, temperature: Temperature, humidity: int, windSpeed: int,
    description: string, icon: string, precipitation: real)

  /** The payload returned to the client and stored in the cache. */
  datatype Processed = Processed(location: string, country: string, forecast: seq<DayForecast>)

  const MaxDays := 7

  /** `list.filter((_, index) => index % 8 === 0)`. */
  function EveryEighth<T>(s: seq<T>): seq<T>
  {
    if s == [] then []
    else EveryEighth(s[..|s| - 1]) + (if (|s| - 1) % 8 == 0 then [s[|s| - 1]] else [])
  }

  /** The filter keeps ceil(n/8) entries, entry i being input entry 8i. */
  lemma {:induction false} EveryEighthShape<T>(s: seq<T>)
    ensures |EveryEighth(s)| == (|s| + 7) / 8
    ensures forall i :: 0 <= i < |EveryEighth(s)| ==> 8 * i < |s| && EveryEighth(s)[i] == s[8 * i]
  {
    if s != [] {
      var p := s[..|s| - 1];
      EveryEighthShape(p);
      assert forall i :: 0 <= i < |p| ==> p[i] == s[i];
    }
  }

  /** `x.slice(0, n)`. */
  function Take<T>(s: seq<T>, n: nat): (r: seq<T>)
    ensures |r| == if |s| < n then |s| else n
    ensures r <= s
  {
    if |s| <= n then s else s[..n]
  }

  /** The upstream entries that become forecast days. */
  function KeptItems(list: seq<ForecastItem>): seq<ForecastItem>
  {
    Take(EveryEighth(list), MaxDays)
  }

  /** `Math.round(x * 100) / 100`. */
  function RoundHundredths(x: real): (r: real)
    ensures x - 0.005 < r <= x + 0.005
    ensures (r * 100.0).Floor as real == r * 100.0
  {
    var n := Round(x * 100.0);
    assert (n as real / 100.0) * 100.0 == n as real;
    n as real / 100.0
  }

  /** `item.rain?.['3h'] || 0`, rounded to hundredths. */
  function Precipitation(rain3h: Option<real>): real
  {
    RoundHundredths(rain3h.GetOr(0.0))
  }

  /** One daily entry; reading `weather[0]` needs a non-empty condition list. */
  function ToDay(item: ForecastItem): DayForecast
    requires item.weather != []
  {
    DayForecast(
      PrefixBefore(item.dtTxt, ' '),
      Temperature(Round(item.temp), Round(item.tempMin), Round(item.tempMin), Round(item.tempMax)),
      item.humidity,
      Round(item.windSpeed * 3.6),
      item.weather[0].description,
      item.weather[0].icon,
      Precipitation(item.rain3h))
  }

  /** The `map` over the kept entries; None where one of them throws for lack of `weather[0]`. */
  function ToDays(items: seq<ForecastItem>): (r: Option<seq<DayForecast>>)
    ensures r.Some? <==> forall i :: 0 <= i < |items| ==> items[i].weather != []
    ensures r.Some? ==> |r.value| == |items| && forall i :: 0 <= i < |items| ==> r.value[i] == ToDay(items[i])
  {
    if items == [] then Some([])
    else if items[0].weather == [] then None
    else match ToDays(items[1..])
      case None => None
      case Some(rest) => Some([ToDay(items[0])] + rest)
  }

  /** The `processed` object built from an upstream response. */
  function Reshape(resp: ForecastResponse): Option<Processed>
  {
    match ToDays(KeptItems(resp.list))
    case None => None
    case Some(days) => Some(Processed(resp.cityName, resp.country, days))
  }

  /**
   * For n upstream entries the forecast has min(7, ceil(n/8)) days, day i coming from entry 8i;
   * the reshaping fails exactly when one of those entries has no condition.
   */
  lemma ReshapeShape(resp: ForecastResponse)
    ensures var n := |resp.list|;
      var days := if (n + 7) / 8 < MaxDays then (n + 7) / 8 else MaxDays;
      && (Reshape(resp).Some? <==> forall i :: 0 <= i < days ==> resp.list[8 * i].weather != [])
      && (Reshape(resp).Some? ==>
            && Reshape(resp).value.location == resp.cityName
            && Reshape(resp).value.country == resp.country
            && |Reshape(resp).value.forecast| == days
            && forall i :: 0 <= i < days ==> Reshape(resp).value.forecast[i] == ToDay(resp.list[8 * i]))
  {
    EveryEighthShape(resp.list);
    var kept := KeptItems(resp.list);
    assert forall i :: 0 <= i < |kept| ==> kept[i] == EveryEighth(resp.list)[i];
  }

  /**
   * The fields of a daily entry: the date is `dt_txt` up to its first space, night and min are both
   * the rounded minimum, wind is converted from m/s to km/h, missing rain is 0, and rain is a whole
   * number of hundredths nearest the upstream value.
   */
  lemma DayFields(item: ForecastItem)
    requires item.weather != []
    ensures var day := ToDay(item);
      && day.date <= item.dtTxt && ' ' !in day.date
      && (day.date == item.dtTxt || item.dtTxt[|day.date|] == ' ')
      && day.temperature.night == day.temperature.min == Round(item.tempMin)
      && day.windSpeed == Round(item.windSpeed * 3.6)
      && (item.rain3h.None? ==> day.precipitation == 0.0)
      && (item.rain3h.Some? ==> item.rain3h.value - 0.005 < day.precipitation <= item.rain3h.value + 0.005)
      && (day.precipitation * 100.0).Floor as real == day.precipitation * 100.0
  {
  }

  // ---------------------------------------------------------------------------------------
  // The cache and the handler
  // ---------------------------------------------------------------------------------------

  datatype WeatherRequest = WeatherRequest(lat: string, lon: string, location: Option<string>)

  /** One `weather_cache` row: the payload and its expiry time in milliseconds. */
  datatype CacheEntry = CacheEntry(data: Processed, expiresAt: int)

  /** What the upstream forecast request produced. */
  datatype Upstream = FetchThrew | NotOk | Fetched(body: ForecastResponse)

  datatype WeatherReply = ErrorReply(status: int, error: string) | DataReply(data: Processed, cached: bool)

  /** One hour, in milliseconds. */
  const CacheLifetimeMs := 60 * 60 * 1000

  /** `location || \`${lat},${lon}\``: the location when it is a non-empty string, else "lat,lon". */
  function CacheKey(req: WeatherRequest): (key: string)
    ensures req.location.Some? && req.location.value != "" ==> key == req.location.value
    ensures req.location.None? || req.location.value == "" ==> key == req.lat + "," + req.lon
  {
    if req.location.Some? && req.location.value != "" then req.location.value else req.lat + "," + req.lon
  }

  /**
   * Requests naming the same location share a cache row whatever their coordinates, and a
   * location spelled like coordinates shares the row of a request for those coordinates.
   */
  lemma CacheKeySharing(a: WeatherRequest, b: WeatherRequest)
    ensures a.location == b.location && a.location.Some? && a.location.value != "" ==> CacheKey(a) == CacheKey(b)
    ensures a.location.None? && b.location == Some(a.lat + "," + a.lon) ==> CacheKey(a) == CacheKey(b)
  {
    if a.location.None? && b.location == Some(a.lat + "," + a.lon) {
      assert |b.location.value| > 0;
    }
  }

  /** The `weather_cache` table, keyed by location. */
  class WeatherCache {
    var rows: map<string, CacheEntry>

    constructor()
      ensures rows == map[]
    {
      rows := map[];
    }

    /** The lookup `eq('location', key).gt('expires_at', now)`. */
    function Lookup(key: string, now: int): (r: Option<Processed>)
      reads this
      ensures r.Some? <==> key in rows && rows[key].expiresAt > now
      ensures r.Some? ==> r.value == rows[key].data
    {
      if key in rows && rows[key].expiresAt > now then Some(rows[key].data) else None
    }

    /**
     * The handler after the request has been parsed. `now` is the clock at the lookup,
     * `writeTime` the clock at the upsert; `lookupOk`/`upsertOk` say whether those queries reached
     * the table (a failed lookup reads as a miss, a failed upsert is ignored).
     */
    method GetWeather(req: WeatherRequest, apiKey: string, now: int, lookupOk: bool,
                      upstream: Upstream, writeTime: int, upsertOk: bool) returns (reply: WeatherReply)
      modifies this
      ensures var key := CacheKey(req);
        var hit := if lookupOk then old(Lookup(key, now)) else None;
        if apiKey == "" then
          reply == ErrorReply(500, "Weather service not configured") && rows == old(rows)
        else if hit.Some? then
          reply == DataReply(hit.value, true) && rows == old(rows)
        else match upstream
          case FetchThrew => reply == ErrorReply(500, "Internal server error") && rows == old(rows)
          case NotOk => reply == ErrorReply(500, "Failed to fetch weather data") && rows == old(rows)
          case Fetched(body) =>
            match Reshape(body)
            case None => reply == ErrorReply(500, "Internal server error") && rows == old(rows)
            case Some(p) =>
              && reply == DataReply(p, false)
              && rows == if upsertOk then old(rows)[key := CacheEntry(p, writeTime + CacheLifetimeMs)] else old(rows)
      ensures (apiKey != "" && (!lookupOk || old(Lookup(CacheKey(req), now)).None?) && upstream.Fetched?
               && Reshape(upstream.body).Some? && upsertOk) ==>
        && (forall t :: t < writeTime + CacheLifetimeMs ==> Lookup(CacheKey(req), t) == Reshape(upstream.body))
        && Lookup(CacheKey(req), writeTime + CacheLifetimeMs).None?
      ensures forall k, t :: k != CacheKey(req) ==> Lookup(k, t) == old(Lookup(k, t))
    {
      if apiKey == "" {
        return ErrorReply(500, "Weather service not configured");
      }
      var key := CacheKey(req);
      var cached := if lookupOk then Lookup(key, now) else None;
      if cached.Some? {
        return DataReply(cached.value, true);
      }
      match upstream {
        case FetchThrew =>
          return ErrorReply(500, "Internal server error");
        case NotOk =>
          return ErrorReply(500, "Failed to fetch weather data");
        case Fetched(body) =>
          var processed := Reshape(body);
          if processed.None? {
            return ErrorReply(500, "Internal server error");
          }
          if upsertOk {
            rows := rows[key := CacheEntry(processed.value, writeTime + CacheLifetimeMs)];
          }
          reply := DataReply(processed.value, false);
      }
    }
  }
}
