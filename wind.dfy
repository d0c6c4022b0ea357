/** The wind resolver: a process-wide cache in front of an ordered chain of
    two remote forecast queries and a fixed default (main.py:9-51). */
module Wind {

  /** Fallback wind speed (m/s) and direction (degrees, where the wind blows to). */
  const DEFAULT_SPD: real := 10.0
  const DEFAULT_DIR: real := 315.0
  /** A cache entry younger than this many seconds is reused. */
  const CACHE_TTL: real := 600.0

  datatype Option<T> = None | Some(value: T)

  /** The tier of the fallback chain that produced a sample. */
  datatype Source = OpenMeteo | OpenMeteoAlt | Default {
    /** The label reported to callers. */
    function Label(): string {
      match this
      case OpenMeteo => "Open-Meteo"
      case OpenMeteoAlt => "Open-Meteo(alt)"
      case Default => "Default"
    }
  }

  /** What a remote query yields when it succeeds: speed and direction. */
  datatype Reading = Reading(ws: real, wd: real)

  /** What the resolver returns: speed, direction and provenance. */
  datatype Sample = Sample(ws: real, wd: real, src: Source)

  /** A cached sample with the time it was written. */
  datatype Entry = Entry(ws: real, wd: real, src: Source, t: real)

  /** A grid cell of roughly 1.1 km: latitude and longitude rounded to hundredths of a degree. */
  datatype Key = Key(lat: real, lon: real)

  /** What the outside world answers during one resolver call: the clock and
      the outcome of each remote query (None for any failure or timeout). */
  datatype Environment = Environment(now: real, primary: Option<Reading>, alternate: Option<Reading>)

  /** The sample, new cache and remote sources consulted, in order, of one call. */
  datatype Resolution = Resolution(sample: Sample, cache: map<Key, Entry>, tried: seq<Source>)

  /** Rounding to hundredths of a degree, ties upward. */
  function Round2(x: real): (y: real)
    ensures -0.005 < y - x <= 0.005
    ensures (y * 100.0).Floor as real == y * 100.0
  {
    (x * 100.0 + 0.5).Floor as real / 100.0
  }

  /** The cache key of a coordinate: the nearest point on the grid of
      hundredths of a degree, so nearby positions share an entry. */
  function KeyOf(lat: real, lon: real): (k: Key)
    ensures -0.005 < k.lat - lat <= 0.005 && -0.005 < k.lon - lon <= 0.005
    ensures (k.lat * 100.0).Floor as real == k.lat * 100.0 && (k.lon * 100.0).Floor as real == k.lon * 100.0
  {
    Key(Round2(lat), Round2(lon))
  }

  /** Whether the cache holds an entry for key that is still fresh at time now. */
  predicate Fresh(cache: map<Key, Entry>, key: Key, now: real)
    ensures Fresh(cache, key, now) ==> key in cache
    ensures key in cache && now >= cache[key].t + CACHE_TTL ==> !Fresh(cache, key, now)
  {
    key in cache && now - cache[key].t < CACHE_TTL
  }

  function Stored(e: Entry): Sample {
    Sample(e.ws, e.wd, e.src)
  }

  /** The sample a cache miss settles on: the first source that answers, else the default. */
  function Fallback(primary: Option<Reading>, alternate: Option<Reading>): (s: Sample)
    ensures s.src == OpenMeteo <==> primary.Some?
    ensures s.src == OpenMeteoAlt <==> primary.None? && alternate.Some?
    ensures s.src == Default <==> primary.None? && alternate.None?
    ensures primary.Some? ==> s.ws == primary.value.ws && s.wd == primary.value.wd
    ensures s.src == OpenMeteoAlt ==> s.ws == alternate.value.ws && s.wd == alternate.value.wd
    ensures s.src == Default ==> s.ws == DEFAULT_SPD && s.wd == DEFAULT_DIR
  {
    match primary
    case Some(r) => Sample(r.ws, r.wd, OpenMeteo)
    case None =>
      match alternate
      case Some(r) => Sample(r.ws, r.wd, OpenMeteoAlt)
      case None => Sample(DEFAULT_SPD, DEFAULT_DIR, Default)
  }

  /** Reference definition of one resolver call on key against cache. */
  function Resolve(cache: map<Key, Entry>, key: Key, env: Environment): (r: Resolution)
    // whatever path is taken, the key then holds exactly the returned sample
    ensures key in r.cache && Stored(r.cache[key]) == r.sample
    // a fresh hit consults nothing and changes nothing
    ensures Fresh(cache, key, env.now) ==> r.cache == cache && r.tried == []
    // a miss consults the primary source first, and the alternate only after it failed
    ensures !Fresh(cache, key, env.now) ==>
              r.cache[key].t == env.now && r.sample == Fallback(env.primary, env.alternate)
              && 1 <= |r.tried| <= 2 && r.tried == [OpenMeteo, OpenMeteoAlt][..|r.tried|]
    ensures OpenMeteoAlt in r.tried <==> !Fresh(cache, key, env.now) && env.primary.None?
  {
    if Fresh(cache, key, env.now) then
      Resolution(Stored(cache[key]), cache, [])
    else
      var s := Fallback(env.primary, env.alternate);
      Resolution(s, cache[key := Entry(s.ws, s.wd, s.src, env.now)],
                 if env.primary.Some? then [OpenMeteo] else [OpenMeteo, OpenMeteoAlt])
  }

  /** A call writes at most its own key: every other entry stays as it was. */
  lemma ResolveFrame(cache: map<Key, Entry>, key: Key, env: Environment)
    ensures var r := Resolve(cache, key, env);
            r.cache.Keys == cache.Keys + {key}
            && forall k :: k in cache && k != key ==> r.cache[k] == cache[k]
  {
  }

  /** A second call for the same key less than CACHE_TTL after a miss returns
      the same sample, consults no source and leaves the cache as it was,
      whatever the remote sources would now answer. */
  lemma RepeatWithinTtlHits(cache: map<Key, Entry>, key: Key, first: Environment, second: Environment)
    requires !Fresh(cache, key, first.now)
    requires second.now - first.now < CACHE_TTL
    ensures var r1 := Resolve(cache, key, first);
            var r2 := Resolve(r1.cache, key, second);
            r2.sample == r1.sample && r2.cache == r1.cache && r2.tried == []
  {
  }

  /** An entry aged exactly CACHE_TTL is stale: the call goes back to the sources. */
  lemma AgedExactlyTtlIsMiss(cache: map<Key, Entry>, key: Key, env: Environment)
    requires key in cache && env.now - cache[key].t == CACHE_TTL
    ensures var r := Resolve(cache, key, env);
            r.tried != [] && r.tried[0] == OpenMeteo && r.cache[key].t == env.now
  {
  }

  /** With both remote sources down, a miss yields (10.0, 315.0, "Default"). */
  lemma BothSourcesFailGiveDefault(cache: map<Key, Entry>, key: Key, env: Environment)
    requires !Fresh(cache, key, env.now)
    requires env.primary.None? && env.alternate.None?
    ensures var r := Resolve(cache, key, env);
            r.sample.ws == 10.0 && r.sample.wd == 315.0 && r.sample.src.Label() == "Default"
            && r.tried == [OpenMeteo, OpenMeteoAlt]
  {
  }

  /** The module-level wind cache together with the resolver that owns it. */
  class WindResolver {
    var cache: map<Key, Entry>

    constructor ()
      ensures cache == map[]
    {
      cache := map[];
    }

    /** Resolves the wind at (lat, lon); tried lists the remote sources
        consulted, in the order they were consulted. */
    method GetWind(lat: real, lon: real, env: Environment) returns (s: Sample, ghost tried: seq<Source>)
      modifies this
      ensures Resolution(s, cache, tried) == Resolve(old(cache), KeyOf(lat, lon), env)
      ensures Fresh(old(cache), KeyOf(lat, lon), env.now) ==>
                s == Stored(old(cache)[KeyOf(lat, lon)]) && cache == old(cache)
      ensures !Fresh(old(cache), KeyOf(lat, lon), env.now) ==>
                cache == old(cache)[KeyOf(lat, lon) := Entry(s.ws, s.wd, s.src, env.now)]
    {
      var key := KeyOf(lat, lon);
      if key in cache && env.now - cache[key].t < CACHE_TTL {
        var e := cache[key];
        return Sample(e.ws, e.wd, e.src), [];
      }

      tried := [OpenMeteo];
      if env.primary.Some? {
        var r := env.primary.value;
        cache := cache[key := Entry(r.ws, r.wd, OpenMeteo, env.now)];
        return Sample(r.ws, r.wd, OpenMeteo), tried;
      }

      tried := tried + [OpenMeteoAlt];
      if env.alternate.Some? {
        var r := env.alternate.value;
        cache := cache[key := Entry(r.ws, r.wd, OpenMeteoAlt, env.now)];
        return Sample(r.ws, r.wd, OpenMeteoAlt), tried;
      }

      cache := cache[key := Entry(DEFAULT_SPD, DEFAULT_DIR, Default, env.now)];
      s := Sample(DEFAULT_SPD, DEFAULT_DIR, Default);
    }
  }
}
