/** composables/core/usePerformance.ts: the in-memory cache with expiry
    (useMemoryCache) and the image URL builder (optimizeImage). `now` stands for
    `Date.now()`. */
module Performance {
  import opened Common
  import opened Strings

  datatype CacheItem<T> = CacheItem(data: T, expires: int)

  /** `get()`: the result and the map afterwards. An entry whose expiry time has
      passed is deleted and reads as null; one that expires exactly now is still
      returned. */
  function CacheGet<T>(cache: map<string, CacheItem<T>>, key: string, now: int): (r: (Option<T>, map<string, CacheItem<T>>))
    ensures key !in cache ==> r == (None, cache)
    ensures key in cache && now > cache[key].expires ==> r == (None, cache - {key})
    ensures key in cache && now <= cache[key].expires ==> r == (Some(cache[key].data), cache)
  {
    if key !in cache then (None, cache)
    else if now > cache[key].expires then (None, cache - {key})
    else (Some(cache[key].data), cache)
  }

  /** `set(data)`: a new entry expiring `ttl` milliseconds from now replaces any old one. */
  function CacheSet<T>(cache: map<string, CacheItem<T>>, key: string, data: T, now: int, ttl: int): (r: map<string, CacheItem<T>>)
    ensures key in r && r[key] == CacheItem(data, now + ttl)
    ensures forall k :: k in r && k != key ==> k in cache && r[k] == cache[k]
    ensures forall k :: k in cache ==> k in r
  {
    cache[key := CacheItem(data, now + ttl)]
  }

  /** A value set is read back until its time is up, and not after; the read after
      expiry leaves the cache empty for that key. */
  lemma GetAfterSet<T>(cache: map<string, CacheItem<T>>, key: string, data: T, now: int, ttl: int, later: int)
    ensures var c := CacheSet(cache, key, data, now, ttl);
            CacheGet(c, key, later).0 == (if later <= now + ttl then Some(data) else None)
    ensures var c := CacheSet(cache, key, data, now, ttl);
            later > now + ttl ==> key !in CacheGet(c, key, later).1
  {
  }

  /** Nothing is read after `clear()`. */
  lemma GetAfterClear<T>(cache: map<string, CacheItem<T>>, key: string, now: int)
    ensures CacheGet(cache - {key}, key, now) == (None, cache - {key})
  {
  }

  /** The cache of one `useMemoryCache(key, ttl)` call. */
  class MemoryCache<T> {
    const key: string
    const ttl: int
    var cache: map<string, CacheItem<T>>

    /** Only the instance's own key is ever stored. */
    ghost predicate Valid()
      reads this
    {
      cache.Keys <= {key}
    }

    /** `ttl` is the optional argument, 5 minutes by default. */
    constructor(key: string, ttl: Option<int>)
      ensures this.key == key && this.ttl == ttl.GetOr(300000) && cache == map[]
      ensures Valid()
    {
      this.key := key;
      this.ttl := ttl.GetOr(300000);
      cache := map[];
    }

    method Get(now: int) returns (r: Option<T>)
      modifies this
      ensures (r, cache) == CacheGet(old(cache), key, now)
      ensures old(Valid()) ==> Valid()
    {
      if key !in cache {
        return None;
      }
      var item := cache[key];
      if now > item.expires {
        cache := cache - {key};
        return None;
      }
      return Some(item.data);
    }

    method Set(data: T, now: int)
      modifies this
      ensures cache == CacheSet(old(cache), key, data, now, ttl)
      ensures old(Valid()) ==> Valid()
    {
      cache := cache[key := CacheItem(data, now + ttl)];
    }

    method Clear()
      modifies this
      ensures cache == old(cache) - {key}
      ensures old(Valid()) ==> Valid() && cache == map[]
    {
      cache := cache - {key};
    }
  }

  datatype ImageFormat = Webp | Jpg | Png {
    function Name(): string {
      match this
      case Webp => "webp"
      case Jpg => "jpg"
      case Png => "png"
    }
  }

  /** The optional `options` argument; a missing property takes its default. */
  datatype ImageOptions = ImageOptions(width: Option<int>, height: Option<int>, quality: Option<int>, format: Option<ImageFormat>)

  /** The query string appended to a remote image. */
  function ImageQuery(width: int, height: Option<int>, quality: int, format: ImageFormat): string {
    "?w=" + IntToString(width) + "&q=" + IntToString(quality) + "&f=" + format.Name()
    + (if IsNonZero(height) then "&h=" + IntToString(height.value) else "")
  }

  /** optimizeImage. */
  function OptimizeImage(src: string, options: Option<ImageOptions>): (r: string)
    ensures !StartsWith(src, "http") ==> r == src
    ensures StartsWith(src, "http") ==>
              var o := options.GetOr(ImageOptions(None, None, None, None));
              r == src + ImageQuery(o.width.GetOr(800), o.height, o.quality.GetOr(80), o.format.GetOr(Webp))
  {
    var o := options.GetOr(ImageOptions(None, None, None, None));
    if StartsWith(src, "http") then src + ImageQuery(o.width.GetOr(800), o.height, o.quality.GetOr(80), o.format.GetOr(Webp))
    else src
  }

  /** With no options a remote image asks for 800 pixels wide, quality 80, WebP, and
      no height. */
  lemma DefaultImageQuery()
    ensures ImageQuery(800, None, 80, Webp) == "?w=800&q=80&f=webp"
  {
    assert NatToString(8) == "8";
    assert NatToString(80) == "80";
    assert NatToString(800) == "800";
  }

  /** The height appears exactly when a non-zero one is given, at the end. */
  lemma HeightOnlyWhenGiven(w: int, h: Option<int>, q: int, f: ImageFormat)
    ensures IsNonZero(h) ==> ImageQuery(w, h, q, f) == ImageQuery(w, None, q, f) + "&h=" + IntToString(h.value)
    ensures !IsNonZero(h) ==> ImageQuery(w, h, q, f) == ImageQuery(w, None, q, f)
  {
  }

  /** The built URL only ever extends the source. */
  lemma OptimizedExtendsSource(src: string, options: Option<ImageOptions>)
    ensures src <= OptimizeImage(src, options)
  {
    var r := OptimizeImage(src, options);
    if StartsWith(src, "http") {
      var o := options.GetOr(ImageOptions(None, None, None, None));
      var q := ImageQuery(o.width.GetOr(800), o.height, o.quality.GetOr(80), o.format.GetOr(Webp));
      assert (src + q)[..|src|] == src;
    }
  }
}
