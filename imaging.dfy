/** ImageService: reading an original from the object store, transforming
    it with the pixel library, and the cache-aside flow around both. The
    object store and the pixel library are parameters; the cache is the
    shared store of Caching.ImageCacheService. */
module Imaging {
  import opened Base
  import opened Decimal
  import opened Caching

  // ---------------------------------------------------------------- storage

  datatype ObjectRef = ObjectRef(bucket: string, path: string)

  /** The object store as seen by one request: the objects it holds, and the
      references whose disk build, `exists` or `get` throws, with the message
      of that exception. */
  datatype ObjectStore = ObjectStore(objects: map<ObjectRef, Bytes>, faults: map<ObjectRef, string>)

  const RetrieveFailedPrefix: string := "Failed to retrieve image: "
  const NotFoundPrefix: string := "Image not found at path: "

  /** `getStorageDisk`: the object's bytes, or a NotFoundHttp failure for a
      missing object and for every storage exception alike. The
      "not found" exception is itself caught and rewrapped. */
  function GetStorageDisk(store: ObjectStore, bucket: string, path: string): (r: Result<Bytes, HttpFailure>)
    ensures r.Ok? <==> ObjectRef(bucket, path) !in store.faults && ObjectRef(bucket, path) in store.objects
    ensures r.Ok? ==> r.value == store.objects[ObjectRef(bucket, path)]
    ensures r.Err? ==> r.error.NotFoundHttp? && RetrieveFailedPrefix <= r.error.message
    ensures ObjectRef(bucket, path) !in store.faults && ObjectRef(bucket, path) !in store.objects ==>
      r == Err(NotFoundHttp(RetrieveFailedPrefix + (NotFoundPrefix + path)))
    ensures ObjectRef(bucket, path) in store.faults ==>
      r == Err(NotFoundHttp(RetrieveFailedPrefix + store.faults[ObjectRef(bucket, path)]))
  {
    var ref := ObjectRef(bucket, path);
    if ref in store.faults then Err(NotFoundHttp(RetrieveFailedPrefix + store.faults[ref]))
    else if ref !in store.objects then Err(NotFoundHttp(RetrieveFailedPrefix + (NotFoundPrefix + path)))
    else Ok(store.objects[ref])
  }

  // ---------------------------------------------------------- pixel library

  datatype Driver = Gd | Vips

  /** The driver the service is built with: Vips only for the exact setting
      'vips'; any other setting, or none, selects GD. */
  function DriverFor(setting: Option<string>): Driver {
    if setting == Some("vips") then Vips else Gd
  }

  /** A decoded picture held by the pixel library. */
  datatype Image = Image(width: nat, height: nat, pixels: seq<int>)

  /** The primitives of an image manager; each either succeeds or throws
      with a message. */
  datatype ImageManager = ImageManager(
    read: Bytes -> Result<Image, string>,
    cover: (Image, int, int) -> Result<Image, string>,
    resize: (Image, int, int) -> Result<Image, string>,
    toWebp: (Image, int) -> Result<Bytes, string>)

  const ProcessingFailedPrefix: string := "Image processing failed: "
  const WebpQuality: int := 80

  /** The primitive chosen for the requested size: cover when cropping,
      resize otherwise. */
  function Reshape(manager: ImageManager, image: Image, width: int, height: int, crop: bool): Result<Image, string> {
    if crop then manager.cover(image, width, height) else manager.resize(image, width, height)
  }

  /** `processImage`: decode, reshape, encode as WebP at quality 80. Every
      failure leaves as a Runtime failure; a failing reshape is first
      rewrapped as an invalid argument, so its message carries the prefix
      twice. */
  function ProcessImage(manager: ImageManager, data: Bytes, width: int, height: int, crop: bool): (r: Result<Bytes, HttpFailure>)
    ensures r.Err? ==> r.error.Runtime? && ProcessingFailedPrefix <= r.error.message
    ensures r.Ok? <==>
      && manager.read(data).Ok?
      && Reshape(manager, manager.read(data).value, width, height, crop).Ok?
      && manager.toWebp(Reshape(manager, manager.read(data).value, width, height, crop).value, WebpQuality).Ok?
    ensures r.Ok? ==>
      r.value == manager.toWebp(Reshape(manager, manager.read(data).value, width, height, crop).value, WebpQuality).value
    ensures manager.read(data).Err? ==>
      r == Err(Runtime(ProcessingFailedPrefix + manager.read(data).error))
    ensures manager.read(data).Ok? && Reshape(manager, manager.read(data).value, width, height, crop).Err? ==>
      r == Err(Runtime(ProcessingFailedPrefix + (ProcessingFailedPrefix
                       + Reshape(manager, manager.read(data).value, width, height, crop).error)))
    ensures manager.read(data).Ok? && Reshape(manager, manager.read(data).value, width, height, crop).Ok? ==>
      var encoded := manager.toWebp(Reshape(manager, manager.read(data).value, width, height, crop).value, WebpQuality);
      encoded.Err? ==> r == Err(Runtime(ProcessingFailedPrefix + encoded.error))
  {
    match manager.read(data)
    case Err(m) => Err(Runtime(ProcessingFailedPrefix + m))
    case Ok(image) =>
      match Reshape(manager, image, width, height, crop)
      case Err(m) =>
        var inner := InvalidArgument(ProcessingFailedPrefix + m);
        Err(Runtime(ProcessingFailedPrefix + inner.message))
      case Ok(shaped) =>
        match manager.toWebp(shaped, WebpQuality)
        case Err(m) => Err(Runtime(ProcessingFailedPrefix + m))
        case Ok(bytes) => Ok(bytes)
  }

  /** With crop set, the plain resize primitive is never consulted. */
  lemma CropNeverResizes(manager: ImageManager, other: (Image, int, int) -> Result<Image, string>,
                         data: Bytes, width: int, height: int)
    ensures ProcessImage(manager.(resize := other), data, width, height, true)
         == ProcessImage(manager, data, width, height, true)
  {
  }

  /** Without crop, the cover primitive is never consulted. */
  lemma FitNeverCovers(manager: ImageManager, other: (Image, int, int) -> Result<Image, string>,
                       data: Bytes, width: int, height: int)
    ensures ProcessImage(manager.(cover := other), data, width, height, false)
         == ProcessImage(manager, data, width, height, false)
  {
  }

  // ------------------------------------------------------------ cache-aside

  /** The `?array $options` argument: null, an empty array, or the resize
      options (a missing 'forceCrop' is None). */
  datatype Options = Absent | Empty | Given(width: int, height: int, forceCrop: Option<bool>)

  /** `json_encode` of the options array, keys in the order width, height,
      forceCrop. */
  function JsonEncode(width: int, height: int, forceCrop: Option<bool>): (s: string)
    ensures |s| >= 2 && s[0] == '{' && s[|s| - 1] == '}'
  {
    "{\"width\":" + IntText(width) + ",\"height\":" + IntText(height)
      + (match forceCrop
         case None => ""
         case Some(c) => ",\"forceCrop\":" + (if c then "true" else "false"))
      + "}"
  }

  /** The size part of the key: the JSON of truthy options, '' for null and
      for an empty array alike. */
  function SizeComponent(options: Options): (s: string)
    ensures s == [] <==> !options.Given?
    ensures options.Given? ==> s == JsonEncode(options.width, options.height, options.forceCrop)
  {
    if options.Given? then JsonEncode(options.width, options.height, options.forceCrop) else ""
  }

  /** The bytes a cache miss produces: the original as stored, transformed
      only when the options are truthy (forceCrop defaulting to false). */
  function Produce(store: ObjectStore, manager: ImageManager, bucket: string, path: string, options: Options)
    : (r: Result<Bytes, HttpFailure>)
    ensures !options.Given? ==> r == GetStorageDisk(store, bucket, path)
    ensures options.Given? && r.Ok? ==>
      && GetStorageDisk(store, bucket, path).Ok?
      && r == ProcessImage(manager, GetStorageDisk(store, bucket, path).value,
                           options.width, options.height, options.forceCrop.GetOr(false))
    ensures options.Given? && GetStorageDisk(store, bucket, path).Ok? ==>
      r == ProcessImage(manager, GetStorageDisk(store, bucket, path).value,
                        options.width, options.height, options.forceCrop.GetOr(false))
    ensures GetStorageDisk(store, bucket, path).Err? ==> r == Err(GetStorageDisk(store, bucket, path).error)
    ensures r.Err? ==> r.error.NotFoundHttp? || r.error.Runtime?
  {
    var data :- GetStorageDisk(store, bucket, path);
    if options.Given? then
      ProcessImage(manager, data, options.width, options.height, options.forceCrop.GetOr(false))
    else Ok(data)
  }

  /** What one call returns, and the store it leaves behind. */
  datatype Served = Served(result: Result<Bytes, HttpFailure>, entries: map<Key, Entry>)

  /** The cache-aside flow of `getProcessedImage` for a computed key. */
  function Serve(entries: map<Key, Entry>, key: Key, now: int, store: ObjectStore, manager: ImageManager,
                 bucket: string, path: string, options: Options): (s: Served)
    // a hit returns the stored value and writes nothing
    ensures Live(entries, key, now) ==> s == Served(Ok(entries[key].value), entries)
    // a miss returns what Produce makes
    ensures !Live(entries, key, now) ==> s.result == Produce(store, manager, bucket, path, options)
    // only the key is ever written, and with the value returned
    ensures s.entries == entries || (s.result.Ok? && s.entries == Stored(entries, key, s.result.value, now))
    // a successful miss always writes; a failure never does
    ensures !Live(entries, key, now) && s.result.Ok? ==> s.entries == Stored(entries, key, s.result.value, now)
    ensures s.result.Err? ==> s.entries == entries
  {
    if Live(entries, key, now) then Served(Ok(entries[key].value), entries)
    else
      match Produce(store, manager, bucket, path, options)
      case Err(e) => Served(Err(e), entries)
      case Ok(bytes) => Served(Ok(bytes), Stored(entries, key, bytes, now))
  }

  /** A hit depends on neither the object store nor the pixel library. */
  lemma HitTouchesNoStorage(entries: map<Key, Entry>, key: Key, now: int,
                            store1: ObjectStore, manager1: ImageManager,
                            store2: ObjectStore, manager2: ImageManager,
                            bucket: string, path: string, options: Options)
    requires Live(entries, key, now)
    ensures Serve(entries, key, now, store1, manager1, bucket, path, options)
         == Serve(entries, key, now, store2, manager2, bucket, path, options)
  {
  }

  /** An empty options array behaves exactly like null: same key, same outcome. */
  lemma EmptyOptionsLikeNull(entries: map<Key, Entry>, key: Key, now: int, store: ObjectStore,
                             manager: ImageManager, bucket: string, path: string)
    ensures SizeComponent(Empty) == SizeComponent(Absent) == ""
    ensures Serve(entries, key, now, store, manager, bucket, path, Empty)
         == Serve(entries, key, now, store, manager, bucket, path, Absent)
  {
  }

  /** As written: with a salted hasher, what one call stores is never found
      by a later identical call, because the later call draws another salt
      and so computes another key. Whenever the second key is not already
      live, the second call misses again and reads the object store again. */
  lemma SaltedRepeatMisses(cache: ImageCacheService, entries: map<Key, Entry>, store: ObjectStore,
                           manager: ImageManager, bucket: string, path: string, options: Options,
                           salt1: Salt, salt2: Salt, now1: int, now2: int)
    requires SaltSensitive(cache.hasher) && salt1 != salt2
    ensures
      var size := SizeComponent(options);
      var key1 := cache.GetCacheKey(bucket, path, size, salt1);
      var key2 := cache.GetCacheKey(bucket, path, size, salt2);
      var first := Serve(entries, key1, now1, store, manager, bucket, path, options);
      && key1 != key2
      && Live(first.entries, key2, now2) == Live(entries, key2, now2)
      && (!Live(entries, key2, now2) ==>
            Serve(first.entries, key2, now2, store, manager, bucket, path, options).result
            == Produce(store, manager, bucket, path, options))
  {
    var size := SizeComponent(options);
    var pre := KeyPreimage(bucket, path, size);
    assert cache.hasher(pre, salt1) != cache.hasher(pre, salt2);
    var key2 := cache.GetCacheKey(bucket, path, size, salt2);
    var first := Serve(entries, cache.GetCacheKey(bucket, path, size, salt1), now1, store, manager, bucket, path, options);
    assert Lookup(first.entries, key2, now2) == Lookup(entries, key2, now2);
  }

  /** Corrected: with a deterministic digest as the key, a repeat of a
      successful miss within the time to live is a hit that returns the same
      bytes, leaves the store as it was and needs neither the object store
      nor the pixel library. */
  lemma StableRepeatHits(digest: string -> Key, entries: map<Key, Entry>,
                         store1: ObjectStore, manager1: ImageManager,
                         store2: ObjectStore, manager2: ImageManager,
                         bucket: string, path: string, options: Options, now1: int, now2: int)
    requires
      var key := StableCacheKey(digest, bucket, path, SizeComponent(options));
      && !Live(entries, key, now1)
      && Serve(entries, key, now1, store1, manager1, bucket, path, options).result.Ok?
    requires now1 <= now2 < now1 + Ttl
    ensures
      var key := StableCacheKey(digest, bucket, path, SizeComponent(options));
      var first := Serve(entries, key, now1, store1, manager1, bucket, path, options);
      Serve(first.entries, key, now2, store2, manager2, bucket, path, options) == first
  {
    var key := StableCacheKey(digest, bucket, path, SizeComponent(options));
    var first := Serve(entries, key, now1, store1, manager1, bucket, path, options);
    assert Lookup(first.entries, key, now2) == Some(first.result.value);
  }

  /** The service: the image manager for its driver and the cache service. */
  class ImageService {
    const cache: ImageCacheService
    const driver: Driver
    const manager: ImageManager

    constructor(cache: ImageCacheService, setting: Option<string>, withDriver: Driver -> ImageManager)
      ensures this.cache == cache
      ensures driver == Vips <==> setting == Some("vips")
      ensures manager == withDriver(driver)
    {
      this.cache := cache;
      driver := DriverFor(setting);
      manager := withDriver(DriverFor(setting));
    }

    /** `getProcessedImage` as written: the key comes from the salted hasher. */
    method GetProcessedImage(store: ObjectStore, bucket: string, path: string, options: Options,
                             salt: Salt, now: int) returns (r: Result<Bytes, HttpFailure>)
      modifies cache
      ensures Served(r, cache.entries)
           == Serve(old(cache.entries), cache.GetCacheKey(bucket, path, SizeComponent(options), salt),
                    now, store, manager, bucket, path, options)
    {
      var key := cache.GetCacheKey(bucket, path, SizeComponent(options), salt);
      r := ServeCached(key, store, bucket, path, options, now);
    }

    /** The corrected flow: the key is a deterministic digest of the preimage. */
    method GetProcessedImageStable(digest: string -> Key, store: ObjectStore, bucket: string, path: string,
                                   options: Options, now: int) returns (r: Result<Bytes, HttpFailure>)
      modifies cache
      ensures Served(r, cache.entries)
           == Serve(old(cache.entries), StableCacheKey(digest, bucket, path, SizeComponent(options)),
                    now, store, manager, bucket, path, options)
    {
      var key := StableCacheKey(digest, bucket, path, SizeComponent(options));
      r := ServeCached(key, store, bucket, path, options, now);
    }

    /** Look the key up; on a hit return the cached bytes; on a miss fetch
        the original, transform it when options are truthy, store the result
        under the key and return it. An exception leaves before the store. */
    method ServeCached(key: Key, store: ObjectStore, bucket: string, path: string, options: Options,
                       now: int) returns (r: Result<Bytes, HttpFailure>)
      modifies cache
      ensures Served(r, cache.entries) == Serve(old(cache.entries), key, now, store, manager, bucket, path, options)
    {
      var hit := cache.Has(key, now);
      if hit {
        var cached := cache.Get(key, now);
        return Ok(cached.value);
      }
      var imageData := GetStorageDisk(store, bucket, path);
      if imageData.Err? {
        return Err(imageData.error);
      }
      var bytes := imageData.value;
      if options.Given? {
        var processed := ProcessImage(manager, bytes, options.width, options.height, options.forceCrop.GetOr(false));
        if processed.Err? {
          return Err(processed.error);
        }
        bytes := processed.value;
      }
      cache.Put(key, bytes, now);
      r := Ok(bytes);
    }
  }
}
