# Image server core, modelled in Dafny

This project models the request-handling core of a small Laravel image
server. The server has three parts:

- `ImageController` answers `show` (the original object, typed by its file
  extension) and `resize` (a `WxH` or `WxH!` size token, validated and then
  applied).
- `ImageService` reads originals from an S3-compatible object store. It
  transforms them with the Intervention pixel library (GD or Vips) and
  caches results in a cache-aside flow.
- `ImageCacheService` builds cache keys with Laravel's salted `Hash::make`
  and wraps one Redis store that keeps each entry for one week.

The modules are:

- `Base`: bytes, `Option`, `Result`, and the three HTTP failure kinds
  (invalid argument, not found, runtime) with their messages.
- `Decimal`: digit strings and the naturals they denote. It covers what
  `(int)` reads and how `json_encode` writes an integer.
- `PathInfo`: `basename` and `pathinfo(..., PATHINFO_EXTENSION)` on
  '/'-separated paths.
- `Caching`: the key preimage, the salted hasher, the TTL store as a map
  from keys to entries with an expiry time, and the `ImageCacheService`
  class.
- `Imaging`:
  - `getStorageDisk` over an abstract object store;
  - `processImage` over an abstract pixel library;
  - the cache-aside specification `Serve`;
  - the `ImageService` class, whose methods change the shared cache and
    are proved against `Serve`.
- `Http`: the size-token recogniser, the integer casts, the 3000 limit,
  and the `show`/`resize` responses.

Three external systems become parameters:

- The object store is an `ObjectStore` value. It has a map of objects and a
  map of references whose access throws, with that exception's message.
- The pixel library is an `ImageManager` value with four partial
  primitives: `read`, `cover`, `resize` and `toWebp`.
- The clock is an integer `now`, in seconds. The random salt of each
  `Hash::make` call is a `Salt` parameter.

Behaviours of the code worth noting:

- The size pattern has no `D` modifier, so PCRE's `$` also matches before
  one final newline, and "10x20\n" is accepted.
- `(int)` of a digit string too large for an integer reads it as a double
  and caps it. A finite double saturates at `PHP_INT_MAX`, which the limit
  rejects. A value of 2^1024 - 2^970 or more overflows the double to +INF,
  and the cast gives 0, which the limit lets through (see Findings).
- `getStorageDisk` catches its own "not found" exception and rewraps it.
  A missing object therefore reports "Failed to retrieve image: Image not
  found at path: ...".
- A failing `cover`/`resize` is rewrapped twice. Its message carries the
  prefix "Image processing failed: " two times.
- `resize` never uses the cache service. Only `getProcessedImage` does.

## Model

| member | source | states |
|---|---|---|
| Http.DigitRun | app/Http/Controllers/ImageController.php:30 | a greedy `\d+` takes an all-digit prefix and stops only at a non-digit or at the end |
| Http.DigitRunStopsAt | app/Http/Controllers/ImageController.php:30 | a digit run followed by a non-digit is consumed exactly |
| Http.MatchSize | app/Http/Controllers/ImageController.php:30 | soundness of the match: when it reports groups, the token is two non-empty digit runs around 'x', an optional '!', and at most one final newline, spelled by exactly those groups |
| Http.MatchSizeComplete | app/Http/Controllers/ImageController.php:30 | completeness and uniqueness: every token in the pattern's language is matched, with exactly its groups |
| Http.MatchOfParts | app/Http/Controllers/ImageController.php:30 | two digit groups joined by 'x' and followed by an ending `Ending` admits ('', a newline, '!' or '!' plus a newline) match as those groups, with the crop flag true exactly for the endings that carry '!' |
| Http.CastOf | app/Http/Controllers/ImageController.php:34-35 | the cast is exact up to PHP_INT_MAX, saturates at PHP_INT_MAX below the double overflow and is 0 from it on; it exceeds 3000 exactly when the value lies above 3000 and below the double overflow |
| Http.ParseSize | app/Http/Controllers/ImageController.php:30-46 | malformed iff no match ('Invalid size parameter format'); for a match, accepted iff both cast values are at most 3000, with exactly those values and the '!' as crop flag, else 'Maximum dimension exceeded' |
| Http.ParseSizeOfMatch | app/Http/Controllers/ImageController.php:30-46 | a token in the language is judged by the cast values of its digit groups alone |
| Http.ParseSizeBelowOverflow | app/Http/Controllers/ImageController.php:30-46 | below the double overflow, a token in the language is accepted with exactly its values when both are at most 3000, and rejected as oversized otherwise |
| Http.ParseSizeOfNonMatch | app/Http/Controllers/ImageController.php:30-32 | a token outside the language is rejected with the format message |
| Http.RenderedSizeParses | app/Http/Controllers/ImageController.php:30-46 | round trip: the token written from any (width, height, crop) parses back to those values when both are at most 3000, zero included (no lower bound, 3000 inclusive); it is rejected as oversized exactly when a value lies above 3000 and below the double overflow |
| Http.HugeDimensionReadAsZero | app/Http/Controllers/ImageController.php:34-46 | as written: with the height at most 3000, a width at or beyond the double overflow is read as 0 and the token is accepted |
| Http.ParseSizeChecked | app/Http/Controllers/ImageController.php:30-46 | corrected: for a match, accepted iff both digit values are at most 3000, with exactly those values; every larger value is rejected as oversized |
| Http.CheckedAgreesBelowOverflow | app/Http/Controllers/ImageController.php:30-46 | the corrected parse gives the same verdict as the code whenever both values lie below the double overflow |
| Http.CheckedRenderedSizeParses | app/Http/Controllers/ImageController.php:30-46 | the corrected parse round-trips every rendered size up to 3000 and rejects every larger one, however large |
| Http.LeadingZeroIrrelevant | app/Http/Controllers/ImageController.php:34-35 | for a token in the pattern's language, one more leading '0' never changes the verdict: leading zeros are read as decimal digits |
| Http.FinalNewlineIrrelevant | app/Http/Controllers/ImageController.php:30 | a token in the pattern's language followed by one newline gets the same verdict as the token (a second newline makes it malformed, by BadEndingRejected) |
| Http.BadEndingRejected | app/Http/Controllers/ImageController.php:30-32 | after the second digit group, anything but '', '!', a newline or '!' plus a newline (for example "!!" or "%21") makes the token malformed |
| Http.Show | app/Http/Controllers/ImageController.php:18-26 | succeeds iff the object can be read; the body is the stored bytes, with status 200, type "image/" plus the path's extension and the one-year cache directive; a storage failure passes through unchanged |
| Http.Respond | app/Http/Controllers/ImageController.php:48-54 | succeeds iff the read and the processing succeed, with the processed bytes, status 200, "image/webp" and the one-year directive; a storage or processing failure passes through unchanged |
| Http.Resize | app/Http/Controllers/ImageController.php:28-55 | succeeds iff the token is valid and the read and the processing succeed, with status 200, "image/webp", the one-year directive and the processed bytes of the stored original; validation, storage and processing failures each pass through unchanged |
| Http.ResizeChecked | app/Http/Controllers/ImageController.php:28-55 | `resize` with the corrected limit: a successful answer always comes from a token whose digit values are both at most 3000 |
| Http.ValidationPrecedesStorage | app/Http/Controllers/ImageController.php:30-48 | a rejected token gets the same answer whatever the object store and pixel library hold |
| Decimal.Value | app/Http/Controllers/ImageController.php:34-35 | the decimal value of an n-digit string is below 10^n, and at least 10^(n-1) without a leading zero |
| Decimal.Render | app/Services/ImageService.php:54 | the JSON spelling of a natural is non-empty, all digits, has no leading zero and denotes the natural |
| Decimal.RenderOfValue | app/Http/Controllers/ImageController.php:34-35 | every canonical digit string is the rendering of its value (Render and Value are inverse) |
| Decimal.LeadingZeroIgnored | app/Http/Controllers/ImageController.php:34-35 | a leading zero never changes the value a digit string denotes |
| Decimal.IntText | app/Services/ImageService.php:54 | the JSON spelling of an integer: its decimal value with no leading zero (just "0" for zero), preceded by '-' exactly for negatives |
| PathInfo.TrimTrailing | app/Http/Controllers/ImageController.php:23 | trailing '/' are dropped: the result is the prefix that ends in no '/' and is followed only by '/' |
| PathInfo.LastIndexOf | app/Http/Controllers/ImageController.php:23 | the position of the last occurrence of a character, or -1 when there is none |
| PathInfo.Basename | app/Http/Controllers/ImageController.php:23 | the basename holds no '/', and is empty iff the path is all slashes |
| PathInfo.BasenameIsLastComponent | app/Http/Controllers/ImageController.php:23 | the basename is the last component: a tail of the path without its trailing slashes that starts at the path's start or right after a '/' |
| PathInfo.BasenameOfName | app/Http/Controllers/ImageController.php:23 | a path without '/' is its own basename ("photo.jpg") |
| PathInfo.Extension | app/Http/Controllers/ImageController.php:23 | the extension holds no '.' or '/'; it is empty when the basename has no '.', and is otherwise what follows the basename's last '.' |
| PathInfo.BasenameOfJoin | app/Http/Controllers/ImageController.php:23 | the basename of "dir/name" is name, whatever dir holds |
| PathInfo.ExtensionOfJoin | app/Http/Controllers/ImageController.php:23 | the extension of "dir/stem.ext" is ext: dots in the directory or the stem never count |
| PathInfo.TrailingSlashIgnored | app/Http/Controllers/ImageController.php:23 | a trailing '/' changes neither the basename nor the extension |
| Caching.KeyPreimage | app/Services/ImageCacheService.php:14 | the preimage is "img_", the bucket, '_', the path, '_' and the size, laid out in that order |
| Caching.PreimageDeterminesSize | app/Services/ImageCacheService.php:14 | with bucket and path fixed, equal preimages have equal size components |
| Caching.PreimageNotInjective | app/Services/ImageCacheService.php:14 | two different (bucket, path) pairs share a preimage ("a_b","c" and "a","b_c") |
| Caching.UnderscoreShift | app/Services/ImageCacheService.php:14 | a bucket ending in "_x" with a path, and the bucket without "_x" with the path prefixed by "x_", give the same preimage |
| Caching.SizedDiffersFromUnsized | app/Services/ImageCacheService.php:12-14 | the default '' size leaves a final '_', so a preimage whose size does not end in '_' differs from every unsized one |
| Caching.ExpiryIsCutoff | app/Services/ImageCacheService.php:22-30 | expiry is a one-way cutoff: an entry live at some time was live at every earlier time, and one expired stays expired |
| Caching.Stored | app/Services/ImageCacheService.php:22-25 | after a put at time now, the key yields the value for every time in [now, now + 604800) and nothing after; every other key is unchanged |
| Caching.ImageCacheService.GetCacheKey | app/Services/ImageCacheService.php:12-15 | under a salt-sensitive hasher, hashing the same preimage with any other salt never gives this key |
| Caching.ImageCacheService.Get | app/Services/ImageCacheService.php:17-20 | returns `Lookup` of the current store: the value of the key when its entry has not expired at now, and nothing otherwise |
| Caching.ImageCacheService.Put | app/Services/ImageCacheService.php:22-25 | the store afterwards is the old one with the key set to the value for one week |
| Caching.ImageCacheService.Has | app/Services/ImageCacheService.php:27-30 | true iff `Live`: the key holds an entry whose expiry lies after now |
| Imaging.GetStorageDisk | app/Services/ImageService.php:26-50 | the object's bytes iff it exists and no access throws; every failure is not-found with the "Failed to retrieve image: " prefix, followed by the thrown message for a storage fault and by the rewrapped "Image not found at path: " message for a missing object |
| Imaging.ImageService.constructor | app/Services/ImageService.php:16-24 | the driver (`DriverFor`) is Vips exactly for the setting 'vips' and GD otherwise, and the manager is the one built for that driver; the cache is kept |
| Imaging.ProcessImage | app/Services/ImageService.php:76-100 | succeeds iff decode, the reshape chosen by `Reshape` (cover when cropping, resize otherwise) and the WebP encoding at quality 80 all succeed, with the encoder's bytes; every failure is runtime with the prefix before the primitive's message, a reshape failure carrying the prefix twice |
| Imaging.CropNeverResizes | app/Services/ImageService.php:84-91 | with crop set the result does not depend on the resize primitive |
| Imaging.FitNeverCovers | app/Services/ImageService.php:84-91 | without crop the result does not depend on the cover primitive |
| Imaging.JsonEncode | app/Services/ImageService.php:54 | the JSON of the options is a braced object |
| Imaging.SizeComponent | app/Services/ImageService.php:54 | the size component is empty exactly for null and empty options, and the JSON of the options otherwise |
| Imaging.Produce | app/Services/ImageService.php:60-69 | on a miss, falsy options return the original unchanged; truthy ones return processImage's own result on the original, failures included, with forceCrop defaulting to false; a storage failure passes through unchanged |
| Imaging.Serve | app/Services/ImageService.php:52-74 | a hit returns the cached bytes and writes nothing; a miss returns what Produce makes; only the key is written, with the value returned, always on a successful miss and never on a failure |
| Imaging.HitTouchesNoStorage | app/Services/ImageService.php:56-58 | a hit does not depend on the object store or the pixel library |
| Imaging.EmptyOptionsLikeNull | app/Services/ImageService.php:54-62 | an empty options array gives the same size component and the same outcome as null |
| Imaging.SaltedRepeatMisses | app/Services/ImageService.php:54-58 | as written: two identical requests compute different keys, so the first call's write is never found by the second; whenever the second key is not already live, the second call misses and reads the object store again |
| Imaging.StableRepeatHits | app/Services/ImageService.php:52-74 | corrected: with a deterministic key, a repeat of a successful miss within the TTL returns the first result, leaves the store unchanged and needs neither store nor pixel library |
| Imaging.ImageService.ServeCached | app/Services/ImageService.php:56-73 | the imperative has/get, fetch, process, put sequence returns and leaves behind exactly what Serve specifies |
| Imaging.ImageService.GetProcessedImage | app/Services/ImageService.php:52-74 | `getProcessedImage` as written: Serve under the salted key of the preimage |
| Imaging.ImageService.GetProcessedImageStable | app/Services/ImageService.php:52-74 | the corrected flow: Serve under a deterministic digest of the preimage |

## Left out

- Storage::build's S3 configuration and transport: the object store is an abstract map. A `get` that returns null instead of throwing is not modelled.
- The Intervention pixel library, on either driver: `read`, `cover`, `resize` and `toWebp` are uninterpreted partial functions. Fit geometry (aspect ratio, no upsizing) is not stated, and neither is crop geometry.
- The in-place mutation of the decoded image by `cover`/`resize` is modelled as a value returned by the primitive.
- `ray(...)` debug output in `resize`: logging only.
- Hash::make's bcrypt internals: the hasher is a function of the preimage and a per-call salt, and it is only assumed to tell salts apart.
- Redis's own expiry timing and concurrent access: each call sees one map and one clock value. An entry expiring between `has` and `get` is not modelled; within one call both read the same time.
- Imaging.JsonEncode: states only that the output is a braced object. The key order (width, height, forceCrop as the array was built) and string escaping are not modelled; width and height are integers.
- Options are modelled as integer width and height with an optional boolean forceCrop. PHP would coerce numeric strings, whole-number floats and booleans given as options when calling processImage, and json_encode would spell them differently and include any extra keys; none of that is modelled.
- PathInfo.Basename: models the ASCII-compatible locale; multibyte locale handling in PHP's basename is not modelled.
- Http.CastOf: assumes a correctly rounded decimal-to-double reading, so the overflow to +INF starts at 2^1024 - 2^970. The cast only sees ASCII digit strings, never a sign or other text.
- Middleware rate limiting, routing (whose route pattern also admits "%21"), CORS configuration and the welcome view: framework plumbing outside this core.
- Preview paths, ETags and zero-dimension inference: the code has none.

## Findings

| source | as written | input that shows it | evidently intended | confidence | as-written member | corrected member |
|---|---|---|---|---|---|---|
| app/Services/ImageCacheService.php:14 | the cache key is `Hash::make` of the preimage, a salted hash that differs on every call | two identical `getProcessedImage` calls: the second computes a new key, misses, reads the object store and writes another entry | a deterministic digest, so repeated requests within the week hit the cache | not executed | Imaging.SaltedRepeatMisses | Imaging.StableRepeatHits |
| app/Http/Controllers/ImageController.php:34-35 | the limit is tested after `(int)`, which turns a digit string beyond the double range into 0 | "1" followed by 400 zeros, then "x100": accepted as a 0 by 100 resize | every dimension above 3000 is rejected, however many digits it has | not executed | Http.HugeDimensionReadAsZero | Http.ParseSizeChecked |
