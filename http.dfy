/** ImageController: the `show` and `resize` actions. `resize` recognises
    the size token with the pattern /^(\d+)x(\d+)(!)?$/, casts both digit
    groups to integers, takes the crop flag from the '!', and rejects either
    dimension above 3000 before it touches storage. */
module Http {
  import opened Base
  import opened Decimal
  import PathInfo
  import opened Imaging

  const MaxDimension: int := 3000
  const CacheControl: string := "public, max-age=31536000"
  const InvalidFormatMessage: string := "Invalid size parameter format"
  const DimensionExceededMessage: string := "Maximum dimension exceeded"

  /** PHP_INT_MAX on a 64-bit build. */
  const PhpIntMax: int := 0x7FFF_FFFF_FFFF_FFFF

  datatype Response = Response(body: Bytes, status: nat, contentType: string, cacheControl: string)

  // ------------------------------------------------------------- size token

  /** The three capture groups of a successful match: both digit runs and
      whether the optional '!' group took part. */
  datatype SizeGroups = SizeGroups(width: string, height: string, bang: bool)

  /** The text the three groups spell out. */
  function Spelled(g: SizeGroups): string {
    g.width + "x" + g.height + (if g.bang then "!" else "")
  }

  /** The language of /^(\d+)x(\d+)(!)?$/ read with g as its groups. Without
      the D modifier, PCRE's `$` also matches just before a final newline,
      so the token may carry one trailing "\n". */
  ghost predicate MatchesAs(token: string, g: SizeGroups) {
    && |g.width| > 0 && AllDigits(g.width)
    && |g.height| > 0 && AllDigits(g.height)
    && (token == Spelled(g) || token == Spelled(g) + "\n")
  }

  /** The length of the longest all-digit prefix of s (what a greedy \d+
      consumes). */
  function DigitRun(s: string): (n: nat)
    ensures n <= |s| && AllDigits(s[..n])
    ensures n < |s| ==> !IsDigit(s[n])
    decreases |s|
  {
    if s != [] && IsDigit(s[0]) then
      var n := 1 + DigitRun(s[1..]);
      assert s[..n] == [s[0]] + s[1..][..n - 1];
      n
    else 0
  }

  /** A greedy digit run stops exactly where the digits stop. */
  lemma {:induction false} DigitRunStopsAt(d: string, rest: string)
    requires AllDigits(d)
    requires rest == [] || !IsDigit(rest[0])
    ensures DigitRun(d + rest) == |d|
    decreases |d|
  {
    if d != [] {
      assert (d + rest)[1..] == d[1..] + rest;
      DigitRunStopsAt(d[1..], rest);
    }
  }

  /** What may follow the second digit group: the optional '!' and then
      the end, or a final newline before the end. Gives the crop flag. */
  function Ending(tail: string): Option<bool> {
    if tail == "" || tail == "\n" then Some(false)
    else if tail == "!" || tail == "!\n" then Some(true)
    else None
  }

  /** preg_match of the size pattern: the groups when the token matches. */
  function MatchSize(token: string): (r: Option<SizeGroups>)
    ensures r.Some? ==> MatchesAs(token, r.value)
  {
    var n := DigitRun(token);
    if n == 0 || n == |token| || token[n] != 'x' then None
    else
      var rest := token[n + 1..];
      var m := DigitRun(rest);
      if m == 0 then None
      else
        match Ending(rest[m..])
        case None => None
        case Some(bang) =>
          var g := SizeGroups(token[..n], rest[..m], bang);
          assert token == token[..n] + "x" + rest[..m] + rest[m..];
          Some(g)
  }

  /** Two digit groups with an admissible ending are matched as exactly
      those groups. */
  lemma MatchOfParts(width: string, height: string, tail: string)
    requires |width| > 0 && AllDigits(width) && |height| > 0 && AllDigits(height)
    requires Ending(tail).Some?
    ensures MatchSize(width + ("x" + (height + tail))) == Some(SizeGroups(width, height, Ending(tail).value))
  {
    var token := width + ("x" + (height + tail));
    DigitRunStopsAt(width, "x" + (height + tail));
    var n := |width|;
    assert token[..n] == width;
    assert token[n] == 'x';
    var rest := token[n + 1..];
    assert rest == height + tail;
    DigitRunStopsAt(height, tail);
    assert rest[..|height|] == height;
    assert rest[|height|..] == tail;
  }

  /** The match is complete and its groups are unique: whenever the token is
      in the pattern's language with groups g, MatchSize finds exactly g. */
  lemma MatchSizeComplete(token: string, g: SizeGroups)
    requires MatchesAs(token, g)
    ensures MatchSize(token) == Some(g)
  {
    var bang := if g.bang then "!" else "";
    var tail := if token == Spelled(g) then bang else bang + "\n";
    assert Ending(tail) == Some(g.bang);
    assert token == g.width + ("x" + (g.height + tail));
    MatchOfParts(g.width, g.height, tail);
  }

  /** 2^1024 - 2^970: the least decimal value that rounds to +INF when read
      as an IEEE double (halfway between the largest finite double and 2^1024,
      where ties go to the even neighbour, +INF). */
  const DoubleOverflow: nat := 0xffff_ffff_ffff_fc00_0000_0000_0000_0000_0000_0000_0000_0000_0000_0000_0000_0000_0000_0000_0000_0000_0000_0000_0000_0000_0000_0000_0000_0000_0000_0000_0000_0000_0000_0000_0000_0000_0000_0000_0000_0000_0000_0000_0000_0000_0000_0000_0000_0000_0000_0000_0000_0000_0000_0000_0000_0000_0000_0000_0000_0000_0000_0000_0000_0000

  /** What `(int)` makes of a digit string denoting n. A value that fits is
      exact; a larger one is read as a double and capped: a finite double
      saturates at PHP_INT_MAX, while one that overflows to +INF becomes 0. */
  function CastOf(n: nat): (v: int)
    ensures 0 <= v <= n && v <= PhpIntMax
    ensures n <= PhpIntMax ==> v == n
    ensures PhpIntMax < n < DoubleOverflow ==> v == PhpIntMax
    ensures n >= DoubleOverflow ==> v == 0
    ensures v > MaxDimension <==> MaxDimension < n < DoubleOverflow
  {
    if n >= DoubleOverflow then 0 else if n > PhpIntMax then PhpIntMax else n
  }

  datatype SizeSpec = SizeSpec(width: int, height: int, crop: bool)

  /** Lines 30-46 of `resize`: match, cast, and the dimension limit, which
      is tested on the cast values. There is no lower bound: zero dimensions
      pass. */
  function ParseSize(token: string): (r: Result<SizeSpec, HttpFailure>)
    ensures MatchSize(token).None? <==> r == Err(InvalidArgument(InvalidFormatMessage))
    ensures MatchSize(token).Some? ==>
      var g := MatchSize(token).value;
      var width, height := CastOf(Value(g.width)), CastOf(Value(g.height));
      && (r.Ok? <==> width <= MaxDimension && height <= MaxDimension)
      && (r.Err? ==> r == Err(InvalidArgument(DimensionExceededMessage)))
      && (r.Ok? ==> r.value == SizeSpec(width, height, g.bang))
  {
    match MatchSize(token)
    case None => Err(InvalidArgument(InvalidFormatMessage))
    case Some(g) =>
      var width := CastOf(Value(g.width));
      var height := CastOf(Value(g.height));
      if width > MaxDimension || height > MaxDimension then Err(InvalidArgument(DimensionExceededMessage))
      else Ok(SizeSpec(width, height, g.bang))
  }

  /** A token in the pattern's language is judged by the cast values of its
      digit groups alone: accepted with exactly those values and the crop
      flag when both are at most 3000, rejected as oversized otherwise. */
  lemma ParseSizeOfMatch(token: string, g: SizeGroups)
    requires MatchesAs(token, g)
    ensures ParseSize(token) ==
      var width, height := CastOf(Value(g.width)), CastOf(Value(g.height));
      if width > MaxDimension || height > MaxDimension
      then Err(InvalidArgument(DimensionExceededMessage))
      else Ok(SizeSpec(width, height, g.bang))
  {
    MatchSizeComplete(token, g);
  }

  /** Below the double overflow the cast changes no verdict: the token is
      accepted with exactly the values of its digit groups when both are at
      most 3000, and rejected as oversized otherwise. */
  lemma ParseSizeBelowOverflow(token: string, g: SizeGroups)
    requires MatchesAs(token, g)
    requires Value(g.width) < DoubleOverflow && Value(g.height) < DoubleOverflow
    ensures ParseSize(token) ==
      if Value(g.width) > MaxDimension || Value(g.height) > MaxDimension
      then Err(InvalidArgument(DimensionExceededMessage))
      else Ok(SizeSpec(Value(g.width), Value(g.height), g.bang))
  {
    ParseSizeOfMatch(token, g);
  }

  /** A token outside the pattern's language is rejected as malformed. */
  lemma ParseSizeOfNonMatch(token: string)
    requires forall g :: !MatchesAs(token, g)
    ensures ParseSize(token) == Err(InvalidArgument(InvalidFormatMessage))
  {
  }

  /** Round trip through the canonical spelling: the token written from
      any pair of naturals (and the crop marker) parses back to those values
      when both are at most 3000, zero included; it is rejected as
      oversized exactly when a value lies above 3000 but below the double
      overflow. */
  lemma RenderedSizeParses(width: nat, height: nat, crop: bool)
    ensures width <= MaxDimension && height <= MaxDimension ==>
      ParseSize(Spelled(SizeGroups(Render(width), Render(height), crop))) == Ok(SizeSpec(width, height, crop))
    ensures ParseSize(Spelled(SizeGroups(Render(width), Render(height), crop))) ==
      if MaxDimension < width < DoubleOverflow || MaxDimension < height < DoubleOverflow
      then Err(InvalidArgument(DimensionExceededMessage))
      else Ok(SizeSpec(CastOf(width), CastOf(height), crop))
  {
    var g := SizeGroups(Render(width), Render(height), crop);
    ParseSizeOfMatch(Spelled(g), g);
  }

  /** As written: a dimension too large for a double is cast to 0 and passes
      the limit. "1" followed by 400 zeros, then "x100", is accepted as a
      0 by 100 resize. */
  lemma HugeDimensionReadAsZero(width: nat, height: nat, crop: bool)
    requires width >= DoubleOverflow && height <= MaxDimension
    ensures ParseSize(Spelled(SizeGroups(Render(width), Render(height), crop))) == Ok(SizeSpec(0, height, crop))
  {
    RenderedSizeParses(width, height, crop);
  }

  /** Corrected: the limit is tested on the values the digit groups denote,
      before any cast, so every value above 3000 is rejected. */
  function ParseSizeChecked(token: string): (r: Result<SizeSpec, HttpFailure>)
    ensures MatchSize(token).None? <==> r == Err(InvalidArgument(InvalidFormatMessage))
    ensures MatchSize(token).Some? ==>
      var g := MatchSize(token).value;
      && (r.Ok? <==> Value(g.width) <= MaxDimension && Value(g.height) <= MaxDimension)
      && (r.Err? ==> r == Err(InvalidArgument(DimensionExceededMessage)))
      && (r.Ok? ==> r.value == SizeSpec(Value(g.width), Value(g.height), g.bang))
  {
    match MatchSize(token)
    case None => Err(InvalidArgument(InvalidFormatMessage))
    case Some(g) =>
      if Value(g.width) > MaxDimension || Value(g.height) > MaxDimension then Err(InvalidArgument(DimensionExceededMessage))
      else Ok(SizeSpec(Value(g.width), Value(g.height), g.bang))
  }

  /** The correction changes nothing below the double overflow. */
  lemma CheckedAgreesBelowOverflow(token: string, g: SizeGroups)
    requires MatchesAs(token, g)
    requires Value(g.width) < DoubleOverflow && Value(g.height) < DoubleOverflow
    ensures ParseSizeChecked(token) == ParseSize(token)
  {
    MatchSizeComplete(token, g);
    ParseSizeBelowOverflow(token, g);
  }

  /** The corrected parse round-trips every rendered size and rejects every
      value above 3000, however large. */
  lemma CheckedRenderedSizeParses(width: nat, height: nat, crop: bool)
    ensures ParseSizeChecked(Spelled(SizeGroups(Render(width), Render(height), crop))) ==
      if width > MaxDimension || height > MaxDimension
      then Err(InvalidArgument(DimensionExceededMessage))
      else Ok(SizeSpec(width, height, crop))
  {
    var g := SizeGroups(Render(width), Render(height), crop);
    MatchSizeComplete(Spelled(g), g);
  }

  /** Leading zeros are read as decimal digits: for a token in the
      pattern's language, one more '0' in front never changes the verdict. */
  lemma LeadingZeroIrrelevant(g: SizeGroups)
    requires |g.width| > 0 && AllDigits(g.width) && |g.height| > 0 && AllDigits(g.height)
    ensures ParseSize("0" + Spelled(g)) == ParseSize(Spelled(g))
  {
    var z := g.(width := "0" + g.width);
    LeadingZeroIgnored(g.width);
    assert Spelled(z) == "0" + Spelled(g);
    ParseSizeOfMatch(Spelled(z), z);
    ParseSizeOfMatch(Spelled(g), g);
  }

  /** `$` lets one final newline through: after a token in the pattern's
      language it never changes the verdict. */
  lemma FinalNewlineIrrelevant(g: SizeGroups)
    requires |g.width| > 0 && AllDigits(g.width) && |g.height| > 0 && AllDigits(g.height)
    ensures ParseSize(Spelled(g) + "\n") == ParseSize(Spelled(g))
  {
    ParseSizeOfMatch(Spelled(g) + "\n", g);
    ParseSizeOfMatch(Spelled(g), g);
  }

  /** Anything else after the second digit group (a second '!', a
      percent-encoded one, text after the newline) makes the token
      malformed. */
  lemma BadEndingRejected(width: string, height: string, tail: string)
    requires |width| > 0 && AllDigits(width) && |height| > 0 && AllDigits(height)
    requires tail == [] || !IsDigit(tail[0])
    requires Ending(tail).None?
    ensures ParseSize(width + ("x" + (height + tail))) == Err(InvalidArgument(InvalidFormatMessage))
  {
    var token := width + ("x" + (height + tail));
    DigitRunStopsAt(width, "x" + (height + tail));
    var n := |width|;
    assert token[n] == 'x';
    var rest := token[n + 1..];
    assert rest == height + tail;
    DigitRunStopsAt(height, tail);
    assert rest[|height|..] == tail;
  }

  // ---------------------------------------------------------------- actions

  /** `show`: the original bytes with an image/<extension> type and a
      one-year public cache directive; storage failures pass through. */
  function Show(store: ObjectStore, bucket: string, path: string): (r: Result<Response, HttpFailure>)
    ensures r.Ok? <==> GetStorageDisk(store, bucket, path).Ok?
    ensures r.Ok? ==> r.value == Response(store.objects[ObjectRef(bucket, path)], 200,
                                          "image/" + PathInfo.Extension(path), CacheControl)
    ensures r.Err? ==> r.error == GetStorageDisk(store, bucket, path).error && r.error.NotFoundHttp?
  {
    var imageData :- GetStorageDisk(store, bucket, path);
    Ok(Response(imageData, 200, "image/" + PathInfo.Extension(path), CacheControl))
  }

  /** Lines 48-54 of `resize`, once the size is valid: read the original,
      process it, and answer with WebP; either failure passes through. */
  function Respond(store: ObjectStore, manager: ImageManager, size: SizeSpec, bucket: string, path: string)
    : (r: Result<Response, HttpFailure>)
    ensures r.Ok? <==>
      && GetStorageDisk(store, bucket, path).Ok?
      && ProcessImage(manager, GetStorageDisk(store, bucket, path).value, size.width, size.height, size.crop).Ok?
    ensures r.Ok? ==>
      r.value == Response(ProcessImage(manager, GetStorageDisk(store, bucket, path).value,
                                       size.width, size.height, size.crop).value,
                          200, "image/webp", CacheControl)
    ensures GetStorageDisk(store, bucket, path).Err? ==> r == Err(GetStorageDisk(store, bucket, path).error)
    ensures GetStorageDisk(store, bucket, path).Ok? ==>
      var processed := ProcessImage(manager, GetStorageDisk(store, bucket, path).value, size.width, size.height, size.crop);
      processed.Err? ==> r == Err(processed.error)
  {
    var imageData :- GetStorageDisk(store, bucket, path);
    var processedImage :- ProcessImage(manager, imageData, size.width, size.height, size.crop);
    Ok(Response(processedImage, 200, "image/webp", CacheControl))
  }

  /** `resize`: validate the token, then read the original and process it.
      Every failure passes through unchanged. The cache service is never
      consulted. */
  function Resize(store: ObjectStore, manager: ImageManager, token: string, bucket: string, path: string)
    : (r: Result<Response, HttpFailure>)
    ensures ParseSize(token).Err? ==> r == Err(ParseSize(token).error)
    ensures r.Ok? <==>
      && ParseSize(token).Ok?
      && GetStorageDisk(store, bucket, path).Ok?
      && var size := ParseSize(token).value;
         ProcessImage(manager, GetStorageDisk(store, bucket, path).value, size.width, size.height, size.crop).Ok?
    ensures r.Ok? ==>
      && r.value.status == 200 && r.value.contentType == "image/webp" && r.value.cacheControl == CacheControl
      && var size := ParseSize(token).value;
         ProcessImage(manager, GetStorageDisk(store, bucket, path).value, size.width, size.height, size.crop)
           == Ok(r.value.body)
    ensures ParseSize(token).Ok? && GetStorageDisk(store, bucket, path).Err? ==>
      r == Err(GetStorageDisk(store, bucket, path).error)
    ensures ParseSize(token).Ok? && GetStorageDisk(store, bucket, path).Ok? ==>
      var size := ParseSize(token).value;
      var processed := ProcessImage(manager, GetStorageDisk(store, bucket, path).value, size.width, size.height, size.crop);
      processed.Err? ==> r == Err(processed.error)
  {
    var size :- ParseSize(token);
    Respond(store, manager, size, bucket, path)
  }

  /** `resize` with the corrected limit: a successful answer never comes
      from a dimension above 3000. */
  function ResizeChecked(store: ObjectStore, manager: ImageManager, token: string, bucket: string, path: string)
    : (r: Result<Response, HttpFailure>)
    ensures ParseSizeChecked(token).Err? ==> r == Err(ParseSizeChecked(token).error)
    ensures ParseSizeChecked(token).Ok? ==> r == Respond(store, manager, ParseSizeChecked(token).value, bucket, path)
    ensures r.Ok? ==>
      && MatchSize(token).Some?
      && Value(MatchSize(token).value.width) <= MaxDimension
      && Value(MatchSize(token).value.height) <= MaxDimension
  {
    var size :- ParseSizeChecked(token);
    Respond(store, manager, size, bucket, path)
  }

  /** Both validation failures come before any storage access: a rejected
      token gets the same answer whatever the object store and pixel
      library hold. */
  lemma ValidationPrecedesStorage(token: string, store1: ObjectStore, manager1: ImageManager,
                                  store2: ObjectStore, manager2: ImageManager, bucket: string, path: string)
    requires ParseSize(token).Err?
    ensures Resize(store1, manager1, token, bucket, path) == Resize(store2, manager2, token, bucket, path)
  {
  }
}
