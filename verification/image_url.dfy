/** `RUOptimizer.getOptimizedImageUrl` (optimization.js): appends `size`,
    `format` and `quality` query parameters to an image URL. The two browser
    globals it reads, `window.LOW_BANDWIDTH` and `window.USE_WEBP`, are
    parameters here. */
module ImageUrl {
  import opened Text

  /** The default requested size. */
  const DefaultSize: nat := 64

  /** The size that is sent: the requested one, or 70% of it rounded down
      on a low-bandwidth connection (`Math.floor(size * 0.7)`, taken as
      exact integer arithmetic). */
  function SizeParam(size: nat, lowBandwidth: bool): (n: nat)
    ensures n <= size
    ensures !lowBandwidth ==> n == size
    ensures lowBandwidth ==> n * 10 <= size * 7 < (n + 1) * 10
  {
    if lowBandwidth then size * 7 / 10 else size
  }

  /** The separator put after the url: `?` opens a query, `&` extends the
      one the url already has. */
  function Separator(url: string): char
  {
    if Contains(url, "?") then '&' else '?'
  }

  /** `&format=webp` when WebP is supported and the url does not already
      choose a format; nothing otherwise. */
  function FormatParam(url: string, useWebp: bool): string
  {
    if useWebp && !Contains(url, "format=") then "&format=webp" else ""
  }

  /** `&quality=80` for a JPEG url; nothing otherwise. */
  function QualityParam(url: string): string
  {
    if Contains(url, ".jpg") || Contains(url, ".jpeg") then "&quality=80" else ""
  }

  /** The separator followed by `size=N`. */
  function SizeTail(url: string, size: nat, lowBandwidth: bool): (tail: string)
    ensures |tail| > 0 && tail[0] == Separator(url)
    ensures 'f' !in tail && '.' !in tail
  {
    var d := Decimal(SizeParam(size, lowBandwidth));
    var tail := [Separator(url)] + "size=" + d;
    assert forall i | 6 <= i < |tail| :: tail[i] == d[i - 6] && IsDigit(tail[i]);
    tail
  }

  /** The URL with its optimisation parameters. An empty url comes back
      unchanged. Otherwise the url is kept as a prefix and followed by its
      separator and `size=N` (`SizeTail`) and then, in this order and with
      nothing else, the optional format and the optional quality
      parameter, each decided by what the ORIGINAL url contains (the code
      tests the growing string). */
  function OptimizedImageUrl(url: string, size: nat, lowBandwidth: bool, useWebp: bool): (r: string)
    ensures url == "" ==> r == ""
    ensures url != "" ==>
      r == url + SizeTail(url, size, lowBandwidth) + FormatParam(url, useWebp) + QualityParam(url)
  {
    if url == "" then url
    else
      var n := SizeParam(size, lowBandwidth);
      var withSep := url + (if !Contains(url, "?") then "?" else "&");
      var withSize := withSep + "size=" + Decimal(n);
      assert withSize == url + SizeTail(url, size, lowBandwidth);
      var withFormat :=
        if useWebp && !Contains(withSize, "format=") then withSize + "&format=webp" else withSize;
      var formatTail := withFormat[|withSize|..];
      assert withFormat == withSize + formatTail;
      var withQuality :=
        if Contains(withFormat, ".jpg") || Contains(withFormat, ".jpeg") then withFormat + "&quality=80"
        else withFormat;
      SuffixHidesNoPattern(url, SizeTail(url, size, lowBandwidth), formatTail);
      withQuality
  }

  /** The text appended before each test contains no `f` and no `.`, and
      starts with the separator, so the tests on the growing string agree
      with the same tests on the original url. */
  lemma SuffixHidesNoPattern(url: string, sizeTail: string, formatTail: string)
    requires |sizeTail| > 0 && (sizeTail[0] == '?' || sizeTail[0] == '&')
    requires 'f' !in sizeTail && '.' !in sizeTail && '.' !in formatTail
    ensures Contains(url + sizeTail, "format=") == Contains(url, "format=")
    ensures Contains(url + sizeTail + formatTail, ".jpg") == Contains(url, ".jpg")
    ensures Contains(url + sizeTail + formatTail, ".jpeg") == Contains(url, ".jpeg")
  {
    ContainsAppend(url, sizeTail, "format=");
    var tail := sizeTail + formatTail;
    assert url + sizeTail + formatTail == url + tail;
    assert tail[0] == sizeTail[0];
    ContainsAppend(url, tail, ".jpg");
    ContainsAppend(url, tail, ".jpeg");
  }

  /** With the default size, a plain url (no query, no format, not a JPEG)
      gets `?size=64`, or `?size=44` on a low-bandwidth connection, then
      `&format=webp` when WebP is on. */
  lemma DefaultSizeUrl(url: string, lowBandwidth: bool, useWebp: bool)
    requires url != "" && !Contains(url, "?") && !Contains(url, "format=")
    requires !Contains(url, ".jpg") && !Contains(url, ".jpeg")
    ensures OptimizedImageUrl(url, DefaultSize, lowBandwidth, useWebp)
      == url + (if lowBandwidth then "?size=44" else "?size=64") + (if useWebp then "&format=webp" else "")
  {
    var n := SizeParam(DefaultSize, lowBandwidth);
    assert n == if lowBandwidth then 44 else 64;
    assert Decimal(n / 10) == [DigitChar(n / 10)];
    var d := Decimal(n);
    assert d == (if lowBandwidth then "44" else "64");
    assert SizeTail(url, DefaultSize, lowBandwidth) == "?size=" + d;
    assert QualityParam(url) == "";
  }
}
