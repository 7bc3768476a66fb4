/**
 * Display-name helpers of src/lib/utils.ts: splitting a file name into base and
 * extension, and shortening a name for display while keeping its extension.
 */
module FileNames {
  import opened JsStrings

  datatype NameParts = NameParts(base: string, ext: string)

  /** The display length `truncateName` uses when the caller gives none. */
  const DefaultMaxLen: int := 28

  /** `name` has a "." somewhere after its first character. */
  predicate HasInnerDot(name: string) {
    exists k :: 0 < k < |name| && name[k] == '.'
  }

  /**
   * `getFileNameParts`: split at the last "." unless that dot is the first
   * character (or there is none), in which case the whole name is the base.
   */
  function GetFileNameParts(name: string): (p: NameParts)
    ensures HasInnerDot(name) ==> p.base + "." + p.ext == name && '.' !in p.ext
    ensures !HasInnerDot(name) ==> p == NameParts(name, "")
  {
    var lastDot := LastIndexOf(name, '.');
    if lastDot > 0 then
      assert name == name[..lastDot] + "." + name[lastDot + 1..];
      NameParts(Slice(name, 0, lastDot), SliceFrom(name, lastDot + 1))
    else
      NameParts(name, "")
  }

  /** `truncateName(name, maxLen)`. */
  function TruncateName(name: string, maxLen: int): (r: string)
    ensures |name| <= maxLen ==> r == name
  {
    var parts := GetFileNameParts(name);
    if |name| <= maxLen then name
    else
      var availableLength := maxLen - |parts.ext| - 1;
      if availableLength <= 0 then "..." + SliceFrom(parts.ext, -maxLen)
      else Slice(parts.base, 0, availableLength) + "..." + parts.ext
  }

  /** The name a caller gets from `truncateName(name)` with the default limit. */
  function TruncateNameDefault(name: string): (r: string)
    ensures |name| <= 28 ==> r == name
    ensures |name| > 28 ==> |r| <= 31
  {
    var r := TruncateName(name, DefaultMaxLen);
    TruncateLengthBound(name, DefaultMaxLen);
    r
  }

  /**
   * When the name is too long and the limit leaves room for part of the base,
   * the result is the first `maxLen - |ext| - 1` characters of the name, then
   * "...", then the whole extension (its dot dropped). Its length is exactly
   * `maxLen + 2`: the ellipsis takes three characters, not the one the limit
   * arithmetic reserves for it.
   */
  lemma TruncateNormal(name: string, maxLen: int)
    requires |name| > maxLen
    requires maxLen - |GetFileNameParts(name).ext| - 1 > 0
    ensures var avail := maxLen - |GetFileNameParts(name).ext| - 1;
      TruncateName(name, maxLen) == name[..avail] + "..." + GetFileNameParts(name).ext
    ensures |TruncateName(name, maxLen)| == maxLen + 2
  {
    var p := GetFileNameParts(name);
    var avail := maxLen - |p.ext| - 1;
    // the base is always longer than the room left for it
    assert |p.base| > avail;
    assert name[..avail] == p.base[..avail];
  }

  /**
   * When the extension alone fills the limit, the result is "..." and the last
   * `min(maxLen, |ext|)` characters of the extension.
   */
  lemma TruncateExtreme(name: string, maxLen: int)
    requires maxLen >= 1 && |name| > maxLen
    requires maxLen - |GetFileNameParts(name).ext| - 1 <= 0
    ensures var ext := GetFileNameParts(name).ext;
      TruncateName(name, maxLen) == "..." + (if maxLen <= |ext| then ext[|ext| - maxLen..] else ext)
  {
    SliceFromNegative(GetFileNameParts(name).ext, maxLen);
  }

  /** For a positive limit the result is never more than three characters over it. */
  lemma TruncateLengthBound(name: string, maxLen: int)
    requires maxLen >= 1
    ensures |TruncateName(name, maxLen)| <= maxLen + 3
  {
    var p := GetFileNameParts(name);
    if |name| > maxLen {
      if maxLen - |p.ext| - 1 > 0 {
        TruncateNormal(name, maxLen);
      } else {
        TruncateExtreme(name, maxLen);
      }
    }
  }

  /**
   * A name that is too long never comes back within the limit: the shortened
   * name is always longer than `maxLen`.
   */
  lemma TruncateExceedsLimit(name: string, maxLen: int)
    requires |name| > maxLen
    ensures |TruncateName(name, maxLen)| > maxLen
  {
    var p := GetFileNameParts(name);
    if maxLen - |p.ext| - 1 > 0 {
      TruncateNormal(name, maxLen);
    } else if maxLen >= 1 {
      TruncateExtreme(name, maxLen);
    }
  }

  /** Splitting `prefix + "..." + ext`, where `ext` has no dot, gives back `prefix + ".."` and `ext`. */
  lemma SplitAfterEllipsis(prefix: string, ext: string)
    requires '.' !in ext
    ensures GetFileNameParts(prefix + "..." + ext) == NameParts(prefix + "..", ext)
  {
    var s := prefix + "..." + ext;
    var dot := |prefix| + 2;
    assert s[dot] == '.';
    assert HasInnerDot(s);
    var p := GetFileNameParts(s);
    // the extension found is dot-free and ends the name, like `ext`
    assert p.base + "." + p.ext == s;
    assert p.ext == s[|s| - |p.ext|..] == ext;
    assert p.base == s[..|s| - |ext| - 1] == prefix + "..";
  }

  /** Shortening an already shortened name changes nothing, for any positive limit. */
  lemma TruncateIdempotent(name: string, maxLen: int)
    requires maxLen >= 1
    ensures TruncateName(TruncateName(name, maxLen), maxLen) == TruncateName(name, maxLen)
  {
    var p := GetFileNameParts(name);
    if |name| > maxLen {
      if maxLen - |p.ext| - 1 > 0 {
        TruncateIdempotentNormal(name, maxLen);
      } else {
        TruncateIdempotentExtreme(name, maxLen);
      }
    }
  }

  /** `TruncateName` unfolded once, for a name whose parts are known. */
  lemma TruncateUnfold(name: string, maxLen: int, p: NameParts)
    requires GetFileNameParts(name) == p && |name| > maxLen
    ensures maxLen - |p.ext| - 1 <= 0 ==> TruncateName(name, maxLen) == "..." + SliceFrom(p.ext, -maxLen)
    ensures maxLen - |p.ext| - 1 > 0 ==> TruncateName(name, maxLen) == Slice(p.base, 0, maxLen - |p.ext| - 1) + "..." + p.ext
  {
  }

  lemma TruncateIdempotentNormal(name: string, maxLen: int)
    requires |name| > maxLen
    requires maxLen - |GetFileNameParts(name).ext| - 1 > 0
    ensures TruncateName(TruncateName(name, maxLen), maxLen) == TruncateName(name, maxLen)
  {
    var p := GetFileNameParts(name);
    var avail := maxLen - |p.ext| - 1;
    var prefix := name[..avail];
    TruncateNormal(name, maxLen);
    var r := TruncateName(name, maxLen);
    assert r == prefix + "..." + p.ext && |r| > maxLen;
    SplitAfterEllipsis(prefix, p.ext);
    TruncateUnfold(r, maxLen, NameParts(prefix + "..", p.ext));
    calc {
      TruncateName(r, maxLen);
      Slice(prefix + "..", 0, avail) + "..." + p.ext;
      { SlicePrefix(prefix + "..", avail); assert (prefix + "..")[..avail] == prefix; }
      prefix + "..." + p.ext;
    }
  }

  /** `s.slice(0, n)` for `n` within the string is its first `n` characters. */
  lemma SlicePrefix(s: string, n: int)
    requires 0 <= n <= |s|
    ensures Slice(s, 0, n) == s[..n]
  {
  }

  lemma TruncateIdempotentExtreme(name: string, maxLen: int)
    requires maxLen >= 1 && |name| > maxLen
    requires maxLen - |GetFileNameParts(name).ext| - 1 <= 0
    ensures TruncateName(TruncateName(name, maxLen), maxLen) == TruncateName(name, maxLen)
  {
    var tail := ExtremeTail(name, maxLen);
    EllipsisTailUnchanged(tail, maxLen);
  }

  /** In the extreme case the result is "..." and a dot-free tail that fills the limit. */
  lemma ExtremeTail(name: string, maxLen: int) returns (tail: string)
    requires maxLen >= 1 && |name| > maxLen
    requires maxLen - |GetFileNameParts(name).ext| - 1 <= 0
    ensures TruncateName(name, maxLen) == "..." + tail
    ensures '.' !in tail && |tail| <= maxLen && maxLen - |tail| - 1 <= 0
  {
    var ext := GetFileNameParts(name).ext;
    tail := if maxLen <= |ext| then ext[|ext| - maxLen..] else ext;
    DotFreeSuffix(ext, maxLen);
    TruncateExtreme(name, maxLen);
  }

  /** A suffix of a dot-free string is dot-free. */
  lemma DotFreeSuffix(ext: string, n: int)
    requires '.' !in ext && n >= 0
    ensures '.' !in (if n <= |ext| then ext[|ext| - n..] else ext)
  {
    var tail := if n <= |ext| then ext[|ext| - n..] else ext;
    assert forall m :: 0 <= m < |tail| ==> tail[m] == ext[|ext| - |tail| + m];
  }

  /** "..." followed by a dot-free tail that fills the limit is left as it is. */
  lemma EllipsisTailUnchanged(tail: string, maxLen: int)
    requires maxLen >= 1 && '.' !in tail
    requires |tail| <= maxLen && maxLen - |tail| - 1 <= 0
    ensures TruncateName("..." + tail, maxLen) == "..." + tail
  {
    var r := "..." + tail;
    assert r == "" + "..." + tail;
    SplitAfterEllipsis("", tail);
    TruncateUnfold(r, maxLen, NameParts("..", tail));
    SliceFromNegative(tail, maxLen);
  }

  /** A concrete case: a ten-character limit gives a twelve-character name. */
  lemma TruncateOverLimitExample()
    ensures TruncateName("abcdefghij.txt", 10) == "abcdef...txt"
  {
    var name := "abcdefghij.txt";
    assert name == "abcdefghij" + "." + "txt";
    assert name[10] == '.' && HasInnerDot(name);
    TruncateNormal(name, 10);
  }

  /**
   * `truncateName` with the ellipsis counted as the three characters it is:
   * the base keeps `maxLen - |ext| - 3` characters, and when the extension
   * leaves no room for it the result is "..." and the extension's last
   * `maxLen - 3` characters.
   */
  function TruncateNameWithinLimit(name: string, maxLen: int): (r: string)
    requires maxLen >= 3
    ensures |name| <= maxLen ==> r == name
    ensures |r| <= maxLen
  {
    var parts := GetFileNameParts(name);
    if |name| <= maxLen then name
    else
      var availableLength := maxLen - |parts.ext| - 3;
      if availableLength <= 0 then "..." + parts.ext[|parts.ext| - (maxLen - 3)..]
      else
        assert |parts.base| >= availableLength by {
          if HasInnerDot(name) {
            assert |parts.base| + 1 + |parts.ext| == |name|;
          }
        }
        parts.base[..availableLength] + "..." + parts.ext
  }

  /** The corrected truncation keeps the whole extension and the start of the name whenever the limit leaves room for them. */
  lemma TruncateWithinLimitShape(name: string, maxLen: int)
    requires maxLen >= 3 && |name| > maxLen
    requires maxLen - |GetFileNameParts(name).ext| - 3 > 0
    ensures var avail := maxLen - |GetFileNameParts(name).ext| - 3;
      TruncateNameWithinLimit(name, maxLen) == name[..avail] + "..." + GetFileNameParts(name).ext
    ensures |TruncateNameWithinLimit(name, maxLen)| == maxLen
  {
    var p := GetFileNameParts(name);
    var avail := maxLen - |p.ext| - 3;
    if HasInnerDot(name) {
      assert name == p.base + "." + p.ext;
      assert p.base[..avail] == name[..avail];
    }
  }
}
