/**
 * The JavaScript string primitives the front end relies on, with their ECMAScript
 * semantics written out: `\s` in regular expressions, `slice` with negative
 * indices, `indexOf`/`lastIndexOf` of one character, `split` on one character,
 * `split` on a `[...]+` character-class regex, `trim`, and number-to-string.
 * Strings are sequences of characters; JavaScript counts UTF-16 code units,
 * which agrees for the characters outside the astral planes.
 */
module JsStrings {

  /** The characters `\s` matches: WhiteSpace and LineTerminator of ECMAScript. */
  predicate IsWhitespace(c: char) {
    c == ' ' || c == '\t' || c == '\n' || c == '\U{B}' || c == '\U{C}' || c == '\r'
    || c == '\U{A0}' || c == '\U{1680}' || ('\U{2000}' <= c <= '\U{200A}')
    || c == '\U{2028}' || c == '\U{2029}' || c == '\U{202F}' || c == '\U{205F}'
    || c == '\U{3000}' || c == '\U{FEFF}'
  }

  /** The characters `.` does not match (LineTerminator of ECMAScript). */
  predicate IsLineTerminator(c: char) {
    c == '\n' || c == '\r' || c == '\U{2028}' || c == '\U{2029}'
  }

  predicate IsAsciiLetter(c: char) {
    ('a' <= c <= 'z') || ('A' <= c <= 'Z')
  }

  /** `\d`: the ASCII digits only. */
  predicate IsDigit(c: char) {
    '0' <= c <= '9'
  }

  predicate StartsWith(s: string, prefix: string) {
    |prefix| <= |s| && s[..|prefix|] == prefix
  }

  /** How `slice` resolves one index argument against a string of length `len`. */
  function ClampIndex(len: nat, k: int): (r: nat)
    ensures r <= len
    ensures k >= 0 ==> r == if k <= len then k else len
    ensures k < 0 ==> r == if len + k >= 0 then len + k else 0
  {
    if k < 0 then (if len + k < 0 then 0 else len + k)
    else if k > len then len
    else k
  }

  /** `s.slice(start, end)`. */
  function Slice(s: string, start: int, end: int): string {
    var a := ClampIndex(|s|, start);
    var b := ClampIndex(|s|, end);
    if a <= b then s[a..b] else ""
  }

  /** `s.slice(start)`. */
  function SliceFrom(s: string, start: int): string {
    s[ClampIndex(|s|, start)..]
  }

  /** `s.slice(-n)` for a positive `n` keeps the last `n` characters, or all of them when `s` is shorter. */
  lemma SliceFromNegative(s: string, n: int)
    requires n > 0
    ensures SliceFrom(s, -n) == if n <= |s| then s[|s| - n..] else s
  {
  }

  /** `s.indexOf(c)`: the first position of `c`, or -1. */
  function IndexOf(s: string, c: char): (r: int)
    ensures -1 <= r < |s|
    ensures r >= 0 ==> s[r] == c
    ensures forall k :: 0 <= k < |s| && (r < 0 || k < r) ==> s[k] != c
  {
    if |s| == 0 then -1
    else if s[0] == c then 0
    else
      var r := IndexOf(s[1..], c);
      if r < 0 then -1 else r + 1
  }

  /** `s.lastIndexOf(c)`: the last position of `c`, or -1. */
  function LastIndexOf(s: string, c: char): (r: int)
    ensures -1 <= r < |s|
    ensures r >= 0 ==> s[r] == c
    ensures forall k :: r < k < |s| ==> s[k] != c
  {
    if |s| == 0 then -1
    else if s[|s| - 1] == c then |s| - 1
    else LastIndexOf(s[..|s| - 1], c)
  }

  /** `s.split(c)` for a one-character separator. */
  function Split(s: string, c: char): (pieces: seq<string>)
    ensures |pieces| >= 1
    ensures forall p :: p in pieces ==> c !in p
    decreases |s|
  {
    var i := IndexOf(s, c);
    if i < 0 then [s]
    else
      assert forall m :: 0 <= m < i ==> s[..i][m] != c;
      [s[..i]] + Split(s[i + 1..], c)
  }

  /** `pieces.join(c)`, the inverse of `Split`. */
  function Join(pieces: seq<string>, c: char): string {
    if |pieces| == 0 then ""
    else if |pieces| == 1 then pieces[0]
    else pieces[0] + [c] + Join(pieces[1..], c)
  }

  /** Splitting on a character and joining the pieces back with it gives the string back. */
  lemma {:induction false} JoinSplit(s: string, c: char)
    ensures Join(Split(s, c), c) == s
    decreases |s|
  {
    var i := IndexOf(s, c);
    if i >= 0 {
      var tail := Split(s[i + 1..], c);
      SplitUnfold(s, c, i);
      JoinSplit(s[i + 1..], c);
      JoinCons(s[..i], tail, c);
      Reassemble(s, i);
    }
  }

  /** `Split` unfolded once at the first separator. */
  lemma SplitUnfold(s: string, c: char, i: int)
    requires i == IndexOf(s, c) && i >= 0
    ensures Split(s, c) == [s[..i]] + Split(s[i + 1..], c)
  {
  }

  /** `Join` of a head followed by at least one more piece. */
  lemma JoinCons(head: string, tail: seq<string>, c: char)
    requires |tail| >= 1
    ensures Join([head] + tail, c) == head + [c] + Join(tail, c)
  {
    assert ([head] + tail)[1..] == tail;
  }

  /** A string is its prefix, one character and its suffix. */
  lemma Reassemble(s: string, i: int)
    requires 0 <= i < |s|
    ensures s[..i] + [s[i]] + s[i + 1..] == s
  {
  }

  /** The first two pieces of `s.split(c)` are the text before the first `c` and the text between the first and the second. */
  lemma SplitFirstPieces(s: string, c: char)
    ensures Split(s, c)[0] == if IndexOf(s, c) < 0 then s else s[..IndexOf(s, c)]
    ensures |Split(s, c)| > 1 <==> c in s
    ensures c in s ==>
      var rest := s[IndexOf(s, c) + 1..];
      Split(s, c)[1] == if IndexOf(rest, c) < 0 then rest else rest[..IndexOf(rest, c)]
  {
  }

  /** The first position at which `sep` holds, or -1. */
  function FirstIndexWhere(s: string, sep: char -> bool): (r: int)
    ensures -1 <= r < |s|
    ensures r >= 0 ==> sep(s[r])
    ensures forall k :: 0 <= k < |s| && (r < 0 || k < r) ==> !sep(s[k])
  {
    if |s| == 0 then -1
    else if sep(s[0]) then 0
    else
      var r := FirstIndexWhere(s[1..], sep);
      if r < 0 then -1 else r + 1
  }

  /** The end of the run of separators that starts at `i`. */
  function RunEnd(s: string, i: nat, sep: char -> bool): (j: nat)
    requires i <= |s|
    ensures i <= j <= |s|
    ensures forall k :: i <= k < j ==> sep(s[k])
    ensures j < |s| ==> !sep(s[j])
    decreases |s| - i
  {
    if i < |s| && sep(s[i]) then RunEnd(s, i + 1, sep) else i
  }

  /**
   * `s.split(/[...]+/)` where `sep` is the character class: the leftmost maximal
   * run of separators ends each piece. A leading or trailing run leaves an empty
   * first or last piece.
   */
  function SplitOnRuns(s: string, sep: char -> bool): (pieces: seq<string>)
    ensures |pieces| >= 1
    decreases |s|
  {
    var i := FirstIndexWhere(s, sep);
    if i < 0 then [s] else [s[..i]] + SplitOnRuns(s[RunEnd(s, i, sep)..], sep)
  }

  /** `s` holds no separator. */
  predicate Plain(s: string, sep: char -> bool) {
    forall m :: 0 <= m < |s| ==> !sep(s[m])
  }

  /** The pieces of `SplitOnRuns` hold no separator, and only the first and the last can be empty. */
  lemma {:induction false} SplitOnRunsPieces(s: string, sep: char -> bool)
    ensures forall k :: 0 <= k < |SplitOnRuns(s, sep)| ==> Plain(SplitOnRuns(s, sep)[k], sep)
    ensures forall k :: 0 < k < |SplitOnRuns(s, sep)| - 1 ==> SplitOnRuns(s, sep)[k] != ""
    decreases |s|
  {
    var i := FirstIndexWhere(s, sep);
    if i >= 0 {
      var j := RunEnd(s, i, sep);
      var rest := s[j..];
      SplitOnRunsPieces(rest, sep);
      var tail := SplitOnRuns(rest, sep);
      var pieces := [s[..i]] + tail;
      assert pieces == SplitOnRuns(s, sep);
      assert forall m :: 0 <= m < i ==> s[..i][m] == s[m];
      assert Plain(pieces[0], sep);
      forall k | 1 <= k < |pieces|
        ensures Plain(pieces[k], sep)
        ensures k < |pieces| - 1 ==> pieces[k] != ""
      {
        assert pieces[k] == tail[k - 1];
        if k == 1 && |tail| > 1 {
          // the rest does not start with a separator, so its first piece is not empty
          assert rest != "" && !sep(rest[0]);
          assert FirstIndexWhere(rest, sep) != 0;
        }
      }
    }
  }

  /** A string starting with a separator splits into an empty first piece. */
  lemma SplitOnRunsLeading(s: string, sep: char -> bool)
    requires |s| > 0 && sep(s[0])
    ensures SplitOnRuns(s, sep)[0] == ""
  {
  }

  /** A string ending with a separator splits into an empty last piece. */
  lemma {:induction false} SplitOnRunsTrailing(s: string, sep: char -> bool)
    requires |s| > 0 && sep(s[|s| - 1])
    ensures |SplitOnRuns(s, sep)| >= 2
    ensures SplitOnRuns(s, sep)[|SplitOnRuns(s, sep)| - 1] == ""
    decreases |s|
  {
    var i := FirstIndexWhere(s, sep);
    var j := RunEnd(s, i, sep);
    var rest := s[j..];
    if j < |s| {
      SplitOnRunsTrailing(rest, sep);
    }
  }

  /** The characters of `s` that are not separators, in order. */
  function RemoveSeparators(s: string, sep: char -> bool): (r: string)
    ensures |r| <= |s|
  {
    if |s| == 0 then ""
    else (if sep(s[0]) then "" else [s[0]]) + RemoveSeparators(s[1..], sep)
  }

  lemma {:induction false} RemoveSeparatorsAppend(a: string, b: string, sep: char -> bool)
    ensures RemoveSeparators(a + b, sep) == RemoveSeparators(a, sep) + RemoveSeparators(b, sep)
    decreases |a|
  {
    if |a| > 0 {
      var head := if sep(a[0]) then "" else [a[0]];
      assert (a + b)[0] == a[0];
      assert (a + b)[1..] == a[1..] + b;
      RemoveSeparatorsAppend(a[1..], b, sep);
      calc {
        RemoveSeparators(a + b, sep);
        head + RemoveSeparators(a[1..] + b, sep);
        head + (RemoveSeparators(a[1..], sep) + RemoveSeparators(b, sep));
        (head + RemoveSeparators(a[1..], sep)) + RemoveSeparators(b, sep);
        RemoveSeparators(a, sep) + RemoveSeparators(b, sep);
      }
    } else {
      assert a + b == b;
    }
  }

  lemma {:induction false} RemoveSeparatorsOfSeparators(s: string, sep: char -> bool)
    requires forall k :: 0 <= k < |s| ==> sep(s[k])
    ensures RemoveSeparators(s, sep) == ""
    decreases |s|
  {
    if |s| > 0 {
      RemoveSeparatorsOfSeparators(s[1..], sep);
    }
  }

  lemma {:induction false} RemoveSeparatorsOfPlain(s: string, sep: char -> bool)
    requires forall k :: 0 <= k < |s| ==> !sep(s[k])
    ensures RemoveSeparators(s, sep) == s
    decreases |s|
  {
    if |s| > 0 {
      RemoveSeparatorsOfPlain(s[1..], sep);
    }
  }

  /** The concatenation of a list of strings. */
  function Concat(pieces: seq<string>): string {
    if |pieces| == 0 then "" else pieces[0] + Concat(pieces[1..])
  }

  /** `pieces.filter(Boolean)`: the non-empty pieces, in order. */
  function NonEmpty(pieces: seq<string>): (r: seq<string>)
    ensures forall k :: 0 <= k < |r| ==> r[k] != ""
    ensures |r| <= |pieces|
  {
    if |pieces| == 0 then []
    else (if pieces[0] == "" then [] else [pieces[0]]) + NonEmpty(pieces[1..])
  }

  /** Every non-empty piece is kept as often as it occurs, and nothing else is. */
  lemma {:induction false} NonEmptyKeeps(pieces: seq<string>)
    ensures multiset(NonEmpty(pieces)) == multiset(pieces)["" := 0]
    ensures forall x :: x in NonEmpty(pieces) <==> x in pieces && x != ""
  {
    if |pieces| > 0 {
      NonEmptyKeeps(pieces[1..]);
      assert pieces == [pieces[0]] + pieces[1..];
      assert multiset(pieces) == multiset([pieces[0]]) + multiset(pieces[1..]);
    }
  }

  /** Filtering distributes over concatenation, so the kept pieces stay in their order. */
  lemma {:induction false} NonEmptyAppend(a: seq<string>, b: seq<string>)
    ensures NonEmpty(a + b) == NonEmpty(a) + NonEmpty(b)
    decreases |a|
  {
    if |a| == 0 {
      assert a + b == b;
    } else {
      var head := if a[0] == "" then [] else [a[0]];
      var ab := a + b;
      assert ab[0] == a[0] && ab[1..] == a[1..] + b;
      NonEmptyUnfold(ab);
      NonEmptyUnfold(a);
      NonEmptyAppend(a[1..], b);
      assert head + (NonEmpty(a[1..]) + NonEmpty(b)) == (head + NonEmpty(a[1..])) + NonEmpty(b);
    }
  }

  /** `NonEmpty` unfolded once. */
  lemma NonEmptyUnfold(s: seq<string>)
    requires |s| > 0
    ensures NonEmpty(s) == (if s[0] == "" then [] else [s[0]]) + NonEmpty(s[1..])
  {
  }

  /** A single piece is kept exactly when it is non-empty. */
  lemma NonEmptySingle(x: string)
    ensures NonEmpty([x]) == if x == "" then [] else [x]
  {
    assert [x][1..] == [];
  }

  lemma {:induction false} ConcatNonEmpty(pieces: seq<string>)
    ensures Concat(NonEmpty(pieces)) == Concat(pieces)
  {
    if |pieces| > 0 {
      ConcatNonEmpty(pieces[1..]);
      var rest := NonEmpty(pieces[1..]);
      if pieces[0] != "" {
        var r := [pieces[0]] + rest;
        assert NonEmpty(pieces) == r;
        assert r[0] == pieces[0] && r[1..] == rest;
        assert Concat(r) == pieces[0] + Concat(rest);
      } else {
        assert NonEmpty(pieces) == rest;
      }
    }
  }

  /** Gluing the pieces of `SplitOnRuns` back together gives the text with the separators dropped. */
  lemma {:induction false} ConcatSplitOnRuns(s: string, sep: char -> bool)
    ensures Concat(SplitOnRuns(s, sep)) == RemoveSeparators(s, sep)
    decreases |s|
  {
    var i := FirstIndexWhere(s, sep);
    if i < 0 {
      RemoveSeparatorsOfPlain(s, sep);
      assert Concat([s]) == s + Concat([]);
    } else {
      var j := RunEnd(s, i, sep);
      var tail := SplitOnRuns(s[j..], sep);
      var pieces := [s[..i]] + tail;
      assert pieces == SplitOnRuns(s, sep);
      assert pieces[0] == s[..i] && pieces[1..] == tail;
      ConcatSplitOnRuns(s[j..], sep);
      RemoveSeparatorsRun(s, i, j, sep);
      calc {
        Concat(pieces);
        s[..i] + Concat(tail);
        s[..i] + RemoveSeparators(s[j..], sep);
        RemoveSeparators(s, sep);
      }
    }
  }

  /** Dropping the separators of plain text, a run of separators and the rest keeps the plain text and the rest's remainder. */
  lemma {:induction false} RemoveSeparatorsRun(s: string, i: int, j: int, sep: char -> bool)
    requires 0 <= i <= j <= |s|
    requires forall k :: 0 <= k < i ==> !sep(s[k])
    requires forall k :: i <= k < j ==> sep(s[k])
    ensures RemoveSeparators(s, sep) == s[..i] + RemoveSeparators(s[j..], sep)
  {
    var plain, run, rest := s[..i], s[i..j], s[j..];
    assert s == plain + run + rest;
    RemoveSeparatorsOfPlain(plain, sep);
    RemoveSeparatorsOfSeparators(run, sep);
    calc {
      RemoveSeparators(s, sep);
      RemoveSeparators(plain + run + rest, sep);
      { RemoveSeparatorsAppend(plain + run, rest, sep); }
      RemoveSeparators(plain + run, sep) + RemoveSeparators(rest, sep);
      { RemoveSeparatorsAppend(plain, run, sep); }
      RemoveSeparators(plain, sep) + RemoveSeparators(run, sep) + RemoveSeparators(rest, sep);
      plain + "" + RemoveSeparators(rest, sep);
      { assert plain + "" == plain; }
      plain + RemoveSeparators(rest, sep);
    }
  }

  /** `s.trimStart()`. */
  function TrimStart(s: string): string {
    if |s| > 0 && IsWhitespace(s[0]) then TrimStart(s[1..]) else s
  }

  /** `s.trim()`: whitespace and line terminators removed from both ends. */
  function Trim(s: string): string {
    var t := TrimStart(s);
    TrimEnd(t)
  }

  function TrimEnd(s: string): string {
    if |s| > 0 && IsWhitespace(s[|s| - 1]) then TrimEnd(s[..|s| - 1]) else s
  }

  lemma {:induction false} TrimStartEmpty(s: string)
    ensures TrimStart(s) == "" <==> forall k :: 0 <= k < |s| ==> IsWhitespace(s[k])
    decreases |s|
  {
    if |s| > 0 && IsWhitespace(s[0]) {
      TrimStartEmpty(s[1..]);
      assert forall k :: 1 <= k < |s| ==> s[k] == s[1..][k - 1];
    }
  }

  /** A string that does not start with whitespace keeps its first character under TrimEnd. */
  lemma {:induction false} TrimEndKeepsFirst(s: string)
    requires |s| > 0 && !IsWhitespace(s[0])
    ensures TrimEnd(s) != ""
    decreases |s|
  {
    if IsWhitespace(s[|s| - 1]) {
      TrimEndKeepsFirst(s[..|s| - 1]);
    }
  }

  lemma {:induction false} TrimStartFirst(s: string)
    ensures TrimStart(s) == "" || !IsWhitespace(TrimStart(s)[0])
    decreases |s|
  {
    if |s| > 0 && IsWhitespace(s[0]) {
      TrimStartFirst(s[1..]);
    }
  }

  /** `s.trim()` is empty exactly when every character of `s` is whitespace. */
  lemma TrimEmpty(s: string)
    ensures Trim(s) == "" <==> forall k :: 0 <= k < |s| ==> IsWhitespace(s[k])
  {
    TrimStartEmpty(s);
    TrimStartFirst(s);
    if TrimStart(s) != "" {
      TrimEndKeepsFirst(TrimStart(s));
    }
  }

  function DigitChar(d: nat): (c: char)
    requires d < 10
    ensures IsDigit(c)
  {
    "0123456789"[d]
  }

  /** `String(n)` for a non-negative integer: its decimal digits. */
  function Decimal(n: nat): (r: string)
    ensures |r| >= 1
    ensures forall k :: 0 <= k < |r| ==> IsDigit(r[k])
  {
    if n < 10 then [DigitChar(n)] else Decimal(n / 10) + [DigitChar(n % 10)]
  }
}
