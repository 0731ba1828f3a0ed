/**
 * Shared vocabulary: optional values and results, bytes, the viewer's slice
 * types, and the ASCII string operations the bridges and utilities use.
 */
module Common {

  datatype Option<T> = None | Some(value: T)

  datatype Result<T> = Ok(value: T) | Err(error: string)

  newtype byte = x: int | 0 <= x < 256

  /** The viewer's slice layouts (the SLICE_TYPE constants of the viewer library). */
  datatype SliceType = Axial | Coronal | Sagittal | Multiplanar | Render

  predicate IsDigit(c: char) { '0' <= c <= '9' }

  predicate IsLowerAscii(c: char) { 'a' <= c <= 'z' }

  predicate IsUpperAscii(c: char) { 'A' <= c <= 'Z' }

  /** Whitespace removed by a string trim (the ASCII part of it). */
  predicate IsSpace(c: char) { c == ' ' || c == '\t' || c == '\n' || c == '\r' || c == 11 as char || c == 12 as char }

  function LowerChar(c: char): (r: char)
    ensures IsUpperAscii(c) ==> IsLowerAscii(r)
    ensures !IsUpperAscii(c) ==> r == c
  {
    if IsUpperAscii(c) then (c as int + 32) as char else c
  }

  function UpperChar(c: char): (r: char)
    ensures IsLowerAscii(c) ==> IsUpperAscii(r)
    ensures !IsLowerAscii(c) ==> r == c
  {
    if IsLowerAscii(c) then (c as int - 32) as char else c
  }

  /** `toLowerCase` restricted to ASCII letters. */
  function Lower(s: string): (r: string)
    ensures |r| == |s|
    ensures forall i :: 0 <= i < |s| ==> r[i] == LowerChar(s[i])
  {
    seq(|s|, i requires 0 <= i < |s| => LowerChar(s[i]))
  }

  /** `toUpperCase` restricted to ASCII letters. */
  function Upper(s: string): (r: string)
    ensures |r| == |s|
    ensures forall i :: 0 <= i < |s| ==> r[i] == UpperChar(s[i])
  {
    seq(|s|, i requires 0 <= i < |s| => UpperChar(s[i]))
  }

  predicate StartsWith(s: string, prefix: string)
  {
    |prefix| <= |s| && s[..|prefix|] == prefix
  }

  predicate EndsWith(s: string, suffix: string)
  {
    |suffix| <= |s| && s[|s| - |suffix|..] == suffix
  }

  lemma EndsWithAppend(s: string, suffix: string)
    ensures EndsWith(s + suffix, suffix)
  {
    assert (s + suffix)[|s|..] == suffix;
  }

  /** The last `n` characters of `s` (`s.slice(-n)`), or all of `s` when it is shorter. */
  function LastChars(s: string, n: nat): (r: string)
    ensures |r| == if |s| < n then |s| else n
    ensures EndsWith(s, r)
  {
    if |s| <= n then s else s[|s| - n..]
  }

  /** `parts.join(sep)`. */
  function Join(parts: seq<string>, sep: string): string
  {
    if |parts| == 0 then ""
    else if |parts| == 1 then parts[0]
    else parts[0] + sep + Join(parts[1..], sep)
  }

  /** A join ends with its last part. */
  lemma {:induction false} JoinEndsWithLast(parts: seq<string>, sep: string)
    requires |parts| > 0
    ensures EndsWith(Join(parts, sep), parts[|parts| - 1])
  {
    if |parts| > 1 {
      JoinEndsWithLast(parts[1..], sep);
      var j := Join(parts[1..], sep);
      var last := parts[|parts| - 1];
      assert parts[1..][|parts[1..]| - 1] == last;
      var whole := parts[0] + sep + j;
      assert whole[|whole| - |last|..] == j[|j| - |last|..];
    }
  }

  /** Index of the first occurrence of character `c`, if any. */
  function IndexOf(s: string, c: char): (r: Option<nat>)
    ensures r.None? <==> c !in s
    ensures r.Some? ==> r.value < |s| && s[r.value] == c && c !in s[..r.value]
  {
    if |s| == 0 then None
    else if s[0] == c then Some(0)
    else match IndexOf(s[1..], c)
      case None => None
      case Some(k) => assert s[1..][..k] == s[1..k + 1]; Some(k + 1)
  }

  /** `s.split(c)`: the pieces between occurrences of `c`, always at least one. */
  function Split(s: string, c: char): (r: seq<string>)
    ensures |r| >= 1
    ensures forall i :: 0 <= i < |r| ==> c !in r[i]
    decreases |s|
  {
    match IndexOf(s, c)
      case None => [s]
      case Some(k) => [s[..k]] + Split(s[k + 1..], c)
  }

  /** A string without the separator is one piece. */
  lemma SplitWithout(s: string, c: char)
    requires c !in s
    ensures Split(s, c) == [s]
  {
  }

  /** The first separator splits off the text before it. */
  lemma SplitAround(a: string, c: char, b: string)
    requires c !in a
    ensures Split(a + [c] + b, c) == [a] + Split(b, c)
  {
    var s := a + [c] + b;
    assert s[|a|] == c;
    assert s[..|a|] == a && s[|a| + 1..] == b;
  }

  /** Splitting what `join` built from pieces without the separator gives the pieces back. */
  lemma {:induction false} SplitJoin(parts: seq<string>, c: char)
    requires |parts| >= 1 && forall i :: 0 <= i < |parts| ==> c !in parts[i]
    ensures Split(Join(parts, [c]), c) == parts
    decreases |parts|
  {
    if |parts| == 1 {
      SplitWithout(parts[0], c);
    } else {
      SplitJoin(parts[1..], c);
      SplitAround(parts[0], c, Join(parts[1..], [c]));
      assert [parts[0]] + parts[1..] == parts;
    }
  }

  /** `split(c)` gives one more piece than there are separators. */
  lemma {:induction false} SplitCount(s: string, c: char)
    ensures |Split(s, c)| == multiset(s)[c] + 1
    decreases |s|
  {
    match IndexOf(s, c)
      case None =>
        assert c !in multiset(s);
      case Some(k) =>
        assert s == s[..k] + [c] + s[k + 1..];
        assert c !in multiset(s[..k]);
        SplitCount(s[k + 1..], c);
  }

  /** A string that `trim()` empties. */
  predicate IsBlank(s: string) { forall i :: 0 <= i < |s| ==> IsSpace(s[i]) }

  /** The integers `start, start + 1, ..., end - 1`. */
  function Range(start: int, end: int): (r: seq<int>)
    ensures |r| == if end <= start then 0 else end - start
    ensures forall i :: 0 <= i < |r| ==> r[i] == start + i
    decreases end - start
  {
    if end <= start then [] else [start] + Range(start + 1, end)
  }

  /** A `slice` index: negative counts from the end, and the result is clamped to `[0, len]`. */
  function SliceIndex(i: int, len: nat): (r: nat)
    ensures r <= len
  {
    if i < 0 then (if len + i < 0 then 0 else len + i) else if i > len then len else i
  }

  /** JavaScript's `s.slice(start, end)`: empty when the clamped end is not past the clamped start. */
  function JsSlice(s: string, start: int, end: int): (r: string)
    ensures |r| <= |s|
  {
    var a := SliceIndex(start, |s|);
    var b := SliceIndex(end, |s|);
    if a < b then s[a..b] else ""
  }

  /** JavaScript's `t >= lo && t <= hi` for a string `t` of at most one character. */
  predicate InCharRange(t: string, lo: char, hi: char)
  {
    |t| == 1 && lo <= t[0] <= hi
  }

  /** `exts.find(e => item.endsWith(e))`: the index of the first listed ending of `item`. */
  function FirstEnding(exts: seq<string>, item: string): (r: Option<nat>)
    ensures r.None? <==> forall i :: 0 <= i < |exts| ==> !EndsWith(item, exts[i])
    ensures r.Some? ==> r.value < |exts| && EndsWith(item, exts[r.value])
    ensures r.Some? ==> forall j :: 0 <= j < r.value ==> !EndsWith(item, exts[j])
  {
    if |exts| == 0 then None
    else if EndsWith(item, exts[0]) then Some(0)
    else match FirstEnding(exts[1..], item)
      case None => None
      case Some(k) => Some(k + 1)
  }

  /** A string ends with the last character of each of its endings. */
  lemma EndsWithLast(s: string, e: string)
    requires EndsWith(s, e) && |e| > 0
    ensures s[|s| - 1] == e[|e| - 1]
  {
    assert s[|s| - |e|..][|e| - 1] == e[|e| - 1];
  }

  /** The first listed ending is found wherever it is listed. */
  lemma FirstEndingAt(exts: seq<string>, item: string, k: nat)
    requires k < |exts| && EndsWith(item, exts[k])
    requires forall j :: 0 <= j < k ==> !EndsWith(item, exts[j])
    ensures FirstEnding(exts, item) == Some(k)
  {
  }

  /** The decimal digits of a natural number, as `String(n)` and f-strings write them. */
  function DecimalString(n: nat): (r: string)
    ensures |r| >= 1 && forall i :: 0 <= i < |r| ==> IsDigit(r[i])
  {
    if n < 10 then [('0' as int + n) as char]
    else DecimalString(n / 10) + [('0' as int + n % 10) as char]
  }
}
