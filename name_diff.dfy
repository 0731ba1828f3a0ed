/**
 * The common core of the three `differenceInNames` versions: the longest
 * prefix and suffix that all names share (bounded by the shortest name),
 * and the loops that move those cuts back over characters of a class.
 */
module NameDiff {
  import opened Common

  /** `Math.min(...names.map(n => n.length))`. */
  function MinLen(names: seq<string>): (r: nat)
    requires |names| > 0
    ensures forall i :: 0 <= i < |names| ==> r <= |names[i]|
    ensures exists i :: 0 <= i < |names| && r == |names[i]|
  {
    if |names| == 1 then |names[0]|
    else
      var rest := MinLen(names[1..]);
      if |names[0]| <= rest then |names[0]| else rest
  }

  function Prefix(s: string, k: nat): string
    requires k <= |s|
  {
    s[..k]
  }

  function Suffix(s: string, k: nat): string
    requires k <= |s|
  {
    s[|s| - k..]
  }

  /** `a` and `b` start with the same `k` characters. */
  predicate SameStart(a: string, b: string, k: nat)
    requires k <= |a| && k <= |b|
  {
    Prefix(a, k) == Prefix(b, k)
  }

  /** Every name starts with the first `k` characters of the first name. */
  predicate SharesPrefix(names: seq<string>, k: nat)
    requires |names| > 0 && k <= MinLen(names)
  {
    forall i {:trigger SameStart(names[i], names[0], k)} :: 0 <= i < |names| ==> SameStart(names[i], names[0], k)
  }

  /** `a` and `b` end with the same `k` characters. */
  predicate SameEnd(a: string, b: string, k: nat)
    requires k <= |a| && k <= |b|
  {
    Suffix(a, k) == Suffix(b, k)
  }

  /** Every name ends with the last `k` characters of the first name. */
  predicate SharesSuffix(names: seq<string>, k: nat)
    requires |names| > 0 && k <= MinLen(names)
  {
    forall i {:trigger SameEnd(names[i], names[0], k)} :: 0 <= i < |names| ==> SameEnd(names[i], names[0], k)
  }

  /** The longest shared prefix no longer than `k`. */
  function CommonPrefixLen(names: seq<string>, k: nat): (r: nat)
    requires |names| > 0 && k <= MinLen(names)
    ensures r <= k && SharesPrefix(names, r)
    ensures forall j :: r < j <= k ==> !SharesPrefix(names, j)
  {
    if k == 0 || SharesPrefix(names, k) then k else CommonPrefixLen(names, k - 1)
  }

  /** The longest shared suffix no longer than `k`. */
  function CommonSuffixLen(names: seq<string>, k: nat): (r: nat)
    requires |names| > 0 && k <= MinLen(names)
    ensures r <= k && SharesSuffix(names, r)
    ensures forall j :: r < j <= k ==> !SharesSuffix(names, j)
  {
    if k == 0 || SharesSuffix(names, k) then k else CommonSuffixLen(names, k - 1)
  }

  /** The character classes the cuts move back over. */
  datatype CharClass =
    | DigitOrDot    // '.' or '0'..'9'
    | Digit         // '0'..'9'
    | FoldedLetter  // a letter once lower-cased
    | LowerLetter   // 'a'..'z' exactly

  /** The same test on the character itself. */
  predicate CharInClass(ch: char, c: CharClass)
  {
    match c
      case DigitOrDot => ch == '.' || IsDigit(ch)
      case Digit => IsDigit(ch)
      case FoldedLetter => IsLowerAscii(LowerChar(ch))
      case LowerLetter => IsLowerAscii(ch)
  }

  /**
   * Membership of a probed slice. Every probe below is at most one character
   * long; on those this is JavaScript's `t >= lo && t <= hi` (the empty string
   * sorts below every character, so it is in no class), with `t === '.'` for
   * the dot and `t.toLowerCase()` for the folded letters.
   */
  predicate InClass(t: string, c: CharClass)
  {
    |t| == 1 && CharInClass(t[0], c)
  }

  /** The character just before a prefix cut at `k`, as a one-character string. */
  function BeforeCut(s: string, k: nat): string
    requires 1 <= k <= |s|
  {
    [s[k - 1]]
  }

  /** It is what `s.slice(k - 1, k)` reads. */
  lemma BeforeCutIsSlice(s: string, k: nat)
    requires 1 <= k <= |s|
    ensures BeforeCut(s, k) == JsSlice(s, k - 1, k)
  {
  }

  /** Move a prefix cut at `k` back over characters of class `c`. */
  function BackOffPrefix(s: string, k: nat, c: CharClass): (r: nat)
    requires k <= |s|
    ensures r <= k
    ensures forall j :: r <= j < k ==> CharInClass(s[j], c)
    ensures r == 0 || !CharInClass(s[r - 1], c)
  {
    if k > 0 && InClass(BeforeCut(s, k), c) then BackOffPrefix(s, k - 1, c) else k
  }

  /**
   * How the character at the start of a `k`-long suffix is read:
   * `s.slice(-k, s.length - k + 1)` (LengthBased), or `s.slice(-k, -k + 1)`
   * (NegativeEnd), which is the empty string when `k` is 1.
   */
  datatype Probe = LengthBased | NegativeEnd

  /** The probe's result: the suffix's first character, except that the negative-end probe reads nothing at 1. */
  function AtSuffixCut(s: string, k: nat, p: Probe): string
    requires 1 <= k <= |s|
  {
    match p
      case LengthBased => [s[|s| - k]]
      case NegativeEnd => if k == 1 then "" else [s[|s| - k]]
  }

  /** It is what the two `slice` calls read. */
  lemma AtSuffixCutIsSlice(s: string, k: nat)
    requires 1 <= k <= |s|
    ensures AtSuffixCut(s, k, LengthBased) == JsSlice(s, -(k as int), |s| - k + 1)
    ensures AtSuffixCut(s, k, NegativeEnd) == JsSlice(s, -(k as int), -(k as int) + 1)
  {
  }

  /** Move a suffix cut of length `k` back over characters of class `c`. */
  function BackOffSuffix(s: string, k: nat, c: CharClass, p: Probe): (r: nat)
    requires k <= |s|
    ensures r <= k
  {
    if k > 0 && InClass(AtSuffixCut(s, k, p), c) then BackOffSuffix(s, k - 1, c, p) else k
  }

  /** With the length-based probe the character read is the first one of the suffix. */
  lemma LengthBasedProbe(s: string, k: nat, c: CharClass)
    requires 1 <= k <= |s|
    ensures InClass(AtSuffixCut(s, k, LengthBased), c) <==> CharInClass(s[|s| - k], c)
  {
  }

  /** One step of the suffix back-off with the length-based probe. */
  lemma BackOffSuffixStep(s: string, k: nat, c: CharClass)
    requires 1 <= k <= |s|
    ensures BackOffSuffix(s, k, c, LengthBased)
      == if CharInClass(s[|s| - k], c) then BackOffSuffix(s, k - 1, c, LengthBased) else k
  {
    LengthBasedProbe(s, k, c);
  }

  /** Every character of `s[lo..hi]` is in class `c`. */
  predicate RunInClass(s: string, lo: int, hi: int, c: CharClass)
    requires 0 <= lo && hi <= |s|
  {
    forall j :: lo <= j < hi ==> CharInClass(s[j], c)
  }

  /** With the length-based probe every character the suffix back-off skips is in the class. */
  lemma {:induction false} BackOffSuffixRun(s: string, k: nat, c: CharClass)
    requires k <= |s|
    ensures RunInClass(s, |s| - k, |s| - BackOffSuffix(s, k, c, LengthBased), c)
  {
    if k > 0 {
      BackOffSuffixStep(s, k, c);
      if CharInClass(s[|s| - k], c) {
        BackOffSuffixRun(s, k - 1, c);
      }
    }
  }

  /** With the length-based probe the suffix back-off stops at the first character outside the class. */
  lemma {:induction false} BackOffSuffixStops(s: string, k: nat, c: CharClass)
    requires k <= |s|
    ensures var r := BackOffSuffix(s, k, c, LengthBased); r == 0 || !CharInClass(s[|s| - r], c)
  {
    if k > 0 {
      BackOffSuffixStep(s, k, c);
      if CharInClass(s[|s| - k], c) {
        BackOffSuffixStops(s, k - 1, c);
      }
    }
  }

  /** With the negative-end probe a one-character suffix is never inspected. */
  lemma NegativeEndStopsAtOne(s: string, c: CharClass)
    requires 1 <= |s|
    ensures BackOffSuffix(s, 1, c, NegativeEnd) == 1
  {
  }

  /** `name.slice(start, name.length - end)` for every name. */
  function Cut(names: seq<string>, start: nat, end: nat): (r: seq<string>)
    ensures |r| == |names|
    ensures forall i :: 0 <= i < |names| ==> r[i] == JsSlice(names[i], start, |names[i]| - end)
  {
    seq(|names|, i requires 0 <= i < |names| => JsSlice(names[i], start, |names[i]| - end))
  }

  /** Cuts of 0 at both ends keep every name. */
  lemma CutNothing(names: seq<string>)
    ensures Cut(names, 0, 0) == names
  {
    forall i | 0 <= i < |names| ensures Cut(names, 0, 0)[i] == names[i] {
      KeepFromStart(names[i], |names[i]|);
    }
  }

  /** A cut at 0 keeps the first `b` characters. */
  lemma KeepFromStart(s: string, b: nat)
    requires b <= |s|
    ensures JsSlice(s, 0, b) == s[..b]
  {
  }

  lemma PrefixOfPrefix(s: string, k: nat, j: nat)
    requires j <= k <= |s|
    ensures Prefix(s, j) == Prefix(s, k)[..j]
  {
  }

  lemma SuffixOfSuffix(s: string, k: nat, j: nat)
    requires j <= k <= |s|
    ensures Suffix(s, j) == Suffix(s, k)[k - j..]
  {
    var a := Suffix(s, k)[k - j..];
    assert |a| == j;
    forall t | 0 <= t < j ensures a[t] == s[|s| - j + t] {
    }
  }

  /** A shared prefix stays shared when it is shortened. */
  lemma SharesPrefixShorter(names: seq<string>, k: nat, j: nat)
    requires |names| > 0 && j <= k <= MinLen(names) && SharesPrefix(names, k)
    ensures SharesPrefix(names, j)
  {
    forall i | 0 <= i < |names| ensures SameStart(names[i], names[0], j) {
      assert SameStart(names[i], names[0], k);
      PrefixOfPrefix(names[i], k, j);
      PrefixOfPrefix(names[0], k, j);
    }
  }

  /** A shared suffix stays shared when it is shortened. */
  lemma SharesSuffixShorter(names: seq<string>, k: nat, j: nat)
    requires |names| > 0 && j <= k <= MinLen(names) && SharesSuffix(names, k)
    ensures SharesSuffix(names, j)
  {
    forall i | 0 <= i < |names| ensures SameEnd(names[i], names[0], j) {
      assert SameEnd(names[i], names[0], k);
      SuffixOfSuffix(names[i], k, j);
      SuffixOfSuffix(names[0], k, j);
    }
  }

  /** The longest shared prefix is `r` when `r` is shared and one more character is not. */
  lemma CommonPrefixLenIs(names: seq<string>, k: nat, r: nat)
    requires |names| > 0 && r <= k <= MinLen(names)
    requires SharesPrefix(names, r) && (r == k || !SharesPrefix(names, r + 1))
    ensures CommonPrefixLen(names, k) == r
  {
    var c := CommonPrefixLen(names, k);
    if c > r {
      SharesPrefixShorter(names, c, r + 1);
    }
  }

  /** The longest shared suffix is `r` when `r` is shared and one more character is not. */
  lemma CommonSuffixLenIs(names: seq<string>, k: nat, r: nat)
    requires |names| > 0 && r <= k <= MinLen(names)
    requires SharesSuffix(names, r) && (r == k || !SharesSuffix(names, r + 1))
    ensures CommonSuffixLen(names, k) == r
  {
    var c := CommonSuffixLen(names, k);
    if c > r {
      SharesSuffixShorter(names, c, r + 1);
    }
  }

  /**
   * The rules one version of `differenceInNames` applies: the classes the
   * prefix cut moves back over (in order), the classes the suffix cut moves
   * back over, and how the character at the suffix cut is read.
   */
  datatype Rules = Rules(prefixRun: seq<CharClass>, suffixRun: seq<CharClass>, probe: Probe)

  /** Some class of `cs` holds `ch`. */
  predicate InSomeClass(ch: char, cs: seq<CharClass>)
  {
    exists i :: 0 <= i < |cs| && CharInClass(ch, cs[i])
  }

  /** The prefix cut after one back-off loop per class, in order. */
  function BackOffPrefixAll(s: string, k: nat, cs: seq<CharClass>): (r: nat)
    requires k <= |s|
    ensures r <= k
    ensures forall j :: r <= j < k ==> InSomeClass(s[j], cs)
    ensures |cs| > 0 && r > 0 ==> !CharInClass(s[r - 1], cs[|cs| - 1])
    decreases |cs|
  {
    if |cs| == 0 then k
    else
      var k1 := BackOffPrefix(s, k, cs[0]);
      var r := BackOffPrefixAll(s, k1, cs[1..]);
      assert forall j :: k1 <= j < k ==> CharInClass(s[j], cs[0]);
      assert forall j :: r <= j < k1 ==> InSomeClass(s[j], cs[1..]);
      assert forall j :: r <= j < k1 ==> InSomeClass(s[j], cs) by {
        forall j | r <= j < k1 ensures InSomeClass(s[j], cs) {
          var m :| 0 <= m < |cs[1..]| && CharInClass(s[j], cs[1..][m]);
          assert CharInClass(s[j], cs[m + 1]);
        }
      }
      r
  }

  /** The suffix cut after one back-off loop per class, in order. */
  function BackOffSuffixAll(s: string, k: nat, cs: seq<CharClass>, p: Probe): (r: nat)
    requires k <= |s|
    ensures r <= k
    decreases |cs|
  {
    if |cs| == 0 then k else BackOffSuffixAll(s, BackOffSuffix(s, k, cs[0], p), cs[1..], p)
  }

  /** Where the prefix cut ends up: the common prefix moved back by the rules. */
  function StartCut(names: seq<string>, rules: Rules): (r: nat)
    requires |names| > 0
    ensures r <= MinLen(names)
  {
    BackOffPrefixAll(names[0], CommonPrefixLen(names, MinLen(names)), rules.prefixRun)
  }

  /** Where the suffix cut ends up: the common suffix moved back by the rules. */
  function EndCut(names: seq<string>, rules: Rules): (r: nat)
    requires |names| > 0
    ensures r <= MinLen(names)
  {
    BackOffSuffixAll(names[0], CommonSuffixLen(names, MinLen(names)), rules.suffixRun, rules.probe)
  }

  /** With no shared prefix the prefix cut stays at the start. */
  lemma StartCutWithoutPrefix(names: seq<string>, rules: Rules)
    requires |names| > 0 && CommonPrefixLen(names, MinLen(names)) == 0
    ensures StartCut(names, rules) == 0
  {
  }

  /** The suffix cut is the shared suffix's length moved back by the rules. */
  lemma EndCutFrom(names: seq<string>, rules: Rules, k: nat)
    requires |names| > 0 && CommonSuffixLen(names, MinLen(names)) == k
    ensures k <= |names[0]|
    ensures EndCut(names, rules) == BackOffSuffixAll(names[0], k, rules.suffixRun, rules.probe)
  {
  }

  /** One pass of `differenceInNames` on a non-empty list: cut the shared ends off every name. */
  function Strip(names: seq<string>, rules: Rules): seq<string>
    requires |names| > 0
  {
    Cut(names, StartCut(names, rules), EndCut(names, rules))
  }

  /** One name put back together from the shared prefix, the kept middle and the shared suffix. */
  lemma ReassembleOne(s: string, first: string, start: nat, end: nat)
    requires start + end <= |s| && start <= |first| && end <= |first|
    requires Prefix(s, start) == Prefix(first, start) && Suffix(s, end) == Suffix(first, end)
    ensures s == Prefix(first, start) + JsSlice(s, start, |s| - end) + Suffix(first, end)
  {
    assert JsSlice(s, start, |s| - end) == s[start..|s| - end];
    assert s == s[..start] + s[start..|s| - end] + s[|s| - end..];
  }

  /** Both cuts lie inside the text every name shares. */
  lemma StripCutsShared(names: seq<string>, rules: Rules)
    requires |names| > 0
    ensures SharesPrefix(names, StartCut(names, rules))
    ensures SharesSuffix(names, EndCut(names, rules))
  {
    var m := MinLen(names);
    SharesPrefixShorter(names, CommonPrefixLen(names, m), StartCut(names, rules));
    SharesSuffixShorter(names, CommonSuffixLen(names, m), EndCut(names, rules));
  }

  /** Cutting a shared prefix and a shared suffix off every name loses nothing else. */
  lemma CutReassembles(names: seq<string>, start: nat, end: nat)
    requires |names| > 0 && start <= MinLen(names) && end <= MinLen(names)
    requires SharesPrefix(names, start) && SharesSuffix(names, end)
    ensures var d := Cut(names, start, end);
      && (forall i :: 0 <= i < |names| && start + end <= |names[i]| ==>
            names[i] == Prefix(names[0], start) + d[i] + Suffix(names[0], end))
      && (forall i :: 0 <= i < |names| && start + end > |names[i]| ==> d[i] == "")
  {
    var d := Cut(names, start, end);
    forall i | 0 <= i < |names| && start + end <= |names[i]|
      ensures names[i] == Prefix(names[0], start) + d[i] + Suffix(names[0], end)
    {
      assert SameStart(names[i], names[0], start) && SameEnd(names[i], names[0], end);
      ReassembleOne(names[i], names[0], start, end);
    }
  }

  /**
   * Only shared text is removed: whenever the two cuts do not overlap, each
   * name is the first name's prefix up to the start cut, then what the pass
   * keeps, then the first name's suffix from the end cut; otherwise nothing
   * is kept.
   */
  lemma StripReassembles(names: seq<string>, rules: Rules)
    requires |names| > 0
    ensures var start := StartCut(names, rules);
      var end := EndCut(names, rules);
      var d := Strip(names, rules);
      && |d| == |names|
      && (forall i :: 0 <= i < |names| && start + end <= |names[i]| ==>
            names[i] == Prefix(names[0], start) + d[i] + Suffix(names[0], end))
      && (forall i :: 0 <= i < |names| && start + end > |names[i]| ==> d[i] == "")
  {
    StripCutsShared(names, rules);
    CutReassembles(names, StartCut(names, rules), EndCut(names, rules));
  }

  /**
   * Every character the prefix back-off gave back to the names is in one of
   * the rule's classes, and the character left before the cut is not in the
   * last class.
   */
  lemma StartCutBacksOff(names: seq<string>, rules: Rules)
    requires |names| > 0
    ensures var start := StartCut(names, rules);
      && (forall j :: start <= j < CommonPrefixLen(names, MinLen(names)) ==> InSomeClass(names[0][j], rules.prefixRun))
      && (|rules.prefixRun| > 0 && start > 0 ==> !CharInClass(names[0][start - 1], rules.prefixRun[|rules.prefixRun| - 1]))
  {
  }

  /** With the length-based probe the last back-off stops at a character outside its class. */
  lemma {:induction false} BackOffSuffixAllStops(s: string, k: nat, cs: seq<CharClass>)
    requires k <= |s| && |cs| > 0
    ensures var r := BackOffSuffixAll(s, k, cs, LengthBased);
      r == 0 || !CharInClass(s[|s| - r], cs[|cs| - 1])
    decreases |cs|
  {
    var k1 := BackOffSuffix(s, k, cs[0], LengthBased);
    if |cs| == 1 {
      BackOffSuffixStops(s, k, cs[0]);
      assert BackOffSuffixAll(s, k1, cs[1..], LengthBased) == k1;
    } else {
      BackOffSuffixAllStops(s, k1, cs[1..]);
      assert cs[1..][|cs[1..]| - 1] == cs[|cs| - 1];
    }
  }

  /**
   * With the length-based probe the suffix cut never starts inside a run of
   * the last class: the first character cut off is outside it.
   */
  lemma EndCutStops(names: seq<string>, rules: Rules)
    requires |names| > 0 && rules.probe == LengthBased && |rules.suffixRun| > 0
    ensures var end := EndCut(names, rules);
      end == 0 || !CharInClass(names[0][|names[0]| - end], rules.suffixRun[|rules.suffixRun| - 1])
  {
    var k := CommonSuffixLen(names, MinLen(names));
    assert k <= |names[0]|;
    BackOffSuffixAllStops(names[0], k, rules.suffixRun);
    assert EndCut(names, rules) == BackOffSuffixAll(names[0], k, rules.suffixRun, rules.probe);
  }

  /** The folder part of a name: everything before its last '/'. */
  function Folder(name: string): string
  {
    var parts := Split(name, '/');
    Join(parts[..|parts| - 1], "/")
  }

  /** The file part of a name: everything after its last '/'. */
  function FileName(name: string): string
  {
    var parts := Split(name, '/');
    parts[|parts| - 1]
  }

  function Folders(names: seq<string>): (r: seq<string>)
    ensures |r| == |names| && forall i :: 0 <= i < |names| ==> r[i] == Folder(names[i])
  {
    seq(|names|, i requires 0 <= i < |names| => Folder(names[i]))
  }

  function FileNames(names: seq<string>): (r: seq<string>)
    ensures |r| == |names| && forall i :: 0 <= i < |names| ==> r[i] == FileName(names[i])
  {
    seq(|names|, i requires 0 <= i < |names| => FileName(names[i]))
  }

  /** A folder difference and a file difference, with ' - ' between them only when both are non-empty. */
  function JoinedName(folder: string, file: string): (r: string)
    ensures folder == "" ==> r == file
    ensures file == "" ==> r == folder
    ensures folder != "" && file != "" ==> r == folder + " - " + file
  {
    if folder == "" || file == "" then folder + file else folder + " - " + file
  }

  /** The recursion's join, name by name. */
  function JoinAll(folders: seq<string>, files: seq<string>): (r: seq<string>)
    requires |folders| == |files|
    ensures |r| == |folders|
    ensures forall i :: 0 <= i < |r| ==> r[i] == JoinedName(folders[i], files[i])
  {
    seq(|folders|, i requires 0 <= i < |folders| => JoinedName(folders[i], files[i]))
  }

  /**
   * `differenceInNames(names, rec)` of the two newer versions: [] for no
   * names; one pass otherwise, and with `rec` the folder and file parts of
   * that pass compared again on their own and joined.
   */
  function Difference(names: seq<string>, rules: Rules, rec: bool): (r: seq<string>)
    ensures |r| == |names|
    decreases rec
  {
    if |names| == 0 then []
    else
      var d := Strip(names, rules);
      if rec then JoinAll(Difference(Folders(d), rules, false), Difference(FileNames(d), rules, false))
      else d
  }

  /** With the recursion, name i joins the separate differences of the folder and the file parts of pass i. */
  lemma DifferenceJoins(names: seq<string>, rules: Rules)
    requires |names| > 0
    ensures var d := Strip(names, rules);
      var folders := Difference(Folders(d), rules, false);
      var files := Difference(FileNames(d), rules, false);
      var r := Difference(names, rules, true);
      forall i :: 0 <= i < |names| ==> r[i] == JoinedName(folders[i], files[i])
  {
  }
  /** The inner loop of the prefix search: does every name start like the first one? */
  method AllSharePrefix(names: seq<string>, start: nat) returns (shared: bool)
    requires |names| > 0 && start <= MinLen(names)
    ensures shared <==> SharesPrefix(names, start)
  {
    var chars := Prefix(names[0], start);
    var i := 1;
    while i < |names|
      invariant 1 <= i <= |names|
      invariant forall j :: 0 <= j < i ==> SameStart(names[j], names[0], start)
    {
      if Prefix(names[i], start) != chars {
        assert !SameStart(names[i], names[0], start);
        return false;
      }
      i := i + 1;
    }
    return true;
  }

  /** The outer `while` over the prefix length: shorten until every name shares it. */
  method LongestCommonPrefix(names: seq<string>) returns (start: nat)
    requires |names| > 0
    ensures start == CommonPrefixLen(names, MinLen(names))
  {
    var m := MinLen(names);
    start := m;
    while start > 0
      invariant start <= m
      invariant CommonPrefixLen(names, m) == CommonPrefixLen(names, start)
      decreases start
    {
      var shared := AllSharePrefix(names, start);
      if shared {
        break;
      }
      start := start - 1;
    }
  }

  /** The inner loop of the suffix search: does every name end like the first one? */
  method AllShareSuffix(names: seq<string>, end: nat) returns (shared: bool)
    requires |names| > 0 && end <= MinLen(names)
    ensures shared <==> SharesSuffix(names, end)
  {
    var chars := Suffix(names[0], end);
    var i := 1;
    while i < |names|
      invariant 1 <= i <= |names|
      invariant forall j :: 0 <= j < i ==> SameEnd(names[j], names[0], end)
    {
      if Suffix(names[i], end) != chars {
        assert !SameEnd(names[i], names[0], end);
        return false;
      }
      i := i + 1;
    }
    return true;
  }

  /** The same search from the end of the names. */
  method LongestCommonSuffix(names: seq<string>) returns (end: nat)
    requires |names| > 0
    ensures end == CommonSuffixLen(names, MinLen(names))
  {
    var m := MinLen(names);
    end := m;
    while end > 0
      invariant end <= m
      invariant CommonSuffixLen(names, m) == CommonSuffixLen(names, end)
      decreases end
    {
      var shared := AllShareSuffix(names, end);
      if shared {
        break;
      }
      end := end - 1;
    }
  }

  /** A `while` that moves a prefix cut back over one character class. */
  method SkipBackPrefix(s: string, k: nat, c: CharClass) returns (r: nat)
    requires k <= |s|
    ensures r == BackOffPrefix(s, k, c)
  {
    r := k;
    while r > 0 && InClass(BeforeCut(s, r), c)
      invariant r <= k
      invariant BackOffPrefix(s, r, c) == BackOffPrefix(s, k, c)
    {
      r := r - 1;
    }
  }

  /** A `while` that moves a suffix cut back over one character class. */
  method SkipBackSuffix(s: string, k: nat, c: CharClass, p: Probe) returns (r: nat)
    requires k <= |s|
    ensures r == BackOffSuffix(s, k, c, p)
  {
    r := k;
    while r > 0 && InClass(AtSuffixCut(s, r, p), c)
      invariant r <= k
      invariant BackOffSuffix(s, r, c, p) == BackOffSuffix(s, k, c, p)
    {
      r := r - 1;
    }
  }

  /** `names.map(name => name.slice(start, name.length - end))`. */
  method CutAll(names: seq<string>, start: nat, end: nat) returns (r: seq<string>)
    ensures r == Cut(names, start, end)
  {
    r := [];
    var i := 0;
    while i < |names|
      invariant i <= |names|
      invariant r == Cut(names, start, end)[..i]
    {
      r := r + [JsSlice(names[i], start, |names[i]| - end)];
      i := i + 1;
    }
  }

  /** The `forEach` that rewrites every name as its joined folder and file differences. */
  method RewriteJoined(diff: seq<string>, folders: seq<string>, files: seq<string>) returns (r: seq<string>)
    requires |diff| == |folders| == |files|
    ensures r == JoinAll(folders, files)
  {
    r := diff;
    var i := 0;
    while i < |r|
      invariant 0 <= i <= |r| == |folders|
      invariant forall j :: 0 <= j < i ==> r[j] == JoinedName(folders[j], files[j])
    {
      r := r[i := JoinedName(folders[i], files[i])];
      i := i + 1;
    }
  }
}
