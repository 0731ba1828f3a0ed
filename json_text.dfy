/**
 * The body of a JSON string literal, as `JSON.parse` reads it (section 7
 * of RFC 8259): any character but a quote, a backslash or a control
 * character stands for itself, and a backslash starts one of the escapes
 * `\" \\ \/ \b \f \n \r \t` or `\u` with four hex digits. The Streamlit
 * pages paste their values between the quotes of such a literal.
 */
module JsonText {
  import opened Common

  /** A character that may stand unescaped in a string literal. */
  predicate StandsForItself(c: char)
  {
    c != '"' && c != '\\' && c >= ' '
  }

  /** A string that needs no escaping: every character stands for itself. */
  predicate JsonSafe(s: string)
  {
    forall i :: 0 <= i < |s| ==> StandsForItself(s[i])
  }

  /** The character a one-letter escape stands for; `u` and every other letter are not one. */
  function ShortEscape(c: char): (r: Option<char>)
    ensures r.Some? <==> c in "\"\\/bfnrt"
  {
    match c
      case '"' => Some('"')
      case '\\' => Some('\\')
      case '/' => Some('/')
      case 'b' => Some(8 as char)
      case 'f' => Some(12 as char)
      case 'n' => Some('\n')
      case 'r' => Some('\r')
      case 't' => Some('\t')
      case _ => None
  }

  /** The value of a hex digit of either case. */
  function HexDigit(c: char): (r: Option<nat>)
    ensures r.Some? <==> '0' <= c <= '9' || 'a' <= c <= 'f' || 'A' <= c <= 'F'
    ensures r.Some? ==> r.value < 16
  {
    if '0' <= c <= '9' then Some(c as nat - '0' as nat)
    else if 'a' <= c <= 'f' then Some(c as nat - 'a' as nat + 10)
    else if 'A' <= c <= 'F' then Some(c as nat - 'A' as nat + 10)
    else None
  }

  /** The code unit four hex digits name. */
  function Hex4(a: char, b: char, c: char, d: char): (r: Option<nat>)
    ensures r.Some? <==> HexDigit(a).Some? && HexDigit(b).Some? && HexDigit(c).Some? && HexDigit(d).Some?
    ensures r.Some? ==> r.value < 0x1_0000
  {
    var da, db, dc, dd := HexDigit(a), HexDigit(b), HexDigit(c), HexDigit(d);
    if da.Some? && db.Some? && dc.Some? && dd.Some? then
      Some(((da.value * 16 + db.value) * 16 + dc.value) * 16 + dd.value)
    else None
  }

  predicate IsHighSurrogate(u: nat) { 0xD800 <= u <= 0xDBFF }

  predicate IsLowSurrogate(u: nat) { 0xDC00 <= u <= 0xDFFF }

  /** The character of a code unit that is no surrogate; a surrogate alone becomes U+FFFD. */
  function UnitChar(u: nat): char
    requires u < 0x1_0000
  {
    if 0xD800 <= u <= 0xDFFF then 0xFFFD as char else u as char
  }

  /** The character a high and a low surrogate stand for together. */
  function PairChar(hi: nat, lo: nat): (r: char)
    requires IsHighSurrogate(hi) && IsLowSurrogate(lo)
    ensures r as int >= 0x1_0000
  {
    (0x1_0000 + (hi - 0xD800) * 0x400 + (lo - 0xDC00)) as char
  }

  /** `c` before the decoded rest, or no text when the rest does not decode. */
  function Cons(c: char, rest: Option<string>): (r: Option<string>)
    ensures r.Some? <==> rest.Some?
    ensures r.Some? ==> r.value == [c] + rest.value
  {
    if rest.Some? then Some([c] + rest.value) else None
  }

  /** `x` before a decoded rest, or no text when the rest does not decode. */
  function Cons2(x: string, rest: Option<string>): (r: Option<string>)
    ensures r.Some? <==> rest.Some?
    ensures r.Some? ==> r.value == x + rest.value
  {
    if rest.Some? then Some(x + rest.value) else None
  }

  /**
   * The text a literal body stands for, or None when `JSON.parse` rejects
   * it: a quote or a control character, a backslash at the end, or one
   * that starts no escape. Two `\u` escapes naming a surrogate pair give
   * one character.
   */
  function Unescape(s: string): (r: Option<string>)
    ensures r.Some? ==> |r.value| <= |s|
    decreases |s|
  {
    if s == [] then Some("")
    else if s[0] == '"' || s[0] < ' ' then None
    else if s[0] != '\\' then Cons(s[0], Unescape(s[1..]))
    else if |s| < 2 then None
    else if ShortEscape(s[1]).Some? then Cons(ShortEscape(s[1]).value, Unescape(s[2..]))
    else if s[1] != 'u' || |s| < 6 || Hex4(s[2], s[3], s[4], s[5]).None? then None
    else
      var u := Hex4(s[2], s[3], s[4], s[5]).value;
      if IsHighSurrogate(u) && |s| >= 12 && s[6] == '\\' && s[7] == 'u'
         && Hex4(s[8], s[9], s[10], s[11]).Some? && IsLowSurrogate(Hex4(s[8], s[9], s[10], s[11]).value)
      then Cons(PairChar(u, Hex4(s[8], s[9], s[10], s[11]).value), Unescape(s[12..]))
      else Cons(UnitChar(u), Unescape(s[6..]))
  }

  /** A JSON-safe string is its own literal body. */
  lemma {:induction false} SafeUnescapesToItself(s: string)
    requires JsonSafe(s)
    ensures Unescape(s) == Some(s)
    decreases |s|
  {
    if s != [] {
      assert StandsForItself(s[0]);
      assert JsonSafe(s[1..]) by {
        forall i | 0 <= i < |s[1..]| ensures StandsForItself(s[1..][i]) {
          assert s[1..][i] == s[i + 1];
        }
      }
      SafeUnescapesToItself(s[1..]);
      assert [s[0]] + s[1..] == s;
    }
  }

  /**
   * Without a backslash, a body parses exactly when it is JSON-safe, and
   * then it stands for itself: a quote or a control character always
   * breaks it.
   */
  lemma {:induction false} WithoutBackslash(s: string)
    requires '\\' !in s
    ensures Unescape(s).Some? <==> JsonSafe(s)
    ensures Unescape(s).Some? ==> Unescape(s).value == s
    decreases |s|
  {
    if JsonSafe(s) {
      SafeUnescapesToItself(s);
    } else if s != [] {
      if StandsForItself(s[0]) {
        assert '\\' !in s[1..] by {
          assert forall i :: 0 <= i < |s[1..]| ==> s[1..][i] == s[i + 1];
        }
        assert !JsonSafe(s[1..]) by {
          var i :| 0 <= i < |s| && !StandsForItself(s[i]);
          assert i > 0 && s[1..][i - 1] == s[i];
        }
        WithoutBackslash(s[1..]);
      }
    }
  }

  /** A hex digit's character. */
  function HexChar(d: nat): (r: char)
    requires d < 16
    ensures HexDigit(r) == Some(d)
  {
    if d < 10 then ('0' as nat + d) as char else ('a' as nat + d - 10) as char
  }

  /** The escaped form of one character: quote and backslash by a letter escape, control characters as `\u00XX`. */
  function QuoteChar(c: char): (r: string)
    ensures StandsForItself(c) ==> r == [c]
  {
    if c == '"' then "\\\""
    else if c == '\\' then "\\\\"
    else if c < ' ' then "\\u00" + [HexChar(c as nat / 16), HexChar(c as nat % 16)]
    else [c]
  }

  /** The literal body a JSON encoder writes for `s` (only what must be escaped is). */
  function Quote(s: string): (r: string)
    ensures JsonSafe(s) ==> r == s
    decreases |s|
  {
    if s == [] then ""
    else
      assert JsonSafe(s) ==> JsonSafe(s[1..]) by {
        assert forall i :: 0 <= i < |s[1..]| ==> s[1..][i] == s[i + 1];
      }
      assert JsonSafe(s) ==> [s[0]] + s[1..] == s;
      QuoteChar(s[0]) + Quote(s[1..])
  }

  /** One escaped character reads back as itself, whatever follows it. */
  lemma UnescapeQuoteChar(c: char, t: string)
    ensures Unescape(QuoteChar(c) + t) == Cons(c, Unescape(t))
  {
    var s := QuoteChar(c) + t;
    if c == '"' || c == '\\' {
      assert s[2..] == t;
    } else if c < ' ' {
      var n := c as nat;
      assert s[2..6] == "00" + [HexChar(n / 16), HexChar(n % 16)];
      assert Hex4(s[2], s[3], s[4], s[5]) == Some(n);
      assert s[6..] == t;
      assert UnitChar(n) == c;
    } else {
      assert s[1..] == t;
    }
  }

  /** Every string survives being quoted and parsed back. */
  lemma {:induction false} QuoteRoundTrip(s: string)
    ensures Unescape(Quote(s)) == Some(s)
    decreases |s|
  {
    if s != [] {
      UnescapeQuoteChar(s[0], Quote(s[1..]));
      QuoteRoundTrip(s[1..]);
      assert [s[0]] + s[1..] == s;
    }
  }

  /** Text that needs no escape passes through in front of whatever follows it. */
  lemma {:induction false} SafePrefix(x: string, t: string)
    requires JsonSafe(x)
    ensures Unescape(x + t) == Cons2(x, Unescape(t))
    decreases |x|
  {
    if x == [] {
      assert x + t == t;
      if Unescape(t).Some? {
        assert x + Unescape(t).value == Unescape(t).value;
      }
    } else {
      var u := x + t;
      assert StandsForItself(x[0]);
      assert JsonSafe(x[1..]) by {
        forall i | 0 <= i < |x[1..]| ensures StandsForItself(x[1..][i]) {
          assert x[1..][i] == x[i + 1];
        }
      }
      assert u[0] == x[0] && u[1..] == x[1..] + t;
      assert Unescape(u) == Cons(x[0], Unescape(x[1..] + t));
      SafePrefix(x[1..], t);
      if Unescape(t).Some? {
        assert [x[0]] + (x[1..] + Unescape(t).value) == x + Unescape(t).value;
      }
    }
  }

  /**
   * A doubled backslash between two texts that need no escape stands for
   * one backslash: the body `a\\b.nii` is the name `a\b.nii`.
   */
  lemma DoubledBackslash(x: string, y: string)
    requires JsonSafe(x) && JsonSafe(y)
    ensures Unescape(x + "\\\\" + y) == Some(x + "\\" + y)
  {
    var e := QuoteChar('\\') + y;
    assert Unescape(e) == Some("\\" + y) by {
      SafeUnescapesToItself(y);
      UnescapeQuoteChar('\\', y);
    }
    SafePrefix(x, e);
    assert x + "\\\\" + y == x + e;
    assert x + "\\" + y == x + ("\\" + y);
  }

  /** A `\u` escape stands for the character it names: `\u0041.nii` is `A.nii`. */
  lemma UnicodeEscape()
    ensures Unescape("\\u0041.nii") == Some("A.nii")
  {
    var u := "\\u0041.nii";
    assert u[0] == '\\' && u[1] == 'u' && ShortEscape(u[1]).None?;
    assert Hex4(u[2], u[3], u[4], u[5]) == Some(0x41);
    assert !IsHighSurrogate(0x41) && UnitChar(0x41) == 'A';
    assert u[6..] == ".nii";
    SafeUnescapesToItself(".nii");
    assert Unescape(u) == Cons('A', Unescape(".nii"));
    assert "A" + ".nii" == "A.nii";
  }

  /** A quote, a tab, an escape letter outside the list and a final backslash each break the literal. */
  lemma BrokenExamples()
    ensures Unescape("a\"b.nii") == None
    ensures Unescape("a\tb.nii") == None
    ensures Unescape("a\\qb.nii") == None
    ensures Unescape("a\\") == None
  {
    var q := "a\"b.nii";
    assert q[1..][0] == '"';
    var t := "a\tb.nii";
    assert t[1..][0] == '\t';
    var e := "a\\qb.nii";
    assert e[1..][0] == '\\' && e[1..][1] == 'q';
    var f := "a\\";
    assert f[1..] == "\\";
  }
}
