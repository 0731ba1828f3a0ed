/**
 * Base64 as the bridges use it: the padded encoding of section 4 of RFC
 * 4648 (what Python's `base64.b64encode` produces) and the forgiving
 * decode of the HTML standard behind `atob` (ASCII whitespace ignored,
 * padding optional), followed by the loop that copies the decoded
 * "binary string" into a `Uint8Array` one char code at a time.
 */
module Base64 {
  import opened Common

  /** The value of a character of the base64 alphabet. */
  function SextetOf(c: char): (r: Option<int>)
    ensures r.Some? ==> 0 <= r.value < 64
  {
    if 'A' <= c <= 'Z' then Some(c as int - 'A' as int)
    else if 'a' <= c <= 'z' then Some(c as int - 'a' as int + 26)
    else if '0' <= c <= '9' then Some(c as int - '0' as int + 52)
    else if c == '+' then Some(62)
    else if c == '/' then Some(63)
    else None
  }

  /** The alphabet character for a six-bit value. */
  function CharOf(v: int): (c: char)
    requires 0 <= v < 64
    ensures SextetOf(c) == Some(v)
  {
    if v < 26 then ('A' as int + v) as char
    else if v < 52 then ('a' as int + v - 26) as char
    else if v < 62 then ('0' as int + v - 52) as char
    else if v == 62 then '+'
    else '/'
  }

  /** Three bytes as four six-bit values, most significant first. */
  function Group(x: byte, y: byte, z: byte): (r: seq<int>)
    ensures |r| == 4 && forall i :: 0 <= i < 4 ==> 0 <= r[i] < 64
  {
    [x as int / 4, (x as int % 4) * 16 + y as int / 16, (y as int % 16) * 4 + z as int / 64, z as int % 64]
  }

  /** The last one or two bytes, the missing bits taken as zero. */
  function Tail(b: seq<byte>): (r: seq<int>)
    requires 1 <= |b| <= 2
    ensures |r| == |b| + 1 && forall i :: 0 <= i < |r| ==> 0 <= r[i] < 64
  {
    if |b| == 1 then [b[0] as int / 4, (b[0] as int % 4) * 16]
    else [b[0] as int / 4, (b[0] as int % 4) * 16 + b[1] as int / 16, (b[1] as int % 16) * 4]
  }

  /** The six-bit groups of the bytes; a partial last group is filled with zero bits. */
  function SextetsOf(b: seq<byte>): (r: seq<int>)
    ensures |r| == (|b| / 3) * 4 + (if |b| % 3 == 0 then 0 else |b| % 3 + 1)
    ensures forall i :: 0 <= i < |r| ==> 0 <= r[i] < 64
  {
    if |b| == 0 then []
    else if |b| <= 2 then Tail(b)
    else Group(b[0], b[1], b[2]) + SextetsOf(b[3..])
  }

  function Chars(v: seq<int>): (r: string)
    requires forall i :: 0 <= i < |v| ==> 0 <= v[i] < 64
    ensures |r| == |v|
    ensures forall i :: 0 <= i < |v| ==> r[i] == CharOf(v[i])
  {
    seq(|v|, i requires 0 <= i < |v| => CharOf(v[i]))
  }

  /** `base64.b64encode`: four characters per three bytes, the last group padded with '='. */
  function Encode(b: seq<byte>): (r: string)
    ensures |r| % 4 == 0
  {
    Chars(SextetsOf(b)) + (if |b| % 3 == 1 then "==" else if |b| % 3 == 2 then "=" else "")
  }

  /** ASCII whitespace as the HTML standard defines it: tab, line feed, form feed, carriage return, space. */
  predicate IsAsciiWhitespace(c: char)
  {
    c == '\t' || c == '\n' || c == 12 as char || c == '\r' || c == ' '
  }

  function RemoveWhitespace(s: string): (r: string)
    ensures |r| <= |s|
    ensures (forall i :: 0 <= i < |s| ==> !IsAsciiWhitespace(s[i])) ==> r == s
  {
    if |s| == 0 then [] else
      var rest := RemoveWhitespace(s[1..]);
      assert forall i :: 1 <= i < |s| ==> s[i] == s[1..][i - 1];
      if IsAsciiWhitespace(s[0]) then rest else [s[0]] + rest
  }

  /** Every character that is not whitespace is still there. */
  lemma {:induction false} RemoveWhitespaceKeeps(s: string, i: nat)
    requires i < |s| && !IsAsciiWhitespace(s[i])
    ensures s[i] in RemoveWhitespace(s)
  {
    if i > 0 {
      RemoveWhitespaceKeeps(s[1..], i - 1);
    }
  }

  /** The values of the characters, or None when one is outside the alphabet. */
  function Sextets(s: string): (r: Option<seq<int>>)
    ensures r.Some? ==> |r.value| == |s| && forall i :: 0 <= i < |s| ==> Some(r.value[i]) == SextetOf(s[i])
  {
    if |s| == 0 then Some([])
    else match (SextetOf(s[0]), Sextets(s[1..]))
      case (Some(v), Some(rest)) => Some([v] + rest)
      case _ => None
  }

  /** Four six-bit values as three bytes. */
  function Ungroup(v: seq<int>): (r: seq<byte>)
    requires |v| == 4 && forall i :: 0 <= i < 4 ==> 0 <= v[i] < 64
    ensures |r| == 3
  {
    [(v[0] * 4 + v[1] / 16) as byte, ((v[1] % 16) * 16 + v[2] / 4) as byte, ((v[2] % 4) * 64 + v[3]) as byte]
  }

  /** Two or three trailing values as one or two bytes; the leftover bits are dropped. */
  function Untail(v: seq<int>): (r: seq<byte>)
    requires 2 <= |v| <= 3 && forall i :: 0 <= i < |v| ==> 0 <= v[i] < 64
    ensures |r| == |v| - 1
  {
    if |v| == 2 then [(v[0] * 4 + v[1] / 16) as byte]
    else [(v[0] * 4 + v[1] / 16) as byte, ((v[1] % 16) * 16 + v[2] / 4) as byte]
  }

  /** Whole groups of four values give three bytes; two or three trailing values give one or two. */
  function DecodeSextets(v: seq<int>): (r: seq<byte>)
    requires forall i :: 0 <= i < |v| ==> 0 <= v[i] < 64
    requires |v| % 4 != 1
  {
    if |v| == 0 then []
    else if |v| <= 3 then Untail(v)
    else Ungroup(v[..4]) + DecodeSextets(v[4..])
  }

  /** When the length is a multiple of four, one or two trailing '=' are dropped. */
  function StripPadding(t: string): (u: string)
    ensures |u| <= |t| && u == t[..|u|]
    ensures forall i :: |u| <= i < |t| ==> t[i] == '='
  {
    if |t| % 4 == 0 && EndsWith(t, "==") then t[..|t| - 2]
    else if |t| % 4 == 0 && EndsWith(t, "=") then t[..|t| - 1]
    else t
  }

  /**
   * The forgiving base64 decode behind `atob`: whitespace is dropped; when
   * the length is then a multiple of four, one or two trailing '=' are
   * dropped; a length of one more than a multiple of four, or any
   * character outside the alphabet, is a failure.
   */
  function ForgivingDecode(s: string): (r: Option<seq<byte>>)
  {
    var u := StripPadding(RemoveWhitespace(s));
    if |u| % 4 == 1 then None
    else match Sextets(u)
      case None => None
      case Some(v) => Some(DecodeSextets(v))
  }

  /** What `atob` returns: one char per decoded byte, its code the byte's value. */
  function BinaryString(b: seq<byte>): (r: string)
    ensures |r| == |b|
    ensures forall i :: 0 <= i < |b| ==> r[i] as int == b[i] as int
  {
    seq(|b|, i requires 0 <= i < |b| => b[i] as char)
  }

  function Atob(s: string): Option<string>
  {
    match ForgivingDecode(s)
      case None => None
      case Some(b) => Some(BinaryString(b))
  }

  /** The name of the DOMException `atob` throws; its browser-specific message is left out. */
  const InvalidCharacter := "InvalidCharacterError"

  /**
   * `bytes[i] = binary_string.charCodeAt(i)` for every i: a Uint8Array keeps
   * each code modulo 256.
   */
  method FillBytes(bin: string) returns (bytes: array<byte>)
    ensures fresh(bytes)
    ensures bytes.Length == |bin|
    ensures forall i :: 0 <= i < |bin| ==> bytes[i] as int == bin[i] as int % 256
  {
    bytes := new byte[|bin|];
    var i := 0;
    while i < |bin|
      invariant 0 <= i <= |bin|
      invariant forall j :: 0 <= j < i ==> bytes[j] as int == bin[j] as int % 256
    {
      bytes[i] := (bin[i] as int % 256) as byte;
      i := i + 1;
    }
  }

  /**
   * `base64ToArrayBuffer`: the decoded bytes, or the error `atob` throws.
   * The buffer has one byte per char of the binary string, so the copy
   * loses nothing.
   */
  method Base64ToArrayBuffer(base64: string) returns (r: Result<seq<byte>>)
    ensures ForgivingDecode(base64).None? <==> r == Err(InvalidCharacter)
    ensures ForgivingDecode(base64).Some? ==> r == Ok(ForgivingDecode(base64).value)
  {
    var decoded := ForgivingDecode(base64);
    if decoded.None? {
      return Err(InvalidCharacter);
    }
    var d := decoded.value;
    var bin := BinaryString(d);
    var bytes := FillBytes(bin);
    assert bytes[..] == d by {
      forall i | 0 <= i < |bin|
        ensures bytes[..][i] == d[i]
      {
        SmallMod(bin[i] as int);
      }
    }
    return Ok(bytes[..]);
  }

  lemma SmallMod(c: int)
    requires 0 <= c < 256
    ensures c % 256 == c
  {
  }

  /** One group of three bytes survives its four six-bit values. */
  lemma GroupRoundTrip(x: byte, y: byte, z: byte)
    ensures Ungroup(Group(x, y, z)) == [x, y, z]
  {
    var s1 := (x as int % 4) * 16 + y as int / 16;
    var s2 := (y as int % 16) * 4 + z as int / 64;
    assert s1 / 16 == x as int % 4 && s1 % 16 == y as int / 16;
    assert s2 / 4 == y as int % 16 && s2 % 4 == z as int / 64;
  }

  /** So do the last one or two bytes. */
  lemma TailRoundTrip(b: seq<byte>)
    requires 1 <= |b| <= 2
    ensures Untail(Tail(b)) == b
  {
    assert (b[0] as int % 4) * 16 / 16 == b[0] as int % 4;
    if |b| == 2 {
      var s1 := (b[0] as int % 4) * 16 + b[1] as int / 16;
      assert s1 / 16 == b[0] as int % 4 && s1 % 16 == b[1] as int / 16;
      assert (b[1] as int % 16) * 4 / 4 == b[1] as int % 16;
    }
  }

  lemma {:induction false} DecodeSextetsOf(b: seq<byte>)
    ensures |SextetsOf(b)| % 4 != 1
    ensures DecodeSextets(SextetsOf(b)) == b
  {
    SextetsLength(b);
    if 1 <= |b| <= 2 {
      TailRoundTrip(b);
    } else if |b| >= 3 {
      var g := Group(b[0], b[1], b[2]);
      SextetsLength(b[3..]);
      DecodeSextetsCons(g, SextetsOf(b[3..]));
      GroupRoundTrip(b[0], b[1], b[2]);
      DecodeSextetsOf(b[3..]);
      assert b == [b[0], b[1], b[2]] + b[3..];
    }
  }

  lemma SextetsLength(b: seq<byte>)
    ensures |SextetsOf(b)| % 4 != 1
  {
  }

  /** A whole group in front decodes on its own. */
  lemma DecodeSextetsCons(g: seq<int>, rest: seq<int>)
    requires |g| == 4 && forall i :: 0 <= i < 4 ==> 0 <= g[i] < 64
    requires forall i :: 0 <= i < |rest| ==> 0 <= rest[i] < 64
    requires |rest| % 4 != 1
    ensures forall i :: 0 <= i < |g + rest| ==> 0 <= (g + rest)[i] < 64
    ensures DecodeSextets(g + rest) == Ungroup(g) + DecodeSextets(rest)
  {
    var v := g + rest;
    assert v[..4] == g && v[4..] == rest;
  }

  lemma {:induction false} SextetsOfChars(v: seq<int>)
    requires forall i :: 0 <= i < |v| ==> 0 <= v[i] < 64
    ensures Sextets(Chars(v)) == Some(v)
  {
    if |v| > 0 {
      assert Chars(v)[1..] == Chars(v[1..]);
      SextetsOfChars(v[1..]);
      assert v == [v[0]] + v[1..];
    }
  }

  /** Everything the encoder writes is in the alphabet or padding. */
  lemma EncodeHasNoWhitespace(b: seq<byte>)
    ensures forall i :: 0 <= i < |Encode(b)| ==> !IsAsciiWhitespace(Encode(b)[i])
  {
    var body := Chars(SextetsOf(b));
    var t := Encode(b);
    forall i | 0 <= i < |t|
      ensures !IsAsciiWhitespace(t[i])
    {
      if i < |body| {
        assert t[i] == body[i];
        assert SextetOf(t[i]).Some?;
      }
    }
  }

  /** Padding that completes a group is dropped again, and nothing else. */
  lemma StripPaddingOf(body: string, pad: string)
    requires forall i :: 0 <= i < |body| ==> SextetOf(body[i]).Some?
    requires || (pad == "==" && |body| % 4 == 2)
             || (pad == "=" && |body| % 4 == 3)
             || (pad == "" && |body| % 4 == 0)
    ensures StripPadding(body + pad) == body
  {
    var t := body + pad;
    if pad == "==" {
      assert t[|t| - 2..] == "==";
      assert t[..|t| - 2] == body;
    } else if pad == "=" {
      assert t[|t| - 1..] == "=";
      assert SextetOf(t[|t| - 2]).Some?;
      assert t[..|t| - 1] == body;
    } else {
      assert t == body;
      if |body| > 0 {
        assert SextetOf(t[|t| - 1]).Some?;
      }
    }
  }

  /** The decode behind `atob` inverts the encoder, padding included. */
  lemma RoundTrip(b: seq<byte>)
    ensures ForgivingDecode(Encode(b)) == Some(b)
  {
    var t := Encode(b);
    var v := SextetsOf(b);
    var body := Chars(v);
    var pad := if |b| % 3 == 1 then "==" else if |b| % 3 == 2 then "=" else "";
    assert t == body + pad;
    EncodeHasNoWhitespace(b);
    assert RemoveWhitespace(t) == t;
    StripPaddingOf(body, pad);
    SextetsOfChars(v);
    DecodeSextetsOf(b);
    assert Sextets(StripPadding(RemoveWhitespace(t))) == Some(v);
  }

  /** Four characters per started group of three bytes; only the empty input encodes to "". */
  lemma EncodeLength(b: seq<byte>)
    ensures |Encode(b)| == ((|b| + 2) / 3) * 4
    ensures Encode(b) == "" <==> |b| == 0
  {
    var q := |b| / 3;
    assert |b| == 3 * q + |b| % 3;
    assert (|b| + 2) / 3 == q + (if |b| % 3 == 0 then 0 else 1);
  }

  /** A character that is neither whitespace, padding nor in the alphabet makes `atob` throw, wherever it is. */
  lemma InvalidCharFails(s: string, i: nat)
    requires i < |s| && !IsAsciiWhitespace(s[i]) && s[i] != '=' && SextetOf(s[i]).None?
    ensures ForgivingDecode(s).None?
  {
    var t := RemoveWhitespace(s);
    RemoveWhitespaceKeeps(s, i);
    var k :| 0 <= k < |t| && t[k] == s[i];
    var u := StripPadding(t);
    assert k < |u| && u[k] == s[i];
  }

  /** The three cases the bridge's tests check: an empty string, an invalid one, and a known text. */
  lemma KnownStrings()
    ensures ForgivingDecode("") == Some([])
    ensures ForgivingDecode("not-valid-base64!!!").None?
  {
    InvalidCharFails("not-valid-base64!!!", 3);
  }

  /** 'SGVsbG8gV29ybGQ=' is the encoding of the bytes of "Hello World", so it decodes to them. */
  lemma HelloWorld()
    ensures Encode([72, 101, 108, 108, 111, 32, 87, 111, 114, 108, 100]) == "SGVsbG8gV29ybGQ="
    ensures ForgivingDecode("SGVsbG8gV29ybGQ=") == Some([72, 101, 108, 108, 111, 32, 87, 111, 114, 108, 100])
  {
    var hello: seq<byte> := [72, 101, 108, 108, 111, 32, 87, 111, 114, 108, 100];
    HelloSextets();
    HelloChars();
    assert Encode(hello) == Chars(SextetsOf(hello)) + "=";
    RoundTrip(hello);
  }

  lemma HelloChars()
    ensures Chars([18, 6, 21, 44, 27, 6, 60, 32, 21, 54, 61, 50, 27, 6, 16]) == "SGVsbG8gV29ybGQ"
  {
  }

  lemma HelloSextets()
    ensures SextetsOf([72, 101, 108, 108, 111, 32, 87, 111, 114, 108, 100])
      == [18, 6, 21, 44, 27, 6, 60, 32, 21, 54, 61, 50, 27, 6, 16]
  {
    var hello: seq<byte> := [72, 101, 108, 108, 111, 32, 87, 111, 114, 108, 100];
    assert Group(72, 101, 108) == [18, 6, 21, 44];
    assert hello[3..] == [108, 111, 32, 87, 111, 114, 108, 100];
    HelloMiddle();
  }

  /** The sextets of "lo World". */
  lemma HelloMiddle()
    ensures SextetsOf([108, 111, 32, 87, 111, 114, 108, 100]) == [27, 6, 60, 32, 21, 54, 61, 50, 27, 6, 16]
  {
    var b: seq<byte> := [108, 111, 32, 87, 111, 114, 108, 100];
    assert Group(108, 111, 32) == [27, 6, 60, 32];
    assert b[3..] == [87, 111, 114, 108, 100];
    HelloEnd();
  }

  /** The sextets of "World". */
  lemma HelloEnd()
    ensures SextetsOf([87, 111, 114, 108, 100]) == [21, 54, 61, 50, 27, 6, 16]
  {
    var b: seq<byte> := [87, 111, 114, 108, 100];
    assert Group(87, 111, 114) == [21, 54, 61, 50];
    assert Tail([108, 100]) == [27, 6, 16];
    assert b[3..] == [108, 100];
  }
}
