/** The browser's `btoa` and `atob`, which the editor page uses to carry source
    code, stdin and program output through the judge: Base64 as defined in
    section 4 of RFC 4648 (the "forgiving-base64" algorithms of the WHATWG
    Infra standard). A JavaScript string here is a `seq<char>`; `btoa` accepts
    only strings whose characters are at most U+00FF (it throws otherwise), and
    `atob` returns such a "binary string". */
module Base64 {
  import opened JsValues

  /** Every character fits in one byte (what `btoa` demands of its input). */
  predicate IsLatin1(s: string) {
    forall i :: 0 <= i < |s| ==> s[i] as int < 256
  }

  /** The 64 characters of the Base64 alphabet. */
  predicate IsSextetChar(c: char) {
    ('A' <= c <= 'Z') || ('a' <= c <= 'z') || ('0' <= c <= '9') || c == '+' || c == '/'
  }

  /** The value 0..63 that a character of the alphabet stands for. */
  function SextetValue(c: char): (v: int)
    requires IsSextetChar(c)
    ensures 0 <= v < 64
  {
    if 'A' <= c <= 'Z' then c as int - 'A' as int
    else if 'a' <= c <= 'z' then c as int - 'a' as int + 26
    else if '0' <= c <= '9' then c as int - '0' as int + 52
    else if c == '+' then 62
    else 63
  }

  /** The character of the alphabet for a value 0..63; inverse of SextetValue. */
  function SextetChar(v: int): (c: char)
    requires 0 <= v < 64
    ensures IsSextetChar(c) && SextetValue(c) == v
  {
    if v < 26 then ('A' as int + v) as char
    else if v < 52 then ('a' as int + v - 26) as char
    else if v < 62 then ('0' as int + v - 52) as char
    else if v == 62 then '+'
    else '/'
  }

  // ---------------------------------------------------------------------------
  // Encoding (btoa)

  /** Three bytes as four characters. */
  function EncodeTriple(a: int, b: int, c: int): string
    requires 0 <= a < 256 && 0 <= b < 256 && 0 <= c < 256
  {
    [SextetChar(a / 4), SextetChar((a % 4) * 16 + b / 16),
     SextetChar((b % 16) * 4 + c / 64), SextetChar(c % 64)]
  }

  /** The encoding without its '=' padding: a final group of one byte gives two
      characters and one of two bytes gives three. */
  function EncodeUnpadded(s: string): (r: string)
    requires IsLatin1(s)
    ensures forall i :: 0 <= i < |r| ==> IsSextetChar(r[i])
    ensures GroupedLength(|r|)
    decreases |s|
  {
    if |s| >= 3 then
      EncodeTriple(s[0] as int, s[1] as int, s[2] as int) + EncodeUnpadded(s[3..])
    else if |s| == 2 then
      [SextetChar(s[0] as int / 4), SextetChar((s[0] as int % 4) * 16 + s[1] as int / 16),
       SextetChar((s[1] as int % 16) * 4)]
    else if |s| == 1 then
      [SextetChar(s[0] as int / 4), SextetChar((s[0] as int % 4) * 16)]
    else
      ""
  }

  /** The padding that completes the last group to four characters. */
  function Padding(n: nat): string {
    if n % 3 == 1 then "==" else if n % 3 == 2 then "=" else ""
  }

  /** `btoa(s)`: `None` stands for the exception thrown when a character of
      `s` is above U+00FF. */
  function Encode(s: string): (r: Option<string>)
    ensures r.Some? <==> IsLatin1(s)
    ensures r.Some? ==> |r.value| % 4 == 0
  {
    if IsLatin1(s) then
      LengthOfEncoding(s);
      Some(EncodeUnpadded(s) + Padding(|s|))
    else None
  }

  /** The length of the unpadded encoding of `n` bytes. */
  function UnpaddedLength(n: nat): nat {
    if n >= 3 then 4 + UnpaddedLength(n - 3) else if n == 0 then 0 else n + 1
  }

  lemma {:induction false} UnpaddedLengthIs(s: string)
    requires IsLatin1(s)
    ensures |EncodeUnpadded(s)| == UnpaddedLength(|s|)
    decreases |s|
  {
    if |s| >= 3 {
      UnpaddedLengthIs(s[3..]);
    }
  }

  lemma {:induction false} UnpaddedLengthMod(n: nat)
    ensures UnpaddedLength(n) % 4 == (if n % 3 == 0 then 0 else n % 3 + 1)
    decreases n
  {
    if n >= 3 {
      UnpaddedLengthMod(n - 3);
      var k := UnpaddedLength(n - 3);
      assert (4 + k) % 4 == k % 4;
      assert n % 3 == (n - 3) % 3;
    }
  }

  lemma {:induction false} LengthOfEncoding(s: string)
    requires IsLatin1(s)
    ensures |EncodeUnpadded(s)| % 4 == (if |s| % 3 == 0 then 0 else |s| % 3 + 1)
    ensures |EncodeUnpadded(s) + Padding(|s|)| % 4 == 0
  {
    var n := |s|;
    var k := |EncodeUnpadded(s)|;
    UnpaddedLengthIs(s);
    UnpaddedLengthMod(n);
    PaddingCompletes(n, k);
    assert |EncodeUnpadded(s) + Padding(n)| == k + |Padding(n)|;
  }

  lemma PaddingCompletes(n: nat, k: nat)
    requires k % 4 == (if n % 3 == 0 then 0 else n % 3 + 1)
    ensures (k + |Padding(n)|) % 4 == 0
  {
  }

  // ---------------------------------------------------------------------------
  // Decoding (atob)

  /** The ASCII whitespace that `atob` skips. */
  predicate IsAsciiWhitespace(c: char) {
    c == '\t' || c == '\n' || c == '\U{000C}' || c == '\r' || c == ' '
  }

  /** `s` with every ASCII whitespace character removed, the rest kept in order. */
  function RemoveAsciiWhitespace(s: string): (r: string)
    ensures |r| <= |s|
    ensures forall i :: 0 <= i < |r| ==> !IsAsciiWhitespace(r[i])
    decreases |s|
  {
    if s == [] then []
    else if IsAsciiWhitespace(s[0]) then RemoveAsciiWhitespace(s[1..])
    else [s[0]] + RemoveAsciiWhitespace(s[1..])
  }

  /** When the length is a multiple of four, one or two trailing '=' go. */
  function StripPadding(t: string): string {
    if |t| % 4 != 0 then t
    else if |t| >= 2 && t[|t| - 2] == '=' && t[|t| - 1] == '=' then t[..|t| - 2]
    else if |t| >= 1 && t[|t| - 1] == '=' then t[..|t| - 1]
    else t
  }

  /** A length that splits into groups of four and a final group of 0, 2 or 3. */
  predicate GroupedLength(n: nat) {
    if n >= 4 then GroupedLength(n - 4) else n != 1
  }

  lemma {:induction false} GroupedLengthIff(n: nat)
    ensures GroupedLength(n) <==> n % 4 != 1
    decreases n
  {
    if n >= 4 {
      GroupedLengthIff(n - 4);
      assert n % 4 == (n - 4) % 4;
    }
  }

  predicate AllSextets(u: string) {
    forall i :: 0 <= i < |u| ==> IsSextetChar(u[i])
  }

  /** Four characters back to three bytes. */
  function DecodeQuad(w: int, x: int, y: int, z: int): string
    requires 0 <= w < 64 && 0 <= x < 64 && 0 <= y < 64 && 0 <= z < 64
  {
    [(w * 4 + x / 16) as char, ((x % 16) * 16 + y / 4) as char, ((y % 4) * 64 + z) as char]
  }

  /** Decodes unpadded Base64 text; a final group of two or three characters
      gives one or two bytes, its left-over low bits being discarded. */
  function DecodeSextets(u: string): (r: string)
    requires AllSextets(u) && GroupedLength(|u|)
    ensures IsLatin1(r)
    decreases |u|
  {
    if |u| >= 4 then
      DecodeQuad(SextetValue(u[0]), SextetValue(u[1]), SextetValue(u[2]), SextetValue(u[3]))
        + DecodeSextets(u[4..])
    else if |u| == 3 then
      var x := SextetValue(u[1]);
      [(SextetValue(u[0]) * 4 + x / 16) as char, ((x % 16) * 16 + SextetValue(u[2]) / 4) as char]
    else if |u| == 2 then
      [(SextetValue(u[0]) * 4 + SextetValue(u[1]) / 16) as char]
    else
      ""
  }

  /** `atob(s)`: `None` stands for the exception thrown on text that is not
      Base64 (a length of 1 modulo 4 after whitespace and padding are removed,
      or a character outside the alphabet). */
  function Decode(s: string): (r: Option<string>)
    ensures r.Some? ==> IsLatin1(r.value)
  {
    var u := StripPadding(RemoveAsciiWhitespace(s));
    GroupedLengthIff(|u|);
    if |u| % 4 == 1 || !AllSextets(u) then None else Some(DecodeSextets(u))
  }

  // ---------------------------------------------------------------------------
  // Round trip

  lemma TripleRoundTrip(a: int, b: int, c: int)
    requires 0 <= a < 256 && 0 <= b < 256 && 0 <= c < 256
    ensures var e := EncodeTriple(a, b, c);
            DecodeQuad(SextetValue(e[0]), SextetValue(e[1]), SextetValue(e[2]), SextetValue(e[3]))
              == [a as char, b as char, c as char]
  {
    var x := (a % 4) * 16 + b / 16;
    var y := (b % 16) * 4 + c / 64;
    assert x / 16 == a % 4 && x % 16 == b / 16;
    assert y / 4 == b % 16 && y % 4 == c / 64;
  }

  /** The first four characters of an encoding decode to its first three bytes. */
  lemma {:induction false} DecodeFirstGroup(s: string)
    requires IsLatin1(s) && |s| >= 3
    ensures DecodeSextets(EncodeUnpadded(s)) == s[..3] + DecodeSextets(EncodeUnpadded(s[3..]))
  {
    var e := EncodeUnpadded(s);
    assert e[..4] == EncodeTriple(s[0] as int, s[1] as int, s[2] as int);
    assert e[4..] == EncodeUnpadded(s[3..]);
    TripleRoundTrip(s[0] as int, s[1] as int, s[2] as int);
  }

  /** A final group of one or two bytes decodes back to them. */
  lemma {:induction false} DecodeLastGroup(s: string)
    requires IsLatin1(s) && |s| < 3
    ensures DecodeSextets(EncodeUnpadded(s)) == s
  {
    if |s| == 2 {
      var a, b := s[0] as int, s[1] as int;
      var x := (a % 4) * 16 + b / 16;
      assert x / 16 == a % 4 && x % 16 == b / 16;
    } else if |s| == 1 {
      var a := s[0] as int;
      assert ((a % 4) * 16) / 16 == a % 4;
    }
  }

  lemma {:induction false} DecodeUnpadded(s: string)
    requires IsLatin1(s)
    ensures DecodeSextets(EncodeUnpadded(s)) == s
    decreases |s|
  {
    if |s| >= 3 {
      DecodeFirstGroup(s);
      DecodeUnpadded(s[3..]);
      assert s == s[..3] + s[3..];
    } else {
      DecodeLastGroup(s);
    }
  }

  lemma {:induction false} NoWhitespaceUnchanged(t: string)
    requires forall i :: 0 <= i < |t| ==> !IsAsciiWhitespace(t[i])
    ensures RemoveAsciiWhitespace(t) == t
    decreases |t|
  {
    if t != [] {
      NoWhitespaceUnchanged(t[1..]);
      assert t == [t[0]] + t[1..];
    }
  }

  lemma StripEncodedPadding(u: string, n: nat)
    requires AllSextets(u)
    requires |u| % 4 == (if n % 3 == 0 then 0 else n % 3 + 1)
    ensures StripPadding(u + Padding(n)) == u
  {
    var e := u + Padding(n);
    PaddingCompletes(n, |u|);
    if n % 3 == 1 {
      assert e[..|e| - 2] == u;
    } else if n % 3 == 2 {
      assert e[..|e| - 1] == u;
      assert e[|e| - 2] == u[|u| - 1];
    } else {
      assert e == u;
      if |u| > 0 {
        assert IsSextetChar(u[|u| - 1]);
      }
    }
  }

  /** `atob(btoa(s)) == s` for every string `btoa` accepts. */
  lemma RoundTrip(s: string)
    requires IsLatin1(s)
    ensures Decode(Encode(s).value) == Some(s)
  {
    var u := EncodeUnpadded(s);
    var e := u + Padding(|s|);
    assert Encode(s).value == e;
    assert forall i :: 0 <= i < |e| ==> !IsAsciiWhitespace(e[i]) by {
      forall i | 0 <= i < |e| ensures !IsAsciiWhitespace(e[i]) {
        if i < |u| {
          assert IsSextetChar(u[i]);
        }
      }
    }
    NoWhitespaceUnchanged(e);
    LengthOfEncoding(s);
    StripEncodedPadding(u, |s|);
    DecodeUnpadded(s);
  }

  // ---------------------------------------------------------------------------
  // What `atob` skips and what it refuses

  /** Whitespace anywhere in the text makes no difference to `atob`. */
  lemma DecodeIgnoresWhitespace(s: string)
    ensures Decode(s) == Decode(RemoveAsciiWhitespace(s))
  {
    NoWhitespaceUnchanged(RemoveAsciiWhitespace(s));
  }

  /** Removing whitespace keeps every other character. */
  lemma {:induction false} RemoveKeeps(s: string, i: nat)
    requires i < |s| && !IsAsciiWhitespace(s[i])
    ensures s[i] in RemoveAsciiWhitespace(s)
    decreases |s|
  {
    if i > 0 {
      RemoveKeeps(s[1..], i - 1);
      assert s[1..][i - 1] == s[i];
    } else {
      assert RemoveAsciiWhitespace(s)[0] == s[0];
    }
  }

  /** A character that is neither in the alphabet, nor '=', nor ASCII
      whitespace, anywhere in the text, makes `atob` throw. */
  lemma DecodeRejectsForeign(s: string, i: nat)
    requires i < |s|
    requires !IsSextetChar(s[i]) && s[i] != '=' && !IsAsciiWhitespace(s[i])
    ensures Decode(s) == None
  {
    var t := RemoveAsciiWhitespace(s);
    RemoveKeeps(s, i);
    var j :| 0 <= j < |t| && t[j] == s[i];
    var u := StripPadding(t);
    assert u == t[..|u|] && forall k :: |u| <= k < |t| ==> t[k] == '=';
    assert j < |u| && u[j] == s[i];
  }
}
