/** The segments of a JSON Web Token: base64url without padding (RFC 4648, sections 3.2 and 5), joined with dots
    (RFC 7515, section 7.1). */
module JwtSegments {
  import opened PyStrings

  type Byte = x: int | 0 <= x < 256

  type Sextet = x: int | 0 <= x < 64

  function Symbol(v: Sextet): (c: char)
    ensures c != '=' && c != '.'
  {
    if v < 26 then 'A' + v as char
    else if v < 52 then 'a' + (v - 26) as char
    else if v < 62 then '0' + (v - 52) as char
    else if v == 62 then '-' else '_'
  }

  function Value(c: char): (v: Option<Sextet>) {
    if 'A' <= c <= 'Z' then Some((c - 'A') as int)
    else if 'a' <= c <= 'z' then Some(26 + (c - 'a') as int)
    else if '0' <= c <= '9' then Some(52 + (c - '0') as int)
    else if c == '-' then Some(62)
    else if c == '_' then Some(63)
    else None
  }

  lemma {:induction false} SymbolValue()
    ensures forall v: Sextet :: Value(Symbol(v)) == Some(v)
    ensures forall c: char :: Value(c).Some? ==> Symbol(Value(c).value) == c
  {
    forall c: char | Value(c).Some?
      ensures Symbol(Value(c).value) == c
    {
      assert 'A' <= c <= 'Z' ==> 'A' + ((c - 'A') as int) as char == c;
      assert 'a' <= c <= 'z' ==> 'a' + ((c - 'a') as int) as char == c;
      assert '0' <= c <= '9' ==> '0' + ((c - '0') as int) as char == c;
    }
  }

  const DIGITS := "0123456789"

  /** The alphabet of base64url (RFC 4648, table 2). */
  lemma {:induction false} AlphabetIs(v: Sextet)
    ensures v < 26 ==> Symbol(v) == CAPITALS[v]
    ensures 26 <= v < 52 ==> Symbol(v) == SMALLS[v - 26]
    ensures 52 <= v < 62 ==> Symbol(v) == DIGITS[v - 52]
    ensures Symbol(62) == '-' && Symbol(63) == '_'
  {
    CapitalAt(if v < 26 then v else 0);
    SmallAt(if 26 <= v < 52 then v - 26 else 0);
    CharsFollow(DIGITS, '0', if 52 <= v < 62 then v - 52 else 0);
  }

  // ---------------------------------------------------------------- encoding

  function Quad(a: Byte, b: Byte, c: Byte): (q: string)
    ensures |q| == 4
  {
    [Symbol(a / 4), Symbol((a % 4) * 16 + b / 16), Symbol((b % 16) * 4 + c / 64), Symbol(c % 64)]
  }

  /** Base64url with padding. */
  function Padded(data: seq<Byte>): string {
    if data == [] then ""
    else if |data| == 1 then Quad(data[0], 0, 0)[..2] + "=="
    else if |data| == 2 then Quad(data[0], data[1], 0)[..3] + "="
    else Quad(data[0], data[1], data[2]) + Padded(data[3..])
  }

  function StripPads(s: string): (r: string) {
    if s != "" && s[|s| - 1] == '=' then StripPads(s[..|s| - 1]) else s
  }

  function EncodeBase64Url(data: seq<Byte>): string { StripPads(Padded(data)) }

  // ---------------------------------------------------------------- decoding

  function Pads(n: nat): (s: string)
    ensures |s| == n && forall k | 0 <= k < n :: s[k] == '='
  {
    seq(n, k => '=')
  }

  function FirstByte(a: Sextet, b: Sextet): Byte { a * 4 + b / 16 }

  function SecondByte(b: Sextet, c: Sextet): Byte { (b % 16) * 16 + c / 4 }

  function ThirdByte(c: Sextet, d: Sextet): Byte { (c % 4) * 64 + d }

  /** The bytes of padded base64url; nothing for a text that is not base64url. */
  function DecodeQuads(s: string): Option<seq<Byte>>
  {
    if s == "" then Some([])
    else if |s| < 4 || Value(s[0]).None? || Value(s[1]).None? then None
    else
      var a, b := Value(s[0]).value, Value(s[1]).value;
      if |s| == 4 && s[2] == '=' && s[3] == '=' then Some([FirstByte(a, b)])
      else if Value(s[2]).None? then None
      else
        var c := Value(s[2]).value;
        if |s| == 4 && s[3] == '=' then Some([FirstByte(a, b), SecondByte(b, c)])
        else if Value(s[3]).None? then None
        else
          var d, rest := Value(s[3]).value, DecodeQuads(s[4..]);
          if rest.None? then None else Some([FirstByte(a, b), SecondByte(b, c), ThirdByte(c, d)] + rest.value)
  }

  /** Restores the padding that the encoder stripped, and decodes. */
  function DecodeBase64Url(segment: string): Option<seq<Byte>> {
    DecodeQuads(segment + Pads((4 - |segment| % 4) % 4))
  }

  datatype Token = Token(header: seq<Byte>, payload: seq<Byte>, signature: seq<Byte>)

  /** The three decoded segments; nothing unless there are exactly three and all are base64url. */
  function ParseJwt(token: string): Option<Token> {
    var parts := Split(token, '.');
    if |parts| != 3 then None
    else
      var h, p, s := DecodeBase64Url(parts[0]), DecodeBase64Url(parts[1]), DecodeBase64Url(parts[2]);
      if h.None? || p.None? || s.None? then None else Some(Token(h.value, p.value, s.value))
  }

  // ---------------------------------------------------------------- the padding can be restored

  lemma {:induction false} QuadHasNoPads(a: Byte, b: Byte, c: Byte)
    ensures forall k | 0 <= k < 4 :: Quad(a, b, c)[k] != '=' && Quad(a, b, c)[k] != '.'
  {
  }

  lemma {:induction false} StripsExactly(s: string, n: nat)
    requires s != "" ==> s[|s| - 1] != '='
    ensures StripPads(s + Pads(n)) == s
  {
    if n == 0 {
      assert s + Pads(0) == s;
    } else {
      assert (s + Pads(n))[..|s| + n - 1] == s + Pads(n - 1);
      StripsExactly(s, n - 1);
    }
  }

  /** The symbols of an encoding, without padding. */
  function Bare(data: seq<Byte>): (s: string)
    ensures s != "" ==> s[|s| - 1] != '='
    ensures forall k | 0 <= k < |s| :: s[k] != '.' && s[k] != '='
  {
    if data == [] then ""
    else if |data| == 1 then Quad(data[0], 0, 0)[..2]
    else if |data| == 2 then Quad(data[0], data[1], 0)[..3]
    else Quad(data[0], data[1], data[2]) + Bare(data[3..])
  }

  lemma {:induction false} PaddedIsBare(data: seq<Byte>)
    ensures Padded(data) == Bare(data) + Pads((4 - |Bare(data)| % 4) % 4)
  {
    hide Quad;
    if |data| >= 3 {
      PaddedIsBare(data[3..]);
      var b := Bare(data[3..]);
      assert (|b| + 4) % 4 == |b| % 4;
    } else {
      assert Pads(2) == "==" && Pads(1) == "=" && Pads(0) == "";
    }
  }

  /** Stripping loses nothing: the length alone says how much padding to put back, and no dot is ever written. */
  lemma {:induction false} PaddingRestored(data: seq<Byte>)
    ensures var s := EncodeBase64Url(data);
            s + Pads((4 - |s| % 4) % 4) == Padded(data) && '.' !in s && '=' !in s
  {
    PaddedIsBare(data);
    StripsExactly(Bare(data), (4 - |Bare(data)| % 4) % 4);
  }

  // ---------------------------------------------------------------- round trips

  lemma {:induction false} QuadValues(a: Byte, b: Byte, c: Byte)
    ensures var q := Quad(a, b, c);
            && Value(q[0]) == Some(a / 4) && Value(q[1]) == Some((a % 4) * 16 + b / 16)
            && Value(q[2]) == Some((b % 16) * 4 + c / 64) && Value(q[3]) == Some(c % 64)
  {
    SymbolValue();
    hide Value, Symbol;
  }

  /** Four symbols hold the twenty-four bits of three bytes, the first the highest. */
  lemma {:induction false} QuadBits(a: Byte, b: Byte, c: Byte)
    ensures var q := Quad(a, b, c);
            && (forall k | 0 <= k < 4 :: Value(q[k]).Some?)
            && ((Value(q[0]).value * 64 + Value(q[1]).value) * 64 + Value(q[2]).value) * 64 + Value(q[3]).value
               == (a * 256 + b) * 256 + c
  {
    QuadValues(a, b, c);
    hide Quad, Value;
  }

  lemma {:induction false} ThreeBytes(a: Byte, b: Byte, c: Byte)
    ensures FirstByte(a / 4, (a % 4) * 16 + b / 16) == a
    ensures SecondByte((a % 4) * 16 + b / 16, (b % 16) * 4 + c / 64) == b
    ensures ThirdByte((b % 16) * 4 + c / 64, c % 64) == c
  {
  }

  lemma {:induction false} DecodeFullQuad(a: Byte, b: Byte, c: Byte, rest: string)
    ensures DecodeQuads(Quad(a, b, c) + rest) ==
              var d := DecodeQuads(rest); if d.None? then None else Some([a, b, c] + d.value)
  {
    QuadValues(a, b, c);
    ThreeBytes(a, b, c);
    QuadHasNoPads(a, b, c);
    hide Value, Symbol, Quad, FirstByte, SecondByte, ThirdByte;
    var s := Quad(a, b, c) + rest;
    assert s[4..] == rest && s[0] == Quad(a, b, c)[0] && s[1] == Quad(a, b, c)[1] && s[2] == Quad(a, b, c)[2]
           && s[3] == Quad(a, b, c)[3];
  }

  lemma {:induction false} DecodeOneByte(a: Byte)
    ensures DecodeQuads(Quad(a, 0, 0)[..2] + "==") == Some([a])
  {
    QuadValues(a, 0, 0);
    ThreeBytes(a, 0, 0);
    assert Value('=').None?;
    hide Symbol, Quad, Value, FirstByte;
    var s := Quad(a, 0, 0)[..2] + "==";
    assert s[0] == Quad(a, 0, 0)[0] && s[1] == Quad(a, 0, 0)[1] && s[2] == '=' && s[3] == '=';
  }

  lemma {:induction false} DecodeTwoBytes(a: Byte, b: Byte)
    ensures DecodeQuads(Quad(a, b, 0)[..3] + "=") == Some([a, b])
  {
    QuadValues(a, b, 0);
    ThreeBytes(a, b, 0);
    QuadHasNoPads(a, b, 0);
    hide Symbol, Quad, Value, FirstByte, SecondByte;
    var s := Quad(a, b, 0)[..3] + "=";
    assert s[0] == Quad(a, b, 0)[0] && s[1] == Quad(a, b, 0)[1] && s[2] == Quad(a, b, 0)[2] && s[3] == '=';
  }

  lemma {:induction false} QuadsRoundTrip(data: seq<Byte>)
    ensures DecodeQuads(Padded(data)) == Some(data)
  {
    hide Quad, DecodeQuads;
    if |data| == 0 {
      assert DecodeQuads("") == Some([]) by { DecodeNothing(); }
    } else if |data| == 1 {
      DecodeOneByte(data[0]);
      assert data == [data[0]];
    } else if |data| == 2 {
      DecodeTwoBytes(data[0], data[1]);
      assert data == [data[0], data[1]];
    } else {
      QuadsRoundTrip(data[3..]);
      DecodeFullQuad(data[0], data[1], data[2], Padded(data[3..]));
      assert data == [data[0], data[1], data[2]] + data[3..];
    }
  }

  lemma {:induction false} DecodeNothing()
    ensures DecodeQuads("") == Some([])
  {
  }

  /** Decoding inverts encoding, for all byte strings. */
  lemma {:induction false} RoundTrip(data: seq<Byte>)
    ensures DecodeBase64Url(EncodeBase64Url(data)) == Some(data)
  {
    hide DecodeQuads, Padded;
    PaddingRestored(data);
    QuadsRoundTrip(data);
  }

  /** Three segments joined with dots are recovered. */
  lemma {:induction false} TokenRoundTrip(t: Token)
    ensures ParseJwt(Join([EncodeBase64Url(t.header), EncodeBase64Url(t.payload), EncodeBase64Url(t.signature)], '.'))
            == Some(t)
  {
    hide EncodeBase64Url, DecodeBase64Url, Split, Join;
    PaddingRestored(t.header);
    PaddingRestored(t.payload);
    PaddingRestored(t.signature);
    RoundTrip(t.header);
    RoundTrip(t.payload);
    RoundTrip(t.signature);
    SplitJoin([EncodeBase64Url(t.header), EncodeBase64Url(t.payload), EncodeBase64Url(t.signature)], '.');
  }
}
