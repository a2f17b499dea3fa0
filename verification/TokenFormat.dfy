/** The wire format of approval tokens: base64url (sections 3.2 and 5 of RFC 4648) without padding, a
    dot, and a signature. */
module TokenFormat {
  import opened Wrappers

  newtype byte = x: int | 0 <= x < 256

  type Sextet = x: int | 0 <= x < 64

  function Symbol(v: Sextet): (c: char)
    ensures c != '=' && c != '.'
  {
    if v < 26 then ('A' as int + v) as char
    else if v < 52 then ('a' as int + (v - 26)) as char
    else if v < 62 then ('0' as int + (v - 52)) as char
    else if v == 62 then '-'
    else '_'
  }

  function Value(c: char): (r: Option<Sextet>) {
    if 'A' <= c <= 'Z' then Some(c as int - 'A' as int)
    else if 'a' <= c <= 'z' then Some(c as int - 'a' as int + 26)
    else if '0' <= c <= '9' then Some(c as int - '0' as int + 52)
    else if c == '-' then Some(62)
    else if c == '_' then Some(63)
    else None
  }

  /** Three bytes as four symbols; a last group of one or two bytes is padded. */
  function Encode(data: seq<byte>): (s: string) {
    if data == [] then ""
    else
      var b0 := data[0] as int;
      var b1 := if |data| > 1 then data[1] as int else 0;
      var b2 := if |data| > 2 then data[2] as int else 0;
      var head := [Symbol(b0 / 4), Symbol(b0 % 4 * 16 + b1 / 16)];
      if |data| == 1 then head + "=="
      else if |data| == 2 then head + [Symbol(b1 % 16 * 4)] + "="
      else head + [Symbol(b1 % 16 * 4 + b2 / 64), Symbol(b2 % 64)] + Encode(data[3..])
  }

  function Triple(c0: Sextet, c1: Sextet, c2: Sextet, c3: Sextet): seq<byte> {
    [(c0 * 4 + c1 / 16) as byte, (c1 % 16 * 16 + c2 / 4) as byte, (c2 % 4 * 64 + c3) as byte]
  }

  function Decode(s: string): (r: Option<seq<byte>>) {
    if s == "" then Some([])
    else if |s| < 4 then None
    else
      var v0, v1, v2, v3 := Value(s[0]), Value(s[1]), Value(s[2]), Value(s[3]);
      if v0.None? || v1.None? then None
      else if |s| == 4 && s[2] == '=' && s[3] == '=' then Some(Triple(v0.value, v1.value, 0, 0)[..1])
      else if v2.None? then None
      else if |s| == 4 && s[3] == '=' then Some(Triple(v0.value, v1.value, v2.value, 0)[..2])
      else if v3.None? then None
      else
        var rest := Decode(s[4..]);
        if rest.None? then None
        else Some(Triple(v0.value, v1.value, v2.value, v3.value) + rest.value)
  }

  function StripPadding(s: string): (r: string) {
    if s != "" && s[|s| - 1] == '=' then StripPadding(s[..|s| - 1]) else s
  }

  function Repeat(c: char, n: nat): (r: string)
    ensures |r| == n
  {
    if n == 0 then "" else Repeat(c, n - 1) + [c]
  }

  /** As many `=` as bring the length to a multiple of four. */
  function RestorePadding(s: string): (r: string) {
    s + Repeat('=', (4 - |s| % 4) % 4)
  }

  /** `raw.split(".", 1)`: the parts before and after the first dot, if there is one. */
  function SplitDot(s: string): (r: Option<(string, string)>) {
    if s == "" then None
    else if s[0] == '.' then Some(("", s[1..]))
    else
      var rest := SplitDot(s[1..]);
      if rest.None? then None else Some(([s[0]] + rest.value.0, rest.value.1))
  }

  function IssueToken(payload: seq<byte>, sign: string -> string): (raw: string) {
    var text := StripPadding(Encode(payload));
    text + "." + sign(text)
  }

  datatype TokenError = Malformed | Tampered

  function VerifyToken(raw: string, sign: string -> string): (r: Result<seq<byte>, TokenError>) {
    var parts := SplitDot(raw);
    if parts.None? then Err(Malformed)
    else
      var (text, signature) := parts.value;
      if sign(text) != signature then Err(Tampered)
      else
        var payload := Decode(RestorePadding(text));
        if payload.None? then Err(Malformed) else Ok(payload.value)
  }

  // ----- base64url -----------------------------------------------------------------------------

  lemma ValueOfSymbol(v: Sextet)
    ensures Value(Symbol(v)) == Some(v)
  {
  }

  /** The base64url alphabet, Table 2 of RFC 4648. */
  const ALPHABET := "ABCDEFGHIJKLMNOPQRSTUVWXYZ" + "abcdefghijklmnopqrstuvwxyz" + "0123456789" + "-_"

  lemma UpperIs(v: Sextet)
    requires v < 26
    ensures Symbol(v) == "ABCDEFGHIJKLMNOPQRSTUVWXYZ"[v]
  {
  }

  lemma LowerIs(v: Sextet)
    requires 26 <= v < 52
    ensures Symbol(v) == "abcdefghijklmnopqrstuvwxyz"[v - 26]
  {
  }

  lemma DigitIs(v: Sextet)
    requires 52 <= v < 62
    ensures Symbol(v) == "0123456789"[v - 52]
  {
  }

  lemma SymbolIs(v: Sextet)
    ensures |ALPHABET| == 64 && Symbol(v) == ALPHABET[v]
  {
    if v < 26 {
      UpperIs(v);
    } else if v < 52 {
      LowerIs(v);
    } else if v < 62 {
      DigitIs(v);
    }
  }

  /** Byte `i` of the data, zero after the end. */
  function ByteAt(data: seq<byte>, i: nat): (b: int)
    ensures 0 <= b < 256
  {
    if i < |data| then data[i] as int else 0
  }

  /** The bytes as one stream of bits, zeros after the end: the six bits from bit `6 * k` on. */
  function SixBits(data: seq<byte>, k: nat): Sextet {
    var j, offset := 6 * k / 8, 6 * k % 8;
    (ByteAt(data, j) * 256 + ByteAt(data, j + 1)) / Shift(offset) % 64
  }

  /** What shifts sixteen bits right so that six bits from the offset on come last. */
  function Shift(offset: int): (d: int)
    ensures d > 0
  {
    if offset == 0 then 1024 else if offset == 2 then 256 else if offset == 4 then 64 else 16
  }

  lemma SixBitsOn(data: seq<byte>, k: nat)
    requires |data| >= 3 && k >= 4
    ensures SixBits(data, k) == SixBits(data[3..], k - 4)
  {
    assert 6 * k / 8 == 6 * (k - 4) / 8 + 3 && 6 * k % 8 == 6 * (k - 4) % 8;
  }

  lemma FirstSextet(b0: int, b1: int)
    requires 0 <= b0 < 256 && 0 <= b1 < 256
    ensures (b0 * 256 + b1) / 1024 % 64 == b0 / 4
  {
    assert b0 * 256 + b1 == 1024 * (b0 / 4) + (b0 % 4 * 256 + b1);
  }

  lemma SecondSextet(b0: int, b1: int)
    requires 0 <= b0 < 256 && 0 <= b1 < 256
    ensures (b0 * 256 + b1) / 16 % 64 == b0 % 4 * 16 + b1 / 16
  {
    assert b0 * 256 + b1 == 16 * (64 * (b0 / 4) + (b0 % 4 * 16 + b1 / 16)) + b1 % 16;
  }

  lemma ThirdSextet(b1: int, b2: int)
    requires 0 <= b1 < 256 && 0 <= b2 < 256
    ensures (b1 * 256 + b2) / 64 % 64 == b1 % 16 * 4 + b2 / 64
  {
    assert b1 * 256 + b2 == 64 * (64 * (b1 / 16) + (b1 % 16 * 4 + b2 / 64)) + b2 % 64;
  }

  lemma FourthSextet(b2: int, b3: int)
    requires 0 <= b2 < 256 && 0 <= b3 < 256
    ensures (b2 * 256 + b3) / 256 % 64 == b2 % 64
  {
  }

  lemma FirstSixBits(data: seq<byte>, k: nat)
    requires k < 4
    ensures var b0, b1, b2 := ByteAt(data, 0), ByteAt(data, 1), ByteAt(data, 2);
      SixBits(data, k) == if k == 0 then b0 / 4 else if k == 1 then b0 % 4 * 16 + b1 / 16
                          else if k == 2 then b1 % 16 * 4 + b2 / 64 else b2 % 64
  {
    hide ByteAt;
    if k == 0 {
      FirstSextet(ByteAt(data, 0), ByteAt(data, 1));
    } else if k == 1 {
      SecondSextet(ByteAt(data, 0), ByteAt(data, 1));
    } else if k == 2 {
      ThirdSextet(ByteAt(data, 1), ByteAt(data, 2));
    } else {
      FourthSextet(ByteAt(data, 2), ByteAt(data, 3));
    }
  }

  lemma HeadIs(data: seq<byte>, k: nat)
    requires data != [] && k < 4 && 3 * k < 4 * |data|
    ensures k < |Encode(data)| && Encode(data)[k] == Symbol(SixBits(data, k))
  {
    hide Symbol, SixBits;
    FirstSixBits(data, k);
    assert |data| == 2 ==> ByteAt(data, 2) == 0;
  }

  /** Symbol `k` of an encoding is the alphabet's for the six bits from bit `6 * k` on of the data; there are as
      many symbols as it takes to hold the bits. */
  lemma {:induction false} EncodeIs(data: seq<byte>, k: nat)
    requires 6 * k < 8 * |data|
    ensures k < |Encode(data)| && Encode(data)[k] == ALPHABET[SixBits(data, k)]
    decreases |data|
  {
    hide Symbol, SixBits;
    if k < 4 {
      HeadIs(data, k);
      SymbolIs(SixBits(data, k));
    } else {
      EncodeIs(data[3..], k - 4);
      SixBitsOn(data, k);
    }
  }

  lemma DecodeGroup(v0: Sextet, v1: Sextet, v2: Sextet, v3: Sextet, rest: string)
    requires Decode(rest).Some?
    ensures Decode([Symbol(v0), Symbol(v1), Symbol(v2), Symbol(v3)] + rest)
         == Some(Triple(v0, v1, v2, v3) + Decode(rest).value)
  {
    hide Value, Symbol, Triple;
    var s := [Symbol(v0), Symbol(v1), Symbol(v2), Symbol(v3)] + rest;
    assert s[4..] == rest;
    ValueOfSymbol(v0);
    ValueOfSymbol(v1);
    ValueOfSymbol(v2);
    ValueOfSymbol(v3);
  }

  lemma DecodeTail(v0: Sextet, v1: Sextet, v2: Sextet)
    ensures Decode([Symbol(v0), Symbol(v1), '=', '=']) == Some(Triple(v0, v1, 0, 0)[..1])
    ensures Decode([Symbol(v0), Symbol(v1), Symbol(v2), '=']) == Some(Triple(v0, v1, v2, 0)[..2])
  {
    hide Value, Symbol, Triple;
    ValueOfSymbol(v0);
    ValueOfSymbol(v1);
    ValueOfSymbol(v2);
  }

  /** Decoding what was encoded gives back the bytes, for every length. */
  lemma {:induction false} DecodeEncode(data: seq<byte>)
    ensures Decode(Encode(data)) == Some(data)
    decreases |data|
  {
    hide Decode, Symbol, Triple;
    if data == [] {
      DecodeNothing();
    } else {
      var b0 := data[0] as int;
      var b1 := if |data| > 1 then data[1] as int else 0;
      var b2 := if |data| > 2 then data[2] as int else 0;
      var c0, c1, c2, c3 := b0 / 4, b0 % 4 * 16 + b1 / 16, b1 % 16 * 4 + b2 / 64, b2 % 64;
      Regroup(b0, b1, b2);
      if |data| <= 2 {
        DecodeTail(c0, c1, c2);
        assert Encode(data) == [Symbol(c0), Symbol(c1), if |data| == 1 then '=' else Symbol(c2), '='];
        assert c3 == 0 && (|data| == 1 ==> c2 == 0);
        assert [b0 as byte, b1 as byte, b2 as byte][..|data|] == data;
      } else {
        DecodeEncode(data[3..]);
        DecodeGroup(c0, c1, c2, c3, Encode(data[3..]));
        assert Encode(data) == [Symbol(c0), Symbol(c1), Symbol(c2), Symbol(c3)] + Encode(data[3..]);
        assert data == [b0 as byte, b1 as byte, b2 as byte] + data[3..];
      }
    }
  }

  lemma DecodeNothing()
    ensures Decode("") == Some([])
  {
  }

  lemma Regroup(b0: int, b1: int, b2: int)
    requires 0 <= b0 < 256 && 0 <= b1 < 256 && 0 <= b2 < 256
    ensures Triple(b0 / 4, b0 % 4 * 16 + b1 / 16, b1 % 16 * 4 + b2 / 64, b2 % 64)
         == [b0 as byte, b1 as byte, b2 as byte]
  {
  }

  // ----- padding -------------------------------------------------------------------------------

  predicate Plain(s: string) {
    forall i :: 0 <= i < |s| ==> s[i] != '=' && s[i] != '.'
  }

  lemma {:induction false} StripRepeat(s: string, n: nat)
    requires Plain(s)
    ensures StripPadding(s + Repeat('=', n)) == s
    decreases n
  {
    if n == 0 {
      assert s + Repeat('=', 0) == s;
    } else {
      var t := s + Repeat('=', n);
      assert t[..|t| - 1] == s + Repeat('=', n - 1);
      StripRepeat(s, n - 1);
    }
  }

  lemma EncodeStep(data: seq<byte>) returns (head: string)
    requires |data| >= 3
    ensures Encode(data) == head + Encode(data[3..]) && |head| == 4 && Plain(head)
  {
    hide Symbol;
    head := Encode(data)[..4];
  }

  lemma EncodeEnd(data: seq<byte>) returns (text: string)
    requires 1 <= |data| <= 2
    ensures Encode(data) == RestorePadding(text) && |text| == |data| + 1 && Plain(text)
  {
    hide Symbol;
    text := Encode(data)[..|data| + 1];
    assert Repeat('=', 1) == "=";
    assert Repeat('=', 2) == "==";
    assert Encode(data) == text + Repeat('=', 3 - |data|);
  }

  lemma RestoreAfter(head: string, rest: string)
    requires |head| == 4
    ensures RestorePadding(head + rest) == head + RestorePadding(rest)
  {
    assert (|rest| + 4) % 4 == |rest| % 4;
  }

  /** An encoding is symbols followed by padding up to a multiple of four. */
  lemma {:induction false} EncodeShape(data: seq<byte>) returns (text: string)
    ensures Plain(text) && Encode(data) == RestorePadding(text)
    ensures |text| == (4 * |data| + 2) / 3
    decreases |data|
  {
    if data == [] {
      text := "";
    } else if |data| <= 2 {
      text := EncodeEnd(data);
    } else {
      hide Encode, RestorePadding;
      var rest := EncodeShape(data[3..]);
      var head := EncodeStep(data);
      text := head + rest;
      RestoreAfter(head, rest);
    }
  }

  /** Restoring the padding undoes stripping it, for every length, and what is left has no dot. */
  lemma PaddingRoundTrip(data: seq<byte>)
    ensures RestorePadding(StripPadding(Encode(data))) == Encode(data)
    ensures Plain(StripPadding(Encode(data))) && |StripPadding(Encode(data))| == (4 * |data| + 2) / 3
  {
    hide Encode, StripPadding;
    var text := EncodeShape(data);
    StripRepeat(text, (4 - |text| % 4) % 4);
  }

  // ----- tokens --------------------------------------------------------------------------------

  /** The split is at the first dot. */
  lemma {:induction false} SplitIs(s: string, text: string, rest: string)
    ensures SplitDot(s) == Some((text, rest)) <==> s == text + "." + rest && '.' !in text
    decreases |s|
  {
    if s != "" {
      if s[0] == '.' {
        if text != "" && s == text + "." + rest {
          assert s[0] == text[0];
        }
        if text == "" {
          assert text + "." + rest == "." + rest;
          assert s == "." + s[1..];
        }
      } else {
        if text == "" {
          assert (text + "." + rest)[0] == '.';
          assert SplitDot(s).Some? ==> |SplitDot(s).value.0| > 0;
        } else {
          SplitIs(s[1..], text[1..], rest);
          assert text == [text[0]] + text[1..];
          assert text + "." + rest == [text[0]] + (text[1..] + "." + rest);
          assert s == [s[0]] + s[1..];
          assert '.' in text <==> text[0] == '.' || '.' in text[1..];
        }
      }
    }
  }

  /** A token verifies to a payload exactly if it is some dot-free text that decodes to that payload,
      a dot, and the signature of the text. */
  lemma VerifyIs(raw: string, sign: string -> string, payload: seq<byte>)
    ensures VerifyToken(raw, sign) == Ok(payload) <==> exists text :: SignedText(raw, sign, payload, text)
  {
    hide Decode, RestorePadding, SplitDot;
    forall text
      ensures SignedText(raw, sign, payload, text) ==> VerifyToken(raw, sign) == Ok(payload)
    {
      SplitIs(raw, text, sign(text));
    }
    if VerifyToken(raw, sign) == Ok(payload) {
      var (text, signature) := SplitDot(raw).value;
      SplitIs(raw, text, signature);
      assert SignedText(raw, sign, payload, text);
    }
  }

  predicate SignedText(raw: string, sign: string -> string, payload: seq<byte>, text: string) {
    '.' !in text && raw == text + "." + sign(text) && Decode(RestorePadding(text)) == Some(payload)
  }

  /** Verifying an issued token gives back its payload, whatever the payload and the signing function. */
  lemma TokenRoundTrip(payload: seq<byte>, sign: string -> string)
    ensures VerifyToken(IssueToken(payload, sign), sign) == Ok(payload)
  {
    hide Decode, Encode, RestorePadding, StripPadding, VerifyToken;
    var text := StripPadding(Encode(payload));
    PaddingRoundTrip(payload);
    DecodeEncode(payload);
    VerifyIs(IssueToken(payload, sign), sign, payload);
    assert SignedText(IssueToken(payload, sign), sign, payload, text);
  }
}
