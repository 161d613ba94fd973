/**
 License keys (api/app/auth/licenses.py): unpadded URL-safe base64 (RFC 4648, sections 3.2
 and 5) of a JSON payload, a dot, and an HMAC of the encoded payload.
 */
module LicenseKeys {
  import opened Wrappers

  // ----- base64 ----------------------------------------------------------------------------

  ghost predicate Bytes(raw: seq<int>) {
    forall i :: 0 <= i < |raw| ==> 0 <= raw[i] < 256
  }

  const PAD: char := '='

  /** A character that is neither padding nor a dot, and ASCII. */
  predicate Plain(c: char) {
    c != PAD && c != '.' && c as int < 128
  }

  /** The URL-safe alphabet. */
  function Letter(v: int): (c: char)
    requires 0 <= v < 64
    ensures LetterValue(c) == Some(v) && Plain(c)
  {
    if v < 26 then ('A' as int + v) as char
    else if v < 52 then ('a' as int + v - 26) as char
    else if v < 62 then ('0' as int + v - 52) as char
    else if v == 62 then '-' else '_'
  }

  /** The value of a character. The decoder maps `-` and `_` to `+` and `/` first, so it takes
      both alphabets. */
  function LetterValue(c: char): Option<int> {
    if 'A' <= c <= 'Z' then Some(c as int - 'A' as int)
    else if 'a' <= c <= 'z' then Some(c as int - 'a' as int + 26)
    else if '0' <= c <= '9' then Some(c as int - '0' as int + 52)
    else if c == '-' || c == '+' then Some(62)
    else if c == '_' || c == '/' then Some(63)
    else None
  }

  /** The decoder takes the standard alphabet as well. */
  lemma BothAlphabets()
    ensures LetterValue('+') == LetterValue('-') == Some(62) && LetterValue('/') == LetterValue('_') == Some(63)
  {
  }

  /** Three bytes as four letters. */
  function Group(a: int, b: int, c: int): (s: string)
    requires 0 <= a < 256 && 0 <= b < 256 && 0 <= c < 256
    ensures |s| == 4 && Plain(s[0]) && Plain(s[1]) && Plain(s[2]) && Plain(s[3])
  {
    [Letter(a / 4), Letter(a % 4 * 16 + b / 16), Letter(b % 16 * 4 + c / 64), Letter(c % 64)]
  }

  function Body(raw: seq<int>): string
    requires Bytes(raw)
  {
    if |raw| == 0 then ""
    else if |raw| == 1 then [Letter(raw[0] / 4), Letter(raw[0] % 4 * 16)]
    else if |raw| == 2 then
      [Letter(raw[0] / 4), Letter(raw[0] % 4 * 16 + raw[1] / 16), Letter(raw[1] % 16 * 4)]
    else Group(raw[0], raw[1], raw[2]) + Body(raw[3..])
  }

  function Pads(n: nat): string {
    if n == 0 then "" else Pads(n - 1) + [PAD]
  }

  /** `base64.urlsafe_b64encode`: groups of three bytes, the last one padded to four. */
  function PaddedEncode(raw: seq<int>): string
    requires Bytes(raw)
  {
    Body(raw) + Pads((3 - |raw| % 3) % 3)
  }

  /** `rstrip("=")`. */
  function Strip(s: string): string {
    if s != "" && s[|s| - 1] == PAD then Strip(s[..|s| - 1]) else s
  }

  /** `_b64encode`. */
  function Encode(raw: seq<int>): string
    requires Bytes(raw)
  {
    Strip(PaddedEncode(raw))
  }

  /** The decoder's position inside a group of four, with the bits carried over. */
  datatype Quad = Q0 | Q1(left: int) | Q2(left: int, padded: bool) | Q3(left: int)

  /** The lenient decoder of the standard library: other characters are skipped, a complete
      pad sequence ends the input, and a group left open is an error. */
  function Scan(s: string, q: Quad): Option<seq<int>> {
    if s == "" then (if q == Q0 then Some([]) else None)
    else if s[0] == PAD then
      match q
      case Q0 => Scan(s[1..], q)
      case Q1(_) => Scan(s[1..], q)
      case Q2(left, padded) => if padded then Some([]) else Scan(s[1..], Q2(left, true))
      case Q3(_) => Some([])
    else
      match LetterValue(s[0])
      case None => Scan(s[1..], q)
      case Some(v) =>
        match q
        case Q0 => Scan(s[1..], Q1(v))
        case Q1(left) => Prepend(left * 4 + v / 16, Scan(s[1..], Q2(v % 16, false)))
        case Q2(left, _) => Prepend(left * 16 + v / 4, Scan(s[1..], Q3(v % 4)))
        case Q3(left) => Prepend(left * 64 + v, Scan(s[1..], Q0))
  }

  /** The decoder skips what is in neither alphabet and is no padding, wherever it stands. */
  lemma {:induction false} JunkIsSkipped(before: string, c: char, after: string, q: Quad)
    requires !('A' <= c <= 'Z') && !('a' <= c <= 'z') && !('0' <= c <= '9')
    requires c != '-' && c != '_' && c != '+' && c != '/' && c != '='
    ensures Scan(before + [c] + after, q) == Scan(before + after, q)
    decreases |before|
  {
    var s, s' := before + [c] + after, before + after;
    if before == "" {
      assert s[0] == c && s[1..] == after && s' == after;
    } else {
      var rest := before[1..];
      assert s[1..] == rest + [c] + after && s'[1..] == rest + after;
      forall next
        ensures Scan(rest + [c] + after, next) == Scan(rest + after, next)
      {
        JunkIsSkipped(rest, c, after, next);
      }
    }
  }

  /** Padding before the second letter of a group is skipped too; after two letters the second pad ends the
      input, after three the first. */
  lemma PadsByPosition(rest: string, left: int)
    ensures Scan("=" + rest, Q0) == Scan(rest, Q0) && Scan("=" + rest, Q1(left)) == Scan(rest, Q1(left))
    ensures Scan("=" + rest, Q2(left, false)) == Scan(rest, Q2(left, true))
    ensures Scan("=" + rest, Q2(left, true)) == Some([]) && Scan("=" + rest, Q3(left)) == Some([])
    ensures Scan("", Q0) == Some([]) && Scan("", Q1(left)) == None && Scan("", Q3(left)) == None
  {
    assert ("=" + rest)[1..] == rest;
  }

  function Prepend(b: int, rest: Option<seq<int>>): Option<seq<int>> {
    match rest case None => None case Some(bytes) => Some([b] + bytes)
  }

  /** `_b64decode`: restore the padding, then decode. */
  function Decode(text: string): Option<seq<int>> {
    Scan(text + Pads((4 - |text| % 4) % 4), Q0)
  }

  /** The letters of an incomplete last group. */
  function LastLetters(n: nat): nat {
    if n % 3 == 0 then 0 else n % 3 + 1
  }

  lemma OneMoreGroup(n: nat, letters: nat)
    requires n >= 3 && letters % 4 == LastLetters(n - 3)
    ensures (4 + letters) % 4 == LastLetters(n)
  {
    assert (n - 3) % 3 == n % 3;
  }

  lemma {:induction false} BodyLength(raw: seq<int>)
    requires Bytes(raw)
    ensures |Body(raw)| % 4 == LastLetters(|raw|)
  {
    if |raw| >= 3 {
      BodyLength(raw[3..]);
      OneMoreGroup(|raw|, |Body(raw[3..])|);
    }
  }

  lemma {:induction false} BodyIsPlain(raw: seq<int>)
    requires Bytes(raw)
    ensures forall i :: 0 <= i < |Body(raw)| ==> Plain(Body(raw)[i])
  {
    if |raw| >= 3 {
      BodyIsPlain(raw[3..]);
    }
  }

  lemma {:induction false} StripOnePad(s: string)
    ensures Strip(s + [PAD]) == Strip(s)
  {
    var t := s + [PAD];
    assert t[..|t| - 1] == s;
  }

  lemma {:induction false} StripPads(s: string, n: nat)
    requires PAD !in s
    ensures Strip(s + Pads(n)) == s
  {
    if n == 0 {
      assert s + Pads(0) == s;
    } else {
      StripPads(s, n - 1);
      StripOnePad(s + Pads(n - 1));
      assert s + Pads(n) == s + Pads(n - 1) + [PAD];
    }
  }

  lemma SamePadding(n: nat, letters: nat)
    requires letters % 4 == LastLetters(n)
    ensures (4 - letters % 4) % 4 == (3 - n % 3) % 3
  {
    assert n % 3 == 0 || n % 3 == 1 || n % 3 == 2;
  }

  /** Stripping removes exactly the padding, and decoding restores exactly what was stripped. */
  lemma {:induction false} PaddingIsRestored(raw: seq<int>)
    requires Bytes(raw)
    ensures Encode(raw) == Body(raw)
    ensures Encode(raw) + Pads((4 - |Encode(raw)| % 4) % 4) == PaddedEncode(raw)
  {
    BodyIsPlain(raw);
    StripPads(Body(raw), (3 - |raw| % 3) % 3);
    BodyLength(raw);
    SamePadding(|raw|, |Body(raw)|);
  }

  lemma {:induction false} ScanLetter(v: int, rest: string, q: Quad)
    requires 0 <= v < 64
    ensures Scan([Letter(v)] + rest, q) ==
      match q
      case Q0 => Scan(rest, Q1(v))
      case Q1(left) => Prepend(left * 4 + v / 16, Scan(rest, Q2(v % 16, false)))
      case Q2(left, _) => Prepend(left * 16 + v / 4, Scan(rest, Q3(v % 4)))
      case Q3(left) => Prepend(left * 64 + v, Scan(rest, Q0))
  {
    assert ([Letter(v)] + rest)[1..] == rest;
  }

  /** Six-bit groups put back together. */
  lemma BitsRejoin(a: int, b: int, c: int)
    requires 0 <= a < 256 && 0 <= b < 256 && 0 <= c < 256
    ensures
      var v0, v1, v2, v3 := a / 4, a % 4 * 16 + b / 16, b % 16 * 4 + c / 64, c % 64;
      && 0 <= v0 < 64 && 0 <= v1 < 64 && 0 <= v2 < 64 && 0 <= v3 < 64
      && v0 * 4 + v1 / 16 == a && v1 % 16 * 16 + v2 / 4 == b && v2 % 4 * 64 + v3 == c
  {
    var v1, v2 := a % 4 * 16 + b / 16, b % 16 * 4 + c / 64;
    assert v1 / 16 == a % 4 && v1 % 16 == b / 16;
    assert v2 / 4 == b % 16 && v2 % 4 == c / 64;
  }

  lemma {:induction false} ScanTwo(v0: int, v1: int, rest: string)
    requires 0 <= v0 < 64 && 0 <= v1 < 64
    ensures Scan([Letter(v0), Letter(v1)] + rest, Q0) == Prepend(v0 * 4 + v1 / 16, Scan(rest, Q2(v1 % 16, false)))
  {
    ScanLetter(v0, [Letter(v1)] + rest, Q0);
    ScanLetter(v1, rest, Q1(v0));
    assert [Letter(v0), Letter(v1)] + rest == [Letter(v0)] + ([Letter(v1)] + rest);
  }

  lemma {:induction false} ScanThree(v0: int, v1: int, v2: int, rest: string)
    requires 0 <= v0 < 64 && 0 <= v1 < 64 && 0 <= v2 < 64
    ensures Scan([Letter(v0), Letter(v1), Letter(v2)] + rest, Q0)
         == Prepend(v0 * 4 + v1 / 16, Prepend(v1 % 16 * 16 + v2 / 4, Scan(rest, Q3(v2 % 4))))
  {
    ScanTwo(v0, v1, [Letter(v2)] + rest);
    ScanLetter(v2, rest, Q2(v1 % 16, false));
    assert [Letter(v0), Letter(v1), Letter(v2)] + rest == [Letter(v0), Letter(v1)] + ([Letter(v2)] + rest);
  }

  lemma {:induction false} ScanFour(v0: int, v1: int, v2: int, v3: int, rest: string)
    requires 0 <= v0 < 64 && 0 <= v1 < 64 && 0 <= v2 < 64 && 0 <= v3 < 64
    ensures Scan([Letter(v0), Letter(v1), Letter(v2), Letter(v3)] + rest, Q0)
         == Prepend(v0 * 4 + v1 / 16, Prepend(v1 % 16 * 16 + v2 / 4, Prepend(v2 % 4 * 64 + v3, Scan(rest, Q0))))
  {
    ScanThree(v0, v1, v2, [Letter(v3)] + rest);
    ScanLetter(v3, rest, Q3(v2 % 4));
    assert [Letter(v0), Letter(v1), Letter(v2), Letter(v3)] + rest
        == [Letter(v0), Letter(v1), Letter(v2)] + ([Letter(v3)] + rest);
  }

  lemma ScanOfPads(left: int)
    ensures Scan("=", Q3(left)) == Some([]) && Scan("==", Q2(left, false)) == Some([])
  {
    assert "=="[1..] == "=" && Scan("=", Q2(left, true)) == Some([]);
  }

  lemma {:induction false} ScanOneByte(a: int)
    requires 0 <= a < 256
    ensures Scan([Letter(a / 4), Letter(a % 4 * 16)] + "==", Q0) == Some([a])
  {
    BitsRejoin(a, 0, 0);
    ScanTwo(a / 4, a % 4 * 16, "==");
    ScanOfPads(a % 4 * 16 % 16);
    assert a / 4 * 4 + a % 4 * 16 / 16 == a && [a] + [] == [a];
  }

  lemma {:induction false} ScanTwoBytes(a: int, b: int)
    requires 0 <= a < 256 && 0 <= b < 256
    ensures Scan([Letter(a / 4), Letter(a % 4 * 16 + b / 16), Letter(b % 16 * 4)] + "=", Q0) == Some([a, b])
  {
    BitsRejoin(a, b, 0);
    ScanThree(a / 4, a % 4 * 16 + b / 16, b % 16 * 4, "=");
    ScanOfPads(b % 16 * 4 % 4);
    assert [a] + ([b] + []) == [a, b];
  }

  lemma PrependThree(a: int, b: int, c: int, bytes: seq<int>)
    ensures Prepend(a, Prepend(b, Prepend(c, Some(bytes)))) == Some([a, b, c] + bytes)
  {
    assert [a] + ([b] + ([c] + bytes)) == [a, b, c] + bytes;
  }

  lemma {:induction false} ScanThreeBytes(a: int, b: int, c: int, rest: string, bytes: seq<int>)
    requires 0 <= a < 256 && 0 <= b < 256 && 0 <= c < 256 && Scan(rest, Q0) == Some(bytes)
    ensures Scan(Group(a, b, c) + rest, Q0) == Some([a, b, c] + bytes)
  {
    BitsRejoin(a, b, c);
    ScanFour(a / 4, a % 4 * 16 + b / 16, b % 16 * 4 + c / 64, c % 64, rest);
    PrependThree(a, b, c, bytes);
  }

  lemma {:induction false} ScanLastGroup(raw: seq<int>)
    requires Bytes(raw) && |raw| < 3
    ensures Scan(PaddedEncode(raw), Q0) == Some(raw)
  {
    if |raw| == 0 {
      assert PaddedEncode(raw) == "";
    } else if |raw| == 1 {
      PaddedOneByte(raw[0]);
      ScanOneByte(raw[0]);
      assert raw == [raw[0]];
    } else {
      PaddedTwoBytes(raw[0], raw[1]);
      ScanTwoBytes(raw[0], raw[1]);
      assert raw == [raw[0], raw[1]];
    }
  }

  lemma {:induction false} PaddedOneByte(a: int)
    requires 0 <= a < 256
    ensures PaddedEncode([a]) == [Letter(a / 4), Letter(a % 4 * 16)] + "=="
  {
    assert Pads(1) == "=" && Pads(2) == "==" && (3 - |[a]| % 3) % 3 == 2;
  }

  lemma {:induction false} PaddedTwoBytes(a: int, b: int)
    requires 0 <= a < 256 && 0 <= b < 256
    ensures PaddedEncode([a, b]) == [Letter(a / 4), Letter(a % 4 * 16 + b / 16), Letter(b % 16 * 4)] + "="
  {
    assert Pads(1) == "=" && (3 - |[a, b]| % 3) % 3 == 1;
  }

  lemma {:induction false} ScanUndoesPaddedEncode(raw: seq<int>)
    requires Bytes(raw)
    ensures Scan(PaddedEncode(raw), Q0) == Some(raw)
  {
    if |raw| < 3 {
      ScanLastGroup(raw);
    } else {
      ScanUndoesPaddedEncode(raw[3..]);
      GroupThenRest(raw);
      ScanFirstGroup(raw, PaddedEncode(raw), PaddedEncode(raw[3..]));
    }
  }

  lemma {:induction false} ScanFirstGroup(raw: seq<int>, text: string, rest: string)
    requires Bytes(raw) && |raw| >= 3 && Scan(rest, Q0) == Some(raw[3..])
    requires text == Group(raw[0], raw[1], raw[2]) + rest
    ensures Scan(text, Q0) == Some(raw)
  {
    ScanThreeBytes(raw[0], raw[1], raw[2], rest, raw[3..]);
    assert raw == [raw[0], raw[1], raw[2]] + raw[3..];
  }

  lemma {:induction false} GroupThenRest(raw: seq<int>)
    requires Bytes(raw) && |raw| >= 3
    ensures PaddedEncode(raw) == Group(raw[0], raw[1], raw[2]) + PaddedEncode(raw[3..])
  {
    assert |raw[3..]| % 3 == |raw| % 3;
  }

  /** Base64 round trip, for byte strings of every length. */
  lemma Base64RoundTrip(raw: seq<int>)
    requires Bytes(raw)
    ensures Decode(Encode(raw)) == Some(raw)
  {
    PaddingIsRestored(raw);
    ScanUndoesPaddedEncode(raw);
  }

  // ----- keys --------------------------------------------------------------------------------

  type Fields = map<string, string>

  datatype Json = Object(fields: Fields) | OtherJson

  /** The JSON library and the keyed hash: `mac` is the hexadecimal HMAC of a text under the
      key derived from a pepper. */
  datatype Codec = Codec(mac: (string, string) -> string, dumps: Fields -> seq<int>, loads: seq<int> -> Option<Json>) {
    ghost predicate Lawful() {
      && (forall pepper, text :: '.' !in mac(pepper, text) && Ascii(mac(pepper, text)))
      && (forall f :: Bytes(dumps(f)) && loads(dumps(f)) == Some(Object(f)))
    }
  }

  predicate Ascii(s: string) {
    forall i :: 0 <= i < |s| ==> s[i] as int < 128
  }

  /** The payload as minted: version 1. */
  predicate VersionOne(f: Fields) {
    "v" in f && f["v"] == "1"
  }

  /** `encode_license_key`. */
  function Mint(c: Codec, pepper: string, f: Fields): string
    requires Bytes(c.dumps(f))
  {
    var text := Encode(c.dumps(f));
    text + "." + c.mac(pepper, text)
  }

  /** Crash stands for the exceptions that the source does not turn into a signing error:
      a payload or signature outside ASCII, or a payload that is not an object. */
  datatype Verdict = Accepted(fields: Fields) | Malformed | BadSignature | BadVersion | Crash

  /** The position of the last dot. */
  function LastDot(s: string): (i: nat)
    requires '.' in s
    ensures i < |s| && s[i] == '.' && '.' !in s[i + 1..]
  {
    if s[|s| - 1] == '.' then |s| - 1 else LastDot(s[..|s| - 1])
  }

  function ReadPayload(c: Codec, text: string): Verdict {
    match Decode(text)
    case None => Malformed
    case Some(raw) =>
      match c.loads(raw)
      case None => Malformed
      case Some(OtherJson) => Crash
      case Some(Object(f)) => if VersionOne(f) then Accepted(f) else BadVersion
  }

  /** `decode_license_key`. */
  function Check(c: Codec, pepper: string, key: string): Verdict {
    if '.' !in key then Malformed
    else
      var i := LastDot(key);
      var text, signature := key[..i], key[i + 1..];
      if !Ascii(text) || !Ascii(signature) then Crash
      else if signature != c.mac(pepper, text) then BadSignature
      else ReadPayload(c, text)
  }

  lemma {:induction false} LastDotSplits(text: string, signature: string)
    requires '.' !in signature
    ensures '.' in text + "." + signature && LastDot(text + "." + signature) == |text|
  {
    var key := text + "." + signature;
    assert key[|text|] == '.';
    assert key[|text| + 1..] == signature;
    assert LastDot(key) == |text|;
  }

  lemma TextIsAscii(raw: seq<int>)
    requires Bytes(raw)
    ensures Ascii(Encode(raw)) && '.' !in Encode(raw)
  {
    PaddingIsRestored(raw);
    BodyIsPlain(raw);
  }

  /** License keys round trip: a minted key is accepted under the same pepper and returns the
      payload it was minted from. */
  lemma MintedKeyIsAccepted(c: Codec, pepper: string, f: Fields)
    requires c.Lawful() && "v" in f && f["v"] == "1"
    ensures Check(c, pepper, Mint(c, pepper, f)) == Accepted(f)
  {
    var raw := c.dumps(f);
    var text := Encode(raw);
    var signature := c.mac(pepper, text);
    var key := text + "." + signature;
    LastDotSplits(text, signature);
    TextIsAscii(raw);
    assert key[..|text|] == text && key[|text| + 1..] == signature;
    Base64RoundTrip(raw);
  }

  /** Keys of different payloads differ. */
  lemma MintIsInjective(c: Codec, pepper: string, f: Fields, f': Fields)
    requires c.Lawful() && "v" in f && f["v"] == "1" && "v" in f' && f'["v"] == "1"
    requires Mint(c, pepper, f) == Mint(c, pepper, f')
    ensures f == f'
  {
    MintedKeyIsAccepted(c, pepper, f);
    MintedKeyIsAccepted(c, pepper, f');
  }

  /** The key is this text, a dot and the HMAC of the text, and the text reads as the payload. */
  ghost predicate SignedText(c: Codec, pepper: string, key: string, f: Fields, text: string) {
    key == text + "." + c.mac(pepper, text) && Ascii(text) && Reads(c, text, f)
  }

  /** The text is base64 of a JSON object with these fields, of version 1. */
  ghost predicate Reads(c: Codec, text: string, f: Fields) {
    Decode(text).Some? && c.loads(Decode(text).value) == Some(Object(f)) && "v" in f && f["v"] == "1"
  }

  /** Every other key, by its parts: no dot or an unreadable payload is malformed, characters outside ASCII
      crash, then the signature decides, then the payload. */
  lemma {:induction false} VerdictByParts(c: Codec, pepper: string, text: string, signature: string)
    requires '.' !in signature
    ensures
      var v := Check(c, pepper, text + "." + signature);
      && (v == BadSignature <==> Ascii(text) && Ascii(signature) && signature != c.mac(pepper, text))
      && (Ascii(text) && Ascii(signature) && signature == c.mac(pepper, text) ==>
            match Decode(text)
            case None => v == Malformed
            case Some(raw) =>
              match c.loads(raw)
              case None => v == Malformed
              case Some(OtherJson) => v == Crash
              case Some(Object(f)) => v == if "v" in f && f["v"] == "1" then Accepted(f) else BadVersion)
      && (!Ascii(text) || !Ascii(signature) ==> v == Crash)
  {
    var key := text + "." + signature;
    LastDotSplits(text, signature);
    assert key[..|text|] == text && key[|text| + 1..] == signature;
  }

  lemma WithoutDotMalformed(c: Codec, pepper: string, key: string)
    requires '.' !in key
    ensures Check(c, pepper, key) == Malformed
  {
  }

  /** Exactly the texts with their own signature and a readable payload are accepted: the
      signature of a key cannot be varied. */
  lemma {:induction false} AcceptedIff(c: Codec, pepper: string, key: string, f: Fields)
    requires c.Lawful()
    ensures Check(c, pepper, key) == Accepted(f) <==> exists text :: SignedText(c, pepper, key, f, text)
  {
    if Check(c, pepper, key) == Accepted(f) {
      var i := LastDot(key);
      assert key == key[..i] + "." + key[i + 1..];
      assert SignedText(c, pepper, key, f, key[..i]);
    }
    if text :| SignedText(c, pepper, key, f, text) {
      SignedTextIsAccepted(c, pepper, key, f, text);
    }
  }

  lemma {:induction false} SignedTextIsAccepted(c: Codec, pepper: string, key: string, f: Fields, text: string)
    requires c.Lawful() && SignedText(c, pepper, key, f, text)
    ensures Check(c, pepper, key) == Accepted(f)
  {
    LastDotSplits(text, c.mac(pepper, text));
    assert key[..|text|] == text && key[|text| + 1..] == c.mac(pepper, text);
  }

  /** A key that is accepted without being one of the keys of the signed texts exhibits a
      forged HMAC: a text that was never signed, with its own signature. */
  lemma {:induction false} ForgedKeyExhibitsMac(c: Codec, pepper: string, key: string, signed: set<string>)
    requires c.Lawful() && Check(c, pepper, key).Accepted?
    requires forall text :: text in signed ==> key != text + "." + c.mac(pepper, text)
    ensures exists f, text :: text !in signed && SignedText(c, pepper, key, f, text)
  {
    var f := Check(c, pepper, key).fields;
    AcceptedIff(c, pepper, key, f);
    var text :| SignedText(c, pepper, key, f, text);
    assert text !in signed;
  }

  /** A key minted under one pepper is accepted under another exactly when the two HMACs of
      its payload text agree. */
  lemma OtherPepperIff(c: Codec, pepper: string, pepper': string, f: Fields)
    requires c.Lawful() && "v" in f && f["v"] == "1"
    ensures
      var text := Encode(c.dumps(f));
      Check(c, pepper', Mint(c, pepper, f)).Accepted? <==> c.mac(pepper, text) == c.mac(pepper', text)
  {
    var text := Encode(c.dumps(f));
    var key := Mint(c, pepper, f);
    LastDotSplits(text, c.mac(pepper, text));
    assert key[..|text|] == text && key[|text| + 1..] == c.mac(pepper, text);
    MintedKeyIsAccepted(c, pepper, f);
  }
}
