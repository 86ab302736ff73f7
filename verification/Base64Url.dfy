/** Unpadded base64url, as the agent and the browser encode and decode it. */
module Base64Url {
  import opened Protocol

  type Sextet = n: int | 0 <= n < 64

  // ---------- Bytes and groups of six bits ----------

  function First(a: Byte): Sextet { a / 4 }

  function Second(a: Byte, b: Byte): Sextet { a % 4 * 16 + b / 16 }

  function Third(b: Byte, c: Byte): Sextet { b % 16 * 4 + c / 64 }

  function Fourth(c: Byte): Sextet { c % 64 }

  /** The six-bit groups of the bytes, the last one filled up with zero bits (section 4 of RFC 4648). */
  function Sextets(b: seq<Byte>): (s: seq<Sextet>)
    ensures |s| == 4 * (|b| / 3) + (if |b| % 3 == 0 then 0 else |b| % 3 + 1)
  {
    if b == [] then []
    else if |b| == 1 then [First(b[0]), Second(b[0], 0)]
    else if |b| == 2 then [First(b[0]), Second(b[0], b[1]), Third(b[1], 0)]
    else [First(b[0]), Second(b[0], b[1]), Third(b[1], b[2]), Fourth(b[2])] + Sextets(b[3..])
  }

  function ByteOne(p: Sextet, q: Sextet): Byte { p * 4 + q / 16 }

  function ByteTwo(q: Sextet, r: Sextet): Byte { q % 16 * 16 + r / 4 }

  function ByteThree(r: Sextet, t: Sextet): Byte { r % 4 * 64 + t }

  /** The bytes that six-bit groups spell; bits left over at the end are dropped. */
  function Bytes(s: seq<Sextet>): seq<Byte> {
    if |s| <= 1 then []
    else if |s| == 2 then [ByteOne(s[0], s[1])]
    else if |s| == 3 then [ByteOne(s[0], s[1]), ByteTwo(s[1], s[2])]
    else [ByteOne(s[0], s[1]), ByteTwo(s[1], s[2]), ByteThree(s[2], s[3])] + Bytes(s[4..])
  }

  lemma Regroup(a: Byte, b: Byte, c: Byte)
    ensures ByteOne(First(a), Second(a, b)) == a
    ensures ByteTwo(Second(a, b), Third(b, c)) == b
    ensures ByteThree(Third(b, c), Fourth(c)) == c
    ensures Second(a, 0) % 16 == 0 && Third(b, 0) % 4 == 0
  {
    assert Second(a, b) / 16 == a % 4 && Second(a, b) % 16 == b / 16;
    assert Third(b, c) / 4 == b % 16 && Third(b, c) % 4 == c / 64;
  }

  /** The bits left over at the end. */
  function Rest(s: seq<Sextet>): nat {
    if |s| % 4 == 2 then s[|s| - 1] % 16 else if |s| % 4 == 3 then s[|s| - 1] % 4 else 0
  }

  lemma FourSextets(p: Sextet, q: Sextet, r: Sextet, t: Sextet, rest: seq<Sextet>)
    ensures var s := [p, q, r, t] + rest;
            && Bytes(s) == [ByteOne(p, q), ByteTwo(q, r), ByteThree(r, t)] + Bytes(rest)
            && Rest(s) == Rest(rest) && |s| % 4 == |rest| % 4
  {
    hide ByteOne;
    hide ByteTwo;
    hide ByteThree;
    var s := [p, q, r, t] + rest;
    assert s[4..] == rest;
    assert rest != [] ==> s[|s| - 1] == rest[|rest| - 1];
  }

  lemma {:induction false} BytesUndoSextets(b: seq<Byte>)
    ensures Bytes(Sextets(b)) == b && Rest(Sextets(b)) == 0 && |Sextets(b)| % 4 != 1
  {
    hide First;
    hide Second;
    hide Third;
    hide Fourth;
    hide ByteOne;
    hide ByteTwo;
    hide ByteThree;
    if |b| >= 3 {
      Regroup(b[0], b[1], b[2]);
      BytesUndoSextets(b[3..]);
      FourSextets(First(b[0]), Second(b[0], b[1]), Third(b[1], b[2]), Fourth(b[2]), Sextets(b[3..]));
      assert b == [b[0], b[1], b[2]] + b[3..];
    } else if |b| == 2 {
      Regroup(b[0], b[1], 0);
      assert b == [b[0], b[1]];
    } else if |b| == 1 {
      Regroup(b[0], 0, 0);
      assert b == [b[0]];
    }
  }

  // ---------- Characters ----------

  predicate Letter(c: char) {
    'A' <= c <= 'Z' || 'a' <= c <= 'z' || '0' <= c <= '9'
  }

  /** The value of a letter or digit, which both alphabets share. */
  function LetterValue(c: char): Sextet
    requires Letter(c)
  {
    if c <= '9' then c as int - '0' as int + 52 else if c <= 'Z' then c as int - 'A' as int
    else c as int - 'a' as int + 26
  }

  function UrlValue(c: char): Option<Sextet> {
    if Letter(c) then Some(LetterValue(c)) else if c == '-' then Some(62) else if c == '_' then Some(63) else None
  }

  function StandardValue(c: char): Option<Sextet> {
    if Letter(c) then Some(LetterValue(c)) else if c == '+' then Some(62) else if c == '/' then Some(63) else None
  }

  /** The alphabet of section 4 of RFC 4648: A-Z, a-z, 0-9, then plus and slash. */
  function StandardSymbol(n: Sextet): char {
    if n < 26 then ('A' as int + n) as char
    else if n < 52 then ('a' as int + (n - 26)) as char
    else if n < 62 then ('0' as int + (n - 52)) as char
    else if n == 62 then '+' else '/'
  }

  /** The alphabet of section 5: minus and underscore instead. */
  function UrlSymbol(n: Sextet): char {
    if n < 62 then StandardSymbol(n) else if n == 62 then '-' else '_'
  }

  lemma Alphabets(n: Sextet)
    ensures UrlValue(UrlSymbol(n)) == Some(n) && StandardValue(StandardSymbol(n)) == Some(n)
    ensures UrlSymbol(n) == ToUrl(StandardSymbol(n)) && StandardSymbol(n) == ToStandard(UrlSymbol(n))
    ensures Plain(UrlSymbol(n)) && StandardSymbol(n) != '=' && !AsciiWhitespace(StandardSymbol(n))
  {
  }

  /** Not a line break, not padding, not white space. */
  predicate Plain(c: char) {
    Letter(c) || c == '-' || c == '_'
  }

  /** The two replacements of the browser's encoder. */
  function ToUrl(c: char): char {
    if c == '+' then '-' else if c == '/' then '_' else c
  }

  function ToStandard(c: char): char {
    if c == '-' then '+' else if c == '_' then '/' else c
  }

  function Spelled(s: seq<Sextet>, symbol: Sextet -> char): (t: string)
    ensures |t| == |s|
  {
    seq(|s|, i requires 0 <= i < |s| => symbol(s[i]))
  }

  function Padding(length: nat): string {
    seq((4 - length % 4) % 4, _ => '=')
  }

  lemma PaddingOnly(length: nat)
    ensures |Padding(length)| < 4 && (length + |Padding(length)|) % 4 == 0
    ensures forall i | 0 <= i < |Padding(length)| :: Padding(length)[i] == '='
  {
  }

  /** What the agent's RawURLEncoding.EncodeToString returns. */
  function Encode(b: seq<Byte>): string {
    Spelled(Sextets(b), UrlSymbol)
  }

  // ---------- The browser's encoder ----------

  /** btoa: standard alphabet, padded to a multiple of four. */
  function Btoa(b: seq<Byte>): string {
    var text := Spelled(Sextets(b), StandardSymbol);
    text + Padding(|text|)
  }

  function Replaced(s: string): (t: string)
    ensures |t| == |s|
  {
    seq(|s|, i requires 0 <= i < |s| => ToUrl(s[i]))
  }

  /** replace(/=+$/u, ""). */
  function Stripped(s: string): string {
    if s != [] && s[|s| - 1] == '=' then Stripped(s[..|s| - 1]) else s
  }

  lemma {:induction false} StripsPadding(text: string, padding: string)
    requires text == [] || text[|text| - 1] != '='
    requires forall i | 0 <= i < |padding| :: padding[i] == '='
    ensures Stripped(text + padding) == text
  {
    if padding == [] {
      assert text + padding == text;
    } else {
      StripsPadding(text, padding[..|padding| - 1]);
      assert (text + padding)[..|text + padding| - 1] == text + padding[..|padding| - 1];
    }
  }

  lemma BtoaStripped(b: seq<Byte>)
    ensures Stripped(Replaced(Btoa(b))) == Encode(b)
  {
    var text := Spelled(Sextets(b), StandardSymbol);
    var padding := Padding(|text|);
    PaddingOnly(|text|);
    forall i | 0 <= i < |text| ensures ToUrl(text[i]) == Encode(b)[i] && Encode(b)[i] != '=' {
      Alphabets(Sextets(b)[i]);
    }
    assert Replaced(Btoa(b)) == Encode(b) + padding;
    StripsPadding(Encode(b), padding);
  }

  /** encodeBase64Url: the loop collects one character a byte for btoa. */
  method EncodeBase64Url(bytes: seq<Byte>) returns (text: string)
    ensures text == Encode(bytes)
  {
    var binary := "";
    for i := 0 to |bytes|
      invariant |binary| == i && forall j | 0 <= j < i :: binary[j] as int == bytes[j]
    {
      binary := binary + [bytes[i] as char];
    }
    var latin := seq(|binary|, i requires 0 <= i < |binary| && (binary[i] as int) < 256 => binary[i] as int as Byte);
    assert latin == bytes;
    BtoaStripped(bytes);
    text := Stripped(Replaced(Btoa(latin)));
  }

  // ---------- The agent's decoder ----------

  predicate LineBreak(c: char) {
    c == '\r' || c == '\n'
  }

  /** Go's base64 decoders skip line breaks. */
  function Unbroken(s: string): string {
    if s == [] then [] else if LineBreak(s[0]) then Unbroken(s[1..]) else [s[0]] + Unbroken(s[1..])
  }

  /** The values of all characters, or None when one is outside the alphabet. */
  function Values(s: string, value: char -> Option<Sextet>): Option<seq<Sextet>> {
    if s == [] then Some([])
    else
      var rest := Values(s[1..], value);
      if value(s[0]).Some? && rest.Some? then Some([value(s[0]).value] + rest.value) else None
  }

  /** RawURLEncoding.Strict().DecodeString: left-over bits must be zero. */
  function StrictDecoded(s: string): Option<seq<Byte>> {
    match Values(Unbroken(s), UrlValue)
    case None => None
    case Some(sextets) => if |sextets| % 4 == 1 || Rest(sextets) != 0 then None else Some(Bytes(sextets))
  }

  /** DecodeBase64; no size stands for the -1 of callers that take any. */
  function AgentDecode(text: string, size: Option<nat>): Option<seq<Byte>> {
    if text == "" || '=' in text then None
    else
      match StrictDecoded(text)
      case None => None
      case Some(bytes) =>
        if (size.Some? && |bytes| != size.value) || Encode(bytes) != text then None else Some(bytes)
  }

  // ---------- The browser's decoder ----------

  predicate AsciiWhitespace(c: char) {
    c == '\t' || c == '\n' || (c as int) == 12 || c == '\r' || c == ' '
  }

  function Unspaced(s: string): string {
    if s == [] then [] else if AsciiWhitespace(s[0]) then Unspaced(s[1..]) else [s[0]] + Unspaced(s[1..])
  }

  /** Up to two padding characters may end a string whose length is a multiple of four. */
  function Unpadded(s: string): string {
    if |s| % 4 != 0 || s == [] || s[|s| - 1] != '=' then s
    else if s[|s| - 2] == '=' then s[..|s| - 2] else s[..|s| - 1]
  }

  /** atob, the forgiving decoder: left-over bits are dropped. */
  function Atob(s: string): Option<seq<Byte>> {
    var text := Unpadded(Unspaced(s));
    if |text| % 4 == 1 then None
    else
      match Values(text, StandardValue)
      case None => None
      case Some(sextets) => Some(Bytes(sextets))
  }

  /** The two replacements of the browser's decoder. */
  function Restored(s: string): (t: string)
    ensures |t| == |s|
  {
    seq(|s|, i requires 0 <= i < |s| => ToStandard(s[i]))
  }

  /** decodeBase64Url. */
  function BrowserDecode(text: string, size: Option<nat>): Option<seq<Byte>> {
    if text == "" || (exists i :: 0 <= i < |text| && !Plain(text[i])) || '=' in text then None
    else
      match Atob(Restored(text) + Padding(|text|))
      case None => None
      case Some(bytes) =>
        if bytes == [] || (size.Some? && |bytes| != size.value) || Encode(bytes) != text then None else Some(bytes)
  }

  // ---------- Round trips ----------

  lemma {:induction false} UnbrokenPlain(s: string)
    requires forall i | 0 <= i < |s| :: Plain(s[i])
    ensures Unbroken(s) == s
  {
    if s != [] {
      UnbrokenPlain(s[1..]);
    }
  }

  lemma {:induction false} UnspacedPlain(s: string)
    requires forall i | 0 <= i < |s| :: !AsciiWhitespace(s[i])
    ensures Unspaced(s) == s
  {
    if s != [] {
      UnspacedPlain(s[1..]);
    }
  }

  lemma {:induction false} ValuesSpelled(s: seq<Sextet>, symbol: Sextet -> char, value: char -> Option<Sextet>)
    requires forall n: Sextet :: value(symbol(n)) == Some(n)
    ensures Values(Spelled(s, symbol), value) == Some(s)
  {
    if s != [] {
      ValuesSpelled(s[1..], symbol, value);
      assert Spelled(s, symbol)[1..] == Spelled(s[1..], symbol);
      assert s == [s[0]] + s[1..];
    }
  }

  lemma EncodePlain(b: seq<Byte>)
    ensures forall i | 0 <= i < |Encode(b)| ::
              Plain(Encode(b)[i]) && ToStandard(Encode(b)[i]) == Spelled(Sextets(b), StandardSymbol)[i]
    ensures '=' !in Encode(b) && (b != [] ==> Encode(b) != "")
  {
    forall i | 0 <= i < |Encode(b)|
      ensures Plain(Encode(b)[i]) && ToStandard(Encode(b)[i]) == Spelled(Sextets(b), StandardSymbol)[i]
    {
      Alphabets(Sextets(b)[i]);
    }
  }

  lemma StrictDecodesEncoded(b: seq<Byte>)
    ensures StrictDecoded(Encode(b)) == Some(b)
  {
    EncodePlain(b);
    UnbrokenPlain(Encode(b));
    forall n: Sextet ensures UrlValue(UrlSymbol(n)) == Some(n) { Alphabets(n); }
    ValuesSpelled(Sextets(b), UrlSymbol, UrlValue);
    BytesUndoSextets(b);
  }

  lemma UnpaddedText(text: string)
    requires |text| % 4 != 1 && forall i | 0 <= i < |text| :: text[i] != '='
    ensures Unpadded(text + Padding(|text|)) == text
  {
    PaddingOnly(|text|);
    assert (text + Padding(|text|))[..|text|] == text;
  }

  lemma AtobDecodesEncoded(b: seq<Byte>)
    ensures var text := Spelled(Sextets(b), StandardSymbol); Atob(text + Padding(|text|)) == Some(b)
  {
    hide Sextets;
    hide Bytes;
    hide Padding;
    hide Unpadded;
    hide StandardValue;
    hide AsciiWhitespace;
    var text := Spelled(Sextets(b), StandardSymbol);
    forall i | 0 <= i < |text| ensures text[i] != '=' && !AsciiWhitespace(text[i]) { Alphabets(Sextets(b)[i]); }
    PaddingOnly(|text|);
    NotSpace();
    UnspacedPlain(text + Padding(|text|));
    BytesUndoSextets(b);
    UnpaddedText(text);
    forall n: Sextet ensures StandardValue(StandardSymbol(n)) == Some(n) { Alphabets(n); }
    ValuesSpelled(Sextets(b), StandardSymbol, StandardValue);
  }

  lemma NotSpace()
    ensures !AsciiWhitespace('=')
  {
  }

  /** The agent accepts exactly the encodings of non-empty byte strings, and decodes each to its original. */
  lemma AgentDecodeExact(text: string, size: Option<nat>, b: seq<Byte>)
    ensures AgentDecode(text, size) == Some(b) <==> b != [] && text == Encode(b) && (size.Some? ==> |b| == size.value)
  {
    if b != [] && text == Encode(b) {
      EncodePlain(b);
      StrictDecodesEncoded(b);
    }
  }

  /** So does the browser. */
  lemma BrowserDecodeExact(text: string, size: Option<nat>, b: seq<Byte>)
    ensures BrowserDecode(text, size) == Some(b) <==> b != [] && text == Encode(b) && (size.Some? ==> |b| == size.value)
  {
    hide Atob;
    hide Plain;
    hide Padding;
    hide Encode;
    if b != [] && text == Encode(b) {
      EncodePlain(b);
      AtobDecodesEncoded(b);
      RestoresStandard(b);
    }
  }

  lemma RestoresStandard(b: seq<Byte>)
    ensures Restored(Encode(b)) == Spelled(Sextets(b), StandardSymbol)
  {
    EncodePlain(b);
  }

  /** The two decoders agree on every string and every expected size. */
  lemma DecodersAgree(text: string, size: Option<nat>)
    ensures AgentDecode(text, size) == BrowserDecode(text, size)
  {
    match AgentDecode(text, size) {
      case Some(b) =>
        AgentDecodeExact(text, size, b);
        BrowserDecodeExact(text, size, b);
      case None =>
        match BrowserDecode(text, size) {
          case Some(b) =>
            BrowserDecodeExact(text, size, b);
            AgentDecodeExact(text, size, b);
          case None =>
        }
    }
  }
}
