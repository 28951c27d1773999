/** The card scanner's byte-stream framer and its two card classifiers
    (devices/card-scanner.js). */
module Scanner {
  import opened Wrappers
  import opened Strings

  newtype byte = x: int | 0 <= x < 256

  const CR: byte := 13
  const LF: byte := 10

  predicate IsTerminator(b: byte) { b == CR || b == LF }

  /** The printable ASCII range 0x20..0x7E that `/[\x20-\x7E]/` accepts. */
  predicate IsPrintable(b: byte) { 0x20 <= b <= 0x7E }

  /** Text made only of printable ASCII characters. */
  predicate PrintableText(s: string) {
    forall i :: 0 <= i < |s| ==> ' ' <= s[i] <= '~'
  }

  // ---------------------------------------------------------------------------
  // Framing

  /** One pass of the `data` handler's loop body: the buffer after byte `b`,
      and the trimmed token it completes, if any. */
  function Step(buffer: string, b: byte): (r: (string, Option<string>))
    ensures PrintableText(buffer) ==> PrintableText(r.0)
  {
    if b == 0 then (buffer, None)
    else if IsTerminator(b) then
      if |buffer| > 0 then ("", Some(Trim(buffer))) else (buffer, None)
    else if IsPrintable(b) then (buffer + [b as char], None)
    else (buffer, None)
  }

  /** The framer's state after a chunk: the buffer, and the tokens completed
      along the way, in order. */
  datatype Framed = Framed(buffer: string, tokens: seq<string>)

  /** The state after feeding a whole chunk to a framer holding `buffer`: at
      most one token per byte, and a printable buffer stays printable. */
  function Feed(buffer: string, data: seq<byte>): (r: Framed)
    ensures |r.tokens| <= |data|
    ensures PrintableText(buffer) ==> PrintableText(r.buffer)
    decreases |data|
  {
    if data == [] then Framed(buffer, [])
    else
      var prev := Feed(buffer, data[..|data| - 1]);
      var step := Step(prev.buffer, data[|data| - 1]);
      Framed(step.0, prev.tokens + OptionToSeq(step.1))
  }

  /** Feeding one more byte is one more step. */
  lemma FeedSnoc(buffer: string, data: seq<byte>, b: byte)
    ensures var prev := Feed(buffer, data);
            var step := Step(prev.buffer, b);
            Feed(buffer, data + [b]) == Framed(step.0, prev.tokens + OptionToSeq(step.1))
  {
    assert (data + [b])[..|data|] == data;
  }

  /** The printable characters of a chunk, in order: an independent statement
      of what the framer accumulates between terminators. */
  function Printables(data: seq<byte>): (s: string)
    ensures PrintableText(s) && |s| <= |data|
  {
    if data == [] then ""
    else (if IsPrintable(data[0]) then [data[0] as char] else []) + Printables(data[1..])
  }

  lemma PrintablesAppend(data: seq<byte>, b: byte)
    ensures Printables(data + [b]) == Printables(data) + (if IsPrintable(b) then [b as char] else [])
  {
    if data != [] {
      assert (data + [b])[1..] == data[1..] + [b];
    }
  }

  /** A zero byte neither changes the buffer nor ends a token. */
  lemma ZeroByteSkipped(buffer: string)
    ensures Step(buffer, 0) == (buffer, None)
  {
  }

  /** CR or LF ends the token: a non-empty buffer yields exactly its trimmed
      text and is reset; an empty buffer yields nothing. */
  lemma TerminatorEndsToken(buffer: string, b: byte)
    requires IsTerminator(b)
    ensures buffer != "" ==> Step(buffer, b) == ("", Some(Trim(buffer)))
    ensures buffer == "" ==> Step(buffer, b) == ("", None)
  {
  }

  /** Every other byte is appended when printable and dropped otherwise,
      and never ends a token. */
  lemma OtherByteAccumulates(buffer: string, b: byte)
    requires !IsTerminator(b)
    ensures Step(buffer, b) == (buffer + (if IsPrintable(b) then [b as char] else []), None)
  {
    assert buffer + [] == buffer;
  }

  /** Every token is handed on already trimmed: `processCardData` receives
      `cardBuffer.trim()`. */
  lemma {:induction false} FeedTokensTrimmed(buffer: string, data: seq<byte>)
    ensures forall t :: t in Feed(buffer, data).tokens ==> Trim(t) == t
    decreases |data|
  {
    if data != [] {
      var prev := Feed(buffer, data[..|data| - 1]);
      var step := Step(prev.buffer, data[|data| - 1]);
      FeedTokensTrimmed(buffer, data[..|data| - 1]);
      if step.1.Some? {
        var token := Trim(prev.buffer);
        assert step.1.value == token;
        TrimIsTrimmed(prev.buffer);
        TrimIdentity(token);
      }
      assert Feed(buffer, data).tokens == prev.tokens + OptionToSeq(step.1);
    }
  }

  /** Feeding two chunks one after the other is feeding their concatenation:
      the buffer carries a token split across chunks, which is emitted once and whole. */
  lemma {:induction false} FeedConcat(buffer: string, a: seq<byte>, b: seq<byte>)
    ensures var first := Feed(buffer, a);
            var second := Feed(first.buffer, b);
            Feed(buffer, a + b) == Framed(second.buffer, first.tokens + second.tokens)
    decreases |b|
  {
    if b == [] {
      assert a + b == a;
    } else {
      var b' := b[..|b| - 1];
      var last := b[|b| - 1];
      assert a + b == (a + b') + [last];
      assert b' + [last] == b;
      var first := Feed(buffer, a);
      var mid := Feed(first.buffer, b');
      var step := Step(mid.buffer, last);
      var tail := OptionToSeq(step.1);
      assert (first.tokens + mid.tokens) + tail == first.tokens + (mid.tokens + tail);
      FeedConcat(buffer, a, b');
      FeedSnoc(buffer, a + b', last);
      FeedSnoc(first.buffer, b', last);
    }
  }

  /** Between terminators the framer only appends the printable bytes. */
  lemma {:induction false} FeedWithoutTerminator(buffer: string, data: seq<byte>)
    requires forall i :: 0 <= i < |data| ==> !IsTerminator(data[i])
    ensures Feed(buffer, data) == Framed(buffer + Printables(data), [])
    decreases |data|
  {
    if data != [] {
      var init := data[..|data| - 1];
      var last := data[|data| - 1];
      FeedWithoutTerminator(buffer, init);
      PrintablesAppend(init, last);
      assert init + [last] == data;
      FeedSnoc(buffer, init, last);
    }
  }

  /** A line: the bytes up to and including one terminator produce at most one
      token, the trimmed printable text since the last terminator, and leave the
      buffer empty. */
  lemma FeedLine(buffer: string, body: seq<byte>, t: byte)
    requires forall i :: 0 <= i < |body| ==> !IsTerminator(body[i])
    requires IsTerminator(t)
    ensures var text := buffer + Printables(body);
            Feed(buffer, body + [t]) == Framed("", if text == "" then [] else [Trim(text)])
  {
    FeedWithoutTerminator(buffer, body);
    FeedSnoc(buffer, body, t);
  }

  /** The bytes of a printable ASCII text, as the device sends them. */
  function Bytes(s: string): (data: seq<byte>)
    requires PrintableText(s)
    ensures |data| == |s|
    ensures forall i :: 0 <= i < |s| ==> IsPrintable(data[i]) && data[i] as char == s[i]
  {
    seq(|s|, i requires 0 <= i < |s| => s[i] as int as byte)
  }

  lemma {:induction false} PrintablesOfBytes(s: string)
    requires PrintableText(s)
    ensures Printables(Bytes(s)) == s
    decreases |s|
  {
    if s != [] {
      PrintablesOfBytes(s[1..]);
      assert Bytes(s)[1..] == Bytes(s[1..]);
    }
  }

  /** A printable text followed by CR, fed to an empty framer, yields exactly one
      token, the trimmed text, when the text is non-empty. */
  lemma ScanLine(s: string)
    requires PrintableText(s) && s != ""
    ensures Feed("", Bytes(s) + [CR]) == Framed("", [Trim(s)])
  {
    PrintablesOfBytes(s);
    FeedLine("", Bytes(s), CR);
    assert "" + s == s;
  }

  /** A card read delivered in two chunks, the second ending in CR, is emitted
      once and whole: as the trimmed concatenation of the two texts. */
  lemma SplitRead(a: string, b: string)
    requires PrintableText(a) && PrintableText(b) && a + b != ""
    ensures Feed("", Bytes(a) + (Bytes(b) + [CR])) == Framed("", [Trim(a + b)])
  {
    var first, second := Bytes(a), Bytes(b) + [CR];
    assert Feed("", first) == Framed(a, []) by {
      FeedWithoutTerminator("", first);
      PrintablesOfBytes(a);
      assert "" + a == a;
    }
    assert Feed(a, second) == Framed("", [Trim(a + b)]) by {
      PrintablesOfBytes(b);
      FeedLine(a, Bytes(b), CR);
    }
    FeedConcat("", first, second);
  }

  /** A whitespace-only text trims to the empty string. */
  lemma {:induction false} TrimSpaces(s: string)
    requires forall i :: 0 <= i < |s| ==> s[i] == ' '
    ensures Trim(s) == ""
  {
  }

  /** The emptiness test comes before trimming: a buffer holding only spaces
      still emits a token, the empty string, whose record has id `""` and format
      unknown. */
  lemma SpacesOnlyBuffer(buffer: string, timestamp: string)
    requires buffer != [] && forall i :: 0 <= i < |buffer| ==> buffer[i] == ' '
    ensures Step(buffer, CR) == ("", Some(""))
    ensures CardRecord("", timestamp) == CardRead("", "", Unknown, timestamp)
  {
    TrimSpaces(buffer);
  }

  // ---------------------------------------------------------------------------
  // Classification

  predicate IsDigit(c: char) { '0' <= c <= '9' }
  predicate IsHexDigit(c: char) { IsDigit(c) || 'A' <= c <= 'F' || 'a' <= c <= 'f' }

  /** `/^\d+$/` */
  predicate AllDigits(s: string) {
    |s| > 0 && forall i :: 0 <= i < |s| ==> IsDigit(s[i])
  }

  /** `/^[0-9A-F]+$/i` */
  predicate AllHex(s: string) {
    |s| > 0 && forall i :: 0 <= i < |s| ==> IsHexDigit(s[i])
  }

  /** The number of leading `A`..`Z` letters. */
  function LeadingUpper(s: string): (n: nat)
    ensures n <= |s|
    ensures forall i :: 0 <= i < n ==> IsAsciiUpper(s[i])
    ensures n < |s| ==> !IsAsciiUpper(s[n])
  {
    if s != [] && IsAsciiUpper(s[0]) then 1 + LeadingUpper(s[1..]) else 0
  }

  /** `/^[A-Z]+\d+$/`: letters and digits are disjoint, so the greedy letter run
      decides where the digits must start. */
  predicate IsPrefixedNumeric(s: string) {
    var n := LeadingUpper(s);
    0 < n && AllDigits(s[n..])
  }

  /** The capture group of `/^[A-Z]+(\d+)$/`. */
  function DigitGroup(s: string): (d: string)
    requires IsPrefixedNumeric(s)
    ensures AllDigits(d) && |d| < |s|
    ensures s == s[..|s| - |d|] + d
    ensures |s| - |d| > 0 && forall i :: 0 <= i < |s| - |d| ==> IsAsciiUpper(s[i])
  {
    s[LeadingUpper(s)..]
  }

  /** A split of `s` into a non-empty upper-case run and a non-empty digit run
      is exactly what `/^[A-Z]+\d+$/` matches. */
  lemma PrefixedNumericSplit(s: string, k: nat)
    requires 0 < k < |s|
    requires forall i :: 0 <= i < k ==> IsAsciiUpper(s[i])
    requires AllDigits(s[k..])
    ensures IsPrefixedNumeric(s) && DigitGroup(s) == s[k..]
  {
    assert IsDigit(s[k..][0]);
    LeadingUpperIs(s, k);
  }

  lemma {:induction false} LeadingUpperIs(s: string, k: nat)
    requires k <= |s|
    requires forall i :: 0 <= i < k ==> IsAsciiUpper(s[i])
    requires k == |s| || !IsAsciiUpper(s[k])
    ensures LeadingUpper(s) == k
  {
    if k > 0 {
      LeadingUpperIs(s[1..], k - 1);
    }
  }

  /** `extractCardId`: the digit group of a prefixed id, an all-digit id as is,
      a hex id in lower case, anything else unchanged. */
  function ExtractCardId(raw: string): (id: string)
    ensures |id| <= |raw|
    ensures IsPrefixedNumeric(raw) ==> id == DigitGroup(raw) && AllDigits(id) && raw == raw[..|raw| - |id|] + id
    ensures AllDigits(raw) ==> id == raw
    ensures !IsPrefixedNumeric(raw) && !AllHex(raw) ==> id == raw
  {
    if IsPrefixedNumeric(raw) then DigitGroup(raw)
    else if AllDigits(raw) then raw
    else if AllHex(raw) then AsciiLower(raw)
    else raw
  }

  datatype CardFormat = Numeric | Hex | PrefixedNumeric | Unknown {
    /** The string put in the `format` field. */
    function Name(): string {
      match this
      case Numeric => "numeric"
      case Hex => "hex"
      case PrefixedNumeric => "prefixed_numeric"
      case Unknown => "unknown"
    }
  }

  /** `detectCardFormat`: numeric, then hex, then prefixed, then unknown. */
  function DetectCardFormat(raw: string): (f: CardFormat)
    ensures f == Numeric <==> AllDigits(raw)
    ensures f == Hex <==> AllHex(raw) && !AllDigits(raw)
    ensures f == PrefixedNumeric <==> IsPrefixedNumeric(raw) && !AllHex(raw)
    ensures f == Unknown <==> !AllHex(raw) && !IsPrefixedNumeric(raw)
  {
    if AllDigits(raw) then Numeric
    else if AllHex(raw) then Hex
    else if IsPrefixedNumeric(raw) then PrefixedNumeric
    else Unknown
  }

  /** The record passed to `cardScanned` subscribers; the clock reading is a parameter. */
  datatype CardRead = CardRead(rawData: string, cardId: string, format: CardFormat, timestamp: string)

  function CardRecord(raw: string, timestamp: string): (c: CardRead)
    ensures c.rawData == raw && c.timestamp == timestamp
    ensures |c.cardId| <= |raw|
    ensures c.format == Unknown ==> c.cardId == raw
  {
    CardRead(raw, ExtractCardId(raw), DetectCardFormat(raw), timestamp)
  }

  /** The records for a chunk's tokens, in order. */
  function Records(tokens: seq<string>, timestamp: string): (rs: seq<CardRead>)
    ensures |rs| == |tokens|
    ensures forall i :: 0 <= i < |tokens| ==> rs[i] == CardRecord(tokens[i], timestamp)
  {
    seq(|tokens|, i requires 0 <= i < |tokens| => CardRecord(tokens[i], timestamp))
  }

  lemma RecordsAppend(a: seq<string>, b: seq<string>, timestamp: string)
    ensures Records(a + b, timestamp) == Records(a, timestamp) + Records(b, timestamp)
  {
  }

  /** What the two classifiers say about the same token, case by case: where the
      format is hex the id may still be a prefixed id's digit group, because
      `extractCardId` tests the prefix rule first and `detectCardFormat` last. */
  lemma ClassifiersAgree(raw: string)
    ensures DetectCardFormat(raw) == Numeric ==> ExtractCardId(raw) == raw
    ensures DetectCardFormat(raw) == PrefixedNumeric ==>
      ExtractCardId(raw) == DigitGroup(raw) && |ExtractCardId(raw)| < |raw|
    ensures DetectCardFormat(raw) == Unknown ==> ExtractCardId(raw) == raw
    ensures DetectCardFormat(raw) == Hex ==>
      if IsPrefixedNumeric(raw) then ExtractCardId(raw) == DigitGroup(raw)
      else ExtractCardId(raw) == AsciiLower(raw)
  {
    if AllDigits(raw) {
      assert !IsAsciiUpper(raw[0]);
      assert LeadingUpper(raw) == 0;
    }
  }

  /** The token is classified hex but its id is a digit group exactly when it is
      a run of `A`..`F` followed by a run of digits. */
  lemma HexFormatWithPrefixedId(raw: string)
    ensures (DetectCardFormat(raw) == Hex && IsPrefixedNumeric(raw)) <==>
      (IsPrefixedNumeric(raw) && forall i :: 0 <= i < LeadingUpper(raw) ==> 'A' <= raw[i] <= 'F')
  {
    if IsPrefixedNumeric(raw) {
      var n := LeadingUpper(raw);
      assert !AllDigits(raw) by { assert !IsDigit(raw[0]); }
      if forall i :: 0 <= i < n ==> 'A' <= raw[i] <= 'F' {
        forall i | 0 <= i < |raw| ensures IsHexDigit(raw[i]) {
          if i >= n { assert raw[n..][i - n] == raw[i]; }
        }
      } else {
        var i :| 0 <= i < n && !('A' <= raw[i] <= 'F');
        assert !IsHexDigit(raw[i]);
      }
    }
  }

  /** `"CARD123456"` is a prefixed id: format prefixed_numeric, id its digits. */
  lemma PrefixedExample()
    ensures CardRecord("CARD123456", "t") == CardRead("CARD123456", "123456", PrefixedNumeric, "t")
  {
    var s := "CARD123456";
    PrefixedNumericSplit(s, 4);
    assert s[4..] == "123456";
    assert DetectCardFormat(s) == PrefixedNumeric by {
      assert !IsDigit(s[0]);
      assert !IsHexDigit(s[2]);
    }
  }

  /** An all-digit token, such as `"4001234567"`, is numeric and is its own id. */
  lemma NumericExample(s: string, t: string)
    requires AllDigits(s)
    ensures CardRecord(s, t) == CardRead(s, s, Numeric, t)
  {
    assert !IsAsciiUpper(s[0]);
  }

  /** `"1A2B3C"` is hex; its id is the lower-cased token. */
  lemma HexExample()
    ensures CardRecord("1A2B3C", "t") == CardRead("1A2B3C", "1a2b3c", Hex, "t")
  {
    var s := "1A2B3C";
    assert !IsAsciiUpper(s[0]);
    assert !IsDigit(s[1]);
    assert AllHex(s);
    assert AsciiLower(s) == "1a2b3c";
  }

  /** `"ABC123"`: the id takes the prefix rule ("123") while the format is hex. */
  lemma DisagreementExample()
    ensures CardRecord("ABC123", "t") == CardRead("ABC123", "123", Hex, "t")
  {
    var s := "ABC123";
    PrefixedNumericSplit(s, 3);
    assert s[3..] == "123";
    assert DetectCardFormat(s) == Hex by {
      assert !IsDigit(s[0]);
      assert AllHex(s);
    }
  }

  // ---------------------------------------------------------------------------
  // The device object

  /** The framer state and the records after one more byte of a chunk. */
  lemma FeedNext(buffer: string, data: seq<byte>, i: nat, now: string)
    requires i < |data|
    ensures var prev := Feed(buffer, data[..i]);
            var step := Step(prev.buffer, data[i]);
            && Feed(buffer, data[..i + 1]).buffer == step.0
            && Records(Feed(buffer, data[..i + 1]).tokens, now) ==
               Records(prev.tokens, now) + Records(OptionToSeq(step.1), now)
  {
    var prev := Feed(buffer, data[..i]);
    var step := Step(prev.buffer, data[i]);
    FeedSnoc(buffer, data[..i], data[i]);
    assert data[..i + 1] == data[..i] + [data[i]];
    RecordsAppend(prev.tokens, OptionToSeq(step.1), now);
  }

  class CardScanner {
    /** Printable text received since the last terminator. */
    var cardBuffer: string
    /** Every `cardScanned` event emitted so far, oldest first. */
    var scanned: seq<CardRead>

    ghost predicate Valid()
      reads this
    {
      PrintableText(cardBuffer)
    }

    constructor ()
      ensures Valid() && cardBuffer == "" && scanned == []
    {
      cardBuffer := "";
      scanned := [];
    }

    /** One byte of the `data` handler's loop. */
    method Consume(b: byte, now: string)
      requires Valid()
      modifies this
      ensures Valid()
      ensures cardBuffer == Step(old(cardBuffer), b).0
      ensures scanned == old(scanned) + Records(OptionToSeq(Step(old(cardBuffer), b).1), now)
    {
      if b == 0 {
        assert scanned + Records([], now) == scanned;
        return;
      }
      if b == CR || b == LF {
        if |cardBuffer| > 0 {
          var token := Trim(cardBuffer);
          assert Records([token], now) == [CardRecord(token, now)];
          scanned := scanned + [CardRecord(token, now)];
          cardBuffer := "";
          return;
        }
      } else if 0x20 <= b <= 0x7E {
        cardBuffer := cardBuffer + [b as char];
      }
      assert scanned + Records([], now) == scanned;
    }

    /** The `data` handler: one chunk of bytes from the device. Every record of
        the chunk carries the clock reading `now`. */
    method OnData(data: seq<byte>, now: string)
      requires Valid()
      modifies this
      ensures Valid()
      ensures cardBuffer == Feed(old(cardBuffer), data).buffer
      ensures scanned == old(scanned) + Records(Feed(old(cardBuffer), data).tokens, now)
    {
      ghost var start := cardBuffer;
      ghost var before := scanned;
      for i := 0 to |data|
        invariant Valid()
        invariant cardBuffer == Feed(start, data[..i]).buffer
        invariant scanned == before + Records(Feed(start, data[..i]).tokens, now)
      {
        FeedNext(start, data, i, now);
        Consume(data[i], now);
      }
      assert data[..|data|] == data;
    }
  }
}
