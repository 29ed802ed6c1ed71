/**
 * The page token codec (app/internal/service/lib.go): two integers as a JSON object, in
 * base64 with the URL-safe alphabet and padding (section 5 of RFC 4648).
 */
module PageTokens {
  import opened Wrappers
  import opened Capacities

  newtype Byte = x: int | 0 <= x < 256

  newtype Sextet = x: int | 0 <= x < 64

  const MIN_INT64 := -0x8000_0000_0000_0000

  datatype PageToken = PageToken(limit: int, offset: int)

  predicate IsInt64(n: int) {
    MIN_INT64 <= n <= MAX_INT64
  }

  // -- Decimal integers -----------------------------------------------------------------

  predicate IsDigit(c: char) {
    '0' <= c <= '9'
  }

  function Digit(n: nat): (c: char)
    requires n < 10
    ensures IsDigit(c)
  {
    '0' + n as char
  }

  function Decimal(n: nat): (s: string)
    ensures s != "" && forall i :: 0 <= i < |s| ==> IsDigit(s[i])
    ensures s[0] == '0' ==> n == 0 && s == "0"
  {
    if n < 10 then [Digit(n)] else Decimal(n / 10) + [Digit(n % 10)]
  }

  function ShowInt(n: int): string {
    if n < 0 then "-" + Decimal(-n) else Decimal(n)
  }

  /** The number a run of digits stands for. */
  function ValueOf(s: string): nat
    requires forall i :: 0 <= i < |s| ==> IsDigit(s[i])
  {
    if s == "" then 0
    else
      assert IsDigit(s[|s| - 1]);
      10 * ValueOf(s[..|s| - 1]) + (s[|s| - 1] as int - '0' as int)
  }

  /** How many digits a text starts with. */
  function DigitCount(s: string): (n: nat)
    ensures n <= |s| && forall i :: 0 <= i < n ==> IsDigit(s[i])
    ensures n < |s| ==> !IsDigit(s[n])
  {
    if s == "" || !IsDigit(s[0]) then 0 else 1 + DigitCount(s[1..])
  }

  datatype Parsed = Parsed(value: int, rest: string)

  /** Digits in front of a text, without leading zeros. */
  function ReadDigits(s: string): Option<Parsed> {
    var n := DigitCount(s);
    if n == 0 || (n > 1 && s[0] == '0') then None else Some(Parsed(ValueOf(s[..n]), s[n..]))
  }

  /** A JSON integer in front of a text, if it fits an int64. */
  function ReadInt(s: string): Option<Parsed> {
    var negative := s != "" && s[0] == '-';
    var digits := ReadDigits(if negative then s[1..] else s);
    if digits.None? then None
    else
      var value := if negative then -digits.value.value else digits.value.value;
      if IsInt64(value) then Some(Parsed(value, digits.value.rest)) else None
  }

  lemma {:induction false} ValueOfDecimal(n: nat)
    ensures ValueOf(Decimal(n)) == n
  {
    if n >= 10 {
      ValueOfDecimal(n / 10);
      var s := Decimal(n);
      assert s[..|s| - 1] == Decimal(n / 10);
    } else {
      assert Decimal(n)[..0] == "";
    }
  }

  lemma {:induction false} DigitsEnd(digits: string, rest: string)
    requires forall i :: 0 <= i < |digits| ==> IsDigit(digits[i])
    requires rest != "" && !IsDigit(rest[0])
    ensures DigitCount(digits + rest) == |digits|
  {
    if digits == "" {
      assert digits + rest == rest;
    } else {
      assert (digits + rest)[1..] == digits[1..] + rest;
      DigitsEnd(digits[1..], rest);
    }
  }

  lemma ReadDecimal(n: nat, rest: string)
    requires rest != "" && !IsDigit(rest[0])
    ensures ReadDigits(Decimal(n) + rest) == Some(Parsed(n, rest))
  {
    hide ValueOf, DigitCount;
    var digits, text := Decimal(n), Decimal(n) + rest;
    ValueOfDecimal(n);
    DigitsEnd(digits, rest);
    assert text[..|digits|] == digits && text[|digits|..] == rest && text[0] == digits[0];
    hide Decimal;
  }

  /** Reading an integer that was shown gives it back, and leaves what follows. */
  lemma ReadShown(n: int, rest: string)
    requires IsInt64(n) && rest != "" && !IsDigit(rest[0])
    ensures ReadInt(ShowInt(n) + rest) == Some(Parsed(n, rest))
  {
    hide Decimal, ReadDigits;
    var magnitude: nat := if n < 0 then -n else n;
    var text, s := Decimal(magnitude) + rest, ShowInt(n) + rest;
    ReadDecimal(magnitude, rest);
    if n < 0 {
      assert s[0] == '-' && s[1..] == text;
    } else {
      assert s == text && s[0] == Decimal(magnitude)[0] && IsDigit(s[0]);
    }
  }

  // -- The JSON object ------------------------------------------------------------------

  const LIMIT_KEY := "{\"limit\":"
  const OFFSET_KEY := ",\"offset\":"

  function ShowToken(t: PageToken): string {
    LIMIT_KEY + (ShowInt(t.limit) + (OFFSET_KEY + (ShowInt(t.offset) + "}")))
  }

  /** Only the form the server issues is read; other JSON spellings are not modelled. */
  function ReadToken(s: string): Option<PageToken> {
    if !(LIMIT_KEY <= s) then None
    else
      var limit := ReadInt(s[|LIMIT_KEY|..]);
      if limit.None? || !(OFFSET_KEY <= limit.value.rest) then None
      else
        var offset := ReadInt(limit.value.rest[|OFFSET_KEY|..]);
        if offset.None? || offset.value.rest != "}" then None
        else Some(PageToken(limit.value.value, offset.value.value))
  }

  lemma ShownTokens()
    ensures ShowToken(PageToken(25, 0)) == "{\"limit\":25,\"offset\":0}"
    ensures ShowToken(PageToken(9, -1)) == "{\"limit\":9,\"offset\":-1}"
  {
    assert Decimal(25) == Decimal(2) + "5";
  }

  lemma ReadShownToken(t: PageToken)
    requires IsInt64(t.limit) && IsInt64(t.offset)
    ensures ReadToken(ShowToken(t)) == Some(t)
  {
    var tail := ShowInt(t.offset) + "}";
    var rest := OFFSET_KEY + tail;
    ReadShown(t.limit, rest);
    ReadShown(t.offset, "}");
    assert ShowToken(t)[|LIMIT_KEY|..] == ShowInt(t.limit) + rest;
    assert rest[|OFFSET_KEY|..] == tail;
    hide ReadInt, ShowInt;
  }

  // -- Base64 ---------------------------------------------------------------------------

  function Letter(x: Sextet): char {
    if x < 26 then 'A' + x as char
    else if x < 52 then 'a' + (x - 26) as char
    else if x < 62 then '0' + (x - 52) as char
    else if x == 62 then '-'
    else '_'
  }

  function SextetOf(c: char): Option<Sextet> {
    if 'A' <= c <= 'Z' then Some((c - 'A') as Sextet)
    else if 'a' <= c <= 'z' then Some((c - 'a') as Sextet + 26)
    else if '0' <= c <= '9' then Some((c - '0') as Sextet + 52)
    else if c == '-' then Some(62)
    else if c == '_' then Some(63)
    else None
  }

  lemma LetterRoundTrip(x: Sextet)
    ensures SextetOf(Letter(x)) == Some(x) && Letter(x) != '=' && Letter(x) != '\n' && Letter(x) != '\r'
  {
  }

  /** The letters are those of table 2 in section 5 of RFC 4648, and each stands for one sextet. */
  lemma LettersAreUrlSafe(c: char)
    ensures SextetOf(c).Some? <==> 'A' <= c <= 'Z' || 'a' <= c <= 'z' || '0' <= c <= '9' || c in "-_"
    ensures SextetOf(c).Some? ==> Letter(SextetOf(c).value) == c
  {
  }

  // The four sextets of three bytes.

  function First(a: Byte): Sextet {
    (a as int / 4) as Sextet
  }

  function Second(a: Byte, b: Byte): Sextet {
    (a as int % 4 * 16 + b as int / 16) as Sextet
  }

  function Third(b: Byte, c: Byte): Sextet {
    (b as int % 16 * 4 + c as int / 64) as Sextet
  }

  function Fourth(c: Byte): Sextet {
    (c as int % 64) as Sextet
  }

  /** Three bytes in four letters; one or two bytes leave padding. */
  function Encode(bytes: seq<Byte>): string {
    if bytes == [] then ""
    else if |bytes| == 1 then [Letter(First(bytes[0])), Letter(Second(bytes[0], 0)), '=', '=']
    else if |bytes| == 2 then
      [Letter(First(bytes[0])), Letter(Second(bytes[0], bytes[1])), Letter(Third(bytes[1], 0)), '=']
    else
      [Letter(First(bytes[0])), Letter(Second(bytes[0], bytes[1])), Letter(Third(bytes[1], bytes[2])),
       Letter(Fourth(bytes[2]))]
      + Encode(bytes[3..])
  }

  /** The four sextets of a group are its bits, from the highest. */
  lemma GroupBits(a: Byte, b: Byte, c: Byte)
    ensures First(a) as int * 262144 + Second(a, b) as int * 4096 + Third(b, c) as int * 64 + Fourth(c) as int
         == a as int * 65536 + b as int * 256 + c as int
  {
  }

  /** The examples of section 10 of RFC 4648. */
  lemma StandardExamples()
    ensures Encode([102]) == "Zg==" && Encode([102, 111]) == "Zm8=" && Encode([102, 111, 111]) == "Zm9v"
    ensures Encode([102, 111, 111, 98]) == "Zm9vYg==" && Encode([102, 111, 111, 98, 97]) == "Zm9vYmE="
    ensures Encode([102, 111, 111, 98, 97, 114]) == "Zm9vYmFy"
  {
    assert [102, 111, 111, 98][3..] == [98] && [102, 111, 111, 98, 97][3..] == [98, 97];
    assert [102, 111, 111, 98, 97, 114][3..] == [98, 97, 114];
  }

  function Unwrapped(s: string): string {
    if s == "" then ""
    else if s[0] == '\n' || s[0] == '\r' then Unwrapped(s[1..])
    else [s[0]] + Unwrapped(s[1..])
  }

  function Two(a: Sextet, b: Sextet): seq<Byte> {
    [(a as int * 4 + b as int / 16) as Byte]
  }

  function Three(a: Sextet, b: Sextet, c: Sextet): seq<Byte> {
    Two(a, b) + [(b as int % 16 * 16 + c as int / 4) as Byte]
  }

  function Four(a: Sextet, b: Sextet, c: Sextet, d: Sextet): seq<Byte> {
    Three(a, b, c) + [(c as int % 4 * 64 + d as int) as Byte]
  }

  /** Groups of four letters; only the last group may be padded, and spare bits are ignored. */
  function DecodeGroups(s: string): Option<seq<Byte>> {
    if s == "" then Some([])
    else if |s| < 4 then None
    else
      var a, b, c, d := SextetOf(s[0]), SextetOf(s[1]), SextetOf(s[2]), SextetOf(s[3]);
      if a.None? || b.None? then None
      else if |s| == 4 && s[2] == '=' && s[3] == '=' then Some(Two(a.value, b.value))
      else if c.None? then None
      else if |s| == 4 && s[3] == '=' then Some(Three(a.value, b.value, c.value))
      else if d.None? then None
      else
        var rest := DecodeGroups(s[4..]);
        if rest.None? then None else Some(Four(a.value, b.value, c.value, d.value) + rest.value)
  }

  /** Line breaks are skipped, as Go's decoder does. */
  function Decode(s: string): Option<seq<Byte>> {
    DecodeGroups(Unwrapped(s))
  }

  /** Three bytes take four letters, and so does what is left of fewer. */
  lemma {:induction false} EncodedLength(bytes: seq<Byte>)
    ensures |Encode(bytes)| == (|bytes| + 2) / 3 * 4
  {
    hide First, Second, Third, Fourth, Letter;
    if |bytes| >= 3 {
      EncodedLength(bytes[3..]);
    }
  }

  predicate Unbroken(s: string) {
    forall i :: 0 <= i < |s| ==> s[i] != '\n' && s[i] != '\r'
  }

  lemma {:induction false} UnwrappedIsSame(s: string)
    requires Unbroken(s)
    ensures Unwrapped(s) == s
  {
    if s != "" {
      UnwrappedIsSame(s[1..]);
    }
  }

  lemma {:induction false} EncodeUnbroken(bytes: seq<Byte>)
    ensures Unbroken(Encode(bytes)) && (bytes != [] ==> Encode(bytes) != "")
  {
    if |bytes| >= 3 {
      EncodeUnbroken(bytes[3..]);
    }
  }

  lemma Glue4(x: int, y: int)
    requires 0 <= y < 4
    ensures (x * 4 + y) / 4 == x && (x * 4 + y) % 4 == y
  {
  }

  lemma Glue16(x: int, y: int)
    requires 0 <= y < 16
    ensures (x * 16 + y) / 16 == x && (x * 16 + y) % 16 == y
  {
  }

  /** The sextets hold the bytes. */
  lemma SextetsHoldBytes(a: Byte, b: Byte, c: Byte)
    ensures Four(First(a), Second(a, b), Third(b, c), Fourth(c)) == [a, b, c]
    ensures Three(First(a), Second(a, b), Third(b, 0)) == [a, b]
    ensures Two(First(a), Second(a, 0)) == [a]
  {
    hide First, Second, Third, Fourth;
    FirstByte(a, b);
    FirstByte(a, 0);
    SecondByte(a, b, c);
    SecondByte(a, b, 0);
    ThirdByte(b, c);
  }

  lemma FirstByte(a: Byte, b: Byte)
    ensures First(a) as int * 4 + Second(a, b) as int / 16 == a as int
  {
    Glue16(a as int % 4, b as int / 16);
  }

  lemma SecondByte(a: Byte, b: Byte, c: Byte)
    ensures Second(a, b) as int % 16 * 16 + Third(b, c) as int / 4 == b as int
  {
    Glue16(a as int % 4, b as int / 16);
    Glue4(b as int % 16, c as int / 64);
  }

  lemma ThirdByte(b: Byte, c: Byte)
    ensures Third(b, c) as int % 4 * 64 + Fourth(c) as int == c as int
  {
    Glue4(b as int % 16, c as int / 64);
  }

  /** Decoding undoes encoding for every sequence of bytes. */
  lemma {:induction false} GroupsRoundTrip(bytes: seq<Byte>)
    ensures DecodeGroups(Encode(bytes)) == Some(bytes)
  {
    hide First, Second, Third, Fourth, Two, Three, Four, Letter, SextetOf;
    if bytes != [] {
      var a := bytes[0];
      var b := if |bytes| >= 2 then bytes[1] else 0;
      var c := if |bytes| >= 3 then bytes[2] else 0;
      SextetsHoldBytes(a, b, c);
      LetterRoundTrip(First(a));
      LetterRoundTrip(Second(a, b));
      LetterRoundTrip(Third(b, c));
      LetterRoundTrip(Fourth(c));
      var s := Encode(bytes);
      if |bytes| >= 3 {
        GroupsRoundTrip(bytes[3..]);
        assert s[4..] == Encode(bytes[3..]) && bytes == [a, b, c] + bytes[3..];
      } else {
        assert |s| == 4 && bytes == if |bytes| == 2 then [a, b] else [a];
      }
    }
  }

  lemma DecodeUndoesEncode(bytes: seq<Byte>)
    ensures Decode(Encode(bytes)) == Some(bytes)
  {
    EncodeUnbroken(bytes);
    UnwrappedIsSame(Encode(bytes));
    GroupsRoundTrip(bytes);
  }

  // -- The token ------------------------------------------------------------------------

  predicate Ascii(s: string) {
    forall i :: 0 <= i < |s| ==> s[i] as int < 128
  }

  function BytesOf(s: string): seq<Byte>
    requires Ascii(s)
  {
    seq(|s|, i requires 0 <= i < |s| => s[i] as Byte)
  }

  function TextOf(bytes: seq<Byte>): string {
    seq(|bytes|, i requires 0 <= i < |bytes| => bytes[i] as char)
  }

  lemma ShownIsAscii(t: PageToken)
    ensures Ascii(ShowToken(t)) && ShowToken(t) != ""
  {
    assert Ascii(ShowInt(t.limit)) && Ascii(ShowInt(t.offset));
    hide ShowInt;
  }

  function Marshal(t: PageToken): string {
    ShownIsAscii(t);
    Encode(BytesOf(ShowToken(t)))
  }

  function Unmarshal(s: string): Option<PageToken> {
    var bytes := Decode(s);
    if bytes.None? then None else ReadToken(TextOf(bytes.value))
  }

  /** A token read back is the one marshalled, for every pair of int64 values. */
  lemma UnmarshalUndoesMarshal(t: PageToken)
    requires IsInt64(t.limit) && IsInt64(t.offset)
    ensures Unmarshal(Marshal(t)) == Some(t) && Marshal(t) != ""
  {
    ShownIsAscii(t);
    var bytes := BytesOf(ShowToken(t));
    EncodeUnbroken(bytes);
    DecodeUndoesEncode(bytes);
    ReadShownToken(t);
    assert TextOf(bytes) == ShowToken(t);
    hide ShowToken, ReadToken, Encode, Decode;
  }
}
