/** The page cursor: a decimal timestamp and an id, joined by a bar, in unpadded URL-safe base64. */
module Cursor {
  import opened Int64

  type byte = x: int | 0 <= x < 256
  type sextet = x: int | 0 <= x < 64

  const BAR: byte := 124
  const MINUS: byte := 45
  const PLUS: byte := 43

  // ---------------------------------------------------------------- base64 (section 5 of RFC 4648)

  function Letter(v: sextet): byte {
    if v < 26 then 65 + v
    else if v < 52 then 97 + (v - 26)
    else if v < 62 then 48 + (v - 52)
    else if v == 62 then 45
    else 95
  }

  function Value(c: byte): Option<sextet> {
    if 65 <= c <= 90 then Some(c - 65)
    else if 97 <= c <= 122 then Some(c - 97 + 26)
    else if 48 <= c <= 57 then Some(c - 48 + 52)
    else if c == 45 then Some(62)
    else if c == 95 then Some(63)
    else None
  }

  function Encode(raw: seq<byte>): seq<byte> {
    if raw == [] then []
    else if |raw| == 1 then [Letter(raw[0] / 4), Letter(raw[0] % 4 * 16)]
    else if |raw| == 2 then [Letter(raw[0] / 4), Letter(raw[0] % 4 * 16 + raw[1] / 16), Letter(raw[1] % 16 * 4)]
    else
      [Letter(raw[0] / 4), Letter(raw[0] % 4 * 16 + raw[1] / 16),
       Letter(raw[1] % 16 * 4 + raw[2] / 64), Letter(raw[2] % 64)] + Encode(raw[3..])
  }

  /** Line breaks are skipped wherever they stand. */
  function Unbroken(text: seq<byte>): seq<byte> {
    if text == [] then []
    else if text[0] == 10 || text[0] == 13 then Unbroken(text[1..])
    else [text[0]] + Unbroken(text[1..])
  }

  function Sextets(text: seq<byte>): Option<seq<sextet>> {
    if text == [] then Some([])
    else
      match (Value(text[0]), Sextets(text[1..]))
      case (Some(v), Some(vs)) => Some([v] + vs)
      case _ => None
  }

  function First(a: sextet, b: sextet): byte {
    (a as int) * 4 + b / 16
  }

  function Second(b: sextet, c: sextet): byte {
    (b as int) % 16 * 16 + c / 4
  }

  function Third(c: sextet, d: sextet): byte {
    (c as int) % 4 * 64 + d
  }

  /** A lone last sextet is an error; spare low bits at the end are dropped. */
  function Regroup(vs: seq<sextet>): Option<seq<byte>> {
    if vs == [] then Some([])
    else if |vs| == 1 then None
    else if |vs| == 2 then Some([First(vs[0], vs[1])])
    else if |vs| == 3 then Some([First(vs[0], vs[1]), Second(vs[1], vs[2])])
    else
      match Regroup(vs[4..])
      case None => None
      case Some(rest) => Some([First(vs[0], vs[1]), Second(vs[1], vs[2]), Third(vs[2], vs[3])] + rest)
  }

  function Decode(text: seq<byte>): Option<seq<byte>> {
    match Sextets(Unbroken(text))
    case None => None
    case Some(vs) => Regroup(vs)
  }

  function Bytes(text: string): seq<byte>
    requires forall i :: 0 <= i < |text| ==> text[i] as int < 256
  {
    seq(|text|, i requires 0 <= i < |text| => text[i] as int)
  }

  /** The URL-safe alphabet of section 5 of RFC 4648. */
  lemma Alphabet(v: sextet)
    ensures Letter(v) == if v < 26 then 'A' as int + v
                         else if v < 52 then 'a' as int + v - 26
                         else if v < 62 then '0' as int + v - 52
                         else if v == 62 then '-' as int else '_' as int
  {
  }

  lemma ShortVectors()
    ensures Encode(Bytes("b")) == Bytes("Yg") && Encode(Bytes("f")) == Bytes("Zg") && Encode(Bytes("fo")) == Bytes("Zm8")
  {
  }

  lemma ThreeVector()
    ensures Encode(Bytes("foo")) == Bytes("Zm9v")
  {
    assert Bytes("foo")[3..] == [];
  }

  /** The first test vectors of section 10 of RFC 4648, without their padding. */
  lemma Vectors()
    ensures Encode(Bytes("f")) == Bytes("Zg") && Encode(Bytes("fo")) == Bytes("Zm8")
    ensures Encode(Bytes("foo")) == Bytes("Zm9v") && Encode(Bytes("foob")) == Bytes("Zm9vYg")
  {
    ShortVectors();
    ThreeVector();
    assert Bytes("foob")[3..] == Bytes("b");
    assert Bytes("Zm9v") + Bytes("Yg") == Bytes("Zm9vYg");
  }

  lemma LetterValue(v: sextet)
    ensures Value(Letter(v)) == Some(v) && Letter(v) != 10 && Letter(v) != 13
  {
  }

  /** Only the letters of the alphabet have a value, each its own. */
  lemma ValueExact(c: byte, v: sextet)
    ensures Value(c) == Some(v) <==> c == Letter(v)
  {
  }

  function Letters(vs: seq<sextet>): (text: seq<byte>)
    ensures |text| == |vs|
  {
    if vs == [] then [] else [Letter(vs[0])] + Letters(vs[1..])
  }

  lemma {:induction false} LettersRead(vs: seq<sextet>)
    ensures Unbroken(Letters(vs)) == Letters(vs) && Sextets(Letters(vs)) == Some(vs)
  {
    if vs != [] {
      LetterValue(vs[0]);
      LettersRead(vs[1..]);
      assert Letters(vs)[1..] == Letters(vs[1..]);
      assert vs == [vs[0]] + vs[1..];
    }
  }

  lemma {:induction false} LettersConcat(a: seq<sextet>, b: seq<sextet>)
    ensures Letters(a + b) == Letters(a) + Letters(b)
  {
    if a == [] {
      assert a + b == b;
    } else {
      var rest := a[1..] + b;
      assert (a + b)[0] == a[0] && (a + b)[1..] == rest;
      LettersConcat(a[1..], b);
      assert Letters(a + b) == [Letter(a[0])] + (Letters(a[1..]) + Letters(b));
    }
  }

  lemma LettersFew(a: sextet, b: sextet, c: sextet, d: sextet)
    ensures Letters([a, b]) == [Letter(a), Letter(b)]
    ensures Letters([a, b, c]) == [Letter(a), Letter(b), Letter(c)]
    ensures Letters([a, b, c, d]) == [Letter(a), Letter(b), Letter(c), Letter(d)]
  {
    assert [a, b] == [a] + [b] && [a, b, c] == [a, b] + [c] && [a, b, c, d] == [a, b, c] + [d];
    LettersConcat([a], [b]);
    LettersConcat([a, b], [c]);
    LettersConcat([a, b, c], [d]);
  }

  /** The sextets of a byte string. */
  function Split(raw: seq<byte>): seq<sextet> {
    if raw == [] then []
    else if |raw| == 1 then [raw[0] / 4, raw[0] % 4 * 16]
    else if |raw| == 2 then [raw[0] / 4, raw[0] % 4 * 16 + raw[1] / 16, raw[1] % 16 * 4]
    else
      [raw[0] / 4, raw[0] % 4 * 16 + raw[1] / 16, raw[1] % 16 * 4 + raw[2] / 64, raw[2] % 64] + Split(raw[3..])
  }

  lemma {:induction false} EncodeIsLetters(raw: seq<byte>)
    ensures Encode(raw) == Letters(Split(raw))
  {
    if raw == [] {
      return;
    }
    var vs := Split(raw);
    if |raw| >= 3 {
      EncodeIsLetters(raw[3..]);
      LettersFew(vs[0], vs[1], vs[2], vs[3]);
      assert vs == [vs[0], vs[1], vs[2], vs[3]] + Split(raw[3..]);
      LettersConcat([vs[0], vs[1], vs[2], vs[3]], Split(raw[3..]));
    } else if |raw| == 2 {
      LettersFew(vs[0], vs[1], vs[2], 0);
    } else {
      LettersFew(vs[0], vs[1], 0, 0);
    }
  }

  /** The sextets are the bits of the bytes, most significant first. */
  lemma SplitValue(raw: seq<byte>)
    requires raw != []
    ensures var vs := Split(raw);
            if |raw| == 1 then |vs| == 2 && raw[0] as int * 16 == vs[0] as int * 64 + vs[1]
            else if |raw| == 2 then |vs| == 3 && (raw[0] as int * 256 + raw[1]) * 4 == vs[0] as int * 4096 + vs[1] as int * 64 + vs[2]
            else
              && 4 <= |vs|
              && raw[0] as int * 65536 + raw[1] as int * 256 + raw[2]
                 == vs[0] as int * 262144 + vs[1] as int * 4096 + vs[2] as int * 64 + vs[3]
  {
  }

  lemma FirstBack(a: byte, b: byte)
    ensures First(a / 4, a % 4 * 16 + b / 16) == a && First(a / 4, a % 4 * 16) == a
  {
  }

  lemma SecondOf(p: int, high: int, low: int, q: int)
    requires 0 <= p < 4 && 0 <= high < 16 && 0 <= low < 16 && 0 <= q < 4
    ensures (p * 16 + high) % 16 == high && (low * 4 + q) / 4 == low
  {
  }

  lemma SecondBack(a: byte, b: byte, c: byte)
    ensures Second(a % 4 * 16 + b / 16, b % 16 * 4 + c / 64) == b && Second(a % 4 * 16 + b / 16, b % 16 * 4) == b
  {
    SecondOf(a % 4, b / 16, b % 16, c / 64);
    SecondOf(a % 4, b / 16, b % 16, 0);
  }

  lemma ThirdBack(b: byte, c: byte)
    ensures Third(b % 16 * 4 + c / 64, c % 64) == c
  {
  }

  lemma {:induction false} RegroupThree(raw: seq<byte>, vs: seq<sextet>)
    requires 3 <= |raw| && 4 <= |vs| && Regroup(vs[4..]) == Some(raw[3..])
    requires First(vs[0], vs[1]) == raw[0] && Second(vs[1], vs[2]) == raw[1] && Third(vs[2], vs[3]) == raw[2]
    ensures Regroup(vs) == Some(raw)
  {
    assert raw == [raw[0], raw[1], raw[2]] + raw[3..];
  }

  lemma {:induction false} SplitThree(raw: seq<byte>)
    requires 3 <= |raw|
    ensures var vs := Split(raw);
            && 4 <= |vs| && vs[4..] == Split(raw[3..])
            && First(vs[0], vs[1]) == raw[0] && Second(vs[1], vs[2]) == raw[1] && Third(vs[2], vs[3]) == raw[2]
  {
    FirstBack(raw[0], raw[1]);
    SecondBack(raw[0], raw[1], raw[2]);
    ThirdBack(raw[1], raw[2]);
  }

  lemma RegroupOne(raw: seq<byte>)
    requires |raw| == 1
    ensures Regroup(Split(raw)) == Some(raw)
  {
    FirstBack(raw[0], 0);
    assert Split(raw) == [raw[0] / 4, raw[0] % 4 * 16];
    assert raw == [raw[0]];
  }

  lemma RegroupPair(raw: seq<byte>, a: sextet, b: sextet, c: sextet)
    requires |raw| == 2 && First(a, b) == raw[0] && Second(b, c) == raw[1]
    ensures Regroup([a, b, c]) == Some(raw)
  {
    assert raw == [raw[0], raw[1]];
  }

  lemma RegroupTwo(raw: seq<byte>)
    requires |raw| == 2
    ensures Regroup(Split(raw)) == Some(raw)
  {
    FirstBack(raw[0], raw[1]);
    SecondBack(raw[0], raw[1], 0);
    var vs := Split(raw);
    RegroupPair(raw, vs[0], vs[1], vs[2]);
    assert vs == [vs[0], vs[1], vs[2]];
  }

  lemma {:induction false} RegroupSplit(raw: seq<byte>)
    ensures Regroup(Split(raw)) == Some(raw)
  {
    if |raw| >= 3 {
      RegroupSplit(raw[3..]);
      SplitThree(raw);
      RegroupThree(raw, Split(raw));
    } else if |raw| == 2 {
      RegroupTwo(raw);
    } else if |raw| == 1 {
      RegroupOne(raw);
    }
  }

  lemma {:induction false} Base64RoundTrip(raw: seq<byte>)
    ensures Decode(Encode(raw)) == Some(raw)
    ensures raw != [] ==> Encode(raw) != []
  {
    EncodeIsLetters(raw);
    LettersRead(Split(raw));
    RegroupSplit(raw);
  }

  lemma {:induction false} SextetsAccept(text: seq<byte>)
    ensures Sextets(text).Some? <==> forall i :: 0 <= i < |text| ==> Value(text[i]).Some?
    ensures Sextets(text).Some? ==> |Sextets(text).value| == |text|
  {
    if text != [] {
      SextetsAccept(text[1..]);
      assert text == [text[0]] + text[1..];
    }
  }

  lemma RegroupFour(vs: seq<sextet>)
    requires 4 <= |vs|
    ensures Regroup(vs).Some? <==> Regroup(vs[4..]).Some?
  {
  }

  lemma RegroupFew(vs: seq<sextet>)
    requires |vs| < 4
    ensures Regroup(vs).Some? <==> |vs| != 1
  {
  }

  lemma {:induction false} RegroupAccepts(vs: seq<sextet>)
    ensures Regroup(vs).Some? <==> |vs| % 4 != 1
  {
    if 4 <= |vs| {
      RegroupAccepts(vs[4..]);
      RegroupFour(vs);
    } else {
      RegroupFew(vs);
    }
  }

  /** A text decodes exactly if, line breaks aside, it has only letters of the alphabet and does not end in
      a lone one. */
  lemma DecodeAccepts(text: seq<byte>)
    ensures Decode(text).Some? <==>
              var plain := Unbroken(text);
              (forall i :: 0 <= i < |plain| ==> Value(plain[i]).Some?) && |plain| % 4 != 1
  {
    SextetsAccept(Unbroken(text));
    if Sextets(Unbroken(text)).Some? {
      RegroupAccepts(Sextets(Unbroken(text)).value);
    }
  }

  // ---------------------------------------------------------------- decimal integers

  function Digits(n: nat): (d: seq<byte>)
    ensures d != [] && forall i :: 0 <= i < |d| ==> 48 <= d[i] <= 57
  {
    if n < 10 then [48 + n] else Digits(n / 10) + [48 + n % 10]
  }

  function Format(n: int64): seq<byte> {
    if n < 0 then [MINUS] + Digits(-(n as int)) else Digits(n)
  }

  function Number(d: seq<byte>): Option<nat> {
    if d == [] then Some(0)
    else
      var c := d[|d| - 1];
      match Number(d[..|d| - 1])
      case None => None
      case Some(n) => if 48 <= c <= 57 then Some(10 * n + (c - 48)) else None
  }

  /** An optional sign, at least one digit, and a value in the 64-bit range. */
  function Parse(text: seq<byte>): Option<int64> {
    if text == [] then None
    else
      var neg := text[0] == MINUS;
      var digits := if neg || text[0] == PLUS then text[1..] else text;
      if digits == [] then None
      else
        match Number(digits)
        case None => None
        case Some(n) => if neg then (if n <= MAX + 1 then Some(-(n as int)) else None) else if n <= MAX then Some(n) else None
  }

  lemma {:induction false} NumberAccepts(d: seq<byte>)
    ensures Number(d).Some? <==> forall i :: 0 <= i < |d| ==> '0' as int <= d[i] <= '9' as int
  {
    if d != [] {
      NumberAccepts(d[..|d| - 1]);
    }
  }

  /** The text is a decimal integer: an optional sign and digits that denote it. */
  ghost predicate Spells(text: seq<byte>, n: int) {
    exists d :: d != [] && Number(d).Some? &&
                (|| (n == Number(d).value && (text == d || text == ['+' as int] + d))
                 || (n == -(Number(d).value as int) && text == ['-' as int] + d))
  }

  lemma ParseExact(text: seq<byte>, n: int64)
    ensures Parse(text) == Some(n) <==> Spells(text, n)
  {
    if d :| d != [] && Number(d).Some? &&
            (|| (n == Number(d).value && (text == d || text == ['+' as int] + d))
             || (n == -(Number(d).value as int) && text == ['-' as int] + d))
    {
      NumberAccepts(d);
      assert (['+' as int] + d)[1..] == d && (['-' as int] + d)[1..] == d;
    }
    if Parse(text) == Some(n) {
      var digits := if text[0] == MINUS || text[0] == PLUS then text[1..] else text;
      assert text == if text[0] == MINUS || text[0] == PLUS then [text[0]] + digits else digits;
    }
  }

  lemma {:induction false} NumberDigits(n: nat)
    ensures Number(Digits(n)) == Some(n)
  {
    if n >= 10 {
      NumberDigits(n / 10);
      assert Digits(n)[..|Digits(n)| - 1] == Digits(n / 10);
    } else {
      assert Digits(n)[..0] == [];
    }
  }

  lemma DecimalText()
    ensures Format(0) == Bytes("0") && Format(-205) == Bytes("-205")
  {
    assert Digits(2) == Bytes("2") && Digits(20) == Bytes("20") && Digits(205) == Bytes("205");
    assert [MINUS] + Bytes("205") == Bytes("-205");
  }

  lemma {:induction false} FormatHasNoBar(n: int64)
    ensures forall i :: 0 <= i < |Format(n)| ==> Format(n)[i] != BAR
  {
  }

  lemma {:induction false} ParseSigned(d: seq<byte>, n: nat)
    requires d != [] && 48 <= d[0] <= 57 && Number(d) == Some(n)
    ensures n <= MAX ==> Parse(d) == Some(n)
    ensures n <= MAX + 1 ==> Parse([MINUS] + d) == Some(-(n as int))
  {
    assert ([MINUS] + d)[1..] == d;
  }

  lemma {:induction false} DecimalRoundTrip(n: int64)
    ensures Parse(Format(n)) == Some(n)
  {
    var size := if n < 0 then -(n as int) else n;
    NumberDigits(size);
    ParseSigned(Digits(size), size);
  }

  // ---------------------------------------------------------------- the cursor

  /** Position of the first bar. */
  function FirstBar(text: seq<byte>): Option<nat> {
    if text == [] then None
    else if text[0] == BAR then Some(0)
    else
      match FirstBar(text[1..])
      case None => None
      case Some(i) => Some(i + 1)
  }

  function EncodeCursor(micros: int64, id: seq<byte>): seq<byte> {
    Encode(Format(micros) + [BAR] + id)
  }

  function DecodeCursor(cursor: seq<byte>): Option<(int64, seq<byte>)> {
    match Decode(cursor)
    case None => None
    case Some(raw) =>
      match FirstBar(raw)
      case None => None
      case Some(i) =>
        if i >= |raw| then None
        else
          match Parse(raw[..i])
          case None => None
          case Some(micros) => Some((micros, raw[i + 1..]))
  }

  lemma {:induction false} FirstBarAfter(head: seq<byte>, rest: seq<byte>)
    requires forall i :: 0 <= i < |head| ==> head[i] != BAR
    ensures FirstBar(head + [BAR] + rest) == Some(|head|)
  {
    if head == [] {
      assert (head + [BAR] + rest)[0] == BAR;
    } else {
      FirstBarAfter(head[1..], rest);
      assert (head + [BAR] + rest)[1..] == head[1..] + [BAR] + rest;
    }
  }

  /** Every microsecond timestamp and every id comes back, an id containing bars included. */
  lemma {:induction false} CursorRoundTrip(micros: int64, id: seq<byte>)
    ensures DecodeCursor(EncodeCursor(micros, id)) == Some((micros, id))
    ensures EncodeCursor(micros, id) != []
  {
    var head := Format(micros);
    var raw := head + [BAR] + id;
    Base64RoundTrip(raw);
    DecimalRoundTrip(micros);
    FormatHasNoBar(micros);
    FirstBarAfter(head, id);
    assert raw[..|head|] == head && raw[|head| + 1..] == id;
  }

  lemma {:induction false} FirstBarExact(text: seq<byte>)
    ensures FirstBar(text).Some? ==>
              var i := FirstBar(text).value;
              i < |text| && text[i] == BAR && forall j :: 0 <= j < i ==> text[j] != BAR
    ensures FirstBar(text).None? ==> forall j :: 0 <= j < |text| ==> text[j] != BAR
  {
    if text != [] && text[0] != BAR {
      FirstBarExact(text[1..]);
      assert forall j :: 0 < j < |text| ==> text[j] == text[1..][j - 1];
    }
  }

  /** A cursor is read exactly if it decodes to a decimal time, a bar, and then the id. */
  lemma CursorExact(cursor: seq<byte>, micros: int64, id: seq<byte>)
    ensures DecodeCursor(cursor) == Some((micros, id)) <==>
              exists head: seq<byte> ::
                Decode(cursor) == Some(head + ['|' as int] + id) && '|' as int !in head && Spells(head, micros)
  {
    if Decode(cursor).Some? {
      var raw := Decode(cursor).value;
      FirstBarExact(raw);
      if DecodeCursor(cursor) == Some((micros, id)) {
        var i := FirstBar(raw).value;
        ParseExact(raw[..i], micros);
        assert raw == raw[..i] + ['|' as int] + id;
      }
      if head: seq<byte> :| raw == head + ['|' as int] + id && '|' as int !in head && Spells(head, micros) {
        FirstBarAfter(head, id);
        ParseExact(head, micros);
        assert raw[..|head|] == head && raw[|head| + 1..] == id;
      }
    }
  }
}
