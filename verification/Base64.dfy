/**
The two base64 forms the source uses: padded standard (the stored signing key) and unpadded URL-safe (tokens);
sections 4 and 5 of RFC 4648. Decoding is Go's: line breaks are skipped, the unused low bits of the last digit
are not checked.
 */
module Base64 {
  import opened Wrappers

  type Byte = n: nat | n < 256
  type Digit = n: nat | n < 64

  // URL is RawURLEncoding (section 5, no padding), otherwise StdEncoding (section 4, '=' padding).
  datatype Form = Std | URL

  function Char(f: Form, d: Digit): char {
    if d < 26 then (d + 'A' as int) as char
    else if d < 52 then (d - 26 + 'a' as int) as char
    else if d < 62 then (d - 52 + '0' as int) as char
    else if d == 62 then (if f.URL? then '-' else '+')
    else (if f.URL? then '_' else '/')
  }

  function Value(f: Form, c: char): Option<Digit> {
    if 'A' <= c <= 'Z' then Some(c as int - 'A' as int)
    else if 'a' <= c <= 'z' then Some(c as int - 'a' as int + 26)
    else if '0' <= c <= '9' then Some(c as int - '0' as int + 52)
    else if c == (if f.URL? then '-' else '+') then Some(62)
    else if c == (if f.URL? then '_' else '/') then Some(63)
    else None
  }

  function Group(f: Form, a: Byte, b: Byte, c: Byte): string {
    [Char(f, a / 4), Char(f, a % 4 * 16 + b / 16), Char(f, b % 16 * 4 + c / 64), Char(f, c % 64)]
  }

  function Encode(f: Form, b: seq<Byte>): string {
    if b == [] then ""
    else if |b| == 1 then
      [Char(f, b[0] / 4), Char(f, b[0] % 4 * 16)] + if f.Std? then "==" else ""
    else if |b| == 2 then
      [Char(f, b[0] / 4), Char(f, b[0] % 4 * 16 + b[1] / 16), Char(f, b[1] % 16 * 4)] + if f.Std? then "=" else ""
    else
      Group(f, b[0], b[1], b[2]) + Encode(f, b[3..])
  }

  function Unbroken(s: string): string {
    if s == "" then "" else (if s[0] == '\r' || s[0] == '\n' then "" else [s[0]]) + Unbroken(s[1..])
  }

  // A byte from the low bits of one digit and the high bits of the next.
  function Combine(high: nat, shift: nat, low: nat): (b: Byte)
    requires || (shift == 4 && high < 64 && low < 4)
             || (shift == 16 && high < 16 && low < 16)
             || (shift == 64 && high < 4 && low < 64)
  {
    high * shift + low
  }

  function Bytes2(f: Form, s: string): Option<seq<Byte>>
    requires |s| == 2
  {
    match (Value(f, s[0]), Value(f, s[1]))
    case (Some(x), Some(y)) => Some([Combine(x, 4, y / 16)])
    case _ => None
  }

  function Bytes3(f: Form, s: string): Option<seq<Byte>>
    requires |s| == 3
  {
    match (Bytes2(f, s[..2]), Value(f, s[1]), Value(f, s[2]))
    case (Some(b), Some(y), Some(z)) => Some(b + [Combine(y % 16, 16, z / 4)])
    case _ => None
  }

  function Bytes4(f: Form, s: string): Option<seq<Byte>>
    requires |s| == 4
  {
    match (Bytes3(f, s[..3]), Value(f, s[2]), Value(f, s[3]))
    case (Some(b), Some(z), Some(w)) => Some(b + [Combine(z % 4, 64, w)])
    case _ => None
  }

  function DecodeDigits(f: Form, s: string): Option<seq<Byte>> {
    if s == "" then Some([])
    else if f.URL? && |s| == 2 then Bytes2(f, s)
    else if f.URL? && |s| == 3 then Bytes3(f, s)
    else if f.Std? && |s| == 4 && s[2..] == "==" then Bytes2(f, s[..2])
    else if f.Std? && |s| == 4 && s[3] == '=' then Bytes3(f, s[..3])
    else if |s| < 4 then None
    else
      match (Bytes4(f, s[..4]), DecodeDigits(f, s[4..]))
      case (Some(b), Some(rest)) => Some(b + rest)
      case _ => None
  }

  function Decode(f: Form, s: string): Option<seq<Byte>> {
    DecodeDigits(f, Unbroken(s))
  }

  // ---- Examples ----

  // Those of section 10 of RFC 4648, without padding for the URL-safe form; and the ends of each range of the
  // alphabets.
  lemma Examples()
    ensures Encode(Std, []) == "" && Encode(Std, [102]) == "Zg==" && Encode(Std, [102, 111]) == "Zm8="
    ensures Encode(Std, [102, 111, 111]) == "Zm9v" && Encode(Std, [102, 111, 111, 98]) == "Zm9vYg=="
    ensures Encode(URL, [102]) == "Zg" && Encode(URL, [102, 111]) == "Zm8" && Encode(URL, [102, 111, 111]) == "Zm9v"
    ensures Encode(Std, [1, 150, 179]) == "AZaz" && Encode(Std, [211, 223, 191]) == "09+/"
    ensures Encode(URL, [1, 150, 179]) == "AZaz" && Encode(URL, [211, 223, 191]) == "09-_"
  {
    assert Encode(Std, [102, 111, 111, 98][3..]) == "Yg==";
  }

  // ---- Round trip ----

  predicate InAlphabet(f: Form, c: char) {
    Value(f, c).Some? || (f.Std? && c == '=')
  }

  lemma CharValue(f: Form, d: Digit)
    ensures Value(f, Char(f, d)) == Some(d)
  {
  }

  // One group of at most three bytes.
  lemma GroupAlphabet(f: Form, b: seq<Byte>)
    requires |b| <= 3
    ensures forall c <- Encode(f, b) :: InAlphabet(f, c)
  {
    forall d: Digit ensures InAlphabet(f, Char(f, d)) {
      CharValue(f, d);
    }
  }

  lemma {:induction false} EncodeAlphabet(f: Form, b: seq<Byte>)
    ensures forall c <- Encode(f, b) :: InAlphabet(f, c)
  {
    GroupAlphabet(f, if |b| <= 3 then b else b[..3]);
    if |b| > 3 {
      EncodeAlphabet(f, b[3..]);
      assert b[..3][3..] == [];
      assert Encode(f, b) == Encode(f, b[..3]) + Encode(f, b[3..]);
    }
  }

  lemma {:induction false} UnbrokenIsItself(s: string)
    requires forall c <- s :: c != '\r' && c != '\n'
    ensures Unbroken(s) == s
  {
    if s != "" {
      assert s[0] in s;
      assert forall c <- s[1..] :: c in s;
      UnbrokenIsItself(s[1..]);
    }
  }

  // The digits of three bytes, put back together.
  lemma Bits(a: Byte, b: Byte, c: Byte)
    ensures Combine(a / 4, 4, (a % 4 * 16 + b / 16) / 16) == a
    ensures Combine((a % 4 * 16 + b / 16) % 16, 16, (b % 16 * 4 + c / 64) / 4) == b
    ensures Combine((b % 16 * 4 + c / 64) % 4, 64, c % 64) == c
  {
    assert (a % 4 * 16 + b / 16) / 16 == a % 4 && (a % 4 * 16 + b / 16) % 16 == b / 16;
    assert (b % 16 * 4 + c / 64) / 4 == b % 16 && (b % 16 * 4 + c / 64) % 4 == c / 64;
  }

  lemma DigitsDecode(f: Form, x: Digit, y: Digit, z: Digit, w: Digit)
    ensures Bytes2(f, [Char(f, x), Char(f, y)]) == Some([Combine(x, 4, y / 16)])
    ensures Bytes3(f, [Char(f, x), Char(f, y), Char(f, z)]) == Some([Combine(x, 4, y / 16), Combine(y % 16, 16, z / 4)])
    ensures Bytes4(f, [Char(f, x), Char(f, y), Char(f, z), Char(f, w)])
            == Some([Combine(x, 4, y / 16), Combine(y % 16, 16, z / 4), Combine(z % 4, 64, w)])
  {
    CharValue(f, x);
    CharValue(f, y);
    CharValue(f, z);
    CharValue(f, w);
    var s := [Char(f, x), Char(f, y), Char(f, z), Char(f, w)];
    assert s[..3] == [Char(f, x), Char(f, y), Char(f, z)];
    assert s[..3][..2] == [Char(f, x), Char(f, y)];
    assert [Char(f, x), Char(f, y), Char(f, z)][..2] == [Char(f, x), Char(f, y)];
    var p, q, r := Combine(x, 4, y / 16), Combine(y % 16, 16, z / 4), Combine(z % 4, 64, w);
    assert [p] + [q] == [p, q] && [p, q] + [r] == [p, q, r];
  }

  lemma {:induction false} DecodeLastByte(f: Form, a: Byte)
    ensures DecodeDigits(f, Encode(f, [a])) == Some([a])
  {
    var s := Encode(f, [a]);
    Bits(a, 0, 0);
    DigitsDecode(f, a / 4, a % 4 * 16, 0, 0);
    assert s[..2] == [Char(f, a / 4), Char(f, a % 4 * 16)];
    assert f.URL? ==> s == s[..2];
  }

  lemma {:induction false} DecodeLastTwo(f: Form, a: Byte, b: Byte)
    ensures DecodeDigits(f, Encode(f, [a, b])) == Some([a, b])
  {
    var s := Encode(f, [a, b]);
    var x, y, z := a / 4, a % 4 * 16 + b / 16, b % 16 * 4;
    Bits(a, b, 0);
    DigitsDecode(f, x, y, z, 0);
    CharValue(f, z);
    assert s[..3] == [Char(f, x), Char(f, y), Char(f, z)];
    assert f.URL? ==> s == s[..3];
    assert s[2] == Char(f, z);
  }

  lemma {:induction false} DecodeGroup(f: Form, a: Byte, b: Byte, c: Byte, rest: string)
    ensures DecodeDigits(f, Group(f, a, b, c) + rest)
            == match DecodeDigits(f, rest) case Some(r) => Some([a, b, c] + r) case None => None
  {
    var x, y, z, w := a / 4, a % 4 * 16 + b / 16, b % 16 * 4 + c / 64, c % 64;
    var s := [Char(f, x), Char(f, y), Char(f, z), Char(f, w)] + rest;
    Bits(a, b, c);
    DigitsDecode(f, x, y, z, w);
    CharValue(f, w);
    assert s[..4] == [Char(f, x), Char(f, y), Char(f, z), Char(f, w)] && s[4..] == rest;
    assert s[3] == Char(f, w) && s[3] != '=';
    assert f.Std? && |s| == 4 ==> s[2..] == [s[2], s[3]] && s[2..][1] != '=';
  }

  lemma DecodeFirstGroup(f: Form, b: seq<Byte>, rest: string)
    requires |b| >= 3 && DecodeDigits(f, rest) == Some(b[3..])
    ensures DecodeDigits(f, Group(f, b[0], b[1], b[2]) + rest) == Some(b)
  {
    DecodeGroup(f, b[0], b[1], b[2], rest);
    assert b == [b[0], b[1], b[2]] + b[3..];
  }

  lemma {:induction false} DecodeDigitsEncode(f: Form, b: seq<Byte>)
    ensures DecodeDigits(f, Encode(f, b)) == Some(b)
  {
    if |b| == 1 {
      DecodeLastByte(f, b[0]);
      assert b == [b[0]];
    } else if |b| == 2 {
      DecodeLastTwo(f, b[0], b[1]);
      assert b == [b[0], b[1]];
    } else if |b| >= 3 {
      DecodeDigitsEncode(f, b[3..]);
      DecodeFirstGroup(f, b, Encode(f, b[3..]));
    }
  }

  lemma {:induction false} UnbrokenParts(a: string, b: string)
    ensures Unbroken(a + b) == Unbroken(a) + Unbroken(b)
  {
    if a == "" {
      assert a + b == b;
    } else {
      UnbrokenParts(a[1..], b);
      var head := if a[0] == '\r' || a[0] == '\n' then "" else [a[0]];
      assert (a + b)[0] == a[0] && (a + b)[1..] == a[1..] + b;
      assert Unbroken(a + b) == head + Unbroken(a[1..] + b) == head + (Unbroken(a[1..]) + Unbroken(b));
      assert head + (Unbroken(a[1..]) + Unbroken(b)) == (head + Unbroken(a[1..])) + Unbroken(b);
    }
  }

  // A line break anywhere in a text changes nothing of what it decodes to.
  lemma BreaksAreSkipped(f: Form, a: string, b: string)
    ensures Decode(f, a + "\n" + b) == Decode(f, a + b) && Decode(f, a + "\r" + b) == Decode(f, a + b)
  {
    forall c | c in {"\n", "\r"} ensures Unbroken(a + c + b) == Unbroken(a + b) {
      UnbrokenParts(a + c, b);
      UnbrokenParts(a, c);
      UnbrokenParts(a, b);
      assert Unbroken(c) == Unbroken(c[1..]) == "";
    }
  }

  // Every byte string decodes back from its encoding, and an encoding has no '.' and no line break in it.
  lemma RoundTrip(f: Form, b: seq<Byte>)
    ensures Decode(f, Encode(f, b)) == Some(b)
    ensures forall c <- Encode(f, b) :: c != '.' && c != '\r' && c != '\n'
  {
    EncodeAlphabet(f, b);
    UnbrokenIsItself(Encode(f, b));
    DecodeDigitsEncode(f, b);
  }
}
