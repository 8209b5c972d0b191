/** The Python built-in text conversions the modelled code relies on:
    `f"{b:02X}"`, `" ".join(...)`, `hex(n)`, `int(s, 16)`, `str(n)` and
    `str.split()`, together with the round trips between them. */
module Text {
  import opened Base

  /** The ASCII whitespace characters: tab, line feed, vertical tab, form
      feed, carriage return and space. `str.split()` also separates at other
      characters, which the logger never writes (see README). */
  predicate IsSpace(c: char)
  {
    c == ' ' || c == '\t' || c == '\n' || c == '\r' || c as int == 11 || c as int == 12
  }

  predicate NoSpaces(s: string)
  {
    forall i :: 0 <= i < |s| ==> !IsSpace(s[i])
  }

  // ---------------------------------------------------------------------
  // Hexadecimal digits

  /** The value of one hexadecimal digit of either case, as `int(c, 16)` reads it. */
  function DigitValue(c: char): (r: Option<nat>)
    ensures r.Some? ==> r.value < 16
    ensures r.Some? <==> ('0' <= c <= '9' || 'a' <= c <= 'f' || 'A' <= c <= 'F')
  {
    if '0' <= c <= '9' then Some(c as int - '0' as int)
    else if 'a' <= c <= 'f' then Some(c as int - 'a' as int + 10)
    else if 'A' <= c <= 'F' then Some(c as int - 'A' as int + 10)
    else None
  }

  /** The digit Python prints for `d`, upper case for the `X` format, lower case for `hex`. */
  function HexDigit(d: nat, upper: bool): (c: char)
    requires d < 16
    ensures DigitValue(c) == Some(d)
    ensures !IsSpace(c) && c != 'x' && c != 'X' && c != '-' && c != '+'
    ensures upper ==> !('a' <= c <= 'f')
    ensures !upper ==> !('A' <= c <= 'F')
  {
    if d < 10 then ('0' as int + d) as char
    else if upper then ('A' as int + d - 10) as char
    else ('a' as int + d - 10) as char
  }

  predicate AllHexDigits(s: string)
  {
    forall i :: 0 <= i < |s| ==> DigitValue(s[i]).Some?
  }

  /** The number a string of hexadecimal digits denotes, most significant first. */
  function HexValue(s: string): nat
    requires AllHexDigits(s)
  {
    if s == [] then 0 else 16 * HexValue(s[..|s| - 1]) + DigitValue(s[|s| - 1]).value
  }

  /** The lower-case digits of `n` without leading zeros, as `hex` prints them after `0x`. */
  function HexDigits(n: nat): (s: string)
    ensures |s| >= 1 && AllHexDigits(s) && NoSpaces(s)
    ensures forall i :: 0 <= i < |s| ==> '0' <= s[i] <= '9' || 'a' <= s[i] <= 'f'
    ensures |s| == 1 || s[0] != '0'
  {
    if n < 16 then [HexDigit(n, false)] else HexDigits(n / 16) + [HexDigit(n % 16, false)]
  }

  lemma {:induction false} HexDigitsValue(n: nat)
    ensures HexValue(HexDigits(n)) == n
  {
    var s := HexDigits(n);
    if n >= 16 {
      assert s[..|s| - 1] == HexDigits(n / 16);
      HexDigitsValue(n / 16);
    }
  }

  /** `hex(n)`: `0x` followed by the lower-case digits, with a leading `-` when negative. */
  function PyHex(n: int): string
  {
    if n < 0 then "-0x" + HexDigits(-n) else "0x" + HexDigits(n)
  }

  /** The text after an optional `-` or `+` sign. */
  function Unsigned(s: string): string
  {
    if |s| > 0 && (s[0] == '-' || s[0] == '+') then s[1..] else s
  }

  /** The digits after an optional `0x`/`0X` prefix. */
  function Unprefixed(rest: string): string
  {
    if |rest| >= 2 && rest[0] == '0' && (rest[1] == 'x' || rest[1] == 'X') then rest[2..] else rest
  }

  /** The unsigned part of `int(s, 16)`: at least one hexadecimal digit after the prefix. */
  function UnsignedHex(rest: string): Option<nat>
  {
    var digits := Unprefixed(rest);
    if |digits| > 0 && AllHexDigits(digits) then Some(HexValue(digits)) else None
  }

  /** What `int(s, 16)` accepts: an optional sign, an optional `0x`/`0X`
      prefix, then at least one hexadecimal digit of either case and nothing else. */
  predicate HexLiteral(s: string)
  {
    var digits := Unprefixed(Unsigned(s));
    |digits| > 0 && AllHexDigits(digits)
  }

  /** `int(s, 16)`: a hexadecimal literal reads as its digits' value, negated
      after a `-`; anything else raises `ValueError`. */
  function ParseHexInt(s: string): (r: Result<int>)
    ensures r.Ok? <==> HexLiteral(s)
    ensures r.Ok? ==> var v := HexValue(Unprefixed(Unsigned(s)));
      r.value == if s[0] == '-' then 0 - v else v
    ensures r.Err? ==> r.error.ValueError?
  {
    var signed := |s| > 0 && (s[0] == '-' || s[0] == '+');
    match UnsignedHex(Unsigned(s))
    case None => Err(ValueError("invalid literal for int() with base 16: '" + s + "'"))
    case Some(v) => Ok(if signed && s[0] == '-' then 0 - v else v)
  }

  /** A character that is neither a hexadecimal digit, a sign nor an `x`
      anywhere in the text makes `int(s, 16)` raise. */
  lemma ParseHexIntRejects(s: string, i: nat)
    requires i < |s| && DigitValue(s[i]).None?
    requires s[i] != '-' && s[i] != '+' && s[i] != 'x' && s[i] != 'X'
    ensures ParseHexInt(s).Err?
  {
    var u := Unsigned(s);
    var d := Unprefixed(u);
    var off := |s| - |d|;
    assert 0 <= off <= 3;
    assert d == s[off..];
    if i < off {
      assert false;
    } else {
      assert d[i - off] == s[i];
    }
  }

  /** A string `0x` followed by digits reads as the digits' value. */
  lemma ParseHexPositive(s: string)
    requires |s| > 2 && s[0] == '0' && s[1] == 'x' && AllHexDigits(s[2..])
    ensures ParseHexInt(s) == Result<int>.Ok(HexValue(s[2..]))
  {
    assert Unsigned(s) == s;
    assert Unprefixed(s) == s[2..];
  }

  /** A string `-0x` followed by digits reads as minus the digits' value. */
  lemma ParseHexNegative(s: string)
    requires |s| > 3 && s[0] == '-' && s[1] == '0' && s[2] == 'x' && AllHexDigits(s[3..])
    ensures ParseHexInt(s) == Result<int>.Ok(0 - HexValue(s[3..]))
  {
    assert Unsigned(s) == s[1..];
    assert Unprefixed(s[1..]) == s[1..][2..] == s[3..];
  }

  /** Reading back what `hex` printed gives the number again. */
  lemma PyHexRoundTrip(n: int)
    ensures ParseHexInt(PyHex(n)) == Ok(n)
  {
    var m := if n < 0 then -n else n;
    var digits := HexDigits(m);
    HexDigitsValue(m);
    var s := PyHex(n);
    if n < 0 {
      assert s[3..] == digits;
      ParseHexNegative(s);
    } else {
      assert s[2..] == digits;
      ParseHexPositive(s);
    }
  }

  /** `f"{b:02X}"`: exactly two upper-case digits. */
  function ByteHex(b: byte): (s: string)
    ensures |s| == 2 && NoSpaces(s)
    ensures forall i :: 0 <= i < 2 ==> '0' <= s[i] <= '9' || 'A' <= s[i] <= 'F'
    ensures ParseHexInt(s) == Ok(b)
  {
    var s := [HexDigit(b / 16, true), HexDigit(b % 16, true)];
    assert s[..1] == [s[0]];
    assert HexValue(s) == 16 * HexValue(s[..1]) + b % 16;
    s
  }

  // ---------------------------------------------------------------------
  // Decimal digits

  function DecimalDigit(d: nat): (c: char)
    requires d < 10
  {
    ('0' as int + d) as char
  }

  /** `str(n)` for a non-negative integer. */
  function DecimalString(n: nat): (s: string)
    ensures |s| >= 1 && forall i :: 0 <= i < |s| ==> '0' <= s[i] <= '9'
  {
    if n < 10 then [DecimalDigit(n)] else DecimalString(n / 10) + [DecimalDigit(n % 10)]
  }

  /** The number a string of decimal digits denotes. */
  function DecimalValue(s: string): nat
    requires forall i :: 0 <= i < |s| ==> '0' <= s[i] <= '9'
  {
    if s == [] then 0 else 10 * DecimalValue(s[..|s| - 1]) + (s[|s| - 1] as int - '0' as int)
  }

  lemma {:induction false} DecimalRoundTrip(n: nat)
    ensures DecimalValue(DecimalString(n)) == n
  {
    var s := DecimalString(n);
    if n >= 10 {
      assert s[..|s| - 1] == DecimalString(n / 10);
      DecimalRoundTrip(n / 10);
    }
  }

  // ---------------------------------------------------------------------
  // Joining and splitting

  /** `sep.join(parts)`. */
  function Join(sep: string, parts: seq<string>): string
  {
    if parts == [] then ""
    else if |parts| == 1 then parts[0]
    else parts[0] + sep + Join(sep, parts[1..])
  }

  /** The `f"{b:02X}"` text of every byte, in order. */
  function ByteHexes(data: seq<byte>): (r: seq<string>)
    ensures |r| == |data|
    ensures forall i :: 0 <= i < |data| ==> r[i] == ByteHex(data[i])
  {
    seq(|data|, i requires 0 <= i < |data| => ByteHex(data[i]))
  }

  /** `" ".join(f"{b:02X}" for b in data)`: the payload text shared by the
      session log and the receive monitor. */
  function HexBytes(data: seq<byte>): string
  {
    Join(" ", ByteHexes(data))
  }

  /** `s` without its leading whitespace. */
  function DropSpaces(s: string): (r: string)
    ensures |r| <= |s| && r == s[|s| - |r|..]
    ensures r == [] || !IsSpace(r[0])
  {
    if s != [] && IsSpace(s[0]) then DropSpaces(s[1..]) else s
  }

  /** The length of the run of non-whitespace characters that starts `s`. */
  function WordLength(s: string): (n: nat)
    ensures n <= |s| && NoSpaces(s[..n])
    ensures s != [] && !IsSpace(s[0]) ==> n >= 1
    ensures n < |s| ==> IsSpace(s[n])
  {
    if s == [] || IsSpace(s[0]) then 0 else 1 + WordLength(s[1..])
  }

  /** `s.split()`: the maximal runs of non-whitespace characters, in order. */
  function Split(s: string): (words: seq<string>)
    decreases |s|
  {
    var t := DropSpaces(s);
    if t == [] then []
    else
      var n := WordLength(t);
      [t[..n]] + Split(t[n..])
  }

  lemma {:induction false} WordLengthOfWord(p: string, rest: string)
    requires NoSpaces(p)
    requires rest == [] || IsSpace(rest[0])
    ensures WordLength(p + rest) == |p|
  {
    if p != [] {
      assert (p + rest)[1..] == p[1..] + rest;
      WordLengthOfWord(p[1..], rest);
    }
  }

  /** A word followed by whitespace (or nothing) is the first word of the split. */
  lemma SplitWord(p: string, rest: string)
    requires |p| > 0 && NoSpaces(p)
    requires rest == [] || IsSpace(rest[0])
    ensures Split(p + rest) == [p] + Split(rest)
  {
    var s := p + rest;
    WordLengthOfWord(p, rest);
    assert DropSpaces(s) == s;
    assert s[..|p|] == p;
    assert s[|p|..] == rest;
  }

  lemma SplitSpace(tail: string)
    ensures Split(" " + tail) == Split(tail)
  {
    assert (" " + tail)[1..] == tail;
    assert DropSpaces(" " + tail) == DropSpaces(tail);
  }

  lemma Cons<T>(s: seq<T>)
    requires |s| > 0
    ensures [s[0]] + s[1..] == s
  {
  }

  /** A word and a space in front of a text add that word in front of the text's words. */
  lemma SplitWordSpace(p: string, tail: string)
    requires |p| > 0 && NoSpaces(p)
    ensures Split(p + " " + tail) == [p] + Split(tail)
  {
    assert p + " " + tail == p + (" " + tail);
    SplitWord(p, " " + tail);
    SplitSpace(tail);
  }

  /** Splitting a space-joined sequence of non-empty, whitespace-free words
      gives the words back. */
  lemma {:induction false} SplitJoin(parts: seq<string>)
    requires forall i :: 0 <= i < |parts| ==> |parts[i]| > 0 && NoSpaces(parts[i])
    ensures Split(Join(" ", parts)) == parts
  {
    if |parts| == 1 {
      SplitWord(parts[0], []);
      assert parts[0] + [] == parts[0];
    } else if |parts| > 1 {
      var r := parts[1..];
      assert forall i :: 0 <= i < |r| ==> r[i] == parts[i + 1];
      SplitJoin(r);
      SplitWordSpace(parts[0], Join(" ", r));
      assert Join(" ", parts) == parts[0] + " " + Join(" ", r);
      Cons(parts);
    }
  }

  /** Reading back the bytes of a payload text as `_load` does:
      `bytes(int(b, 16) for b in text.split())`. A token that is not a
      hexadecimal literal, or whose value is not a byte, raises `ValueError`. */
  function ParseBytes(tokens: seq<string>): (r: Result<seq<byte>>)
    ensures r.Ok? ==> |r.value| == |tokens|
    ensures r.Err? ==> r.error.ValueError?
  {
    if tokens == [] then Ok([])
    else
      match ParseHexInt(tokens[0])
      case Err(e) => Err(e)
      case Ok(v) =>
        if !(0 <= v < 256) then Err(ValueError("bytes must be in range(0, 256)"))
        else
          match ParseBytes(tokens[1..])
          case Err(e) => Err(e)
          case Ok(rest) => Ok([v as byte] + rest)
  }

  /** The bytes parse exactly when every token is a hexadecimal literal
      whose value is a byte, and byte i is the value of token i. */
  lemma {:induction false} ParseBytesValues(tokens: seq<string>)
    ensures var r := ParseBytes(tokens);
      && (r.Ok? <==> forall i :: 0 <= i < |tokens| ==>
            ParseHexInt(tokens[i]).Ok? && 0 <= ParseHexInt(tokens[i]).value < 256)
      && (r.Ok? ==> forall i :: 0 <= i < |tokens| ==> r.value[i] as int == ParseHexInt(tokens[i]).value)
  {
    if tokens != [] {
      ParseBytesValues(tokens[1..]);
      assert forall i :: 1 <= i < |tokens| ==> tokens[1..][i - 1] == tokens[i];
    }
  }

  lemma {:induction false} ParseByteHexes(data: seq<byte>)
    ensures ParseBytes(ByteHexes(data)) == Ok(data)
  {
    if data != [] {
      assert ByteHexes(data)[1..] == ByteHexes(data[1..]);
      ParseByteHexes(data[1..]);
      assert data == [data[0]] + data[1..];
    }
  }

  /** The payload text round trip: splitting `" ".join(f"{b:02X}" ...)` and
      reading every token with `int(b, 16)` returns the original bytes. */
  lemma HexBytesRoundTrip(data: seq<byte>)
    ensures ParseBytes(Split(HexBytes(data))) == Ok(data)
  {
    SplitJoin(ByteHexes(data));
    ParseByteHexes(data);
  }

  /** Every part is two characters long. */
  predicate AllPairs(parts: seq<string>)
  {
    forall k :: 0 <= k < |parts| ==> |parts[k]| == 2
  }

  lemma {:induction false} JoinPairsLength(parts: seq<string>)
    requires AllPairs(parts)
    ensures |Join(" ", parts)| == if parts == [] then 0 else 3 * |parts| - 1
  {
    if |parts| > 1 {
      JoinPairsLength(parts[1..]);
    }
  }

  lemma {:induction false} JoinPairsAt(parts: seq<string>, i: nat)
    requires AllPairs(parts) && i < |parts|
    ensures 3 * i + 2 <= |Join(" ", parts)|
    ensures Join(" ", parts)[3 * i..3 * i + 2] == parts[i]
  {
    JoinPairsLength(parts);
    if |parts| > 1 {
      var rest := Join(" ", parts[1..]);
      assert Join(" ", parts) == (parts[0] + " ") + rest;
      if i == 0 {
        assert Join(" ", parts)[..2] == parts[0];
      } else {
        var j := i - 1;
        JoinPairsAt(parts[1..], j);
        assert 3 * i == 3 * j + 3;
        assert Join(" ", parts)[3 * i..3 * i + 2] == rest[3 * j..3 * j + 2];
      }
    }
  }

  lemma {:induction false} JoinPairsSeparator(parts: seq<string>, i: nat)
    requires AllPairs(parts) && i + 1 < |parts|
    ensures 3 * i + 2 < |Join(" ", parts)| && Join(" ", parts)[3 * i + 2] == ' '
  {
    JoinPairsLength(parts);
    var rest := Join(" ", parts[1..]);
    assert Join(" ", parts) == (parts[0] + " ") + rest;
    if i > 0 {
      var j := i - 1;
      JoinPairsSeparator(parts[1..], j);
      assert 3 * i + 2 == 3 * j + 2 + 3;
    }
  }

  /** The payload text has three characters per byte but the last, and none
      for an empty payload. */
  lemma HexBytesLength(data: seq<byte>)
    ensures |HexBytes(data)| == if data == [] then 0 else 3 * |data| - 1
  {
    JoinPairsLength(ByteHexes(data));
  }

  /** Byte `i` of the payload is written as two upper-case digits at offset `3 * i`. */
  lemma HexBytesPair(data: seq<byte>, i: nat)
    requires i < |data|
    ensures 3 * i + 2 <= |HexBytes(data)|
    ensures HexBytes(data)[3 * i..3 * i + 2] == ByteHex(data[i])
  {
    JoinPairsAt(ByteHexes(data), i);
  }

  /** Consecutive pairs are separated by exactly one space. */
  lemma HexBytesSeparator(data: seq<byte>, i: nat)
    requires i + 1 < |data|
    ensures 3 * i + 2 < |HexBytes(data)| && HexBytes(data)[3 * i + 2] == ' '
  {
    JoinPairsSeparator(ByteHexes(data), i);
  }
}
