/** The parts of the .NET base library that the topic converter relies on: the exceptions it
    can throw, unchecked 64-bit arithmetic, `String.Split(char)`, `UInt64.Parse(string)` and
    ordinal case-insensitive comparison. */
module DotNet {
  import opened Wrappers
  import opened Bytes

  /** The exceptions a topic decode can end in. `site` is the wire key whose processing threw. */
  datatype Exception =
    | KeyNotFound(site: string)         // JsonElement.GetProperty: the object has no such key
    | InvalidOperation(site: string)    // a JsonElement getter applied to a value of the wrong kind
    | Format(site: string)              // a number the getter's type cannot hold, or text that is no number
    | Overflow(site: string)            // UInt64.Parse of a value outside 0 .. 2^64 - 1
    | ArgumentNull(site: string)        // Enum.Parse of a null string
    | Argument(site: string)            // Enum.Parse of a string naming no member
    | IndexOutOfRange(site: string)     // indexing a Split result past its end
    | InvalidEnumArgument(site: string) // the converter's own throw from a switch default arm

  const U64Modulus: nat := 0x1_0000_0000_0000_0000

  /** Unchecked `ulong` arithmetic: the result is reduced modulo 2^64. */
  function WrapU64(x: nat): (r: u64)
    ensures x < U64Modulus ==> r == x
  {
    x % U64Modulus
  }

  // ---------------------------------------------------------------- String.Split

  /** `s.Split(sep)`: the maximal runs between separators, empty runs included. */
  function Split(s: string, sep: char): (parts: seq<string>)
    ensures |parts| >= 1
  {
    if |s| == 0 then [""]
    else
      var rest := Split(s[1..], sep);
      if s[0] == sep then [""] + rest else [[s[0]] + rest[0]] + rest[1..]
  }

  /** `String.Join(sep, parts)`. */
  function Join(parts: seq<string>, sep: char): string
  {
    if |parts| == 0 then ""
    else if |parts| == 1 then parts[0]
    else parts[0] + [sep] + Join(parts[1..], sep)
  }

  /** Splitting loses nothing: joining the parts again gives back the string,
      and no part contains the separator. */
  lemma SplitJoin(s: string, sep: char)
    ensures Join(Split(s, sep), sep) == s
    ensures forall i :: 0 <= i < |Split(s, sep)| ==> sep !in Split(s, sep)[i]
  {
    JoinSplit(s, sep);
    SplitPartsWithout(s, sep);
  }

  lemma {:induction false} JoinSplit(s: string, sep: char)
    ensures Join(Split(s, sep), sep) == s
  {
    if |s| > 0 {
      var rest := Split(s[1..], sep);
      JoinSplit(s[1..], sep);
      if s[0] == sep {
        assert Split(s, sep)[1..] == rest;
      } else {
        var parts := Split(s, sep);
        assert parts[1..] == rest[1..];
        if |rest| == 1 {
          assert Join(parts, sep) == [s[0]] + rest[0];
        } else {
          assert Join(rest, sep) == rest[0] + [sep] + Join(rest[1..], sep);
        }
        assert s == [s[0]] + s[1..];
      }
    }
  }

  lemma {:induction false} SplitPartsWithout(s: string, sep: char)
    ensures forall i :: 0 <= i < |Split(s, sep)| ==> sep !in Split(s, sep)[i]
  {
    if |s| > 0 {
      var rest := Split(s[1..], sep);
      SplitPartsWithout(s[1..], sep);
      if s[0] != sep {
        var parts := Split(s, sep);
        assert parts[1..] == rest[1..];
        assert parts[0] == [s[0]] + rest[0];
      }
    }
  }

  /** A string without separators is its own single part, followed by whatever follows it. */
  lemma {:induction false} SplitPrefixWithoutSeparator(a: string, tail: string, sep: char)
    requires sep !in a
    ensures Split(a + tail, sep) == [a + Split(tail, sep)[0]] + Split(tail, sep)[1..]
  {
    if |a| > 0 {
      assert (a + tail)[1..] == a[1..] + tail;
      SplitPrefixWithoutSeparator(a[1..], tail, sep);
      assert [a[0]] + (a[1..] + Split(tail, sep)[0]) == a + Split(tail, sep)[0];
    } else {
      var parts := Split(tail, sep);
      assert a + tail == tail && a + parts[0] == parts[0];
      assert [parts[0]] + parts[1..] == parts;
    }
  }

  /** A string without the separator does not split. */
  lemma SplitWithoutSeparator(s: string, sep: char)
    requires sep !in s
    ensures Split(s, sep) == [s]
  {
    SplitPrefixWithoutSeparator(s, "", sep);
    assert s + "" == s;
  }

  /** The first part ends at the first separator; the rest is split on its own. */
  lemma SplitAtFirst(a: string, b: string, sep: char)
    requires sep !in a
    ensures Split(a + [sep] + b, sep) == [a] + Split(b, sep)
  {
    var sb := [sep] + b;
    assert sb[1..] == b;
    assert Split(sb, sep) == [""] + Split(b, sep);
    assert a + [sep] + b == a + sb;
    SplitPrefixWithoutSeparator(a, sb, sep);
    assert a + "" == a;
  }

  /** Two separator-free strings joined by one separator split into exactly those two. */
  lemma SplitPair(a: string, b: string, sep: char)
    requires sep !in a && sep !in b
    ensures Split(a + [sep] + b, sep) == [a, b]
  {
    SplitAtFirst(a, b, sep);
    SplitWithoutSeparator(b, sep);
  }

  // ---------------------------------------------------------------- UInt64.Parse

  /** The white space `NumberStyles.Integer` allows around a number: U+0009 .. U+000D and U+0020. */
  predicate IsWhite(c: char) {
    c == ' ' || '\t' <= c <= '\r'
  }

  predicate IsDigit(c: char) {
    '0' <= c <= '9'
  }

  predicate AllDigits(s: string) {
    forall i :: 0 <= i < |s| ==> IsDigit(s[i])
  }

  function TrimLeadingWhite(s: string): (r: string)
    ensures |r| <= |s| && r == s[|s| - |r|..]
    ensures |r| > 0 ==> !IsWhite(r[0])
  {
    if |s| > 0 && IsWhite(s[0]) then TrimLeadingWhite(s[1..]) else s
  }

  function TrimTrailingWhite(s: string): (r: string)
    ensures |r| <= |s| && r == s[..|r|]
    ensures |r| > 0 ==> !IsWhite(r[|r| - 1])
  {
    if |s| > 0 && IsWhite(s[|s| - 1]) then TrimTrailingWhite(s[..|s| - 1]) else s
  }

  /** The NUL characters the parser accepts at the very end, after any trailing white space. */
  function TrimTrailingNul(s: string): (r: string)
    ensures |r| <= |s| && r == s[..|r|]
    ensures |r| > 0 ==> r[|r| - 1] != '\0'
  {
    if |s| > 0 && s[|s| - 1] == '\0' then TrimTrailingNul(s[..|s| - 1]) else s
  }

  /** The value of a string of decimal digits, most significant first. */
  function DigitsValue(s: string): nat
    requires AllDigits(s)
  {
    if |s| == 0 then 0 else 10 * DigitsValue(s[..|s| - 1]) + (s[|s| - 1] as int - '0' as int)
  }

  /** `UInt64.Parse(s)` under the invariant culture: optional white space, an optional sign,
      at least one digit, optional white space, then any number of NUL characters. Anything
      else is a FormatException; a value above 2^64 - 1, or a negative one, is an
      OverflowException ("-0" is zero). */
  function ParseUInt64(s: string, site: string): (r: Result<u64, Exception>)
    ensures r.Err? ==> r.error == Format(site) || r.error == Overflow(site)
  {
    ParseSignedDigits(TrimTrailingWhite(TrimTrailingNul(TrimLeadingWhite(s))), site)
  }

  /** The number itself, once the white space and NULs around it are gone. */
  function ParseSignedDigits(t: string, site: string): (r: Result<u64, Exception>)
    ensures r.Err? ==> r.error == Format(site) || r.error == Overflow(site)
  {
    var negative := |t| > 0 && t[0] == '-';
    var digits := if |t| > 0 && (t[0] == '+' || t[0] == '-') then t[1..] else t;
    if |digits| == 0 || !AllDigits(digits) then Err(Format(site))
    else if DigitsValue(digits) >= U64Modulus || (negative && DigitsValue(digits) != 0) then Err(Overflow(site))
    else Ok(DigitsValue(digits))
  }

  /** The decimal digits of n, without sign or leading zeros (what `ulong.ToString()` prints). */
  function Decimal(n: nat): (s: string)
    ensures |s| > 0 && AllDigits(s)
  {
    var last := [('0' as int + n % 10) as char];
    if n < 10 then last else Decimal(n / 10) + last
  }

  lemma {:induction false} DecimalValue(n: nat)
    ensures DigitsValue(Decimal(n)) == n
  {
    var s := Decimal(n);
    if n >= 10 {
      assert s[..|s| - 1] == Decimal(n / 10);
      DecimalValue(n / 10);
    }
  }

  /** A printed number holds nothing but digits, so no separator either. */
  lemma DecimalWithout(n: nat, c: char)
    requires !IsDigit(c)
    ensures c !in Decimal(n)
  {
    var s := Decimal(n);
    assert forall i :: 0 <= i < |s| ==> s[i] != c;
  }

  /** `UInt64.Parse` reads back every decimal it could print. */
  lemma ParseDecimal(n: nat, site: string)
    requires n < U64Modulus
    ensures ParseUInt64(Decimal(n), site) == Ok(n)
  {
    var s := Decimal(n);
    assert !IsWhite(s[0]) && !IsWhite(s[|s| - 1]);
    assert TrimLeadingWhite(s) == s;
    assert TrimTrailingNul(s) == s;
    assert TrimTrailingWhite(s) == s;
    assert s[0] != '+' && s[0] != '-';
    DecimalValue(n);
  }

  /** The NUL characters appended to a string that does not end in one are exactly what
      `TrimTrailingNul` removes. */
  lemma {:induction false} TrimAppendedNuls(s: string, nuls: nat)
    requires |s| > 0 && s[|s| - 1] != '\0'
    ensures TrimTrailingNul(s + seq(nuls, _ => '\0')) == s
  {
    var padded := s + seq(nuls, _ => '\0');
    if nuls == 0 {
      assert padded == s;
    } else {
      assert padded[..|padded| - 1] == s + seq(nuls - 1, _ => '\0');
      TrimAppendedNuls(s, nuls - 1);
    }
  }

  /** The parse depends only on the text left after trimming. */
  lemma ParseOfTrimmed(a: string, b: string, site: string)
    requires TrimTrailingWhite(TrimTrailingNul(TrimLeadingWhite(a))) == TrimTrailingWhite(TrimTrailingNul(TrimLeadingWhite(b)))
    ensures ParseUInt64(a, site) == ParseUInt64(b, site)
  {
  }

  /** NUL characters after the number are accepted and change nothing. */
  lemma ParseTrailingNul(n: nat, nuls: nat, site: string)
    requires n < U64Modulus
    ensures ParseUInt64(Decimal(n) + seq(nuls, _ => '\0'), site) == Ok(n)
  {
    var s := Decimal(n);
    var padded := s + seq(nuls, _ => '\0');
    assert padded[0] == s[0] && !IsWhite(s[0]);
    assert TrimLeadingWhite(padded) == padded;
    TrimAppendedNuls(s, nuls);
    TrimAppendedNuls(s, 0);
    assert s + seq(0, _ => '\0') == s;
    assert TrimLeadingWhite(s) == s;
    ParseOfTrimmed(padded, s, site);
    ParseDecimal(n, site);
  }

  /** Text without a single decimal digit is never a number. */
  lemma ParseWithoutDigits(s: string, site: string)
    requires forall i :: 0 <= i < |s| ==> !IsDigit(s[i])
    ensures ParseUInt64(s, site) == Err(Format(site))
  {
    var lead := TrimLeadingWhite(s);
    var body := TrimTrailingNul(lead);
    var t := TrimTrailingWhite(body);
    var digits := if |t| > 0 && (t[0] == '+' || t[0] == '-') then t[1..] else t;
    if |digits| > 0 {
      var k := if |t| > 0 && (t[0] == '+' || t[0] == '-') then 1 else 0;
      assert digits[0] == t[k] == body[k] == lead[k] == s[|s| - |lead| + k];
    }
  }

  // ---------------------------------------------------------------- ordinal ignore-case

  function UpperAscii(c: char): char {
    if 'a' <= c <= 'z' then (c as int - 32) as char else c
  }

  function UpperAsciiString(s: string): (r: string)
    ensures |r| == |s|
    ensures forall i :: 0 <= i < |s| ==> r[i] == UpperAscii(s[i])
  {
    if |s| == 0 then "" else [UpperAscii(s[0])] + UpperAsciiString(s[1..])
  }

  /** `string.Equals(a, b, StringComparison.OrdinalIgnoreCase)` restricted to ASCII case folding. */
  predicate EqualsIgnoreCase(a: string, b: string) {
    UpperAsciiString(a) == UpperAsciiString(b)
  }
}
