/** The JavaScript string operations the core uses, on `seq<char>`:
    `trim`, `toLowerCase`/`toUpperCase`, `includes`, `startsWith`,
    `substring`, `split(" ")`, the `/[$,\s]/g` strip, `parseInt`,
    `parseFloat`, `Number(string)` and number-to-string. */
module Text {
  import opened Wrappers
  import Seqs

  // ---------------------------------------------------------------------
  // White space (ECMAScript WhiteSpace and LineTerminator, the set used by
  // String.prototype.trim and by the regular-expression class \s)
  // ---------------------------------------------------------------------

  predicate IsSpace(c: char)
  {
    c == '\t' || c == '\n' || c == '\U{000B}' || c == '\U{000C}' || c == '\r' || c == ' '
    || c == '\U{00A0}' || c == '\U{1680}' || ('\U{2000}' <= c <= '\U{200A}')
    || c == '\U{2028}' || c == '\U{2029}' || c == '\U{202F}' || c == '\U{205F}'
    || c == '\U{3000}' || c == '\U{FEFF}'
  }

  predicate AllSpace(s: string)
  {
    forall i :: 0 <= i < |s| ==> IsSpace(s[i])
  }

  /** `s.trimStart()`. */
  function TrimStart(s: string): (r: string)
    ensures |r| <= |s|
    ensures r == [] || !IsSpace(r[0])
  {
    if s == [] || !IsSpace(s[0]) then s else TrimStart(s[1..])
  }

  /** `s.trimEnd()`. */
  function TrimEnd(s: string): (r: string)
    ensures |r| <= |s|
    ensures r == [] || !IsSpace(r[|r| - 1])
    ensures r != [] ==> r[0] == s[0]
  {
    if s == [] || !IsSpace(s[|s| - 1]) then s else TrimEnd(s[..|s| - 1])
  }

  /** `trimStart` keeps a suffix and cuts only white space. */
  lemma {:induction false} TrimStartSlice(s: string)
    ensures TrimStart(s) == s[|s| - |TrimStart(s)|..]
    ensures AllSpace(s[..|s| - |TrimStart(s)|])
  {
    if s != [] && IsSpace(s[0]) {
      TrimStartSlice(s[1..]);
      var r := TrimStart(s);
      assert s[1..][..|s[1..]| - |r|] == s[1..|s| - |r|];
    }
  }

  /** `trimEnd` keeps a prefix and cuts only white space. */
  lemma {:induction false} TrimEndSlice(s: string)
    ensures TrimEnd(s) == s[..|TrimEnd(s)|]
    ensures AllSpace(s[|TrimEnd(s)|..])
  {
    if s != [] && IsSpace(s[|s| - 1]) {
      TrimEndSlice(s[..|s| - 1]);
      var r := TrimEnd(s);
      assert s[..|s| - 1][|r|..] == s[|r|..|s| - 1];
    }
  }

  /** `s.trim()`: no white space left at either end. */
  function Trim(s: string): (r: string)
    ensures |r| <= |s|
    ensures r == [] || (!IsSpace(r[0]) && !IsSpace(r[|r| - 1]))
  {
    TrimEnd(TrimStart(s))
  }

  /** What `Trim` keeps is a slice of the original. */
  lemma TrimOccurs(s: string)
    ensures exists i :: OccursAt(s, Trim(s), i)
  {
    var t := TrimStart(s);
    var r := TrimEnd(t);
    TrimStartSlice(s);
    TrimEndSlice(t);
    assert r == Trim(s);
    assert r == s[|s| - |t|..|s| - |t| + |r|];
    assert OccursAt(s, r, |s| - |t|);
  }

  /** A string trims to "" exactly when it is all white space. */
  lemma TrimEmptyIff(s: string)
    ensures Trim(s) == [] <==> AllSpace(s)
  {
    var t := TrimStart(s);
    var r := TrimEnd(t);
    TrimStartSlice(s);
    TrimEndSlice(t);
    assert r == Trim(s);
    if r == [] {
      assert AllSpace(t);
      assert AllSpace(s[..|s| - |t|]);
      assert s == s[..|s| - |t|] + t;
    } else {
      assert t[0] == r[0];
      assert s[|s| - |t|] == t[0];
    }
  }

  /** A string with no white space at either end trims to itself. */
  lemma TrimUnchanged(s: string)
    requires s == [] || (!IsSpace(s[0]) && !IsSpace(s[|s| - 1]))
    ensures Trim(s) == s
  {
  }

  // ---------------------------------------------------------------------
  // Case mapping (ASCII and the Latin-1 letters used in Spanish text)
  // ---------------------------------------------------------------------

  predicate IsUpperLetter(c: char)
  {
    ('A' <= c <= 'Z') || ('\U{00C0}' <= c <= '\U{00DE}' && c != '\U{00D7}')
  }

  predicate IsLowerLetter(c: char)
  {
    ('a' <= c <= 'z') || ('\U{00E0}' <= c <= '\U{00FE}' && c != '\U{00F7}')
  }

  function LowerChar(c: char): (r: char)
    ensures !IsUpperLetter(r)
    ensures IsUpperLetter(c) || r == c
  {
    if IsUpperLetter(c) then (c as int + 32) as char else c
  }

  function UpperChar(c: char): (r: char)
    ensures !IsLowerLetter(r)
    ensures IsLowerLetter(c) || r == c
  {
    if IsLowerLetter(c) then (c as int - 32) as char else c
  }

  /** `s.toLowerCase()`. */
  function ToLower(s: string): (r: string)
    ensures |r| == |s|
    ensures forall i :: 0 <= i < |s| ==> r[i] == LowerChar(s[i])
  {
    if s == [] then [] else [LowerChar(s[0])] + ToLower(s[1..])
  }

  /** `s.toUpperCase()`. */
  function ToUpper(s: string): (r: string)
    ensures |r| == |s|
    ensures forall i :: 0 <= i < |s| ==> r[i] == UpperChar(s[i])
  {
    if s == [] then [] else [UpperChar(s[0])] + ToUpper(s[1..])
  }

  lemma ToLowerIdempotent(s: string)
    ensures ToLower(ToLower(s)) == ToLower(s)
  {
  }

  /** Lower-casing forgets an earlier upper-casing. */
  lemma LowerOfUpper(s: string)
    ensures ToLower(ToUpper(s)) == ToLower(s)
  {
    forall i | 0 <= i < |s| ensures ToLower(ToUpper(s))[i] == ToLower(s)[i] {
      var c := s[i];
      if IsLowerLetter(c) {
        assert IsUpperLetter(UpperChar(c));
      }
    }
  }

  /** Case mapping leaves white space alone and makes none. */
  lemma AllSpaceUpper(s: string)
    ensures AllSpace(ToUpper(s)) <==> AllSpace(s)
  {
    forall i | 0 <= i < |s| ensures IsSpace(ToUpper(s)[i]) <==> IsSpace(s[i]) {
      var c := s[i];
      if IsLowerLetter(c) {
        assert !IsSpace(c) && !IsSpace(UpperChar(c));
      }
    }
  }

  /** Lower-casing leaves white space alone and makes none. */
  lemma AllSpaceLower(s: string)
    ensures AllSpace(ToLower(s)) <==> AllSpace(s)
  {
    forall i | 0 <= i < |s| ensures IsSpace(ToLower(s)[i]) <==> IsSpace(s[i]) {
      var c := s[i];
      if IsUpperLetter(c) {
        assert !IsSpace(c) && !IsSpace(LowerChar(c));
      }
    }
  }

  // ---------------------------------------------------------------------
  // Searching
  // ---------------------------------------------------------------------

  /** `s.startsWith(p)`. */
  predicate StartsWith(s: string, p: string)
  {
    |p| <= |s| && s[..|p|] == p
  }

  /** A string starts with anything that starts what is prepended to it. */
  lemma StartsWithAppend(p: string, q: string, t: string)
    requires StartsWith(p, q)
    ensures StartsWith(p + t, q)
  {
    assert (p + t)[..|q|] == p[..|q|];
  }

  /** `s.includes(t)`, as the scan the engine performs. */
  function Includes(s: string, t: string): bool
  {
    StartsWith(s, t) || (s != [] && Includes(s[1..], t))
  }

  /** `t` occurs in `s` at position `i`. */
  predicate OccursAt(s: string, t: string, i: int)
  {
    0 <= i && i + |t| <= |s| && s[i..i + |t|] == t
  }

  /** The scan finds `t` exactly when `t` occurs somewhere in `s`. */
  lemma {:induction false} IncludesIff(s: string, t: string)
    ensures Includes(s, t) <==> exists i :: OccursAt(s, t, i)
  {
    if StartsWith(s, t) {
      assert OccursAt(s, t, 0);
    } else if s == [] {
    } else {
      IncludesIff(s[1..], t);
      if exists i :: OccursAt(s[1..], t, i) {
        var i :| OccursAt(s[1..], t, i);
        assert s[1..][i..i + |t|] == s[i + 1..i + 1 + |t|];
        assert OccursAt(s, t, i + 1);
      }
      if exists i :: OccursAt(s, t, i) {
        var i :| OccursAt(s, t, i);
        assert i != 0;
        assert s[1..][i - 1..i - 1 + |t|] == s[i..i + |t|];
        assert OccursAt(s[1..], t, i - 1);
      }
    }
  }

  /** Every string includes the empty string. */
  lemma IncludesEmpty(s: string)
    ensures Includes(s, "")
  {
    assert StartsWith(s, "");
  }

  /** The empty string includes only the empty string. */
  lemma EmptyIncludes(t: string)
    ensures Includes("", t) <==> t == ""
  {
  }

  // ---------------------------------------------------------------------
  // Slicing and splitting
  // ---------------------------------------------------------------------

  /** `s.substring(0, n)` for `n >= 0`. */
  function Take(s: string, n: nat): (r: string)
    ensures |r| == if n < |s| then n else |s|
    ensures StartsWith(s, r)
  {
    if n < |s| then s[..n] else s
  }

  /** The parts joined back with `sep` between them. */
  function Join(parts: seq<string>, sep: char): string
  {
    if parts == [] then ""
    else if |parts| == 1 then parts[0]
    else parts[0] + [sep] + Join(parts[1..], sep)
  }

  /** `s.split(sep)` for a one-character separator: never empty, no part holds
      the separator, and joining the parts gives `s` back. */
  function Split(s: string, sep: char): (r: seq<string>)
    ensures |r| >= 1
    ensures forall k :: 0 <= k < |r| ==> sep !in r[k]
    ensures Join(r, sep) == s
  {
    if s == [] then [""]
    else
      var rest := Split(s[1..], sep);
      if s[0] == sep then
        [""] + rest
      else
        var r := [[s[0]] + rest[0]] + rest[1..];
        assert Join(r, sep) == s by {
          if |rest| > 1 {
            assert Join(rest, sep) == rest[0] + [sep] + Join(rest[1..], sep);
            assert r[1..] == rest[1..];
          }
        }
        r
  }

  /** A string without the separator splits into itself alone. */
  lemma {:induction false} SplitNoSep(s: string, sep: char)
    requires sep !in s
    ensures Split(s, sep) == [s]
  {
    if s != [] {
      SplitNoSep(s[1..], sep);
    }
  }

  // ---------------------------------------------------------------------
  // Digits, integer to string, parseInt
  // ---------------------------------------------------------------------

  predicate IsDigit(c: char)
  {
    '0' <= c <= '9'
  }

  predicate AllDigits(s: string)
  {
    forall i :: 0 <= i < |s| ==> IsDigit(s[i])
  }

  function DigitChar(d: nat): (c: char)
    requires d < 10
    ensures IsDigit(c)
  {
    ('0' as int + d) as char
  }

  /** The number a run of decimal digits denotes (most significant first). */
  function DigitsValue(d: string): nat
    requires AllDigits(d)
  {
    if d == [] then 0
    else DigitsValue(d[..|d| - 1]) * 10 + (d[|d| - 1] as int - '0' as int)
  }

  function Pow10(k: nat): (r: nat)
    ensures r >= 1
  {
    if k == 0 then 1 else 10 * Pow10(k - 1)
  }

  /** The decimal numeral of a natural number, as `String(n)` writes it. */
  function NatToString(n: nat): (r: string)
    ensures |r| >= 1 && AllDigits(r)
    ensures |r| > 1 ==> r[0] != '0'
  {
    if n < 10 then [DigitChar(n)] else NatToString(n / 10) + [DigitChar(n % 10)]
  }

  /** `String(i)` for an integer. */
  function IntToString(i: int): (r: string)
    ensures |r| >= 1
    ensures i < 0 <==> r[0] == '-'
  {
    if i < 0 then "-" + NatToString(-i) else NatToString(i)
  }

  /** Reading the numeral back gives the number. */
  lemma {:induction false} NatToStringValue(n: nat)
    ensures DigitsValue(NatToString(n)) == n
  {
    if n >= 10 {
      NatToStringValue(n / 10);
      var s := NatToString(n);
      assert s[..|s| - 1] == NatToString(n / 10);
    }
  }

  /** How many decimal digits `s` starts with. */
  function LeadingDigits(s: string): (r: nat)
    ensures r <= |s| && AllDigits(s[..r])
    ensures r < |s| ==> !IsDigit(s[r])
  {
    if s == [] || !IsDigit(s[0]) then 0
    else
      var r := 1 + LeadingDigits(s[1..]);
      assert s[..r] == [s[0]] + s[1..][..r - 1];
      r
  }

  lemma {:induction false} LeadingDigitsAll(s: string)
    requires AllDigits(s)
    ensures LeadingDigits(s) == |s|
  {
    if s != [] {
      LeadingDigitsAll(s[1..]);
    }
  }

  /** `parseInt(s, 10)`: leading white space skipped, an optional sign, then the
      longest run of digits; `None` (NaN) when there is no digit. */
  function ParseInt(s: string): (r: Option<int>)
    ensures AllSpace(s) ==> r.None?
  {
    TrimStartSlice(s);
    var t := TrimStart(s);
    var negative := t != [] && t[0] == '-';
    var u := if t != [] && (t[0] == '+' || t[0] == '-') then t[1..] else t;
    var n := LeadingDigits(u);
    if n == 0 then None
    else
      var v: int := DigitsValue(u[..n]);
      Some(if negative then -v else v)
  }

  /** `parseInt` of a numeral. */
  lemma ParseIntOfNumeral(d: string)
    requires d != [] && AllDigits(d)
    ensures ParseInt(d) == Some(DigitsValue(d) as int)
  {
    LeadingDigitsAll(d);
    assert d[..|d|] == d;
    assert TrimStart(d) == d by { assert !IsSpace(d[0]); }
  }

  /** `parseInt` of a numeral behind a minus sign. */
  lemma ParseIntOfNegativeNumeral(d: string)
    requires d != [] && AllDigits(d)
    ensures ParseInt("-" + d) == Some(-(DigitsValue(d) as int))
  {
    LeadingDigitsAll(d);
    assert d[..|d|] == d;
    var m := "-" + d;
    assert TrimStart(m) == m by { assert !IsSpace(m[0]); }
    assert m[1..] == d;
  }

  /** `parseInt` of a numeral, with or without a minus sign. */
  lemma ParseIntOfDigits(d: string)
    requires d != [] && AllDigits(d)
    ensures ParseInt(d) == Some(DigitsValue(d) as int)
    ensures ParseInt("-" + d) == Some(-(DigitsValue(d) as int))
  {
    ParseIntOfNumeral(d);
    ParseIntOfNegativeNumeral(d);
  }

  /** `parseInt` reads back what `String` writes. */
  lemma ParseIntOfIntToString(i: int)
    ensures ParseInt(IntToString(i)) == Some(i)
  {
    var n: nat := if i < 0 then -i else i;
    var d := NatToString(n);
    NatToStringValue(n);
    assert DigitsValue(d) == n;
    ParseIntOfDigits(d);
    if i < 0 {
      assert IntToString(i) == "-" + d;
      assert ParseInt("-" + d) == Some(-(DigitsValue(d) as int));
    } else {
      assert IntToString(i) == d;
      assert ParseInt(d) == Some(DigitsValue(d) as int);
    }
  }

  // ---------------------------------------------------------------------
  // Decimal numbers: parseFloat and Number(string)
  // ---------------------------------------------------------------------

  /** The value of the digits after a decimal point. */
  function Fraction(d: string): (r: real)
    requires AllDigits(d)
    ensures r >= 0.0
  {
    DigitsValue(d) as real / Pow10(|d|) as real
  }

  /** A number read from the front of a string: its value and how many
      characters it took. */
  datatype Scan = Scan(value: real, length: nat)

  /** The value of the numeral `a.b`. */
  function Decimal(a: string, b: string): (r: real)
    requires AllDigits(a) && AllDigits(b)
    ensures r >= DigitsValue(a) as real
  {
    DigitsValue(a) as real + Fraction(b)
  }

  /** The longest prefix of `s` of the form digits [ "." digits ] holding at
      least one digit: its value and its length. */
  function ScanUnsigned(s: string): (r: Option<Scan>)
    ensures r.Some? ==> 0 < r.value.length <= |s| && r.value.value >= 0.0
  {
    var a := LeadingDigits(s);
    if a < |s| && s[a] == '.' then
      var b := LeadingDigits(s[a + 1..]);
      if a + b == 0 then None
      else
        Some(Scan(Decimal(s[..a], s[a + 1..][..b]), a + 1 + b))
    else if a == 0 then None
    else Some(Scan(DigitsValue(s[..a]) as real, a))
  }

  /** As ScanUnsigned, after an optional `+` or `-`. */
  function ScanSigned(s: string): (r: Option<Scan>)
    ensures r.Some? ==> 0 < r.value.length <= |s|
  {
    if s != [] && (s[0] == '+' || s[0] == '-') then
      match ScanUnsigned(s[1..])
      case None => None
      case Some(p) => Some(Scan(if s[0] == '-' then -p.value else p.value, p.length + 1))
    else ScanUnsigned(s)
  }

  /** `parseFloat(s)`: `None` is NaN. Exponents and "Infinity" are not read. */
  function ParseFloat(s: string): (r: Option<real>)
    ensures r.None? <==> ScanSigned(TrimStart(s)).None?
  {
    match ScanSigned(TrimStart(s))
    case None => None
    case Some(p) => Some(p.value)
  }

  /** Digits stop at the first character that is not one. */
  lemma {:induction false} LeadingDigitsPrefix(a: string, rest: string)
    requires AllDigits(a) && (rest == [] || !IsDigit(rest[0]))
    ensures LeadingDigits(a + rest) == |a|
  {
    if a == [] {
      assert a + rest == rest;
    } else {
      assert (a + rest)[1..] == a[1..] + rest;
      LeadingDigitsPrefix(a[1..], rest);
    }
  }

  /** `parseFloat` of a decimal numeral `a.b`. */
  lemma ParseFloatDecimal(a: string, b: string)
    requires a != [] && b != [] && AllDigits(a) && AllDigits(b)
    ensures ParseFloat(a + "." + b) == Some(Decimal(a, b))
  {
    var s := a + "." + b;
    ScanUnsignedDecimal(a, b);
    assert s[0] == a[0];
    assert ScanSigned(s) == ScanUnsigned(s);
    assert TrimStart(s) == s;
  }

  /** The scan of a decimal numeral `a.b` reads all of it. */
  lemma ScanUnsignedDecimal(a: string, b: string)
    requires a != [] && b != [] && AllDigits(a) && AllDigits(b)
    ensures ScanUnsigned(a + "." + b) == Some(Scan(Decimal(a, b), |a| + 1 + |b|))
  {
    var s := a + "." + b;
    assert s == a + ("." + b);
    LeadingDigitsPrefix(a, "." + b);
    var k := LeadingDigits(s);
    assert k == |a| && s[k] == '.';
    assert s[..k] == a;
    assert s[k + 1..] == b;
    LeadingDigitsAll(b);
    var m := LeadingDigits(s[k + 1..]);
    assert s[k + 1..][..m] == b;
  }

  /** `parseFloat` is NaN for text that does not start like a number. */
  lemma ParseFloatNoNumber(s: string)
    requires s != [] && !IsSpace(s[0]) && !IsDigit(s[0])
    requires s[0] != '+' && s[0] != '-' && s[0] != '.'
    ensures ParseFloat(s) == None
  {
    assert TrimStart(s) == s;
  }

  /** `Number(s)` for a string: the whole trimmed string must be a numeral;
      a blank string is 0; `None` is NaN. */
  function NumberOf(s: string): (r: Option<real>)
    ensures AllSpace(s) ==> r == Some(0.0)
  {
    var t := Trim(s);
    TrimEmptyIff(s);
    if t == [] then Some(0.0)
    else
      match ScanSigned(t)
      case Some(p) => if p.length == |t| then Some(p.value) else None
      case None => None
  }

  predicate KeptInPrice(c: char)
  {
    c != '$' && c != ',' && !IsSpace(c)
  }

  /** `s.replace(/[$,\s]/g, "")`. */
  function StripPriceChars(s: string): string
  {
    if s == [] then []
    else if KeptInPrice(s[0]) then [s[0]] + StripPriceChars(s[1..])
    else StripPriceChars(s[1..])
  }

  /** The strip removes dollar signs, commas and white space, and keeps every
      other character, in order. */
  lemma {:induction false} StripPriceCharsSpec(s: string)
    ensures forall c :: c in StripPriceChars(s) ==> KeptInPrice(c)
    ensures forall c :: c in s && KeptInPrice(c) ==> c in StripPriceChars(s)
    ensures Seqs.IsSubseq(StripPriceChars(s), s)
  {
    if s != [] {
      StripPriceCharsSpec(s[1..]);
      var r := StripPriceChars(s);
      if KeptInPrice(s[0]) {
        assert r[1..] == StripPriceChars(s[1..]);
      }
    }
  }

  /** Stripping works character by character, so it distributes over
      concatenation. */
  lemma {:induction false} StripPriceCharsAppend(a: string, b: string)
    ensures StripPriceChars(a + b) == StripPriceChars(a) + StripPriceChars(b)
  {
    if a == [] {
      assert a + b == b;
    } else {
      assert (a + b)[0] == a[0] && (a + b)[1..] == a[1..] + b;
      StripPriceCharsAppend(a[1..], b);
    }
  }

  /** Text with no dollar sign, comma or white space is left as it is. */
  lemma {:induction false} StripPriceCharsKeeps(s: string)
    requires forall i :: 0 <= i < |s| ==> KeptInPrice(s[i])
    ensures StripPriceChars(s) == s
  {
    if s != [] {
      StripPriceCharsKeeps(s[1..]);
      assert s == [s[0]] + s[1..];
    }
  }
}
