/** The pieces of Python's built-in behaviour that the function-generator
    schemas lean on: `str(x)` of ints, strings and floats, `int(s)` in base 10,
    substring tests, `str.split` on one separator, `str.strip` of one
    character and `str.format` with named fields. Each is modelled on the
    value types of Dafny, with no Unicode beyond ASCII. */
module PyText {

  datatype Option<+T> = None | Some(value: T)

  /** A Python float, as the exact decimal mantissa * 10^exponent
      (no binary rounding; see README). */
  datatype Float = Float(mantissa: int, exponent: int)

  /** The Python objects a setter can receive as a read-back or user value. */
  datatype Value = IntV(i: int) | StrV(s: string) | FloatV(f: Float)

  // ---------------------------------------------------------------------------
  // Characters and decimal digits

  predicate IsDigit(c: char) { '0' <= c <= '9' }

  function DigitChar(d: nat): (c: char)
    requires d < 10
    ensures IsDigit(c) && c as int - '0' as int == d
  {
    ('0' as int + d) as char
  }

  /** The characters `int()` skips around its digits in an ASCII string:
      space, tab, newline, vertical tab, form feed and carriage return. */
  predicate IsSpace(c: char) {
    c == ' ' || c == '\t' || c == '\n' || c == '\r' || c as int == 11 || c as int == 12
  }

  function Pow10(n: nat): (p: nat)
    ensures p >= 1
  {
    if n == 0 then 1 else 10 * Pow10(n - 1)
  }

  // ---------------------------------------------------------------------------
  // str(int)

  function NatToString(n: nat): (s: string)
    ensures |s| > 0 && forall k :: 0 <= k < |s| ==> IsDigit(s[k])
  {
    if n < 10 then [DigitChar(n)] else NatToString(n / 10) + [DigitChar(n % 10)]
  }

  function IntToString(i: int): (s: string)
    ensures |s| > 0
  {
    if i < 0 then "-" + NatToString(-i) else NatToString(i)
  }

  // ---------------------------------------------------------------------------
  // int(str), base 10

  function TrimLeft(s: string): (r: string)
    ensures |r| <= |s| && r == s[|s| - |r|..]
    ensures |r| > 0 ==> !IsSpace(r[0])
  {
    if |s| > 0 && IsSpace(s[0]) then TrimLeft(s[1..]) else s
  }

  function TrimRight(s: string): (r: string)
    ensures |r| <= |s| && r == s[..|r|]
    ensures |r| > 0 ==> !IsSpace(r[|r| - 1])
  {
    if |s| > 0 && IsSpace(s[|s| - 1]) then TrimRight(s[..|s| - 1]) else s
  }

  /** The white space `int()` ignores at either end of its argument, removed. */
  function Trim(s: string): string { TrimRight(TrimLeft(s)) }

  /** A run of digits in which single underscores may separate digits, as `int()` accepts. */
  predicate DigitGroups(s: string) {
    && |s| > 0 && IsDigit(s[0]) && IsDigit(s[|s| - 1])
    && (forall k :: 0 <= k < |s| ==> IsDigit(s[k]) || s[k] == '_')
    && (forall k :: 0 <= k < |s| - 1 ==> s[k] == '_' ==> s[k + 1] != '_')
  }

  /** The number written by the digits of `s`, underscores skipped. */
  function DigitsValue(s: string): nat
    requires forall k :: 0 <= k < |s| ==> IsDigit(s[k]) || s[k] == '_'
  {
    if s == [] then 0
    else if s[|s| - 1] == '_' then DigitsValue(s[..|s| - 1])
    else DigitsValue(s[..|s| - 1]) * 10 + DigitVal(s[|s| - 1])
  }

  function DigitVal(c: char): (d: nat)
    requires IsDigit(c)
    ensures d < 10
  {
    c as int - '0' as int
  }

  /** Python's `int(s)` for a string: None where Python raises ValueError. */
  function ParseInt(s: string): (r: Option<int>)
    ensures r.Some? ==> |Trim(s)| > 0
  {
    ParseStripped(Trim(s))
  }

  /** `int()` on text already stripped of surrounding whitespace: an optional
      sign, then digit groups. */
  function ParseStripped(t: string): (r: Option<int>)
    ensures r.Some? ==> |t| > 0
  {
    var negative := |t| > 0 && t[0] == '-';
    var body := if |t| > 0 && (t[0] == '-' || t[0] == '+') then t[1..] else t;
    if DigitGroups(body) then
      var magnitude: int := DigitsValue(body);
      Some(if negative then -magnitude else magnitude)
    else None
  }

  lemma {:induction false} DigitsValueOfNatToString(n: nat)
    ensures DigitsValue(NatToString(n)) == n
  {
    var s := NatToString(n);
    if n < 10 {
      assert s[..|s| - 1] == [];
    } else {
      DigitsValueOfNatToString(n / 10);
      assert s[..|s| - 1] == NatToString(n / 10);
    }
  }

  /** `int()` refuses digits led by a character it neither skips nor reads as
      a sign or digit; the ASCII separators 28 to 31, which `str.strip()`
      would remove, are such characters. */
  lemma ParseIntRefusesOtherLead(c: char, digits: string)
    requires !IsSpace(c) && !IsDigit(c) && c != '-' && c != '+'
    requires |digits| > 0 && IsDigit(digits[|digits| - 1])
    ensures ParseInt([c] + digits) == None
  {
    var s := [c] + digits;
    DigitNotSpace(digits[|digits| - 1]);
    assert s[|s| - 1] == digits[|digits| - 1];
    TrimNoOp(s);
    assert s[0] == c;
  }

  lemma TrimNoOp(s: string)
    requires |s| > 0 && !IsSpace(s[0]) && !IsSpace(s[|s| - 1])
    ensures Trim(s) == s
  {
  }

  /** `int()` ignores leading whitespace. */
  lemma ParseIntIgnoresLeadingSpace(c: char, s: string)
    requires IsSpace(c)
    ensures ParseInt([c] + s) == ParseInt(s)
  {
    assert ([c] + s)[1..] == s;
    assert TrimLeft([c] + s) == TrimLeft(s);
    assert Trim([c] + s) == Trim(s);
  }

  /** `int(str(n)) == n` for every int: the string form of an int reads back as that int. */
  lemma ParseIntOfIntToString(n: int)
    ensures ParseInt(IntToString(n)) == Some(n)
  {
    var m: nat := if n < 0 then -n else n;
    var digits := NatToString(m);
    DigitsValueOfNatToString(m);
    NatToStringIsDigitGroups(m);
    ParseStrippedOfDigits(digits);
    DigitNotSpace(digits[0]);
    DigitNotSpace(digits[|digits| - 1]);
    if n < 0 {
      var s := "-" + digits;
      assert IntToString(n) == s;
      assert s[0] == '-' && s[|s| - 1] == digits[|digits| - 1];
      TrimNoOp(s);
    } else {
      assert IntToString(n) == digits;
      TrimNoOp(digits);
    }
  }

  lemma DigitNotSpace(c: char)
    requires IsDigit(c)
    ensures !IsSpace(c)
  {
  }

  /** A digit run without a sign, or after a minus sign, reads as its value. */
  lemma ParseStrippedOfDigits(digits: string)
    requires DigitGroups(digits)
    ensures ParseStripped(digits) == Some(DigitsValue(digits))
    ensures ParseStripped("-" + digits) == Some(-(DigitsValue(digits) as int))
  {
    var t := "-" + digits;
    assert t[0] == '-' && t[1..] == digits;
  }

  /** The decimal form of a nat is a digit run `int()` accepts. */
  lemma NatToStringIsDigitGroups(n: nat)
    ensures DigitGroups(NatToString(n))
  {
    var s := NatToString(n);
    assert forall k :: 0 <= k < |s| - 1 ==> s[k] != '_';
  }

  /** `int()` of a one-digit string is that digit. */
  lemma ParseIntOfDigit(d: nat)
    requires d < 10
    ensures ParseInt([DigitChar(d)]) == Some(d)
  {
    ParseIntOfIntToString(d);
    assert IntToString(d) == NatToString(d) == [DigitChar(d)];
  }

  // ---------------------------------------------------------------------------
  // int(float) and float comparisons

  /** The exact value of a float. */
  function RealOf(f: Float): real {
    if f.exponent >= 0 then (f.mantissa * Pow10(f.exponent)) as real
    else f.mantissa as real / Pow10(-f.exponent) as real
  }

  /** Python's `int(x)` for a float: truncates toward zero. */
  function Trunc(f: Float): int {
    if f.exponent >= 0 then f.mantissa * Pow10(f.exponent)
    else if f.mantissa >= 0 then f.mantissa / Pow10(-f.exponent)
    else -((-f.mantissa) / Pow10(-f.exponent))
  }

  lemma DivBounds(m: nat, p: nat)
    requires p >= 1
    ensures (m / p) as real <= m as real / p as real < (m / p + 1) as real
  {
    var q, r := m / p, m % p;
    assert m == q * p + r && 0 <= r < p;
    assert m as real == q as real * p as real + r as real;
    assert m as real / p as real == q as real + r as real / p as real;
    assert 0.0 <= r as real / p as real < 1.0;
  }

  /** `int(x)` drops the fraction toward zero: it has the sign of `x` and lies
      less than one away from it, never beyond it. */
  lemma TruncTowardZero(f: Float)
    ensures RealOf(f) >= 0.0 ==> (Trunc(f) as real) <= RealOf(f) < (Trunc(f) + 1) as real
    ensures RealOf(f) < 0.0 ==> (Trunc(f) - 1) as real < RealOf(f) <= Trunc(f) as real
  {
    if f.exponent < 0 {
      var p := Pow10(-f.exponent);
      if f.mantissa >= 0 {
        DivBounds(f.mantissa, p);
      } else {
        DivBounds(-f.mantissa, p);
        assert RealOf(f) == -((-f.mantissa) as real / p as real);
      }
    }
  }

  // ---------------------------------------------------------------------------
  // str(float): Python's shortest repr, applied to the exact decimal

  /** Removes trailing zero digits from a nonzero mantissa into the exponent. */
  function StripZeros(m: nat, e: int): (r: (nat, int))
    requires m > 0
    ensures r.0 > 0 && r.0 % 10 != 0
    decreases m
  {
    if m % 10 == 0 then StripZeros(m / 10, e + 1) else (m, e)
  }

  function Zeros(n: nat): (s: string)
    ensures |s| == n && forall k :: 0 <= k < n ==> s[k] == '0'
  {
    if n == 0 then "" else "0" + Zeros(n - 1)
  }

  /** Digits `d` with the decimal point after `decpt` of them, without exponent. */
  function Positional(d: string, decpt: int): string
    requires |d| > 0
  {
    if decpt <= 0 then "0." + Zeros(-decpt) + d
    else if decpt < |d| then d[..decpt] + "." + d[decpt..]
    else d + Zeros(decpt - |d|) + ".0"
  }

  /** Digits `d` as `d0.d1d2...e±XX`, the exponent written with at least two digits. */
  function Scientific(d: string, x: int): string
    requires |d| > 0
  {
    var e := NatToString(if x < 0 then -x else x);
    [d[0]] + (if |d| > 1 then "." + d[1..] else "") + "e" + (if x < 0 then "-" else "+")
      + (if |e| < 2 then "0" + e else e)
  }

  /** `repr(x)`: positional notation unless the decimal point falls 4 or more
      places before the first digit or more than 16 places after it. */
  function FloatRepr(f: Float): string {
    if f.mantissa == 0 then "0.0"
    else
      var stripped := StripZeros(if f.mantissa < 0 then -f.mantissa else f.mantissa, f.exponent);
      var d := NatToString(stripped.0);
      var decpt := |d| + stripped.1;
      (if f.mantissa < 0 then "-" else "")
        + (if decpt <= -4 || decpt > 16 then Scientific(d, decpt - 1) else Positional(d, decpt))
  }

  /** Python's `str(v)`, which is also what `str.format` inserts for `{value}`. */
  function Str(v: Value): string {
    match v
    case IntV(i) => IntToString(i)
    case StrV(s) => s
    case FloatV(f) => FloatRepr(f)
  }

  // ---------------------------------------------------------------------------
  // `sub in s` for strings

  predicate Contains(s: string, sub: string)
    decreases |s|
  {
    (|sub| <= |s| && s[..|sub|] == sub) || (|s| > 0 && Contains(s[1..], sub))
  }

  /** `sub` occurs in `s` starting at index `i`. */
  predicate OccursAt(s: string, sub: string, i: int) {
    0 <= i && i + |sub| <= |s| && s[i..i + |sub|] == sub
  }

  lemma {:induction false} OccursImpliesContains(s: string, sub: string, i: int)
    requires OccursAt(s, sub, i)
    ensures Contains(s, sub)
    decreases i
  {
    if i > 0 {
      assert s[1..][i - 1..i - 1 + |sub|] == s[i..i + |sub|];
      OccursImpliesContains(s[1..], sub, i - 1);
    } else {
      assert s[..|sub|] == s[i..i + |sub|];
    }
  }

  lemma {:induction false} ContainsImpliesOccurs(s: string, sub: string) returns (i: int)
    requires Contains(s, sub)
    ensures OccursAt(s, sub, i)
    decreases |s|
  {
    if |sub| <= |s| && s[..|sub|] == sub {
      i := 0;
    } else {
      var j := ContainsImpliesOccurs(s[1..], sub);
      assert s[1..][j..j + |sub|] == s[j + 1..j + 1 + |sub|];
      i := j + 1;
    }
  }

  /** `sub in s` holds exactly when `sub` occurs in `s` at some index. */
  lemma ContainsAt(s: string, sub: string)
    ensures Contains(s, sub) <==> exists i :: OccursAt(s, sub, i)
  {
    if Contains(s, sub) {
      var i := ContainsImpliesOccurs(s, sub);
    }
    if exists i :: OccursAt(s, sub, i) {
      var i :| OccursAt(s, sub, i);
      OccursImpliesContains(s, sub, i);
    }
  }

  // ---------------------------------------------------------------------------
  // `s.split(sep)` for a one-character separator, and its inverse `sep.join`

  function Split(s: string, sep: char): (r: seq<string>)
    ensures |r| >= 1
  {
    if s == [] then [""]
    else
      var rest := Split(s[1..], sep);
      if s[0] == sep then [""] + rest else [[s[0]] + rest[0]] + rest[1..]
  }

  function Join(parts: seq<string>, sep: char): string
    requires |parts| >= 1
  {
    if |parts| == 1 then parts[0] else parts[0] + [sep] + Join(parts[1..], sep)
  }

  /** No field `split` returns contains the separator. */
  lemma {:induction false} SplitFieldsHaveNoSeparator(s: string, sep: char)
    ensures forall k, j :: 0 <= k < |Split(s, sep)| && 0 <= j < |Split(s, sep)[k]| ==> Split(s, sep)[k][j] != sep
  {
    if s != [] {
      SplitFieldsHaveNoSeparator(s[1..], sep);
    }
  }

  /** Joining the fields with the separator gives back the string split. */
  lemma {:induction false} JoinSplit(s: string, sep: char)
    ensures Join(Split(s, sep), sep) == s
  {
    if s != [] {
      var rest := Split(s[1..], sep);
      JoinSplit(s[1..], sep);
      if s[0] == sep {
        assert ([""] + rest)[1..] == rest;
      } else if |rest| > 1 {
        assert ([[s[0]] + rest[0]] + rest[1..])[1..] == rest[1..];
        assert Join(rest, sep) == rest[0] + [sep] + Join(rest[1..], sep);
      }
    }
  }

  /** Splitting at a separator splits the two sides independently. */
  lemma {:induction false} SplitAppend(a: string, b: string, sep: char)
    ensures Split(a + [sep] + b, sep) == Split(a, sep) + Split(b, sep)
  {
    if a == [] {
      assert a + [sep] + b == [sep] + b;
      SplitCons(sep, b, sep);
    } else {
      assert a == [a[0]] + a[1..];
      SplitAppend(a[1..], b, sep);
      SplitAppendStep(a[0], a[1..], b, sep);
    }
  }

  /** The inductive step of SplitAppend: one more character in front. */
  lemma SplitAppendStep(c: char, a: string, b: string, sep: char)
    requires Split(a + [sep] + b, sep) == Split(a, sep) + Split(b, sep)
    ensures Split([c] + a + [sep] + b, sep) == Split([c] + a, sep) + Split(b, sep)
  {
    var r, t := Split(a, sep), Split(b, sep);
    assert [c] + a + [sep] + b == [c] + (a + [sep] + b);
    SplitCons(c, a + [sep] + b, sep);
    SplitCons(c, a, sep);
    if c != sep {
      AppendHead(r, t);
      AppendAssoc([[c] + r[0]], r[1..], t);
    } else {
      AppendAssoc([""], r, t);
    }
  }

  lemma AppendAssoc<T>(p: seq<T>, q: seq<T>, w: seq<T>)
    ensures (p + q) + w == p + (q + w)
  {
  }

  lemma AppendHead<T>(r: seq<T>, t: seq<T>)
    requires |r| >= 1
    ensures (r + t)[0] == r[0] && (r + t)[1..] == r[1..] + t
  {
  }

  /** One step of Split: a leading separator closes an empty field, any
      other character opens the first field. */
  lemma SplitCons(c: char, s: string, sep: char)
    ensures Split([c] + s, sep)
            == if c == sep then [""] + Split(s, sep) else [[c] + Split(s, sep)[0]] + Split(s, sep)[1..]
  {
    assert ([c] + s)[1..] == s;
  }

  /** A string without the separator is a single field. */
  lemma {:induction false} SplitNoSeparator(s: string, sep: char)
    requires forall k :: 0 <= k < |s| ==> s[k] != sep
    ensures Split(s, sep) == [s]
  {
    if s != [] {
      SplitNoSeparator(s[1..], sep);
      assert [s[0]] + s[1..] == s;
    }
  }

  // ---------------------------------------------------------------------------
  // `s.strip(c)` for one character `c`

  function LeadingRun(s: string, c: char): (n: nat)
    ensures n <= |s| && (forall k :: 0 <= k < n ==> s[k] == c) && (n < |s| ==> s[n] != c)
  {
    if |s| > 0 && s[0] == c then 1 + LeadingRun(s[1..], c) else 0
  }

  function TrailingRun(s: string, c: char): (n: nat)
    ensures n <= |s| && (forall k :: |s| - n <= k < |s| ==> s[k] == c) && (n < |s| ==> s[|s| - 1 - n] != c)
  {
    if |s| > 0 && s[|s| - 1] == c then 1 + TrailingRun(s[..|s| - 1], c) else 0
  }

  /** Python's `s.strip(c)`: every leading and trailing `c` removed. */
  function StripChar(s: string, c: char): (r: string)
    ensures |r| > 0 ==> r[0] != c && r[|r| - 1] != c
    ensures exists i, j :: 0 <= i <= j <= |s| && r == s[i..j]
              && (forall k :: 0 <= k < i ==> s[k] == c) && (forall k :: j <= k < |s| ==> s[k] == c)
  {
    var i := LeadingRun(s, c);
    var t := s[i..];
    var n := TrailingRun(t, c);
    assert t[..|t| - n] == s[i..|s| - n];
    t[..|t| - n]
  }

  /** One `c` before a string that neither starts nor ends with `c` is
      stripped, and nothing else is. */
  lemma StripLeadingOne(s: string, c: char)
    requires |s| > 0 && s[0] != c && s[|s| - 1] != c
    ensures StripChar([c] + s, c) == s
  {
    var u := [c] + s;
    assert u[1..] == s;
    assert LeadingRun(s, c) == 0;
    assert LeadingRun(u, c) == 1;
    assert TrailingRun(s, c) == 0;
    assert s[..|s|] == s;
  }

  /** Stripping `c` keeps every occurrence of a substring that has no `c` in it. */
  lemma StripKeepsSubstring(s: string, c: char, sub: string)
    requires Contains(s, sub)
    requires forall k :: 0 <= k < |sub| ==> sub[k] != c
    ensures Contains(StripChar(s, c), sub)
  {
    var i, j := StripBounds(s, c);
    if |sub| == 0 {
      OccursImpliesContains(s[i..j], sub, 0);
    } else {
      var p := ContainsImpliesOccurs(s, sub);
      OccurrenceInside(s, sub, c, i, j, p);
      SliceOccurrence(s, sub, i, j, p);
      OccursImpliesContains(s[i..j], sub, p - i);
    }
  }

  lemma StripBounds(s: string, c: char) returns (i: nat, j: nat)
    ensures i <= j <= |s| && StripChar(s, c) == s[i..j]
    ensures forall k :: 0 <= k < i ==> s[k] == c
    ensures forall k :: j <= k < |s| ==> s[k] == c
  {
    i := LeadingRun(s, c);
    var t := s[i..];
    var n := TrailingRun(t, c);
    j := |s| - n;
    forall k | j <= k < |s| ensures s[k] == c {
      assert s[k] == t[k - i];
    }
  }

  lemma SliceOccurrence(s: string, sub: string, i: int, j: int, p: int)
    requires 0 <= i <= p && p + |sub| <= j <= |s| && OccursAt(s, sub, p)
    ensures OccursAt(s[i..j], sub, p - i)
  {
    var r := s[i..j];
    forall k | 0 <= k < |sub| ensures r[p - i..p - i + |sub|][k] == sub[k] {
      assert r[p - i + k] == s[p + k] == s[p..p + |sub|][k];
    }
    assert r[p - i..p - i + |sub|] == sub;
  }

  lemma OccurrenceInside(s: string, sub: string, c: char, i: int, j: int, p: int)
    requires 0 <= i <= j <= |s| && |sub| > 0 && OccursAt(s, sub, p)
    requires forall k :: 0 <= k < |sub| ==> sub[k] != c
    requires forall k :: 0 <= k < i ==> s[k] == c
    requires forall k :: j <= k < |s| ==> s[k] == c
    ensures i <= p && p + |sub| <= j
  {
    assert s[p] == s[p..p + |sub|][0] == sub[0];
    var last := p + |sub| - 1;
    assert s[last] == s[p..p + |sub|][|sub| - 1] == sub[|sub| - 1];
  }

  // ---------------------------------------------------------------------------
  // `template.format(**fields)` for named fields

  predicate BraceFree(s: string) {
    forall k :: 0 <= k < |s| ==> s[k] != '{' && s[k] != '}'
  }

  function Prepend(p: string, o: Option<string>): (r: Option<string>)
    ensures r.Some? <==> o.Some?
  {
    match o
    case Some(s) => Some(p + s)
    case None => None
  }

  /** The number of characters before the first brace. */
  function NameLength(s: string): (n: nat)
    ensures n <= |s| && BraceFree(s[..n]) && (n < |s| ==> s[n] == '{' || s[n] == '}')
  {
    if |s| > 0 && s[0] != '{' && s[0] != '}' then 1 + NameLength(s[1..]) else 0
  }

  /** Python's `str.format` with keyword arguments only: `{name}` is replaced by
      the named field, `{{` and `}}` stand for single braces, and anything else
      in braces (an unknown name, an unclosed or stray brace) is an error, here None. */
  function Format(t: string, fields: map<string, string>): Option<string>
    decreases |t|
  {
    if t == [] then Some("")
    else if |t| > 1 && t[0] == '{' && t[1] == '{' then Prepend("{", Format(t[2..], fields))
    else if |t| > 1 && t[0] == '}' && t[1] == '}' then Prepend("}", Format(t[2..], fields))
    else if t[0] == '}' then None
    else if t[0] == '{' then
      var n := NameLength(t[1..]);
      if 1 + n < |t| && t[1 + n] == '}' && t[1..1 + n] in fields
      then Prepend(fields[t[1..1 + n]], Format(t[n + 2..], fields))
      else None
    else Prepend([t[0]], Format(t[1..], fields))
  }

  lemma {:induction false} FormatLiteral(s: string, t: string, fields: map<string, string>)
    requires BraceFree(s)
    ensures Format(s + t, fields) == Prepend(s, Format(t, fields))
  {
    if s != [] {
      var u := s + t;
      assert u[1..] == s[1..] + t;
      assert u[0] == s[0] && s[0] != '{' && s[0] != '}';
      assert Format(u, fields) == Prepend([s[0]], Format(u[1..], fields));
      FormatLiteral(s[1..], t, fields);
      match Format(t, fields)
      case None =>
      case Some(x) =>
        assert [s[0]] + (s[1..] + x) == s + x;
    } else {
      assert s + t == t;
      match Format(t, fields)
      case None =>
      case Some(x) =>
        assert s + x == x;
    }
  }

  lemma NameLengthOfField(name: string, t: string)
    requires BraceFree(name)
    ensures NameLength(name + "}" + t) == |name|
  {
    if name != [] {
      assert (name + "}" + t)[1..] == name[1..] + "}" + t;
      NameLengthOfField(name[1..], t);
    }
  }

  lemma FormatField(name: string, t: string, fields: map<string, string>)
    requires BraceFree(name) && name in fields
    ensures Format("{" + name + "}" + t, fields) == Prepend(fields[name], Format(t, fields))
  {
    var u := "{" + name + "}" + t;
    assert u[1..] == name + "}" + t;
    NameLengthOfField(name, t);
    assert u[1..1 + |name|] == name;
    assert u[|name| + 2..] == t;
  }

  /** A template whose one placeholder is `{name}` formats to the surrounding
      text with the field's value in its place. */
  lemma FormatOnePlaceholder(pre: string, name: string, post: string, fields: map<string, string>)
    requires BraceFree(pre) && BraceFree(name) && BraceFree(post) && name in fields
    ensures Format(pre + "{" + name + "}" + post, fields) == Some(pre + fields[name] + post)
  {
    var rest := "{" + name + "}" + post;
    calc {
      Format(pre + "{" + name + "}" + post, fields);
      { assert pre + "{" + name + "}" + post == pre + rest; }
      Format(pre + rest, fields);
      { FormatLiteral(pre, rest, fields); }
      Prepend(pre, Format(rest, fields));
      { FormatField(name, post, fields); FormatBraceFree(post, fields); }
      Prepend(pre, Some(fields[name] + post));
      { assert pre + (fields[name] + post) == pre + fields[name] + post; }
      Some(pre + fields[name] + post);
    }
  }

  /** A template with no braces formats to itself. */
  lemma FormatBraceFree(s: string, fields: map<string, string>)
    requires BraceFree(s)
    ensures Format(s, fields) == Some(s)
  {
    FormatLiteral(s, "", fields);
    assert s + "" == s;
  }
}
