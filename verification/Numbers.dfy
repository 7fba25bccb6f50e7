/**
 Numbers as text: printing in a base, and the two readers procmon uses, the
 64-bit signed std::from_chars and strtoull.
 */
module Numbers {
  import opened Text

  const I64_MAX: int := 0x7FFF_FFFF_FFFF_FFFF
  const I64_MIN: int := -0x8000_0000_0000_0000
  const U64_MAX: nat := 0xFFFF_FFFF_FFFF_FFFF

  predicate Base(base: nat) {
    base == 10 || base == 16
  }

  // ---------------------------------------------------------------- digits

  function DigitChar(d: nat): char
    requires d < 16
  {
    "0123456789abcdef"[d]
  }

  /** The value of a digit, or 16 for any other character. */
  function DigitValue(c: char): nat {
    if '0' <= c <= '9' then (c - '0') as nat
    else if 'a' <= c <= 'f' then (c - 'a') as nat + 10
    else if 'A' <= c <= 'F' then (c - 'A') as nat + 10
    else 16
  }

  predicate IsDigit(c: char, base: nat) {
    DigitValue(c) < base
  }

  predicate Digits(s: string, base: nat) {
    forall i | 0 <= i < |s| :: IsDigit(s[i], base)
  }

  /** Neither white space nor one of the separators of the /proc formats. */
  predicate PlainChar(c: char) {
    !IsSpace(c) && c != '(' && c != ')' && c != '-' && c != ':'
  }

  predicate Plain(s: string) {
    forall i | 0 <= i < |s| :: PlainChar(s[i])
  }

  lemma DigitCharIs(d: nat)
    requires d < 16
    ensures DigitValue(DigitChar(d)) == d && PlainChar(DigitChar(d))
  {
  }

  function Show(n: nat, base: nat): (s: string)
    requires Base(base)
    ensures s != ""
  {
    if n < base then [DigitChar(n)] else Show(n / base, base) + [DigitChar(n % base)]
  }

  function Value(s: string, base: nat): nat
    requires Digits(s, base)
  {
    if s == "" then 0 else Value(s[..|s| - 1], base) * base + DigitValue(s[|s| - 1])
  }

  lemma {:induction false} ValueOfShow(n: nat, base: nat)
    requires Base(base)
    ensures Digits(Show(n, base), base) && Value(Show(n, base), base) == n && Plain(Show(n, base))
  {
    hide DigitChar, DigitValue, PlainChar;
    DigitCharIs(n % base);
    if n < base {
      assert Show(n, base)[..0] == "";
    } else {
      ValueOfShow(n / base, base);
      ValueOfSnoc(Show(n / base, base), DigitChar(n % base), base);
    }
  }

  lemma ValueOfSnoc(s: string, c: char, base: nat)
    requires Digits(s, base) && IsDigit(c, base) && Plain(s) && PlainChar(c)
    ensures Digits(s + [c], base) && Plain(s + [c])
    ensures Value(s + [c], base) == Value(s, base) * base + DigitValue(c)
  {
    hide DigitValue, PlainChar;
    assert (s + [c])[..|s + [c]| - 1] == s;
  }

  /** The digits are lower-case, and the first is 0 only when there is no other. */
  lemma {:induction false} ShowIsCanonical(n: nat, base: nat)
    requires Base(base)
    ensures forall i | 0 <= i < |Show(n, base)| :: Show(n, base)[i] in "0123456789abcdef"
    ensures Show(n, base)[0] == '0' ==> n == 0 && |Show(n, base)| == 1
  {
    if n >= base {
      ShowIsCanonical(n / base, base);
    }
  }

  /** A number has at most k hexadecimal digits if and only if it is below 16 to the k. */
  lemma {:induction false} HexLength(n: nat, k: nat)
    requires k > 0
    ensures |Show(n, 16)| <= k <==> n < Power16(k)
  {
    if k == 1 {
      assert Power16(1) == 16 * Power16(0);
    } else if n >= 16 {
      HexLength(n / 16, k - 1);
    }
  }

  function Power16(k: nat): (p: nat)
    ensures p >= 1
  {
    if k == 0 then 1 else 16 * Power16(k - 1)
  }

  function Zeros(k: nat): string {
    seq(k, _ => '0')
  }

  lemma {:induction false} ZerosAreNeutral(k: nat, s: string, base: nat)
    requires Base(base) && Digits(s, base)
    ensures Digits(Zeros(k) + s, base) && Value(Zeros(k) + s, base) == Value(s, base)
    decreases k + |s|
  {
    var z := Zeros(k) + s;
    if s != "" {
      ZerosAreNeutral(k, s[..|s| - 1], base);
      assert z[..|z| - 1] == Zeros(k) + s[..|s| - 1];
    } else if k > 0 {
      ZerosAreNeutral(k - 1, "", base);
      assert z[..|z| - 1] == Zeros(k - 1) + "";
    }
  }

  /** printf's zero padding. */
  function Pad(s: string, width: nat): string {
    if |s| < width then Zeros(width - |s|) + s else s
  }

  lemma {:induction false} ZerosArePlain(k: nat, s: string)
    requires Plain(s)
    ensures Plain(Zeros(k) + s)
  {
    assert PlainChar('0');
  }

  lemma ValueOfPad(n: nat, width: nat, base: nat)
    requires Base(base)
    ensures var s := Pad(Show(n, base), width);
            s != "" && Digits(s, base) && Value(s, base) == n && Plain(s)
  {
    hide Digits, Value, Plain, Show;
    ValueOfShow(n, base);
    var s := Show(n, base);
    if |s| < width {
      ZerosAreNeutral(width - |s|, s, base);
      ZerosArePlain(width - |s|, s);
    }
  }

  // ---------------------------------------------------------------- from_chars and to_ll

  /** The end of the digits that start at `from`. */
  function DigitRun(s: string, base: nat, from: nat): (k: nat)
    requires from <= |s|
    ensures from <= k <= |s| && Digits(s[from..k], base) && (k < |s| ==> !IsDigit(s[k], base))
    decreases |s| - from
  {
    if from < |s| && IsDigit(s[from], base) then
      var k := DigitRun(s, base, from + 1);
      assert s[from..k] == [s[from]] + s[from + 1..k];
      k
    else from
  }

  lemma {:induction false} DigitRunIs(s: string, base: nat, from: nat, k: nat)
    requires from <= k <= |s| && Digits(s[from..k], base) && (k < |s| ==> !IsDigit(s[k], base))
    ensures DigitRun(s, base, from) == k
    decreases k - from
  {
    if from < k {
      assert s[from..k][0] == s[from] && s[from + 1..k] == s[from..k][1..];
      DigitRunIs(s, base, from + 1, k);
    }
  }

  /** std::from_chars for long long: an optional minus sign and digits; no plus sign, no leading space;
      a value out of range is an error. */
  function FromChars(s: string): Option<int> {
    var neg := s != "" && s[0] == '-';
    var start := if neg then 1 else 0;
    var end := DigitRun(s, 10, start);
    if end == start then None
    else
      var v: int := Value(s[start..end], 10);
      var r := if neg then -v else v;
      if I64_MIN <= r <= I64_MAX then Some(r) else None
  }

  function ToLl(s: string): Option<int> {
    var t := Trimmed(s);
    if t == "" then None else FromChars(t)
  }

  function ShowInt(n: int): string {
    if n < 0 then "-" + Show(-n, 10) else Show(n, 10)
  }

  predicate InRange(n: int) {
    I64_MIN <= n <= I64_MAX
  }

  lemma ShowIntIsWord(n: int)
    ensures ShowInt(n) != "" && NoSpace(ShowInt(n)) && ')' !in ShowInt(n) && ':' !in ShowInt(n)
  {
    hide Show, Digits, Value, Plain;
    var m: int := if n < 0 then -n else n;
    ValueOfShow(m, 10);
    PlainHasNone(Show(m, 10));
    if n < 0 {
      forall i | 0 <= i < |ShowInt(n)| ensures !IsSpace(ShowInt(n)[i]) {
        if i > 0 {
          assert ShowInt(n)[i] == Show(m, 10)[i - 1];
        }
      }
    }
  }

  lemma PlainHasNone(s: string)
    requires Plain(s)
    ensures NoSpace(s) && '(' !in s && ')' !in s && '-' !in s && ':' !in s && '\n' !in s && ' ' !in s
  {
    forall c | c in s ensures PlainChar(c) {
      var i :| 0 <= i < |s| && s[i] == c;
    }
  }

  lemma FromCharsIs(s: string, neg: bool, end: nat)
    requires neg ==> s != "" && s[0] == '-'
    requires var start := if neg then 1 else 0;
             start < end <= |s| && Digits(s[start..end], 10) && (end < |s| ==> !IsDigit(s[end], 10))
    ensures var start := if neg then 1 else 0;
            var v: int := Value(s[start..end], 10);
            var r := if neg then -v else v;
            FromChars(s) == if InRange(r) then Some(r) else None
  {
    var start := if neg then 1 else 0;
    assert IsDigit(s[start..end][0], 10);
    DigitRunIs(s, 10, start, end);
    hide Value;
  }

  /** Reading undoes printing, exactly for the integers of 64 bits; a suffix that is no digit is ignored. */
  lemma FromCharsOfShow(n: int, suffix: string)
    requires suffix != "" ==> !IsDigit(suffix[0], 10)
    ensures FromChars(ShowInt(n) + suffix) ==
            if -0x8000_0000_0000_0000 <= n <= 0x7FFF_FFFF_FFFF_FFFF then Some(n) else None
  {
    hide Digits, Value, Plain, Show, FromChars, IsDigit;
    var s := ShowInt(n) + suffix;
    if n < 0 {
      ValueOfShow(-n, 10);
      assert s[1..1 + |Show(-n, 10)|] == Show(-n, 10);
      FromCharsIs(s, true, |ShowInt(n)|);
    } else {
      ValueOfShow(n, 10);
      assert s[0..|Show(n, 10)|] == Show(n, 10);
      FromCharsIs(s, false, |ShowInt(n)|);
    }
  }

  /** No number is read where none begins: from nothing, or from a text that has no digit at its beginning or after a
      minus sign there. */
  lemma NoNumberBegins(s: string)
    requires s == "" || (s[0] != '-' && !('0' <= s[0] <= '9')) || (s[0] == '-' && (|s| == 1 || !('0' <= s[1] <= '9')))
    ensures FromChars(s) == None
  {
  }

  /** to_ll answers nothing for such a text, whatever white space surrounds it. */
  lemma ToLlOfNoNumber(a: string, t: string, b: string)
    requires AllSpace(a) && AllSpace(b) && (t != "" ==> !IsSpace(t[0]) && !IsSpace(t[|t| - 1]))
    requires t == "" || (t[0] != '-' && !('0' <= t[0] <= '9')) || (t[0] == '-' && (|t| == 1 || !('0' <= t[1] <= '9')))
    ensures ToLl(a + t + b) == None
  {
    hide Trimmed, FromChars;
    TrimIsUnique(a, t, b);
    NoNumberBegins(t);
  }

  lemma ToLlOfWord(s: string)
    requires s != "" && !IsSpace(s[0]) && !IsSpace(s[|s| - 1])
    ensures ToLl(s) == FromChars(s)
  {
    hide FromChars, Trimmed;
    TrimIsUnique("", s, "");
    assert "" + s + "" == s;
  }

  lemma ToLlOfShow(n: int)
    ensures ToLl(ShowInt(n)) == if InRange(n) then Some(n) else None
  {
    hide FromChars, ToLl, ShowInt;
    ShowIntIsWord(n);
    ToLlOfWord(ShowInt(n));
    FromCharsOfShow(n, "");
    assert ShowInt(n) + "" == ShowInt(n);
  }

  /** White space around the number changes nothing. */
  lemma ToLlTrims(a: string, n: int, b: string)
    requires AllSpace(a) && AllSpace(b)
    ensures ToLl(a + ShowInt(n) + b) ==
            if -0x8000_0000_0000_0000 <= n <= 0x7FFF_FFFF_FFFF_FFFF then Some(n) else None
  {
    hide FromChars, ShowInt, Trimmed;
    ShowIntIsWord(n);
    TrimIsUnique(a, ShowInt(n), b);
    FromCharsOfShow(n, "");
    assert ShowInt(n) + "" == ShowInt(n);
  }

  /** Values with a unit, as in "1234 kB". */
  lemma ToLlIgnoresUnit(n: int, unit: string)
    requires unit != "" && !IsSpace(unit[|unit| - 1])
    ensures ToLl(ShowInt(n) + " " + unit) == if InRange(n) then Some(n) else None
  {
    hide FromChars, ToLl, ShowInt;
    ShowIntIsWord(n);
    var s := ShowInt(n) + " " + unit;
    assert s == ShowInt(n) + (" " + unit) && s[0] == ShowInt(n)[0];
    ToLlOfWord(s);
    FromCharsOfShow(n, " " + unit);
  }

  // ---------------------------------------------------------------- strtoull

  predicate IsHexPrefix(s: string, i: nat) {
    i + 2 < |s| && s[i] == '0' && (s[i + 1] == 'x' || s[i + 1] == 'X') && IsDigit(s[i + 2], 16)
  }

  /** strtoull: white space, a sign, for base 16 a prefix, digits; too large a value saturates, and a minus
      sign negates modulo 2^64. */
  function StrToUll(s: string, base: nat): (v: nat)
    requires Base(base)
    ensures v <= U64_MAX
  {
    var i := SkipSpace(s, 0);
    var neg := i < |s| && s[i] == '-';
    var j := if i < |s| && (s[i] == '-' || s[i] == '+') then i + 1 else i;
    var start := if base == 16 && IsHexPrefix(s, j) then j + 2 else j;
    var end := DigitRun(s, base, start);
    var v := Value(s[start..end], base);
    if v > U64_MAX then U64_MAX
    else if neg && v > 0 then U64_MAX + 1 - v
    else v
  }

  /** Parsing undoes printing with any zero padding, for every value that has 64 bits; larger ones saturate. */
  lemma StrToUllOfPad(n: nat, width: nat, base: nat)
    requires Base(base)
    ensures StrToUll(Pad(Show(n, base), width), base) ==
            if n <= 0xFFFF_FFFF_FFFF_FFFF then n else 0xFFFF_FFFF_FFFF_FFFF
  {
    hide *;
    U64Is();
    ValueOfPad(n, width, base);
    StrToUllOfDigits(Pad(Show(n, base), width), base);
  }

  /** Every text that strtoull reads a number from: white space, a sign, in base 16 a prefix, digits, and whatever
      follows.  Too large a value saturates, and a minus sign negates modulo 2 to the 64. */
  lemma StrToUllIs(space: string, sign: string, prefix: string, digits: string, rest: string, base: nat)
    requires Base(base) && AllSpace(space) && (sign == "" || sign == "+" || sign == "-")
    requires prefix == "" || (base == 16 && (prefix == "0x" || prefix == "0X"))
    requires digits != "" && Digits(digits, base) && (rest != "" ==> !IsDigit(rest[0], base))
    requires prefix == "" && base == 16 && digits == "0" ==> !IsHexPrefix(digits + rest, 0)
    ensures var n := Value(digits, base);
            StrToUll(space + sign + prefix + digits + rest, base) ==
            if n > 0xFFFF_FFFF_FFFF_FFFF then 0xFFFF_FFFF_FFFF_FFFF
            else if sign == "-" && n > 0 then 0x1_0000_0000_0000_0000 - n
            else n
  {
    hide *;
    var s := space + sign + prefix + digits + rest;
    var i := |space|;
    var j := i + |sign|;
    var k := j + |prefix|;
    var end := k + |digits|;
    Layout(space, sign, prefix, digits, rest);
    FirstDigit(digits, base);
    SignIsNoSpace();
    SkipSpaceOver(s, 0, i);
    DigitRunIs(s, base, k, end);
    PrefixIs(prefix, digits, rest, base);
    PrefixShift(s, j);
    StrToUllFrom(s, base, i, j, k, end);
  }

  /** The parts that strtoull finds, and what it makes of them. */
  lemma StrToUllFrom(s: string, base: nat, i: nat, j: nat, k: nat, end: nat)
    requires Base(base) && i <= j <= k < end <= |s| && SkipSpace(s, 0) == i && DigitRun(s, base, k) == end
    requires if j == i then s[i] != '-' && s[i] != '+' else j == i + 1 && (s[i] == '-' || s[i] == '+')
    requires k == if base == 16 && IsHexPrefix(s, j) then j + 2 else j
    requires Digits(s[k..end], base)
    ensures var n := Value(s[k..end], base);
            StrToUll(s, base) ==
            if n > 0xFFFF_FFFF_FFFF_FFFF then 0xFFFF_FFFF_FFFF_FFFF
            else if s[i] == '-' && n > 0 then 0x1_0000_0000_0000_0000 - n
            else n
  {
    hide Value, SkipSpace, DigitRun, IsHexPrefix;
  }

  lemma FirstDigit(digits: string, base: nat)
    requires Base(base) && digits != "" && Digits(digits, base)
    ensures !IsSpace(digits[0]) && digits[0] != '-' && digits[0] != '+'
  {
    assert IsDigit(digits[0], base);
  }

  lemma SignIsNoSpace()
    ensures !IsSpace('-') && !IsSpace('+') && !IsSpace('0')
  {
  }

  lemma Layout(space: string, sign: string, prefix: string, digits: string, rest: string)
    ensures var s, i := space + sign + prefix + digits + rest, |space|;
            var j := i + |sign|;
            var k := j + |prefix|;
            var end := k + |digits|;
            && end <= |s| && s[0..i] == space && s[i..j] == sign && s[j..k] == prefix && s[k..end] == digits
            && s[end..] == rest && s[j..] == prefix + digits + rest
            && (sign != "" ==> s[i] == sign[0]) && (prefix != "" ==> s[j] == prefix[0])
            && (digits != "" ==> s[k] == digits[0]) && (rest != "" ==> end < |s| && s[end] == rest[0])
            && (rest == "" ==> end == |s|)
  {
  }

  /** The prefix is taken for one exactly if it is there. */
  lemma PrefixIs(prefix: string, digits: string, rest: string, base: nat)
    requires prefix == "" || (base == 16 && (prefix == "0x" || prefix == "0X"))
    requires digits != "" && Digits(digits, base) && Base(base)
    requires prefix == "" && base == 16 && digits == "0" ==> !IsHexPrefix(digits + rest, 0)
    ensures base == 16 && IsHexPrefix(prefix + digits + rest, 0) <==> prefix != ""
  {
    var s := prefix + digits + rest;
    if prefix != "" {
      assert s[0] == '0' && s[1] == prefix[1] && s[2] == digits[0];
      assert IsDigit(digits[0], base);
    } else if base == 16 {
      assert s == digits + rest;
      if |digits| > 1 {
        assert s[1] == digits[1] && IsDigit(digits[1], base);
      }
      assert |digits| == 1 && digits[0] == '0' ==> digits == "0";
    }
  }

  lemma PrefixShift(s: string, j: nat)
    requires j <= |s|
    ensures IsHexPrefix(s, j) <==> IsHexPrefix(s[j..], 0)
  {
  }

  lemma U64Is()
    ensures U64_MAX == 0xFFFF_FFFF_FFFF_FFFF
  {
  }

  /** Digits alone: there is no white space, sign or prefix to skip. */
  lemma StrToUllOfDigits(s: string, base: nat)
    requires Base(base) && s != "" && Digits(s, base) && Plain(s)
    ensures StrToUll(s, base) == var n := Value(s, base); if n <= U64_MAX then n else U64_MAX
  {
    hide Value, IsSpace, SkipSpace, DigitRun;
    assert s[0] in s;
    PlainIsNoSpace(s);
    SkipSpaceOver(s, 0, 0);
    NotASign(s);
    assert |s| > 1 ==> IsDigit(s[1], base);
    assert s[0..|s|] == s;
    DigitRunIs(s, base, 0, |s|);
  }

  lemma PlainIsNoSpace(s: string)
    requires s != "" && Plain(s)
    ensures !IsSpace(s[0])
  {
    assert s[0] in s;
  }

  lemma NotASign(s: string)
    requires s != "" && (Digits(s, 10) || Digits(s, 16))
    ensures s[0] != '-' && s[0] != '+'
  {
    assert IsDigit(s[0], 10) || IsDigit(s[0], 16);
  }
}
