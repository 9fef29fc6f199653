/**
 * The JavaScript built-ins the core relies on, as pure functions over
 * `string` (a sequence of `char`): `String.prototype.slice`, `split`,
 * `startsWith`, `includes`, `Array.prototype.join`, the template literal
 * `${n}` of a non-negative integer, the global `parseInt`, truthiness of an
 * optional string, and Node's `Buffer.toString('hex')`.
 */
module Js {
  import opened Wrappers

  function Min(a: int, b: int): int { if a <= b then a else b }

  // ---------------------------------------------------------------- slice

  /** How `slice` reads one of its positions: negative counts from the end, then clamped to [0, n]. */
  function RelativeIndex(i: int, n: nat): (r: nat)
    ensures r <= n
    ensures 0 <= i <= n ==> r == i
    ensures i < 0 ==> r == if n + i < 0 then 0 else n + i
  {
    if i < 0 then (if n + i < 0 then 0 else n + i) else if i > n then n else i
  }

  /** `s.slice(start, end)`: empty when the resolved end is not after the resolved start. */
  function Slice(s: string, start: int, end: int): (r: string)
    ensures |r| <= |s|
    ensures 0 <= start <= end <= |s| ==> r == s[start..end]
    ensures 0 <= end <= start ==> r == ""
  {
    var from := RelativeIndex(start, |s|);
    var to := RelativeIndex(end, |s|);
    if to <= from then "" else s[from..to]
  }

  // ------------------------------------------------- startsWith, includes

  predicate StartsWith(s: string, prefix: string) {
    |prefix| <= |s| && s[..|prefix|] == prefix
  }

  /** `s.includes(sub)`: `sub` occurs at some position of `s`. */
  predicate Includes(s: string, sub: string)
    decreases |s|
  {
    StartsWith(s, sub) || (|s| > 0 && Includes(s[1..], sub))
  }

  lemma {:induction false} IncludesAt(s: string, sub: string, k: nat)
    requires k + |sub| <= |s| && s[k..k + |sub|] == sub
    ensures Includes(s, sub)
    decreases k
  {
    if k > 0 {
      assert s[1..][k - 1..k - 1 + |sub|] == sub;
      IncludesAt(s[1..], sub, k - 1);
    }
  }

  // ---------------------------------------------------------- split, join

  /** `s.split(sep)` for a one-character separator: always at least one field. */
  function Split(s: string, sep: char): (r: seq<string>)
    ensures |r| >= 1
    decreases |s|
  {
    if s == [] then [""]
    else if s[0] == sep then [""] + Split(s[1..], sep)
    else var rest := Split(s[1..], sep); [[s[0]] + rest[0]] + rest[1..]
  }

  /** `parts.join(sep)`: the empty array joins to "". */
  function Join(parts: seq<string>, sep: string): string
  {
    if |parts| == 0 then ""
    else if |parts| == 1 then parts[0]
    else parts[0] + sep + Join(parts[1..], sep)
  }

  /** No field of a split contains the separator. */
  lemma {:induction false} SplitFieldsFree(s: string, sep: char)
    ensures forall k :: 0 <= k < |Split(s, sep)| ==> sep !in Split(s, sep)[k]
    decreases |s|
  {
    if s != [] {
      SplitFieldsFree(s[1..], sep);
    }
  }

  /** Joining the fields of a split with the separator gives back the string. */
  lemma {:induction false} JoinSplit(s: string, sep: char)
    ensures Join(Split(s, sep), [sep]) == s
    decreases |s|
  {
    if s != [] {
      JoinSplit(s[1..], sep);
      var rest := Split(s[1..], sep);
      if s[0] == sep {
        assert Split(s, sep) == [""] + rest;
        assert ([""] + rest)[1..] == rest;
      } else {
        var r := Split(s, sep);
        assert r == [[s[0]] + rest[0]] + rest[1..];
        if |rest| == 1 {
          assert Join(rest, [sep]) == rest[0];
        } else {
          assert Join(rest, [sep]) == rest[0] + [sep] + Join(rest[1..], [sep]);
          assert r[1..] == rest[1..];
        }
      }
    }
  }

  /** A field free of the separator, followed by the separator, splits off as one field. */
  lemma {:induction false} SplitFieldThenSep(a: string, sep: char, rest: string)
    requires sep !in a
    ensures Split(a + [sep] + rest, sep) == [a] + Split(rest, sep)
    decreases |a|
  {
    var s := a + [sep] + rest;
    if a != [] {
      assert s[0] == a[0] && s[0] != sep;
      assert s[1..] == a[1..] + [sep] + rest;
      SplitFieldThenSep(a[1..], sep, rest);
      var r := Split(s[1..], sep);
      assert r == [a[1..]] + Split(rest, sep);
      assert [s[0]] + r[0] == a;
      assert r[1..] == Split(rest, sep);
    } else {
      assert a + [sep] + rest == [sep] + rest;
      assert ([sep] + rest)[1..] == rest;
    }
  }

  /** A string free of the separator splits to itself alone. */
  lemma {:induction false} SplitFree(a: string, sep: char)
    requires sep !in a
    ensures Split(a, sep) == [a]
    decreases |a|
  {
    if a != [] {
      assert a[0] != sep;
      SplitFree(a[1..], sep);
      assert [a[0]] + a[1..] == a;
    }
  }

  /** Splitting a join of separator-free fields gives back the fields. */
  lemma {:induction false} SplitJoin(parts: seq<string>, sep: char)
    requires |parts| >= 1
    requires forall k :: 0 <= k < |parts| ==> sep !in parts[k]
    ensures Split(Join(parts, [sep]), sep) == parts
    decreases |parts|
  {
    if |parts| == 1 {
      SplitFree(parts[0], sep);
    } else {
      SplitJoin(parts[1..], sep);
      SplitFieldThenSep(parts[0], sep, Join(parts[1..], [sep]));
      assert [parts[0]] + parts[1..] == parts;
    }
  }

  /** The characters of `s` before the first `sep` (all of `s` when there is none). */
  function FirstField(s: string, sep: char): (r: string)
    ensures sep !in r && |r| <= |s| && r == s[..|r|]
    ensures |r| < |s| ==> s[|r|] == sep
  {
    if s == [] || s[0] == sep then "" else [s[0]] + FirstField(s[1..], sep)
  }

  /** The first field of a split is the text before the first separator. */
  lemma {:induction false} SplitFirstField(s: string, sep: char)
    ensures Split(s, sep)[0] == FirstField(s, sep)
    decreases |s|
  {
    if s != [] && s[0] != sep {
      SplitFirstField(s[1..], sep);
    }
  }

  // ------------------------------------------------------ decimal numbers

  predicate IsDigit(c: char) { '0' <= c <= '9' }

  function DigitChar(d: nat): (c: char)
    requires d < 10
    ensures IsDigit(c)
  {
    ('0' as int + d) as char
  }

  /** The template literal `${n}` of a non-negative integer: its decimal digits, without leading zeros. */
  function NatToString(n: nat): (r: string)
    ensures |r| >= 1
    ensures forall k :: 0 <= k < |r| ==> IsDigit(r[k])
    ensures r[0] == '0' ==> n == 0
    decreases n
  {
    if n < 10 then [DigitChar(n)] else NatToString(n / 10) + [DigitChar(n % 10)]
  }

  /** The value of a digit in base 10 or 16 (`parseInt` accepts either letter case), if it is one. */
  function DigitValue(c: char, base: nat): Option<nat>
  {
    if '0' <= c <= '9' && (c as int - '0' as int) < base then Some(c as int - '0' as int)
    else if base == 16 && 'a' <= c <= 'f' then Some(c as int - 'a' as int + 10)
    else if base == 16 && 'A' <= c <= 'F' then Some(c as int - 'A' as int + 10)
    else None
  }

  predicate AllDigits(s: string, base: nat) {
    forall k :: 0 <= k < |s| ==> DigitValue(s[k], base).Some?
  }

  /** The number a string of digits denotes, most significant first. */
  function DigitsValue(s: string, base: nat): nat
    requires AllDigits(s, base)
  {
    if s == [] then 0
    else DigitsValue(s[..|s| - 1], base) * base + DigitValue(s[|s| - 1], base).value
  }

  /** The longest prefix of `s` made of digits of the base: as far as `parseInt` reads. */
  function DigitPrefix(s: string, base: nat): (r: string)
    ensures |r| <= |s| && r == s[..|r|]
    ensures AllDigits(r, base)
    ensures |r| < |s| ==> DigitValue(s[|r|], base).None?
    decreases |s|
  {
    if s == [] || DigitValue(s[0], base).None? then ""
    else [s[0]] + DigitPrefix(s[1..], base)
  }

  /**
   * The characters ECMAScript counts as white space or line terminators, which
   * `parseInt` skips at the start (the `WhiteSpace` and `LineTerminator`
   * productions, with the space separators of Unicode written out).
   */
  predicate IsJsWhitespace(c: char) {
    || c == '\t' || c == '\n' || c == '\U{B}' || c == '\U{C}' || c == '\r' || c == ' '
    || c == '\U{A0}' || c == '\U{1680}' || ('\U{2000}' <= c <= '\U{200A}')
    || c == '\U{2028}' || c == '\U{2029}' || c == '\U{202F}' || c == '\U{205F}'
    || c == '\U{3000}' || c == '\U{FEFF}'
  }

  function TrimStart(s: string): (r: string)
    ensures |r| <= |s| && r == s[|s| - |r|..]
    ensures r == [] || !IsJsWhitespace(r[0])
    decreases |s|
  {
    if s != [] && IsJsWhitespace(s[0]) then TrimStart(s[1..]) else s
  }

  /** `parseInt(s)` reads a "0x" prefix as hexadecimal; `parseInt(s, 10)` does not. */
  datatype Radix = AutoRadix | Radix10

  /**
   * The global `parseInt`: skip leading white space, read an optional sign,
   * (without a radix) an optional "0x"/"0X" prefix, then the longest run of
   * digits; `None` stands for NaN, when no digit is read.
   */
  function ParseInt(s: string, radix: Radix): (r: Option<int>)
  {
    var t := TrimStart(s);
    var negative := |t| > 0 && t[0] == '-';
    var u := if |t| > 0 && (t[0] == '-' || t[0] == '+') then t[1..] else t;
    var hex := radix == AutoRadix && |u| >= 2 && u[0] == '0' && (u[1] == 'x' || u[1] == 'X');
    var base := if hex then 16 else 10;
    var digits := DigitPrefix(if hex then u[2..] else u, base);
    var magnitude: int := if digits == [] then 0 else DigitsValue(digits, base);
    if digits == [] then None else Some(if negative then -magnitude else magnitude)
  }

  lemma {:induction false} DigitsValueOfNatToString(n: nat)
    ensures AllDigits(NatToString(n), 10)
    ensures DigitsValue(NatToString(n), 10) == n
    decreases n
  {
    var s := NatToString(n);
    if n >= 10 {
      DigitsValueOfNatToString(n / 10);
      assert s[..|s| - 1] == NatToString(n / 10);
    }
  }

  lemma {:induction false} DigitPrefixOfDigits(s: string)
    requires forall k :: 0 <= k < |s| ==> IsDigit(s[k])
    ensures DigitPrefix(s, 10) == s
    decreases |s|
  {
    if s != [] {
      DigitPrefixOfDigits(s[1..]);
    }
  }

  /** Both forms of `parseInt` read the decimal string of a natural number back to that number. */
  lemma ParseIntNatToString(n: nat, radix: Radix)
    ensures ParseInt(NatToString(n), radix) == Some(n)
  {
    var s := NatToString(n);
    assert !IsJsWhitespace(s[0]);
    assert TrimStart(s) == s;
    DigitPrefixOfDigits(s);
    DigitsValueOfNatToString(n);
  }

  /** Distinct natural numbers have distinct decimal strings. */
  lemma NatToStringInjective(m: nat, n: nat)
    requires NatToString(m) == NatToString(n)
    ensures m == n
  {
    ParseIntNatToString(m, Radix10);
    ParseIntNatToString(n, Radix10);
  }

  // ------------------------------------------------------------ truthiness

  /** An optional string is truthy when it is present and not "". */
  predicate Truthy(s: Option<string>) {
    s.Some? && s.value != ""
  }

  // ------------------------------------------------------------------ hex

  type Byte = b: int | 0 <= b < 256

  predicate IsLowerHex(c: char) { '0' <= c <= '9' || 'a' <= c <= 'f' }

  function HexChar(d: nat): (c: char)
    requires d < 16
    ensures IsLowerHex(c)
    ensures DigitValue(c, 16) == Some(d)
  {
    if d < 10 then ('0' as int + d) as char else ('a' as int + d - 10) as char
  }

  /** `Buffer.toString('hex')`: two lower-case hexadecimal digits per byte, high nibble first. */
  function ToHex(bytes: seq<Byte>): (r: string)
    ensures |r| == 2 * |bytes|
    ensures forall k :: 0 <= k < |r| ==> IsLowerHex(r[k])
  {
    if bytes == [] then ""
    else [HexChar(bytes[0] / 16), HexChar(bytes[0] % 16)] + ToHex(bytes[1..])
  }

  /** Reads pairs of hexadecimal digits back into bytes. */
  function FromHex(s: string): Option<seq<Byte>>
    decreases |s|
  {
    if s == [] then Some([])
    else if |s| == 1 then None
    else match (DigitValue(s[0], 16), DigitValue(s[1], 16), FromHex(s[2..]))
      case (Some(hi), Some(lo), Some(rest)) => Some([hi * 16 + lo] + rest)
      case _ => None
  }

  lemma {:induction false} FromHexToHex(bytes: seq<Byte>)
    ensures FromHex(ToHex(bytes)) == Some(bytes)
    decreases |bytes|
  {
    if bytes != [] {
      FromHexToHex(bytes[1..]);
      var s := ToHex(bytes);
      assert s[2..] == ToHex(bytes[1..]);
      assert [bytes[0]] + bytes[1..] == bytes;
    }
  }
}
