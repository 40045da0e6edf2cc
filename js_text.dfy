/**
 * The JavaScript string operations the core relies on (`trim`, `includes`,
 * `startsWith`, `endsWith`, `split`, `replace(/\s+/g, '')`, `parseInt` and
 * number-to-string), following their ECMAScript definitions.
 */
module JsText {
  import opened Wrappers

  /** ECMAScript WhiteSpace and LineTerminator code points: what `trim` removes
      and what the regular expression class `\s` matches. */
  predicate IsSpace(c: char) {
    || c == '\t' || c == '\n' || c == '\U{000B}' || c == '\U{000C}' || c == '\r'
    || c == ' ' || c == '\U{00A0}' || c == '\U{1680}'
    || ('\U{2000}' <= c <= '\U{200A}')
    || c == '\U{2028}' || c == '\U{2029}' || c == '\U{202F}' || c == '\U{205F}'
    || c == '\U{3000}' || c == '\U{FEFF}'
  }

  /** `s.trimStart()`: the suffix left after dropping the leading white space. */
  function TrimStart(s: string): (r: string)
    ensures |r| <= |s| && r == s[|s| - |r|..]
    ensures forall k :: 0 <= k < |s| - |r| ==> IsSpace(s[k])
    ensures r == [] || !IsSpace(r[0])
    decreases |s|
  {
    if s != [] && IsSpace(s[0]) then TrimStart(s[1..]) else s
  }

  /** `s.trimEnd()`: the prefix left after dropping the trailing white space. */
  function TrimEnd(s: string): (r: string)
    ensures |r| <= |s| && r == s[..|r|]
    ensures forall k :: |r| <= k < |s| ==> IsSpace(s[k])
    ensures r == [] || !IsSpace(r[|r| - 1])
    decreases |s|
  {
    if s != [] && IsSpace(s[|s| - 1]) then TrimEnd(s[..|s| - 1]) else s
  }

  /** `s.trim()`. */
  function Trim(s: string): (r: string)
    ensures |r| <= |s|
    ensures r == [] || (!IsSpace(r[0]) && !IsSpace(r[|r| - 1]))
  {
    var t := TrimStart(s);
    var r := TrimEnd(t);
    assert r != [] ==> r[0] == t[0];
    r
  }

  /** Trimming a string with no white space at either end gives it back. */
  lemma TrimUnchanged(s: string)
    requires s == [] || (!IsSpace(s[0]) && !IsSpace(s[|s| - 1]))
    ensures Trim(s) == s
  {
  }

  /** Trimming is idempotent. */
  lemma TrimIdempotent(s: string)
    ensures Trim(Trim(s)) == Trim(s)
  {
    TrimUnchanged(Trim(s));
  }

  /** `s.startsWith(p)`. */
  predicate StartsWith(s: string, p: string) {
    |p| <= |s| && s[..|p|] == p
  }

  /** `s.endsWith(p)`. */
  predicate EndsWith(s: string, p: string) {
    |p| <= |s| && s[|s| - |p|..] == p
  }

  /** `s.includes(p)`: `p` occurs somewhere in `s`. */
  predicate Contains(s: string, p: string)
    decreases |s|
  {
    StartsWith(s, p) || (s != [] && Contains(s[1..], p))
  }

  /** `s.replace(/\s+/g, '')`: every run of white space removed. */
  function StripSpaces(s: string): (r: string)
    ensures |r| <= |s|
    ensures forall c :: c in r ==> c in s && !IsSpace(c)
    decreases |s|
  {
    if s == [] then []
    else (if IsSpace(s[0]) then [] else [s[0]]) + StripSpaces(s[1..])
  }

  /** Removing white space distributes over concatenation. */
  lemma {:induction false} StripSpacesAppend(a: string, b: string)
    ensures StripSpaces(a + b) == StripSpaces(a) + StripSpaces(b)
    decreases |a|
  {
    if a != [] {
      assert (a + b)[0] == a[0];
      assert (a + b)[1..] == a[1..] + b;
      StripSpacesAppend(a[1..], b);
    } else {
      assert a + b == b;
    }
  }

  /** Inserting one white-space character anywhere does not change the result. */
  lemma StripSpacesIgnoresSpace(a: string, c: char, b: string)
    requires IsSpace(c)
    ensures StripSpaces(a + [c] + b) == StripSpaces(a + b)
  {
    StripSpacesAppend(a + [c], b);
    StripSpacesAppend(a, [c]);
    StripSpacesAppend(a, b);
  }

  /** A string without white space is its own stripped form. */
  lemma {:induction false} StripSpacesKeepsText(s: string)
    requires forall k :: 0 <= k < |s| ==> !IsSpace(s[k])
    ensures StripSpaces(s) == s
    decreases |s|
  {
    if s != [] {
      StripSpacesKeepsText(s[1..]);
    }
  }

  /** `s.includes(c)` for a one-character string is membership of `c`. */
  lemma {:induction false} ContainsChar(s: string, c: char)
    ensures Contains(s, [c]) <==> c in s
    decreases |s|
  {
    if s != [] {
      ContainsChar(s[1..], c);
      assert s == [s[0]] + s[1..];
    }
  }

  /** `s.split(sep)` for a one-character separator: the pieces between
      separators, always at least one (the empty string splits into `[""]`). */
  function Split(s: string, sep: char): (parts: seq<string>)
    ensures |parts| >= 1
    decreases |s|
  {
    if s == [] then [""]
    else
      var rest := Split(s[1..], sep);
      if s[0] == sep then [""] + rest
      else [[s[0]] + rest[0]] + rest[1..]
  }

  /** `parts.join(sep)`. */
  function Join(parts: seq<string>, sep: char): string
    decreases |parts|
  {
    if parts == [] then ""
    else if |parts| == 1 then parts[0]
    else parts[0] + [sep] + Join(parts[1..], sep)
  }

  /** No piece of a split contains the separator. */
  lemma {:induction false} SplitPiecesFree(s: string, sep: char)
    ensures forall i :: 0 <= i < |Split(s, sep)| ==> sep !in Split(s, sep)[i]
    decreases |s|
  {
    if s != [] {
      SplitPiecesFree(s[1..], sep);
    }
  }

  lemma JoinCons(x: string, parts: seq<string>, sep: char)
    requires parts != []
    ensures Join([x] + parts, sep) == x + [sep] + Join(parts, sep)
  {
    assert ([x] + parts)[1..] == parts;
  }

  lemma JoinExtendHead(c: char, parts: seq<string>, sep: char)
    requires parts != []
    ensures Join([[c] + parts[0]] + parts[1..], sep) == [c] + Join(parts, sep)
  {
    if |parts| > 1 {
      JoinCons([c] + parts[0], parts[1..], sep);
      JoinCons(parts[0], parts[1..], sep);
      assert parts == [parts[0]] + parts[1..];
    }
  }

  /** Joining the pieces of a split with the same separator gives the string back. */
  lemma {:induction false} JoinSplit(s: string, sep: char)
    ensures Join(Split(s, sep), sep) == s
    decreases |s|
  {
    if s != [] {
      var rest := Split(s[1..], sep);
      JoinSplit(s[1..], sep);
      if s[0] == sep {
        JoinCons("", rest, sep);
      } else {
        JoinExtendHead(s[0], rest, sep);
      }
      assert s == [s[0]] + s[1..];
    }
  }

  /** A separator-free piece followed by the separator splits off as the first piece. */
  lemma {:induction false} SplitLeadingPiece(p: string, sep: char, r: string)
    requires sep !in p
    ensures Split(p + [sep] + r, sep) == [p] + Split(r, sep)
    decreases |p|
  {
    if p == [] {
      assert p + [sep] + r == [sep] + r;
      assert ([sep] + r)[1..] == r;
    } else {
      assert (p + [sep] + r)[0] == p[0];
      assert (p + [sep] + r)[1..] == p[1..] + [sep] + r;
      SplitLeadingPiece(p[1..], sep, r);
      assert [p[0]] + p[1..] == p;
    }
  }

  /** Splitting a join of separator-free pieces gives the pieces back. */
  lemma {:induction false} SplitJoin(parts: seq<string>, sep: char)
    requires parts != []
    requires forall i :: 0 <= i < |parts| ==> sep !in parts[i]
    ensures Split(Join(parts, sep), sep) == parts
    decreases |parts|
  {
    if |parts| == 1 {
      SplitNoSeparator(parts[0], sep);
    } else {
      SplitJoin(parts[1..], sep);
      SplitLeadingPiece(parts[0], sep, Join(parts[1..], sep));
      assert parts == [parts[0]] + parts[1..];
    }
  }

  /** A string without the separator is a single piece. */
  lemma {:induction false} SplitNoSeparator(t: string, sep: char)
    requires sep !in t
    ensures Split(t, sep) == [t]
    decreases |t|
  {
    if t != [] {
      SplitNoSeparator(t[1..], sep);
      assert t == [t[0]] + t[1..];
    }
  }

  /** A separator appended at the end adds one empty last piece. */
  lemma {:induction false} SplitSepSuffix(s: string, sep: char)
    ensures Split(s + [sep], sep) == Split(s, sep) + [""]
    decreases |s|
  {
    if s == [] {
      assert [sep][1..] == [];
    } else {
      assert (s + [sep])[1..] == s[1..] + [sep];
      SplitSepSuffix(s[1..], sep);
    }
  }

  /** The pieces that are non-empty, in order: `parts.filter(part => part)`. */
  function NonEmptyParts(parts: seq<string>): (r: seq<string>)
    ensures |r| <= |parts|
    ensures forall i :: 0 <= i < |r| ==> r[i] != "" && r[i] in parts
    decreases |parts|
  {
    if parts == [] then []
    else (if parts[0] == "" then [] else [parts[0]]) + NonEmptyParts(parts[1..])
  }

  lemma {:induction false} NonEmptyPartsAppend(a: seq<string>, b: seq<string>)
    ensures NonEmptyParts(a + b) == NonEmptyParts(a) + NonEmptyParts(b)
    decreases |a|
  {
    if a != [] {
      assert (a + b)[0] == a[0];
      assert (a + b)[1..] == a[1..] + b;
      NonEmptyPartsAppend(a[1..], b);
    } else {
      assert a + b == b;
    }
  }

  /** A trailing separator does not change the non-empty pieces. */
  lemma NonEmptyPartsTrailingSep(s: string, sep: char)
    ensures NonEmptyParts(Split(s + [sep], sep)) == NonEmptyParts(Split(s, sep))
  {
    SplitSepSuffix(s, sep);
    NonEmptyPartsAppend(Split(s, sep), [""]);
    assert NonEmptyParts([""]) == [];
  }

  /** The value of a digit character in radixes up to 36, or 36 for a character that is no digit. */
  function DigitValue(c: char): (d: nat)
    ensures d <= 36
  {
    if '0' <= c <= '9' then c as int - '0' as int
    else if 'a' <= c <= 'z' then c as int - 'a' as int + 10
    else if 'A' <= c <= 'Z' then c as int - 'A' as int + 10
    else 36
  }

  /** Length of the longest prefix of `s` made of digits of the radix. */
  function DigitRun(s: string, radix: nat): (n: nat)
    ensures n <= |s|
    ensures forall k :: 0 <= k < n ==> DigitValue(s[k]) < radix
    ensures n < |s| ==> DigitValue(s[n]) >= radix
    decreases |s|
  {
    if s != [] && DigitValue(s[0]) < radix then 1 + DigitRun(s[1..], radix) else 0
  }

  /** The number a string of digits denotes in the radix, most significant digit first. */
  function DigitsValue(ds: string, radix: nat): nat
    decreases |ds|
  {
    if ds == [] then 0 else DigitsValue(ds[..|ds| - 1], radix) * radix + DigitValue(ds[|ds| - 1])
  }

  /** Whether a `0x`/`0X` prefix is skipped: only when the radix is absent (0) or 16. */
  predicate HasHexPrefix(u: string, radix: nat) {
    (radix == 0 || radix == 16) && |u| >= 2 && u[0] == '0' && (u[1] == 'x' || u[1] == 'X')
  }

  /** The digits of an unsigned numeral after an optional hex prefix; `None` when there
      is no digit at all. */
  function ParseUnsigned(u: string, radix: nat): (r: Option<nat>)
    requires radix == 0 || 2 <= radix <= 36
  {
    var base := if HasHexPrefix(u, radix) then 16 else if radix == 0 then 10 else radix;
    var v := if HasHexPrefix(u, radix) then u[2..] else u;
    var n := DigitRun(v, base);
    if n == 0 then None else Some(DigitsValue(v[..n], base))
  }

  /** `parseInt(s, radix)` (ECMAScript section 19.2.5), with `radix` 0 standing for an
      absent radix; `None` is NaN.  Leading white space and one sign are skipped,
      a `0x`/`0X` prefix is skipped when the radix is absent or 16, and the longest
      run of digits is read; anything after it is ignored. */
  function ParseInt(s: string, radix: nat): (r: Option<int>)
    ensures radix != 0 && (radix < 2 || radix > 36) ==> r.None?
    ensures TrimStart(s) == [] ==> r.None?
    ensures r.Some? && r.value < 0 ==> TrimStart(s)[0] == '-'
  {
    var t := TrimStart(s);
    var signed := t != [] && (t[0] == '-' || t[0] == '+');
    var u := if signed then t[1..] else t;
    if radix != 0 && (radix < 2 || radix > 36) then None
    else
      match ParseUnsigned(u, radix)
      case None => None
      case Some(m) => Some(if signed && t[0] == '-' then -(m as int) else m)
  }

  /** Two hexadecimal digits parse to the byte they spell, whatever follows them. */
  lemma HexPairValue(s: string)
    requires |s| >= 2 && DigitValue(s[0]) < 16 && DigitValue(s[1]) < 16
    requires !IsSpace(s[0]) && s[0] != '-' && s[0] != '+'
    requires !(s[0] == '0' && (s[1] == 'x' || s[1] == 'X'))
    requires |s| == 2 || DigitValue(s[2]) >= 16
    ensures ParseInt(s, 16) == Some(16 * DigitValue(s[0]) + DigitValue(s[1]))
    ensures 0 <= 16 * DigitValue(s[0]) + DigitValue(s[1]) <= 255
  {
    ParseIntUnsigned(s, 16);
    assert DigitRun(s, 16) == 2 by {
      assert DigitRun(s[1..], 16) == 1 + DigitRun(s[2..], 16);
    }
    assert s[..2] == [s[0], s[1]];
    TwoDigitsValue(s[0], s[1], 16);
  }

  /** Two digits denote the first times the radix plus the second. */
  lemma TwoDigitsValue(a: char, b: char, radix: nat)
    ensures DigitsValue([a, b], radix) == DigitValue(a) * radix + DigitValue(b)
  {
    assert [a, b][..1] == [a];
    assert [a][..0] == [];
    assert DigitsValue([a], radix) == DigitsValue([], radix) * radix + DigitValue(a);
    assert DigitsValue([], radix) * radix == 0;
    assert DigitsValue([a, b], radix) == DigitsValue([a], radix) * radix + DigitValue(b);
  }

  /** A string whose first character (after white space and sign) is no digit is NaN. */
  lemma NoDigitIsNaN(s: string, radix: nat)
    requires 2 <= radix <= 36 && radix != 16
    requires s != [] && !IsSpace(s[0]) && s[0] != '-' && s[0] != '+' && DigitValue(s[0]) >= radix
    ensures ParseInt(s, radix).None?
  {
    ParseIntUnsigned(s, radix);
    assert DigitRun(s, radix) == 0;
  }

  function DigitChar(d: nat): (c: char)
    requires d < 10
    ensures '0' <= c <= '9' && DigitValue(c) == d
  {
    ['0', '1', '2', '3', '4', '5', '6', '7', '8', '9'][d]
  }

  /** The decimal numeral of a natural number, as template literals print it. */
  function NatToString(n: nat): (s: string)
    ensures s != []
    ensures forall k :: 0 <= k < |s| ==> '0' <= s[k] <= '9'
    decreases n
  {
    if n < 10 then [DigitChar(n)] else NatToString(n / 10) + [DigitChar(n % 10)]
  }

  /** Reading the numeral back gives the number. */
  lemma {:induction false} NatToStringValue(n: nat)
    ensures DigitsValue(NatToString(n), 10) == n
    decreases n
  {
    var s := NatToString(n);
    if n < 10 {
      assert s[..0] == [];
    } else {
      NatToStringValue(n / 10);
      assert s[..|s| - 1] == NatToString(n / 10);
    }
  }

  /** Only the numeral of zero starts with the digit 0. */
  lemma {:induction false} NatToStringLeadingDigit(n: nat)
    ensures |NatToString(n)| >= 2 ==> NatToString(n)[0] != '0'
    decreases n
  {
    if n >= 10 {
      NatToStringLeadingDigit(n / 10);
      assert NatToString(n)[0] == NatToString(n / 10)[0];
    }
  }

  /** Every digit of a numeral is a decimal digit, so the whole numeral is one run. */
  lemma {:induction false} DecimalRun(s: string)
    requires forall k :: 0 <= k < |s| ==> '0' <= s[k] <= '9'
    ensures DigitRun(s, 10) == |s|
    decreases |s|
  {
    if s != [] {
      DecimalRun(s[1..]);
    }
  }

  /** A run of decimal digits with no hex prefix is read whole. */
  lemma ParseUnsignedDecimal(s: string, radix: nat)
    requires radix == 0 || radix == 10
    requires s != [] && forall k :: 0 <= k < |s| ==> '0' <= s[k] <= '9'
    requires !HasHexPrefix(s, radix)
    ensures ParseUnsigned(s, radix) == Some(DigitsValue(s, 10))
  {
    DecimalRun(s);
    assert s[..|s|] == s;
  }

  /** Without leading white space or sign, `parseInt` is the unsigned reading. */
  lemma ParseIntUnsigned(s: string, radix: nat)
    requires radix == 0 || 2 <= radix <= 36
    requires s != [] && !IsSpace(s[0]) && s[0] != '-' && s[0] != '+'
    ensures ParseInt(s, radix) == match ParseUnsigned(s, radix) case None => None case Some(m) => Some(m as int)
  {
    assert TrimStart(s) == s;
  }

  /** `parseInt` reads back the numeral of every natural number, with radix 10 or with
      no radix. */
  lemma ParseIntNatToString(n: nat, radix: nat)
    requires radix == 0 || radix == 10
    ensures ParseInt(NatToString(n), radix) == Some(n)
  {
    var s := NatToString(n);
    NatToStringLeadingDigit(n);
    ParseUnsignedDecimal(s, radix);
    NatToStringValue(n);
    ParseIntUnsigned(s, radix);
  }
}
