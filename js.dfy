/** The parts of JavaScript's value semantics that the chaincode and the gateway
    rely on: decoded JSON values seen through property access, truthiness and `||`,
    the white space that `trim`, `\s` and `parseInt` skip, `String(n)` for integers,
    `parseInt(s)` with no radix, and `Number(v)`. */
module Js {
  import opened Wrappers

  /** A decoded JSON value. Numbers are integers (the model has no floating point);
      an array or object met as a field value is opaque and always truthy. */
  datatype Json = JNull | JBool(b: bool) | JNum(n: int) | JStr(s: string) | JCompound

  /** Property access on a decoded object; None is `undefined`. */
  function Get(fields: map<string, Json>, name: string): Option<Json>
  {
    if name in fields then Some(fields[name]) else None
  }

  /** JavaScript truthiness of a property value (None is `undefined`). */
  predicate Truthy(v: Option<Json>)
  {
    match v
    case None => false
    case Some(JNull) => false
    case Some(JBool(b)) => b
    case Some(JNum(n)) => n != 0
    case Some(JStr(s)) => s != ""
    case Some(JCompound) => true
  }

  /** `a || b`: the left operand when it is truthy, otherwise the right one. */
  function Or(a: Option<Json>, b: Option<Json>): (r: Option<Json>)
    ensures Truthy(r) <==> Truthy(a) || Truthy(b)
    ensures Truthy(a) ==> r == a
    ensures !Truthy(a) ==> r == b
  {
    if Truthy(a) then a else b
  }

  /** The WhiteSpace and LineTerminator code points of ECMAScript: what `trim`
      removes, what `\s` matches and what `parseInt` skips. */
  predicate IsSpace(c: char)
  {
    || c == '\t' || c == '\n' || c == '\U{000B}' || c == '\U{000C}' || c == '\r'
    || c == ' ' || c == '\U{00A0}' || c == '\U{1680}' || ('\U{2000}' <= c <= '\U{200A}')
    || c == '\U{2028}' || c == '\U{2029}' || c == '\U{202F}' || c == '\U{205F}'
    || c == '\U{3000}' || c == '\U{FEFF}'
  }

  /** `s.trimStart()`: the suffix left after every leading space is dropped. */
  function TrimStart(s: string): (r: string)
    ensures |r| <= |s| && r == s[|s| - |r|..]
    ensures forall i :: 0 <= i < |s| - |r| ==> IsSpace(s[i])
    ensures r != [] ==> !IsSpace(r[0])
  {
    if s != [] && IsSpace(s[0]) then TrimStart(s[1..]) else s
  }

  /** `s.trimEnd()`: the prefix left after every trailing space is dropped. */
  function TrimEnd(s: string): (r: string)
    ensures |r| <= |s| && r == s[..|r|]
    ensures forall i :: |r| <= i < |s| ==> IsSpace(s[i])
    ensures r != [] ==> !IsSpace(r[|r| - 1])
  {
    if s != [] && IsSpace(s[|s| - 1]) then TrimEnd(s[..|s| - 1]) else s
  }

  /** Neither end of `s` is white space: what `trim` leaves. */
  predicate Unpadded(s: string)
  {
    s != [] ==> !IsSpace(s[0]) && !IsSpace(s[|s| - 1])
  }

  /** `s.trim()`. */
  function Trim(s: string): (r: string)
    ensures Unpadded(r)
  {
    var t := TrimStart(s);
    assert TrimEnd(t) != [] ==> TrimEnd(t)[0] == t[0];
    TrimEnd(t)
  }

  /** The result of `trim` is the input with its leading and trailing spaces cut off:
      a slice of the input with everything outside the slice being a space. */
  lemma TrimCutsSpaces(s: string)
    ensures var r := Trim(s); var k := |s| - |TrimStart(s)|;
      && k + |r| <= |s| && r == s[k..k + |r|]
      && (forall i :: 0 <= i < k ==> IsSpace(s[i]))
      && (forall i :: k + |r| <= i < |s| ==> IsSpace(s[i]))
  {
    var t := TrimStart(s);
    var k := |s| - |t|;
    var r := TrimEnd(t);
    TrailingSpacesOfSuffix(s, k, r);
  }

  /** A prefix `r` of the suffix of `s` from `k` on, followed there only by spaces,
      is the slice of `s` from `k`, followed in `s` only by spaces. */
  lemma TrailingSpacesOfSuffix(s: string, k: nat, r: string)
    requires k <= |s| && |r| <= |s| - k && r == s[k..][..|r|]
    requires forall i :: |r| <= i < |s| - k ==> IsSpace(s[k..][i])
    ensures r == s[k..k + |r|]
    ensures forall i :: k + |r| <= i < |s| ==> IsSpace(s[i])
  {
    forall i | k + |r| <= i < |s| ensures IsSpace(s[i]) {
      assert s[i] == s[k..][i - k];
    }
  }

  /** A string with no space at either end is its own trim. */
  lemma TrimOfTrimmed(s: string)
    requires Unpadded(s)
    ensures Trim(s) == s
  {
  }

  /** Trimming twice is trimming once. */
  lemma TrimIdempotent(s: string)
    ensures Trim(Trim(s)) == Trim(s)
  {
    TrimOfTrimmed(Trim(s));
  }

  predicate IsDecimalDigit(c: char)
  {
    '0' <= c <= '9'
  }

  function DigitChar(d: nat): (c: char)
    requires d < 10
    ensures IsDecimalDigit(c) && c as int - '0' as int == d
  {
    ('0' as int + d) as char
  }

  /** `String(n)` for a non-negative integer: its decimal digits, no leading zero. */
  function NatToString(n: nat): (s: string)
    ensures s != [] && forall i :: 0 <= i < |s| ==> IsDecimalDigit(s[i])
    ensures (s[0] == '0') == (n == 0)
    ensures n == 0 ==> s == "0"
    decreases n
  {
    if n < 10 then [DigitChar(n)] else NatToString(n / 10) + [DigitChar(n % 10)]
  }

  /** `String(i)` for an integer. */
  function IntToString(i: int): string
  {
    if i < 0 then "-" + NatToString(-i) else NatToString(i)
  }

  /** The value of a character as a digit in the given radix, if it is one
      (0-9, then a-z or A-Z for 10 upwards, as `parseInt` and `Number` read them). */
  function DigitValue(c: char, radix: nat): Option<nat>
  {
    var d := if '0' <= c <= '9' then c as int - '0' as int
             else if 'a' <= c <= 'z' then c as int - 'a' as int + 10
             else if 'A' <= c <= 'Z' then c as int - 'A' as int + 10
             else 36;
    if d < radix then Some(d) else None
  }

  predicate AllDigits(s: string, radix: nat)
  {
    forall i :: 0 <= i < |s| ==> DigitValue(s[i], radix).Some?
  }

  /** The length of the longest prefix of `s` made of digits in the radix. */
  function DigitRun(s: string, radix: nat): (k: nat)
    ensures k <= |s| && AllDigits(s[..k], radix)
    ensures k < |s| ==> DigitValue(s[k], radix).None?
  {
    if s != [] && DigitValue(s[0], radix).Some? then
      var k := 1 + DigitRun(s[1..], radix);
      assert s[..k] == [s[0]] + s[1..][..k - 1];
      k
    else 0
  }

  /** The number a string of digits denotes in the radix, most significant first. */
  function ValueOf(s: string, radix: nat): nat
    requires AllDigits(s, radix)
  {
    if s == [] then 0
    else ValueOf(s[..|s| - 1], radix) * radix + DigitValue(s[|s| - 1], radix).value
  }

  /** The longest prefix of digits in the radix, read as a number; None when the
      string does not start with a digit. */
  function LeadingNumber(v: string, radix: nat): (r: Option<nat>)
    ensures AllDigits(v, radix) && v != [] ==> r == Some(ValueOf(v, radix))
  {
    var k := DigitRun(v, radix);
    assert AllDigits(v, radix) ==> k == |v| && v[..k] == v;
    if k == 0 then None else Some(ValueOf(v[..k], radix))
  }

  /** The unsigned part of `parseInt`: a `0x`/`0X` prefix switches to radix 16. */
  function ParseMagnitude(u: string): Option<nat>
  {
    if |u| >= 2 && u[0] == '0' && (u[1] == 'x' || u[1] == 'X') then LeadingNumber(u[2..], 16)
    else LeadingNumber(u, 10)
  }

  function Negate(m: Option<nat>, negative: bool): Option<int>
  {
    match m
    case None => None
    case Some(x) => var r: int := x; Some(if negative then -r else r)
  }

  /** `parseInt(s)` with no radix argument; None is NaN. Leading space is skipped,
      one sign is read, a `0x`/`0X` prefix switches to radix 16, and the longest
      prefix of digits that follows is read; anything after it is ignored. */
  function ParseInt(s: string): Option<int>
  {
    var t := TrimStart(s);
    if t != [] && (t[0] == '-' || t[0] == '+') then Negate(ParseMagnitude(t[1..]), t[0] == '-')
    else Negate(ParseMagnitude(t), false)
  }

  /** The decimal digits of `n` read back in radix 10 give `n`. */
  lemma {:induction false} ValueOfNatToString(n: nat)
    ensures AllDigits(NatToString(n), 10) && ValueOf(NatToString(n), 10) == n
    decreases n
  {
    var s := NatToString(n);
    if n >= 10 {
      ValueOfNatToString(n / 10);
      assert s[..|s| - 1] == NatToString(n / 10);
    }
  }

  /** The digits `String` writes for a non-negative integer are read back, never
      as a hexadecimal literal. */
  /** Distinct numbers have distinct decimal forms. */
  lemma {:induction false} NatToStringInjective(m: nat, n: nat)
    requires m != n
    ensures NatToString(m) != NatToString(n)
    decreases m
  {
    if m >= 10 && n >= 10 {
      var a, b := NatToString(m), NatToString(n);
      if m / 10 != n / 10 {
        NatToStringInjective(m / 10, n / 10);
        assert a[..|a| - 1] == NatToString(m / 10);
        assert b[..|b| - 1] == NatToString(n / 10);
      } else {
        assert a[|a| - 1] != b[|b| - 1];
      }
    } else if m >= 10 {
      assert |NatToString(m)| >= 2;
    } else if n >= 10 {
      assert |NatToString(n)| >= 2;
    } else {
      assert NatToString(m)[0] != NatToString(n)[0];
    }
  }

  lemma MagnitudeOfNatToString(n: nat)
    ensures ParseMagnitude(NatToString(n)) == Some(n)
  {
    var d := NatToString(n);
    ValueOfNatToString(n);
  }

  /** What `String` writes, `parseInt` reads back: the gateway's `String(credits)`
      reaches the chaincode's `parseInt` unchanged. */
  lemma ParseIntOfString(i: int)
    ensures ParseInt(IntToString(i)) == Some(i)
  {
    if i < 0 {
      ParseIntOfNegative(i);
    } else {
      ParseIntOfNatural(i);
    }
  }

  lemma ParseIntOfNatural(i: int)
    requires i >= 0
    ensures ParseInt(IntToString(i)) == Some(i)
  {
    var s := IntToString(i);
    assert s == NatToString(i);
    assert IsDecimalDigit(s[0]);
    KeepsLeadingCharacter(s);
    MagnitudeOfNatToString(i);
  }

  lemma ParseIntOfNegative(i: int)
    requires i < 0
    ensures ParseInt(IntToString(i)) == Some(i)
  {
    var s := IntToString(i);
    var d := NatToString(-i);
    assert s == "-" + d;
    assert s[0] == '-' && s[1..] == d;
    KeepsLeadingCharacter(s);
    MagnitudeOfNatToString(-i);
    assert ParseMagnitude(s[1..]) == Some(-i);
    assert ParseInt(s) == Negate(ParseMagnitude(s[1..]), true);
  }

  /** `trimStart` leaves a string that starts with a non-space alone. */
  lemma KeepsLeadingCharacter(s: string)
    requires s != [] && !IsSpace(s[0])
    ensures TrimStart(s) == s
  {
  }

  /** `parseInt` of a string with no decimal digit at all is NaN. */
  lemma ParseIntWithoutDigits(s: string)
    requires forall i :: 0 <= i < |s| ==> !IsDecimalDigit(s[i])
    ensures ParseInt(s) == None
  {
    var t := TrimStart(s);
    var k := |s| - |t|;
    if t != [] && (t[0] == '-' || t[0] == '+') {
      if |t| > 1 {
        assert t[1..][0] == s[k + 1];
      }
      MagnitudeWithoutDigit(t[1..]);
    } else {
      if t != [] {
        assert t[0] == s[k];
      }
      MagnitudeWithoutDigit(t);
    }
  }

  /** Text that does not start with a decimal digit has no leading number. */
  lemma MagnitudeWithoutDigit(u: string)
    requires u == [] || !IsDecimalDigit(u[0])
    ensures ParseMagnitude(u) == None
  {
    if u != [] {
      assert DigitValue(u[0], 10).None?;
    }
  }

  /** A `0x`, `0o` or `0b` literal as `Number` reads it (no sign allowed). */
  function NonDecimalLiteral(t: string): Option<int>
    requires |t| >= 2
  {
    var radix := if t[1] in "xX" then 16 else if t[1] in "oO" then 8 else 2;
    var v := t[2..];
    if v != [] && AllDigits(v, radix) then Some(ValueOf(v, radix)) else None
  }

  /** A decimal integer with at most one sign, as `Number` reads it. */
  function SignedDecimal(t: string): Option<int>
  {
    var v := if t != [] && (t[0] == '-' || t[0] == '+') then t[1..] else t;
    if v != [] && AllDigits(v, 10) then Negate(Some(ValueOf(v, 10)), t != [] && t[0] == '-')
    else None
  }

  /** `Number(s)` for a string: an empty or all-space string is 0; otherwise, after
      trimming, a `0x`, `0o` or `0b` literal or a signed decimal integer.
      None is NaN. */
  function StringToNumber(s: string): Option<int>
  {
    var t := Trim(s);
    if t == [] then Some(0)
    else if |t| >= 2 && t[0] == '0' && t[1] in "xXoObB" then NonDecimalLiteral(t)
    else SignedDecimal(t)
  }

  /** `Number(v)` for a decoded JSON value; None is NaN. */
  function ToNumber(v: Option<Json>): Option<int>
  {
    match v
    case None => None
    case Some(JNull) => Some(0)
    case Some(JBool(b)) => Some(if b then 1 else 0)
    case Some(JNum(n)) => Some(n)
    case Some(JStr(s)) => StringToNumber(s)
    case Some(JCompound) => None
  }

  /** `String(i)` neither starts nor ends with a space. */
  lemma IntToStringTrimmed(i: int)
    ensures Trim(IntToString(i)) == IntToString(i)
  {
    var s := IntToString(i);
    if i < 0 {
      assert s[|s| - 1] == NatToString(-i)[|NatToString(-i)| - 1];
    }
    TrimOfTrimmed(s);
  }

  /** `String(i)` is read by `Number` as a signed decimal integer with value `i`. */
  lemma SignedDecimalOfString(i: int)
    ensures SignedDecimal(IntToString(i)) == Some(i)
  {
    var s := IntToString(i);
    if i < 0 {
      var d := NatToString(-i);
      ValueOfNatToString(-i);
      assert s[0] == '-' && s[1..] == d;
      assert d != [] && AllDigits(d, 10) && ValueOf(d, 10) == -i;
    } else {
      ValueOfNatToString(i);
      assert s[0] != '-' && s[0] != '+';
    }
  }

  /** `Number(String(i)) === i`: the string form `String` writes is read back. */
  lemma NumberOfString(i: int)
    ensures ToNumber(Some(JStr(IntToString(i)))) == Some(i)
  {
    var s := IntToString(i);
    IntToStringTrimmed(i);
    SignedDecimalOfString(i);
    assert !(|s| >= 2 && s[0] == '0') by {
      if i >= 0 { assert s == NatToString(i); }
    }
  }
}
