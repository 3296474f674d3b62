/** Bytes, fixed-width little-endian integers and the decimal text of an `int`:
    what memcpy, std::to_string and std::stoi do with the values the program sends. */
module Bytes {

  type byte = b: int | 0 <= b < 0x100
  type uint16 = n: int | 0 <= n < 0x1_0000
  type int32 = n: int | -0x8000_0000 <= n < 0x8000_0000

  /** A std::string: the program never looks past its bytes. */
  type Text = seq<byte>

  /** The bytes of a literal. */
  function Ascii(s: string): (t: Text)
    requires forall k :: 0 <= k < |s| ==> s[k] as int < 0x80
    ensures |t| == |s| && forall k :: 0 <= k < |s| ==> t[k] == s[k] as int
  {
    seq(|s|, k requires 0 <= k < |s| => s[k] as int)
  }

  datatype Option<+T> = None | Some(value: T)

  /** The two bytes a little-endian machine keeps an unsigned short in. */
  function Le16(n: uint16): (r: seq<byte>)
    ensures |r| == 2
  {
    [n % 0x100, n / 0x100]
  }

  function FromLe16(b: seq<byte>): uint16
    requires |b| == 2
  {
    b[0] as int + b[1] as int * 0x100
  }

  /** The low four bytes of a size_t: higher bytes are not copied. */
  function Le32(n: nat): (r: seq<byte>)
    ensures |r| == 4
  {
    [n % 0x100, n / 0x100 % 0x100, n / 0x1_0000 % 0x100, n / 0x100_0000 % 0x100]
  }

  function FromLe32(b: seq<byte>): (n: nat)
    requires |b| == 4
    ensures n < 0x1_0000_0000
  {
    b[0] as int + b[1] as int * 0x100 + b[2] as int * 0x1_0000 + b[3] as int * 0x100_0000
  }

  lemma Le16Inverse(n: uint16, b: seq<byte>)
    requires |b| == 2
    ensures FromLe16(Le16(n)) == n
    ensures Le16(FromLe16(b)) == b
  {
    assert (b[0] as int + b[1] as int * 0x100) / 0x100 == b[1];
  }

  /** Only the residue modulo 2^32 survives the four-byte copy. */
  lemma Le32Truncates(n: nat)
    ensures FromLe32(Le32(n)) == n % 0x1_0000_0000
  {
    var q1, q2, q3, q4 := n / 0x100, n / 0x1_0000, n / 0x100_0000, n / 0x1_0000_0000;
    assert q2 == q1 / 0x100 && q3 == q2 / 0x100 && q4 == q3 / 0x100;
    assert n == q1 * 0x100 + n % 0x100 && q1 == q2 * 0x100 + q1 % 0x100;
    assert q2 == q3 * 0x100 + q2 % 0x100 && q3 == q4 * 0x100 + q3 % 0x100;
  }

  lemma Le32OfFromLe32(b: seq<byte>)
    requires |b| == 4
    ensures Le32(FromLe32(b)) == b
  {
    var n := FromLe32(b);
    assert n / 0x100 == b[1] as int + b[2] as int * 0x100 + b[3] as int * 0x1_0000;
    assert n / 0x1_0000 == b[2] as int + b[3] as int * 0x100;
    assert n / 0x100_0000 == b[3];
  }

  // ----- decimal text -----

  const MINUS: byte := 45
  const PLUS: byte := 43

  predicate IsDigit(c: byte) { 48 <= c <= 57 }

  /** The characters isspace accepts in the default locale. */
  predicate IsSpace(c: byte) { c == 32 || 9 <= c <= 13 }

  function Digits(n: nat): (r: Text)
    ensures |r| > 0 && forall k :: 0 <= k < |r| ==> IsDigit(r[k])
  {
    if n < 10 then [48 + n] else Digits(n / 10) + [48 + n % 10]
  }

  /** std::to_string(int) */
  function ToString(n: int): Text {
    if n < 0 then [MINUS] + Digits(-n) else Digits(n)
  }

  function SkipSpaces(s: Text): Text {
    if s != [] && IsSpace(s[0]) then SkipSpaces(s[1..]) else s
  }

  function DigitPrefix(s: Text): (r: Text)
    ensures forall k :: 0 <= k < |r| ==> IsDigit(r[k])
  {
    if s != [] && IsDigit(s[0]) then [s[0]] + DigitPrefix(s[1..]) else []
  }

  function DecimalValue(s: Text): nat
    requires forall k :: 0 <= k < |s| ==> IsDigit(s[k])
  {
    if s == [] then 0 else
      assert IsDigit(s[|s| - 1]);
      DecimalValue(s[..|s| - 1]) * 10 + (s[|s| - 1] as int - 48)
  }

  /** std::stoi: None stands for the exceptions invalid_argument and out_of_range. */
  function Stoi(s: Text): Option<int> {
    var t := SkipSpaces(s);
    if t != [] && t[0] == MINUS then Signed(true, DigitPrefix(t[1..]))
    else if t != [] && t[0] == PLUS then Signed(false, DigitPrefix(t[1..]))
    else Signed(false, DigitPrefix(t))
  }

  function Signed(negative: bool, ds: Text): Option<int>
    requires forall k :: 0 <= k < |ds| ==> IsDigit(ds[k])
  {
    var v: int := if negative then -(DecimalValue(ds) as int) else DecimalValue(ds);
    if ds != [] && -0x8000_0000 <= v < 0x8000_0000 then Some(v) else None
  }

  lemma {:induction false} DigitsValue(n: nat)
    ensures DecimalValue(Digits(n)) == n
  {
    if n < 10 {
      assert Digits(n)[..0] == [];
    } else {
      DigitsValue(n / 10);
      assert Digits(n)[..|Digits(n)| - 1] == Digits(n / 10);
    }
  }

  lemma {:induction false} DigitPrefixOfDigits(s: Text)
    requires forall k :: 0 <= k < |s| ==> IsDigit(s[k])
    ensures DigitPrefix(s) == s
  {
    if s != [] { DigitPrefixOfDigits(s[1..]); }
  }

  /** A number written by std::to_string is read back by std::stoi. */
  lemma StoiOfToString(n: int32)
    ensures Stoi(ToString(n)) == Some(n)
  {
    var m: nat := if n < 0 then -(n as int) else n;
    var ds := Digits(m);
    DigitsValue(m);
    DigitPrefixOfDigits(ds);
    var t := ToString(n);
    assert IsDigit(ds[0]);
    assert SkipSpaces(t) == t;
    if n < 0 {
      assert t[1..] == ds;
      assert Stoi(t) == Signed(true, ds);
    } else {
      assert Stoi(t) == Signed(false, ds);
    }
  }

  // ----- which text a number is written as -----

  /** n without its last k decimal digits. */
  function Shift(n: nat, k: nat): nat {
    if k == 0 then n else Shift(n / 10, k - 1)
  }

  /** The decimal digits of n, most significant first: nothing is left over, and there is no
      leading zero. */
  lemma {:induction false} DigitsAre(n: nat)
    ensures var t := Digits(n);
            && (forall k :: 0 <= k < |t| ==> t[|t| - 1 - k] as int == '0' as int + Shift(n, k) % 10)
            && Shift(n, |t|) == 0 && (t[0] as int == '0' as int ==> n == 0 && |t| == 1)
  {
    if n >= 10 {
      DigitsAre(n / 10);
      var t, u := Digits(n), Digits(n / 10);
      forall k | 0 <= k < |t| ensures t[|t| - 1 - k] as int == '0' as int + Shift(n, k) % 10 {
        if k > 0 { assert t[|t| - 1 - k] == u[|u| - 1 - (k - 1)]; }
      }
    }
  }

  /** std::to_string: plain decimal digits, with a minus sign before those of a negative number
      and no other character. */
  lemma ToStringIs(n: int)
    ensures n < 0 ==> ToString(n) == Ascii("-") + ToString(-n)
    ensures n >= 0 ==>
              var t := ToString(n);
              && |t| > 0 && (t[0] as int == '0' as int ==> n == 0 && |t| == 1) && Shift(n, |t|) == 0
              && forall k :: 0 <= k < |t| ==> t[|t| - 1 - k] as int == '0' as int + Shift(n, k) % 10
  {
    if n >= 0 { DigitsAre(n); }
    assert Ascii("-") == [MINUS];
  }

  // ----- which texts are read as a number -----

  /** Spaces, a sign, digits, and then anything but a digit. */
  predicate Reads(s: Text, spaces: Text, sign: Text, digits: Text, rest: Text) {
    && s == spaces + sign + digits + rest
    && (forall c :: c in spaces ==> c == ' ' as int || 9 <= c <= 13)
    && sign in {[], Ascii("+"), Ascii("-")}
    && digits != [] && (forall c :: c in digits ==> '0' as int <= c <= '9' as int)
    && (rest != [] ==> !('0' as int <= rest[0] as int <= '9' as int))
  }

  /** The number those digits and that sign stand for. */
  function Meaning(sign: Text, digits: Text): int
    requires forall c :: c in digits ==> '0' as int <= c <= '9' as int
  {
    assert forall k :: 0 <= k < |digits| ==> digits[k] in digits;
    if sign == Ascii("-") then -(DecimalValue(digits) as int) else DecimalValue(digits)
  }

  lemma {:induction false} SkipSpacesOf(spaces: Text, t: Text)
    requires forall c :: c in spaces ==> IsSpace(c)
    requires t != [] ==> !IsSpace(t[0])
    ensures SkipSpaces(spaces + t) == t
  {
    if spaces == [] {
      assert spaces + t == t;
    } else {
      assert spaces[0] in spaces && (spaces + t)[1..] == spaces[1..] + t;
      SkipSpacesOf(spaces[1..], t);
    }
  }

  lemma {:induction false} DigitPrefixOf(digits: Text, rest: Text)
    requires forall c :: c in digits ==> IsDigit(c)
    requires rest != [] ==> !IsDigit(rest[0])
    ensures DigitPrefix(digits + rest) == digits
  {
    if digits == [] {
      assert digits + rest == rest;
    } else {
      assert digits[0] in digits && (digits + rest)[1..] == digits[1..] + rest;
      DigitPrefixOf(digits[1..], rest);
    }
  }

  lemma StoiOfParts(s: Text, spaces: Text, sign: Text, digits: Text, rest: Text)
    requires Reads(s, spaces, sign, digits, rest)
    ensures Stoi(s) == var n := Meaning(sign, digits); if -0x8000_0000 <= n < 0x8000_0000 then Some(n) else None
  {
    var t := sign + digits + rest;
    assert s == spaces + t;
    assert digits[0] in digits;
    assert sign != [] ==> t[0] == sign[0];
    assert sign == [] ==> t[0] == digits[0];
    assert Ascii("+") == [PLUS] && Ascii("-") == [MINUS];
    SkipSpacesOf(spaces, t);
    DigitPrefixOf(digits, rest);
    if sign == [] {
      assert t == digits + rest;
    } else {
      assert t[1..] == digits + rest;
    }
  }

  lemma {:induction false} SpacesSkipped(s: Text) returns (spaces: Text)
    ensures s == spaces + SkipSpaces(s)
    ensures forall c :: c in spaces ==> IsSpace(c)
    ensures SkipSpaces(s) != [] ==> !IsSpace(SkipSpaces(s)[0])
  {
    if s != [] && IsSpace(s[0]) {
      var more := SpacesSkipped(s[1..]);
      spaces := [s[0]] + more;
      assert s == [s[0]] + s[1..];
    } else {
      spaces := [];
      assert s == [] + s;
    }
  }

  lemma {:induction false} DigitsTaken(s: Text) returns (rest: Text)
    ensures s == DigitPrefix(s) + rest && (rest != [] ==> !IsDigit(rest[0]))
  {
    if s != [] && IsDigit(s[0]) {
      rest := DigitsTaken(s[1..]);
      assert s == [s[0]] + s[1..];
    } else {
      rest := s;
      assert s == [] + s;
    }
  }

  /** The sign, if any, and what follows it. */
  lemma SignTaken(s: Text) returns (sign: Text, u: Text)
    ensures SkipSpaces(s) == sign + u && sign in {[], [PLUS], [MINUS]}
    ensures Stoi(s) == Signed(sign == [MINUS], DigitPrefix(u))
  {
    hide DigitPrefix, DecimalValue, Signed, SkipSpaces;
    var t := SkipSpaces(s);
    if t != [] && (t[0] == MINUS || t[0] == PLUS) {
      sign, u := [t[0]], t[1..];
    } else {
      sign, u := [], t;
      assert t == [] + t;
    }
  }

  lemma StoiParts(s: Text) returns (spaces: Text, sign: Text, digits: Text, rest: Text)
    requires Stoi(s).Some?
    ensures Reads(s, spaces, sign, digits, rest) && Stoi(s).value == Meaning(sign, digits)
  {
    hide DigitPrefix, DecimalValue, SkipSpaces, Stoi;
    spaces := SpacesSkipped(s);
    var u: Text;
    sign, u := SignTaken(s);
    digits := DigitPrefix(u);
    rest := DigitsTaken(u);
    assert Ascii("+") == [PLUS] && Ascii("-") == [MINUS];
    assert s == spaces + sign + digits + rest by {
      assert s == spaces + (sign + (digits + rest));
    }
    StoiOfParts(s, spaces, sign, digits, rest);
  }

  /** std::stoi returns n exactly for the texts that begin, after spaces and perhaps a sign,
      with digits that stand for n; for any other it throws. */
  lemma StoiIff(s: Text, n: int32)
    ensures Stoi(s) == Some(n)
            <==> exists spaces, sign, digits, rest ::
                   Reads(s, spaces, sign, digits, rest) && Meaning(sign, digits) == n
  {
    if Stoi(s) == Some(n) {
      var spaces, sign, digits, rest := StoiParts(s);
    }
    forall spaces, sign, digits, rest | Reads(s, spaces, sign, digits, rest) && Meaning(sign, digits) == n
      ensures Stoi(s) == Some(n)
    {
      StoiOfParts(s, spaces, sign, digits, rest);
    }
  }

  lemma {:induction false} FewestDigits(t: Text)
    requires t != [] && forall k :: 0 <= k < |t| ==> IsDigit(t[k])
    ensures |Digits(DecimalValue(t))| <= |t|
  {
    var init := t[..|t| - 1];
    if init != [] {
      FewestDigits(init);
      assert DecimalValue(t) / 10 == DecimalValue(init);
    } else {
      assert DecimalValue(init) == 0;
    }
  }

  /** No text that is read as n is shorter than the one n is written as. */
  lemma ToStringShortest(n: int32, s: Text)
    requires Stoi(s) == Some(n)
    ensures |ToString(n)| <= |s|
  {
    var spaces, sign, digits, rest := StoiParts(s);
    assert forall k :: 0 <= k < |digits| ==> digits[k] in digits;
    FewestDigits(digits);
  }
}
