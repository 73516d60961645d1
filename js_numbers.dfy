/**
 * JavaScript's `parseInt(x)` (no radix) applied to a parsed JSON value, and
 * the decimal form JavaScript gives an integer when it is concatenated into
 * a string.
 */
module JsNumbers {
  import opened JsValue

  /** The digit character for 0 <= d < 10. */
  function DecimalDigit(d: nat): (c: char)
    requires d < 10
    ensures '0' <= c <= '9'
  {
    "0123456789"[d]
  }

  /** `String(n)` for a natural number: no sign, no leading zero. */
  function NatToDecimal(n: nat): (s: string)
    decreases n
  {
    if n < 10 then [DecimalDigit(n)] else NatToDecimal(n / 10) + [DecimalDigit(n % 10)]
  }

  /** `String(n)` for an integer. */
  function IntToDecimal(n: int): string {
    if n < 0 then "-" + NatToDecimal(-n) else NatToDecimal(n)
  }

  /** The value of a digit in radices up to 36, or 36 when `c` is no digit at all. */
  function DigitValue(c: char): (d: nat)
    ensures d <= 36
  {
    if '0' <= c <= '9' then c as int - '0' as int
    else if 'a' <= c <= 'z' then c as int - 'a' as int + 10
    else if 'A' <= c <= 'Z' then c as int - 'A' as int + 10
    else 36
  }

  /** The characters `parseInt` skips before the number: white space and line terminators. */
  predicate IsJsWhiteSpace(c: char) {
    c == '\t' || c == '\n' || c == '\U{000B}' || c == '\U{000C}' || c == '\r' || c == ' '
    || c == '\U{00A0}' || c == '\U{1680}' || ('\U{2000}' <= c <= '\U{200A}')
    || c == '\U{2028}' || c == '\U{2029}' || c == '\U{202F}' || c == '\U{205F}'
    || c == '\U{3000}' || c == '\U{FEFF}'
  }

  /** The string without its leading white space. */
  function TrimStart(s: string): (t: string)
    ensures |t| <= |s| && t == s[|s| - |t|..]
    ensures t == [] || !IsJsWhiteSpace(t[0])
    ensures forall i :: 0 <= i < |s| - |t| ==> IsJsWhiteSpace(s[i])
  {
    if s != [] && IsJsWhiteSpace(s[0]) then TrimStart(s[1..]) else s
  }

  /** The length of the longest prefix of `s` made of digits of the given radix. */
  function DigitPrefixLength(s: string, radix: nat): (n: nat)
    ensures n <= |s|
    ensures forall i :: 0 <= i < n ==> DigitValue(s[i]) < radix
    ensures n == |s| || DigitValue(s[n]) >= radix
  {
    if s != [] && DigitValue(s[0]) < radix then 1 + DigitPrefixLength(s[1..], radix) else 0
  }

  /** The value of a string of digits read most significant first. */
  function DigitsValue(s: string, radix: nat): nat {
    if s == [] then 0 else DigitsValue(s[..|s| - 1], radix) * radix + DigitValue(s[|s| - 1])
  }

  /** The sign of the number and the text after it. */
  function SplitSign(s: string): (bool, string)
  {
    if s != [] && (s[0] == '-' || s[0] == '+') then (s[0] == '-', s[1..]) else (false, s)
  }

  /** Radix 16 after a "0x" or "0X" prefix, radix 10 otherwise, and the text after the prefix. */
  function SplitRadix(s: string): (nat, string)
  {
    if |s| >= 2 && s[0] == '0' && (s[1] == 'x' || s[1] == 'X') then (16, s[2..]) else (10, s)
  }

  /**
   * `parseInt(s)`: skip white space, take an optional sign, a "0x"/"0X" prefix
   * switches to radix 16, then the longest run of digits; NaN if that run is empty.
   */
  function ParseIntString(input: string): (r: Val)
    ensures r.Number? || r.NaN?
  {
    var (negative, unsigned) := SplitSign(TrimStart(input));
    var (radix, body) := SplitRadix(unsigned);
    var len := DigitPrefixLength(body, radix);
    if len == 0 then NaN
    else
      var magnitude: int := DigitsValue(body[..len], radix);
      Number(if negative then -magnitude else magnitude)
  }

  /**
   * `String(j)`: how JavaScript turns a parsed JSON value into a string, or
   * `None` when the conversion throws. Arrays join their elements with
   * commas, writing null elements as nothing.
   */
  function ToJsString(j: Json): (r: Option<string>)
    ensures r.None? <==> ThrowsOnToString(j)
    decreases j, 1
  {
    match j
    case JNull => Some("null")
    case JBool(b) => Some(if b then "true" else "false")
    case JNumber(n) => Some(IntToDecimal(n))
    case JString(s) => Some(s)
    case JArray(items) => JoinFrom(j, 0)
    case JObject(fields) => if "toString" in fields then None else Some("[object Object]")
  }

  /** `items.slice(i).join(",")` for the items of the array `arr`, or `None` when an item cannot be converted. */
  function JoinFrom(arr: Json, i: nat): (r: Option<string>)
    requires arr.JArray? && i <= |arr.items|
    ensures r.None? <==> exists k :: i <= k < |arr.items| && ThrowsOnToString(arr.items[k])
    decreases arr, 0, |arr.items| - i
  {
    if i == |arr.items| then Some("")
    else
      var item := arr.items[i];
      assert item < arr;
      var text := if item.JNull? then Some("") else ToJsString(item);
      if text.None? then None
      else if i + 1 == |arr.items| then text
      else
        var rest := JoinFrom(arr, i + 1);
        if rest.None? then None else Some(text.value + "," + rest.value)
  }

  /** `parseInt(j)` on a value taken from a frame, or `None` when converting `j` to a string throws. */
  function ParseInt(j: Json): (r: Option<Val>)
    ensures r.None? <==> ThrowsOnToString(j)
    ensures r.Some? ==> r.value.Number? || r.value.NaN?
  {
    var text :- ToJsString(j);
    Some(ParseIntString(text))
  }

  lemma {:induction false} NatToDecimalIsDigits(n: nat)
    ensures NatToDecimal(n) != []
    ensures forall i :: 0 <= i < |NatToDecimal(n)| ==> '0' <= NatToDecimal(n)[i] <= '9'
    decreases n
  {
    if n >= 10 {
      NatToDecimalIsDigits(n / 10);
    }
  }

  lemma {:induction false} DigitsValueOfNatToDecimal(n: nat)
    ensures DigitsValue(NatToDecimal(n), 10) == n
    decreases n
  {
    if n >= 10 {
      var s := NatToDecimal(n);
      var prefix := NatToDecimal(n / 10);
      assert s == prefix + [DecimalDigit(n % 10)];
      assert s[..|s| - 1] == prefix;
      DigitsValueOfNatToDecimal(n / 10);
    }
  }

  /** The decimal digits of a natural number are read back whole, in radix 10. */
  lemma ParseDigits(n: nat)
    ensures var digits := NatToDecimal(n);
            SplitRadix(digits) == (10, digits) && DigitPrefixLength(digits, 10) == |digits|
            && DigitsValue(digits[..|digits|], 10) == n
  {
    var digits := NatToDecimal(n);
    NatToDecimalIsDigits(n);
    DigitsValueOfNatToDecimal(n);
    assert digits[..|digits|] == digits;
  }

  /** Reading back the decimal form of an integer gives that integer. */
  lemma ParseIntOfDecimal(n: int)
    ensures ParseIntString(IntToDecimal(n)) == Number(n)
  {
    var m: nat := if n < 0 then -n else n;
    var digits := NatToDecimal(m);
    NatToDecimalIsDigits(m);
    ParseDigits(m);
    var s := IntToDecimal(n);
    assert s[0] == '-' || '0' <= s[0] <= '9';
    assert !IsJsWhiteSpace(s[0]);
    assert TrimStart(s) == s;
    if n < 0 {
      assert s == "-" + digits;
      assert SplitSign(s) == (true, digits);
    } else {
      assert SplitSign(s) == (false, digits);
    }
  }

  /** `parseInt` of a JSON number, or of a string holding one, is that number. */
  lemma ParseIntOfNumber(n: int)
    ensures ParseInt(JNumber(n)) == Some(Number(n))
    ensures ParseInt(JString(IntToDecimal(n))) == Some(Number(n))
  {
    ParseIntOfDecimal(n);
  }
}
