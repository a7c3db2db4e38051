/** Decimal text and the lenient number parsing of the agent's NumberUtils:
    parseLong / parseShort return a caller-given default instead of throwing. */
module NumberUtils {
  import opened Wrappers

  const LongMin: int := -0x8000_0000_0000_0000
  const LongMax: int := 0x7FFF_FFFF_FFFF_FFFF
  const ShortMin: int := -0x8000
  const ShortMax: int := 0x7FFF

  predicate InLongRange(n: int) { LongMin <= n <= LongMax }
  predicate InShortRange(n: int) { ShortMin <= n <= ShortMax }

  predicate IsDigit(c: char) { '0' <= c <= '9' }

  predicate AllDigits(s: string) { forall i :: 0 <= i < |s| ==> IsDigit(s[i]) }

  /** The value of a run of decimal digits, most significant first. */
  function DigitsValue(s: string): nat
    requires AllDigits(s)
  {
    if |s| == 0 then 0
    else DigitsValue(s[..|s| - 1]) * 10 + (s[|s| - 1] as int - '0' as int)
  }

  /** The decimal text of a natural number, without leading zeros. */
  function ShowNat(n: nat): (r: string)
    ensures |r| > 0 && AllDigits(r) && DigitsValue(r) == n
  {
    var d := [('0' as int + n % 10) as char];
    if n < 10 then d
    else
      var prefix := ShowNat(n / 10);
      assert (prefix + d)[..|prefix + d| - 1] == prefix;
      prefix + d
  }

  /** The decimal text of an integer: a minus sign before negative values. */
  function ShowInt(n: int): string {
    if n < 0 then "-" + ShowNat(-n) else ShowNat(n)
  }

  /** The grammar of `Long.parseLong` and `Short.parseShort`: an optional `-` or `+`
      followed by one or more decimal digits. The value is not yet range-checked. */
  function ParseDecimal(s: string): Option<int> {
    if |s| == 0 then None
    else
      var digits := if s[0] == '-' || s[0] == '+' then s[1..] else s;
      if |digits| == 0 || !AllDigits(digits) then None
      else
        var v: int := DigitsValue(digits);
        Some(if s[0] == '-' then -v else v)
  }

  /** Parsing the decimal text of a number gives that number back. */
  lemma {:induction false} ParseShowInt(n: int)
    ensures ParseDecimal(ShowInt(n)) == Some(n)
  {
    var s := ShowInt(n);
    if n < 0 {
      var m := ShowNat(-n);
      assert s[0] == '-' && s[1..] == m;
    } else {
      var m := ShowNat(n);
      assert s == m && IsDigit(s[0]);
    }
  }

  /** `str` is the text of a 64-bit number: present, well formed, in range. */
  predicate IsLongText(str: Option<string>) {
    str.Some? && ParseDecimal(str.value).Some? && InLongRange(ParseDecimal(str.value).value)
  }

  /** `str` is the text of a 16-bit number: present, well formed, in range. */
  predicate IsShortText(str: Option<string>) {
    str.Some? && ParseDecimal(str.value).Some? && InShortRange(ParseDecimal(str.value).value)
  }

  /** `NumberUtils.parseLong(str, default)`: the 64-bit value of `str`, or `default`
      when `str` is null, malformed or out of the 64-bit range; it never throws. */
  function ParseLong(str: Option<string>, default: int): (r: int)
    ensures IsLongText(str) ==> ParseDecimal(str.value) == Some(r) && InLongRange(r)
    ensures !IsLongText(str) ==> r == default
  {
    if str.None? then default
    else match ParseDecimal(str.value)
      case None => default
      case Some(v) => if InLongRange(v) then v else default
  }

  /** `NumberUtils.parseShort(str, default)`: the 16-bit value of `str`, or `default`
      when `str` is null, malformed or out of the 16-bit range; it never throws. */
  function ParseShort(str: Option<string>, default: int): (r: int)
    ensures IsShortText(str) ==> ParseDecimal(str.value) == Some(r) && InShortRange(r)
    ensures !IsShortText(str) ==> r == default
  {
    if str.None? then default
    else match ParseDecimal(str.value)
      case None => default
      case Some(v) => if InShortRange(v) then v else default
  }

  /** parseLong reads back every 64-bit value from its decimal text, whatever the default. */
  lemma ParseLongShowInt(n: int, default: int)
    requires InLongRange(n)
    ensures ParseLong(Some(ShowInt(n)), default) == n
  {
    ParseShowInt(n);
  }

  /** parseShort reads back every 16-bit value from its decimal text, whatever the default. */
  lemma ParseShortShowInt(n: int, default: int)
    requires InShortRange(n)
    ensures ParseShort(Some(ShowInt(n)), default) == n
  {
    ParseShowInt(n);
  }
}
