/**
 * The cookie that the sidebar provider writes whenever the desktop open flag is set:
 * `sidebar_state=<true|false>; path=/; max-age=604800`.
 */
module Cookie {

  /** Cookie name. */
  const CookieName: string := "sidebar_state"

  /** Cookie lifetime in seconds: one week. */
  const CookieMaxAge: nat := 60 * 60 * 24 * 7

  /** How a template literal renders a boolean. */
  function BoolText(b: bool): (text: string)
    ensures b ==> text == "true"
    ensures !b ==> text == "false"
  {
    if b then "true" else "false"
  }

  predicate IsDigit(c: char)
  {
    '0' <= c <= '9'
  }

  predicate AllDigits(s: string)
  {
    forall i :: 0 <= i < |s| ==> IsDigit(s[i])
  }

  function DigitChar(d: nat): (c: char)
    requires d < 10
    ensures IsDigit(c) && c as int - '0' as int == d
  {
    ('0' as int + d) as char
  }

  /**
   * From this value up a template literal writes a number in exponent form (`1e+21`),
   * so the plain decimal rendering below is stated only beneath it.
   */
  const ExponentFormFrom: nat := 1_000_000_000_000_000_000_000

  /**
   * How a template literal renders a non-negative integer below `ExponentFormFrom`:
   * shortest decimal digits. This covers the one number the cookie carries, 604800.
   */
  function DecimalText(n: nat): (r: string)
    requires n < ExponentFormFrom
    ensures |r| > 0 && AllDigits(r)
    ensures |r| > 1 ==> r[0] != '0'
    decreases n
  {
    if n < 10 then [DigitChar(n)] else DecimalText(n / 10) + [DigitChar(n % 10)]
  }

  /** The number a string of decimal digits denotes; the reading counterpart of DecimalText. */
  function DecimalValue(s: string): nat
    requires AllDigits(s)
  {
    if s == [] then 0 else 10 * DecimalValue(s[..|s| - 1]) + (s[|s| - 1] as int - '0' as int)
  }

  /** Rendering a number in decimal loses nothing: its digits denote the number again. */
  lemma {:induction false} DecimalRoundTrip(n: nat)
    requires n < ExponentFormFrom
    ensures DecimalValue(DecimalText(n)) == n
  {
    if n >= 10 {
      var t := DecimalText(n / 10);
      var r := t + [DigitChar(n % 10)];
      assert DecimalText(n) == r;
      assert r[..|r| - 1] == t;
      DecimalRoundTrip(n / 10);
    }
  }

  /** The max-age attribute reads 604800. */
  lemma MaxAgeText()
    ensures CookieMaxAge == 604800
    ensures DecimalText(CookieMaxAge) == "604800"
  {
  }

  /** The exact string assigned to `document.cookie` when the open flag becomes `open`. */
  function CookieText(open: bool): (r: string)
    ensures r == "sidebar_state=" + BoolText(open) + "; path=/; max-age=604800"
  {
    MaxAgeText();
    CookieName + "=" + BoolText(open) + "; path=/; max-age=" + DecimalText(CookieMaxAge)
  }

  /** The cookie string determines the flag it was written for. */
  lemma CookieTextDetermines(a: bool, b: bool)
    ensures CookieText(a) == CookieText(b) <==> a == b
  {
  }
}
