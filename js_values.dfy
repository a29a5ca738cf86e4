/**
 * JavaScript values the services pass around: an absent (`undefined`) field, the
 * outcome of an awaited call (a value, or the value it throws), string truthiness
 * and the decimal rendering of a number inside a template literal.
 */
module JsValues {

  /** A field that may be `undefined`. */
  datatype Option<+T> = None | Some(value: T)

  /** What an awaited call gives: the value it resolves to, or what it throws. */
  datatype Result<+T, +E> = Ok(value: T) | Err(error: E)

  /** A thrown value: an `Error` instance carrying its message, or anything else. */
  datatype Fault = Error(message: string) | NonError

  /** A fetch `Response`'s `ok`: the status is in the 2xx range. */
  predicate StatusOk(status: nat) {
    200 <= status <= 299
  }

  /** JavaScript truthiness of a possibly absent string: `undefined` and "" are falsy. */
  predicate Truthy(s: Option<string>) {
    s.Some? && s.value != ""
  }

  /** `a || b` on two possibly absent strings. */
  function Or(a: Option<string>, b: Option<string>): (r: Option<string>)
    ensures Truthy(a) ==> r == a
    ensures !Truthy(a) ==> r == b
  {
    if Truthy(a) then a else b
  }

  /** How `${s}` renders a possibly absent string. */
  function Interpolate(s: Option<string>): string {
    match s
    case Some(v) => v
    case None => "undefined"
  }

  /** `${n}` for a non-negative integer: its decimal digits, most significant first. */
  function NatToDecimal(n: nat): (s: string)
    ensures |s| > 0
    ensures forall i :: 0 <= i < |s| ==> '0' <= s[i] <= '9'
    ensures s[0] == '0' ==> n == 0
  {
    if n < 10 then [Digit(n)] else NatToDecimal(n / 10) + [Digit(n % 10)]
  }

  function Digit(d: nat): (c: char)
    requires d < 10
    ensures '0' <= c <= '9' && c as int - '0' as int == d
  {
    ('0' as int + d) as char
  }

  /** Reads back a string of decimal digits. */
  function DecimalToNat(s: string): nat
    requires forall i :: 0 <= i < |s| ==> '0' <= s[i] <= '9'
  {
    if s == [] then 0 else DecimalToNat(s[..|s| - 1]) * 10 + (s[|s| - 1] as int - '0' as int)
  }

  /** The decimal rendering loses nothing: reading it back gives the number. */
  lemma {:induction false} DecimalRoundTrip(n: nat)
    ensures DecimalToNat(NatToDecimal(n)) == n
  {
    if n >= 10 {
      var s := NatToDecimal(n);
      assert s[..|s| - 1] == NatToDecimal(n / 10);
      DecimalRoundTrip(n / 10);
    }
  }

  /** Two different numbers never render the same. */
  lemma NatToDecimalInjective(m: nat, n: nat)
    requires NatToDecimal(m) == NatToDecimal(n)
    ensures m == n
  {
    DecimalRoundTrip(m);
    DecimalRoundTrip(n);
  }
}
