/**
 * The few JavaScript notions the clone engine's code leans on: values that may be
 * `undefined`, truthiness, what `'' + v` renders, `toUpperCase`, and the settlement of
 * a promise. Driver callbacks `(err, response)` are modelled as replies passed in.
 */
module Js {

  datatype Option<+T> = None | Some(value: T)

  /** A configuration or plan value as the code receives it: absent, null, a string or a number. */
  datatype JsValue = Undefined | Null | Str(s: string) | Num(n: int)

  /** JavaScript truthiness: `undefined`, `null`, `''` and `0` are falsy. */
  predicate Truthy(v: JsValue) {
    match v
    case Undefined => false
    case Null => false
    case Str(s) => s != ""
    case Num(n) => n != 0
  }

  /** Decimal digits of a natural number, most significant first. */
  function Digits(n: nat): (r: string)
    ensures |r| >= 1
    ensures forall i :: 0 <= i < |r| ==> '0' <= r[i] <= '9'
    decreases n
  {
    var last := ['0' + ((n % 10) as char)];
    if n < 10 then last else Digits(n / 10) + last
  }

  /** Reads back a string of decimal digits. */
  function ReadDigits(s: string): nat
    requires forall i :: 0 <= i < |s| ==> '0' <= s[i] <= '9'
  {
    if s == [] then 0 else ReadDigits(s[..|s| - 1]) * 10 + (s[|s| - 1] - '0') as nat
  }

  /** The decimal rendering is faithful: reading it back yields the number. */
  lemma {:induction false} DigitsRoundTrip(n: nat)
    ensures ReadDigits(Digits(n)) == n
  {
    var d := Digits(n);
    if n >= 10 {
      DigitsRoundTrip(n / 10);
      assert d[..|d| - 1] == Digits(n / 10);
    }
  }

  /** How a (whole) number is rendered when concatenated to a string. */
  function DecimalText(n: int): string {
    if n < 0 then "-" + Digits(-n) else Digits(n)
  }

  /** The text `'' + v` produces. */
  function Text(v: JsValue): string {
    match v
    case Undefined => "undefined"
    case Null => "null"
    case Str(s) => s
    case Num(n) => DecimalText(n)
  }

  function UpperChar(c: char): char {
    if 'a' <= c <= 'z' then (c as int - 32) as char else c
  }

  /** `s.toUpperCase()`, restricted to the ASCII letters. */
  function Upper(s: string): (r: string)
    ensures |r| == |s|
  {
    if s == [] then [] else Upper(s[..|s| - 1]) + [UpperChar(s[|s| - 1])]
  }

  /** Under the ASCII upper-casing every character is mapped on its own, in place. */
  lemma {:induction false} UpperPointwise(s: string)
    ensures forall i :: 0 <= i < |s| ==> Upper(s)[i] == UpperChar(s[i])
  {
    if s != [] {
      UpperPointwise(s[..|s| - 1]);
    }
  }

  /** No lower-case ASCII letter survives. */
  lemma UpperHasNoLowercase(s: string)
    ensures forall i :: 0 <= i < |s| ==> !('a' <= Upper(s)[i] <= 'z')
  {
    UpperPointwise(s);
  }

  /** Upper-casing twice is upper-casing once. */
  lemma UpperIdempotent(s: string)
    ensures Upper(Upper(s)) == Upper(s)
  {
    var u := Upper(s);
    UpperPointwise(s);
    UpperPointwise(u);
    assert forall i :: 0 <= i < |u| ==> UpperChar(u[i]) == u[i];
  }

  /**
   * A driver callback's outcome when its response is not read: `err` absent, or the
   * error, kept as the text `err.toString()` gives.
   */
  datatype Outcome = Done | Failed(error: string)

  /** A driver callback's `(err, response)` when the response is read. */
  datatype Res<+T> = Ok(value: T) | Err(error: string)

  /** How a promise ends: resolved with a value, rejected with a reason, or never settled. */
  datatype Settled<+T> = Resolved(value: T) | Rejected(reason: string) | Pending

  /** A statement sent to a driver and how the transaction's promise ends. */
  datatype Transaction<+T> = Transaction(sql: string, settled: Settled<T>)

  /** A promise settles once: a later `resolve` or `reject` has no effect. */
  function First<T>(settled: Settled<T>, next: Settled<T>): Settled<T> {
    if settled.Pending? then next else settled
  }
}
