/**
 * The error taxonomy of the client (src/error.rs): every failure a call can
 * report, the device-reported error code, and the text each one renders as.
 */
module Errors {

  import opened Wrappers

  /** An error reported by the device itself: an unsigned code and a message. */
  datatype BraviaErrorCode = BraviaErrorCode(code: nat, message: string)

  /**
   * The variants of `error::Error`. Payloads that belong to foreign crates
   * (the transport error of reqwest, the deserialisation error of serde_json)
   * are represented by the text they carry, or by nothing.
   */
  datatype Error =
    | FieldInitialization(field: string)
    | NetworkError(cause: string)
    | BadStatus(status: nat)
    | MissingValue(what: string)
    | InvalidResponse(what: string)
    | DeserializeError
    | BraviaError(err: BraviaErrorCode)
    | BraviaApiServiceNotFound
    | BraviaApiNotFound
    | BraviaApiLevelError
    | BraviaAuthLevelError

  /** `error::Result<T>`. */
  datatype Result<+T> = Ok(value: T) | Err(error: Error) {
    predicate IsFailure() { Err? }
    function PropagateFailure<U>(): Result<U>
      requires Err?
    {
      Err(error)
    }
    function Extract(): T
      requires Ok?
    {
      value
    }
  }

  // ---------------------------------------------------------------------------
  // Decimal rendering of unsigned integers (Rust's `Display` for `usize`)
  // ---------------------------------------------------------------------------

  predicate IsDigit(c: char) { '0' <= c <= '9' }

  function DigitChar(d: nat): (c: char)
    requires d < 10
    ensures IsDigit(c)
  {
    ['0', '1', '2', '3', '4', '5', '6', '7', '8', '9'][d]
  }

  function DigitValue(c: char): nat
    requires IsDigit(c)
  {
    (c as int - '0' as int) as nat
  }

  /** The shortest decimal rendering of `n`, as `write!("{}", n)` produces it. */
  function Decimal(n: nat): (s: string)
    decreases n
  {
    if n < 10 then [DigitChar(n)] else Decimal(n / 10) + [DigitChar(n % 10)]
  }

  /** The number a string of decimal digits denotes. */
  function DecimalValue(s: string): nat
    requires forall i :: 0 <= i < |s| ==> IsDigit(s[i])
  {
    if s == [] then 0 else DecimalValue(s[..|s| - 1]) * 10 + DigitValue(s[|s| - 1])
  }

  /** Reading a rendered number back gives the number: the rendering loses nothing. */
  lemma {:induction false} DecimalRoundTrip(n: nat)
    ensures |Decimal(n)| > 0
    ensures forall i :: 0 <= i < |Decimal(n)| ==> IsDigit(Decimal(n)[i])
    ensures DecimalValue(Decimal(n)) == n
    decreases n
  {
    if n >= 10 {
      DecimalRoundTrip(n / 10);
      var prefix := Decimal(n / 10);
      var s := prefix + [DigitChar(n % 10)];
      assert s[..|s| - 1] == prefix;
      assert DigitValue(DigitChar(n % 10)) == n % 10;
    } else {
      assert DigitValue(DigitChar(n)) == n;
    }
  }

  /** The number of decimal digits at the start of `s`. */
  function LeadingDigits(s: string): (k: nat)
    ensures k <= |s|
    ensures forall i :: 0 <= i < k ==> IsDigit(s[i])
    ensures k < |s| ==> !IsDigit(s[k])
  {
    if s != [] && IsDigit(s[0]) then 1 + LeadingDigits(s[1..]) else 0
  }

  lemma {:induction false} LeadingDigitsOfDigitsThen(d: string, rest: string)
    requires forall i :: 0 <= i < |d| ==> IsDigit(d[i])
    requires rest != [] && !IsDigit(rest[0])
    ensures LeadingDigits(d + rest) == |d|
  {
    if d != [] {
      assert (d + rest)[1..] == d[1..] + rest;
      LeadingDigitsOfDigitsThen(d[1..], rest);
    } else {
      assert d + rest == rest;
    }
  }

  // ---------------------------------------------------------------------------
  // Display (src/error.rs)
  // ---------------------------------------------------------------------------

  /** `Display` for `BraviaErrorCode`: `#<code>: <message>`. */
  function CodeText(e: BraviaErrorCode): (s: string)
  {
    "#" + Decimal(e.code) + ": " + e.message
  }

  /**
   * Reads a `#<code>: <message>` text back into a device error, or `None`
   * when the text is not of that form.
   */
  function ParseCodeText(s: string): Option<BraviaErrorCode>
  {
    if |s| < 1 || s[0] != '#' then None
    else
      var k := LeadingDigits(s[1..]);
      if k == 0 || |s| < 1 + k + 2 || s[1 + k .. 1 + k + 2] != ": " then None
      else Some(BraviaErrorCode(DecimalValue(s[1 .. 1 + k]), s[1 + k + 2 ..]))
  }

  /** The rendered device error determines code and message: `Display` is injective. */
  lemma CodeTextRoundTrip(e: BraviaErrorCode)
    ensures ParseCodeText(CodeText(e)) == Some(e)
  {
    var d := Decimal(e.code);
    DecimalRoundTrip(e.code);
    var s := CodeText(e);
    assert s == "#" + (d + (": " + e.message));
    assert s[1..] == d + (": " + e.message);
    LeadingDigitsOfDigitsThen(d, ": " + e.message);
    assert s[1 .. 1 + |d|] == d;
    assert s[1 + |d| .. 1 + |d| + 2] == ": ";
    assert s[1 + |d| + 2 ..] == e.message;
  }

  /**
   * The text each error renders as (`thiserror` messages of `error::Error`).
   * The transport error and the serde_json error are foreign: the first is
   * given by its text, the second renders only its fixed prefix. `BadStatus`
   * renders the numeric status (reqwest appends its reason phrase, which is
   * not modelled).
   */
  function Describe(e: Error): (s: string)
  {
    match e
    case FieldInitialization(_) => "An error occurred during initialization"
    case NetworkError(cause) => "NetworkError: " + cause
    case BadStatus(status) => "Error status received: " + Decimal(status)
    case MissingValue(what) => "Value missing from response: " + what
    case InvalidResponse(what) => "Invalid response received: " + what
    case DeserializeError => "JSON deserialize error: "
    case BraviaError(err) => "Error returned by Bravia: " + CodeText(err)
    case BraviaApiServiceNotFound => "API service not found."
    case BraviaApiNotFound => "API not found."
    case BraviaApiLevelError => "This API version is not supported."
    case BraviaAuthLevelError => "A password is required in order to access this API"
  }

  /** The locally detected failures (capability and credential) carry no payload. */
  predicate IsLocalFailure(e: Error)
  {
    e.BraviaApiServiceNotFound? || e.BraviaApiNotFound? || e.BraviaApiLevelError? || e.BraviaAuthLevelError?
  }

  /**
   * The four local failures are told apart by their message alone, and none
   * of them reads like a device-reported error.
   */
  lemma LocalFailuresDistinguishable(e1: Error, e2: Error, c: BraviaErrorCode)
    requires IsLocalFailure(e1) && IsLocalFailure(e2)
    ensures Describe(e1) == Describe(e2) <==> e1 == e2
    ensures Describe(e1) != Describe(BraviaError(c))
  {
    var d := Describe(BraviaError(c));
    assert d == "Error returned by Bravia: " + CodeText(c);
    assert d[0] == 'E';
    match e1
    case BraviaApiServiceNotFound => assert Describe(e1)[0] == 'A';
    case BraviaApiNotFound => assert Describe(e1)[0] == 'A';
    case BraviaApiLevelError => assert Describe(e1)[0] == 'T';
    case BraviaAuthLevelError =>
      assert |Describe(e1)| == 50 && Describe(e1)[26] == 'o';
      assert d[26] == '#';
  }

  /** The device error text can be read back out of the rendered error. */
  lemma DescribeBraviaError(c: BraviaErrorCode)
    ensures var s := Describe(BraviaError(c));
            |s| >= 26 && s[..26] == "Error returned by Bravia: " && ParseCodeText(s[26..]) == Some(c)
  {
    var s := Describe(BraviaError(c));
    assert s[26..] == CodeText(c);
    CodeTextRoundTrip(c);
  }
}
