/** The message shown when the provider answers with an HTTP error status:
    `API Error (<provider>): <status>`, followed by ` - <details>` when the
    error body carries a truthy `error.message`. */
module HttpError {
  import opened Wrappers
  import opened Json

  predicate IsDigit(c: char) {
    '0' <= c <= '9'
  }

  predicate AllDigits(s: string) {
    forall i :: 0 <= i < |s| ==> IsDigit(s[i])
  }

  function DigitChar(d: nat): (c: char)
    requires d < 10
    ensures IsDigit(c) && (c as int) - ('0' as int) == d
  {
    (('0' as int) + d) as char
  }

  /** `str(n)` for a non-negative int: its decimal digits, without leading zeros. */
  function DecimalString(n: nat): (s: string)
    ensures |s| >= 1 && AllDigits(s)
    ensures s[0] == '0' ==> n == 0
    decreases n
  {
    if n < 10 then [DigitChar(n)] else DecimalString(n / 10) + [DigitChar(n % 10)]
  }

  /** The number a string of decimal digits denotes. */
  function DecimalValue(s: string): nat
    requires AllDigits(s)
    decreases |s|
  {
    if s == [] then 0
    else 10 * DecimalValue(s[..|s| - 1]) + ((s[|s| - 1] as int) - ('0' as int))
  }

  lemma {:induction false} DecimalRoundTrip(n: nat)
    ensures DecimalValue(DecimalString(n)) == n
    decreases n
  {
    if n >= 10 {
      DecimalRoundTrip(n / 10);
      var s := DecimalString(n);
      assert s[..|s| - 1] == DecimalString(n / 10);
    }
  }

  /** The longest prefix of `s` made of digits. */
  function LeadingDigits(s: string): (r: string)
    ensures AllDigits(r) && |r| <= |s| && r == s[..|r|]
    decreases |s|
  {
    if s != [] && IsDigit(s[0]) then [s[0]] + LeadingDigits(s[1..]) else []
  }

  lemma {:induction false} LeadingDigitsOfNumber(digits: string, rest: string)
    requires AllDigits(digits)
    requires rest == [] || !IsDigit(rest[0])
    ensures LeadingDigits(digits + rest) == digits
    decreases |digits|
  {
    if digits == [] {
      assert digits + rest == rest;
    } else {
      assert (digits + rest)[0] == digits[0];
      assert (digits + rest)[1..] == digits[1..] + rest;
      LeadingDigitsOfNumber(digits[1..], rest);
      assert [digits[0]] + digits[1..] == digits;
    }
  }

  /** `error_data.get("error", {}).get("message", "")` when it is truthy; None
      when the body is not JSON, when either lookup is on a non-dict (the
      AttributeError is swallowed), or when the message is falsy. */
  function ErrorDetail(body: Option<Value>): (r: Option<Value>)
    ensures r.Some? ==> Truthy(r.value)
    ensures r.Some? ==>
      && body.Some? && body.value.Object? && "error" in body.value.fields
      && body.value.fields["error"].Object? && "message" in body.value.fields["error"].fields
      && body.value.fields["error"].fields["message"] == r.value
    ensures (&& body.Some? && body.value.Object? && "error" in body.value.fields
             && body.value.fields["error"].Object? && "message" in body.value.fields["error"].fields
             && Truthy(body.value.fields["error"].fields["message"]))
            ==> r == Some(body.value.fields["error"].fields["message"])
  {
    match body
    case None => None
    case Some(data) =>
      match Get(data, "error", Object(map[]))
      case Err(_) => None
      case Ok(error) =>
        match Get(error, "message", Str(""))
        case Err(_) => None
        case Ok(details) => if Truthy(details) then Some(details) else None
  }

  /** How an f-string shows a value: a str as itself, anything else through
      the given rendering of Python's `str()`. */
  function Show(v: Value, render: Value -> string): string {
    if v.Str? then v.s else render(v)
  }

  function Heading(provider: string): string {
    "API Error (" + provider + "): "
  }

  /** `API Error (<provider>): <status>`, then ` - <details>` when there are any. */
  function ApiErrorMessage(provider: string, status: nat, body: Option<Value>,
                           render: Value -> string): (r: string)
    ensures IsPrefix(Heading(provider) + DecimalString(status), r)
    ensures |r| > |Heading(provider)|
    ensures ErrorDetail(body).Some? ==> |r| >= |Heading(provider) + DecimalString(status)| + 3
  {
    Heading(provider) + DecimalString(status)
      + match ErrorDetail(body)
        case None => ""
        case Some(details) => " - " + Show(details, render)
  }

  /** The message names the provider and the status code, which can be read
      back from the digits after the heading; what follows the digits is
      ` - ` and the details when there are any, and nothing otherwise. */
  lemma {:induction false} ApiErrorMessageParts(provider: string, status: nat, body: Option<Value>,
                                               render: Value -> string)
    ensures var msg := ApiErrorMessage(provider, status, body, render);
      var head := Heading(provider);
      && |head| <= |msg| && msg[..|head|] == head
      && var digits := LeadingDigits(msg[|head|..]);
         && DecimalValue(digits) == status
         && msg[|head| + |digits|..] ==
              (if ErrorDetail(body).Some? then " - " + Show(ErrorDetail(body).value, render) else "")
  {
    var msg := ApiErrorMessage(provider, status, body, render);
    var head := Heading(provider);
    var number := DecimalString(status);
    var tail := if ErrorDetail(body).Some? then " - " + Show(ErrorDetail(body).value, render) else "";
    assert msg == head + (number + tail);
    assert msg[..|head|] == head;
    assert msg[|head|..] == number + tail;
    LeadingDigitsOfNumber(number, tail);
    DecimalRoundTrip(status);
    assert msg[|head| + |number|..] == tail;
  }

  /** The suffix is present exactly when the body carries a truthy `error.message`. */
  lemma DetailsOnlyFromErrorMessage(provider: string, status: nat, body: Option<Value>,
                                    render: Value -> string)
    ensures ErrorDetail(body).None? <==>
      ApiErrorMessage(provider, status, body, render) == Heading(provider) + DecimalString(status)
  {
    var base := Heading(provider) + DecimalString(status);
    if ErrorDetail(body).Some? {
      var tail := " - " + Show(ErrorDetail(body).value, render);
      assert |base + tail| > |base|;
    } else {
      assert base + "" == base;
    }
  }
}
