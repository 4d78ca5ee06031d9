/** The error taxonomy of the network layer (NetworkError) and its localized
    descriptions, including the decimal rendering of an HTTP status code. */
module Errors {

  import opened Wrappers

  datatype NetworkError =
    | NoInternet
    | ServerFailure(withHTTPCode: int)
    | FailedToParse(body: string)
    | FailedToRefreshToken
    | MaxAttemptsExceeded
    | NoData
    | Custom(message: string)

  const NoInternetMessage := "No internet connection"
  const NoDataMessage := "Server response is empty"
  const ServerFailurePrefix := "Unable to get data! http code: "
  const FailedToParsePrefix := "Failed to parse data: "
  const RefreshFailedMessage := "Unable to refresh token"
  const MaxAttemptsMessage := "Max number of authentication attempts exceeded"

  predicate IsDigit(c: char) {
    '0' <= c <= '9'
  }

  function DigitChar(d: nat): (c: char)
    requires d < 10
    ensures IsDigit(c) && c as int - '0' as int == d
  {
    ('0' as int + d) as char
  }

  /** The decimal digits of a natural number, most significant first, without leading zeros. */
  function NatDecimal(n: nat): (s: string)
    ensures |s| > 0
    ensures forall i :: 0 <= i < |s| ==> IsDigit(s[i])
    ensures s[0] == '0' ==> n == 0
  {
    if n < 10 then [DigitChar(n)] else NatDecimal(n / 10) + [DigitChar(n % 10)]
  }

  /** String interpolation of a signed integer: a minus sign for negative values, then the digits. */
  function Decimal(n: int): (s: string)
    ensures |s| > 0
    ensures n < 0 <==> s[0] == '-'
    ensures forall i :: 0 < i < |s| ==> IsDigit(s[i])
  {
    if n < 0 then "-" + NatDecimal(-n) else NatDecimal(n)
  }

  /** Reference reading of a digit string: the number it denotes. */
  function DigitsValue(s: string): nat
    requires forall i :: 0 <= i < |s| ==> IsDigit(s[i])
  {
    if |s| == 0 then 0 else 10 * DigitsValue(s[..|s| - 1]) + DigitOf(s[|s| - 1])
  }

  function DigitOf(c: char): (d: nat)
    requires IsDigit(c)
    ensures d < 10 && DigitChar(d) == c
  {
    c as int - '0' as int
  }

  /** Reference reading of a signed decimal numeral. */
  function DecimalValue(s: string): int
    requires |s| > 0
    requires forall i :: 0 < i < |s| ==> IsDigit(s[i])
    requires s[0] != '-' ==> IsDigit(s[0])
  {
    if s[0] == '-' then -(DigitsValue(s[1..]) as int) else DigitsValue(s)
  }

  lemma {:induction false} NatDecimalDenotes(n: nat)
    ensures DigitsValue(NatDecimal(n)) == n
  {
    if n >= 10 {
      var s := NatDecimal(n);
      assert s[..|s| - 1] == NatDecimal(n / 10);
      NatDecimalDenotes(n / 10);
    }
  }

  /** Reading back the interpolated integer gives the integer. */
  lemma DecimalRoundTrip(n: int)
    ensures DecimalValue(Decimal(n)) == n
  {
    if n < 0 {
      assert Decimal(n)[1..] == NatDecimal(-n);
      NatDecimalDenotes(-n);
    } else {
      NatDecimalDenotes(n);
    }
  }

  /** Distinct integers are rendered as distinct strings. */
  lemma DecimalInjective(a: int, b: int)
    requires Decimal(a) == Decimal(b)
    ensures a == b
  {
    DecimalRoundTrip(a);
    DecimalRoundTrip(b);
  }

  /** errorDescription: every case has a description (it is never nil). */
  function ErrorDescription(e: NetworkError): (d: Option<string>)
    ensures d.Some?
    ensures e.Custom? ==> d.value == e.message
    ensures e.ServerFailure? ==> d.value == ServerFailurePrefix + Decimal(e.withHTTPCode)
    ensures e.FailedToParse? ==> d.value == FailedToParsePrefix + e.body
  {
    match e
    case NoInternet => Some(NoInternetMessage)
    case NoData => Some(NoDataMessage)
    case ServerFailure(code) => Some(ServerFailurePrefix + Decimal(code))
    case FailedToParse(body) => Some(FailedToParsePrefix + body)
    case FailedToRefreshToken => Some(RefreshFailedMessage)
    case MaxAttemptsExceeded => Some(MaxAttemptsMessage)
    case Custom(message) => Some(message)
  }

  predicate PayloadFree(e: NetworkError) {
    e.NoInternet? || e.NoData? || e.FailedToRefreshToken? || e.MaxAttemptsExceeded?
  }

  /** The four payload-free cases have four pairwise-distinct fixed messages. */
  lemma PayloadFreeMessagesDistinct(e1: NetworkError, e2: NetworkError)
    requires PayloadFree(e1) && PayloadFree(e2)
    requires ErrorDescription(e1) == ErrorDescription(e2)
    ensures e1 == e2
  {
  }

  /** The description of a server failure determines its HTTP code. */
  lemma ServerFailureDescriptionDeterminesCode(c1: int, c2: int)
    requires ErrorDescription(ServerFailure(c1)) == ErrorDescription(ServerFailure(c2))
    ensures c1 == c2
  {
    var p := ServerFailurePrefix;
    var s1, s2 := p + Decimal(c1), p + Decimal(c2);
    assert s1[|p|..] == Decimal(c1);
    assert s2[|p|..] == Decimal(c2);
    DecimalInjective(c1, c2);
  }

  /** The errors the network manager itself raises; the other three cases are for callers. */
  predicate RaisedByManager(e: NetworkError) {
    e.NoData? || e.ServerFailure? || e.FailedToRefreshToken? || e.MaxAttemptsExceeded?
  }
}
