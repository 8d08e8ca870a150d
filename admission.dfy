/** The validation prefix of `POST /api/convert` (server.js): the URL is
    checked first, then the bitrate is defaulted and range-checked. Nothing
    here probes a backend; a request is only handed on once both checks pass. */
module Admission {
  import opened JsValues
  import UrlPolicy

  /** The result of JavaScript `Number(bitrate)` on the request's bitrate
      field. The conversion itself is outside the model; its result is an input. */
  datatype NumberValue = NaN | Finite(value: real) | Infinite(negative: bool)

  /** NaN and zero are falsy; every other number is truthy. */
  predicate NumberTruthy(n: NumberValue)
  {
    match n
    case NaN => false
    case Finite(v) => v != 0.0
    case Infinite(_) => true
  }

  const DefaultBitrate: real := 320.0
  const MinBitrate: real := 64.0
  const MaxBitrate: real := 320.0

  const InvalidUrlError := "Invalid or missing YouTube URL."
  const BitrateError := "Bitrate must be between 64 and 320 kbps."

  /** `Number(bitrate) || 320`: a falsy number becomes the default 320. */
  function ResolveBitrate(n: NumberValue): (b: NumberValue)
    ensures NumberTruthy(b)
    ensures NumberTruthy(n) ==> b == n
    ensures !NumberTruthy(n) ==> b == Finite(DefaultBitrate)
  {
    if NumberTruthy(n) then n else Finite(DefaultBitrate)
  }

  /** JavaScript `n < x` for a number `n`: false for NaN. */
  predicate LessThan(n: NumberValue, x: real)
  {
    match n
    case NaN => false
    case Finite(v) => v < x
    case Infinite(negative) => negative
  }

  /** JavaScript `n > x` for a number `n`: false for NaN. */
  predicate GreaterThan(n: NumberValue, x: real)
  {
    match n
    case NaN => false
    case Finite(v) => v > x
    case Infinite(negative) => !negative
  }

  /** A resolved bitrate is in range: it is a finite number in [64, 320]. On the
      truthy values `Number(bitrate) || 320` yields, this is the negation of
      `targetBitrate < 64 || targetBitrate > 320`; an infinite value fails one
      of the two comparisons. */
  predicate InRange(b: NumberValue)
    ensures NumberTruthy(b) ==>
              (InRange(b) <==> !(LessThan(b, MinBitrate) || GreaterThan(b, MaxBitrate)))
    ensures b.Infinite? ==> !InRange(b)
  {
    b.Finite? && MinBitrate <= b.value <= MaxBitrate
  }

  datatype Admission =
    | Rejected(status: int, error: string)
    | Admitted(url: string, bitrate: real)

  /** The checks of `POST /api/convert` before any backend is involved.
      `url` is the body's `url` field (`None` when missing), `parsedHost` what
      the URL parser makes of it, `bitrate` the value of `Number(bitrate)`. */
  function Admit(url: Option<string>, parsedHost: Option<string>, bitrate: NumberValue): (a: Admission)
    ensures a.Admitted? <==>
              Truthy(url) && UrlPolicy.IsYouTubeUrl(parsedHost) && InRange(ResolveBitrate(bitrate))
    ensures !(Truthy(url) && UrlPolicy.IsYouTubeUrl(parsedHost)) ==> a == Rejected(400, InvalidUrlError)
    ensures Truthy(url) && UrlPolicy.IsYouTubeUrl(parsedHost) && !InRange(ResolveBitrate(bitrate)) ==>
              a == Rejected(400, BitrateError)
    ensures a.Admitted? ==>
              a.url == url.value && MinBitrate <= a.bitrate <= MaxBitrate &&
              ResolveBitrate(bitrate) == Finite(a.bitrate)
  {
    if !Truthy(url) || !UrlPolicy.IsYouTubeUrl(parsedHost) then
      Rejected(400, InvalidUrlError)
    else
      var b := ResolveBitrate(bitrate);
      if !InRange(b) then Rejected(400, BitrateError)
      else Admitted(url.value, b.value)
  }

  /** The URL is judged first: a bad URL gets the URL error whatever the bitrate. */
  lemma UrlCheckedBeforeBitrate(url: Option<string>, parsedHost: Option<string>, b1: NumberValue, b2: NumberValue)
    requires Admit(url, parsedHost, b1) == Rejected(400, InvalidUrlError)
    ensures Admit(url, parsedHost, b2) == Rejected(400, InvalidUrlError)
  {
  }

  /** A missing (NaN) or zero bitrate on a good URL is converted at 320 kbps. */
  lemma AbsentBitrateDefaults(url: string, parsedHost: Option<string>, bitrate: NumberValue)
    requires url != "" && UrlPolicy.IsYouTubeUrl(parsedHost)
    requires bitrate == NaN || bitrate == Finite(0.0)
    ensures Admit(Some(url), parsedHost, bitrate) == Admitted(url, 320.0)
  {
  }

  /** On a good URL, a bitrate that is a finite non-zero number is admitted
      exactly when it lies in [64, 320]; it is then used unchanged. */
  lemma ExplicitBitrateRange(url: string, parsedHost: Option<string>, v: real)
    requires url != "" && UrlPolicy.IsYouTubeUrl(parsedHost) && v != 0.0
    ensures Admit(Some(url), parsedHost, Finite(v)) ==
              if 64.0 <= v <= 320.0 then Admitted(url, v) else Rejected(400, BitrateError)
  {
  }
}
