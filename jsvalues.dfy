/** JavaScript values as the server and the page use them: a possibly
    missing string (`undefined`/`null` versus a string), its truthiness,
    and the short-circuit `a || b` on such values. */
module JsValues {

  /** `None` stands for `undefined` or `null`. */
  datatype Option<+T> = None | Some(value: T)
  {
    function GetOr(default: T): T
    {
      match this
      case Some(v) => v
      case None => default
    }
  }

  /** A string-or-missing value is truthy exactly when it is a non-empty string. */
  predicate Truthy(v: Option<string>)
  {
    v.Some? && v.value != ""
  }

  /** JavaScript `a || b`: `a` when it is truthy, otherwise `b` (even a falsy `b`). */
  function Or(a: Option<string>, b: Option<string>): (r: Option<string>)
    ensures Truthy(r) <==> Truthy(a) || Truthy(b)
    ensures Truthy(a) ==> r == a
    ensures !Truthy(a) ==> r == b
  {
    if Truthy(a) then a else b
  }

  /** The value of `xs[0] || xs[1] || ... || default` for a non-empty string default:
      the first truthy entry, or the default. */
  function FirstTruthy(xs: seq<Option<string>>, default: string): (r: string)
    requires default != ""
    ensures r != ""
    ensures (forall i :: 0 <= i < |xs| ==> !Truthy(xs[i])) ==> r == default
    ensures forall i :: 0 <= i < |xs| && Truthy(xs[i]) && (forall j :: 0 <= j < i ==> !Truthy(xs[j])) ==>
              r == xs[i].value
  {
    if xs == [] then default
    else if Truthy(xs[0]) then xs[0].value
    else FirstTruthy(xs[1..], default)
  }
}
