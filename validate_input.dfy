/** The two Joi schemas of the input validator: a product id must match
    `^[A-Z0-9]{10}$` (case-sensitive) and a search query must be a string of
    1 to 200 characters. A missing value fails both (`required()`). */
module ValidateInput {
  import opened JsonValues

  predicate IsUpperOrDigit(c: char) {
    'A' <= c <= 'Z' || '0' <= c <= '9'
  }

  /** validateProductId reports no error. */
  predicate ValidProductId(id: Option<string>) {
    id.Some? && |id.value| == 10 && forall i :: 0 <= i < |id.value| ==> IsUpperOrDigit(id.value[i])
  }

  /** The first Joi error for a search query, in the order Joi checks them. */
  datatype QueryError = Required | Empty | TooLong

  /** validateSearchQuery: None when the query is accepted, else the error Joi reports. */
  function ValidateSearchQuery(q: Option<string>): (r: Option<QueryError>)
    ensures r.None? <==> q.Some? && 1 <= |q.value| <= 200
    ensures r == Some(Required) <==> q.None?
    ensures r == Some(TooLong) <==> q.Some? && |q.value| > 200
  {
    if q.None? then Some(Required)
    else if q.value == "" then Some(Empty)
    else if |q.value| > 200 then Some(TooLong)
    else None
  }

  /** `error.details[0].message` for each error (Joi's default label is "value"). */
  function QueryErrorMessage(e: QueryError): string {
    match e
    case Required => "\"value\" is required"
    case Empty => "\"value\" is not allowed to be empty"
    case TooLong => "\"value\" length must be less than or equal to 200 characters long"
  }
}
