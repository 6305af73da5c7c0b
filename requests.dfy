/**
 * What the views read from a request and what kind of response they give.
 * HTTP bodies are not modelled; the status says which branch a view took.
 */
module Requests {

  import opened Wrappers

  /** The response statuses the views return (404 from a failed lookup, 500 from an uncaught or caught exception). */
  datatype Status = Ok | Created | BadRequest | NotFound | ServerError

  /**
   * An integer request field: absent, present as JSON `null`, present but not
   * something `int` accepts, or a value `int` turns into `n`.
   */
  datatype IntParam = Absent | Null | NotAnInt | Given(n: int)

  /**
   * `int(request.data.get('quantity', 1))`: an absent field reads as 1; a
   * `null` field is `None`, and `int(None)` raises, as does `int` of a value
   * that is not an integer; a raise is `None` here.
   */
  function QuantityOrOne(p: IntParam): (r: Option<int>)
    ensures p.Absent? ==> r == Some(1)
    ensures p.Null? || p.NotAnInt? <==> r.None?
    ensures p.Given? ==> r == Some(p.n)
  {
    match p
    case Absent => Some(1)
    case Null => None
    case NotAnInt => None
    case Given(n) => Some(n)
  }
}
