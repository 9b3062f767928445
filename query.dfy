/**
 * A URL query string as the pages read and write it through `URLSearchParams`:
 * each parameter name maps to its value. Percent-encoding and parameter order
 * are not part of this model.
 */
module Query {
  import opened Wrappers
  import opened Decimal

  type Params = map<string, string>

  /** A value of a list request's parameters (`Record<string, any>`): a number or a string. */
  datatype ParamValue = Number(i: int) | Text(s: string)

  /** `searchParams.get(key)`: the value, or `null` when the key is absent. */
  function Get(q: Params, key: string): (r: Option<string>)
    ensures r.Some? <==> key in q
    ensures r.Some? ==> r.value == q[key]
  {
    if key in q then Some(q[key]) else None
  }

  /** `searchParams.get(key) || fallback`: absent and empty values both give the fallback. */
  function GetOr(q: Params, key: string, fallback: string): (r: string)
    ensures key in q && q[key] != "" ==> r == q[key]
    ensures !(key in q && q[key] != "") ==> r == fallback
  {
    match Get(q, key)
    case Some(v) => if v != "" then v else fallback
    case None => fallback
  }

  /** `Number(searchParams.get('page')) || 1`: a missing, empty, zero or unreadable page is page 1. */
  function PageParam(q: Params): (p: int)
    ensures p != 0
    ensures "page" !in q ==> p == 1
    ensures "page" in q && JsNumber(q["page"]) in {None, Some(0)} ==> p == 1
    ensures "page" in q && AllDigits(q["page"]) && DigitsValue(q["page"]) > 0 ==> p == DigitsValue(q["page"])
    ensures "page" in q && JsNumber(q["page"]).Some? && JsNumber(q["page"]).value != 0 ==> p == JsNumber(q["page"]).value
    ensures p == 1 || ("page" in q && JsNumber(q["page"]) == Some(p))
  {
    match JsNumber(Get(q, "page").GetOr(""))
    case Some(v) => if v != 0 then v else 1
    case None => 1
  }

  /** The `page` parameter both list pages write: `String(page)`, and only past page 1. */
  function PageEntry(page: int): (q: Params)
    ensures "page" in q <==> page > 1
    ensures q.Keys <= {"page"}
  {
    if page > 1 then map["page" := NatToString(page)] else map[]
  }

  /** Reading back the page parameter gives the page, for every page from 1 on, whatever else the query holds. */
  lemma PageParamRoundTrip(page: int, rest: Params)
    requires page >= 1 && "page" !in rest
    ensures PageParam(rest + PageEntry(page)) == page
  {
    if page > 1 {
      NumberOfString(page);
      assert Get(rest + PageEntry(page), "page") == Some(NatToString(page));
    }
  }
}
