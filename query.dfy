/**
 * The query objects the filter forms hand to the router, and the URL query
 * the router hands back to the page.
 */
module Query {
  import opened Wrappers
  import opened Text

  /** A value in a query object: a string, a number, `null` or `undefined`. */
  datatype QueryValue = Str(s: string) | Number(n: nat) | Null | Undefined

  type QueryObject = map<string, QueryValue>

  /** The URL query as the page reads it back: every value a string. */
  type UrlQuery = map<string, string>

  /** A form field is truthy: defined and not the empty string. */
  predicate Filled(v: Option<string>) {
    v.Some? && v.value != ""
  }

  /** The string a filled field holds (the empty string for `undefined`). */
  function TextOf(v: Option<string>): string {
    if v.Some? then v.value else ""
  }

  /** `q[key]` is truthy in the URL query: present and not empty. */
  predicate Present(u: UrlQuery, key: string) {
    key in u && u[key] != ""
  }

  /** `...(guard && { key: v })`: the key is added only when the guard is truthy. */
  function AddIf(q: QueryObject, guard: bool, key: string, v: QueryValue): QueryObject
  {
    if guard then q[key := v] else q
  }

  /** `p?.replace(/\./g, '') ?? ''`: the price with its thousands dots removed. */
  function StrippedPrice(p: Option<string>): (r: string)
    ensures '.' !in r
    ensures p.None? ==> r == ""
    ensures p.Some? ==> |r| == |p.value| - Count(p.value, '.')
  {
    match p
    case None => ""
    case Some(v) => RemoveAllDeletes(v, '.'); RemoveAll(v, '.')
  }

  /** How a query value is written into the URL: `null` and `undefined` become empty. */
  function UrlValue(v: QueryValue): (s: string)
    ensures v.Str? ==> s == v.s
    ensures v.Number? ==> s != "" && AllDigits(s) && DigitsValue(s) == v.n
    ensures v.Null? || v.Undefined? ==> s == ""
  {
    match v
    case Str(s) => s
    case Number(n) => DecimalRoundTrip(n); DecimalString(n)
    case Null => ""
    case Undefined => ""
  }

  /** The URL query that navigating with query object `q` leaves behind. */
  function ToUrl(q: QueryObject): UrlQuery
  {
    map k | k in q :: UrlValue(q[k])
  }

  /** A key is truthy in the URL exactly when it was sent with a value that is not written as empty. */
  lemma PresentAfterUrl(q: QueryObject, key: string)
    ensures Present(ToUrl(q), key) <==> key in q && UrlValue(q[key]) != ""
    ensures Present(ToUrl(q), key) ==> ToUrl(q)[key] == UrlValue(q[key])
  {
  }
}
