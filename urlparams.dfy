/** Query parameters (`URLSearchParams`, a `Record<string, string>` of search
    params) as a map from key to value. The order of keys in a serialised
    query string and repeated keys are not modelled. */
module UrlParams {

  import opened Wrappers

  type Params = map<string, string>

  /** `params.get(key)`: the value, or `null`. */
  function Get(p: Params, key: string): (r: Option<string>)
    ensures r.Some? <==> key in p
    ensures key in p ==> r.value == p[key]
  {
    if key in p then Some(p[key]) else None
  }

  /** `params.get(key)` is truthy: present and not the empty string. */
  predicate Has(p: Params, key: string) {
    key in p && p[key] != ""
  }

  /** A navigation target: a path and the query parameters after `?`. */
  datatype Location = Location(path: string, query: Params)
}
