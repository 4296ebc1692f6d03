/** The header search box (components/service-header.tsx). `encode` stands
    for `encodeURIComponent`, which is not modelled. */
module ServiceHeader {

  import opened Wrappers
  import opened Text

  class SearchBox {
    var query: string

    /** `useState(initialQuery)`, with `initialQuery` defaulting to "". */
    constructor (initialQuery: Option<string>)
      ensures query == initialQuery.GetOr("")
    {
      query := initialQuery.GetOr("");
    }

    /** Typing replaces the query with the input's value. */
    method Change(value: string)
      modifies this
      ensures query == value
    {
      query := value;
    }

    /** `handleSearchSubmit`: the navigation target, or none when the trimmed
        query is empty. */
    method Submit(encode: string -> string) returns (nav: Option<string>)
      ensures nav.Some? <==> !AllWhitespace(query)
      ensures nav.Some? ==> nav.value == "/search?q=" + encode(Trim(query))
    {
      var t := Trim(query);
      TrimEmptyIff(query);
      if t != "" {
        nav := Some("/search?q=" + encode(t));
      } else {
        nav := None;
      }
    }
  }
}
