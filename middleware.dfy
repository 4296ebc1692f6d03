/** The request middleware (middleware.ts): the old route `/categoria/<slug>`
    is redirected to `/categoria?categoria=<slug>`, keeping the query. */
module Middleware {

  import opened UrlParams
  import opened Text

  datatype Response = Next | Redirect(location: Location)

  const PREFIX := "/categoria/"

  /** The paths the middleware is configured for: `/categoria/:slug*`. */
  predicate MatcherApplies(pathname: string) {
    pathname == "/categoria" || StartsWith(pathname, PREFIX)
  }

  predicate Redirects(pathname: string) {
    StartsWith(pathname, PREFIX)
  }

  lemma SplitOldRoute(rest: string)
    ensures Split(PREFIX + rest, '/') == ["", "categoria"] + Split(rest, '/')
  {
    var tail := "/" + rest;
    var x := "categoria" + tail;
    assert PREFIX + rest == "/" + x;
    assert ("/" + x)[1..] == x;
    assert Split("/" + x, '/') == [""] + Split(x, '/');
    SplitPrefix("categoria", tail, '/');
    assert tail[1..] == rest;
    assert Split(tail, '/') == [""] + Split(rest, '/');
    assert "categoria" + Split(tail, '/')[0] == "categoria";
    assert Split(x, '/') == ["categoria"] + Split(rest, '/');
  }

  /** `middleware(request)`. */
  method Handle(pathname: string, query: Params) returns (resp: Response)
    ensures resp.Redirect? <==> Redirects(pathname)
    ensures resp.Redirect? ==> MatcherApplies(pathname)
    ensures resp.Redirect? ==>
              resp.location.path == "/categoria" &&
              "categoria" in resp.location.query &&
              resp.location.query == query["categoria" := resp.location.query["categoria"]]
    ensures resp.Redirect? ==>
              var slug := resp.location.query["categoria"];
              '/' !in slug && StartsWith(pathname[|PREFIX|..], slug) &&
              (|PREFIX| + |slug| == |pathname| || pathname[|PREFIX| + |slug|] == '/')
    ensures Redirects(pathname) && '/' !in pathname[|PREFIX|..] ==>
              resp.Redirect? && resp.location.query["categoria"] == pathname[|PREFIX|..]
  {
    if StartsWith(pathname, PREFIX) {
      var rest := pathname[|PREFIX|..];
      assert pathname == PREFIX + rest;
      SplitOldRoute(rest);
      SplitFirst(rest, '/');
      var categoria := Split(pathname, '/')[2];
      assert categoria == Split(rest, '/')[0];
      var searchParams := query;
      searchParams := searchParams["categoria" := categoria];
      resp := Redirect(Location("/categoria", searchParams));

    } else {
      resp := Next;
    }
  }

  /** The redirect target is not redirected again. */
  lemma TargetPassesThrough()
    ensures MatcherApplies("/categoria") && !Redirects("/categoria")
  {
  }
}
