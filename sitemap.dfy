/** Sitemap generation (generate-seo-files.ts): page files become routes,
    dynamic routes are expanded by resolvers, the route list is
    de-duplicated, and each route becomes a sitemap entry. The directory walk,
    the database queries behind the resolvers, today's date and the file
    writes are not modelled: the page files and the resolvers' answers are
    parameters. Paths use "/" as separator. */
module Sitemap {

  import opened Wrappers
  import opened Text
  import Seqs

  /** `/^page\.(js|jsx|ts|tsx)$/`: the file names that define a page. */
  predicate IsPageFile(name: string) {
    name == "page.js" || name == "page.jsx" || name == "page.ts" || name == "page.tsx"
  }

  /** `/^\(.*\)$/`: a route-group folder such as "(Home)"; `.` matches any
      character but a line terminator. */
  predicate IsRouteGroup(segment: string) {
    |segment| >= 2 && segment[0] == '(' && segment[|segment| - 1] == ')' &&
    forall k :: 0 < k < |segment| - 1 ==> !IsLineTerminator(segment[k])
  }

  predicate KeepSegment(segment: string) {
    !IsRouteGroup(segment)
  }

  /** The folders that make up the route: route groups removed, then one
      trailing "index" removed. */
  function Kept(dirs: seq<string>): seq<string> {
    var f := Seqs.Filter(KeepSegment, dirs);
    if |f| > 0 && f[|f| - 1] == "index" then f[..|f| - 1] else f
  }

  /** The route of a page file given by its path relative to the app directory. */
  function Route(relativePath: string): string {
    var segments := Split(relativePath, '/');
    "/" + Join(Kept(segments[..|segments| - 1]), "/")
  }

  /** `getRouteFromFile`: split, pop the file name, drop route groups, pop a
      trailing "index", join. */
  method RouteFromFile(relativePath: string) returns (route: string)
    ensures route == Route(relativePath)
    ensures |route| >= 1 && route[0] == '/'
  {
    var segments := Split(relativePath, '/');
    segments := segments[..|segments| - 1];
    var filtered := Seqs.Filter(KeepSegment, segments);
    if |filtered| > 0 && filtered[|filtered| - 1] == "index" {
      filtered := filtered[..|filtered| - 1];
    }
    assert filtered == Kept(segments);
    route := "/" + Join(filtered, "/");
    assert route[0] == '/';
  }

  /** For a page `dirs/file`, the route is "/" followed by the kept folders joined
      by "/": the file name is always dropped. */
  lemma RouteOfSegments(dirs: seq<string>, file: string)
    requires forall i :: 0 <= i < |dirs| ==> '/' !in dirs[i]
    requires '/' !in file
    ensures Route(Join(dirs + [file], "/")) == "/" + Join(Kept(dirs), "/")
  {
    var all := dirs + [file];
    forall i | 0 <= i < |all| ensures '/' !in all[i] {
      if i < |dirs| {
        assert all[i] == dirs[i];
      }
    }
    SplitJoin(all, '/');
    var segments := Split(Join(all, "/"), '/');
    assert segments == all;
    assert segments[..|segments| - 1] == dirs;
  }

  /** Route groups do not affect the route, and the other folders keep their
      order. */
  lemma RouteGroupIgnored(a: seq<string>, g: string, b: seq<string>)
    requires IsRouteGroup(g)
    ensures Kept(a + [g] + b) == Kept(a + b)
  {
    var fa, fb := Seqs.Filter(KeepSegment, a), Seqs.Filter(KeepSegment, b);
    Seqs.FilterConcat(KeepSegment, a + [g], b);
    Seqs.FilterConcat(KeepSegment, a, [g]);
    Seqs.FilterConcat(KeepSegment, a, b);
    assert Seqs.Filter(KeepSegment, [g]) == [];
    assert Seqs.Filter(KeepSegment, a + [g]) == fa;
    assert Seqs.Filter(KeepSegment, a + [g] + b) == fa + fb == Seqs.Filter(KeepSegment, a + b);
  }

  /** Only one trailing "index" is removed; a folder list without one is
      kept whole. */
  lemma KeptIndex(dirs: seq<string>)
    requires forall i :: 0 <= i < |dirs| ==> KeepSegment(dirs[i])
    ensures |dirs| > 0 && dirs[|dirs| - 1] == "index" ==> Kept(dirs) == dirs[..|dirs| - 1]
    ensures !(|dirs| > 0 && dirs[|dirs| - 1] == "index") ==> Kept(dirs) == dirs
  {
    Seqs.FilterAll(KeepSegment, dirs);
  }

  /** A page directly under the app directory, or under route groups only, is "/". */
  lemma TopLevelPage(groups: seq<string>)
    requires forall i :: 0 <= i < |groups| ==> IsRouteGroup(groups[i])
    ensures Kept(groups) == []
  {
    Seqs.FilterNone(KeepSegment, groups);
  }

  /** `/\[.+?\]/` matches starting at `i` and closing at `j`. */
  ghost predicate BracketAt(route: string, i: int, j: int) {
    0 <= i && i + 1 < j < |route| && route[i] == '[' && route[j] == ']' &&
    forall k :: i < k < j ==> !IsLineTerminator(route[k])
  }

  /** A "]" somewhere in `u`, with no line terminator before it. */
  function CloseIn(u: string): (r: bool)
    ensures r <==> exists j :: 0 <= j < |u| && u[j] == ']' && forall k :: 0 <= k < j ==> !IsLineTerminator(u[k])
  {
    if u == [] then false
    else if u[0] == ']' then true
    else if IsLineTerminator(u[0]) then
      false
    else
      var r := CloseIn(u[1..]);
      assert forall j :: 0 <= j < |u| - 1 ==> u[1..][j] == u[j + 1];
      assert r ==> exists j :: 0 <= j < |u| && u[j] == ']' && forall k :: 0 <= k < j ==> !IsLineTerminator(u[k]) by {
        if r {
          var j :| 0 <= j < |u| - 1 && u[1..][j] == ']' && forall k :: 0 <= k < j ==> !IsLineTerminator(u[1..][k]);
          assert forall k :: 0 <= k < j + 1 ==> !IsLineTerminator(u[k]) by {
            forall k | 0 <= k < j + 1 ensures !IsLineTerminator(u[k]) {
              if k > 0 { assert u[k] == u[1..][k - 1]; }
            }
          }
          assert u[j + 1] == ']';
        }
      }
      assert (exists j :: 0 <= j < |u| && u[j] == ']' && forall k :: 0 <= k < j ==> !IsLineTerminator(u[k])) ==> r by {
        if exists j :: 0 <= j < |u| && u[j] == ']' && forall k :: 0 <= k < j ==> !IsLineTerminator(u[k]) {
          var j :| 0 <= j < |u| && u[j] == ']' && forall k :: 0 <= k < j ==> !IsLineTerminator(u[k]);
          assert j >= 1;
          assert u[1..][j - 1] == ']';
          assert forall k :: 0 <= k < j - 1 ==> !IsLineTerminator(u[1..][k]) by {
            forall k | 0 <= k < j - 1 ensures !IsLineTerminator(u[1..][k]) {
              assert u[1..][k] == u[k + 1];
            }
          }
        }
      }
      r
  }

  /** An opening bracket at the start of `t`, one character that is not a line
      terminator, then a closing bracket. */
  predicate OpensAt(t: string) {
    |t| >= 3 && t[0] == '[' && !IsLineTerminator(t[1]) && CloseIn(t[2..])
  }

  /** `isDynamicRoute`. */
  function IsDynamicRoute(route: string): bool {
    if route == [] then false else OpensAt(route) || IsDynamicRoute(route[1..])
  }

  lemma {:induction false} OpensAtSpec(route: string, i: nat)
    requires i < |route|
    ensures OpensAt(route[i..]) <==> exists j :: BracketAt(route, i, j)
  {
    var t := route[i..];
    if OpensAt(t) {
      var u := t[2..];
      var j :| 0 <= j < |u| && u[j] == ']' && forall k :: 0 <= k < j ==> !IsLineTerminator(u[k]);
      assert u[j] == route[i + 2 + j];
      forall k | i < k < i + 2 + j ensures !IsLineTerminator(route[k]) {
        if k == i + 1 { assert route[k] == t[1]; } else { assert route[k] == u[k - i - 2]; }
      }
      assert BracketAt(route, i, i + 2 + j);
    }
    if exists j :: BracketAt(route, i, j) {
      var j :| BracketAt(route, i, j);
      var u := t[2..];
      assert u[j - i - 2] == route[j];
      assert t[1] == route[i + 1];
      forall k | 0 <= k < j - i - 2 ensures !IsLineTerminator(u[k]) {
        assert u[k] == route[i + 2 + k];
      }
      assert CloseIn(u);
    }
  }

  /** The route is dynamic exactly when "[" is followed, on the same line, by
      at least one character and then "]". */
  lemma {:induction false} IsDynamicRouteSpec(route: string)
    ensures IsDynamicRoute(route) <==> exists i, j :: BracketAt(route, i, j)
    decreases |route|
  {
    if route != [] {
      OpensAtSpec(route, 0);
      assert route[0..] == route;
      IsDynamicRouteSpec(route[1..]);
      if exists i, j :: BracketAt(route[1..], i, j) {
        var i, j :| BracketAt(route[1..], i, j);
        assert BracketAt(route, i + 1, j + 1) by {
          forall k | i + 1 < k < j + 1 ensures !IsLineTerminator(route[k]) {
            assert route[k] == route[1..][k - 1];
          }
        }
      }
      if exists i, j :: BracketAt(route, i, j) {
        var i, j :| BracketAt(route, i, j);
        if i > 0 {
          assert BracketAt(route[1..], i - 1, j - 1) by {
            forall k | i - 1 < k < j - 1 ensures !IsLineTerminator(route[1..][k]) {
              assert route[1..][k] == route[k + 1];
            }
          }
        }
      }
    }
  }

  /** The routes one discovered route contributes: itself when static, the
      resolver's list when dynamic and resolvable, nothing otherwise. */
  function ExpandOne(route: string, resolvers: map<string, seq<string>>): seq<string> {
    if !IsDynamicRoute(route) then [route]
    else if route in resolvers then resolvers[route]
    else []
  }

  function Expand(routes: seq<string>, resolvers: map<string, seq<string>>): seq<string> {
    if routes == [] then [] else Expand(routes[..|routes| - 1], resolvers) + ExpandOne(routes[|routes| - 1], resolvers)
  }

  /** `expandDynamicRoutes`, with each resolver's answer given. */
  method ExpandDynamicRoutes(routes: seq<string>, resolvers: map<string, seq<string>>) returns (expanded: seq<string>)
    ensures expanded == Expand(routes, resolvers)
  {
    expanded := [];
    var i := 0;
    while i < |routes|
      invariant 0 <= i <= |routes|
      invariant expanded == Expand(routes[..i], resolvers)
    {
      assert routes[..i + 1][..i] == routes[..i];
      var route := routes[i];
      if IsDynamicRoute(route) {
        if route in resolvers {
          expanded := expanded + resolvers[route];
        }
      } else {
        expanded := expanded + [route];
      }
      i := i + 1;
    }
    assert routes[..|routes|] == routes;
  }

  lemma {:induction false} ExpandConcat(a: seq<string>, b: seq<string>, resolvers: map<string, seq<string>>)
    ensures Expand(a + b, resolvers) == Expand(a, resolvers) + Expand(b, resolvers)
    decreases |b|
  {
    if b == [] {
      assert a + b == a;
    } else {
      assert (a + b)[..|a + b| - 1] == a + b[..|b| - 1];
      ExpandConcat(a, b[..|b| - 1], resolvers);
    }
  }

  /** Expansion works route by route and in order: static routes stay, a
      resolvable dynamic route is replaced by its list, any other dynamic
      route is dropped. */
  lemma ExpandSpec(routes: seq<string>, route: string, rest: seq<string>, resolvers: map<string, seq<string>>)
    ensures Expand([route] + rest, resolvers) == ExpandOne(route, resolvers) + Expand(rest, resolvers)
    ensures !IsDynamicRoute(route) ==> Expand([route] + rest, resolvers) == [route] + Expand(rest, resolvers)
    ensures IsDynamicRoute(route) && route !in resolvers ==> Expand([route] + rest, resolvers) == Expand(rest, resolvers)
  {
    ExpandConcat([route], rest, resolvers);
    assert Expand([route], resolvers) == ExpandOne(route, resolvers) by {
      assert [route][..0] == [];
    }
  }

  lemma {:induction false} ExpandStatic(routes: seq<string>, resolvers: map<string, seq<string>>)
    requires forall i :: 0 <= i < |routes| ==> !IsDynamicRoute(routes[i])
    ensures Expand(routes, resolvers) == routes
  {
    if routes != [] {
      ExpandStatic(routes[..|routes| - 1], resolvers);
      assert routes[..|routes| - 1] + [routes[|routes| - 1]] == routes;
    }
  }

  /** `Array.from(new Set([...expanded, ...(additionalPaths || [])]))`. */
  function AllRoutes(expanded: seq<string>, additionalPaths: Option<seq<string>>): seq<string> {
    Seqs.Dedup(expanded + additionalPaths.GetOr([]))
  }

  /** Every route once, the discovered ones first in their order, then the
      additional paths not discovered. */
  lemma AllRoutesSpec(expanded: seq<string>, additionalPaths: Option<seq<string>>)
    ensures forall x :: x in AllRoutes(expanded, additionalPaths) <==> x in expanded || x in additionalPaths.GetOr([])
    ensures forall i, j :: 0 <= i < j < |AllRoutes(expanded, additionalPaths)| ==>
              AllRoutes(expanded, additionalPaths)[i] != AllRoutes(expanded, additionalPaths)[j]
    ensures Seqs.Dedup(expanded) <= AllRoutes(expanded, additionalPaths)
    ensures var all := expanded + additionalPaths.GetOr([]);
            AllRoutes(expanded, additionalPaths) == Seqs.Firsts(x => Some(x), {}, all, |all|) &&
            forall i :: 0 <= i < |all| ==> (Seqs.IsFirst(x => Some(x), {}, all, i) <==> forall j :: 0 <= j < i ==> all[j] != all[i])
  {
    Seqs.DedupSpec(expanded + additionalPaths.GetOr([]));
    Seqs.DedupConcat(expanded, additionalPaths.GetOr([]));
  }

  /** One `<url>` entry; `lastmod` is left out. */
  datatype Entry = Entry(loc: string, changefreq: string, priority: real)

  function EntryOf(baseUrl: string, url: string, priorityMap: Option<map<string, real>>, changefreq: Option<map<string, string>>): (e: Entry)
    ensures url == "/" ==> e.loc == baseUrl
    ensures url != "/" ==> e.loc == baseUrl + url
    ensures e.priority == if priorityMap.Some? && url in priorityMap.value then priorityMap.value[url] else 0.5
    ensures e.changefreq == if changefreq.Some? && url in changefreq.value then changefreq.value[url] else "monthly"
  {
    Entry(
      baseUrl + (if url == "/" then "" else url),
      if changefreq.Some? && url in changefreq.value then changefreq.value[url] else "monthly",
      if priorityMap.Some? && url in priorityMap.value then priorityMap.value[url] else 0.5)
  }

  datatype Config = Config(
    baseUrl: string,
    appDirectory: string,
    publicDirectory: string,
    sitemapPath: string,
    robotsTxtPath: string,
    priorityMap: Option<map<string, real>>,
    changefreq: Option<map<string, string>>,
    additionalPaths: Option<seq<string>>)

  /** A `Partial<SitemapConfig>`: each field given or not. */
  datatype PartialConfig = PartialConfig(
    baseUrl: Option<string>,
    appDirectory: Option<string>,
    publicDirectory: Option<string>,
    sitemapPath: Option<string>,
    robotsTxtPath: Option<string>,
    priorityMap: Option<map<string, real>>,
    changefreq: Option<map<string, string>>,
    additionalPaths: Option<seq<string>>)

  const DefaultConfig := Config(
    "https://urulico.com", "app", "public", "sitemap.xml", "robots.txt",
    Some(map["/" := 1.0, "/publicar" := 0.8, "/search" := 0.7]),
    Some(map["/" := "daily", "/publicar" := "weekly"]),
    Some([]))

  function Pick<T>(given: Option<T>, fallback: T): T {
    if given.Some? then given.value else fallback
  }

  function PickOption<T>(given: Option<T>, fallback: Option<T>): Option<T> {
    if given.Some? then given else fallback
  }

  /** `{ ...defaultConfig, ...config }`. */
  function Resolve(c: PartialConfig): (r: Config)
    ensures c.baseUrl.Some? ==> r.baseUrl == c.baseUrl.value
    ensures c.baseUrl.None? ==> r.baseUrl == DefaultConfig.baseUrl
    ensures c.priorityMap.Some? ==> r.priorityMap == c.priorityMap
    ensures c.priorityMap.None? ==> r.priorityMap == DefaultConfig.priorityMap
    ensures c.appDirectory.Some? ==> r.appDirectory == c.appDirectory.value
    ensures c.appDirectory.None? ==> r.appDirectory == DefaultConfig.appDirectory
    ensures c.publicDirectory.Some? ==> r.publicDirectory == c.publicDirectory.value
    ensures c.publicDirectory.None? ==> r.publicDirectory == DefaultConfig.publicDirectory
    ensures c.sitemapPath.Some? ==> r.sitemapPath == c.sitemapPath.value
    ensures c.sitemapPath.None? ==> r.sitemapPath == DefaultConfig.sitemapPath
    ensures c.robotsTxtPath.Some? ==> r.robotsTxtPath == c.robotsTxtPath.value
    ensures c.robotsTxtPath.None? ==> r.robotsTxtPath == DefaultConfig.robotsTxtPath
    ensures c.changefreq.Some? ==> r.changefreq == c.changefreq
    ensures c.changefreq.None? ==> r.changefreq == DefaultConfig.changefreq
    ensures c.additionalPaths.Some? ==> r.additionalPaths == c.additionalPaths
    ensures c.additionalPaths.None? ==> r.additionalPaths == DefaultConfig.additionalPaths
    ensures c == PartialConfig(None, None, None, None, None, None, None, None) ==> r == DefaultConfig
  {
    Config(
      Pick(c.baseUrl, DefaultConfig.baseUrl),
      Pick(c.appDirectory, DefaultConfig.appDirectory),
      Pick(c.publicDirectory, DefaultConfig.publicDirectory),
      Pick(c.sitemapPath, DefaultConfig.sitemapPath),
      Pick(c.robotsTxtPath, DefaultConfig.robotsTxtPath),
      PickOption(c.priorityMap, DefaultConfig.priorityMap),
      PickOption(c.changefreq, DefaultConfig.changefreq),
      PickOption(c.additionalPaths, DefaultConfig.additionalPaths))
  }

  /** The sitemap entries for the page files found (paths relative to the app
      directory) and the resolvers' answers. */
  function Sitemap(c: PartialConfig, pageFiles: seq<string>, resolvers: map<string, seq<string>>): seq<Entry> {
    var config := Resolve(c);
    var routes := seq(|pageFiles|, i requires 0 <= i < |pageFiles| => Route(pageFiles[i]));
    var all := AllRoutes(Expand(routes, resolvers), config.additionalPaths);
    seq(|all|, i requires 0 <= i < |all| => EntryOf(config.baseUrl, all[i], config.priorityMap, config.changefreq))
  }

  /** Under the default configuration the home page is the base URL with
      priority 1 and changes daily; a route missing from both tables gets 0.5
      and monthly. */
  lemma DefaultEntries(url: string)
    ensures EntryOf(DefaultConfig.baseUrl, "/", DefaultConfig.priorityMap, DefaultConfig.changefreq) ==
              Entry("https://urulico.com", "daily", 1.0)
    ensures url !in {"/", "/publicar", "/search"} ==>
              EntryOf(DefaultConfig.baseUrl, url, DefaultConfig.priorityMap, DefaultConfig.changefreq) ==
                Entry("https://urulico.com" + url, "monthly", 0.5)
  {
  }

  lemma {:induction false} ExpandKeepsStatic(routes: seq<string>, k: nat, resolvers: map<string, seq<string>>)
    requires k < |routes| && !IsDynamicRoute(routes[k])
    ensures routes[k] in Expand(routes, resolvers)
  {
    var init := routes[..|routes| - 1];
    if k < |routes| - 1 {
      assert init[k] == routes[k];
      ExpandKeepsStatic(init, k, resolvers);
    }
  }

  /** Every page whose route is static has its entry in the sitemap. */
  lemma SitemapListsStaticPages(c: PartialConfig, pageFiles: seq<string>, resolvers: map<string, seq<string>>, k: nat)
    requires k < |pageFiles| && !IsDynamicRoute(Route(pageFiles[k]))
    ensures exists i :: 0 <= i < |Sitemap(c, pageFiles, resolvers)| &&
              Sitemap(c, pageFiles, resolvers)[i] ==
                EntryOf(Resolve(c).baseUrl, Route(pageFiles[k]), Resolve(c).priorityMap, Resolve(c).changefreq)
  {
    var config := Resolve(c);
    var routes := seq(|pageFiles|, i requires 0 <= i < |pageFiles| => Route(pageFiles[i]));
    var expanded := Expand(routes, resolvers);
    var all := AllRoutes(expanded, config.additionalPaths);
    ExpandKeepsStatic(routes, k, resolvers);
    AllRoutesSpec(expanded, config.additionalPaths);
    var i :| 0 <= i < |all| && all[i] == Route(pageFiles[k]);
    assert Sitemap(c, pageFiles, resolvers)[i] == EntryOf(config.baseUrl, all[i], config.priorityMap, config.changefreq);
  }

  /** The robots.txt text. */
  function RobotsTxt(baseUrl: string, sitemapPath: string): string {
    "User-agent: *\nAllow: /\n\nSitemap: " + baseUrl + "/" + sitemapPath
  }
}
