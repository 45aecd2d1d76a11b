/**
 * The route registry (`_routes`) and its preparation into the table the host
 * server is given: URL -> HTTP method -> wrapped route callback.
 */
module Server {
  import opened Types

  /**
   * The route table the host receives, for a wrapping function `wrap` that
   * stands for `wrapRouteCallback`: every registered (url, method) pair maps
   * to the wrapped options registered for it.
   */
  ghost function PreparedTable<W>(routes: map<string, Route>, wrap: RouteOptions -> W): map<string, map<string, W>>
  {
    map url | url in routes :: map httpMethod | httpMethod in routes[url] :: wrap(routes[url][httpMethod])
  }

  /**
   * `prepareRoute`: one wrapped callback per method of the route, and no
   * other method.
   */
  method PrepareRoute<W>(route: Route, wrap: RouteOptions -> W) returns (prepared: map<string, W>)
    ensures prepared.Keys == route.Keys
    ensures forall httpMethod :: httpMethod in route ==> prepared[httpMethod] == wrap(route[httpMethod])
  {
    prepared := map[];
    var remaining := route.Keys;
    while remaining != {}
      invariant remaining <= route.Keys
      invariant prepared.Keys == route.Keys - remaining
      invariant forall httpMethod :: httpMethod in prepared ==> prepared[httpMethod] == wrap(route[httpMethod])
      decreases remaining
    {
      var httpMethod :| httpMethod in remaining;
      prepared := prepared[httpMethod := wrap(route[httpMethod])];
      remaining := remaining - {httpMethod};
    }
  }

  /** The module-level `_routes` map: URL -> the route registered for it. */
  class RouteRegistry {
    var routes: map<string, Route>

    constructor ()
      ensures routes == map[]
    {
      routes := map[];
    }

    /**
     * `prepareRoutes`: one prepared route per registered URL. It only reads
     * the registry, so preparing twice with nothing registered in between
     * gives the same table.
     */
    method PrepareRoutes<W>(wrap: RouteOptions -> W) returns (prepared: map<string, map<string, W>>)
      ensures prepared.Keys == routes.Keys
      ensures forall url :: url in prepared ==> prepared[url].Keys == routes[url].Keys
      ensures forall url, httpMethod :: url in prepared && httpMethod in prepared[url] ==>
        prepared[url][httpMethod] == wrap(routes[url][httpMethod])
      ensures prepared == PreparedTable(routes, wrap)
    {
      prepared := map[];
      var remaining := routes.Keys;
      while remaining != {}
        invariant remaining <= routes.Keys
        invariant prepared.Keys == routes.Keys - remaining
        invariant forall url :: url in prepared ==> prepared[url] == PreparedTable(routes, wrap)[url]
        decreases remaining
      {
        var url :| url in remaining;
        var preparedRoute := PrepareRoute(routes[url], wrap);
        prepared := prepared[url := preparedRoute];
        remaining := remaining - {url};
      }
    }
  }

  /** An empty registry prepares to an empty table. */
  lemma EmptyRegistryPreparesEmpty<W>(wrap: RouteOptions -> W)
    ensures PreparedTable(map[], wrap) == map[]
  {
  }
}
