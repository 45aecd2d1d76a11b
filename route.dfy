/** Route registration (`createRoute`). */
module Route {
  import opened Types
  import Server

  /**
   * The registry after registering `route`: its URL now holds exactly its
   * method, whatever was registered there before, and every other URL keeps
   * its route.
   */
  function WithRoute(routes: map<string, Route>, route: RouteOptions): (routes': map<string, Route>)
    ensures routes'.Keys == routes.Keys + {route.url}
    ensures routes'[route.url].Keys == {route.httpMethod}
    ensures routes'[route.url][route.httpMethod] == route
    ensures forall url :: url in routes && url != route.url ==> routes'[url] == routes[url]
  {
    routes[route.url := map[route.httpMethod := route]]
  }

  /** `createRoute(route)`: `_routes.set(route.url, { [route.method]: route })`. */
  method CreateRoute(registry: Server.RouteRegistry, route: RouteOptions)
    modifies registry
    ensures registry.routes == WithRoute(old(registry.routes), route)
  {
    registry.routes := registry.routes[route.url := map[route.httpMethod := route]];
  }

  /** Registering the same route twice is registering it once. */
  lemma WithRouteIdempotent(routes: map<string, Route>, route: RouteOptions)
    ensures WithRoute(WithRoute(routes, route), route) == WithRoute(routes, route)
  {
  }

  /**
   * Registering a second method for a URL drops the first: only the later
   * registration is prepared for that URL.
   */
  lemma SecondMethodReplacesFirst<W>(routes: map<string, Route>, first: RouteOptions, second: RouteOptions,
                                     wrap: RouteOptions -> W)
    requires first.url == second.url && first.httpMethod != second.httpMethod
    ensures var table := Server.PreparedTable(WithRoute(WithRoute(routes, first), second), wrap);
      table[second.url] == map[second.httpMethod := wrap(second)] && first.httpMethod !in table[first.url]
  {
  }
}
