/**
  Restart: `buildInitialRoutes` (internal/cli/cli.go:256-323) reads the routes back from the running rows,
  and `SeedRoutes` (internal/router/router.go:358-366) installs them.
*/
module Restart {
  import opened Prelude
  import opened Schedule
  import opened Model
  import opened Transitions
  import opened Runs
  import opened Safety
  import Store
  import Router
  import Fleet

  /** The route a row is read back as; a row without a snapshot or a domain has none. */
  function RouteOf(row: Deployment): Option<Route> {
    if row.spec.None? || row.spec.value.domain == "" then None
    else Some(RouteTo(row.spec.value.domain, row.replicas))
  }

  function AppRoute(rows: seq<Deployment>, app: string): Option<Route> {
    match Current(rows, app)
    case None => None
    case Some(cur) => RouteOf(cur)
  }

  function Gathered(rows: seq<Deployment>, apps: seq<string>): map<string, Route> {
    if apps == [] then map[]
    else
      var routes := Gathered(rows, apps[..|apps| - 1]);
      match AppRoute(rows, apps[|apps| - 1])
      case None => routes
      case Some(route) => routes[route.domain := route]
  }

  /**
    `buildInitialRoutes`.  It gives up if the local containers cannot be listed.  Every row of the model
    carries its replicas, so none of the listed containers is looked at.
  */
  method BuildInitialRoutes(s: Store.Store, fleet: Fleet.Fleet) returns (list: Option<seq<Route>>)
    ensures list.Some? ==> Router.Keyed(list.value) == Gathered(s.rows, Store.AppsOf(s.rows))
  {
    hide Current, RouteTo;
    var listed := fleet.Attempt();
    if !listed {
      return None;
    }
    var apps := s.ListApps();
    var routes: map<string, Route> := map[];
    for i := 0 to |apps|
      invariant routes == Gathered(s.rows, apps[..i]) && forall d | d in routes :: routes[d].domain == d
    {
      assert apps[..i + 1][..i] == apps[..i];
      var cur := s.CurrentDeployment(apps[i]);
      if cur.Some? && cur.value.spec.Some? && cur.value.spec.value.domain != "" {
        var domain := cur.value.spec.value.domain;
        RouteKeepsDomain(domain, cur.value.replicas);
        routes := routes[domain := RouteTo(domain, cur.value.replicas)];
      }
    }
    assert apps[..|apps|] == apps;
    var all := Values(routes);
    list := Some(all);
  }

  lemma RouteKeepsDomain(domain: string, replicas: seq<Replica>)
    ensures RouteTo(domain, replicas).domain == domain
  {
  }

  lemma OneLessLeft(routes: map<string, Route>, left: set<string>, d: string)
    requires left <= routes.Keys && d in left
    ensures (routes - left)[d := routes[d]] == routes - (left - {d})
  {
  }

  lemma KeyedNext(list: seq<Route>, r: Route)
    ensures Router.Keyed(list + [r]) == Router.Keyed(list)[r.domain := r]
  {
    assert (list + [r])[..|list|] == list;
  }

  /** The routes of the map, in whatever order it yields them. */
  method Values(routes: map<string, Route>) returns (list: seq<Route>)
    requires forall d | d in routes :: routes[d].domain == d
    ensures Router.Keyed(list) == routes
  {
    list := [];
    var left := routes.Keys;
    assert routes - left == map[];
    while left != {}
      invariant left <= routes.Keys && Router.Keyed(list) == routes - left
      decreases |left|
    {
      var d :| d in left;
      KeyedNext(list, routes[d]);
      OneLessLeft(routes, left, d);
      list := list + [routes[d]];
      left := left - {d};
    }
    assert routes - {} == routes;
  }

  /** The restarted daemon's router, seeded before Caddy is asked anything; a failed listing seeds nothing. */
  method Reseed(s: Store.Store, fleet: Fleet.Fleet, router: Router.CaddyRouter) returns (seeded: bool)
    modifies router`routes
    ensures router.routes == if seeded then Gathered(s.rows, Store.AppsOf(s.rows)) else old(router.routes)
  {
    var list := BuildInitialRoutes(s, fleet);
    seeded := list.Some?;
    if seeded {
      router.SeedRoutes(list.value);
    }
  }

  // ---------------------------------------------------------------- what a restart rebuilds

  /** Every routed domain is a running row's, and has a name. */
  ghost predicate NoStray(w: World) {
    forall d | d in w.routes :: d != "" && exists i :: 0 <= i < |w.rows| && Serves(w.rows[i], d)
  }

  predicate Serves(row: Deployment, domain: string) {
    row.status == Running && row.spec.Some? && row.spec.value.domain == domain
  }

  lemma {:induction false} GatheredRoutes(w: World, owner: string -> string, apps: seq<string>)
    requires Inv(w, owner)
    ensures forall d :: d in Gathered(w.rows, apps) <==>
      d != "" && exists i :: 0 <= i < |w.rows| && Serves(w.rows[i], d) && w.rows[i].app in apps
    ensures forall d | d in Gathered(w.rows, apps) :: d in w.routes && w.routes[d] == Gathered(w.rows, apps)[d]
  {
    hide Inv, Current, RouteTo;
    if apps != [] {
      var front, last := apps[..|apps| - 1], apps[|apps| - 1];
      GatheredRoutes(w, owner, front);
      AppRouteIs(w, owner, last);
      assert apps == front + [last];
      forall d ensures d in Gathered(w.rows, apps) <==>
        d != "" && exists i :: 0 <= i < |w.rows| && Serves(w.rows[i], d) && w.rows[i].app in apps
      {
        assert d in Gathered(w.rows, apps) <==> d in Gathered(w.rows, front) || ReadsBack(AppRoute(w.rows, last), d);
        if i :| 0 <= i < |w.rows| && Serves(w.rows[i], d) && w.rows[i].app in apps {
          assert w.rows[i].app in front || w.rows[i].app == last;
        }
      }
    }
  }

  predicate ReadsBack(route: Option<Route>, domain: string) {
    route.Some? && route.value.domain == domain
  }

  /** The route read back for one app is the committed one, and there is one exactly if a named domain is served. */
  lemma AppRouteIs(w: World, owner: string -> string, app: string)
    requires Inv(w, owner)
    ensures forall d :: ReadsBack(AppRoute(w.rows, app), d) <==>
      d != "" && exists i :: 0 <= i < |w.rows| && Serves(w.rows[i], d) && w.rows[i].app == app
    ensures var route := AppRoute(w.rows, app);
      route.Some? ==> route.value.domain in w.routes && w.routes[route.value.domain] == route.value
  {
    hide TableOk, RowsOk, ContainersOk, Mirrored, ValidSpec, LatestAt, UseInternalTLS, Upstreams;
    forall i | 0 <= i < |w.rows| && w.rows[i].status == Running && w.rows[i].app == app
      ensures Current(w.rows, app) == Some(w.rows[i])
    {
      RunningIsCurrent(w, owner, i);
    }
    if Current(w.rows, app).Some? {
      CurrentIsLive(w, owner, app);
      var cur := Current(w.rows, app).value;
      assert cur.spec.Some? && Serves(w.rows[cur.id - 1], cur.spec.value.domain);
    }
  }

  /**
    A restart rebuilds exactly the committed route map, remote upstreams included, if and only if there is
    no stray: a domain that is routed but that no running row serves any more, or an empty one.
  */
  lemma RestartRebuilds(w: World, owner: string -> string)
    requires Inv(w, owner)
    ensures Gathered(w.rows, Store.AppsOf(w.rows)) == w.routes <==> NoStray(w)
  {
    hide Inv, Gathered, Serves;
    GatheredRoutes(w, owner, Store.AppsOf(w.rows));
    Store.AppsOfLists(w.rows);
    var g := Gathered(w.rows, Store.AppsOf(w.rows));
    if NoStray(w) {
      forall d | d in w.routes ensures d in g {
        var i :| 0 <= i < |w.rows| && Serves(w.rows[i], d);
        assert w.rows[i].app in Store.AppsOf(w.rows);
      }
      assert g.Keys == w.routes.Keys;
    }
  }

  // ---------------------------------------------------------------- when there is no stray

  /** Each app keeps one named domain, and a removal of a running app gets its route dropped. */
  ghost predicate Tidy(w: World, e: Event, domainOf: string -> string) {
    && (e.Deploy? ==> e.app.domain == domainOf(e.app.name) != "")
    && (e.Remove? && Current(w.rows, e.name).Some? ==> e.dropped)
  }

  ghost predicate Settled(w: World, domainOf: string -> string) {
    && NoStray(w)
    && forall i | 0 <= i < |w.rows| && w.rows[i].status == Running ::
         w.rows[i].spec.Some? && w.rows[i].spec.value.domain == domainOf(w.rows[i].app) != ""
  }

  /** A running row of the new state is a running row of the old one with the same spec, or a deploy's. */
  lemma RowsFrom(w: World, v: World, owner: string -> string, e: Event)
    requires Inv(w, owner) && Step(w, v, owner, e)
    ensures |w.rows| <= |v.rows|
    ensures forall i | 0 <= i < |w.rows| && v.rows[i].status == Running ::
      w.rows[i].status == Running && v.rows[i].spec == w.rows[i].spec && v.rows[i].app == w.rows[i].app
    ensures forall i | |w.rows| <= i < |v.rows| && v.rows[i].status == Running ::
      e.Deploy? && v.rows[i].spec == Some(e.app) && v.rows[i].app == e.app.name
    ensures forall i | 0 <= i < |w.rows| && w.rows[i].status == Running &&
      (w.rows[i].app != Subject(e) || !(e.Deploy? || e.Remove?)) ::
      v.rows[i].status == Running && v.rows[i].spec == w.rows[i].spec
    ensures e.Deploy? ==> |v.rows| == |w.rows| + 1 && v.rows[|w.rows|].status == Running
  {
    hide Inv, Step;
    StepEvolves(w, v, owner, e);
    forall i | 0 <= i < |w.rows| && w.rows[i].status == Running &&
      (w.rows[i].app != Subject(e) || !(e.Deploy? || e.Remove?))
      ensures v.rows[i].status == Running
    {
      GenerationsKept(w, v, owner, e, w.rows[i].app);
    }
    if e.Deploy? {
      DeployAddsRow(w, v, owner, e);
    }
  }

  lemma DeployAddsRow(w: World, v: World, owner: string -> string, e: Event)
    requires Step(w, v, owner, e) && e.Deploy?
    ensures |v.rows| == |w.rows| + 1 && v.rows[|w.rows|].status == Running
    ensures v.rows[|w.rows|].spec == Some(e.app) && v.rows[|w.rows|].app == e.app.name
  {
    hide Admissible, Flipped, Pinned, StartedFor, Superseded, NextId;
  }

  /** What a step does to the committed routes. */
  lemma RoutesFrom(w: World, v: World, owner: string -> string, e: Event)
    requires Inv(w, owner) && Step(w, v, owner, e)
    ensures e.Deploy? ==> v.routes.Keys == w.routes.Keys + {e.app.domain}
    ensures e.Remove? && e.dropped ==>
      Current(w.rows, e.name).Some? && Current(w.rows, e.name).value.spec.Some?
      && v.routes.Keys == w.routes.Keys - {Current(w.rows, e.name).value.spec.value.domain}
    ensures !e.Deploy? && !(e.Remove? && e.dropped) ==> v.routes.Keys == w.routes.Keys
  {
    hide RouteTo, Admissible, KeepsPin;
    if e.Update? {
      CurrentIsLive(w, owner, e.cur.app);
    }
    hide TableOk, ContainersOk, Admissible, Swapped, Pinned, StartedFor, Superseded, LatestAt, SameBut, NextId,
      ValidSpec, RouteTo, Patch;
  }

  /** A domain still routed, other than the one just deployed, is served by the row that served it before. */
  lemma StillServed(w: World, v: World, owner: string -> string, e: Event, domainOf: string -> string, d: string,
      i: nat)
    requires Inv(w, owner) && Step(w, v, owner, e) && Settled(w, domainOf) && Tidy(w, e, domainOf)
    requires d in v.routes && (e.Deploy? ==> d != e.app.domain) && i < |w.rows| && Serves(w.rows[i], d)
    ensures i < |v.rows| && Serves(v.rows[i], d)
  {
    hide Inv, Step, Current, NoStray;
    RowsFrom(w, v, owner, e);
    RoutesFrom(w, v, owner, e);
    if e.Remove? {
      IsCurrent(w, owner, i);
    }
  }

  lemma IsCurrent(w: World, owner: string -> string, i: nat)
    requires Inv(w, owner) && i < |w.rows| && w.rows[i].status == Running
    ensures Current(w.rows, w.rows[i].app) == Some(w.rows[i])
  {
    RunningIsCurrent(w, owner, i);
  }

  lemma StepKeepsDomains(w: World, v: World, owner: string -> string, e: Event, domainOf: string -> string)
    requires Inv(w, owner) && Step(w, v, owner, e) && Settled(w, domainOf) && Tidy(w, e, domainOf)
    ensures forall i | 0 <= i < |v.rows| && v.rows[i].status == Running ::
      v.rows[i].spec.Some? && v.rows[i].spec.value.domain == domainOf(v.rows[i].app) != ""
  {
    hide Inv, Step, Current, NoStray;
    RowsFrom(w, v, owner, e);
  }

  lemma StepKeepsSettled(w: World, v: World, owner: string -> string, e: Event, domainOf: string -> string)
    requires Inv(w, owner) && Step(w, v, owner, e) && Settled(w, domainOf) && Tidy(w, e, domainOf)
    ensures Settled(v, domainOf)
  {
    hide Inv, Step, Current, Serves;
    StepKeepsDomains(w, v, owner, e, domainOf);
    forall d | d in v.routes ensures d != "" && exists i :: 0 <= i < |v.rows| && Serves(v.rows[i], d) {
      if e.Deploy? && d == e.app.domain {
        NewIsServed(w, v, owner, e);
      } else {
        OldRoutes(w, v, owner, e, d);
        var i :| 0 <= i < |w.rows| && Serves(w.rows[i], d);
        StillServed(w, v, owner, e, domainOf, d, i);
      }
    }
  }

  lemma NewIsServed(w: World, v: World, owner: string -> string, e: Event)
    requires Inv(w, owner) && Step(w, v, owner, e) && e.Deploy?
    ensures |v.rows| > |w.rows| && Serves(v.rows[|w.rows|], e.app.domain)
  {
    hide Inv, Step;
    RowsFrom(w, v, owner, e);
  }

  lemma OldRoutes(w: World, v: World, owner: string -> string, e: Event, d: string)
    requires Inv(w, owner) && Step(w, v, owner, e) && d in v.routes && (e.Deploy? ==> d != e.app.domain)
    ensures d in w.routes
  {
    hide Inv, Step, Current;
    RoutesFrom(w, v, owner, e);
  }

  /** With fixed, named domains and successful route removals, a restart at any moment of any run loses nothing. */
  lemma {:induction false} RestartAnyTime(ws: seq<World>, es: seq<Event>, owner: string -> string,
      domainOf: string -> string, n: nat)
    requires Run(ws, es, owner) && Init(ws[0]) && n < |ws|
    requires forall i | 0 <= i < n :: Tidy(ws[i], es[i], domainOf)
    ensures Settled(ws[n], domainOf) && Gathered(ws[n].rows, Store.AppsOf(ws[n].rows)) == ws[n].routes
  {
    hide Inv, Step, Settled, Tidy, Gathered;
    InitIsInv(ws[0], owner);
    RunKeepsInv(ws, es, owner, n);
    if n == 0 {
      NothingSettled(ws[0], domainOf);
    } else {
      RestartAnyTime(ws, es, owner, domainOf, n - 1);
      RunKeepsInv(ws, es, owner, n - 1);
      StepKeepsSettled(ws[n - 1], ws[n], owner, es[n - 1], domainOf);
    }
    SettledHasNoStray(ws[n], domainOf);
    RestartRebuilds(ws[n], owner);
  }

  lemma NothingSettled(w: World, domainOf: string -> string)
    requires Init(w)
    ensures Settled(w, domainOf)
  {
  }

  lemma SettledHasNoStray(w: World, domainOf: string -> string)
    requires Settled(w, domainOf)
    ensures NoStray(w)
  {
  }
}
