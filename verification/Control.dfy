/**
  The Reconciler object (internal/reconciler/reconciler.go:72-101) and the external effects its operations
  are made of.  Every effect appends the world it leaves behind to `history`, so a contract can speak about
  the state between any two effects.
*/
module Control {
  import opened Prelude
  import opened Model
  import opened Transitions
  import Store
  import Router
  import Fleet

  class Reconciler {
    const store: Store.Store
    const router: Router.CaddyRouter
    const fleet: Fleet.Fleet
    /** Which app may use which domain. */
    ghost const owner: string -> string
    var heal: map<string, HealState>
    ghost var serving: map<string, seq<Replica>>
    /** The change that Caddy took and the router did not commit, if that is how the last config ended. */
    ghost var ahead: Option<Ahead>
    ghost var leaks: set<nat>
    ghost var origin: map<nat, string>
    ghost var history: seq<World>

    constructor (store: Store.Store, router: Router.CaddyRouter, fleet: Fleet.Fleet, ghost owner: string -> string)
      requires store.rows == [] && router.routes == map[] && router.served.routes == map[]
      requires fleet.containers == map[] && fleet.healthy == {}
      ensures this.store == store && this.router == router && this.fleet == fleet && this.owner == owner
      ensures Init(State()) && Valid()
    {
      this.store, this.router, this.fleet, this.owner := store, router, fleet, owner;
      heal, serving, ahead, leaks, origin, history := map[], map[], None, {}, map[], [];
    }

    ghost function State(): World
      reads this, store, router, fleet
    {
      World(store.rows, router.routes, router.staging, serving, router.served.routes, ahead, router.persists,
        fleet.containers, fleet.nextCid, leaks, fleet.healthy, heal, origin)
    }

    /** The hypothesis that no call fails. */
    predicate Sound() {
      fleet.sound && fleet.reliable && router.steady
    }

    ghost predicate Valid()
      reads this, store, router, fleet
    {
      Inv(State(), owner)
    }

    // -------------------------------------------------------------- effects on the fleet

    method Run(node: string, app: string, image: string, name: Host, hostIP: string) returns (c: Option<Fleet.Started>)
      modifies this`history, fleet
      ensures c.None? ==> State() == old(State())
      ensures fleet.sound ==> c.Some?
      ensures c.Some? ==>
        && c.value.id == old(State()).nextCid
        && c.value.container == Container(node, app, image, name, hostIP, c.value.container.hostPort)
        && State() == old(State()).(
             containers := old(State()).containers[c.value.id := c.value.container], nextCid := c.value.id + 1)
      ensures history == old(history) + [State()]
    {
      c := fleet.RunContainer(node, app, image, name, hostIP);
      history := history + [State()];
    }

    method Discard(node: string, id: nat) returns (ok: bool)
      modifies this`history, fleet
      ensures State() ==
        old(State()).(containers := if ok then old(State()).containers - {id} else old(State()).containers)
      ensures ok ==> id in old(State()).containers
      ensures (fleet.reliable && id in old(State()).containers &&
        Normalize(old(State()).containers[id].node) == Normalize(node)) ==> ok
      ensures history == old(history) + [State()]
    {
      ok := fleet.RemoveContainer(node, id);
      history := history + [State()];
    }

    /** `checkHealth`: a probe through the staging route of `host`, which must be up. */
    method Check(host: nat, id: nat) returns (ok: bool)
      requires host in State().staging
      modifies this`history, fleet`healthy
      ensures State() == old(State()).(healthy := if ok then old(State()).healthy + {id} else old(State()).healthy)
      ensures fleet.sound ==> ok
      ensures history == old(history) + [State()]
    {
      ok := fleet.CheckHealth(id);
      history := history + [State()];
    }

    // -------------------------------------------------------------- effects on the router

    /** `EnsureUp`: once Caddy is found or made to run, it is sent the committed config. */
    method EnsureUp() returns (ok: bool)
      modifies this`history, this`ahead, router
      ensures Reloaded(old(State()), State()) && (ok ==> State().ahead == None)
      ensures fleet.sound && router.steady ==> ok
      ensures history == old(history) + [State()]
    {
      ok := fleet.Attempt();
      if ok {
        var o := router.Reload();
        ok := o == Router.Applied;
        ahead := if o == Router.Rejected then ahead else None;
      }
      history := history + [State()];
    }

    method Stage(host: nat, upstreams: seq<Upstream>) returns (ok: bool)
      modifies this`history, this`ahead, router
      ensures Staged(old(State()), State(), host)
      ensures ok ==> State().staging == old(State()).staging[host := upstreams] && State().ahead == None
      ensures router.steady ==> ok
      ensures history == old(history) + [State()]
    {
      var o := router.SetStaging(host, upstreams);
      ok := o == Router.Applied;
      ahead := if o == Router.Rejected then ahead else None;
      history := history + [State()];
    }

    method Unstage(host: nat)
      modifies this`history, this`ahead, router
      ensures Staged(old(State()), State(), host)
      ensures router.steady ==> host !in State().staging
      ensures history == old(history) + [State()]
    {
      var o := router.RemoveStaging(host);
      ahead := if o == Router.Rejected then ahead else None;
      history := history + [State()];
    }

    /** The flip: the domain's live route becomes `replicas`, all at once or not at all. */
    method Flip(domain: string, replicas: seq<Replica>) returns (ok: bool)
      modifies this`history, this`ahead, this`serving, router
      ensures ok ==> Turned(old(State()), State(), domain, replicas)
      ensures !ok ==> Missed(old(State()), State(), Ahead(domain, Some(replicas)))
      ensures !ok && !router.persists ==> State().ahead == old(State()).ahead
      ensures router.steady ==> ok
      ensures history == old(history) + [State()]
    {
      var o := router.SetRoute(Route(domain, Upstreams(replicas), UseInternalTLS(domain)));
      ok := o == Router.Applied;
      match o {
        case Applied => serving, ahead := serving[domain := replicas], None;
        case Rejected =>
        case NotSaved => ahead := Some(Ahead(domain, Some(replicas)));
      }
      history := history + [State()];
    }

    method Drop(domain: string) returns (ok: bool)
      modifies this`history, this`ahead, this`serving, router
      ensures ok ==>
        && State() == old(State()).(serving := old(State()).serving - {domain},
          routes := old(State()).routes - {domain},
                                    caddy := State().caddy, ahead := None)
        && State().caddy == State().routes
      ensures !ok ==> Missed(old(State()), State(), Ahead(domain, None))
      ensures router.steady ==> ok
      ensures history == old(history) + [State()]
    {
      var o := router.RemoveRoute(domain);
      ok := o == Router.Applied;
      match o {
        case Applied => serving, ahead := serving - {domain}, None;
        case Rejected =>
        case NotSaved => ahead := Some(Ahead(domain, None));
      }
      history := history + [State()];
    }

    // -------------------------------------------------------------- effects on the table

    method Record(d: Deployment) returns (id: nat)
      modifies this`history, store`rows
      ensures id == NextId(old(State()).rows)
      ensures State() == old(State()).(rows := old(State()).rows + [d.(id := id)])
      ensures history == old(history) + [State()]
    {
      id := store.RecordDeployment(d);
      history := history + [State()];
    }
  }
}
