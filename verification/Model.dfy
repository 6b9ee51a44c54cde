/**
  The state the reconciler keeps: the deployments table, the router's committed maps, the containers
  on the fleet, and the heal bookkeeping.  `World` is that state as one value; contracts relate worlds.
*/
module Model {
  import opened Prelude
  import opened Schedule

  // ---------------------------------------------------------------- entities

  /** What Caddy is told to proxy to: a container name on the shared network, or a mesh address. */
  datatype Host = Named(app: string, deploy: nat, index: Option<nat>) | Mesh(address: string)

  datatype Upstream = Upstream(host: Host, port: int)

  datatype Route = Route(domain: string, upstreams: seq<Upstream>, tlsInternal: bool)

  datatype Replica = Replica(cid: nat, node: string, host: Host, port: int)

  /** A surface container.  Its name carries the labels lwd.app, lwd.deploy and lwd.replica. */
  datatype Container = Container(node: string, app: string, image: string, name: Host, hostIP: string, hostPort: int)

  datatype Status = Running | Failed | Retired

  /** A row of the deployments table; `spec` is the snapshot column, `None` for an empty one. */
  datatype Deployment = Deployment(
    id: nat,
    app: string,
    image: string,
    containerId: Option<nat>,
    status: Status,
    spec: Option<App>,
    scheduled: bool,
    replicas: seq<Replica>)

  datatype HealState = HealState(attempts: nat, nextEligible: int)

  /** A config Caddy took that was then not committed: the domain it moved, and to what (`None`: away). */
  datatype Ahead = Ahead(domain: string, replicas: Option<seq<Replica>>)

  /**
    `routes` and `staging` are what the router has committed, `caddy` the routes Caddy itself runs, and
    `persists` whether the router writes a file after each config, the one thing that can make them differ.
    The program keeps none of the other five: `ahead` says how the two differ, `serving` which replicas the last
    flip of each domain installed, `leaks` which containers a cleanup could not remove, `healthy` which have
    passed their health check, and `origin` which node the user's own spec named for the row's lineage ("" when
    the user left it to the scheduler).
  */
  datatype World = World(
    rows: seq<Deployment>,
    routes: map<string, Route>,
    staging: map<nat, seq<Upstream>>,
    serving: map<string, seq<Replica>>,
    caddy: map<string, Route>,
    ahead: Option<Ahead>,
    persists: bool,
    containers: map<nat, Container>,
    nextCid: nat,
    leaks: set<nat>,
    healthy: set<nat>,
    heal: map<string, HealState>,
    origin: map<nat, string>)

  // ---------------------------------------------------------------- specs and names

  /** internal/spec/spec.go `Validate`, the clauses an image app meets; name patterns are left out. */
  predicate ValidSpec(a: App) {
    && a.name != "" && a.image != "" && a.port != 0
    && (a.requirements.Some? ==> a.requirements.value.cpu >= 0.0 && a.requirements.value.mem >= 0)
    && 0 <= a.replicas <= 50
    && (a.replicas > 1 ==> !a.backed)
  }

  predicate IsLocal(node: string) {
    node == "" || node == "local"
  }

  function Normalize(node: string): string {
    if node == "" then "local" else node
  }

  /** `containerName`, with the index suffix of a set of more than one. */
  function NameOf(app: string, deploy: nat, count: nat, index: nat): Host {
    Named(app, deploy, if count > 1 then Some(index) else None)
  }

  /** The row entry for container `cid`: its name and declared port, or its mesh address and host port. */
  function ReplicaOf(cid: nat, c: Container, port: int): (r: Replica)
    ensures r.cid == cid && r.node == c.node
  {
    if IsLocal(c.node) then Replica(cid, c.node, c.name, port)
    else Replica(cid, c.node, Mesh(c.hostIP), c.hostPort)
  }

  /**
    `u` addresses the container `c`: on the local node by its name on the shared network and the port it listens
    on, anywhere else by the mesh address and the host port it is published on.
  */
  predicate Addresses(u: Upstream, c: Container, port: int) {
    && (c.node == "" || c.node == "local" ==> u.host == c.name && u.port == port)
    && (c.node != "" && c.node != "local" ==> u.host == Mesh(c.hostIP) && u.port == c.hostPort)
  }

  lemma EntryAddresses(cid: nat, c: Container, port: int)
    ensures Addresses(Upstream(ReplicaOf(cid, c, port).host, ReplicaOf(cid, c, port).port), c, port)
  {
  }

  function Replicas(first: nat, cs: seq<Container>, port: int): (r: seq<Replica>)
    ensures |r| == |cs| && forall k | 0 <= k < |cs| :: r[k] == ReplicaOf(first + k, cs[k], port)
  {
    seq(|cs|, k requires 0 <= k < |cs| => ReplicaOf(first + k, cs[k], port))
  }

  function Upstreams(replicas: seq<Replica>): (r: seq<Upstream>)
    ensures |r| == |replicas| && forall k | 0 <= k < |r| :: r[k] == Upstream(replicas[k].host, replicas[k].port)
  {
    seq(|replicas|, k requires 0 <= k < |replicas| => Upstream(replicas[k].host, replicas[k].port))
  }

  predicate EndsWith(s: string, suffix: string) {
    |s| >= |suffix| && s[|s| - |suffix|..] == suffix
  }

  function UseInternalTLS(domain: string): bool {
    domain == "" || EndsWith(domain, ".localhost") || domain == "localhost" || '.' !in domain
  }

  function RouteTo(domain: string, replicas: seq<Replica>): Route {
    Route(domain, Upstreams(replicas), UseInternalTLS(domain))
  }

  function Cids(replicas: seq<Replica>): set<nat> {
    set k | 0 <= k < |replicas| :: replicas[k].cid
  }

  // ---------------------------------------------------------------- the deployments table

  /** The position of the newest row of `app` in `status`, or -1. */
  function LatestAt(rows: seq<Deployment>, app: string, status: Status): (i: int)
    ensures -1 <= i < |rows|
    ensures i >= 0 ==> rows[i].app == app && rows[i].status == status
    ensures forall j | i < j < |rows| :: !(rows[j].app == app && rows[j].status == status)
  {
    if rows == [] then -1
    else if rows[|rows| - 1].app == app && rows[|rows| - 1].status == status then |rows| - 1
    else LatestAt(rows[..|rows| - 1], app, status)
  }

  function Latest(rows: seq<Deployment>, app: string, status: Status): Option<Deployment> {
    var i := LatestAt(rows, app, status);
    if i < 0 then None else Some(rows[i])
  }

  function Current(rows: seq<Deployment>, app: string): Option<Deployment> {
    Latest(rows, app, Running)
  }

  function Previous(rows: seq<Deployment>, app: string): Option<Deployment> {
    Latest(rows, app, Retired)
  }

  function MaxId(rows: seq<Deployment>): nat {
    if rows == [] then 0
    else
      var m := MaxId(rows[..|rows| - 1]);
      if rows[|rows| - 1].id > m then rows[|rows| - 1].id else m
  }

  /** `MAX(id)`: it bounds every id, and is one of them unless none exceeds 0. */
  lemma {:induction false} MaxIdIsMax(rows: seq<Deployment>)
    ensures forall i | 0 <= i < |rows| :: rows[i].id <= MaxId(rows)
    ensures MaxId(rows) == 0 || exists i :: 0 <= i < |rows| && rows[i].id == MaxId(rows)
  {
    if rows != [] {
      var front := rows[..|rows| - 1];
      MaxIdIsMax(front);
      forall i | 0 <= i < |rows| ensures rows[i].id <= MaxId(rows) {
        if i < |front| { assert front[i] == rows[i]; }
      }
      if MaxId(front) != 0 && MaxId(rows) == MaxId(front) {
        var i :| 0 <= i < |front| && front[i].id == MaxId(front);
        assert rows[i] == front[i];
      }
    }
  }

  function NextId(rows: seq<Deployment>): nat {
    MaxId(rows) + 1
  }

  function WithStatus(rows: seq<Deployment>, id: nat, status: Status): (r: seq<Deployment>)
    ensures |r| == |rows|
    ensures forall i | 0 <= i < |rows| :: r[i] == if rows[i].id == id then rows[i].(status := status) else rows[i]
  {
    seq(|rows|, i requires 0 <= i < |rows| => if rows[i].id == id then rows[i].(status := status) else rows[i])
  }

  function WithReplicas(rows: seq<Deployment>, id: nat, replicas: seq<Replica>, cid: Option<nat>): (r: seq<Deployment>)
    ensures |r| == |rows|
    ensures forall i | 0 <= i < |rows| ::
      r[i] == if rows[i].id == id then rows[i].(replicas := replicas, containerId := cid) else rows[i]
  {
    seq(|rows|, i requires 0 <= i < |rows| =>
      if rows[i].id == id then rows[i].(replicas := replicas, containerId := cid) else rows[i])
  }

  /** Retiring the current row of `app`, if there is one. */
  function Superseded(rows: seq<Deployment>, app: string): (r: seq<Deployment>)
    ensures |r| == |rows|
  {
    match Current(rows, app)
    case None => rows
    case Some(cur) => WithStatus(rows, cur.id, Retired)
  }

  /** The containers the current row of `app` names. */
  function CurrentCids(rows: seq<Deployment>, app: string): set<nat> {
    match Current(rows, app)
    case None => {}
    case Some(cur) => Cids(cur.replicas)
  }

  // ---------------------------------------------------------------- the invariant

  ghost predicate DistinctCids(replicas: seq<Replica>) {
    forall i, j | 0 <= i < j < |replicas| :: replicas[i].cid != replicas[j].cid
  }

  /** A row that is or was live: its snapshot, image and replica set agree, and a pin was honoured. */
  ghost predicate GoodRow(w: World, owner: string -> string, row: Deployment) {
    && row.spec.Some? && ValidSpec(row.spec.value)
    && row.spec.value.name == row.app && row.spec.value.image == row.image && row.spec.value.node != ""
    && owner(row.spec.value.domain) == row.app
    && |row.replicas| == Count(row.spec.value) && row.containerId == Some(row.replicas[0].cid)
    && DistinctCids(row.replicas)
    && (forall k | 0 <= k < |row.replicas| :: row.replicas[k].cid < w.nextCid && row.replicas[k].node != "")
    && row.id in w.origin
    && (row.scheduled <==> w.origin[row.id] == "")
    && (!row.scheduled ==> row.spec.value.node == w.origin[row.id]
                           && forall k | 0 <= k < |row.replicas| :: row.replicas[k].node == w.origin[row.id])
  }

  /** What a running row adds: the live route is exactly its replicas, and they are where it says. */
  ghost predicate LiveRow(w: World, row: Deployment) {
    && row.spec.Some?
    && row.spec.value.domain in w.serving && w.serving[row.spec.value.domain] == row.replicas
    && (forall k | 0 <= k < |row.replicas| :: Lodged(w, row.replicas[k], row.spec.value))
  }

  /** The entry `r` is not a leak, and if its container exists it addresses it truly, and that runs the spec's image. */
  ghost predicate Lodged(w: World, r: Replica, spec: App) {
    && r.cid !in w.leaks
    && (r.cid in w.containers ==>
          r == ReplicaOf(r.cid, w.containers[r.cid], spec.port) && w.containers[r.cid].image == spec.image)
  }

  /** Container `id` is one that the running row of its app names. */
  ghost predicate Claimed(w: World, id: nat) {
    id in w.containers && id in CurrentCids(w.rows, w.containers[id].app)
  }

  /** Ids count up, and after a running row of an app only failed attempts follow. */
  ghost predicate TableOk(rows: seq<Deployment>) {
    && (forall i | 0 <= i < |rows| :: rows[i].id == i + 1)
    && (forall i, j | 0 <= i < j < |rows| && rows[i].app == rows[j].app :: rows[i].status == Running ==>
          rows[j].status == Failed)
  }

  ghost predicate RowsOk(w: World, owner: string -> string) {
    && (forall i | 0 <= i < |w.rows| && w.rows[i].status != Failed :: GoodRow(w, owner, w.rows[i]))
    && (forall i | 0 <= i < |w.rows| && w.rows[i].status == Running :: LiveRow(w, w.rows[i]))
  }

  ghost predicate RoutesOk(w: World, owner: string -> string) {
    && w.routes.Keys == w.serving.Keys
    && (forall d | d in w.serving :: w.routes[d] == RouteTo(d, w.serving[d]))
    && (forall d, k | d in w.serving && 0 <= k < |w.serving[d]| :: OwnEntry(w, w.serving[d][k], owner(d)))
  }

  /** The entry `r` is no future container and no other app's, and it has passed its health check. */
  ghost predicate OwnEntry(w: World, r: Replica, app: string) {
    r.cid < w.nextCid && r.cid in w.healthy && (r.cid in w.containers ==> w.containers[r.cid].app == app)
  }

  ghost predicate ContainersOk(w: World) {
    && (forall id | id in w.containers ::
          id < w.nextCid && w.containers[id].node != "" && (id in w.leaks || Claimed(w, id)))
    && (forall id | id in w.leaks :: id < w.nextCid)
    && (forall id | id in w.healthy :: id < w.nextCid)
  }

  /** The replicas behind each route that Caddy runs. */
  function Proxied(w: World): map<string, seq<Replica>> {
    match w.ahead
    case None => w.serving
    case Some(Ahead(domain, None)) => w.serving - {domain}
    case Some(Ahead(domain, Some(replicas))) => w.serving[domain := replicas]
  }

  /** No entry names a container that is yet to be started. */
  predicate Begun(replicas: seq<Replica>, next: nat) {
    forall k | 0 <= k < |replicas| :: replicas[k].cid < next
  }

  /** Caddy runs the committed routes, but for the one change it took and the router did not commit. */
  ghost predicate Mirrored(w: World) {
    && (w.ahead != None ==> w.persists)
    && (w.ahead.Some? && w.ahead.value.replicas.Some? ==> Begun(w.ahead.value.replicas.value, w.nextCid))
    && w.caddy == match w.ahead
      case None => w.routes
      case Some(Ahead(domain, None)) => w.routes - {domain}
      case Some(Ahead(domain, Some(replicas))) => w.routes[domain := RouteTo(domain, replicas)]
  }

  /** `owner` says which app may use a domain; it is the hypothesis that no two apps share one. */
  ghost predicate Inv(w: World, owner: string -> string) {
    TableOk(w.rows) && RowsOk(w, owner) && RoutesOk(w, owner) && ContainersOk(w) && Mirrored(w)
  }

  /** A fresh installation: no rows, routes or containers. */
  ghost predicate Init(w: World) {
    w.rows == [] && w.routes == map[] && w.serving == map[] && w.caddy == map[] && w.ahead == None &&
      w.containers == map[] && w.leaks == {} && w.healthy == {} && w.heal == map[]
  }

  // ---------------------------------------------------------------- facts about the table

  lemma {:induction false} MaxIdIsLength(rows: seq<Deployment>)
    requires forall i | 0 <= i < |rows| :: rows[i].id == i + 1
    ensures MaxId(rows) == |rows|
  {
    if rows != [] { MaxIdIsLength(rows[..|rows| - 1]); }
  }

  lemma LatestAtIs(rows: seq<Deployment>, app: string, status: Status, i: int)
    requires -1 <= i < |rows|
    requires i >= 0 ==> rows[i].app == app && rows[i].status == status
    requires forall j | i < j < |rows| :: !(rows[j].app == app && rows[j].status == status)
    ensures LatestAt(rows, app, status) == i
  {
  }

  /** An app has at most one running row, it is the newest that ever ran, and `Current` finds it. */
  lemma RunningIsCurrent(w: World, owner: string -> string, i: nat)
    requires Inv(w, owner) && i < |w.rows| && w.rows[i].status == Running
    ensures Current(w.rows, w.rows[i].app) == Some(w.rows[i])
    ensures forall j | 0 <= j < |w.rows| && j != i && w.rows[j].app == w.rows[i].app :: w.rows[j].status != Running
    ensures forall j | 0 <= j < |w.rows| && w.rows[j].app == w.rows[i].app && w.rows[j].status == Retired ::
      w.rows[j].id < w.rows[i].id
  {
    LatestAtIs(w.rows, w.rows[i].app, Running, i);
  }
}
