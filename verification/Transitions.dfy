/**
  What each locked operation does to the world, and the invariant every one of them keeps.

  The operations themselves are methods (Deploy, Heal, Evacuate, Operations); these predicates are their
  contracts.
*/
module Transitions {
  import opened Prelude
  import opened Schedule
  import opened Model

  ghost predicate SameBut<K, V>(a: map<K, V>, b: map<K, V>, key: K) {
    a - {key} == b - {key}
  }

  // ---------------------------------------------------------------- what one config sent to Caddy does

  /**
    Staging changed at most at `host`.  The config sent was the committed routes, so if Caddy took it, it
    is in step again, and otherwise nothing changed for it.
  */
  ghost predicate Staged(s: World, s': World, host: nat) {
    && s' == s.(staging := s'.staging, caddy := s'.caddy, ahead := s'.ahead)
    && SameBut(s.staging, s'.staging, host)
    && (s'.ahead == None || s'.ahead == s.ahead)
    && (Mirrored(s) ==> Mirrored(s'))
  }

  /** The committed config was sent again: if Caddy took it, it is in step. */
  ghost predicate Reloaded(s: World, s': World) {
    && s' == s.(caddy := s'.caddy, ahead := s'.ahead)
    && (s'.ahead == None || s'.ahead == s.ahead)
    && (Mirrored(s) ==> Mirrored(s'))
  }

  /** The route of `domain` was moved to `replicas`, for the router and for Caddy. */
  ghost predicate Turned(s: World, s': World, domain: string, replicas: seq<Replica>) {
    && s' == s.(serving := s.serving[domain := replicas], routes := s.routes[domain := RouteTo(domain, replicas)],
                caddy := s'.caddy, ahead := None)
    && s'.caddy == s'.routes
  }

  /** The router did not commit `change`: Caddy refused it, or took it and the file write failed. */
  ghost predicate Missed(s: World, s': World, change: Ahead) {
    && s' == s.(caddy := s'.caddy, ahead := s'.ahead)
    && (s'.ahead == s.ahead || s'.ahead == Some(change))
    && (Mirrored(s) && (change.replicas.Some? ==> Begun(change.replicas.value, s.nextCid)) ==> Mirrored(s'))
  }

  // ---------------------------------------------------------------- refused operations

  /**
    An operation on `app` that failed, wherever it failed.  Rows and routes are untouched but for at most one
    failed row; containers it started and could not remove again are leaks; `lost` bounds
    the containers it took away.
  */
  ghost predicate Refused(w: World, v: World, app: string, lost: set<nat>, noted: seq<Deployment>) {
    && v.rows == w.rows + noted && |noted| <= 1
    && (noted != [] ==> noted[0].id == NextId(w.rows) && noted[0].app == app && noted[0].status == Failed)
    && v.routes == w.routes && v.serving == w.serving && v.origin == w.origin
    && v.nextCid >= w.nextCid && w.healthy <= v.healthy && v.persists == w.persists && Mirrored(v)
    && (forall id | id in v.healthy :: id in w.healthy || id < v.nextCid)
    && (forall id | id in w.containers && id !in lost :: id in v.containers)
    && (forall id | id in v.containers && id in w.containers :: v.containers[id] == w.containers[id])
    && (forall id | id in v.containers && id !in w.containers ::
          w.nextCid <= id < v.nextCid && v.containers[id].node != "" && v.containers[id].app == app)
    && v.leaks == w.leaks + (v.containers.Keys - w.containers.Keys)
  }

  // ---------------------------------------------------------------- a flip and its clean-up

  /**
    The domain's route becomes `replicas`, `cs` have been started and found healthy,
      and of the containers in `former` that
    this drops from the route those that are not gone are leaks.
  */
  ghost predicate Flipped(w: World, v: World, domain: string, replicas: seq<Replica>, cs: seq<Container>,
      former: set<nat>) {
    && v.serving == w.serving[domain := replicas]
    && v.routes == w.routes[domain := RouteTo(domain, replicas)]
    && v.ahead == None && v.caddy == v.routes && v.persists == w.persists
    && Swapped(w, v, cs, former)
  }

  ghost predicate Swapped(w: World, v: World, cs: seq<Container>, former: set<nat>) {
    && v.nextCid == w.nextCid + |cs| && w.healthy <= v.healthy
    && (forall id | id in v.healthy :: id in w.healthy || id < v.nextCid)
    && (forall id | w.nextCid <= id < v.nextCid ::
          id in v.containers && v.containers[id] == cs[id - w.nextCid] && id in v.healthy)
    && (forall id | id in v.containers ::
          id < v.nextCid && (id < w.nextCid ==> id in w.containers && v.containers[id] == w.containers[id]))
    && (forall id | id in w.containers && id !in former :: id in v.containers)
    && (forall id :: id in v.leaks <==> id in w.leaks || (id in former && id in w.containers && id in v.containers))
  }

  // ---------------------------------------------------------------- a new generation

  /** The containers a deploy of `app` starts: one per target, named for the deploy, in order. */
  ghost predicate StartedFor(app: App, deploy: nat, cs: seq<Container>) {
    && |cs| == Count(app)
    && forall k | 0 <= k < |cs| ::
         && cs[k].node != "" && cs[k].app == app.name && cs[k].image == app.image
         && cs[k].name == NameOf(app.name, deploy, Count(app), k)
  }

  function RowFor(app: App, id: nat, scheduled: bool, replicas: seq<Replica>): Deployment
    requires replicas != []
  {
    Deployment(id, app.name, app.image, Some(replicas[0].cid), Running, Some(app), scheduled, replicas)
  }

  /**
    A successful blue-green deploy.  The old row is retired and the new one appended, the domain's route is
    the new set, and of the old set's containers those that are not gone are leaks.
  */
  ghost predicate Deployed(w: World, v: World, app: App, scheduled: bool, origin: string, cs: seq<Container>) {
    && StartedFor(app, NextId(w.rows), cs)
    && var replicas := Replicas(w.nextCid, cs, app.port);
    && Flipped(w, v, app.domain, replicas, cs, CurrentCids(w.rows, app.name))
    && v.rows == Superseded(w.rows, app.name) + [RowFor(app, NextId(w.rows), scheduled, replicas)]
    && v.heal == w.heal - {app.name}
    && v.origin == w.origin[NextId(w.rows) := origin]
  }

  /** What a deploy's caller guarantees: a valid spec on its own domain, and a provenance that is told truly. */
  ghost predicate Admissible(app: App, scheduled: bool, origin: string, owner: string -> string) {
    && ValidSpec(app) && app.node != "" && owner(app.domain) == app.name
    && (scheduled <==> origin == "")
    && (!scheduled ==> app.node == origin)
  }

  ghost predicate Pinned(app: App, scheduled: bool, cs: seq<Container>) {
    !scheduled ==> forall c | c in cs :: c.node == app.node
  }

  // ---------------------------------------------------------------- an in-place update

  /** `replicas` with the entries at `idxs` replaced by `news`, in order. */
  function Patch(replicas: seq<Replica>, idxs: seq<nat>, news: seq<Replica>): (r: seq<Replica>)
    requires |idxs| == |news|
    requires forall k | 0 <= k < |idxs| :: idxs[k] < |replicas|
    ensures |r| == |replicas|
  {
    if idxs == [] then replicas
    else
      var n := |idxs| - 1;
      Patch(replicas, idxs[..n], news[..n])[idxs[n] := news[n]]
  }

  ghost predicate Increasing(s: seq<nat>) {
    forall i, j | 0 <= i < j < |s| :: s[i] < s[j]
  }

  function CidsAt(replicas: seq<Replica>, idxs: seq<nat>): set<nat>
    requires forall k | 0 <= k < |idxs| :: idxs[k] < |replicas|
  {
    set k | 0 <= k < |idxs| :: replicas[idxs[k]].cid
  }

  /**
    A successful in-place update of the current row: the replicas at `idxs` are replaced by fresh
    containers, the row keeps its id, and the route is the merged set.
  */
  ghost predicate Patched(w: World, v: World, cur: Deployment, idxs: seq<nat>, cs: seq<Container>) {
    && cur.spec.Some? && cur.replicas != []
    && |idxs| == |cs| && Increasing(idxs) && (forall k | 0 <= k < |idxs| :: idxs[k] < |cur.replicas|)
    && (forall k | 0 <= k < |cs| ::
          && cs[k].node != "" && cs[k].app == cur.app && cs[k].image == cur.image
          && cs[k].name == NameOf(cur.app, NextId(w.rows), |cur.replicas|, idxs[k]))
    && var app := cur.spec.value;
    && var replicas := Patch(cur.replicas, idxs, Replicas(w.nextCid, cs, app.port));
    && Flipped(w, v, app.domain, replicas, cs, CidsAt(cur.replicas, idxs))
    && v.rows == WithReplicas(w.rows, cur.id, replicas, Some(replicas[0].cid))
    && v.origin == w.origin
  }

  /** A heal leaves every replica on its own node. */
  ghost predicate InPlace(cur: Deployment, idxs: seq<nat>, cs: seq<Container>)
    requires |idxs| == |cs| && forall k | 0 <= k < |idxs| :: idxs[k] < |cur.replicas|
  {
    forall k | 0 <= k < |cs| :: cs[k].node == cur.replicas[idxs[k]].node
  }

  // ---------------------------------------------------------------- removal

  /** `Remove` ran to its end; `dropped` tells whether the best-effort route removal succeeded. */
  ghost predicate Removed(w: World, v: World, app: string, dropped: bool) {
    && var gone := w.containers.Keys - v.containers.Keys;
    && v.containers == w.containers - gone
    && (forall id | id in gone :: w.containers[id].app == app)
    && v.rows == Superseded(w.rows, app)
    && v.leaks == w.leaks + CurrentCids(w.rows, app) * v.containers.Keys
    && (dropped ==> Current(w.rows, app).Some? && Current(w.rows, app).value.spec.Some?)
    && var gate := if dropped then {Current(w.rows, app).value.spec.value.domain} else {};
    && v.serving == w.serving - gate && v.routes == w.routes - gate
    && v.nextCid == w.nextCid && v.healthy == w.healthy && v.persists == w.persists && Mirrored(v) &&
      v.heal == w.heal && v.origin == w.origin
  }

  /** `Remove` gave up half way: some of the app's containers are gone, and nothing else changed. */
  ghost predicate RemoveAborted(w: World, v: World, app: string) {
    && var gone := w.containers.Keys - v.containers.Keys;
    && (forall id | id in gone :: w.containers[id].app == app)
    && v == w.(containers := w.containers - gone, staging := v.staging)
  }

  // ---------------------------------------------------------------- refused operations keep the invariant

  lemma RefusedKeepsCurrent(rows: seq<Deployment>, noted: seq<Deployment>, app: string)
    requires |noted| <= 1 && (noted != [] ==> noted[0].status == Failed)
    ensures Current(rows + noted, app) == Current(rows, app)
    ensures Previous(rows + noted, app) == Previous(rows, app)
  {
    LatestAtIs(rows + noted, app, Running, LatestAt(rows, app, Running));
    LatestAtIs(rows + noted, app, Retired, LatestAt(rows, app, Retired));
  }

  lemma RefusedKeepsRows(w: World, v: World, owner: string -> string, app: string, lost: set<nat>,
      noted: seq<Deployment>)
    requires RowsOk(w, owner) && Refused(w, v, app, lost, noted)
    ensures RowsOk(v, owner)
  {
    forall i | 0 <= i < |v.rows| && v.rows[i].status != Failed ensures GoodRow(v, owner, v.rows[i]) {
      assert GoodRow(w, owner, w.rows[i]);
    }
    forall i | 0 <= i < |v.rows| && v.rows[i].status == Running ensures LiveRow(v, v.rows[i]) {
      assert GoodRow(w, owner, w.rows[i]) && LiveRow(w, w.rows[i]);
      forall k | 0 <= k < |v.rows[i].replicas| ensures Lodged(v, v.rows[i].replicas[k], v.rows[i].spec.value) {
        assert Lodged(w, w.rows[i].replicas[k], w.rows[i].spec.value);
      }
    }
  }

  lemma RefusedKeepsRoutes(w: World, v: World, owner: string -> string, app: string, lost: set<nat>,
      noted: seq<Deployment>)
    requires RoutesOk(w, owner) && Refused(w, v, app, lost, noted)
    ensures RoutesOk(v, owner)
  {
    forall d, k | d in v.serving && 0 <= k < |v.serving[d]| ensures OwnEntry(v, v.serving[d][k], owner(d)) {
      assert OwnEntry(w, w.serving[d][k], owner(d));
    }
  }

  lemma RefusedKeepsContainers(w: World, v: World, app: string, lost: set<nat>, noted: seq<Deployment>)
    requires ContainersOk(w) && Refused(w, v, app, lost, noted)
    ensures ContainersOk(v)
  {
    forall id | id in v.containers ensures id in v.leaks || Claimed(v, id) {
      RefusedKeepsCurrent(w.rows, noted, v.containers[id].app);
    }
  }

  lemma RefusedKeepsInv(w: World, v: World, owner: string -> string, app: string, lost: set<nat>,
      noted: seq<Deployment>)
    requires Inv(w, owner) && Refused(w, v, app, lost, noted)
    ensures Inv(v, owner)
  {
    hide RowsOk, RoutesOk, ContainersOk;
    assert NextId(w.rows) == |w.rows| + 1 by { MaxIdIsLength(w.rows); }
    assert RowsOk(v, owner) by { RefusedKeepsRows(w, v, owner, app, lost, noted); }
    assert RoutesOk(v, owner) by { RefusedKeepsRoutes(w, v, owner, app, lost, noted); }
    assert ContainersOk(v) by { RefusedKeepsContainers(w, v, app, lost, noted); }
    assert TableOk(v.rows);
  }

  // ---------------------------------------------------------------- the current row

  /** Retiring the current row retires exactly the running row of that app. */
  lemma SupersededRows(rows: seq<Deployment>, app: string)
    requires TableOk(rows)
    ensures forall i | 0 <= i < |rows| ::
      Superseded(rows, app)[i] == rows[i].(status := if rows[i].app == app &&
        rows[i].status == Running then Retired else rows[i].status)
  {
    assert Current(rows, app).Some? ==> rows[LatestAt(rows, app, Running)].id == LatestAt(rows, app, Running) + 1;
  }

  lemma SupersededCurrent(rows: seq<Deployment>, app: string, b: string)
    requires TableOk(rows)
    ensures Current(Superseded(rows, app), b) == if b == app then None else Current(rows, b)
  {
    SupersededRows(rows, app);
    LatestAtIs(Superseded(rows, app), b, Running, if b == app then -1 else LatestAt(rows, b, Running));
  }

  /** A current row is a running, good and live one. */
  lemma CurrentIsLive(w: World, owner: string -> string, app: string)
    requires TableOk(w.rows) && RowsOk(w, owner) && Current(w.rows, app).Some?
    ensures var cur := Current(w.rows, app).value;
      && cur.app == app && cur.status == Running && 1 <= cur.id <= |w.rows| && w.rows[cur.id - 1] == cur
      && GoodRow(w, owner, cur) && LiveRow(w, cur)
  {
    var i := LatestAt(w.rows, app, Running);
    assert w.rows[i].id == i + 1;
  }

  /** The containers of an app's current row carry its label. */
  lemma CurrentIsOwn(w: World, owner: string -> string, app: string)
    requires Inv(w, owner)
    ensures forall id | id in CurrentCids(w.rows, app) && id in w.containers :: w.containers[id].app == app
  {
    if Current(w.rows, app).Some? {
      CurrentIsLive(w, owner, app);
      var cur := Current(w.rows, app).value;
      forall id | id in Cids(cur.replicas) && id in w.containers ensures w.containers[id].app == app {
        var k :| 0 <= k < |cur.replicas| && cur.replicas[k].cid == id;
        assert OwnEntry(w, w.serving[cur.spec.value.domain][k], app);
      }
    }
  }

  // ---------------------------------------------------------------- flips keep the invariant

  /** Everything a flip drops or installs belongs to the app that owns the domain. */
  ghost predicate OwnFlip(w: World, v: World, app: string, domain: string, replicas: seq<Replica>, cs: seq<Container>,
      former: set<nat>) {
    && Flipped(w, v, domain, replicas, cs, former)
    && (forall k | 0 <= k < |cs| :: cs[k].app == app && cs[k].node != "")
    && (forall k | 0 <= k < |replicas| :: OwnEntry(v, replicas[k], app))
    && (forall id | id in former && id in w.containers :: w.containers[id].app == app)
  }

  lemma FlipKeepsRoutes(w: World, v: World, owner: string -> string, domain: string, replicas: seq<Replica>,
      cs: seq<Container>, former: set<nat>)
    requires RoutesOk(w, owner) && OwnFlip(w, v, owner(domain), domain, replicas, cs, former)
    ensures RoutesOk(v, owner)
  {
    forall d, k | d in v.serving && 0 <= k < |v.serving[d]| ensures OwnEntry(v, v.serving[d][k], owner(d)) {
      if d != domain { assert OwnEntry(w, w.serving[d][k], owner(d)); }
    }
  }

  lemma UntouchedStaysLodged(w: World, v: World, cs: seq<Container>, former: set<nat>, r: Replica, spec: App)
    requires Swapped(w, v, cs, former) && Lodged(w, r, spec) && r.cid < w.nextCid
    requires r.cid !in former || r.cid !in w.containers
    ensures Lodged(v, r, spec)
  {
  }

  lemma FreshIsLodged(w: World, v: World, cs: seq<Container>, former: set<nat>, k: nat, spec: App)
    requires Swapped(w, v, cs, former) && k < |cs| && cs[k].image == spec.image
    requires forall id | id in w.leaks || id in w.containers :: id < w.nextCid
    ensures Lodged(v, ReplicaOf(w.nextCid + k, cs[k], spec.port), spec)
  {
    assert v.containers[w.nextCid + k] == cs[k];
  }

  /** Another app's running row is as live after the flip as before it. */
  lemma FlipKeepsOthers(w: World, v: World, owner: string -> string, domain: string, replicas: seq<Replica>,
      cs: seq<Container>, former: set<nat>, row: Deployment)
    requires RoutesOk(w, owner) && OwnFlip(w, v, owner(domain), domain, replicas, cs, former)
    requires GoodRow(w, owner, row) && LiveRow(w, row) && row.app != owner(domain)
    ensures LiveRow(v, row)
  {
    forall k | 0 <= k < |row.replicas| ensures Lodged(v, row.replicas[k], row.spec.value) {
      assert Lodged(w, row.replicas[k], row.spec.value);
      assert OwnEntry(w, w.serving[row.spec.value.domain][k], row.app);
      UntouchedStaysLodged(w, v, cs, former, row.replicas[k], row.spec.value);
    }
  }

  /** A flip orphans nothing: what the app's row no longer names is gone or a leak. */
  lemma FlipKeepsContainers(w: World, v: World, app: string, domain: string, replicas: seq<Replica>,
      cs: seq<Container>, former: set<nat>)
    requires ContainersOk(w) && OwnFlip(w, v, app, domain, replicas, cs, former)
    requires forall b | b != app :: CurrentCids(v.rows, b) == CurrentCids(w.rows, b)
    requires forall id | id in CurrentCids(w.rows, app) :: id in former || id in CurrentCids(v.rows, app)
    requires forall id | w.nextCid <= id < w.nextCid + |cs| :: id in CurrentCids(v.rows, app)
    ensures ContainersOk(v)
  {
    hide CurrentCids;
    forall id | id in v.containers
      ensures id < v.nextCid && v.containers[id].node != "" && (id in v.leaks || Claimed(v, id)) {
      if id in w.containers {
        assert id < w.nextCid && (id in w.leaks || Claimed(w, id));
      } else {
        assert v.containers[id] == cs[id - w.nextCid];
      }
    }
  }

  // ---------------------------------------------------------------- deploys keep the invariant

  lemma DeployedCurrent(w: World, v: World, app: App, scheduled: bool, origin: string, cs: seq<Container>, b: string)
    requires TableOk(w.rows) && Deployed(w, v, app, scheduled, origin, cs)
    ensures Current(v.rows, b) ==
      if b == app.name then Some(RowFor(app, NextId(w.rows), scheduled,
        Replicas(w.nextCid, cs, app.port))) else Current(w.rows, b)
  {
    SupersededRows(w.rows, app.name);
    LatestAtIs(v.rows, b, Running, if b == app.name then |w.rows| else LatestAt(w.rows, b, Running));
  }

  lemma DeployedKeepsTable(w: World, v: World, app: App, scheduled: bool, origin: string, cs: seq<Container>)
    requires TableOk(w.rows) && Deployed(w, v, app, scheduled, origin, cs)
    ensures TableOk(v.rows) && NextId(w.rows) == |w.rows| + 1
  {
    MaxIdIsLength(w.rows);
    SupersededRows(w.rows, app.name);
  }

  lemma DeployedIsOwnFlip(w: World, v: World, owner: string -> string, app: App, scheduled: bool, origin: string,
      cs: seq<Container>)
    requires Inv(w, owner) && Deployed(w, v, app, scheduled, origin, cs)
    ensures OwnFlip(w, v, app.name, app.domain, Replicas(w.nextCid, cs, app.port), cs, CurrentCids(w.rows, app.name))
  {
    hide TableOk, RowsOk, RoutesOk, ContainersOk, CurrentCids, RowFor, Superseded;
    CurrentIsOwn(w, owner, app.name);
  }

  lemma NewRowIsGood(v: World, owner: string -> string, app: App, scheduled: bool, origin: string, id: nat,
      first: nat, cs: seq<Container>)
    requires Admissible(app, scheduled, origin, owner) && StartedFor(app, id, cs) && Pinned(app, scheduled, cs)
    requires v.nextCid == first + |cs| && id in v.origin && v.origin[id] == origin
    ensures GoodRow(v, owner, RowFor(app, id, scheduled, Replicas(first, cs, app.port)))
  {
    hide ValidSpec;
    forall k | 0 <= k < |cs| ensures cs[k] in cs { }
  }

  lemma NewRowIsLive(w: World, v: World, app: App, id: nat, scheduled: bool, cs: seq<Container>, former: set<nat>)
    requires ContainersOk(w) && cs != [] && forall k | 0 <= k < |cs| :: cs[k].image == app.image
    requires Flipped(w, v, app.domain, Replicas(w.nextCid, cs, app.port), cs, former)
    ensures LiveRow(v, RowFor(app, id, scheduled, Replicas(w.nextCid, cs, app.port)))
  {
    forall k | 0 <= k < |cs| ensures Lodged(v, Replicas(w.nextCid, cs, app.port)[k], app) {
      FreshIsLodged(w, v, cs, former, k, app);
    }
  }

  /** The rows of the other apps, and this app's retired ones, are as good and as live as before. */
  lemma DeployedKeepsRow(w: World, v: World, owner: string -> string, app: App, scheduled: bool, origin: string,
      cs: seq<Container>, i: nat)
    requires TableOk(w.rows) && RowsOk(w, owner) && RoutesOk(w, owner) && owner(app.domain) == app.name
    requires Deployed(w, v, app, scheduled, origin, cs) && i < |w.rows|
    requires OwnFlip(w, v, app.name, app.domain, Replicas(w.nextCid, cs, app.port), cs, CurrentCids(w.rows, app.name))
    ensures v.rows[i].status != Failed ==> GoodRow(v, owner, v.rows[i])
    ensures v.rows[i].status == Running ==> LiveRow(v, v.rows[i])
  {
    hide ValidSpec, CurrentCids, Superseded, RoutesOk, OwnFlip, LiveRow, StartedFor;
    assert NextId(w.rows) == |w.rows| + 1 by { MaxIdIsLength(w.rows); }
    hide NextId;
    SupersededRows(w.rows, app.name);
    if v.rows[i].status == Running {
      FlipKeepsOthers(w, v, owner, app.domain, Replicas(w.nextCid, cs, app.port), cs, CurrentCids(w.rows, app.name),
        w.rows[i]);
    }
  }

  lemma DeployedKeepsContainers(w: World, v: World, app: App, scheduled: bool, origin: string, cs: seq<Container>)
    requires TableOk(w.rows) && ContainersOk(w) && Deployed(w, v, app, scheduled, origin, cs)
    requires OwnFlip(w, v, app.name, app.domain, Replicas(w.nextCid, cs, app.port), cs, CurrentCids(w.rows, app.name))
    ensures ContainersOk(v)
  {
    var replicas := Replicas(w.nextCid, cs, app.port);
    forall b ensures CurrentCids(v.rows, b) == if b == app.name then Cids(replicas) else CurrentCids(w.rows, b) {
      DeployedCurrent(w, v, app, scheduled, origin, cs, b);
    }
    hide Deployed, CurrentCids, TableOk, ContainersOk, OwnFlip;
    forall id | w.nextCid <= id < w.nextCid + |cs| ensures id in Cids(replicas) {
      assert replicas[id - w.nextCid].cid == id;
    }
    FlipKeepsContainers(w, v, app.name, app.domain, replicas, cs, CurrentCids(w.rows, app.name));
  }

  /** A deploy keeps the invariant. */
  lemma DeployedKeepsInv(w: World, v: World, owner: string -> string, app: App, scheduled: bool, origin: string,
      cs: seq<Container>)
    requires Inv(w, owner) && Admissible(app, scheduled, origin, owner)
    requires Deployed(w, v, app, scheduled, origin, cs) && Pinned(app, scheduled, cs)
    ensures Inv(v, owner)
  {
    hide GoodRow, LiveRow, RoutesOk, ContainersOk, OwnFlip;
    var id, replicas, former := NextId(w.rows), Replicas(w.nextCid, cs, app.port), CurrentCids(w.rows, app.name);
    DeployedKeepsTable(w, v, app, scheduled, origin, cs);
    DeployedIsOwnFlip(w, v, owner, app, scheduled, origin, cs);
    NewRowIsGood(v, owner, app, scheduled, origin, id, w.nextCid, cs);
    NewRowIsLive(w, v, app, id, scheduled, cs, former);
    forall i | 0 <= i < |w.rows| {
      DeployedKeepsRow(w, v, owner, app, scheduled, origin, cs, i);
    }
    FlipKeepsRoutes(w, v, owner, app.domain, replicas, cs, former);
    DeployedKeepsContainers(w, v, app, scheduled, origin, cs);
  }

  // ---------------------------------------------------------------- in-place updates

  lemma {:induction false} PatchEntries(replicas: seq<Replica>, idxs: seq<nat>, news: seq<Replica>)
    requires |idxs| == |news| && Increasing(idxs) && forall k | 0 <= k < |idxs| :: idxs[k] < |replicas|
    ensures forall k | 0 <= k < |idxs| :: Patch(replicas, idxs, news)[idxs[k]] == news[k]
    ensures forall j | 0 <= j < |replicas| && j !in idxs :: Patch(replicas, idxs, news)[j] == replicas[j]
  {
    if idxs != [] {
      var n := |idxs| - 1;
      PatchEntries(replicas, idxs[..n], news[..n]);
      assert idxs == idxs[..n] + [idxs[n]];
      forall k | 0 <= k < n ensures Patch(replicas, idxs, news)[idxs[k]] == news[k] {
        assert idxs[..n][k] == idxs[k];
      }
    }
  }

  /** The row an in-place update leaves behind. */
  function PatchedRow(cur: Deployment, idxs: seq<nat>, news: seq<Replica>): Deployment
    requires |idxs| == |news| && cur.replicas != [] && forall k | 0 <= k < |idxs| :: idxs[k] < |cur.replicas|
  {
    var replicas := Patch(cur.replicas, idxs, news);
    cur.(replicas := replicas, containerId := Some(replicas[0].cid))
  }

  lemma PatchedTable(w: World, v: World, cur: Deployment, idxs: seq<nat>, cs: seq<Container>)
    requires TableOk(w.rows) && Current(w.rows, cur.app) == Some(cur) && Patched(w, v, cur, idxs, cs)
    ensures TableOk(v.rows) && |v.rows| == |w.rows| && 1 <= cur.id <= |w.rows|
    ensures v.rows == w.rows[cur.id - 1 := PatchedRow(cur, idxs, Replicas(w.nextCid, cs, cur.spec.value.port))]
  {
    hide LatestAt;
    assert w.rows[LatestAt(w.rows, cur.app, Running)].id == LatestAt(w.rows, cur.app, Running) + 1;
  }

  lemma PatchedCurrent(w: World, v: World, cur: Deployment, idxs: seq<nat>, cs: seq<Container>, b: string)
    requires TableOk(w.rows) && Current(w.rows, cur.app) == Some(cur) && Patched(w, v, cur, idxs, cs)
    ensures Current(v.rows, b) ==
      if b == cur.app then Some(PatchedRow(cur, idxs, Replicas(w.nextCid, cs,
        cur.spec.value.port))) else Current(w.rows, b)
  {
    PatchedTable(w, v, cur, idxs, cs);
    hide Patched;
    assert w.rows[LatestAt(w.rows, cur.app, Running)].id == LatestAt(w.rows, cur.app, Running) + 1;
    LatestAtIs(v.rows, b, Running, LatestAt(w.rows, b, Running));
  }

  /** Entry `j` of a patched set: untouched, or the fresh container that took its place. */
  lemma PatchCases(replicas: seq<Replica>, idxs: seq<nat>, news: seq<Replica>, j: nat)
    requires |idxs| == |news| && Increasing(idxs) && (forall k | 0 <= k < |idxs| :: idxs[k] < |replicas|)
    requires j < |replicas|
    ensures (j !in idxs && Patch(replicas, idxs, news)[j] == replicas[j])
         || exists k :: 0 <= k < |idxs| && idxs[k] == j && Patch(replicas, idxs, news)[j] == news[k]
  {
    PatchEntries(replicas, idxs, news);
  }

  lemma PatchedDistinct(replicas: seq<Replica>, idxs: seq<nat>, first: nat, cs: seq<Container>, port: int)
    requires |idxs| == |cs| && Increasing(idxs) && (forall k | 0 <= k < |idxs| :: idxs[k] < |replicas|)
    requires DistinctCids(replicas) && forall k | 0 <= k < |replicas| :: replicas[k].cid < first
    ensures DistinctCids(Patch(replicas, idxs, Replicas(first, cs, port)))
  {
    var news := Replicas(first, cs, port);
    forall i, j | 0 <= i < j < |replicas|
      ensures Patch(replicas, idxs, news)[i].cid != Patch(replicas, idxs, news)[j].cid {
      PatchCases(replicas, idxs, news, i);
      PatchCases(replicas, idxs, news, j);
    }
  }

  /** Only a scheduled row's replicas may change node. */
  ghost predicate KeepsPin(cur: Deployment, idxs: seq<nat>, cs: seq<Container>)
    requires |idxs| == |cs| && forall k | 0 <= k < |idxs| :: idxs[k] < |cur.replicas|
  {
    !cur.scheduled ==> InPlace(cur, idxs, cs)
  }

  lemma PatchedRowIsGood(w: World, v: World, owner: string -> string, cur: Deployment, idxs: seq<nat>,
      cs: seq<Container>)
    requires GoodRow(w, owner, cur)
    requires |idxs| == |cs| && Increasing(idxs) && (forall k | 0 <= k < |idxs| :: idxs[k] < |cur.replicas|)
    requires (forall k | 0 <= k < |cs| :: cs[k].node != "") && KeepsPin(cur, idxs, cs)
    requires v.nextCid == w.nextCid + |cs| && v.origin == w.origin
    ensures GoodRow(v, owner, PatchedRow(cur, idxs, Replicas(w.nextCid, cs, cur.spec.value.port)))
  {
    hide ValidSpec;
    var news := Replicas(w.nextCid, cs, cur.spec.value.port);
    PatchedDistinct(cur.replicas, idxs, w.nextCid, cs, cur.spec.value.port);
    var row := PatchedRow(cur, idxs, news);
    forall j | 0 <= j < |row.replicas|
      ensures row.replicas[j].cid < v.nextCid && row.replicas[j].node != ""
      ensures !row.scheduled ==> row.replicas[j].node == v.origin[row.id]
    {
      PatchCases(cur.replicas, idxs, news, j);
    }
  }

  lemma UnpatchedCid(replicas: seq<Replica>, idxs: seq<nat>, j: nat)
    requires (forall k | 0 <= k < |idxs| :: idxs[k] < |replicas|) && DistinctCids(replicas) && j < |replicas|
    requires j !in idxs
    ensures replicas[j].cid !in CidsAt(replicas, idxs)
  {
  }

  lemma PatchedEntryIsLodged(w: World, v: World, replicas: seq<Replica>, idxs: seq<nat>, cs: seq<Container>, spec: App,
      j: nat)
    requires |idxs| == |cs| && Increasing(idxs) && (forall k | 0 <= k < |idxs| :: idxs[k] < |replicas|)
    requires j < |replicas|
    requires DistinctCids(replicas) && replicas[j].cid < w.nextCid && Lodged(w, replicas[j], spec)
    requires forall id | id in w.leaks || id in w.containers :: id < w.nextCid
    requires Swapped(w, v, cs, CidsAt(replicas, idxs)) && forall k | 0 <= k < |cs| :: cs[k].image == spec.image
    ensures Lodged(v, Patch(replicas, idxs, Replicas(w.nextCid, cs, spec.port))[j], spec)
  {
    hide Patch, Increasing, Swapped, Lodged, DistinctCids, CidsAt;
    PatchCases(replicas, idxs, Replicas(w.nextCid, cs, spec.port), j);
    if j !in idxs {
      UnpatchedCid(replicas, idxs, j);
      UntouchedStaysLodged(w, v, cs, CidsAt(replicas, idxs), replicas[j], spec);
    } else {
      var k :| 0 <= k < |idxs| && Patch(replicas, idxs, Replicas(w.nextCid, cs, spec.port))[j] ==
        Replicas(w.nextCid, cs, spec.port)[k];
      FreshIsLodged(w, v, cs, CidsAt(replicas, idxs), k, spec);
    }
  }

  lemma PatchedRowIsLive(w: World, v: World, owner: string -> string, cur: Deployment, idxs: seq<nat>,
      cs: seq<Container>)
    requires ContainersOk(w) && GoodRow(w, owner, cur) && LiveRow(w, cur)
    requires forall k | 0 <= k < |cs| :: cs[k].image == cur.image
    requires |idxs| == |cs| && Increasing(idxs) && (forall k | 0 <= k < |idxs| :: idxs[k] < |cur.replicas|)
    requires Flipped(w, v, cur.spec.value.domain, Patch(cur.replicas, idxs,
      Replicas(w.nextCid, cs, cur.spec.value.port)), cs, CidsAt(cur.replicas, idxs))
    ensures LiveRow(v, PatchedRow(cur, idxs, Replicas(w.nextCid, cs, cur.spec.value.port)))
  {
    hide ValidSpec, Patch, Increasing, Claimed;
    forall j | 0 <= j < |cur.replicas|
      ensures Lodged(v, Patch(cur.replicas, idxs, Replicas(w.nextCid, cs, cur.spec.value.port))[j], cur.spec.value)
    {
      PatchedEntryIsLodged(w, v, cur.replicas, idxs, cs, cur.spec.value, j);
    }
  }

  lemma PatchedEntryIsOwn(w: World, v: World, domain: string, cur: Deployment, idxs: seq<nat>, cs: seq<Container>,
      port: int, j: nat)
    requires |idxs| == |cs| && Increasing(idxs) && (forall k | 0 <= k < |idxs| :: idxs[k] < |cur.replicas|)
    requires j < |cur.replicas|
    requires Flipped(w, v, domain, Patch(cur.replicas, idxs, Replicas(w.nextCid, cs, port)), cs,
      CidsAt(cur.replicas, idxs))
    requires (forall k | 0 <= k < |cs| :: cs[k].app == cur.app) && OwnEntry(w, cur.replicas[j], cur.app)
    ensures OwnEntry(v, Patch(cur.replicas, idxs, Replicas(w.nextCid, cs, port))[j], cur.app)
  {
    PatchCases(cur.replicas, idxs, Replicas(w.nextCid, cs, port), j);
    hide Patch, RouteTo, Increasing, CidsAt;
  }

  lemma CurrentEntriesAreOwn(w: World, owner: string -> string, app: string)
    requires Inv(w, owner) && Current(w.rows, app).Some?
    ensures forall k | 0 <= k < |Current(w.rows, app).value.replicas| ::
      OwnEntry(w, Current(w.rows, app).value.replicas[k], app)
  {
    hide ContainersOk, ValidSpec, LatestAt;
    CurrentIsLive(w, owner, app);
    var cur := Current(w.rows, app).value;
    forall k | 0 <= k < |cur.replicas| ensures OwnEntry(w, cur.replicas[k], app) {
      assert OwnEntry(w, w.serving[cur.spec.value.domain][k], owner(cur.spec.value.domain));
    }
  }

  lemma PatchedIsOwnFlip(w: World, v: World, owner: string -> string, cur: Deployment, idxs: seq<nat>,
      cs: seq<Container>)
    requires Inv(w, owner) && Current(w.rows, cur.app) == Some(cur) && Patched(w, v, cur, idxs, cs)
    ensures OwnFlip(w, v, cur.app, cur.spec.value.domain,
      Patch(cur.replicas, idxs, Replicas(w.nextCid, cs, cur.spec.value.port)), cs, CidsAt(cur.replicas, idxs))
  {
    hide TableOk, RowsOk, RoutesOk, ContainersOk, LatestAt, ValidSpec, Patch, Increasing, Flipped, PatchedRow,
      WithReplicas, LiveRow;
    CurrentIsLive(w, owner, cur.app);
    CurrentIsOwn(w, owner, cur.app);
    CurrentEntriesAreOwn(w, owner, cur.app);
    forall j | 0 <= j < |cur.replicas|
      ensures OwnEntry(v, Patch(cur.replicas, idxs, Replicas(w.nextCid, cs, cur.spec.value.port))[j], cur.app)
    {
      PatchedEntryIsOwn(w, v, cur.spec.value.domain, cur, idxs, cs, cur.spec.value.port, j);
    }
    forall id | id in CidsAt(cur.replicas, idxs) ensures id in Cids(cur.replicas) { }
  }

  lemma PatchedKeepsContainers(w: World, v: World, cur: Deployment, idxs: seq<nat>, cs: seq<Container>)
    requires TableOk(w.rows) && ContainersOk(w) && Current(w.rows, cur.app) == Some(cur) && Patched(w, v, cur, idxs, cs)
    requires OwnFlip(w, v, cur.app, cur.spec.value.domain,
      Patch(cur.replicas, idxs, Replicas(w.nextCid, cs, cur.spec.value.port)), cs, CidsAt(cur.replicas, idxs))
    ensures ContainersOk(v)
  {
    hide RouteTo, Patch;
    var news := Replicas(w.nextCid, cs, cur.spec.value.port);
    var replicas := Patch(cur.replicas, idxs, news);
    forall b ensures CurrentCids(v.rows, b) == if b == cur.app then Cids(replicas) else CurrentCids(w.rows, b) {
      PatchedCurrent(w, v, cur, idxs, cs, b);
    }
    assert CurrentCids(w.rows, cur.app) == Cids(cur.replicas);
    PatchEntries(cur.replicas, idxs, news);
    assert |idxs| == |cs| && Increasing(idxs);
    hide Patched, CurrentCids, TableOk, ContainersOk, OwnFlip, Current, Increasing, Patch;
    forall id | id in Cids(cur.replicas) ensures id in CidsAt(cur.replicas, idxs) || id in Cids(replicas) {
      var j :| 0 <= j < |cur.replicas| && cur.replicas[j].cid == id;
      if j !in idxs { assert replicas[j].cid == id; }
    }
    forall id | w.nextCid <= id < w.nextCid + |cs| ensures id in Cids(replicas) {
      assert replicas[idxs[id - w.nextCid]].cid == id;
    }
    FlipKeepsContainers(w, v, cur.app, cur.spec.value.domain, replicas, cs, CidsAt(cur.replicas, idxs));
  }

  lemma PatchedKeepsRow(w: World, v: World, owner: string -> string, cur: Deployment, idxs: seq<nat>,
      cs: seq<Container>, i: nat)
    requires TableOk(w.rows) && RowsOk(w, owner) && RoutesOk(w, owner) && GoodRow(w, owner, cur)
    requires Current(w.rows, cur.app) == Some(cur) && Patched(w, v, cur, idxs, cs) && i < |w.rows| && i != cur.id - 1
    requires OwnFlip(w, v, cur.app, cur.spec.value.domain,
      Patch(cur.replicas, idxs, Replicas(w.nextCid, cs, cur.spec.value.port)), cs, CidsAt(cur.replicas, idxs))
    ensures v.rows[i].status != Failed ==> GoodRow(v, owner, v.rows[i])
    ensures v.rows[i].status == Running ==> LiveRow(v, v.rows[i])
  {
    hide ValidSpec, RoutesOk, OwnFlip, LiveRow, Patch, LatestAt, Increasing, WithReplicas, PatchedRow;
    PatchedTable(w, v, cur, idxs, cs);
    var news := Replicas(w.nextCid, cs, cur.spec.value.port);
    assert v.rows[i] == w.rows[i];
    if v.rows[i].status == Running {
      assert w.rows[cur.id - 1] == cur by { CurrentIsLive(w, owner, cur.app); }
      FlipKeepsOthers(w, v, owner, cur.spec.value.domain, Patch(cur.replicas, idxs, news), cs,
        CidsAt(cur.replicas, idxs), w.rows[i]);
    }
  }

  /** An in-place update keeps the invariant. */
  lemma PatchedKeepsInv(w: World, v: World, owner: string -> string, cur: Deployment, idxs: seq<nat>,
      cs: seq<Container>)
    requires Inv(w, owner) && Current(w.rows, cur.app) == Some(cur)
    requires Patched(w, v, cur, idxs, cs) && KeepsPin(cur, idxs, cs)
    ensures Inv(v, owner)
  {
    hide LiveRow, RoutesOk, ContainersOk, OwnFlip, ValidSpec, TableOk, Patch, Latest;
    CurrentIsLive(w, owner, cur.app);
    PatchedTable(w, v, cur, idxs, cs);
    PatchedIsOwnFlip(w, v, owner, cur, idxs, cs);
    PatchedRowIsGood(w, v, owner, cur, idxs, cs);
    PatchedRowIsLive(w, v, owner, cur, idxs, cs);
    forall i | 0 <= i < |w.rows| && i != cur.id - 1 {
      PatchedKeepsRow(w, v, owner, cur, idxs, cs, i);
    }
    FlipKeepsRoutes(w, v, owner, cur.spec.value.domain, Patch(cur.replicas, idxs,
      Replicas(w.nextCid, cs, cur.spec.value.port)), cs, CidsAt(cur.replicas, idxs));
    PatchedKeepsContainers(w, v, cur, idxs, cs);
  }

  // ---------------------------------------------------------------- removal

  lemma RemovedKeepsLive(w: World, v: World, owner: string -> string, app: string, dropped: bool, row: Deployment)
    requires RoutesOk(w, owner) && Removed(w, v, app, dropped) && GoodRow(w, owner, row) && LiveRow(w, row)
    requires row.app != app
    requires forall id | id in CurrentCids(w.rows, app) && id in w.containers :: w.containers[id].app == app
    requires dropped ==> owner(Current(w.rows, app).value.spec.value.domain) == app
    ensures LiveRow(v, row)
  {
    hide ValidSpec, LatestAt, Superseded, CurrentCids, Current;
    forall k | 0 <= k < |row.replicas| ensures Lodged(v, row.replicas[k], row.spec.value) {
      assert Lodged(w, row.replicas[k], row.spec.value);
      assert OwnEntry(w, w.serving[row.spec.value.domain][k], row.app);
    }
  }

  lemma RemovedKeepsRow(w: World, v: World, owner: string -> string, app: string, dropped: bool, i: nat)
    requires Inv(w, owner) && Removed(w, v, app, dropped) && i < |w.rows|
    ensures v.rows[i].status != Failed ==> GoodRow(v, owner, v.rows[i])
    ensures v.rows[i].status == Running ==> LiveRow(v, v.rows[i])
  {
    hide ValidSpec, ContainersOk, LatestAt, LiveRow, RoutesOk;
    SupersededRows(w.rows, app);
    CurrentIsOwn(w, owner, app);
    if Current(w.rows, app).Some? { CurrentIsLive(w, owner, app); }
    hide Superseded, CurrentCids;
    if v.rows[i].status == Running {
      RemovedKeepsLive(w, v, owner, app, dropped, w.rows[i]);
    }
  }

  lemma RemovedKeepsContainers(w: World, v: World, app: string, dropped: bool)
    requires TableOk(w.rows) && ContainersOk(w) && Removed(w, v, app, dropped)
    ensures ContainersOk(v)
  {
    forall b ensures b != app ==> CurrentCids(v.rows, b) == CurrentCids(w.rows, b) {
      SupersededCurrent(w.rows, app, b);
    }
    hide CurrentCids, Superseded, LatestAt;
    forall id | id in v.containers ensures id in v.leaks || Claimed(v, id) {
      assert id in w.leaks || Claimed(w, id);
    }
  }

  /** Removing an app keeps the invariant, and so does giving up half way. */
  lemma RemovedKeepsInv(w: World, v: World, owner: string -> string, app: string, dropped: bool)
    requires Inv(w, owner) && Removed(w, v, app, dropped)
    ensures Inv(v, owner)
  {
    hide GoodRow, LiveRow, ContainersOk, LatestAt;
    SupersededRows(w.rows, app);
    forall i | 0 <= i < |w.rows| {
      RemovedKeepsRow(w, v, owner, app, dropped, i);
    }
    RemovedKeepsContainers(w, v, app, dropped);
    hide Superseded, CurrentCids, RowsOk;
    forall d, k | d in v.serving && 0 <= k < |v.serving[d]| ensures OwnEntry(v, v.serving[d][k], owner(d)) {
      assert OwnEntry(w, w.serving[d][k], owner(d));
    }
  }

  lemma RemoveAbortedKeepsInv(w: World, v: World, owner: string -> string, app: string)
    requires Inv(w, owner) && RemoveAborted(w, v, app)
    ensures Inv(v, owner)
  {
    hide ValidSpec, LatestAt, TableOk, CurrentCids;
    forall i | 0 <= i < |w.rows| && w.rows[i].status == Running ensures LiveRow(v, v.rows[i]) {
      assert LiveRow(w, w.rows[i]) && GoodRow(w, owner, w.rows[i]);
      forall k | 0 <= k < |w.rows[i].replicas| ensures Lodged(v, w.rows[i].replicas[k], w.rows[i].spec.value) {
        assert Lodged(w, w.rows[i].replicas[k], w.rows[i].spec.value);
      }
    }
    forall d, k | d in v.serving && 0 <= k < |v.serving[d]| ensures OwnEntry(v, v.serving[d][k], owner(d)) {
      assert OwnEntry(w, w.serving[d][k], owner(d));
    }
    forall id | id in v.containers ensures id in v.leaks || Claimed(v, id) {
      assert id in w.leaks || Claimed(w, id);
    }
  }
}
