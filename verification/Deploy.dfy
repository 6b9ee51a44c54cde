/**
  `deployReplicaSet` and its clean-ups (internal/reconciler/reconciler.go:924-1185): start a whole new set
  beside the old one, stage and health-gate it, flip the route, retire the old set.
*/
module Deploy {
  import opened Prelude
  import opened Schedule
  import opened Model
  import opened Transitions
  import opened Control
  import opened Effects
  import opened Runs
  import Fleet

  // ---------------------------------------------------------------- targets

  datatype Target = Target(name: string, mesh: string)

  function NamesOf(targets: seq<Target>): (r: seq<string>)
    ensures |r| == |targets| && forall i | 0 <= i < |r| :: r[i] == targets[i].name
  {
    seq(|targets|, i requires 0 <= i < |targets| => targets[i].name)
  }

  /** The loop that settles every replica's node before anything is started. */
  method ResolveTargets(r: Reconciler, app: App, scheduled: bool, mesh: string, views: nat -> View)
    returns (res: Result<seq<Target>, Failure>)
    requires app.node != "" && r.fleet.Resolved(app.node, mesh)
    requires forall k: nat :: WellFormed(views(k))
    ensures res.Ok? ==>
      && |res.value| == Count(app)
      && InlineTargets(views, 1, app, scheduled, [app.node], Count(app)) == Ok(NamesOf(res.value))
      && forall i | 0 <= i < Count(app) ::
        res.value[i].name != "" && r.fleet.Resolved(res.value[i].name, res.value[i].mesh)
    ensures res.Err? ==> res.error in {ReplicaUnplaced, ReplicaResolve, ReplicaNetwork}
    ensures res == Err(ReplicaUnplaced) ==> InlineTargets(views, 1, app, scheduled, [app.node], Count(app)).Err?
    ensures r.Sound() && res.Err? ==> res.error == ReplicaUnplaced
  {
    hide PlaceIn;
    var count := Count(app);
    var targets, chosen, t := [Target(app.node, mesh)], [app.node], 1;
    while |targets| < count
      invariant 1 <= |targets| == |chosen| <= count
      invariant forall i | 0 <= i < |targets| :: chosen[i] == targets[i].name && chosen[i] != ""
      invariant forall i | 0 <= i < |targets| :: r.fleet.Resolved(targets[i].name, targets[i].mesh)
      invariant InlineTargets(views, 1, app, scheduled, [app.node], count) ==
        InlineTargets(views, t, app, scheduled, chosen, count)
    {
      var name := app.node;
      if scheduled {
        var next := PlaceExcludingSet(views(t), app, chosen);
        if next.Ok? { PlaceInIsOffered(views(t), app, chosen); }
        if next.Err? {
          t := t + 1;
          next := PlaceExcludingSet(views(t), app, []);
          if next.Err? {
            return Err(ReplicaUnplaced);
          }
          PlaceInIsOffered(views(t), app, []);
        }
        t := t + 1;
        name := next.value;
      }
      var m := r.fleet.ResolveMeta(name);
      if m.None? {
        return Err(ReplicaResolve);
      }
      var networked := r.fleet.Attempt();
      if !networked {
        return Err(ReplicaNetwork);
      }
      targets, chosen := targets + [Target(name, m.value)], chosen + [name];
    }
    assert chosen == NamesOf(targets);
    res := Ok(targets);
  }

  // ---------------------------------------------------------------- starting the set

  /** The containers started for the first targets, as `deployReplicaSet` starts them. */
  ghost predicate Matches(app: App, deployId: nat, targets: seq<Target>, cs: seq<Container>) {
    |cs| <= |targets| && forall k | 0 <= k < |cs| ::
      && cs[k].node == targets[k].name && cs[k].hostIP == targets[k].mesh
      && cs[k].app == app.name && cs[k].image == app.image && cs[k].name == NameOf(app.name, deployId, Count(app), k)
  }

  lemma StartsNext(app: App, deployId: nat, targets: seq<Target>, first: nat, cs: seq<Container>, c: Container)
    requires Matches(app, deployId, targets, cs) && |cs| < |targets|
    requires c.node == targets[|cs|].name && c.hostIP == targets[|cs|].mesh
    requires c.app == app.name && c.image == app.image && c.name == NameOf(app.name, deployId, Count(app), |cs|)
    ensures Matches(app, deployId, targets, cs + [c])
    ensures Ids(first, |cs + [c]|) == Ids(first, |cs|) + [first + |cs|]
    ensures Replicas(first, cs + [c], app.port) == Replicas(first, cs, app.port) +
      [ReplicaOf(first + |cs|, c, app.port)]
  {
    IdsNext(first, |cs|);
    ReplicasNext(first, cs, c, app.port);
  }

  /** One turn of the loop that starts the set; the image of replica 0 was ensured before. */
  method StartOne(r: Reconciler, app: App, deployId: nat, i: nat, target: Target) returns (failed: Option<Failure>,
      c: Option<Fleet.Started>)
    modifies r`history, r.fleet
    ensures failed.None? ==> c.Some?
    ensures failed.Some? ==> failed.value in {ReplicaImage, RunFailed, Connect}
    ensures r.Sound() ==> failed.None?
    ensures c.None? ==>
      r.State() == old(r.State()) && (r.history == old(r.history) || r.history == old(r.history) + [r.State()])
    ensures c.Some? ==>
      && c.value.id == old(r.State()).nextCid
      && c.value.container == Container(target.name, app.name, app.image, NameOf(app.name, deployId, Count(app), i),
        target.mesh,
        c.value.container.hostPort)
      && r.State() == old(r.State()).(
           containers := old(r.State()).containers[c.value.id := c.value.container], nextCid := c.value.id + 1)
      && r.history == old(r.history) + [r.State()]
  {
    if i > 0 {
      var present := r.fleet.Attempt();
      if !present {
        return Some(ReplicaImage), None;
      }
    }
    c := r.Run(target.name, app.name, app.image, NameOf(app.name, deployId, Count(app), i), target.mesh);
    if c.None? {
      return Some(RunFailed), c;
    }
    failed := None;
    if app.backed {
      var connected := r.fleet.Attempt();
      failed := if connected then None else Some(Connect);
    }
  }

  /** The loop that starts the set.  On failure `cs` holds what was started before it. */
  method StartSet(r: Reconciler, app: App, deployId: nat, targets: seq<Target>, ghost w: World)
    returns (failed: Option<Failure>, ids: seq<nat>, replicas: seq<Replica>, ghost cs: seq<Container>)
    requires |targets| == Count(app) && r.State() == w && ContainersOk(w) && Mirrored(w)
    modifies r`history, r.fleet
    ensures Mid(w, r.State(), old(r.history), r.history, deployId, cs, {})
    ensures Matches(app, deployId, targets, cs) && ids == Ids(w.nextCid, |cs|)
    ensures failed.None? ==> |cs| == |targets| && replicas == Replicas(w.nextCid, cs, app.port)
    ensures failed.Some? ==> failed.value in {ReplicaImage, RunFailed, Connect}
    ensures r.Sound() ==> failed.None?
    ensures r.State().healthy == w.healthy
  {
    hide ContainersOk, Mid, ReplicaOf, NameOf, IsLocal;
    failed, ids, replicas, cs := None, [], [], [];
    MidStarts(w, r.history, deployId, {});
    for i := 0 to |targets|
      invariant failed.None? && |cs| == i && ids == Ids(w.nextCid, i) && replicas == Replicas(w.nextCid, cs, app.port)
      invariant Matches(app, deployId, targets, cs) && r.State().healthy == w.healthy
      invariant Mid(w, r.State(), old(r.history), r.history, deployId, cs, {})
    {
      ghost var s, h := r.State(), r.history;
      var c;
      failed, c := StartOne(r, app, deployId, i, targets[i]);
      if c.None? {
        MidSame(w, s, old(r.history), h, deployId, cs, {});
        return;
      }
      MidRuns(w, s, r.State(), old(r.history), h, deployId, cs, {}, c.value.container);
      StartsNext(app, deployId, targets, w.nextCid, cs, c.value.container);
      ids, cs := ids + [c.value.id], cs + [c.value.container];
      if failed.Some? {
        return;
      }
      replicas := replicas + [ReplicaOf(c.value.id, c.value.container, app.port)];
    }
  }

  // ---------------------------------------------------------------- tearing a failed set down

  function FailedRow(app: App, id: nat, cid: Option<nat>): Deployment {
    Deployment(id, app.name, app.image, cid, Failed, Some(app), false, [])
  }

  function First(ids: seq<nat>): Option<nat> {
    if ids == [] then None else Some(ids[0])
  }

  /** What a deploy that failed had started of its set: the first of it. */
  function TriedSet(app: App, cs: seq<Container>): Trial {
    Trial(Count(app), Ids(0, |cs|), cs)
  }

  lemma MatchesAreNamed(rows: seq<Deployment>, app: App, targets: seq<Target>, cs: seq<Container>)
    requires Matches(app, NextId(rows), targets, cs) && |targets| == Count(app)
    ensures WellNamed(rows, app.name, TriedSet(app, cs))
  {
    hide NextId, NameOf;
  }

  /** `recordFailedReplicaSet`: best-effort removal of everything started, then a failed row. */
  method RecordFailedReplicaSet(r: Reconciler, app: App, deployId: nat, targets: seq<Target>, ids: seq<nat>,
                                ghost w: World, ghost h0: seq<World>, ghost cs: seq<Container>)
    requires Mid(w, r.State(), h0, r.history, deployId, cs, {}) && ContainersOk(w) && deployId == NextId(w.rows)
    requires Matches(app, deployId, targets, cs) && |targets| == Count(app) && ids == Ids(w.nextCid, |cs|)
    requires forall k | 0 <= k < |targets| :: targets[k].name != ""
    modifies r`history, r`ahead, r`leaks, r.fleet, r.router, r.store`rows
    ensures CameToNothing(w, r.State(), h0, r.history, app.name, [FailedRow(app, NextId(w.rows), First(ids))],
      TriedSet(app, cs))
    ensures Unstaged(w, r.State(), deployId, r.router.steady)
    ensures r.fleet.reliable ==> r.State().leaks == w.leaks
  {
    hide Clearing, Mid, CameToNothing, Quiet, Current, NextId, ContainersOk;
    MatchesAreNamed(w.rows, app, targets, cs);
    StartedIsOwn(app, deployId, targets, cs);
    hide Matches, WellNamed, TriedSet;
    TearDown(r, deployId, NamesOf(targets), ids, w, h0, cs, {});
    ghost var s, h := r.State(), r.history;
    r.leaks := r.leaks + (r.fleet.containers.Keys - w.containers.Keys);
    var id := r.Record(FailedRow(app, 0, First(ids)));
    SetFails(w, s, r.State(), h0, h, deployId, cs, r.fleet.reliable, app, First(ids));
  }

  lemma StartedIsOwn(app: App, deployId: nat, targets: seq<Target>, cs: seq<Container>)
    requires Matches(app, deployId, targets, cs) && forall k | 0 <= k < |targets| :: targets[k].name != ""
    ensures |cs| <= |NamesOf(targets)| && forall k | 0 <= k < |cs| :: NamesOf(targets)[k] == cs[k].node
    ensures forall k | 0 <= k < |cs| :: cs[k].node != "" && cs[k].app == app.name
  {
    hide NameOf;
  }

  lemma SetFails(w: World, s: World, v: World, h0: seq<World>, h: seq<World>, host: nat, cs: seq<Container>,
      reliable: bool, app: App, cid: Option<nat>)
    requires Clearing(w, s, h0, h, host, cs, {}, |cs|, reliable) && ContainersOk(w)
    requires WellNamed(w.rows, app.name, TriedSet(app, cs))
    requires forall k | 0 <= k < |cs| :: cs[k].node != "" && cs[k].app == app.name
    requires var noted := [FailedRow(app, NextId(w.rows), cid)];
      v == s.(leaks := s.leaks + (s.containers.Keys - w.containers.Keys), rows := s.rows + noted)
    ensures CameToNothing(w, v, h0, h + [v], app.name, [FailedRow(app, NextId(w.rows), cid)], TriedSet(app, cs))
    ensures SameBut(w.staging, v.staging, host) && (reliable ==> v.leaks == w.leaks)
  {
    hide Refused, Before, WellNamed, NextId, ContainersOk, Clearing;
    ClearingRows(w, s, h0, h, host, cs, {}, reliable);
    ClearingEnds(w, s, v, h0, h, host, cs, {}, reliable, app.name, [FailedRow(app, NextId(w.rows), cid)]);
    QuietOn(w, h0, h, v, {});
  }

  // ---------------------------------------------------------------- the whole deploy

  lemma DeployCompletes(w: World, m: World, q: World, v: World, h0: seq<World>, h: seq<World>, app: App,
      scheduled: bool, origin: string, cs: seq<Container>)
    requires Mid(w, m, h0, h, NextId(w.rows), cs, {}) && Vetted(w, m) && StartedFor(app, NextId(w.rows), cs)
    requires forall id | id in CurrentCids(w.rows, app.name) :: id < w.nextCid
    requires var replicas := Replicas(w.nextCid, cs, app.port);
      var routes := m.routes[app.domain := RouteTo(app.domain, replicas)];
      var p := m.(serving := m.serving[app.domain := replicas], routes := routes, caddy := routes, ahead := None,
        staging := q.staging);
      && Shrunk(p, q, CurrentCids(w.rows, app.name))
      && v == q.(rows := Superseded(w.rows, app.name) + [RowFor(app, NextId(w.rows), scheduled, replicas)],
                 leaks := q.leaks + CurrentCids(w.rows, app.name) * q.containers.Keys,
                 heal := q.heal - {app.name},
                 origin := q.origin[NextId(w.rows) := origin])
    ensures Deployed(w, v, app, scheduled, origin, cs)
  {
    hide CurrentCids, Superseded, NextId;
  }

  lemma NoneIsCurrent(rows: seq<Deployment>, app: string)
    ensures Current(rows, app).None? ==> CurrentCids(rows, app) == {}
  {
  }

  /** The retire loop and the status change, as `deployReplicaSet` runs them after a flip. */
  method RetireCurrent(r: Reconciler, app: string, ghost w: World, ghost domain: string, ghost replicas: seq<Replica>)
    requires r.State().rows == w.rows && After(w, r.State(), domain, replicas, CurrentCids(w.rows, app))
    requires forall id | id in CurrentCids(w.rows, app) :: id < w.nextCid
    requires Current(w.rows, app).Some? ==> Located(r.State(), Current(w.rows, app).value.replicas)
    modifies r`history, r.fleet, r.store`rows
    ensures After(w, r.State(), domain, replicas, CurrentCids(w.rows, app))
    ensures Shrunk(old(r.State()), r.State().(rows := w.rows), CurrentCids(w.rows, app))
    ensures r.State().rows == Superseded(w.rows, app)
    ensures old(r.history) <= r.history
    ensures forall i | |old(r.history)| <= i < |r.history| ::
      After(w, r.history[i], domain, replicas, CurrentCids(w.rows, app))
    ensures r.fleet.reliable ==> CurrentCids(w.rows, app) !! r.State().containers.Keys
  {
    hide Draining, Current, After;
    ghost var p := r.State();
    NoneIsCurrent(w.rows, app);
    ShrunkNone(p, CurrentCids(w.rows, app));
    var prev := r.store.CurrentDeployment(app);
    if prev.Some? {
      RetireSet(r, prev.value.replicas);
      DrainedIsAfter(w, p, r.State(), old(r.history), r.history, domain, replicas, prev.value.replicas,
        r.fleet.reliable);
      ghost var s := r.State();
      ShrunkFrame(p, s, CurrentCids(w.rows, app));
      r.store.SetStatus(prev.value.id, Retired);
      AfterSame(w, s, r.State(), domain, replicas, CurrentCids(w.rows, app));
    }
  }

  /** What the retire loop needs: the old set is known, older than the new one, and where its row says. */
  lemma CurrentCanRetire(w: World, owner: string -> string, m: World, p: World, h0: seq<World>, h: seq<World>,
      host: nat, cs: seq<Container>, app: string)
    requires Inv(w, owner) && Mid(w, m, h0, h, host, cs, {}) && p.containers == m.containers
    ensures forall id | id in CurrentCids(w.rows, app) :: id < w.nextCid
    ensures Current(w.rows, app).Some? ==> Located(p, Current(w.rows, app).value.replicas)
  {
    hide Inv, Mid, LatestAt;
    if Current(w.rows, app).Some? {
      CurrentIsLocated(w, owner, app);
      var olds := Current(w.rows, app).value.replicas;
      forall k | 0 <= k < |olds| ensures olds[k].cid < w.nextCid {
        assert olds[k].cid in CurrentCids(w.rows, app);
      }
      LocatedMid(w, m, h0, h, host, cs, {}, olds);
    }
  }

  lemma SupersededNextId(w: World, owner: string -> string, app: string)
    requires Inv(w, owner)
    ensures NextId(Superseded(w.rows, app)) == NextId(w.rows)
  {
    hide RowsOk, RoutesOk, ContainersOk;
    SupersededRows(w.rows, app);
    MaxIdIsLength(w.rows);
    MaxIdIsLength(Superseded(w.rows, app));
  }

  lemma FreshCids(first: nat, cs: seq<Container>, port: int)
    ensures forall k | 0 <= k < |cs| :: Replicas(first, cs, port)[k].cid < first + |cs|
  {
  }

  lemma SomeStarted(app: App, deploy: nat, cs: seq<Container>)
    requires StartedFor(app, deploy, cs)
    ensures |cs| >= 1
  {
  }

  /** The new row, and `resetHeal`. */
  method RecordLive(r: Reconciler, dep: Deployment, ghost origin: string, ghost former: set<nat>)
    requires dep.id == NextId(r.State().rows)
    modifies r, r.store`rows
    ensures r.State() == old(r.State()).(rows := old(r.State()).rows + [dep],
      leaks := old(r.State()).leaks + former * old(r.State()).containers.Keys,
                                         heal := old(r.State()).heal - {dep.app},
                                           origin := old(r.State()).origin[dep.id := origin])
    ensures |r.history| == |old(r.history)| + 1 && old(r.history) <= r.history
    ensures var s := r.history[|old(r.history)|];
      && s.serving == r.State().serving && s.routes == r.State().routes && s.containers == r.State().containers
      && s.caddy == r.State().caddy && s.ahead == r.State().ahead && s.persists == r.State().persists
  {
    hide NextId;
    r.leaks := r.leaks + former * r.fleet.containers.Keys;
    var id := r.Record(dep);
    r.origin := r.origin[id := origin];
    r.heal := r.heal - {dep.app};
  }

  /** Between the flip and the new row: drop staging, retire the old set. */
  method RetireOld(r: Reconciler, app: App, deployId: nat, replicas: seq<Replica>,
                   ghost w: World, ghost m: World, ghost h0: seq<World>, ghost hm: seq<World>, ghost cs: seq<Container>)
    requires Inv(w, r.owner) && Mid(w, m, h0, hm, deployId, cs, {}) && replicas == Replicas(w.nextCid, cs, app.port)
    requires Turned(m, r.State(), app.domain, replicas)
    requires r.history == hm + [r.State()]
    modifies r`history, r`ahead, r.fleet, r.router, r.store`rows
    ensures Shrunk(old(r.State()).(staging := r.State().staging), r.State().(rows := w.rows),
      CurrentCids(w.rows, app.name))
    ensures r.State().rows == Superseded(w.rows, app.name)
    ensures SameBut(old(r.State()).staging, r.State().staging, deployId)
    ensures r.router.steady ==> deployId !in r.State().staging
    ensures After(w, r.State(), app.domain, replicas, CurrentCids(w.rows, app.name)) && hm <= r.history
    ensures forall i | |hm| <= i < |r.history| ::
      After(w, r.history[i], app.domain, replicas, CurrentCids(w.rows, app.name))
    ensures r.fleet.reliable ==> CurrentCids(w.rows, app.name) !! r.State().containers.Keys
  {
    hide Inv, Mid, After, Current, CurrentCids, Superseded, Located, ReplicaOf, Shrunk, RouteTo, Replicas, SameBut;
    FreshCids(w.nextCid, cs, app.port);
    MidFrame(w, m, h0, hm, deployId, cs, {});
    ghost var f := r.State();
    AfterFlip(w, m, f, h0, hm, deployId, cs, {}, app.domain, replicas, CurrentCids(w.rows, app.name));
    r.Unstage(deployId);
    ghost var p := r.State();
    UnstagedInStep(f, p, deployId);
    AfterSame(w, f, p, app.domain, replicas, CurrentCids(w.rows, app.name));
    CurrentCanRetire(w, r.owner, m, p, h0, hm, deployId, cs, app.name);
    RetireCurrent(r, app.name, w, app.domain, replicas);
    ShrunkFrame(p, r.State().(rows := w.rows), CurrentCids(w.rows, app.name));
  }

  /** What follows the flip: drop staging, retire the old set, record the new row, reset the heal state. */
  method Conclude(r: Reconciler, app: App, scheduled: bool, deployId: nat, replicas: seq<Replica>,
                  ghost origin: string, ghost w: World, ghost m: World, ghost h0: seq<World>, ghost hm: seq<World>,
                  ghost cs: seq<Container>)
    returns (dep: Deployment)
    requires Inv(w, r.owner) && Mid(w, m, h0, hm, deployId, cs, {}) && Vetted(w, m) && StartedFor(app, deployId, cs)
    requires deployId == NextId(w.rows) && replicas == Replicas(w.nextCid, cs, app.port)
    requires Turned(m, r.State(), app.domain, replicas)
    requires r.history == hm + [r.State()]
    modifies r, r.fleet, r.router, r.store`rows
    ensures Deployed(w, r.State(), app, scheduled, origin, cs) && Unstaged(w, r.State(), deployId, r.router.steady)
    ensures replicas != [] && dep == RowFor(app, deployId, scheduled, replicas)
    ensures hm <= r.history
    ensures BlueGreen(w, h0, r.history, {}, |hm|, app.domain, replicas, CurrentCids(w.rows, app.name))
    ensures r.fleet.reliable ==> r.State().leaks == w.leaks
  {
    hide Inv, Mid, After, Current, CurrentCids, Superseded, NextId, Deployed, BlueGreen, Quiet, StartedFor, ReplicaOf,
      Shrunk, RouteTo, Replicas, Vetted, Mirrored;
    MidFrame(w, m, h0, hm, deployId, cs, {});
    SomeStarted(app, deployId, cs);
    SupersededNextId(w, r.owner, app.name);
    OldCids(w, r.owner, app.name);
    ghost var f, former := r.State(), CurrentCids(w.rows, app.name);
    RetireOld(r, app, deployId, replicas, w, m, h0, hm, cs);
    ghost var q := r.State();
    ShrunkFrame(f.(staging := q.staging), q.(rows := w.rows), former);
    dep := RowFor(app, deployId, scheduled, replicas);
    RecordLive(r, dep, origin, former);
    AfterSame(w, q, r.history[|r.history| - 1], app.domain, replicas, former);
    TurnsGreen(w, h0, hm, r.history, {}, app.domain, replicas, former);
    DeployCompletes(w, m, q.(rows := w.rows), r.State(), h0, hm, app, scheduled, origin, cs);
  }

  lemma OldCids(w: World, owner: string -> string, app: string)
    requires Inv(w, owner)
    ensures forall id | id in CurrentCids(w.rows, app) :: id < w.nextCid
  {
    if Current(w.rows, app).Some? {
      CurrentIsLocated(w, owner, app);
    }
  }

  /** A deploy went live: the new generation, all of it gated, replaced the old one blue-green, `flip` effects in. */
  ghost predicate WentLive(w: World, v: World, h0: seq<World>, h: seq<World>, app: App, scheduled: bool,
      origin: string, cs: seq<Container>, flip: nat) {
    && Deployed(w, v, app, scheduled, origin, cs) && Pinned(app, scheduled, cs)
    && BlueGreen(w, h0, h, {}, flip, app.domain, Replicas(w.nextCid, cs, app.port), CurrentCids(w.rows, app.name))
    && PassedGate(w.nextCid, h0, h, NextId(w.rows), cs, app.port, flip)
  }

  /** A deploy failed without a trace but for `noted`, and nothing that served was touched on the way. */
  ghost predicate CameToNothing(w: World, v: World, h0: seq<World>, h: seq<World>, app: string, noted: seq<Deployment>,
      tried: Trial) {
    Refused(w, v, app, {}, noted) && Left(w, v, app, tried) && v.heal == w.heal && Quiet(w, h0, h, {})
  }

  lemma NothingYet(w: World, h: seq<World>, app: string)
    requires ContainersOk(w) && Mirrored(w)
    ensures CameToNothing(w, w, h, h, app, [], Untried)
  {
    hide Claimed;
  }

  lemma StartedMatches(app: App, deployId: nat, targets: seq<Target>, cs: seq<Container>)
    requires Matches(app, deployId, targets, cs) && |cs| == |targets| == Count(app)
    requires forall i | 0 <= i < |targets| :: targets[i].name != ""
    ensures StartedFor(app, deployId, cs) && NodesOf(cs) == NamesOf(targets)
  {
  }

  /** Every container was published on an address that the resolver gave for its own node. */
  lemma ArePublished(fleet: Fleet.Fleet, app: App, deployId: nat, targets: seq<Target>, cs: seq<Container>)
    requires Matches(app, deployId, targets, cs)
    requires forall i | 0 <= i < |targets| :: fleet.Resolved(targets[i].name, targets[i].mesh)
    ensures forall c | c in cs :: fleet.Resolved(c.node, c.hostIP)
  {
    hide NameOf;
    forall c | c in cs ensures fleet.Resolved(c.node, c.hostIP) {
      var k :| 0 <= k < |cs| && cs[k] == c;
    }
  }

  /** A pinned app's replicas are all on its node, whatever the views say. */
  lemma InlineHonoursPin(views: nat -> View, app: App, scheduled: bool, cs: seq<Container>)
    requires InlineTargets(views, 1, app, scheduled, [app.node], Count(app)) == Ok(NodesOf(cs))
    ensures Pinned(app, scheduled, cs)
  {
    if scheduled { return; }
    assert [app.node] == Stack(app.node, 1);
    InlineStacks(views, 1, app, [app.node], Count(app));
    forall c | c in cs ensures c.node == app.node {
      var k :| 0 <= k < |cs| && cs[k] == c;
      assert NodesOf(cs)[k] == c.node;
    }
  }

  /** A deploy's set is all fresh. */
  lemma FreshMerges(w: World, domain: string, cs: seq<Container>, port: int, former: set<nat>)
    ensures Merges(w, domain, Replicas(w.nextCid, cs, port), former)
    ensures Begun(Replicas(w.nextCid, cs, port), w.nextCid + |cs|)
  {
  }

  /** Starting, staging, gating and flipping; `m` is the world just before the flip. */
  method Launch(r: Reconciler, app: App, deployId: nat, targets: seq<Target>, ghost w: World)
    returns (failed: Option<Failure>, ids: seq<nat>, replicas: seq<Replica>, ghost cs: seq<Container>, ghost m: World,
      ghost hm: seq<World>)
    requires |targets| == Count(app) && r.State() == w && ContainersOk(w) && Mirrored(w)
    modifies r`history, r`ahead, r`serving, r.fleet, r.router
    ensures Matches(app, deployId, targets, cs) && ids == Ids(w.nextCid, |cs|)
    ensures failed.Some? ==> Mid(w, r.State(), old(r.history), r.history, deployId, cs, {})
    ensures failed.Some? ==> failed.value in {ReplicaImage, RunFailed, Connect, Staging, Unhealthy, FlipRefused}
    ensures r.Sound() ==> failed.None?
    ensures failed.None? ==>
      && Mid(w, m, old(r.history), hm, deployId, cs, {}) && Vetted(w, m) && |cs| == |targets| &&
        replicas == Replicas(w.nextCid, cs, app.port)
      && Turned(m, r.State(), app.domain, replicas)
      && r.history == hm + [r.State()]
      && PassedGate(w.nextCid, old(r.history), hm, deployId, cs, app.port, |hm|)
  {
    hide Mid, ContainersOk, Matches, RouteTo, Turned, Missed, Vetted, Merges, PassedGate, LeadTo, Mirrored, Unchecked;
    failed, ids, replicas, cs := StartSet(r, app, deployId, targets, w);
    m, hm := r.State(), r.history;
    if failed.Some? {
      return;
    }
    ReplicasLeadTo(w.nextCid, cs, app.port);
    UncheckedYet(w, r.State());
    failed := StageSet(r, deployId, Upstreams(replicas), ids, w, old(r.history), cs, {}, app.port);
    m, hm := r.State(), r.history;
    if failed.Some? {
      return;
    }
    var flipped := r.Flip(app.domain, replicas);
    if !flipped {
      FreshMerges(w, app.domain, cs, app.port, {});
      MidMisses(w, m, r.State(), old(r.history), hm, deployId, cs, {}, app.domain, replicas);
      failed := Some(FlipRefused);
    }
  }

  /** `deployReplicaSet`, from settling the targets to recording the row. */
  method DeployReplicaSet(r: Reconciler, app: App, scheduled: bool, mesh: string, views: nat -> View,
      ghost origin: string)
    returns (res: Result<Deployment, Failure>, ghost cs: seq<Container>, ghost flip: nat, ghost noted: seq<Deployment>,
      ghost tried: Trial)
    requires r.Valid() && Admissible(app, scheduled, origin, r.owner) && r.fleet.Resolved(app.node, mesh)
    requires forall k: nat :: WellFormed(views(k))
    modifies r, r.fleet, r.router, r.store`rows
    ensures r.Valid()
    ensures res.Ok? ==> WentLive(old(r.State()), r.State(), old(r.history), r.history, app, scheduled, origin, cs, flip)
    ensures res.Ok? ==> InlineTargets(views, 1, app, scheduled, [app.node], Count(app)) == Ok(NodesOf(cs))
    ensures res.Ok? ==> Current(r.State().rows, app.name) == Some(res.value)
    ensures res.Err? ==> CameToNothing(old(r.State()), r.State(), old(r.history), r.history, app.name, noted, tried)
    ensures res.Err? ==> (noted == [] <==> res.error in {ReplicaUnplaced, ReplicaResolve, ReplicaNetwork})
    ensures res.Err? && noted != [] ==>
      res.error in {ReplicaImage, RunFailed, Connect, Staging, Unhealthy, FlipRefused}
    ensures noted != [] ==> noted[0].image == app.image && noted[0].spec == Some(app)
    ensures noted != [] ==> noted[0].containerId == if tried.cs == [] then None else Some(old(r.State()).nextCid)
    ensures res.Ok? ==> forall c | c in cs :: r.fleet.Resolved(c.node, c.hostIP)
    ensures r.Sound() ==> (res.Ok? <==> InlineTargets(views, 1, app, scheduled, [app.node], Count(app)).Ok?)
    ensures Unstaged(old(r.State()), r.State(), NextId(old(r.State()).rows), r.router.steady)
    ensures r.fleet.reliable ==> r.State().leaks == old(r.State()).leaks
  {
    hide TableOk, RowsOk, RoutesOk, ContainersOk, Mid, Current, PlaceIn, ValidSpec, InlineTargets, NextId, CurrentCids,
      Deployed, BlueGreen, Pinned, Matches, StartedFor, Refused, Quiet, RouteTo, RowFor, PassedGate;
    ghost var w, h0 := r.State(), r.history;
    cs, flip, noted, tried := [], 0, [], Untried;
    var deployId := r.store.NextDeployID();
    var targets := ResolveTargets(r, app, scheduled, mesh, views);
    if targets.Err? {
      NothingYet(w, h0, app.name);
      return Err(targets.error), cs, flip, noted, tried;
    }
    var failed, ids, replicas;
    ghost var m, hm;
    failed, ids, replicas, cs, m, hm := Launch(r, app, deployId, targets.value, w);
    if failed.Some? {
      RecordFailedReplicaSet(r, app, deployId, targets.value, ids, w, h0, cs);
      noted, tried := [FailedRow(app, NextId(w.rows), First(ids))], TriedSet(app, cs);
      RefusedKeepsInv(w, r.State(), r.owner, app.name, {}, noted);
      return Err(failed.value), cs, flip, noted, tried;
    }
    StartedMatches(app, deployId, targets.value, cs);
    ArePublished(r.fleet, app, deployId, targets.value, cs);
    var dep := Conclude(r, app, scheduled, deployId, replicas, origin, w, m, h0, hm, cs);
    flip := |hm|;
    PassedOn(w.nextCid, h0, hm, r.history, deployId, cs, app.port, flip);
    InlineHonoursPin(views, app, scheduled, cs);
    DeployedKeepsInv(w, r.State(), r.owner, app, scheduled, origin, cs);
    DeployedCurrent(w, r.State(), app, scheduled, origin, cs, app.name);
    res := Ok(dep);
  }
}
