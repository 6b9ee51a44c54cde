/**
  The user's operations on image apps: Apply, Scale and Rollback, each one `deployReplicaSet` away from
  its own preparations (internal/reconciler/reconciler.go, internal/api/api.go).
*/
module Operations {
  import opened Prelude
  import opened Schedule
  import opened Model
  import opened Transitions
  import opened Control
  import opened Effects
  import opened Deploy
  import opened Runs
  import opened Uptime
  import opened Drain
  import opened Calls

  /** Either a new generation went live blue-green, or nothing that served was touched on the way. */
  ghost predicate Outcome(w: World, v: World, h0: seq<World>, h: seq<World>, res: Result<Deployment, Failure>,
      e: Event, flip: nat) {
    match res
    case Ok(dep) =>
      && e.Deploy? && WentLive(w, v, h0, h, e.app, e.scheduled, e.origin, e.cs, flip)
      && Current(v.rows, e.app.name) == Some(dep)
    case Err(f) =>
      && e.Refuse? && e.lost == {} && CameToNothing(w, v, h0, h, e.name, e.noted, e.tried)
      && (f in {Unplaced, Resolve, Secrets, Backing, ReplicaImage, RunFailed, Connect, Staging, Unhealthy,
            FlipRefused} <==>
            e.noted != [])
  }

  /**
    Zero downtime for Apply, Scale, Rollback and single-replica evacuation, whether they succeed or fail:
    at every effect the live route, of the app's own domain and of every other app's, names only
    containers that run, and it is the complete before-set or the complete after-set.
  */
  lemma OutcomeNeverDark(w: World, v: World, owner: string -> string, h0: seq<World>, h: seq<World>,
      res: Result<Deployment, Failure>, e: Event, flip: nat, i: nat, d: string)
    requires Inv(w, owner) && Step(w, v, owner, e) && Outcome(w, v, h0, h, res, e, flip)
    requires |h0| <= i < |h| && d in h[i].serving && (e.Deploy? ==> Watched(d, e.app.domain, owner))
    ensures Lit(w, h[i], d, {})
    ensures h[i].routes == w.routes ||
      (e.Deploy? && h[i].routes == w.routes[e.app.domain := RouteTo(e.app.domain,
        Replicas(w.nextCid, e.cs, e.app.port))])
  {
    hide Inv, Deployed, Refused, BlueGreen, Lit, Pinned, Current, RouteTo, LitEntry, Before, Replicas, CurrentCids,
      ValidSpec;
    if e.Deploy? {
      CurrentIsOwn(w, owner, e.app.name);
      FreshMerges(w, e.app.domain, e.cs, e.app.port, CurrentCids(w.rows, e.app.name));
      NeverDark(w, owner, h0, h, {}, flip, e.app.domain, Replicas(w.nextCid, e.cs, e.app.port),
        CurrentCids(w.rows, e.app.name), i, d);
    } else {
      BeforeIsLit(w, h[i], {}, d);
    }
  }

  /**
    The same of what Caddy itself runs, in step or not when the operation began.  A watched route goes dark
    exactly while a flip that Caddy took and the router could not save is neither committed nor undone,
    and the clean-up has taken its containers down again.
  */
  lemma OutcomeAtCaddy(w: World, v: World, owner: string -> string, h0: seq<World>, h: seq<World>,
      res: Result<Deployment, Failure>, e: Event, flip: nat, i: nat, d: string)
    requires Inv(w, owner) && Step(w, v, owner, e) && Outcome(w, v, h0, h, res, e, flip)
    requires |h0| <= i < |h| && d in h[i].caddy && (e.Deploy? ==> Watched(d, e.app.domain, owner))
    ensures LitAtCaddy(w, h[i], d, {}) <==> !SentToTheGone(w, h[i], d)
    ensures !w.persists ==> LitAtCaddy(w, h[i], d, {})
  {
    hide TableOk, RowsOk, ContainersOk, OwnEntry, Mirrored, Step, Deployed, Refused, Quiet, Pinned, Current, RouteTo,
      LitEntry, Before, After, Replicas, CurrentCids, ValidSpec, SentToTheGone;
    if e.Deploy? && i >= flip {
      AfterIsInStep(w, h[i], e.app.domain, Replicas(w.nextCid, e.cs, e.app.port), CurrentCids(w.rows, e.app.name), d);
      OutcomeNeverDark(w, v, owner, h0, h, res, e, flip, i, d);
      InStepIsLit(w, h[i], d, {});
    } else {
      var quiet := if e.Deploy? then h[..flip] else h;
      assert quiet[i] == h[i];
      CaddyDarkIff(w, owner, h0, quiet, {}, i, d);
    }
  }

  /** How an attempt that never started a container is recorded. */
  method RecordFailure(r: Reconciler, app: App, spec: Option<App>,
      failure: Failure) returns (res: Result<Deployment, Failure>, ghost e: Event)
    requires r.Valid() && Recorded(failure)
    modifies r`history, r.store`rows
    ensures r.Valid() && res == Err(failure)
    ensures e.Refuse? && Subject(e) == app.name
    ensures e.noted == [Deployment(NextId(old(r.State()).rows), app.name, app.image, None, Failed, spec, false, [])]
    ensures Step(old(r.State()), r.State(), r.owner, e)
    ensures Outcome(old(r.State()), r.State(), old(r.history), r.history, res, e, 0)
    ensures r.State() == old(r.State()).(rows := old(r.State()).rows + e.noted)
  {
    ghost var w, h0 := r.State(), r.history;
    var row := Deployment(0, app.name, app.image, None, Failed, spec, false, []);
    var id := r.Record(row);
    e := Refuse(app.name, {}, [row.(id := id)]);
    res := Err(failure);
    NothingBut(w, r.State(), h0, app.name, row.(id := id));
    hide ContainersOk, RowsOk, RoutesOk, TableOk;
    RefusedKeepsInv(w, r.State(), r.owner, app.name, {}, e.noted);
  }

  lemma NothingBut(w: World, v: World, h: seq<World>, app: string, row: Deployment)
    requires ContainersOk(w) && Mirrored(w) && v == w.(rows := w.rows + [row])
    requires row.id == NextId(w.rows) && row.app == app && row.status == Failed
    ensures CameToNothing(w, v, h, h + [v], app, [row], Untried)
  {
    hide Claimed, NextId;
  }

  /** A failure that leaves not even a failed row. */
  lemma NothingAtAll(w: World, owner: string -> string, h: seq<World>, app: string, failure: Failure)
    requires Inv(w, owner) && !Recorded(failure)
    ensures Step(w, w, owner, Refuse(app, {}, [])) && Outcome(w, w, h, h, Err(failure), Refuse(app, {}, []), 0)
  {
    hide TableOk, RowsOk, RoutesOk;
    NothingYet(w, h, app);
  }

  /**
    `applyImageProvenance`.  `force` is its scheduledOverride; `origin` is the node the user's own spec
    named, which for a fresh spec is simply its node.
  */
  method ApplyImageProvenance(r: Reconciler, app: App, force: Option<bool>, views: nat -> View, ghost origin: string)
    returns (res: Result<Deployment, Failure>, ghost e: Event, ghost flip: nat)
    requires r.Valid() && ValidSpec(app) && r.owner(app.domain) == app.name
    requires force.None? ==> origin == app.node
    requires force.Some? ==> app.node != "" && (force.value <==> origin == "") && (!force.value ==> app.node == origin)
    requires forall k: nat :: WellFormed(views(k))
    modifies r, r.fleet, r.router, r.store`rows
    ensures r.Valid() && Step(old(r.State()), r.State(), r.owner, e) && Subject(e) == app.name
    ensures (e.Deploy? || e.Refuse?)
    ensures Outcome(old(r.State()), r.State(), old(r.history), r.history, res, e, flip)
    ensures e.Deploy? ==> e.origin == origin && (force.Some? ==> e.scheduled == force.value && e.app == app)
    ensures e.Deploy? && force.None? ==>
      e.app == app.(node := e.app.node) && DeployPlan(views, app) == Ok(Spread(NodesOf(e.cs), e.scheduled))
    ensures e.Deploy? && force.Some? ==>
      InlineTargets(views, 1, app, e.scheduled, [app.node], Count(app)) == Ok(NodesOf(e.cs))
    ensures e.Refuse? && e.noted != [] ==>
      e.noted[0].image == app.image && (e.noted[0].spec.None? <==> res == Err(Unplaced))
    ensures (res.Err? && res.error in {Unplaced, Resolve, EdgeDown}) || Resynced(old(r.history), r.history)
    ensures res.Err? ==> res.error in {Unplaced, Resolve} || InDeploy(res.error)
    ensures res == Err(Unplaced) <==> app.node == "" && PlaceIn(views(0), app, []).Err?
    ensures e.Deploy? ==> forall c | c in e.cs :: r.fleet.Resolved(c.node, c.hostIP)
    ensures r.Sound() && force.None? ==> (res.Ok? <==> DeployPlan(views, app).Ok?)
    ensures r.Sound() && force.Some? ==>
      (res.Ok? <==> InlineTargets(views, 1, app, force.value, [app.node], Count(app)).Ok?)
    ensures Unstaged(old(r.State()), r.State(), NextId(old(r.State()).rows), r.router.steady)
    ensures r.fleet.reliable ==> r.State().leaks == old(r.State()).leaks
  {
    hide Inv, Step, Outcome, PlaceIn, InlineTargets;
    flip := 0;
    var placement := ResolvePlacement(views(0), app);
    if placement.Err? {
      res, e := RecordFailure(r, app, None, Unplaced);
      return;
    }
    if app.node == "" {
      PlaceInIsOffered(views(0), app, []);
    }
    var scheduled := if force.Some? then force.value else placement.value.scheduled;
    var placed := app.(node := placement.value.node);
    res, e, flip := DeployPlaced(r, placed, scheduled, views, origin);
  }

  /** The failures of a deploy once its own node has resolved. */
  predicate InDeploy(f: Failure) {
    f in {EdgeDown, Network, Image, Secrets, Backing, ReplicaUnplaced, ReplicaResolve, ReplicaNetwork, ReplicaImage,
      RunFailed, Connect, Staging, Unhealthy, FlipRefused}
  }

  /** At the first effect since `h0` Caddy runs what the router has committed. */
  ghost predicate Resynced(h0: seq<World>, h: seq<World>) {
    |h0| < |h| && h[|h0|].ahead == None
  }

  /** The rest of `applyImageProvenance`, from the spec snapshot on. */
  method DeployPlaced(r: Reconciler, app: App, scheduled: bool, views: nat -> View, ghost origin: string)
    returns (res: Result<Deployment, Failure>, ghost e: Event, ghost flip: nat)
    requires r.Valid() && Admissible(app, scheduled, origin, r.owner)
    requires forall k: nat :: WellFormed(views(k))
    modifies r, r.fleet, r.router, r.store`rows
    ensures r.Valid() && Step(old(r.State()), r.State(), r.owner, e) && Subject(e) == app.name
    ensures (e.Deploy? || e.Refuse?)
    ensures Outcome(old(r.State()), r.State(), old(r.history), r.history, res, e, flip)
    ensures e.Deploy? ==> e == Deploy(app, scheduled, origin, e.cs)
    ensures e.Deploy? ==> InlineTargets(views, 1, app, scheduled, [app.node], Count(app)) == Ok(NodesOf(e.cs))
    ensures e.Refuse? && e.noted != [] ==> e.noted[0].image == app.image && e.noted[0].spec == Some(app)
    ensures res.Err? ==> res.error == Resolve || InDeploy(res.error)
    ensures e.Deploy? ==> forall c | c in e.cs :: r.fleet.Resolved(c.node, c.hostIP)
    ensures r.Sound() ==> (res.Ok? <==> InlineTargets(views, 1, app, scheduled, [app.node], Count(app)).Ok?)
    ensures res == Err(Resolve) || res == Err(EdgeDown) || Resynced(old(r.history), r.history)
    ensures Unstaged(old(r.State()), r.State(), NextId(old(r.State()).rows), r.router.steady)
    ensures r.fleet.reliable ==> r.State().leaks == old(r.State()).leaks
  {
    hide Inv, Step, Outcome, ValidSpec, InlineTargets, NextId, Admissible;
    flip := 0;
    var mesh := r.fleet.ResolveMeta(app.node);
    if mesh.None? {
      res, e := RecordFailure(r, app, Some(app), Resolve);
      return;
    }
    ghost var w, h0 := r.State(), r.history;
    var ready := Prepare(r, app);
    ghost var s, h := r.State(), r.history;
    ReloadedKeepsInv(w, s, r.owner);
    res, e, flip := DeployPrepared(r, app, scheduled, ready, mesh.value, views, origin);
    ReloadedFirst(w, s, r.State(), r.owner, h0, r.history, res, e, flip);
  }

  lemma ReloadedKeepsInv(w: World, s: World, owner: string -> string)
    requires Inv(w, owner) && Reloaded(w, s)
    ensures Inv(s, owner)
  {
    hide TableOk, RowsOk, RoutesOk, ContainersOk;
    ContextKeepsInv(w, s, owner);
  }

  /** An operation that begins by sending the committed config again is one operation. */
  lemma ReloadedFirst(w: World, s: World, v: World, owner: string -> string, h0: seq<World>, h: seq<World>,
      res: Result<Deployment, Failure>, e: Event, flip: nat)
    requires Inv(w, owner) && Reloaded(w, s) && Step(s, v, owner, e) && Outcome(s, v, h0 + [s], h, res, e, flip)
    ensures Step(w, v, owner, e) && Outcome(w, v, h0, h, res, e, flip) && |h0| < |h| && h[|h0|] == s
  {
    BeginsWith(s, v, owner, h0, h, res, e, flip);
    if e.Deploy? {
      DeployedSince(w, s, v, e.app, e.scheduled, e.origin, e.cs);
      BlueGreenSince(w, s, h0, h, flip, e.app.domain, Replicas(w.nextCid, e.cs, e.app.port),
        CurrentCids(w.rows, e.app.name));
    } else {
      RefusedSince(w, s, v, owner, e);
      QuietSince(w, s, h0, h);
    }
    hide Reloaded, Deployed, BlueGreen, Quiet, Refused, Left, Tempo, Current, Admissible, Pinned;
  }

  lemma BeginsWith(s: World, v: World, owner: string -> string, h0: seq<World>, h: seq<World>,
      res: Result<Deployment, Failure>, e: Event, flip: nat)
    requires Outcome(s, v, h0 + [s], h, res, e, flip)
    ensures |h0| < |h| && h[|h0|] == s
  {
    hide Deployed, Refused, Left, Pinned, Current, Before, After;
    assert (h0 + [s])[|h0|] == s;
  }

  lemma DeployedSince(w: World, s: World, v: World, app: App, scheduled: bool, origin: string, cs: seq<Container>)
    requires Reloaded(w, s) && Deployed(s, v, app, scheduled, origin, cs)
    ensures Deployed(w, v, app, scheduled, origin, cs)
  {
    hide Mirrored, NextId, StartedFor, Superseded, CurrentCids, RouteTo, RowFor;
  }

  lemma RefusedSince(w: World, s: World, v: World, owner: string -> string, e: Event)
    requires Reloaded(w, s) && e.Refuse? && Step(s, v, owner, e)
    ensures Step(w, v, owner, e) && Refused(w, v, e.name, e.lost, e.noted) && Left(w, v, e.name, e.tried)
  {
    hide Mirrored, NextId, WellNamed, Tempo;
  }

  lemma BeforeSince(w: World, s: World, x: World)
    requires Reloaded(w, s) && Before(s, x, {})
    ensures Before(w, x, {})
  {
    hide Mirrored;
  }

  lemma QuietSince(w: World, s: World, h0: seq<World>, h: seq<World>)
    requires Mirrored(w) && Reloaded(w, s) && Quiet(s, h0 + [s], h, {})
    ensures Quiet(w, h0, h, {})
  {
    forall i | |h0| <= i < |h| ensures Before(w, h[i], {}) {
      if i == |h0| {
        assert h[i] == (h0 + [s])[i];
      } else {
        BeforeSince(w, s, h[i]);
      }
    }
  }

  lemma BlueGreenSince(w: World, s: World, h0: seq<World>, h: seq<World>, flip: nat, domain: string,
      replicas: seq<Replica>, former: set<nat>)
    requires Mirrored(w) && Reloaded(w, s) && BlueGreen(s, h0 + [s], h, {}, flip, domain, replicas, former)
    ensures BlueGreen(w, h0, h, {}, flip, domain, replicas, former)
  {
    hide Mirrored, Quiet, RouteTo;
    QuietSince(w, s, h0, h[..flip]);
  }

  /** From the preparations on: a failed one is recorded or not, and nothing has been started yet. */
  method DeployPrepared(r: Reconciler, app: App, scheduled: bool, ready: Option<Failure>, mesh: string,
      views: nat -> View,
      ghost origin: string)
    returns (res: Result<Deployment, Failure>, ghost e: Event, ghost flip: nat)
    requires r.Valid() && Admissible(app, scheduled, origin, r.owner) && r.fleet.Resolved(app.node, mesh)
    requires ready.Some? ==> ready.value in {EdgeDown, Network, Image, Secrets, Backing}
    requires forall k: nat :: WellFormed(views(k))
    modifies r, r.fleet, r.router, r.store`rows
    ensures r.Valid() && Step(old(r.State()), r.State(), r.owner, e) && Subject(e) == app.name
    ensures (e.Deploy? || e.Refuse?)
    ensures Outcome(old(r.State()), r.State(), old(r.history), r.history, res, e, flip)
    ensures e.Deploy? ==> e == Deploy(app, scheduled, origin, e.cs)
    ensures e.Deploy? ==> InlineTargets(views, 1, app, scheduled, [app.node], Count(app)) == Ok(NodesOf(e.cs))
    ensures e.Refuse? && e.noted != [] ==> e.noted[0].image == app.image && e.noted[0].spec == Some(app)
    ensures ready.Some? ==> res == Err(ready.value)
    ensures res.Err? ==> InDeploy(res.error)
    ensures e.Deploy? ==> forall c | c in e.cs :: r.fleet.Resolved(c.node, c.hostIP)
    ensures r.Sound() && ready.None? ==>
      (res.Ok? <==> InlineTargets(views, 1, app, scheduled, [app.node], Count(app)).Ok?)
    ensures Unstaged(old(r.State()), r.State(), NextId(old(r.State()).rows), r.router.steady)
    ensures r.fleet.reliable ==> r.State().leaks == old(r.State()).leaks
  {
    hide Inv, ValidSpec, Deployed, BlueGreen, Quiet, Pinned, Refused, Left, Current, PlaceIn, InlineTargets, NextId;
    flip := 0;
    if ready.Some? {
      if Recorded(ready.value) {
        res, e := RecordFailure(r, app, Some(app), ready.value);
      } else {
        res, e := Err(ready.value), Refuse(app.name, {}, []);
        NothingAtAll(r.State(), r.owner, r.history, app.name, ready.value);
      }
      return;
    }
    ghost var cs, noted, tried;
    res, cs, flip, noted, tried := DeployReplicaSet(r, app, scheduled, mesh, views, origin);
    e := if res.Ok? then Deploy(app, scheduled, origin, cs) else Refuse(app.name, {}, noted, tried);
  }

  /** Router, network, image, secrets and backing services, in that order. */
  method Prepare(r: Reconciler, app: App) returns (failed: Option<Failure>)
    modifies r`history, r`ahead, r.router
    ensures failed.Some? ==> failed.value in {EdgeDown, Network, Image, Secrets, Backing}
    ensures Reloaded(old(r.State()), r.State()) && r.history == old(r.history) + [r.State()]
    ensures failed != Some(EdgeDown) ==> r.State().ahead == None
    ensures r.Sound() ==> failed.None?
  {
    var edge := r.EnsureUp();
    if !edge { return Some(EdgeDown); }
    var network := r.fleet.Attempt();
    if !network { return Some(Network); }
    var image := r.fleet.Attempt();
    if !image { return Some(Image); }
    var secrets := r.fleet.Attempt();
    if !secrets { return Some(Secrets); }
    if app.backed {
      var up := r.fleet.Attempt();
      if !up { return Some(Backing); }
    }
    failed := None;
  }

  /** `Apply` of an image app. */
  method Apply(r: Reconciler, app: App, views: nat -> View)
    returns (res: Result<Deployment, Failure>, ghost e: Event, ghost flip: nat)
    requires r.Valid() && r.owner(app.domain) == app.name && forall k: nat :: WellFormed(views(k))
    modifies r, r.fleet, r.router, r.store`rows
    ensures r.Valid() && Step(old(r.State()), r.State(), r.owner, e) && Subject(e) == app.name
    ensures Outcome(old(r.State()), r.State(), old(r.history), r.history, res, e, flip)
    ensures res == Err(InvalidSpec) <==>
      || app.name == "" || app.image == "" || app.port == 0
      || app.replicas < 0 || app.replicas > 50 || (app.backed && app.replicas > 1)
      || (app.requirements.Some? && (app.requirements.value.cpu < 0.0 || app.requirements.value.mem < 0))
    ensures res == Err(InvalidSpec) ==> r.State() == old(r.State())
    ensures res.Err? ==> res.error in {InvalidSpec, Unplaced, Resolve} || InDeploy(res.error)
    ensures e.Deploy? ==> forall c | c in e.cs :: r.fleet.Resolved(c.node, c.hostIP)
    ensures r.Sound() && res != Err(InvalidSpec) ==> (res.Ok? <==> DeployPlan(views, app).Ok?)
    ensures Performs(Applying(app, views), [old(r.State()), r.State()], [e])
    ensures r.fleet.reliable ==> r.State().leaks == old(r.State()).leaks
  {
    hide Inv, Outcome, DeployPlan, InlineTargets, Step;
    flip := 0;
    if !ValidSpec(app) {
      res, e := Err(InvalidSpec), Refuse(app.name, {}, []);
      NothingAtAll(r.State(), r.owner, r.history, app.name, InvalidSpec);
      return;
    }
    res, e, flip := ApplyImageProvenance(r, app, None, views, app.node);
  }

  // ---------------------------------------------------------------- replaying a recorded snapshot

  lemma SnapshotIsGood(w: World, owner: string -> string, row: Deployment)
    requires Inv(w, owner) && Snapshot(w, row)
    ensures row.spec.Some? && ValidSpec(row.spec.value) && row.spec.value.node != ""
    ensures row.spec.value.name == row.app && row.spec.value.image == row.image
    ensures owner(row.spec.value.domain) == row.app
    ensures row.id in w.origin && (row.scheduled <==> w.origin[row.id] == "")
    ensures !row.scheduled ==> row.spec.value.node == w.origin[row.id]
  {
    hide RoutesOk, ContainersOk, LiveRow, ValidSpec;
    assert GoodRow(w, owner, w.rows[row.id - 1]);
  }

  lemma CurrentIsSnapshot(w: World, owner: string -> string, app: string)
    requires Inv(w, owner)
    ensures Current(w.rows, app).Some? ==>
      Snapshot(w, Current(w.rows, app).value) && Current(w.rows, app).value.app == app
    ensures Previous(w.rows, app).Some? ==>
      Snapshot(w, Previous(w.rows, app).value) && Previous(w.rows, app).value.app == app
  {
    hide RoutesOk, ContainersOk, RowsOk;
    var i, j := LatestAt(w.rows, app, Running), LatestAt(w.rows, app, Retired);
    assert (i >= 0 ==> w.rows[i].id == i + 1) && (j >= 0 ==> w.rows[j].id == j + 1);
  }

  /** `handleScale` once it has read `cur`: same image and config, a new count, placed afresh if scheduled. */
  method ScaleFrom(r: Reconciler, cur: Deployment, count: int, views: nat -> View)
    returns (res: Result<Deployment, Failure>, ghost e: Event, ghost flip: nat)
    requires r.Valid() && Snapshot(r.State(), cur) && count >= 1 && forall k: nat :: WellFormed(views(k))
    modifies r, r.fleet, r.router, r.store`rows
    ensures r.Valid() && Step(old(r.State()), r.State(), r.owner, e) && Subject(e) == cur.app
    ensures Outcome(old(r.State()), r.State(), old(r.history), r.history, res, e, flip)
    ensures Performs(Scaling(cur, count, views), [old(r.State()), r.State()], [e])
    ensures e.Deploy? ==>
      && cur.spec.Some? && cur.id in old(r.State()).origin
      && e.app == cur.spec.value.(replicas := count, node := e.app.node)
      && e.scheduled == cur.scheduled && e.origin == old(r.State()).origin[cur.id]
    ensures res.Ok? ==> |res.value.replicas| == count
    ensures res == Err(InvalidSpec) <==> count > 50 || (cur.spec.Some? && cur.spec.value.backed && count > 1)
    ensures res.Err? ==> res.error !in {BadCount, NoCurrent}
    ensures r.Sound() && res != Err(InvalidSpec) ==>
      cur.spec.Some? && (res.Ok? <==> DeployPlan(views, ScaledSpec(cur, count)).Ok?)
    ensures r.fleet.reliable ==> r.State().leaks == old(r.State()).leaks
  {
    hide Inv, Step, InlineTargets, DeployPlan, Outcome, Current;
    SnapshotIsGood(r.State(), r.owner, cur);
    var app := cur.spec.value;
    if cur.scheduled {
      app := app.(node := "");
    }
    app := app.(replicas := count);
    assert app == ScaledSpec(cur, count);
    ghost var w := r.State();
    res, e, flip := Apply(r, app, views);
    if e.Deploy? {
      PlanIsScheduled(views, app);
    }
    if res.Ok? {
      DeployedCount(w, r.State(), r.owner, old(r.history), r.history, res, e, flip);
    }
  }

  lemma PlanIsScheduled(views: nat -> View, app: App)
    ensures DeployPlan(views, app).Ok? ==> (DeployPlan(views, app).value.scheduled <==> app.node == "")
  {
  }

  lemma DeployedCount(w: World, v: World, owner: string -> string, h0: seq<World>, h: seq<World>,
      res: Result<Deployment, Failure>, e: Event, flip: nat)
    requires Inv(w, owner) && Outcome(w, v, h0, h, res, e, flip) && res.Ok?
    ensures e.Deploy? && |res.value.replicas| == Count(e.app)
  {
    hide RowsOk, RoutesOk, ContainersOk, BlueGreen, PassedGate, Flipped, Superseded;
    DeployedCurrent(w, v, e.app, e.scheduled, e.origin, e.cs, e.app.name);
  }

  method Scale(r: Reconciler, name: string, count: int, views: nat -> View)
    returns (res: Result<Deployment, Failure>, ghost e: Event, ghost flip: nat)
    requires r.Valid() && forall k: nat :: WellFormed(views(k))
    modifies r, r.fleet, r.router, r.store`rows
    ensures r.Valid() && Step(old(r.State()), r.State(), r.owner, e) && Subject(e) == name
    ensures Outcome(old(r.State()), r.State(), old(r.history), r.history, res, e, flip)
    ensures res == Err(BadCount) <==> count < 1
    ensures res == Err(NoCurrent) <==> count >= 1 && Current(old(r.State()).rows, name).None?
    ensures res in {Err(BadCount), Err(NoCurrent)} ==> r.State() == old(r.State())
    ensures count >= 1 && Current(old(r.State()).rows, name).Some? && r.Sound() && res != Err(InvalidSpec) ==>
      && Current(old(r.State()).rows, name).value.spec.Some?
      && (res.Ok? <==> DeployPlan(views, ScaledSpec(Current(old(r.State()).rows, name).value, count)).Ok?)
    ensures count >= 1 && Current(old(r.State()).rows, name).Some? ==>
      Performs(Scaling(Current(old(r.State()).rows, name).value, count, views), [old(r.State()), r.State()], [e])
    ensures e.Deploy? ==>
      && Current(old(r.State()).rows, name).Some?
      && var cur := Current(old(r.State()).rows, name).value;
      && cur.spec.Some? && cur.id in old(r.State()).origin
      && e.app == cur.spec.value.(replicas := count, node := e.app.node)
      && e.scheduled == cur.scheduled && e.origin == old(r.State()).origin[cur.id]
    ensures res.Ok? ==> |res.value.replicas| == count
    ensures r.fleet.reliable ==> r.State().leaks == old(r.State()).leaks
  {
    hide Inv, Step, Outcome, Current, Snapshot;
    flip := 0;
    if count < 1 {
      res, e := Err(BadCount), Refuse(name, {}, []);
      NothingAtAll(r.State(), r.owner, r.history, name, BadCount);
      return;
    }
    var cur := r.store.CurrentDeployment(name);
    if cur.None? {
      res, e := Err(NoCurrent), Refuse(name, {}, []);
      NothingAtAll(r.State(), r.owner, r.history, name, NoCurrent);
      return;
    }
    CurrentIsSnapshot(r.State(), r.owner, name);
    res, e, flip := ScaleFrom(r, cur.value, count, views);
  }

  /** The scheduler finds a place for every replica of the snapshot but the first, which goes where it was. */
  ghost predicate CanReplay(views: nat -> View, prev: Deployment)
    requires prev.spec.Some?
  {
    var app := prev.spec.value;
    InlineTargets(views, 1, app, prev.scheduled, [app.node], Count(app)).Ok?
  }

  /** `Rollback` once it has read `prev`: the snapshot exactly as recorded, its provenance with it. */
  method RollbackTo(r: Reconciler, prev: Deployment, views: nat -> View)
    returns (res: Result<Deployment, Failure>, ghost e: Event, ghost flip: nat)
    requires r.Valid() && Snapshot(r.State(), prev) && forall k: nat :: WellFormed(views(k))
    modifies r, r.fleet, r.router, r.store`rows
    ensures r.Valid() && Step(old(r.State()), r.State(), r.owner, e) && Subject(e) == prev.app
    ensures Outcome(old(r.State()), r.State(), old(r.history), r.history, res, e, flip)
    ensures Performs(RollingBack(prev, views), [old(r.State()), r.State()], [e])
    ensures e.Deploy? ==> Restores(old(r.State()), prev, e) && e.cs != [] && e.cs[0].node == e.app.node
    ensures res.Err? ==> res.error == Resolve || InDeploy(res.error)
    ensures r.Sound() ==> prev.spec.Some? && (res.Ok? <==> CanReplay(views, prev))
    ensures r.fleet.reliable ==> r.State().leaks == old(r.State()).leaks
  {
    hide Inv, Step, Outcome, ValidSpec, PlaceIn, InlineTargets;
    SnapshotIsGood(r.State(), r.owner, prev);
    var restored := prev.spec.value.(image := prev.image);
    res, e, flip := ApplyImageProvenance(r, restored, Some(prev.scheduled), views, r.origin[prev.id]);
    if e.Deploy? {
      InlineKeepsAnchor(views, 1, restored, e.scheduled, [restored.node], Count(restored));
    }
  }

  lemma {:induction false} InlineKeepsAnchor(views: nat -> View, t: nat, app: App, scheduled: bool, chosen: seq<string>,
      n: nat)
    requires chosen != []
    ensures var plan := InlineTargets(views, t, app, scheduled, chosen, n);
      plan.Ok? ==> plan.value != [] && plan.value[0] == chosen[0]
    decreases n - |chosen|
  {
    hide PlaceIn;
    if |chosen| < n {
      if !scheduled {
        InlineKeepsAnchor(views, t, app, scheduled, chosen + [app.node], n);
      } else if PlaceIn(views(t), app, chosen).Ok? {
        InlineKeepsAnchor(views, t + 1, app, scheduled, chosen + [PlaceIn(views(t), app, chosen).value], n);
      } else if PlaceIn(views(t + 1), app, []).Ok? {
        InlineKeepsAnchor(views, t + 2, app, scheduled, chosen + [PlaceIn(views(t + 1), app, []).value], n);
      }
    }
  }

  method Rollback(r: Reconciler, name: string, views: nat -> View)
    returns (res: Result<Deployment, Failure>, ghost e: Event, ghost flip: nat)
    requires r.Valid() && forall k: nat :: WellFormed(views(k))
    modifies r, r.fleet, r.router, r.store`rows
    ensures r.Valid() && Step(old(r.State()), r.State(), r.owner, e) && Subject(e) == name
    ensures Outcome(old(r.State()), r.State(), old(r.history), r.history, res, e, flip)
    ensures res == Err(NoPrevious) <==> Previous(old(r.State()).rows, name).None?
    ensures res == Err(NoPrevious) ==> r.State() == old(r.State())
    ensures r.Sound() && Previous(old(r.State()).rows, name).Some? ==>
      && Previous(old(r.State()).rows, name).value.spec.Some?
      && (res.Ok? <==> CanReplay(views, Previous(old(r.State()).rows, name).value))
    ensures Previous(old(r.State()).rows, name).Some? ==>
      Performs(RollingBack(Previous(old(r.State()).rows, name).value, views), [old(r.State()), r.State()], [e])
    ensures e.Deploy? ==>
      && Previous(old(r.State()).rows, name).Some?
      && Restores(old(r.State()), Previous(old(r.State()).rows, name).value, e)
    ensures r.fleet.reliable ==> r.State().leaks == old(r.State()).leaks
  {
    hide Inv, Step, Outcome, Previous, Snapshot;
    flip := 0;
    var prev := r.store.PreviousDeployment(name);
    if prev.None? {
      res, e := Err(NoPrevious), Refuse(name, {}, []);
      NothingAtAll(r.State(), r.owner, r.history, name, NoPrevious);
      return;
    }
    CurrentIsSnapshot(r.State(), r.owner, name);
    res, e, flip := RollbackTo(r, prev.value, views);
  }
}
