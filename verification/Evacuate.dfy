/**
  Draining and losing a node: internal/reconciler/evacuate.go.  A replica set keeps its row and moves only
  the replicas on the node, one at a time; a single replica is redeployed as a new generation.
*/
module Evacuate {
  import opened Prelude
  import opened Scheduler
  import opened Schedule
  import opened Placing
  import opened Model
  import opened Transitions
  import opened Control
  import opened Effects
  import opened Runs
  import opened Uptime
  import opened Drain
  import opened Calls
  import Fleet

  // ---------------------------------------------------------------- where a replica may go

  /** The evacuated node, and every other replica's node. */
  function Excluded(replicas: seq<Replica>, node: string, idx: nat): (r: seq<string>)
    ensures forall n :: n in r <==> n == node || Houses(replicas, idx, n)
  {
    [node] + OtherNodes(replicas, idx)
  }

  function OtherNodes(replicas: seq<Replica>, idx: nat): (r: seq<string>)
    ensures forall n :: n in r <==> Houses(replicas, idx, n)
  {
    if replicas == [] then []
    else
      var n := |replicas| - 1;
      var front := OtherNodes(replicas[..n], idx);
      assert forall j | 0 <= j < n :: replicas[..n][j] == replicas[j];
      front + (if n == idx then [] else [Normalize(replicas[n].node)])
  }

  /** A replica other than number `idx` is on node `n`; an entry without a node is on the local one. */
  ghost predicate Houses(replicas: seq<Replica>, idx: nat, n: string) {
    exists j :: 0 <= j < |replicas| && j != idx
      && (replicas[j].node == n || (replicas[j].node == "" && n == "local")) && n != ""
  }

  method ExcludedFor(replicas: seq<Replica>, node: string, idx: nat) returns (exclude: seq<string>)
    ensures exclude == Excluded(replicas, node, idx)
  {
    exclude := [node];
    for j := 0 to |replicas|
      invariant exclude == [node] + OtherNodes(replicas[..j], idx)
    {
      assert replicas[..j + 1][..j] == replicas[..j];
      if j != idx {
        exclude := exclude + [Normalize(replicas[j].node)];
      }
    }
    assert replicas[..|replicas|] == replicas;
  }

  /**
    There is no fallback: placement refuses a move exactly when every node that can take the replica is the one
    evacuated, or houses another replica of the app.
  */
  lemma MoveIsRefusedIff(view: View, app: App, replicas: seq<Replica>, node: string, idx: nat)
    requires WellFormed(view)
    ensures PlaceIn(view, app, Excluded(replicas, node, idx)).Err? <==> NowhereToGo(view, app, replicas, node, idx)
  {
    hide PlaceIn, Excluded, Usable, HasRoom, Houses;
    var exclude := Excluded(replicas, node, idx);
    PlacementIs(view, app, exclude);
    ExcludedIs(replicas, node, idx);
    if PlaceIn(view, app, exclude).Ok? {
      var cap :| FirstToTake(view, app, exclude, PlaceIn(view, app, exclude).value, cap);
      assert CanTake(view, app, [], PlaceIn(view, app, exclude).value, cap);
    } else {
      forall n, cap | CanTake(view, app, [], n, cap) ensures n in exclude {
        match PlaceIn(view, app, exclude).error
        case NoSchedulableNode =>
        case NoCapacity =>
      }
    }
  }

  /** Every node that can take a replica of `app` is `node`, or houses a replica other than number `idx`. */
  ghost predicate NowhereToGo(view: View, app: App, replicas: seq<Replica>, node: string, idx: nat) {
    forall n, cap | CanTake(view, app, [], n, cap) :: n == node || Houses(replicas, idx, n)
  }

  lemma ExcludedIs(replicas: seq<Replica>, node: string, idx: nat)
    ensures forall n :: n in Excluded(replicas, node, idx) <==> n == node || Houses(replicas, idx, n)
  {
  }

  // ---------------------------------------------------------------- moving one replica

  /** The current row's facts that a move relies on. */
  lemma CurrentCanMove(w: World, owner: string -> string, cur: Deployment)
    requires Inv(w, owner) && Current(w.rows, cur.app) == Some(cur)
    ensures cur.spec.Some? && ValidSpec(cur.spec.value) && cur.spec.value.image == cur.image
    ensures cur.spec.value.name == cur.app
    ensures owner(cur.spec.value.domain) == cur.app && Located(w, cur.replicas)
    ensures |cur.replicas| == Count(cur.spec.value)
    ensures forall j | 0 <= j < |cur.replicas| :: cur.replicas[j].cid < w.nextCid && cur.replicas[j].node != ""
  {
    hide TableOk, RowsOk, RoutesOk, ContainersOk, ValidSpec, LatestAt;
    CurrentIsLive(w, owner, cur.app);
    CurrentIsLocated(w, owner, cur.app);
  }

  /** Up to the new container: place, resolve, network, image, run. */
  method StartMove(r: Reconciler, cur: Deployment, app: App, node: string, idx: nat, view: View)
    returns (failed: Option<Failure>, c: Option<Fleet.Started>)
    requires idx < |cur.replicas| && WellFormed(view)
    modifies r`history, r.fleet
    ensures failed.None? <==> c.Some?
    ensures failed == Some(ReplicaUnplaced) <==> NowhereToGo(view, app, cur.replicas, node, idx)
    ensures failed.Some? ==> failed.value in {ReplicaUnplaced, Resolve, Network, Image, RunFailed}
    ensures r.Sound() && failed.Some? ==> failed.value == ReplicaUnplaced
    ensures c.Some? ==> r.fleet.Resolved(c.value.container.node, c.value.container.hostIP)
    ensures c.None? ==>
      r.State() == old(r.State()) && (r.history == old(r.history) || r.history == old(r.history) + [r.State()])
    ensures c.Some? ==>
      && PlaceIn(view, app, Excluded(cur.replicas, node, idx)) == Ok(c.value.container.node)
      && c.value.container.node != "" && c.value.container.app == cur.app && c.value.container.image == cur.image
      && c.value.container.name == NameOf(cur.app, NextId(old(r.State()).rows), |cur.replicas|, idx)
      && c.value.id == old(r.State()).nextCid
      && r.State() == old(r.State()).(containers := old(r.State()).containers[c.value.id := c.value.container],
        nextCid := c.value.id + 1)
      && r.history == old(r.history) + [r.State()]
  {
    hide PlaceIn, NextId, NameOf;
    failed, c := Some(ReplicaUnplaced), None;
    var exclude := ExcludedFor(cur.replicas, node, idx);
    var placed := PlaceExcludingSet(view, app, exclude);
    MoveIsRefusedIff(view, app, cur.replicas, node, idx);
    if placed.Err? {
      return;
    }
    PlaceInIsOffered(view, app, exclude);
    var mesh := r.fleet.ResolveMeta(placed.value);
    if mesh.None? {
      return Some(Resolve), None;
    }
    var networked := r.fleet.Attempt();
    if !networked {
      return Some(Network), None;
    }
    var present := r.fleet.Attempt();
    if !present {
      return Some(Image), None;
    }
    var deployId := r.store.NextDeployID();
    c := r.Run(placed.value, cur.app, cur.image, NameOf(cur.app, deployId, |cur.replicas|, idx), mesh.value);
    failed := if c.None? then Some(RunFailed) else None;
  }

  /** If Caddy came out of a failed move ahead of the router, it has the move's own set, and its container is gone. */
  ghost predicate LeftAhead(before: Option<Ahead>, v: World, change: Ahead, cid: nat, reliable: bool) {
    v.ahead != None && v.ahead != before ==> v.ahead == Some(change) && (reliable ==> cid !in v.containers)
  }

  /** From the new container to the flip; whatever fails, the container goes again. */
  method GateMove(r: Reconciler, app: App, deployId: nat, started: Fleet.Started, merged: seq<Replica>,
                  ghost w: World, ghost h0: seq<World>)
    returns (failed: Option<Failure>, ghost m: World, ghost hm: seq<World>)
    requires started.id == w.nextCid && ContainersOk(w)
    requires Mid(w, r.State(), h0, r.history, deployId, [started.container], {})
    requires Merges(w, app.domain, merged, {}) && Begun(merged, w.nextCid + 1) && Unchecked(w, r.State())
    modifies r`history, r`ahead, r`serving, r.fleet, r.router
    ensures failed.Some? ==>
      && Clearing(w, r.State(), h0, r.history, deployId, [started.container], {}, 1, r.fleet.reliable)
      && Quiet(w, h0, r.history, {})
    ensures failed.None? ==>
      && Mid(w, m, h0, hm, deployId, [started.container], {}) && Vetted(w, m)
      && Turned(m, r.State(), app.domain, merged)
      && r.history == hm + [r.State()]
      && PassedGate(w.nextCid, h0, hm, deployId, [started.container], app.port, |hm|)
    ensures r.Sound() ==> failed.None?
    ensures r.router.steady ==> deployId !in r.State().staging
    ensures failed.Some? ==> failed.value in {Connect, Staging, Unhealthy, FlipRefused}
    ensures failed.Some? ==> LeftAhead(old(r.State()).ahead, r.State(), Ahead(app.domain, Some(merged)), started.id,
      r.fleet.reliable)
  {
    hide Mid, ContainersOk, Clearing, RouteTo, Quiet, Unchecked, PassedGate;
    failed := None;
    ghost var cs := [started.container];
    assert Ids(w.nextCid, 1) == [started.id];
    if app.backed {
      var connected := r.fleet.Attempt();
      if !connected {
        failed := Some(Connect);
      }
    }
    if failed.None? {
      var upstream := ReplicaOf(started.id, started.container, app.port);
      assert LeadTo(Upstreams([upstream]), cs, app.port) by { EntryAddresses(started.id, started.container, app.port); }
      failed := StageSet(r, deployId, Upstreams([upstream]), [started.id], w, h0, cs, {}, app.port);
    }
    m, hm := r.State(), r.history;
    if failed.Some? {
      TearDown(r, deployId, [started.container.node], [started.id], w, h0, cs, {});
      return;
    }
    ghost var hs := r.history;
    r.Unstage(deployId);
    MidKeeps(w, m, r.State(), h0, hm, deployId, cs, {});
    PassedOn(w.nextCid, h0, hs, r.history, deployId, cs, app.port, |hs|);
    PassedLater(w.nextCid, h0, r.history, deployId, cs, app.port, |hs|, |r.history|);
    m, hm := r.State(), r.history;
    var flipped := r.Flip(app.domain, merged);
    if !flipped {
      failed := Some(FlipRefused);
      MidMisses(w, m, r.State(), h0, hm, deployId, cs, {}, app.domain, merged);
      DropStarted(r, deployId, started, w, h0);
    }
  }

  /** A refused flip comes after staging is gone, so only the container is left to remove. */
  method DropStarted(r: Reconciler, deployId: nat, started: Fleet.Started, ghost w: World, ghost h0: seq<World>)
    requires started.id == w.nextCid && ContainersOk(w)
    requires Mid(w, r.State(), h0, r.history, deployId, [started.container], {})
    modifies r`history, r.fleet
    ensures Clearing(w, r.State(), h0, r.history, deployId, [started.container], {}, 1, r.fleet.reliable)
    ensures Quiet(w, h0, r.history, {}) && r.State().staging == old(r.State()).staging
    ensures r.State().ahead == old(r.State()).ahead
    ensures r.fleet.reliable ==> started.id !in r.State().containers
  {
    hide Mid, ContainersOk, Clearing, Quiet;
    ghost var s, h, cs := r.State(), r.history, [started.container];
    ClearingStarts(w, s, h0, h, deployId, cs, {}, r.fleet.reliable);
    ClearingNode(w, s, h0, h, deployId, cs, {}, 0, r.fleet.reliable);
    var removed := r.Discard(started.container.node, started.id);
    ClearingDiscards(w, s, r.State(), h0, h, deployId, cs, {}, 0, r.fleet.reliable, removed);
    ClearingRows(w, r.State(), h0, r.history, deployId, cs, {}, r.fleet.reliable);
  }

  lemma MergedIsPatch(replicas: seq<Replica>, idx: nat, first: nat, c: Container, port: int)
    requires idx < |replicas|
    ensures Patch(replicas, [idx], Replicas(first, [c], port)) == replicas[idx := ReplicaOf(first, c, port)]
  {
    hide ReplicaOf;
    var news := Replicas(first, [c], port);
    assert Patch(replicas, [idx][..0], news[..0]) == replicas;
  }

  lemma OneCid(replicas: seq<Replica>, idx: nat)
    requires idx < |replicas|
    ensures CidsAt(replicas, [idx]) == {replicas[idx].cid} && Cids([replicas[idx]]) == {replicas[idx].cid}
  {
    var r := [replicas[idx]];
    assert r[0].cid in Cids(r);
    assert replicas[[idx][0]].cid in CidsAt(replicas, [idx]);
  }

  lemma MoveCompletes(w: World, m: World, f: World, q: World, v: World, h0: seq<World>, h: seq<World>,
      cur: Deployment, idx: nat, c: Container)
    requires idx < |cur.replicas| && cur.spec.Some? && cur.replicas[idx].cid < w.nextCid
    requires c.node != "" && c.app == cur.app && c.image == cur.image
    requires c.name == NameOf(cur.app, NextId(w.rows), |cur.replicas|, idx)
    requires Mid(w, m, h0, h, NextId(w.rows), [c], {}) && Vetted(w, m)
    requires var merged := cur.replicas[idx := ReplicaOf(w.nextCid, c, cur.spec.value.port)];
      && Turned(m, f, cur.spec.value.domain, merged)
      && Shrunk(f, q, {cur.replicas[idx].cid})
      && v == q.(rows := WithReplicas(w.rows, cur.id, merged, Some(merged[0].cid)),
        leaks := q.leaks + {cur.replicas[idx].cid} * q.containers.Keys)
    ensures Patched(w, v, cur, [idx], [c])
  {
    hide Mid, Swapped, NextId, Patch, RouteTo, NameOf, WithReplicas, CidsAt;
    MergedIsPatch(cur.replicas, idx, w.nextCid, c, cur.spec.value.port);
    OneCid(cur.replicas, idx);
    MidFrame(w, m, h0, h, NextId(w.rows), [c], {});
    RetiredSwaps(w, m, q, v, h0, h, NextId(w.rows), [c], {cur.replicas[idx].cid});
  }

  /** What follows the flip: the old container on its own node, then the row in place. */
  method FinishMove(r: Reconciler, cur: Deployment, deployId: nat, idx: nat, merged: seq<Replica>,
                    ghost w: World, ghost m: World, ghost h0: seq<World>, ghost hm: seq<World>, ghost c: Container)
    requires idx < |cur.replicas| && cur.spec.Some? && Located(w, cur.replicas)
    requires forall j | 0 <= j < |cur.replicas| :: cur.replicas[j].cid < w.nextCid
    requires c.node != "" && c.app == cur.app && c.image == cur.image
    requires c.name == NameOf(cur.app, deployId, |cur.replicas|, idx)
    requires deployId == NextId(w.rows) && Mid(w, m, h0, hm, deployId, [c], {}) && Vetted(w, m)
    requires merged == cur.replicas[idx := ReplicaOf(w.nextCid, c, cur.spec.value.port)]
    requires Turned(m, r.State(), cur.spec.value.domain, merged)
    requires r.history == hm + [r.State()] && (r.router.steady ==> deployId !in r.State().staging)
    modifies r, r.fleet, r.store`rows
    ensures Patched(w, r.State(), cur, [idx], [c]) && Unstaged(w, r.State(), deployId, r.router.steady)
    ensures hm <= r.history
    ensures BlueGreen(w, h0, r.history, {}, |hm|, cur.spec.value.domain, merged, {cur.replicas[idx].cid})
    ensures r.fleet.reliable ==> r.State().leaks == w.leaks
    ensures r.heal == w.heal
  {
    hide Mid, Patched, BlueGreen, After, NextId, RouteTo, Quiet, NameOf, Draining, ReplicaOf, Shrunk, Located, CidsAt,
      Cids, Mirrored, SameBut, Vetted;
    ghost var f := r.State();
    var old' := cur.replicas[idx];
    MidFrame(w, m, h0, hm, deployId, [c], {});
    OneCid(cur.replicas, idx);
    AfterFlip(w, m, f, h0, hm, deployId, [c], {}, cur.spec.value.domain, merged, {old'.cid});
    LocatedOne(w, m, f, h0, hm, deployId, [c], cur.replicas, idx);
    RetireSet(r, [old']);
    DrainedIsAfter(w, f, r.State(), hm + [f], r.history, cur.spec.value.domain, merged, [old'], r.fleet.reliable);
    ghost var q := r.State();
    TurnsGreen(w, h0, hm, r.history, {}, cur.spec.value.domain, merged, {old'.cid});
    ShrunkFrame(f, q, {old'.cid});
    r.store.UpdateReplicas(cur.id, merged, Some(merged[0].cid));
    r.leaks := r.leaks + {old'.cid} * r.fleet.containers.Keys;
    MoveCompletes(w, m, f, q, r.State(), h0, hm, cur, idx, c);
  }

  lemma LocatedOne(w: World, m: World, f: World, h0: seq<World>, h: seq<World>, host: nat, cs: seq<Container>,
      replicas: seq<Replica>, idx: nat)
    requires idx < |replicas| && Located(w, replicas) && (forall j | 0 <= j < |replicas| :: replicas[j].cid < w.nextCid)
    requires Mid(w, m, h0, h, host, cs, {}) && f.containers == m.containers
    ensures Located(f, [replicas[idx]])
  {
    LocatedMid(w, m, h0, h, host, cs, {}, replicas);
    hide Mid;
  }

  lemma NothingMoved(w: World, owner: string -> string, h: seq<World>, cur: Deployment)
    requires Inv(w, owner)
    ensures Step(w, w, owner, Refuse(cur.app, {}, [])) && Quiet(w, h, h, {}) && Quiet(w, h, h + [w], {})
    ensures Before(w, w, {})
    ensures forall host, steady :: Unstaged(w, w, host, steady)
  {
    hide TableOk, RowsOk, RoutesOk, Claimed;
  }

  lemma MidOne(w: World, s: World, h0: seq<World>, host: nat, c: Container)
    requires ContainersOk(w) && Mirrored(w)
    requires s == w.(containers := w.containers[w.nextCid := c], nextCid := w.nextCid + 1)
    ensures Mid(w, s, h0, h0 + [s], host, [c], {})
  {
    hide Mid, ContainersOk;
    MidStarts(w, h0, host, {});
    MidRuns(w, w, s, h0, h0, host, [], {}, c);
    assert [] + [c] == [c];
  }

  lemma MoveIsStep(w: World, v: World, owner: string -> string, cur: Deployment, idx: nat, c: Container)
    requires Inv(w, owner) && Current(w.rows, cur.app) == Some(cur) && cur.spec.Some? && cur.scheduled
    requires idx < |cur.replicas|
    requires Patched(w, v, cur, [idx], [c]) && v.heal == w.heal
    ensures Step(w, v, owner, Update(cur, [idx], [c])) && Inv(v, owner)
    ensures var merged := cur.replicas[idx := ReplicaOf(w.nextCid, c, cur.spec.value.port)];
      Current(v.rows, cur.app) == Some(cur.(replicas := merged, containerId := Some(merged[0].cid)))
  {
    hide TableOk, RowsOk, RoutesOk, ContainersOk, Current, Flipped, NameOf, WithReplicas, NextId, ReplicaOf, Patch;
    StepKeepsInv(w, v, owner, Update(cur, [idx], [c]));
    PatchedCurrent(w, v, cur, [idx], [c], cur.app);
    MergedIsPatch(cur.replicas, idx, w.nextCid, c, cur.spec.value.port);
  }

  /** What the flip of a move installs: the fresh container, and entries that were in the route before. */
  lemma MoveMerges(w: World, owner: string -> string, cur: Deployment, idx: nat, c: Container, former: set<nat>)
    requires Inv(w, owner) && Current(w.rows, cur.app) == Some(cur) && cur.spec.Some?
    requires idx < |cur.replicas| && former <= {cur.replicas[idx].cid}
    ensures var merged := cur.replicas[idx := ReplicaOf(w.nextCid, c, cur.spec.value.port)];
      Merges(w, cur.spec.value.domain, merged, former) && Begun(merged, w.nextCid + 1)
  {
    hide TableOk, RoutesOk, ContainersOk, Current, ValidSpec, ReplicaOf;
    CurrentIsLive(w, owner, cur.app);
  }

  /** What a move that failed had started, if it got that far. */
  function TriedMove(cur: Deployment, idx: nat, c: Container): Trial {
    Trial(|cur.replicas|, [idx], [c])
  }

  /** The rest of a move once its container runs. */
  method CarryOut(r: Reconciler, cur: Deployment, app: App, idx: nat, started: Fleet.Started, ghost w: World,
      ghost h0: seq<World>)
    returns (failed: Option<Failure>, merged: seq<Replica>, ghost flip: nat)
    requires Inv(w, r.owner) && Current(w.rows, cur.app) == Some(cur) && cur.spec == Some(app) && cur.scheduled
    requires idx < |cur.replicas|
    requires started.id == w.nextCid && r.history == h0 + [r.State()]
    requires r.State() == w.(containers := w.containers[started.id := started.container], nextCid := started.id + 1)
    requires started.container.node != "" && started.container.app == cur.app && started.container.image == cur.image
    requires started.container.name == NameOf(cur.app, NextId(w.rows), |cur.replicas|, idx)
    modifies r, r.fleet, r.router, r.store`rows
    ensures merged == cur.replicas[idx := ReplicaOf(started.id, started.container, app.port)]
    ensures failed.Some? ==>
      Step(w, r.State(), r.owner, Refuse(cur.app, {}, [], TriedMove(cur, idx, started.container)))
    ensures failed.Some? ==> Quiet(w, h0, r.history, {}) && Before(w, r.State(), {})
    ensures failed.Some? ==> failed.value in {Connect, Staging, Unhealthy, FlipRefused}
    ensures failed.Some? ==> LeftAhead(w.ahead, r.State(), Ahead(app.domain, Some(merged)), started.id,
      r.fleet.reliable)
    ensures failed.None? ==>
      && Patched(w, r.State(), cur, [idx], [started.container])
      && BlueGreen(w, h0, r.history, {}, flip, app.domain, merged, {cur.replicas[idx].cid})
      && PassedGate(w.nextCid, h0, r.history, NextId(w.rows), [started.container], app.port, flip)
    ensures r.Sound() ==> failed.None?
    ensures r.heal == w.heal && Unstaged(w, r.State(), NextId(w.rows), r.router.steady)
    ensures r.fleet.reliable ==> r.State().leaks == w.leaks
  {
    hide TableOk, RowsOk, RoutesOk, ContainersOk, Mid, Current, ValidSpec, NextId, Patched, BlueGreen, Refused, Quiet,
      RouteTo, Clearing, After, NameOf, Located, ReplicaOf;
    CurrentCanMove(w, r.owner, cur);
    var deployId := r.store.NextDeployID();
    MidOne(w, r.State(), h0, deployId, started.container);
    UncheckedYet(w, r.State());
    merged := cur.replicas[idx := ReplicaOf(started.id, started.container, app.port)];
    MoveMerges(w, r.owner, cur, idx, started.container, {});
    ghost var m, hm;
    failed, m, hm := GateMove(r, app, deployId, started, merged, w, h0);
    flip := |hm|;
    if failed.Some? {
      ghost var s := r.State();
      r.leaks := r.leaks + (r.fleet.containers.Keys - w.containers.Keys);
      GaveUp(w, s, r.State(), r.owner, h0, r.history, deployId, [started.container], {}, r.fleet.reliable, cur.app,
        TriedMove(cur, idx, started.container));
      return;
    }
    FinishMove(r, cur, deployId, idx, merged, w, m, h0, hm, started.container);
    PassedOn(w.nextCid, h0, hm, r.history, deployId, [started.container], app.port, flip);
  }

  lemma GoneAtCaddy(w: World, v: World, domain: string, merged: seq<Replica>, idx: nat, cid: nat, reliable: bool)
    requires LeftAhead(w.ahead, v, Ahead(domain, Some(merged)), cid, reliable)
    requires idx < |merged| && merged[idx].cid == cid && cid >= w.nextCid
    ensures reliable && v.ahead != None && v.ahead != w.ahead ==> SentToTheGone(w, v, domain)
  {
  }

  /** One turn of the loop of `evacuateReplicasLocked`. */
  method MoveReplica(r: Reconciler, cur: Deployment, app: App, node: string, idx: nat, view: View)
    returns (failed: Option<Failure>, next: Deployment, ghost e: Event, ghost flip: nat)
    requires r.Valid() && Current(r.State().rows, cur.app) == Some(cur) && cur.spec == Some(app) && cur.scheduled
    requires WellFormed(view)
    modifies r, r.fleet, r.router, r.store`rows
    ensures r.Valid() && Step(old(r.State()), r.State(), r.owner, e) && Subject(e) == cur.app
    ensures Current(r.State().rows, cur.app) == Some(next)
    ensures failed.Some? ==> next == cur && e.Refuse? && e.lost == {} && e.noted == []
    ensures failed.Some? ==>
      Quiet(old(r.State()), old(r.history), r.history, {}) && Before(old(r.State()), r.State(), {})
    ensures failed.Some? && r.fleet.reliable && r.State().ahead != None && r.State().ahead != old(r.State()).ahead ==>
      SentToTheGone(old(r.State()), r.State(), app.domain)
    ensures r.Sound() && failed.Some? ==> failed.value in {ReplicaUnplaced, BadIndex}
    ensures failed == Some(BadIndex) <==> idx >= |cur.replicas|
    ensures failed == Some(ReplicaUnplaced) <==>
      idx < |cur.replicas| && NowhereToGo(view, app, cur.replicas, node, idx)
    ensures failed.None? ==> Moves(cur, next, app, node, idx, view, e)
    ensures failed.None? ==>
      && PassedGate(old(r.State()).nextCid, old(r.history), r.history, NextId(old(r.State()).rows), e.cs, app.port,
        flip)
      && r.fleet.Resolved(e.cs[0].node, e.cs[0].hostIP)
    ensures failed.None? ==> BlueGreen(old(r.State()), old(r.history), r.history, {}, flip, app.domain, next.replicas,
      {cur.replicas[idx].cid})
    ensures r.heal == old(r.heal)
    ensures Unstaged(old(r.State()), r.State(), NextId(old(r.State()).rows), r.router.steady)
    ensures r.fleet.reliable ==> r.State().leaks == old(r.State()).leaks
  {
    hide Inv, Current, NextId, Patched, BlueGreen, Quiet, NameOf, PlaceIn, Step, LeftAhead, SentToTheGone, Unstaged,
      Before, NowhereToGo, Excluded, PassedGate, Moves;
    ghost var w, h0 := r.State(), r.history;
    next, e, flip := cur, Refuse(cur.app, {}, []), |h0|;
    NothingMoved(w, r.owner, h0, cur);
    if idx >= |cur.replicas| {
      failed := Some(BadIndex);
      return;
    }
    var c;
    failed, c := StartMove(r, cur, app, node, idx, view);
    if failed.Some? {
      return;
    }
    failed, next, e, flip := Settle(r, cur, app, node, idx, c.value, view, w, h0);
  }

  /** The outcome of a move whose container runs, as a step. */
  method Settle(r: Reconciler, cur: Deployment, app: App, node: string, idx: nat, started: Fleet.Started, view: View,
      ghost w: World, ghost h0: seq<World>)
    returns (failed: Option<Failure>, next: Deployment, ghost e: Event, ghost flip: nat)
    requires Inv(w, r.owner) && Current(w.rows, cur.app) == Some(cur) && cur.spec == Some(app) && cur.scheduled
    requires idx < |cur.replicas| && started.id == w.nextCid && r.history == h0 + [r.State()]
    requires r.State() == w.(containers := w.containers[started.id := started.container], nextCid := started.id + 1)
    requires started.container.node != "" && started.container.app == cur.app && started.container.image == cur.image
    requires started.container.name == NameOf(cur.app, NextId(w.rows), |cur.replicas|, idx)
    requires PlaceIn(view, app, Excluded(cur.replicas, node, idx)) == Ok(started.container.node)
    modifies r, r.fleet, r.router, r.store`rows
    ensures r.Valid() && Step(w, r.State(), r.owner, e) && Subject(e) == cur.app
    ensures Current(r.State().rows, cur.app) == Some(next)
    ensures failed.Some? ==> failed.value in {Connect, Staging, Unhealthy, FlipRefused}
    ensures failed.Some? ==> next == cur && e.Refuse? && e.lost == {} && e.noted == []
    ensures failed.Some? ==> Quiet(w, h0, r.history, {}) && Before(w, r.State(), {})
    ensures failed.Some? && r.fleet.reliable && r.State().ahead != None && r.State().ahead != w.ahead ==>
      SentToTheGone(w, r.State(), app.domain)
    ensures r.Sound() ==> failed.None?
    ensures failed.None? ==>
      && Moves(cur, next, app, node, idx, view, e) && e.cs == [started.container]
      && PassedGate(w.nextCid, h0, r.history, NextId(w.rows), [started.container], app.port, flip)
      && BlueGreen(w, h0, r.history, {}, flip, app.domain, next.replicas, {cur.replicas[idx].cid})
    ensures r.heal == w.heal && Unstaged(w, r.State(), NextId(w.rows), r.router.steady)
    ensures r.fleet.reliable ==> r.State().leaks == w.leaks
  {
    hide Inv, Current, NextId, Patched, BlueGreen, Quiet, NameOf, PlaceIn, Step, LeftAhead, SentToTheGone, Unstaged,
      Before, Excluded, PassedGate;
    var merged;
    failed, merged, flip := CarryOut(r, cur, app, idx, started, w, h0);
    if failed.Some? {
      next, e := cur, Refuse(cur.app, {}, [], TriedMove(cur, idx, started.container));
      StepKeepsInv(w, r.State(), r.owner, e);
      RefusedKeepsCurrentOf(w, r.State(), r.owner, e);
      GoneAtCaddy(w, r.State(), app.domain, merged, idx, started.id, r.fleet.reliable);
      return;
    }
    MoveIsStep(w, r.State(), r.owner, cur, idx, started.container);
    next := cur.(replicas := merged, containerId := Some(merged[0].cid));
    e := Update(cur, [idx], [started.container]);
  }

  lemma RefusedKeepsCurrentOf(w: World, v: World, owner: string -> string, e: Event)
    requires Step(w, v, owner, e) && e.Refuse? && e.noted == []
    ensures Current(v.rows, e.name) == Current(w.rows, e.name)
  {
    RefusedKeepsCurrent(w.rows, [], e.name);
    assert v.rows == w.rows + [];
  }

  /** A move replaces entry `idx` alone, and takes it where the scheduler may go. */
  ghost predicate Moves(cur: Deployment, next: Deployment, app: App, node: string, idx: nat, view: View, e: Event) {
    && idx < |cur.replicas| == |next.replicas|
    && e.Update? && e.cur == cur && e.idxs == [idx] && |e.cs| == 1
    && next == cur.(replicas := next.replicas, containerId := Some(next.replicas[0].cid))
    && next.replicas == cur.replicas[idx := next.replicas[idx]]
    && next.replicas[idx].node == e.cs[0].node && next.replicas[idx].node != ""
    && PlaceIn(view, app, Excluded(cur.replicas, node, idx)) == Ok(e.cs[0].node)
  }

  // ---------------------------------------------------------------- spread

  function NodeSet(replicas: seq<Replica>): set<string> {
    set k | 0 <= k < |replicas| :: replicas[k].node
  }

  /** No other replica is on the same node as replica `j`. */
  ghost predicate Alone(replicas: seq<Replica>, j: nat)
    requires j < |replicas|
  {
    forall i | 0 <= i < |replicas| && i != j :: replicas[i].node != replicas[j].node
  }

  /**
    What a loop of moves off `node` has done to `old`: entries outside `moved` are exactly what they were,
    and a moved replica sits alone on a node that is not `node`.
  */
  ghost predicate Spreads(before: seq<Replica>, now: seq<Replica>, node: string, moved: set<nat>) {
    && |now| == |before|
    && (forall j | 0 <= j < |now| && j !in moved :: now[j] == before[j])
    && (forall j | 0 <= j < |now| && j in moved :: now[j].node != node && Alone(now, j))
    && (forall j | 0 <= j < |now| :: now[j].node != "")
    && |NodeSet(now)| >= |NodeSet(before)|
  }

  lemma MoveGrowsSpread(replicas: seq<Replica>, idx: nat, r: Replica)
    requires idx < |replicas| && forall j | 0 <= j < |replicas| && j != idx :: replicas[j].node != r.node
    ensures |NodeSet(replicas[idx := r])| >= |NodeSet(replicas)|
  {
    var next := replicas[idx := r];
    var others := set k | 0 <= k < |replicas| && k != idx :: replicas[k].node;
    forall n ensures n in NodeSet(next) <==> n in others + {r.node} {
      if n in others {
        var k :| 0 <= k < |replicas| && k != idx && replicas[k].node == n;
        assert next[k].node == n;
      }
      assert next[idx].node == r.node;
    }
    assert NodeSet(next) == others + {r.node};
    assert NodeSet(replicas) <= others + {replicas[idx].node};
    Subset(NodeSet(replicas), others + {replicas[idx].node});
  }

  lemma {:induction false} Subset(a: set<string>, b: set<string>)
    requires a <= b
    ensures |a| <= |b|
  {
    if a != {} {
      var x :| x in a;
      Subset(a - {x}, b - {x});
    }
  }

  /** One more move keeps the spread. */
  lemma MoveSpreads(before: seq<Replica>, now: seq<Replica>, node: string, moved: set<nat>, idx: nat, r: Replica)
    requires Spreads(before, now, node, moved) && idx < |now| && idx !in moved && r.node != ""
    requires r.node !in Excluded(now, node, idx)
    ensures Spreads(before, now[idx := r], node, moved + {idx})
  {
    forall j | 0 <= j < |now| && j != idx ensures now[j].node != r.node {
      assert Normalize(now[j].node) in Excluded(now, node, idx);
    }
    MoveGrowsSpread(now, idx, r);
    forall j | 0 <= j < |now| && j in moved + {idx} ensures now[idx := r][j].node != node && Alone(now[idx := r], j) {
      if j != idx { assert Alone(now, j); }
    }
  }

  // ---------------------------------------------------------------- the loop

  /** At `s` the watched routes are lit where committed, and Caddy's miss nothing but containers started since `w`. */
  ghost predicate Shines(w: World, s: World, owner: string -> string, domain: string) {
    && Mirrored(s) && Paired(s) && s.persists == w.persists
    && forall d | Watched(d, domain, owner) :: Sent(w, s, d, {}) && (d in s.serving ==> Lit(w, s, d, {}))
  }

  /** So it has been at every effect since `h0`. */
  ghost predicate Bright(w: World, owner: string -> string, domain: string, h0: seq<World>, h: seq<World>) {
    h0 <= h && forall i | |h0| <= i < |h| :: Shines(w, h[i], owner, domain)
  }

  /** Where the loop stands: `before` was the row at `w`, `now` is the row at `s`. */
  ghost predicate Moving(w: World, s: World, owner: string -> string, ws: seq<World>, es: seq<Event>, h0: seq<World>,
      h: seq<World>, before: Deployment, now: Deployment, node: string, moved: set<nat>, views: nat -> View) {
    && Leads(w, s, owner, ws, es, before.app) && Current(s.rows, before.app) == Some(now)
    && now == before.(replicas := now.replicas, containerId := now.containerId)
    && Spreads(before.replicas, now.replicas, node, moved)
    && |ws| == |es| + 1 && (forall i | 0 <= i < |es| :: Shifts(ws[i], es[i], n => OfferedIn(views, n)))
    && (forall i | 0 <= i < |es| :: es[i].Update? || es[i].Refuse?)
    && w.nextCid <= s.nextCid && before.spec.Some?
    && Bright(w, owner, before.spec.value.domain, h0, h) && Shines(w, s, owner, before.spec.value.domain)
  }

  lemma MovingStarts(w: World, owner: string -> string, h: seq<World>, cur: Deployment, node: string,
      views: nat -> View)
    requires Inv(w, owner) && Current(w.rows, cur.app) == Some(cur)
    ensures Moving(w, w, owner, [w], [], h, h, cur, cur, node, {}, views)
  {
    CurrentCanMove(w, owner, cur);
    ShinesAtStart(w, owner, cur.spec.value.domain);
    hide Inv, Shines, Current, ValidSpec;
  }

  lemma ShinesAtStart(w: World, owner: string -> string, domain: string)
    requires Inv(w, owner)
    ensures Shines(w, w, owner, domain)
  {
    hide TableOk, RowsOk, ContainersOk, OwnEntry, Lit, Sent, RouteTo, AheadOk, Begun;
    forall d ensures Sent(w, w, d, {}) && (d in w.serving ==> Lit(w, w, d, {})) {
      if d in w.serving { LitAtStart(w, d, {}); }
      SentAtStart(w, d);
    }
  }

  lemma SentAtStart(w: World, d: string)
    ensures Sent(w, w, d, {})
  {
    hide Proxied;
  }

  lemma ShinesOn(w: World, v: World, s: World, owner: string -> string, domain: string)
    requires w.nextCid <= v.nextCid && Shines(w, v, owner, domain) && Shines(v, s, owner, domain)
    ensures Shines(w, s, owner, domain)
  {
    hide Lit, Sent, Paired, Mirrored, Watched;
    forall d | Watched(d, domain, owner) ensures Sent(w, s, d, {}) && (d in s.serving ==> Lit(w, s, d, {})) {
      SentOn(w, v, s, d);
      if d in s.serving { LitOn(w, v, s, d); }
    }
  }

  lemma BrightOn(w: World, v: World, u: World, owner: string -> string, domain: string, h0: seq<World>, h: seq<World>,
      h': seq<World>)
    requires w.nextCid <= v.nextCid && Bright(w, owner, domain, h0, h) && Shines(w, v, owner, domain)
    requires Bright(v, owner, domain, h, h') && Shines(v, u, owner, domain)
    ensures Bright(w, owner, domain, h0, h') && Shines(w, u, owner, domain)
  {
    hide Shines;
    ShinesOn(w, v, u, owner, domain);
    forall i | |h0| <= i < |h'| ensures Shines(w, h'[i], owner, domain) {
      if i < |h| {
        assert h'[i] == h[i];
      } else {
        ShinesOn(w, v, h'[i], owner, domain);
      }
    }
  }

  /**
    At every effect of the loop, whatever its earlier turns have left behind, a watched route that Caddy runs
    is dark exactly while it has been sent to a container of the loop's own that is gone again.
  */
  lemma BrightAtCaddy(w: World, owner: string -> string, domain: string, h0: seq<World>, h: seq<World>, i: nat,
      d: string)
    requires Inv(w, owner) && Bright(w, owner, domain, h0, h) && |h0| <= i < |h| && d in h[i].caddy
    requires Watched(d, domain, owner)
    ensures d in Proxied(h[i]) && h[i].caddy[d] == RouteTo(d, Proxied(h[i])[d])
    ensures LitAtCaddy(w, h[i], d, {}) <==> !SentToTheGone(w, h[i], d)
    ensures !w.persists ==> LitAtCaddy(w, h[i], d, {})
  {
    assert Shines(w, h[i], owner, domain);
    hide TableOk, RowsOk, RoutesOk, ContainersOk, Lit, Sent, Paired, LitAtCaddy, RouteTo;
    CaddyRunsProxied(h[i]);
    DarkIffSent(w, h[i], owner, d, {});
  }

  /** A turn that failed. */
  lemma MovingFails(w: World, s: World, u: World, owner: string -> string, ws: seq<World>, es: seq<Event>,
      h0: seq<World>, h: seq<World>, h': seq<World>, before: Deployment, now: Deployment, node: string, moved: set<nat>,
      views: nat -> View, e: Event)
    requires Moving(w, s, owner, ws, es, h0, h, before, now, node, moved, views) && Inv(s, owner)
    requires e.Refuse? && e.lost == {} && Step(s, u, owner, e) && Subject(e) == now.app
    requires Current(u.rows, now.app) == Some(now) && Quiet(s, h, h', {}) && Before(s, u, {})
    ensures Moving(w, u, owner, ws + [u], es + [e], h0, h', before, now, node, moved, views)
  {
    hide Shines, Leads, Current, Spreads, Inv, Step, Quiet, Before;
    LeadsOn(w, s, u, owner, ws, es, e, now.app);
    RefusedIsBright(s, u, owner, before.spec.value.domain, h, h', e);
    BrightOn(w, s, u, owner, before.spec.value.domain, h0, h, h');
  }

  lemma BeforeShines(s: World, x: World, owner: string -> string, domain: string)
    requires Inv(s, owner) && Before(s, x, {})
    ensures Shines(s, x, owner, domain)
  {
    hide TableOk, RowsOk, ContainersOk, OwnEntry, Lit, Sent, RouteTo, AheadOk, Begun;
    forall d ensures Sent(s, x, d, {}) && (d in x.serving ==> Lit(s, x, d, {})) {
      BeforeIsSent(s, x, {}, d);
      if d in x.serving { BeforeIsLit(s, x, {}, d); }
    }
  }

  lemma RefusedIsBright(s: World, u: World, owner: string -> string, domain: string, h: seq<World>, h': seq<World>,
      e: Event)
    requires Inv(s, owner) && e.Refuse? && e.lost == {} && Step(s, u, owner, e) && Quiet(s, h, h', {})
    requires Before(s, u, {})
    ensures Bright(s, owner, domain, h, h') && Shines(s, u, owner, domain) && s.nextCid <= u.nextCid
  {
    BeforeShines(s, u, owner, domain);
    hide Inv, Shines, Before;
    forall i | |h| <= i < |h'| ensures Shines(s, h'[i], owner, domain) {
      BeforeShines(s, h'[i], owner, domain);
    }
  }

  /** A turn that moved its replica. */
  lemma MovingOn(w: World, s: World, u: World, owner: string -> string, ws: seq<World>, es: seq<Event>,
      h0: seq<World>, h: seq<World>, h': seq<World>,
      before: Deployment, now: Deployment, next: Deployment, node: string, moved: set<nat>, views: nat -> View, t: nat,
      idx: nat, e: Event, flip: nat)
    requires Moving(w, s, owner, ws, es, h0, h, before, now, node, moved, views) && idx !in moved
    requires Inv(s, owner) && Current(s.rows, now.app) == Some(now) && now.spec.Some?
    requires Step(s, u, owner, e) && Current(u.rows, now.app) == Some(next)
    requires Moves(now, next, now.spec.value, node, idx, views(t), e)
    requires BlueGreen(s, h, h', {}, flip, now.spec.value.domain, next.replicas, {now.replicas[idx].cid})
    ensures Moving(w, u, owner, ws + [u], es + [e], h0, h', before, next, node, moved + {idx}, views)
  {
    hide Shines, Leads, Current, Spreads, Inv, PlaceIn, Step, BlueGreen, Excluded, Offers;
    LeadsOn(w, s, u, owner, ws, es, e, now.app);
    PlaceInIsOffered(views(t), now.spec.value, Excluded(now.replicas, node, idx));
    MoveSpreadsRow(before, now, next, node, moved, idx);
    assert OfferedIn(views, e.cs[0].node);
    MovedIsBright(s, u, owner, h, h', now, next, idx, e, flip);
    BrightOn(w, s, u, owner, before.spec.value.domain, h0, h, h');
  }

  lemma MoveSpreadsRow(before: Deployment, now: Deployment, next: Deployment, node: string, moved: set<nat>, idx: nat)
    requires Spreads(before.replicas, now.replicas, node, moved) && idx < |now.replicas| == |next.replicas|
    requires idx !in moved
    requires next.replicas == now.replicas[idx := next.replicas[idx]] && next.replicas[idx].node != ""
    requires next.replicas[idx].node !in Excluded(now.replicas, node, idx)
    ensures Spreads(before.replicas, next.replicas, node, moved + {idx})
  {
    MoveSpreads(before.replicas, now.replicas, node, moved, idx, next.replicas[idx]);
  }

  lemma FlippedIsAfter(w: World, v: World, domain: string, replicas: seq<Replica>, cs: seq<Container>, former: set<nat>)
    requires Flipped(w, v, domain, replicas, cs, former) && (forall id | id in w.containers :: id < w.nextCid)
    requires forall k | 0 <= k < |replicas| :: replicas[k].cid < w.nextCid + |cs|
    ensures After(w, v, domain, replicas, former)
  {
  }

  /** After a move the route is the merged set, all that it installs runs, and nothing else is gone. */
  lemma MovedIsAfter(s: World, u: World, owner: string -> string, now: Deployment, next: Deployment, idx: nat,
      c: Container)
    requires Inv(s, owner) && Current(s.rows, now.app) == Some(now) && now.spec.Some? && idx < |now.replicas|
    requires Patched(s, u, now, [idx], [c]) && Current(u.rows, now.app) == Some(next)
    ensures After(s, u, now.spec.value.domain, next.replicas, {now.replicas[idx].cid})
    ensures Merges(s, now.spec.value.domain, next.replicas, {now.replicas[idx].cid}) && s.nextCid <= u.nextCid
  {
    hide RowsOk, RoutesOk, Current, WithReplicas, NameOf, Patch, Merges, After, CidsAt, ValidSpec;
    CurrentCanMove(s, owner, now);
    UpdateMerges(s, owner, now, [idx], [c]);
    OneCid(now.replicas, idx);
    PatchedCurrent(s, u, now, [idx], [c], now.app);
    MergedIsPatch(now.replicas, idx, s.nextCid, c, now.spec.value.port);
    FlippedIsAfter(s, u, now.spec.value.domain, next.replicas, [c], {now.replicas[idx].cid});
  }

  lemma MovedIsBright(s: World, u: World, owner: string -> string, h: seq<World>, h': seq<World>, now: Deployment,
      next: Deployment, idx: nat, e: Event, flip: nat)
    requires Inv(s, owner) && Current(s.rows, now.app) == Some(now) && now.spec.Some? && idx < |now.replicas|
    requires Step(s, u, owner, e) && e.Update? && e.cur == now && e.idxs == [idx] && |e.cs| == 1
    requires Current(u.rows, now.app) == Some(next)
    requires BlueGreen(s, h, h', {}, flip, now.spec.value.domain, next.replicas, {now.replicas[idx].cid})
    ensures Bright(s, owner, now.spec.value.domain, h, h') && s.nextCid <= u.nextCid
    ensures Shines(s, u, owner, now.spec.value.domain)
  {
    hide Current;
    CurrentCanMove(s, owner, now);
    CurrentIsOwn(s, owner, now.app);
    assert now.replicas[idx].cid in CurrentCids(s.rows, now.app);
    assert [e.cs[0]] == e.cs;
    hide Inv, Current, CurrentCids, Patched, Merges, After, ValidSpec, Shines, Located, Before;
    MovedIsAfter(s, u, owner, now, next, idx, e.cs[0]);
    HistoryIsBright(s, owner, h, h', flip, now.spec.value.domain, next.replicas, {now.replicas[idx].cid});
    AfterShines(s, u, owner, now.spec.value.domain, next.replicas, {now.replicas[idx].cid});
  }

  lemma AfterShines(s: World, x: World, owner: string -> string, domain: string, replicas: seq<Replica>,
      former: set<nat>)
    requires Inv(s, owner) && After(s, x, domain, replicas, former) && Merges(s, domain, replicas, former)
    requires forall id | id in former && id in s.containers :: s.containers[id].app == owner(domain)
    ensures Shines(s, x, owner, domain)
  {
    AfterIsPaired(s, x, owner, domain, replicas, former);
    hide Inv, After, Merges, Lit, Sent, Watched, Paired, Mirrored;
    forall d | Watched(d, domain, owner) ensures Sent(s, x, d, {}) && (d in x.serving ==> Lit(s, x, d, {})) {
      if d in x.serving {
        assert RoutesOk(s, owner) by { InvRoutes(s, owner); }
        LitAfter(s, x, owner, domain, replicas, former, d);
      }
      InStepIsSent(s, x, d, {});
    }
  }

  lemma AfterIsPaired(s: World, x: World, owner: string -> string, domain: string, replicas: seq<Replica>,
      former: set<nat>)
    requires Inv(s, owner) && After(s, x, domain, replicas, former)
    ensures x.ahead == None && Mirrored(x) && Paired(x) && x.persists == s.persists
  {
    hide TableOk, RowsOk, ContainersOk, OwnEntry, RouteTo;
  }

  lemma InvRoutes(s: World, owner: string -> string)
    requires Inv(s, owner)
    ensures RoutesOk(s, owner)
  {
    hide TableOk, RowsOk, RoutesOk, ContainersOk, Mirrored;
  }

  lemma HistoryIsBright(s: World, owner: string -> string, h: seq<World>, h': seq<World>, flip: nat,
      domain: string, replicas: seq<Replica>, former: set<nat>)
    requires Inv(s, owner) && BlueGreen(s, h, h', {}, flip, domain, replicas, former) && h <= h'
    requires Merges(s, domain, replicas, former)
    requires forall id | id in former && id in s.containers :: s.containers[id].app == owner(domain)
    ensures Bright(s, owner, domain, h, h')
  {
    hide Inv, Merges, After, Before, Shines;
    forall i | |h| <= i < |h'| ensures Shines(s, h'[i], owner, domain) {
      if i < flip {
        assert h'[..flip][i] == h'[i];
        BeforeShines(s, h'[i], owner, domain);
      } else {
        AfterShines(s, h'[i], owner, domain, replicas, former);
      }
    }
  }

  function Elements(s: seq<nat>): (r: set<nat>)
    ensures forall x :: x in r <==> x in s
  {
    set x | x in s
  }

  /**
    `evacuateReplicasLocked`.  A replica that could not be moved keeps its exact entry and is reported;
    the others are still attempted.  Call number `k` of the scheduler sees `views(k)`.
  */
  method EvacuateReplicas(r: Reconciler, cur: Deployment, node: string, movingIdx: seq<nat>, views: nat -> View)
    returns (moved: seq<nat>, failed: map<nat, Failure>, next: Deployment, ghost ws: seq<World>, ghost es: seq<Event>)
    requires r.Valid() && Current(r.State().rows, cur.app) == Some(cur) && cur.scheduled && Increasing(movingIdx)
    requires forall k: nat :: WellFormed(views(k))
    modifies r, r.fleet, r.router, r.store`rows
    ensures r.Valid()
    ensures Moving(old(r.State()), r.State(), r.owner, ws, es, old(r.history), r.history, cur, next, node,
      Elements(moved), views)
    ensures failed.Keys == Elements(movingIdx) - Elements(moved) && Elements(moved) <= Elements(movingIdx)
    ensures r.Sound() ==> forall i | i in failed :: failed[i] in {ReplicaUnplaced, BadIndex}
    ensures r.heal == old(r.heal)
    ensures r.fleet.reliable ==> r.State().leaks == old(r.State()).leaks
  {
    hide Inv, Current, Moving, ValidSpec, Moves, BlueGreen, Quiet, NextId, Step, Unstaged, Located, SentToTheGone,
      PlaceIn, Excluded, Before, PassedGate, NowhereToGo;
    ghost var w, h0 := r.State(), r.history;
    moved, failed, next, ws, es := [], map[], cur, [w], [];
    CurrentCanMove(w, r.owner, cur);
    MovingStarts(w, r.owner, h0, cur, node, views);
    assert Elements(moved) == {};
    var app := cur.spec.value;
    var secrets := r.fleet.Attempt();
    if !secrets {
      failed := map i | i in movingIdx :: Secrets;
      return;
    }
    for k := 0 to |movingIdx|
      invariant r.Valid() && r.heal == old(r.heal) && (r.fleet.reliable ==> r.State().leaks == w.leaks)
      invariant Moving(w, r.State(), r.owner, ws, es, h0, r.history, cur, next, node, Elements(moved), views)
      invariant Tried(movingIdx, k, moved, failed.Keys)
      invariant r.Sound() ==> forall i | i in failed :: failed[i] in {ReplicaUnplaced, BadIndex}
    {
      TriedOn(movingIdx, k, moved, failed.Keys);
      var failure;
      failure, next, ws, es := MoveTurn(r, cur, next, app, node, movingIdx[k], k, views, Elements(moved), w, h0, ws,
        es);
      if failure.Some? {
        failed := failed[movingIdx[k] := failure.value];
      } else {
        assert Elements(moved + [movingIdx[k]]) == Elements(moved) + {movingIdx[k]};
        moved := moved + [movingIdx[k]];
      }
    }
    assert movingIdx[..|movingIdx|] == movingIdx;
  }

  /** One turn of the loop, from where it stands to where it stands next. */
  method MoveTurn(r: Reconciler, cur: Deployment, now: Deployment, app: App, node: string, idx: nat, k: nat,
      views: nat -> View, ghost moved: set<nat>, ghost w: World, ghost h0: seq<World>, ghost ws: seq<World>,
      ghost es: seq<Event>)
    returns (failure: Option<Failure>, next: Deployment, ghost ws': seq<World>, ghost es': seq<Event>)
    requires r.Valid() && cur.spec == Some(app) && cur.scheduled && idx !in moved && WellFormed(views(k))
    requires Moving(w, r.State(), r.owner, ws, es, h0, r.history, cur, now, node, moved, views)
    modifies r, r.fleet, r.router, r.store`rows
    ensures r.Valid() && r.heal == old(r.heal)
    ensures Moving(w, r.State(), r.owner, ws', es', h0, r.history, cur, next, node,
      if failure.None? then moved + {idx} else moved, views)
    ensures r.Sound() && failure.Some? ==> failure.value in {ReplicaUnplaced, BadIndex}
    ensures r.fleet.reliable ==> r.State().leaks == old(r.State()).leaks
  {
    hide Inv, Current, Moving, Moves, BlueGreen, Quiet, NextId, Step, Unstaged, SentToTheGone, Before, PassedGate,
      NowhereToGo;
    ghost var s, h := r.State(), r.history;
    MovingRow(w, s, r.owner, ws, es, h0, h, cur, now, node, moved, views);
    ghost var e, flip;
    failure, next, e, flip := MoveReplica(r, now, app, node, idx, views(k));
    ws', es' := ws + [r.State()], es + [e];
    if failure.Some? {
      MovingFails(w, s, r.State(), r.owner, ws, es, h0, h, r.history, cur, now, node, moved, views, e);
    } else {
      MovingOn(w, s, r.State(), r.owner, ws, es, h0, h, r.history, cur, now, next, node, moved, views, k, idx, e, flip);
    }
  }

  /** Of the first `k` indexes each was moved or failed, and no other was. */
  ghost predicate Tried(movingIdx: seq<nat>, k: nat, moved: seq<nat>, failed: set<nat>) {
    && k <= |movingIdx| && Elements(moved) !! failed
    && Elements(moved) + failed == Elements(movingIdx[..k])
  }

  lemma TriedOn(movingIdx: seq<nat>, k: nat, moved: seq<nat>, failed: set<nat>)
    requires Tried(movingIdx, k, moved, failed) && k < |movingIdx| && Increasing(movingIdx)
    ensures movingIdx[k] !in Elements(moved)
    ensures Tried(movingIdx, k + 1, moved + [movingIdx[k]], failed)
    ensures Tried(movingIdx, k + 1, moved, failed + {movingIdx[k]})
  {
    assert movingIdx[..k + 1] == movingIdx[..k] + [movingIdx[k]];
    assert movingIdx[k] !in movingIdx[..k];
    assert Elements(moved + [movingIdx[k]]) == Elements(moved) + {movingIdx[k]};
    assert Elements(movingIdx[..k + 1]) == Elements(movingIdx[..k]) + {movingIdx[k]};
  }

  lemma MovingRow(w: World, s: World, owner: string -> string, ws: seq<World>, es: seq<Event>, h0: seq<World>,
      h: seq<World>, before: Deployment, now: Deployment, node: string, moved: set<nat>, views: nat -> View)
    requires Moving(w, s, owner, ws, es, h0, h, before, now, node, moved, views)
    ensures Current(s.rows, now.app) == Some(now) && now.spec == before.spec && now.scheduled == before.scheduled
    ensures now.app == before.app
  {
  }
}
