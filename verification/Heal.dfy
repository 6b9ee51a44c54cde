/**
  Self-heal of a replica set: internal/reconciler/replicaheal.go.  Only the dead indexes are recreated,
  each on its own node; the row keeps its id and every other entry.
*/
module Heal {
  import opened Prelude
  import opened Schedule
  import opened Model
  import opened Transitions
  import opened Control
  import opened Effects
  import opened Runs
  import opened Uptime
  import opened Calls
  import opened Backoff
  import opened Safety
  import Fleet

  // ---------------------------------------------------------------- recreating the dead

  /** The indexes a heal has been through so far, in range and in order, and the containers for them. */
  ghost predicate Mended(cur: Deployment, deployId: nat, idxs: seq<nat>, cs: seq<Container>) {
    && |idxs| == |cs| && Increasing(idxs) && (forall k | 0 <= k < |idxs| :: idxs[k] < |cur.replicas|)
    && forall k | 0 <= k < |cs| ::
         && cs[k].app == cur.app && cs[k].image == cur.image && cs[k].node == Normalize(cur.replicas[idxs[k]].node)
         && cs[k].name == NameOf(cur.app, deployId, |cur.replicas|, idxs[k])
  }

  lemma MendedNext(cur: Deployment, deployId: nat, idxs: seq<nat>, cs: seq<Container>, i: nat, c: Container)
    requires Mended(cur, deployId, idxs, cs) && i < |cur.replicas| && (forall k | 0 <= k < |idxs| :: idxs[k] < i)
    requires c.app == cur.app && c.image == cur.image && c.node == Normalize(cur.replicas[i].node)
    requires c.name == NameOf(cur.app, deployId, |cur.replicas|, i)
    ensures Mended(cur, deployId, idxs + [i], cs + [c])
  {
    hide NameOf, Normalize;
  }

  lemma PatchNext(replicas: seq<Replica>, idxs: seq<nat>, news: seq<Replica>, i: nat, r: Replica)
    requires |idxs| == |news| && (forall k | 0 <= k < |idxs| :: idxs[k] < |replicas|) && i < |replicas|
    ensures Patch(replicas, idxs + [i], news + [r]) == Patch(replicas, idxs, news)[i := r]
  {
    assert (news + [r])[..|idxs|] == news && (idxs + [i])[..|idxs|] == idxs;
  }

  /** One turn of the recreate loop: the old container goes first, then its successor starts. */
  method MendOne(r: Reconciler, cur: Deployment, backed: bool, deployId: nat, i: nat,
                 ghost w: World, ghost h0: seq<World>, ghost cs: seq<Container>, ghost lost: set<nat>)
    returns (failed: Option<Failure>, c: Option<Fleet.Started>)
    requires i < |cur.replicas| && cur.replicas[i].cid in lost && cur.replicas[i].cid < w.nextCid
    requires Mid(w, r.State(), h0, r.history, deployId, cs, lost)
    modifies r`history, r.fleet
    ensures failed.None? ==> c.Some?
    ensures failed.Some? ==> failed.value in {Resolve, Network, Image, RunFailed, Connect}
    ensures r.Sound() ==> failed.None?
    ensures r.State().healthy == old(r.State()).healthy
    ensures c.Some? ==> r.fleet.Resolved(c.value.container.node, c.value.container.hostIP)
    ensures c.None? ==> Mid(w, r.State(), h0, r.history, deployId, cs, lost)
    ensures c.Some? ==>
      && c.value.id == w.nextCid + |cs|
      && c.value.container.app == cur.app && c.value.container.image == cur.image
      && c.value.container.node == Normalize(cur.replicas[i].node)
      && c.value.container.name == NameOf(cur.app, deployId, |cur.replicas|, i)
      && Mid(w, r.State(), h0, r.history, deployId, cs + [c.value.container], lost)
    ensures r.State().containers.Keys <= old(r.State()).containers.Keys + {w.nextCid + |cs|}
    ensures failed.None? && r.fleet.reliable && Located(old(r.State()), cur.replicas) ==>
      cur.replicas[i].cid !in r.State().containers
  {
    hide Mid, NameOf;
    failed, c := Some(Resolve), None;
    var node := Normalize(cur.replicas[i].node);
    var mesh := r.fleet.ResolveMeta(node);
    if mesh.None? {
      return;
    }
    var networked := r.fleet.Attempt();
    if !networked {
      return Some(Network), None;
    }
    var present := r.fleet.Attempt();
    if !present {
      return Some(Image), None;
    }
    ghost var s, h := r.State(), r.history;
    var removed := r.Discard(node, cur.replicas[i].cid);
    MidDiscards(w, s, r.State(), h0, h, deployId, cs, lost, cur.replicas[i].cid, removed);
    s, h := r.State(), r.history;
    c := r.Run(node, cur.app, cur.image, NameOf(cur.app, deployId, |cur.replicas|, i), mesh.value);
    if c.None? {
      MidKeeps(w, s, r.State(), h0, h, deployId, cs, lost);
      return Some(RunFailed), c;
    }
    MidRuns(w, s, r.State(), h0, h, deployId, cs, lost, c.value.container);
    failed := None;
    if backed {
      var connected := r.fleet.Attempt();
      failed := if connected then None else Some(Connect);
    }
  }

  function DeadCids(replicas: seq<Replica>, deadIdx: seq<nat>): set<nat> {
    set k | 0 <= k < |deadIdx| && deadIdx[k] < |replicas| :: replicas[deadIdx[k]].cid
  }

  ghost predicate Gone(replicas: seq<Replica>, idxs: seq<nat>, s: World) {
    forall k | 0 <= k < |idxs| && idxs[k] < |replicas| :: replicas[idxs[k]].cid !in s.containers
  }

  lemma GoneNext(replicas: seq<Replica>, deadIdx: seq<nat>, k: nat, s: World, s': World, fresh': nat)
    requires k < |deadIdx| && deadIdx[k] < |replicas| && Gone(replicas, deadIdx[..k], s)
    requires s'.containers.Keys <= s.containers.Keys + {fresh'} && replicas[deadIdx[k]].cid !in s'.containers
    requires forall j | 0 <= j < |replicas| :: replicas[j].cid < fresh'
    ensures Gone(replicas, deadIdx[..k + 1], s')
  {
    forall j | 0 <= j <= k && deadIdx[j] < |replicas| ensures replicas[deadIdx[j]].cid !in s'.containers {
      if j < k { assert deadIdx[..k][j] == deadIdx[j]; }
    }
  }

  /** Every index is one of the set. */
  predicate InRange(cur: Deployment, deadIdx: seq<nat>) {
    forall k | 0 <= k < |deadIdx| :: deadIdx[k] < |cur.replicas|
  }

  /** The recreate loop has been through the first indexes, as many as there are containers. */
  ghost predicate MendedPart(cur: Deployment, deployId: nat, deadIdx: seq<nat>, cs: seq<Container>) {
    |cs| <= |deadIdx| && Mended(cur, deployId, deadIdx[..|cs|], cs)
  }

  /** What a heal that failed had started. */
  function TriedHeal(cur: Deployment, deadIdx: seq<nat>, cs: seq<Container>): Trial
    requires |cs| <= |deadIdx|
  {
    Trial(|cur.replicas|, deadIdx[..|cs|], cs)
  }

  lemma MendedIsNamed(rows: seq<Deployment>, cur: Deployment, deadIdx: seq<nat>, cs: seq<Container>)
    requires MendedPart(cur, NextId(rows), deadIdx, cs)
    ensures WellNamed(rows, cur.app, TriedHeal(cur, deadIdx, cs))
  {
    hide NextId, NameOf;
  }

  /** The values the recreate loop has built after `k` turns. */
  ghost predicate MendedTo(cur: Deployment, deployId: nat, deadIdx: seq<nat>, k: nat, first: nat, port: int,
                           cs: seq<Container>, ids: seq<nat>, nodes: seq<string>, started: seq<Replica>,
                           replicas: seq<Replica>) {
    && k <= |deadIdx| && |cs| == k && Mended(cur, deployId, deadIdx[..k], cs)
    && ids == Ids(first, k) && nodes == NodesOf(cs) && started == Replicas(first, cs, port)
    && replicas == Patch(cur.replicas, deadIdx[..k], Replicas(first, cs, port))
  }

  lemma MendedStep(cur: Deployment, deployId: nat, deadIdx: seq<nat>, k: nat, first: nat, port: int,
                   cs: seq<Container>, ids: seq<nat>, nodes: seq<string>, started: seq<Replica>, replicas: seq<Replica>,
                   c: Container)
    requires MendedTo(cur, deployId, deadIdx, k, first, port, cs, ids, nodes, started, replicas)
    requires Increasing(deadIdx) && k < |deadIdx| && deadIdx[k] < |cur.replicas|
    requires c.app == cur.app && c.image == cur.image && c.node == Normalize(cur.replicas[deadIdx[k]].node)
    requires c.name == NameOf(cur.app, deployId, |cur.replicas|, deadIdx[k])
    ensures |replicas| == |cur.replicas|
    ensures MendedTo(cur, deployId, deadIdx, k + 1, first, port, cs + [c], ids + [first + k], nodes + [c.node],
      started + [ReplicaOf(first + k, c, port)], replicas[deadIdx[k] := ReplicaOf(first + k, c, port)])
  {
    hide NameOf, Normalize, ReplicaOf, Patch;
    MendedNext(cur, deployId, deadIdx[..k], cs, deadIdx[k], c);
    assert deadIdx[..k] + [deadIdx[k]] == deadIdx[..k + 1];
    IdsNext(first, k);
    ReplicasNext(first, cs, c, port);
    PatchNext(cur.replicas, deadIdx[..k], Replicas(first, cs, port), deadIdx[k], ReplicaOf(first + k, c, port));
  }

  /** The recreate loop.  On failure `cs` holds what was started before it. */
  method MendSet(r: Reconciler, cur: Deployment, app: App, deployId: nat, deadIdx: seq<nat>, ghost w: World)
    returns (failed: Option<Failure>, ids: seq<nat>, nodes: seq<string>, started: seq<Replica>, replicas: seq<Replica>,
      ghost cs: seq<Container>)
    requires r.State() == w && ContainersOk(w) && Mirrored(w) && Increasing(deadIdx) && Located(w, cur.replicas)
    requires forall j | 0 <= j < |cur.replicas| :: cur.replicas[j].cid < w.nextCid && cur.replicas[j].node != ""
    modifies r`history, r.fleet
    ensures Mid(w, r.State(), old(r.history), r.history, deployId, cs, DeadCids(cur.replicas, deadIdx))
    ensures ids == Ids(w.nextCid, |cs|) && nodes == NodesOf(cs) && MendedPart(cur, deployId, deadIdx, cs)
    ensures forall k | 0 <= k < |cs| :: cs[k].node != "" && cs[k].app == cur.app
    ensures failed.None? ==> MendedTo(cur, deployId, deadIdx, |deadIdx|, w.nextCid, app.port, cs, ids, nodes, started,
      replicas)
    ensures failed.None? && r.fleet.reliable ==> Gone(cur.replicas, deadIdx, r.State())
    ensures r.Sound() && InRange(cur, deadIdx) ==> failed.None?
    ensures r.State().healthy == w.healthy && forall c | c in cs :: r.fleet.Resolved(c.node, c.hostIP)
  {
    hide Mid, ContainersOk, ReplicaOf, NameOf, Mended, Patch, Located, Gone, Increasing;
    failed, ids, nodes, started, replicas, cs := None, [], [], [], cur.replicas, [];
    ghost var lost := DeadCids(cur.replicas, deadIdx);
    MidStarts(w, r.history, deployId, lost);
    NothingMended(cur, deployId, deadIdx, w, app.port);
    for k := 0 to |deadIdx|
      invariant failed.None?
      invariant MendedTo(cur, deployId, deadIdx, k, w.nextCid, app.port, cs, ids, nodes, started, replicas)
      invariant forall j | 0 <= j < k :: cs[j].node != "" && cs[j].app == cur.app
      invariant Mid(w, r.State(), old(r.history), r.history, deployId, cs, lost)
      invariant r.fleet.reliable ==> Gone(cur.replicas, deadIdx[..k], r.State())
      invariant r.State().healthy == w.healthy && forall c | c in cs :: r.fleet.Resolved(c.node, c.hostIP)
    {
      var i := deadIdx[k];
      if i >= |cur.replicas| {
        failed := Some(BadIndex);
        return;
      }
      ghost var s := r.State();
      LocatedMid(w, s, old(r.history), r.history, deployId, cs, lost, cur.replicas);
      var c;
      failed, c := MendOne(r, cur, app.backed, deployId, i, w, old(r.history), cs, lost);
      if c.None? {
        return;
      }
      MendedStep(cur, deployId, deadIdx, k, w.nextCid, app.port, cs, ids, nodes, started, replicas, c.value.container);
      ids, nodes, cs := ids + [c.value.id], nodes + [c.value.container.node], cs + [c.value.container];
      var entry := ReplicaOf(c.value.id, c.value.container, app.port);
      started, replicas := started + [entry], replicas[i := entry];
      if failed.Some? {
        return;
      }
      if r.fleet.reliable {
        GoneNext(cur.replicas, deadIdx, k, s, r.State(), w.nextCid + k);
      }
    }
    assert deadIdx[..|deadIdx|] == deadIdx;
  }

  lemma NothingMended(cur: Deployment, deployId: nat, deadIdx: seq<nat>, w: World, port: int)
    ensures MendedTo(cur, deployId, deadIdx, 0, w.nextCid, port, [], [], [], [], cur.replicas)
    ensures Gone(cur.replicas, deadIdx[..0], w)
  {
  }

  // ---------------------------------------------------------------- the whole heal

  /** The current row's facts that a heal relies on. */
  lemma CurrentCanHeal(w: World, owner: string -> string, cur: Deployment)
    requires Inv(w, owner) && Current(w.rows, cur.app) == Some(cur)
    ensures cur.spec.Some? && ValidSpec(cur.spec.value) && cur.replicas != [] && Located(w, cur.replicas)
    ensures owner(cur.spec.value.domain) == cur.app
    ensures forall j | 0 <= j < |cur.replicas| :: cur.replicas[j].cid < w.nextCid && cur.replicas[j].node != ""
    ensures forall id | id in Cids(cur.replicas) && id in w.containers :: w.containers[id].app == cur.app
  {
    hide TableOk, RowsOk, RoutesOk, ContainersOk, ValidSpec, LatestAt;
    CurrentIsLive(w, owner, cur.app);
    CurrentIsOwn(w, owner, cur.app);
    CurrentIsLocated(w, owner, cur.app);
  }

  lemma DeadAreOwn(w: World, cur: Deployment, deadIdx: seq<nat>)
    requires forall id | id in Cids(cur.replicas) && id in w.containers :: w.containers[id].app == cur.app
    ensures forall id | id in DeadCids(cur.replicas, deadIdx) && id in w.containers :: w.containers[id].app == cur.app
  {
    forall id | id in DeadCids(cur.replicas, deadIdx) ensures id in Cids(cur.replicas) { }
  }

  lemma DeadAreAt(replicas: seq<Replica>, deadIdx: seq<nat>)
    requires forall k | 0 <= k < |deadIdx| :: deadIdx[k] < |replicas|
    ensures DeadCids(replicas, deadIdx) == CidsAt(replicas, deadIdx)
  {
  }

  lemma HealCompletes(w: World, m: World, v: World, h0: seq<World>, h: seq<World>, cur: Deployment, deadIdx: seq<nat>,
      cs: seq<Container>)
    requires Mid(w, m, h0, h, NextId(w.rows), cs, DeadCids(cur.replicas, deadIdx)) && Vetted(w, m)
    requires Mended(cur, NextId(w.rows), deadIdx, cs)
    requires cur.spec.Some? && cur.replicas != []
    requires forall j | 0 <= j < |cur.replicas| :: cur.replicas[j].cid < w.nextCid && cur.replicas[j].node != ""
    requires var replicas := Patch(cur.replicas, deadIdx, Replicas(w.nextCid, cs, cur.spec.value.port));
      var routes := m.routes[cur.spec.value.domain := RouteTo(cur.spec.value.domain, replicas)];
      v == m.(serving := m.serving[cur.spec.value.domain := replicas],
              routes := routes, caddy := routes, ahead := None,
              staging := v.staging,
              rows := WithReplicas(w.rows, cur.id, replicas, Some(replicas[0].cid)),
              leaks := m.leaks + DeadCids(cur.replicas, deadIdx) * m.containers.Keys)
    ensures Patched(w, v, cur, deadIdx, cs) && StaysPut(Update(cur, deadIdx, cs))
  {
    hide NextId, Patch, RouteTo, NameOf, WithReplicas, Mid, Swapped;
    DeadAreAt(cur.replicas, deadIdx);
    MidSwaps(w, m, v, h0, h, NextId(w.rows), cs, DeadCids(cur.replicas, deadIdx));
  }

  lemma MendedCids(cur: Deployment, deployId: nat, idxs: seq<nat>, cs: seq<Container>, first: nat, port: int)
    requires Mended(cur, deployId, idxs, cs) && forall j | 0 <= j < |cur.replicas| :: cur.replicas[j].cid < first
    ensures Begun(Patch(cur.replicas, idxs, Replicas(first, cs, port)), first + |cs|)
  {
    hide Patch, Increasing, NameOf;
    forall j | 0 <= j < |cur.replicas|
      ensures Patch(cur.replicas, idxs, Replicas(first, cs, port))[j].cid < first + |cs| {
      PatchCases(cur.replicas, idxs, Replicas(first, cs, port), j);
    }
  }

  lemma NoDeadLeft(replicas: seq<Replica>, deadIdx: seq<nat>, s: World)
    requires Gone(replicas, deadIdx, s)
    ensures DeadCids(replicas, deadIdx) * s.containers.Keys == {}
  {
  }

  lemma NothingHealed(w: World, owner: string -> string, h: seq<World>, cur: Deployment, deadIdx: seq<nat>)
    requires Inv(w, owner) && Current(w.rows, cur.app) == Some(cur)
    ensures Step(w, w, owner, Refuse(cur.app, DeadCids(cur.replicas, deadIdx), []))
    ensures Quiet(w, h, h, DeadCids(cur.replicas, deadIdx))
  {
    CurrentCanHeal(w, owner, cur);
    DeadAreOwn(w, cur, deadIdx);
    hide TableOk, RowsOk, RoutesOk, Current, DeadCids, ValidSpec, Claimed;
  }

  /** What the flip of a heal installs keeps only entries it does not take down. */
  lemma HealMerges(w: World, owner: string -> string, cur: Deployment, deployId: nat, deadIdx: seq<nat>,
      cs: seq<Container>)
    requires Inv(w, owner) && Current(w.rows, cur.app) == Some(cur) && Mended(cur, deployId, deadIdx, cs)
    requires cur.spec.Some?
    ensures var merged := Patch(cur.replicas, deadIdx, Replicas(w.nextCid, cs, cur.spec.value.port));
      Merges(w, cur.spec.value.domain, merged, DeadCids(cur.replicas, deadIdx)) && Begun(merged, w.nextCid + |cs|)
  {
    CurrentCanHeal(w, owner, cur);
    MendedCids(cur, deployId, deadIdx, cs, w.nextCid, cur.spec.value.port);
    hide Inv, Current, Patch, Merges, Begun;
    UpdateMerges(w, owner, cur, deadIdx, cs);
    DeadAreAt(cur.replicas, deadIdx);
  }

  /** Recreating, staging the new replicas alone, gating and flipping; `m` is the world just before the flip. */
  method LaunchHeal(r: Reconciler, cur: Deployment, app: App, deployId: nat, deadIdx: seq<nat>, ghost w: World)
    returns (failed: Option<Failure>, ids: seq<nat>, nodes: seq<string>, replicas: seq<Replica>,
      ghost cs: seq<Container>, ghost m: World, ghost hm: seq<World>)
    requires r.State() == w && Inv(w, r.owner) && Current(w.rows, cur.app) == Some(cur) && cur.spec == Some(app)
    requires Increasing(deadIdx)
    requires Located(w, cur.replicas)
    requires forall j | 0 <= j < |cur.replicas| :: cur.replicas[j].cid < w.nextCid && cur.replicas[j].node != ""
    modifies r`history, r`ahead, r`serving, r.fleet, r.router
    ensures ids == Ids(w.nextCid, |cs|) && nodes == NodesOf(cs) && MendedPart(cur, deployId, deadIdx, cs)
    ensures forall k | 0 <= k < |cs| :: cs[k].node != "" && cs[k].app == cur.app
    ensures failed.Some? ==> Mid(w, r.State(), old(r.history), r.history, deployId, cs, DeadCids(cur.replicas, deadIdx))
    ensures failed.None? ==>
      && Mid(w, m, old(r.history), hm, deployId, cs, DeadCids(cur.replicas, deadIdx)) && Vetted(w, m)
      && Mended(cur, deployId, deadIdx, cs) &&
        replicas == Patch(cur.replicas, deadIdx, Replicas(w.nextCid, cs, app.port))
      && (r.fleet.reliable ==> Gone(cur.replicas, deadIdx, m))
      && PassedGate(w.nextCid, old(r.history), hm, deployId, cs, app.port, |hm|)
      && Turned(m, r.State(), app.domain, replicas)
      && r.history == hm + [r.State()]
    ensures r.Sound() && InRange(cur, deadIdx) ==> failed.None?
    ensures forall c | c in cs :: r.fleet.Resolved(c.node, c.hostIP)
  {
    hide Mid, TableOk, RowsOk, RoutesOk, ContainersOk, Current, RouteTo, Mended, Gone, Located, Increasing, DeadCids,
      Merges, Patch, Upstreams, PassedGate, LeadTo, Unchecked, InRange;
    var started;
    failed, ids, nodes, started, replicas, cs := MendSet(r, cur, app, deployId, deadIdx, w);
    ghost var lost := DeadCids(cur.replicas, deadIdx);
    m, hm := r.State(), r.history;
    if failed.Some? {
      return;
    }
    assert deadIdx[..|deadIdx|] == deadIdx;
    ReplicasLeadTo(w.nextCid, cs, app.port);
    UncheckedYet(w, r.State());
    failed := StageSet(r, deployId, Upstreams(started), ids, w, old(r.history), cs, lost, app.port);
    GoneStays(cur.replicas, deadIdx, m, r.State());
    m, hm := r.State(), r.history;
    if failed.Some? {
      return;
    }
    var flipped := r.Flip(app.domain, replicas);
    if !flipped {
      HealMerges(w, r.owner, cur, deployId, deadIdx, cs);
      MidMisses(w, m, r.State(), old(r.history), hm, deployId, cs, lost, app.domain, replicas);
      failed := Some(FlipRefused);
    }
  }

  lemma GoneStays(replicas: seq<Replica>, idxs: seq<nat>, s: World, s': World)
    requires s'.containers == s.containers
    ensures Gone(replicas, idxs, s) ==> Gone(replicas, idxs, s')
  {
  }

  /** What follows the flip: drop staging, and the row in place. */
  method FinishHeal(r: Reconciler, cur: Deployment, deployId: nat, deadIdx: seq<nat>, replicas: seq<Replica>,
                    ghost w: World, ghost m: World, ghost h0: seq<World>, ghost hm: seq<World>,
                    ghost cs: seq<Container>)
    requires cur.spec.Some? && cur.replicas != []
    requires forall j | 0 <= j < |cur.replicas| :: cur.replicas[j].cid < w.nextCid && cur.replicas[j].node != ""
    requires deployId == NextId(w.rows) && Mid(w, m, h0, hm, deployId, cs, DeadCids(cur.replicas, deadIdx))
    requires Vetted(w, m) && Mended(cur, deployId, deadIdx, cs)
    requires replicas == Patch(cur.replicas, deadIdx, Replicas(w.nextCid, cs, cur.spec.value.port)) && replicas != []
    requires Turned(m, r.State(), cur.spec.value.domain, replicas)
    requires r.history == hm + [r.State()]
    modifies r, r.router, r.store`rows
    ensures Patched(w, r.State(), cur, deadIdx, cs) && StaysPut(Update(cur, deadIdx, cs))
    ensures Unstaged(w, r.State(), deployId, r.router.steady)
    ensures hm <= r.history
    ensures BlueGreen(w, h0, r.history, DeadCids(cur.replicas, deadIdx), |hm|, cur.spec.value.domain, replicas,
      DeadCids(cur.replicas, deadIdx))
    ensures Gone(cur.replicas, deadIdx, m) ==> r.State().leaks == w.leaks
    ensures r.heal == w.heal
  {
    hide Mid, Patched, StaysPut, Gone, BlueGreen, After, NextId, Mended, Patch, RouteTo, DeadCids, Quiet;
    MidFrame(w, m, h0, hm, deployId, cs, DeadCids(cur.replicas, deadIdx));
    MendedCids(cur, deployId, deadIdx, cs, w.nextCid, cur.spec.value.port);
    ghost var lost := DeadCids(cur.replicas, deadIdx);
    ghost var f := r.State();
    AfterFlip(w, m, f, h0, hm, deployId, cs, lost, cur.spec.value.domain, replicas, lost);
    r.Unstage(deployId);
    UnstagedInStep(f, r.State(), deployId);
    AfterSame(w, f, r.State(), cur.spec.value.domain, replicas, lost);
    TurnsGreen(w, h0, hm, r.history, lost, cur.spec.value.domain, replicas, lost);
    r.store.UpdateReplicas(cur.id, replicas, Some(replicas[0].cid));
    r.leaks := r.leaks + lost * r.fleet.containers.Keys;
    HealCompletes(w, m, r.State(), h0, hm, cur, deadIdx, cs);
    if Gone(cur.replicas, deadIdx, m) {
      NoDeadLeft(cur.replicas, deadIdx, m);
    }
  }

  /** The clean-up of a heal that failed; what it could not remove is a leak from here on. */
  method AbandonHeal(r: Reconciler, cur: Deployment, deployId: nat, deadIdx: seq<nat>, nodes: seq<string>,
      ids: seq<nat>,
                     ghost w: World, ghost h0: seq<World>, ghost cs: seq<Container>)
    requires Inv(w, r.owner) && Current(w.rows, cur.app) == Some(cur)
    requires Mid(w, r.State(), h0, r.history, deployId, cs, DeadCids(cur.replicas, deadIdx))
    requires ids == Ids(w.nextCid, |cs|) && nodes == NodesOf(cs)
    requires forall k | 0 <= k < |cs| :: cs[k].node != "" && cs[k].app == cur.app
    requires deployId == NextId(w.rows) && MendedPart(cur, deployId, deadIdx, cs)
    modifies r`history, r`ahead, r`leaks, r.fleet, r.router
    ensures r.Valid()
    ensures Step(w, r.State(), r.owner, Refuse(cur.app, DeadCids(cur.replicas, deadIdx), [],
      TriedHeal(cur, deadIdx, cs)))
    ensures Quiet(w, h0, r.history, DeadCids(cur.replicas, deadIdx))
    ensures Unstaged(w, r.State(), deployId, r.router.steady)
    ensures r.fleet.reliable ==> r.State().leaks == w.leaks
  {
    hide TableOk, RowsOk, RoutesOk, ContainersOk, Mid, Current, Quiet, Clearing, DeadCids, Step, NodesOf, NextId,
      WellNamed, Mended;
    ghost var tried := TriedHeal(cur, deadIdx, cs);
    MendedIsNamed(w.rows, cur, deadIdx, cs);
    TearDown(r, deployId, nodes, ids, w, h0, cs, DeadCids(cur.replicas, deadIdx));
    ghost var s := r.State();
    r.leaks := r.leaks + (r.fleet.containers.Keys - w.containers.Keys);
    CurrentCanHeal(w, r.owner, cur);
    DeadAreOwn(w, cur, deadIdx);
    GaveUp(w, s, r.State(), r.owner, h0, r.history, deployId, cs, DeadCids(cur.replicas, deadIdx), r.fleet.reliable,
      cur.app, tried);
    StepKeepsInv(w, r.State(), r.owner, Refuse(cur.app, DeadCids(cur.replicas, deadIdx), [], tried));
  }

  lemma HealIsStep(w: World, v: World, owner: string -> string, cur: Deployment, deadIdx: seq<nat>,
      cs: seq<Container>, replicas: seq<Replica>)
    requires Inv(w, owner) && Current(w.rows, cur.app) == Some(cur) && cur.spec.Some? && replicas != []
    requires Patched(w, v, cur, deadIdx, cs) && StaysPut(Update(cur, deadIdx, cs)) && v.heal == w.heal
    requires replicas == Patch(cur.replicas, deadIdx, Replicas(w.nextCid, cs, cur.spec.value.port))
    ensures Step(w, v, owner, Update(cur, deadIdx, cs)) && Inv(v, owner)
    ensures Current(v.rows, cur.app) == Some(cur.(replicas := replicas, containerId := Some(replicas[0].cid)))
  {
    hide TableOk, RowsOk, RoutesOk, ContainersOk, Patched, InPlace, Current;
    StepKeepsInv(w, v, owner, Update(cur, deadIdx, cs));
    PatchedCurrent(w, v, cur, deadIdx, cs, cur.app);
  }

  /** `healDeadReplicasLocked`. */
  method HealDeadReplicas(r: Reconciler, cur: Deployment, deadIdx: seq<nat>)
    returns (res: Result<Deployment, Failure>, ghost e: Event, ghost flip: nat)
    requires r.Valid() && Current(r.State().rows, cur.app) == Some(cur) && Increasing(deadIdx)
    modifies r, r.fleet, r.router, r.store`rows
    ensures r.Valid() && Step(old(r.State()), r.State(), r.owner, e) && Subject(e) == cur.app && StaysPut(e)
    ensures deadIdx == [] ==> res == Ok(cur) && r.State() == old(r.State()) && e.Refuse?
    ensures res.Ok? && deadIdx != [] ==>
      && e.Update? && e.cur == cur && e.idxs == deadIdx
      && Current(r.State().rows, cur.app) == Some(res.value) && cur.spec.Some?
      && BlueGreen(old(r.State()), old(r.history), r.history, DeadCids(cur.replicas, deadIdx), flip,
                   cur.spec.value.domain, res.value.replicas, DeadCids(cur.replicas, deadIdx))
      && PassedGate(old(r.State()).nextCid, old(r.history), r.history, NextId(old(r.State()).rows), e.cs,
               cur.spec.value.port, flip)
      && forall c | c in e.cs :: r.fleet.Resolved(c.node, c.hostIP)
    ensures r.Sound() && InRange(cur, deadIdx) ==> res.Ok?
    ensures res.Err? ==>
      && e.Refuse? && e.lost == DeadCids(cur.replicas, deadIdx) && e.noted == []
      && Quiet(old(r.State()), old(r.history), r.history, DeadCids(cur.replicas, deadIdx))
    ensures r.heal == old(r.heal)
    ensures Unstaged(old(r.State()), r.State(), NextId(old(r.State()).rows), r.router.steady)
    ensures r.fleet.reliable ==> r.State().leaks == old(r.State()).leaks
  {
    hide Inv, Step, Mid, Current, ValidSpec, NextId, Patched, BlueGreen, Quiet, RouteTo, Gone, Mended, DeadCids, Patch,
      InPlace, Located, PassedGate;
    ghost var w, h0 := r.State(), r.history;
    flip := |h0|;
    e := Refuse(cur.app, DeadCids(cur.replicas, deadIdx), []);
    CurrentCanHeal(w, r.owner, cur);
    NothingHealed(w, r.owner, h0, cur, deadIdx);
    if |deadIdx| == 0 {
      return Ok(cur), e, flip;
    }
    var secrets := r.fleet.Attempt();
    if !secrets {
      return Err(Secrets), e, flip;
    }
    var deployId := r.store.NextDeployID();
    var failed, ids, nodes, replicas;
    ghost var cs, m, hm;
    failed, ids, nodes, replicas, cs, m, hm := LaunchHeal(r, cur, cur.spec.value, deployId, deadIdx, w);
    if failed.Some? {
      AbandonHeal(r, cur, deployId, deadIdx, nodes, ids, w, h0, cs);
      e := Refuse(cur.app, DeadCids(cur.replicas, deadIdx), [], TriedHeal(cur, deadIdx, cs));
      return Err(failed.value), e, flip;
    }
    FinishHeal(r, cur, deployId, deadIdx, replicas, w, m, h0, hm, cs);
    e, flip := Update(cur, deadIdx, cs), |hm|;
    PassedOn(w.nextCid, h0, hm, r.history, deployId, cs, cur.spec.value.port, flip);
    HealIsStep(w, r.State(), r.owner, cur, deadIdx, cs, replicas);
    res := Ok(cur.(replicas := replicas, containerId := Some(replicas[0].cid)));
  }

  // ---------------------------------------------------------------- the gate

  datatype Health = Healthy | Degraded | Broken

  datatype Report = Report(health: Health, attempts: nat)

  /** Bookkeeping alone. */
  lemma NoteStep(w: World, v: World, owner: string -> string, app: string, beat: Beat)
    requires v == w.(heal := v.heal) && Tempo(w.heal, v.heal, app, beat) && Inv(w, owner)
    ensures Step(w, v, owner, Note(app, beat)) && Inv(v, owner)
  {
    hide Inv;
    NoteKeepsInv(w, v, owner);
  }

  lemma OneKey<V>(m: map<string, V>, k: string, x: V)
    ensures SameBut(m, m[k := x], k) && SameBut(m, m - {k}, k)
  {
  }

  /** One write to the heal map. */
  method SetEntry(r: Reconciler, app: string, entry: Option<HealState>)
    modifies r`heal
    ensures r.State() == old(r.State()).(heal := r.heal) && Entry(r.heal, app) == entry
    ensures SameBut(old(r.heal), r.heal, app)
  {
    match entry {
      case None =>
        OneKey(r.heal, app, HealState(0, 0));
        r.heal := r.heal - {app};
      case Some(hs) =>
        OneKey(r.heal, app, hs);
        r.heal := r.heal[app := hs];
    }
  }

  lemma PatchedHealFree(w: World, v: World, a: map<string, HealState>, b: map<string, HealState>, cur: Deployment,
      idxs: seq<nat>, cs: seq<Container>)
    requires Patched(w.(heal := a), v, cur, idxs, cs)
    ensures Patched(w, v.(heal := b), cur, idxs, cs)
  {
    SwappedHealFree(w, v, a, b, cs, CidsAt(cur.replicas, idxs));
    hide Swapped, Patch, NextId, NameOf, RouteTo, WithReplicas, Increasing, CidsAt, Replicas;
  }

  lemma SwappedHealFree(w: World, v: World, a: map<string, HealState>, b: map<string, HealState>, cs: seq<Container>,
      former: set<nat>)
    requires Swapped(w.(heal := a), v, cs, former)
    ensures Swapped(w, v.(heal := b), cs, former)
  {
  }

  lemma RefusedHealFree(w: World, v: World, a: map<string, HealState>, b: map<string, HealState>, app: string,
      lost: set<nat>, noted: seq<Deployment>)
    requires Refused(w.(heal := a), v, app, lost, noted)
    ensures Refused(w, v.(heal := b), app, lost, noted)
  {
    hide NextId;
  }

  /** An operation between two writes to the bookkeeping is one step, and its beat is what they amount to. */
  lemma Rebeat(w: World, s: World, s': World, v: World, owner: string -> string, e: Event, beat: Beat)
    requires Step(s, s', owner, e) && (e.Update? || e.Refuse?)
    requires s == w.(heal := s.heal) && v == s'.(heal := v.heal) && Tempo(w.heal, v.heal, Subject(e), beat)
    ensures Step(w, v, owner, WithBeat(e, beat))
  {
    hide Tempo, Current, Patched, Refused, KeepsPin;
    if e.Update? {
      PatchedHealFree(w, s', s.heal, v.heal, e.cur, e.idxs, e.cs);
    } else {
      RefusedHealFree(w, s', s.heal, v.heal, e.name, e.lost, e.noted);
    }
  }

  lemma SameButTwice<V>(a: map<string, V>, b: map<string, V>, c: map<string, V>, key: string)
    requires SameBut(a, b, key) && SameBut(b, c, key)
    ensures SameBut(a, c, key)
  {
  }

  /** Counting the attempt, and the heal itself. */
  method CountAndHeal(r: Reconciler, cur: Deployment, deadIdx: seq<nat>, hs: HealState)
    returns (res: Result<Deployment, Failure>, ghost e: Event, ghost s: World)
    requires r.Valid() && Current(r.State().rows, cur.app) == Some(cur) && Increasing(deadIdx)
    modifies r, r.fleet, r.router, r.store`rows
    ensures r.Valid() && Step(s, r.State(), r.owner, e) && Subject(e) == cur.app && StaysPut(e)
    ensures s == old(r.State()).(heal := s.heal) && s.heal == r.heal && SameBut(old(r.heal), r.heal, cur.app)
    ensures if res.Ok? && deadIdx != [] then e.Update? && e.idxs == deadIdx && e.cur == cur else e.Refuse?
    ensures res.Err? ==> e.lost == DeadCids(cur.replicas, deadIdx) && e.noted == []
    ensures r.Sound() && InRange(cur, deadIdx) ==> res.Ok?
    ensures r.fleet.reliable ==> r.State().leaks == old(r.State()).leaks
  {
    hide Inv, Step, Current, BlueGreen, Quiet, StaysPut, NextId, SameBut, DeadCids, Unstaged;
    ghost var w := r.State();
    SetEntry(r, cur.app, Some(HealState(hs.attempts + 1, hs.nextEligible)));
    s := r.State();
    HealFree(w, s, r.owner);
    ghost var flip;
    res, e, flip := HealDeadReplicas(r, cur, deadIdx);
  }

  lemma Attempted(a: map<string, HealState>, b: map<string, HealState>, name: string, now: nat, ok: bool, max: nat)
    requires SameBut(a, b, name) && Allowed(Entry(a, name), now, max)
    requires Entry(b, name) == if ok then None else Some(AfterFailure(Entry(a, name), now))
    ensures Tempo(a, b, name, Attempt(now, ok, max))
  {
  }

  /** The attempt itself: count it, heal, then set the backoff or clear the entry. */
  method AttemptHeal(r: Reconciler, cur: Deployment, deadIdx: seq<nat>, now: nat, max: nat)
    returns (res: Result<Deployment, Failure>, ghost e: Event)
    requires r.Valid() && Current(r.State().rows, cur.app) == Some(cur) && Increasing(deadIdx)
    requires Allowed(Entry(r.heal, cur.app), now, max)
    modifies r, r.fleet, r.router, r.store`rows
    ensures r.Valid() && Step(old(r.State()), r.State(), r.owner, e) && Subject(e) == cur.app && StaysPut(e)
    ensures BeatOf(e) == Attempt(now, res.Ok?, max)
    ensures Entry(r.heal, cur.app) ==
      if res.Ok? then None else Some(AfterFailure(Entry(old(r.heal), cur.app), now))
    ensures if res.Ok? && deadIdx != [] then e.Update? && e.idxs == deadIdx && e.cur == cur else e.Refuse?
    ensures res.Err? ==> e.lost == DeadCids(cur.replicas, deadIdx) && e.noted == []
    ensures r.Sound() && InRange(cur, deadIdx) ==> res.Ok?
    ensures r.fleet.reliable ==> r.State().leaks == old(r.State()).leaks
  {
    hide Inv, Step, Current, HealBackoff, StaysPut, SameBut, Allowed, Tempo;
    ghost var w := r.State();
    var hs := if cur.app in r.heal then r.heal[cur.app] else HealState(0, 0);
    ghost var e0, s;
    res, e0, s := CountAndHeal(r, cur, deadIdx, hs);
    ghost var s' := r.State();
    var after := HealState(hs.attempts + 1, now + HealBackoff(hs.attempts + 1));
    SetEntry(r, cur.app, if res.Ok? then None else Some(after));
    SameButTwice(w.heal, s'.heal, r.heal, cur.app);
    Attempted(w.heal, r.heal, cur.app, now, res.Ok?, max);
    Rebeat(w, s, s', r.State(), r.owner, e0, Attempt(now, res.Ok?, max));
    HealFree(s', r.State(), r.owner);
    BeatKeepsPut(e0, Attempt(now, res.Ok?, max));
    e := WithBeat(e0, Attempt(now, res.Ok?, max));
  }

  lemma HealFree(w: World, v: World, owner: string -> string)
    requires Inv(w, owner) && v == w.(heal := v.heal)
    ensures Inv(v, owner) && v.rows == w.rows
  {
    hide Inv;
    NoteKeepsInv(w, v, owner);
  }

  lemma BeatKeepsPut(e: Event, beat: Beat)
    requires (e.Update? || e.Refuse?) && StaysPut(e)
    ensures StaysPut(WithBeat(e, beat))
  {
  }

  /** How many attempts the bookkeeping counts, and whether it lets another begin. */
  function Tries(heal: map<string, HealState>, app: string): nat {
    if app in heal then heal[app].attempts else 0
  }

  predicate MayTry(heal: map<string, HealState>, app: string, now: nat, max: nat) {
    Tries(heal, app) < max && (app in heal ==> heal[app].nextEligible <= now)
  }

  /** `tryHealReplicas`: `observed` was read without the lock, `now` is the clock, `max` the attempt limit. */
  method TryHealReplicas(r: Reconciler, observed: Deployment, deadIdx: seq<nat>, now: nat, max: nat)
    returns (report: Option<Report>, ghost e: Event)
    requires r.Valid() && Increasing(deadIdx)
    modifies r, r.fleet, r.router, r.store`rows
    ensures r.Valid() && Step(old(r.State()), r.State(), r.owner, e) && Subject(e) == observed.app && StaysPut(e)
    ensures Performs(Healing, [old(r.State()), r.State()], [e])
    ensures Stale(old(r.State()), observed.app, observed.id) ==>
      report.None? && r.State() == old(r.State()) && r.history == old(r.history)
    ensures BeatOf(e).Attempt? <==>
      !Stale(old(r.State()), observed.app, observed.id) && MayTry(old(r.heal), observed.app, now, max)
    ensures BeatOf(e).Attempt? ==>
      && BeatOf(e).at == now && BeatOf(e).max == max && Current(old(r.State()).rows, observed.app).Some?
      && Outcomes(e, Current(old(r.State()).rows, observed.app).value, deadIdx)
      && (r.Sound() && InRange(Current(old(r.State()).rows, observed.app).value, deadIdx) ==> BeatOf(e).ok)
      && var n := Tries(old(r.heal), observed.app) + 1;
      && report == Some(if BeatOf(e).ok then Report(Healthy, 0) else Report(Broken, n))
      && if BeatOf(e).ok then observed.app !in r.heal
         else observed.app in r.heal && r.heal[observed.app] == HealState(n, now + HealBackoff(n))
    ensures !BeatOf(e).Attempt? ==>
      e.Note? && Passive(BeatOf(e)) && r.State() == old(r.State()).(heal := r.heal) && r.history == old(r.history)
    ensures !BeatOf(e).Attempt? && !Stale(old(r.State()), observed.app, observed.id) ==>
      var n := Tries(old(r.heal), observed.app);
      report == Some(Report(if n >= max then Broken else Degraded, n)) && Tries(r.heal, observed.app) == n
    ensures r.fleet.reliable ==> r.State().leaks == old(r.State()).leaks
  {
    hide Inv, Step, Current, SameBut, HealBackoff, InPlace, Outcomes, DeadCids, InRange;
    var app := observed.app;
    ghost var w := r.State();
    e := Note(app, Idle);
    NoteStep(w, w, r.owner, app, Idle);
    var current := r.store.CurrentDeployment(app);
    if current.None? || current.value.id != observed.id {
      return None, e;
    }
    var hs := if app in r.heal then r.heal[app] else HealState(0, 0);
    if hs.attempts >= max || now < hs.nextEligible {
      SetEntry(r, app, Some(hs));
      e := Note(app, Gated);
      NoteStep(w, r.State(), r.owner, app, Gated);
      report := Some(Report(if hs.attempts >= max then Broken else Degraded, hs.attempts));
      return;
    }
    CurrentOf(w, r.owner, app);
    var res;
    res, e := AttemptHeal(r, current.value, deadIdx, now, max);
    OutcomesAre(e, current.value, deadIdx);
    report := Some(if res.Ok? then Report(Healthy, 0) else Report(Broken, hs.attempts + 1));
  }

  /**
    What an attempt at `deadIdx` of row `cur` is: an update of exactly those indexes, or a failure that has taken
    down at most the containers at them; with nothing to heal it does nothing.
  */
  ghost predicate Outcomes(e: Event, cur: Deployment, deadIdx: seq<nat>) {
    && BeatOf(e).Attempt?
    && (BeatOf(e).ok && deadIdx != [] ==> e.Update? && e.cur == cur && e.idxs == deadIdx)
    && (!BeatOf(e).ok ==> e.Refuse? && e.noted == [] && forall id ::
          id in e.lost <==> exists k :: 0 <= k < |cur.replicas| && k in deadIdx && cur.replicas[k].cid == id)
  }

  lemma OutcomesAre(e: Event, cur: Deployment, deadIdx: seq<nat>)
    requires BeatOf(e).Attempt?
    requires if BeatOf(e).ok && deadIdx != [] then e.Update? && e.cur == cur && e.idxs == deadIdx else e.Refuse?
    requires !BeatOf(e).ok ==> e.lost == DeadCids(cur.replicas, deadIdx) && e.noted == []
    ensures Outcomes(e, cur, deadIdx)
  {
    if !BeatOf(e).ok {
      forall id ensures id in e.lost <==>
        exists k :: 0 <= k < |cur.replicas| && k in deadIdx && cur.replicas[k].cid == id
      {
        if k :| 0 <= k < |cur.replicas| && k in deadIdx && cur.replicas[k].cid == id {
          var j :| 0 <= j < |deadIdx| && deadIdx[j] == k;
        }
      }
    }
  }

  // ---------------------------------------------------------------- observing the set

  /** What the probes of one replica answer: its node's reachability, its resolution, and the container's state. */
  datatype Glimpse = Glimpse(reachable: bool, resolves: bool, state: Option<string>)

  /** The node of a replica is out of sight: it is known not to answer, or does not resolve. */
  predicate OutOfSight(g: Glimpse, wired: bool) {
    !g.resolves || (wired && !g.reachable)
  }

  /** A replica in sight is seen dead if its state is anything but running, or cannot be read. */
  predicate SeenDead(g: Glimpse, wired: bool) {
    g.resolves && (wired ==> g.reachable) && (g.state.Some? ==> g.state.value != "running")
  }

  /** The probe loop of `reconcileReplicaSet`, run without the lock; `wired` tells whether reachability is known. */
  method Observe(replicas: seq<Replica>, wired: bool, glimpses: nat -> Glimpse)
    returns (deadIdx: seq<nat>, unseen: seq<nat>)
    ensures Increasing(deadIdx)
    ensures forall k :: k in deadIdx <==> 0 <= k < |replicas| && SeenDead(glimpses(k), wired)
    ensures forall k :: k in unseen <==> 0 <= k < |replicas| && OutOfSight(glimpses(k), wired)
  {
    deadIdx, unseen := [], [];
    for i := 0 to |replicas|
      invariant Increasing(deadIdx)
      invariant forall k :: k in deadIdx <==> 0 <= k < i && SeenDead(glimpses(k), wired)
      invariant forall k :: k in unseen <==> 0 <= k < i && OutOfSight(glimpses(k), wired)
    {
      var g := glimpses(i);
      if wired && !g.reachable {
        unseen := unseen + [i];
        continue;
      }
      if !g.resolves {
        unseen := unseen + [i];
        continue;
      }
      if g.state.None? || g.state.value != "running" {
        assert forall k | 0 <= k < |deadIdx| :: deadIdx[k] in deadIdx;
        deadIdx := deadIdx + [i];
      }
    }
  }

  /** Some replica was seen dead; some was out of sight. */
  ghost predicate AnyDead(observed: Deployment, wired: bool, glimpses: nat -> Glimpse) {
    exists k: nat :: k < |observed.replicas| && SeenDead(glimpses(k), wired)
  }

  ghost predicate AnyUnseen(observed: Deployment, wired: bool, glimpses: nat -> Glimpse) {
    exists k: nat :: k < |observed.replicas| && OutOfSight(glimpses(k), wired)
  }

  /**
    `reconcileReplicaSet`.  If any replica is seen dead, whatever else is out of sight, a heal is tried unless the
    row is superseded or the bookkeeping forbids it, and it is of exactly the indexes seen dead; with none dead, an
    unseen replica leaves everything alone and a set seen wholly alive clears the bookkeeping.  What is at those
    indexes by the time of the lock is `Observed.HealTakesTheSeenIff`.
  */
  method ReconcileReplicaSet(r: Reconciler, observed: Deployment, wired: bool, glimpses: nat -> Glimpse, now: nat,
      max: nat)
    returns (report: Option<Report>, ghost deadIdx: seq<nat>, ghost e: Event)
    requires r.Valid()
    modifies r, r.fleet, r.router, r.store`rows
    ensures r.Valid() && Step(old(r.State()), r.State(), r.owner, e) && Subject(e) == observed.app && StaysPut(e)
    ensures Performs(Healing, [old(r.State()), r.State()], [e])
    ensures forall k :: k in deadIdx <==> 0 <= k < |observed.replicas| && SeenDead(glimpses(k), wired)
    ensures BeatOf(e).Attempt? <==>
      && AnyDead(observed, wired, glimpses) && !Stale(old(r.State()), observed.app, observed.id)
      && MayTry(old(r.heal), observed.app, now, max)
    ensures BeatOf(e).Attempt? ==>
      && BeatOf(e).at == now && BeatOf(e).max == max
      && Current(old(r.State()).rows, observed.app).Some?
      && var cur := Current(old(r.State()).rows, observed.app).value;
      cur.id == observed.id && Outcomes(e, cur, deadIdx) && (r.Sound() && InRange(cur, deadIdx) ==> BeatOf(e).ok)
    ensures BeatOf(e).Reset? <==> !AnyDead(observed, wired, glimpses) && !AnyUnseen(observed, wired, glimpses)
    ensures !BeatOf(e).Attempt? ==> r.State() == old(r.State()).(heal := r.heal) && r.history == old(r.history)
    ensures BeatOf(e).Reset? ==> report == Some(Report(Healthy, 0)) && observed.app !in r.heal
    ensures !AnyDead(observed, wired, glimpses) && AnyUnseen(observed, wired, glimpses) ==>
      r.State() == old(r.State()) && report == Some(Report(Degraded, Tries(old(r.heal), observed.app)))
    ensures r.fleet.reliable ==> r.State().leaks == old(r.State()).leaks
  {
    hide Inv, Step, Current, InPlace, MayTry, AfterFailure, Increasing, SameBut, Outcomes, SeenDead, OutOfSight,
      InRange,
      HealBackoff;
    ghost var w := r.State();
    e := Note(observed.app, Idle);
    NoteStep(w, w, r.owner, observed.app, Idle);
    var dead, unseen := Observe(observed.replicas, wired, glimpses);
    deadIdx := dead;
    if |dead| > 0 {
      assert dead[0] in dead;
      report, e := TryHealReplicas(r, observed, dead, now, max);
    } else if |unseen| > 0 {
      assert unseen[0] in unseen;
      var attempts := if observed.app in r.heal then r.heal[observed.app].attempts else 0;
      report := Some(Report(Degraded, attempts));
    } else {
      SetEntry(r, observed.app, None);
      e, report := Note(observed.app, Reset), Some(Report(Healthy, 0));
      NoteStep(w, r.State(), r.owner, observed.app, Reset);
    }
  }
}
