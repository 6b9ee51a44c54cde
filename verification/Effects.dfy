/**
  What the effects of a locked operation add up to, part way through and at its end.  Deploys, heals and
  evacuations all start containers beside the live set, gate them, flip, and then clean up; the predicates
  here say where such an operation stands, and the lemmas how one more effect moves it on.
*/
module Effects {
  import opened Prelude
  import opened Schedule
  import opened Model
  import opened Transitions
  import opened Control
  import opened Runs
  import Fleet

  /** Where an operation gave up. */
  datatype Failure =
    | InvalidSpec | NoSnapshot | NoCurrent | NoPrevious
    | Unplaced | Resolve | EdgeDown | Network | Image | Secrets | Backing
    | ReplicaUnplaced | ReplicaResolve | ReplicaNetwork
    | ReplicaImage | RunFailed | Connect | Staging | Unhealthy | FlipRefused
    | BadIndex | List | Teardown | BadCount

  /** Whether a deploy that failed there leaves a failed row behind. */
  predicate Recorded(f: Failure) {
    match f
    case Unplaced | Resolve | Secrets | Backing => true
    case ReplicaImage | RunFailed | Connect | Staging | Unhealthy | FlipRefused => true
    case _ => false
  }

  // ---------------------------------------------------------------- between two effects

  /** The new set's entries are fresh, or kept from the old route and not being taken down. */
  ghost predicate Merges(w: World, domain: string, replicas: seq<Replica>, former: set<nat>) {
    forall k | 0 <= k < |replicas| ::
      || replicas[k].cid >= w.nextCid
      || (domain in w.serving && replicas[k] in w.serving[domain] && replicas[k].cid !in former)
  }

  /** If Caddy is ahead at `s`, it was so at `w` already, or a flip that was not committed sent it a merged set. */
  ghost predicate AheadOk(w: World, s: World, lost: set<nat>) {
    || s.ahead == None || s.ahead == w.ahead
    || (s.ahead.value.replicas.Some? && Merges(w, s.ahead.value.domain, s.ahead.value.replicas.value, lost))
  }

  /** Before the flip no route has moved, and nothing that was there is gone but what is in `lost`. */
  ghost predicate Before(w: World, s: World, lost: set<nat>) {
    && s.serving == w.serving && s.routes == w.routes && s.persists == w.persists && Mirrored(s) && AheadOk(w, s, lost)
    && forall id | id in w.containers && id !in lost :: id in s.containers && s.containers[id] == w.containers[id]
  }

  /** From the flip on the route is the new set, all of it runs, and only the old set is being taken down. */
  ghost predicate After(w: World, s: World, domain: string, replicas: seq<Replica>, former: set<nat>) {
    && s.serving == w.serving[domain := replicas]
    && s.routes == w.routes[domain := RouteTo(domain, replicas)]
    && s.ahead == None && s.caddy == s.routes && s.persists == w.persists
    && (forall id | id in w.containers && id !in former :: id in s.containers && s.containers[id] == w.containers[id])
    && (forall k | 0 <= k < |replicas| && replicas[k].cid >= w.nextCid :: replicas[k].cid in s.containers)
  }

  /** Effects only ever extend the history, and these moved no route and took down only `lost`. */
  ghost predicate Quiet(w: World, h0: seq<World>, h: seq<World>, lost: set<nat>) {
    h0 <= h && forall i | |h0| <= i < |h| :: Before(w, h[i], lost)
  }

  /** Every world the effects since `h0` went through: the old set up to `flip`, the new set from there on. */
  ghost predicate BlueGreen(w: World, h0: seq<World>, h: seq<World>, lost: set<nat>, flip: nat, domain: string,
      replicas: seq<Replica>, former: set<nat>) {
    && flip <= |h| && Quiet(w, h0, h[..flip], lost)
    && forall i | flip <= i < |h| :: After(w, h[i], domain, replicas, former)
  }

  // ---------------------------------------------------------------- before the flip

  /** A world `s` that differs from `w` in what the fleet and Caddy run, and in staging at most at `host`. */
  ghost predicate FleetOnly(w: World, s: World, host: nat) {
    && s == w.(containers := s.containers, nextCid := s.nextCid, staging := s.staging, healthy := s.healthy,
               caddy := s.caddy, ahead := s.ahead)
    && SameBut(w.staging, s.staging, host) && w.healthy <= s.healthy
    && (forall id | id in s.healthy :: id in w.healthy || id < s.nextCid)
  }

  /** Exactly `cs` have been started, and only containers in `lost` are gone. */
  ghost predicate Started(w: World, s: World, cs: seq<Container>, lost: set<nat>) {
    && s.nextCid == w.nextCid + |cs|
    && (forall id | w.nextCid <= id < s.nextCid :: id in s.containers && s.containers[id] == cs[id - w.nextCid])
    && (forall id | id in s.containers ::
          id < s.nextCid && (id < w.nextCid ==> id in w.containers && s.containers[id] == w.containers[id]))
    && (forall id | id in w.containers :: id < w.nextCid && (id !in lost ==> id in s.containers))
  }

  /** An operation's staging route does not outlive it, unless Caddy refused to drop it. */
  ghost predicate Unstaged(w: World, v: World, host: nat, steady: bool) {
    SameBut(w.staging, v.staging, host) && (steady ==> host !in v.staging || v.staging == w.staging)
  }

  /** Part way through an operation, before its flip. */
  ghost predicate Mid(w: World, s: World, h0: seq<World>, h: seq<World>, host: nat, cs: seq<Container>,
      lost: set<nat>) {
    && FleetOnly(w, s, host) && Started(w, s, cs, lost) && Quiet(w, h0, h, lost)
    && Mirrored(s) && AheadOk(w, s, lost)
  }

  lemma MidStarts(w: World, h: seq<World>, host: nat, lost: set<nat>)
    requires ContainersOk(w) && Mirrored(w)
    ensures Mid(w, w, h, h, host, [], lost)
  {
    hide Claimed;
  }

  lemma MidRuns(w: World, s: World, s': World, h0: seq<World>, h: seq<World>, host: nat, cs: seq<Container>,
      lost: set<nat>, c: Container)
    requires Mid(w, s, h0, h, host, cs, lost)
    requires s' == s.(containers := s.containers[s.nextCid := c], nextCid := s.nextCid + 1)
    ensures Mid(w, s', h0, h + [s'], host, cs + [c], lost) && s.nextCid == w.nextCid + |cs|
  {
    hide SameBut, RouteTo, Merges;
  }

  lemma MidKeeps(w: World, s: World, s': World, h0: seq<World>, h: seq<World>, host: nat, cs: seq<Container>,
      lost: set<nat>)
    requires Mid(w, s, h0, h, host, cs, lost)
    requires Staged(s, s', host)
    ensures Mid(w, s', h0, h + [s'], host, cs, lost)
  {
  }

  /** A flip that was not committed. */
  lemma MidMisses(w: World, s: World, s': World, h0: seq<World>, h: seq<World>, host: nat, cs: seq<Container>,
      lost: set<nat>, domain: string, replicas: seq<Replica>)
    requires Mid(w, s, h0, h, host, cs, lost) && Missed(s, s', Ahead(domain, Some(replicas)))
    requires Merges(w, domain, replicas, lost) && Begun(replicas, w.nextCid + |cs|)
    ensures Mid(w, s', h0, h + [s'], host, cs, lost)
  {
    hide Merges;
  }

  /** A call that changed nothing may still be an effect. */
  lemma MidSame(w: World, s: World, h0: seq<World>, h: seq<World>, host: nat, cs: seq<Container>, lost: set<nat>)
    requires Mid(w, s, h0, h, host, cs, lost)
    ensures Mid(w, s, h0, h + [s], host, cs, lost)
  {
  }

  function Ids(first: nat, n: nat): (r: seq<nat>)
    ensures |r| == n && forall k | 0 <= k < n :: r[k] == first + k
  {
    seq(n, k requires 0 <= k < n => first + k)
  }

  /** Removing one of the containers that may be lost. */
  lemma MidDiscards(w: World, s: World, s': World, h0: seq<World>, h: seq<World>, host: nat, cs: seq<Container>,
      lost: set<nat>, id: nat, ok: bool)
    requires Mid(w, s, h0, h, host, cs, lost) && id in lost && id < w.nextCid
    requires s' == s.(containers := if ok then s.containers - {id} else s.containers)
    ensures Mid(w, s', h0, h + [s'], host, cs, lost)
  {
  }

  lemma IdsNext(first: nat, n: nat)
    ensures Ids(first, n + 1) == Ids(first, n) + [first + n]
  {
  }

  lemma ReplicasNext(first: nat, cs: seq<Container>, c: Container, port: int)
    ensures Replicas(first, cs + [c], port) == Replicas(first, cs, port) + [ReplicaOf(first + |cs|, c, port)]
  {
    hide ReplicaOf;
  }

  function NodesOf(cs: seq<Container>): (r: seq<string>)
    ensures |r| == |cs| && forall i | 0 <= i < |r| :: r[i] == cs[i].node
  {
    seq(|cs|, i requires 0 <= i < |cs| => cs[i].node)
  }

  // ---------------------------------------------------------------- gating

  lemma MidChecks(w: World, s: World, s': World, h0: seq<World>, h: seq<World>, host: nat, cs: seq<Container>,
      lost: set<nat>)
    requires Mid(w, s, h0, h, host, cs, lost)
    requires s' == s.(healthy := s'.healthy) && s.healthy <= s'.healthy
    requires forall id | id in s'.healthy :: id in s.healthy || id < w.nextCid + |cs|
    ensures Mid(w, s', h0, h + [s'], host, cs, lost)
  {
  }

  /** Everything started since `w` has passed its health check. */
  ghost predicate Vetted(w: World, s: World) {
    forall id | w.nextCid <= id < s.nextCid :: id in s.healthy
  }

  lemma AllVetted(w: World, s: World, h0: seq<World>, h: seq<World>, host: nat, cs: seq<Container>, lost: set<nat>,
      ids: seq<nat>)
    requires Mid(w, s, h0, h, host, cs, lost) && ids == Ids(w.nextCid, |cs|)
    requires forall k | 0 <= k < |ids| :: ids[k] in s.healthy
    ensures Vetted(w, s) && forall id | w.nextCid <= id < w.nextCid + |cs| :: id in s.healthy
  {
    forall id | w.nextCid <= id < s.nextCid ensures id in s.healthy {
      assert ids[id - w.nextCid] == id;
    }
  }

  /** `upstreams` lead, in order, to exactly the containers `cs`. */
  predicate LeadTo(upstreams: seq<Upstream>, cs: seq<Container>, port: int) {
    |upstreams| == |cs| && forall k | 0 <= k < |cs| :: Addresses(upstreams[k], cs[k], port)
  }

  lemma ReplicasLeadTo(first: nat, cs: seq<Container>, port: int)
    ensures LeadTo(Upstreams(Replicas(first, cs, port)), cs, port)
  {
    hide ReplicaOf, Addresses;
    forall k | 0 <= k < |cs| ensures Addresses(Upstreams(Replicas(first, cs, port))[k], cs[k], port) {
      EntryAddresses(first + k, cs[k], port);
    }
  }

  /**
    From effect `i` to effect `j` the staging host led to exactly the containers `cs`, which have the ids from
    `first` on; at `i` none of them had passed a health check, at `j` all of them had.
  */
  ghost predicate GatedFrom(first: nat, h: seq<World>, host: nat, cs: seq<Container>, port: int, i: nat, j: nat) {
    && i <= j < |h|
    && (forall m | i <= m <= j :: host in h[m].staging && LeadTo(h[m].staging[host], cs, port))
    && (forall id | first <= id < first + |cs| :: id !in h[i].healthy && id in h[j].healthy)
  }

  /** So it was between `h0` and effect `flip`: every one was checked, each while the host led to all of them. */
  ghost predicate PassedGate(first: nat, h0: seq<World>, h: seq<World>, host: nat, cs: seq<Container>, port: int,
      flip: nat) {
    exists i: nat, j: nat :: |h0| <= i && j < flip && GatedFrom(first, h, host, cs, port, i, j)
  }

  lemma PassedOn(first: nat, h0: seq<World>, h: seq<World>, h': seq<World>, host: nat, cs: seq<Container>, port: int,
      flip: nat)
    requires PassedGate(first, h0, h, host, cs, port, flip) && h <= h'
    ensures PassedGate(first, h0, h', host, cs, port, flip)
  {
    hide LeadTo;
    var i: nat, j: nat :| |h0| <= i && j < flip && GatedFrom(first, h, host, cs, port, i, j);
    assert GatedFrom(first, h', host, cs, port, i, j);
  }

  lemma PassedLater(first: nat, h0: seq<World>, h: seq<World>, host: nat, cs: seq<Container>, port: int, flip: nat,
      flip': nat)
    requires PassedGate(first, h0, h, host, cs, port, flip) && flip <= flip'
    ensures PassedGate(first, h0, h, host, cs, port, flip')
  {
    hide GatedFrom;
  }

  /** No container started since `w` has been checked yet. */
  ghost predicate Unchecked(w: World, s: World) {
    forall id | id in s.healthy :: id < w.nextCid
  }

  lemma UncheckedYet(w: World, s: World)
    requires ContainersOk(w) && s.healthy == w.healthy
    ensures Unchecked(w, s)
  {
    hide Claimed;
  }

  /** Staging a set and gating every replica on its health, through the staging route. */
  method StageSet(r: Reconciler, host: nat, upstreams: seq<Upstream>, ids: seq<nat>, ghost w: World,
      ghost h0: seq<World>, ghost cs: seq<Container>, ghost lost: set<nat>, ghost port: int)
    returns (failed: Option<Failure>)
    requires Mid(w, r.State(), h0, r.history, host, cs, lost) && ids == Ids(w.nextCid, |cs|)
    requires LeadTo(upstreams, cs, port) && Unchecked(w, r.State())
    modifies r`history, r`ahead, r.router, r.fleet`healthy
    ensures Mid(w, r.State(), h0, r.history, host, cs, lost)
    ensures failed.Some? ==> failed.value in {Staging, Unhealthy}
    ensures r.fleet.sound && r.router.steady ==> failed.None?
    ensures failed.None? ==> Vetted(w, r.State()) && PassedGate(w.nextCid, h0, r.history, host, cs, port, |r.history|)
    ensures r.State().containers == old(r.State()).containers
    ensures r.State().ahead == None || r.State().ahead == old(r.State()).ahead
  {
    hide Mid, LeadTo, PassedGate, Vetted;
    MidFrame(w, r.State(), h0, r.history, host, cs, lost);
    ghost var s, h := r.State(), r.history;
    var staged := r.Stage(host, upstreams);
    MidKeeps(w, s, r.State(), h0, h, host, cs, lost);
    if !staged {
      return Some(Staging);
    }
    var unhealthy := CheckSet(r, host, upstreams, ids, w, h0, cs, lost, port);
    failed := if unhealthy then Some(Unhealthy) else None;
  }

  /** The health checks, one container after the other, while the staging host leads to all of them. */
  method CheckSet(r: Reconciler, host: nat, upstreams: seq<Upstream>, ids: seq<nat>, ghost w: World,
      ghost h0: seq<World>, ghost cs: seq<Container>, ghost lost: set<nat>, ghost port: int)
    returns (failed: bool)
    requires Mid(w, r.State(), h0, r.history, host, cs, lost) && ids == Ids(w.nextCid, |cs|)
    requires |h0| < |r.history| && r.history[|r.history| - 1] == r.State()
    requires LeadTo(upstreams, cs, port) && Unchecked(w, r.State())
    requires host in r.State().staging && r.State().staging[host] == upstreams && r.State().ahead == None
    modifies r`history, r.fleet`healthy
    ensures Mid(w, r.State(), h0, r.history, host, cs, lost)
    ensures r.fleet.sound ==> !failed
    ensures !failed ==> Vetted(w, r.State()) && PassedGate(w.nextCid, h0, r.history, host, cs, port, |r.history|)
    ensures r.State().containers == old(r.State()).containers && r.State().ahead == None
  {
    hide Mid, LeadTo, Vetted;
    failed := false;
    ghost var at: nat := |r.history| - 1;
    for i := 0 to |ids|
      invariant Mid(w, r.State(), h0, r.history, host, cs, lost) && r.State().ahead == None
      invariant host in r.State().staging && r.State().staging[host] == upstreams
      invariant r.State().containers == old(r.State()).containers
      invariant forall k | 0 <= k < i :: ids[k] in r.State().healthy
      invariant |h0| <= at < |r.history| && Unchecked(w, r.history[at]) && r.history[|r.history| - 1] == r.State()
      invariant forall m | at <= m < |r.history| ::
        host in r.history[m].staging && r.history[m].staging[host] == upstreams
    {
      ghost var s, h := r.State(), r.history;
      var healthy := r.Check(host, ids[i]);
      MidChecks(w, s, r.State(), h0, h, host, cs, lost);
      if !healthy {
        return true;
      }
    }
    AllVetted(w, r.State(), h0, r.history, host, cs, lost, ids);
    assert GatedFrom(w.nextCid, r.history, host, cs, port, at, |r.history| - 1);
  }

  // ---------------------------------------------------------------- tearing down what was started

  /** Part way through the clean-up: `cs` from number `i` on may still run, of the others only leaks do. */
  ghost predicate Clearing(w: World, s: World, h0: seq<World>, h: seq<World>, host: nat, cs: seq<Container>,
      lost: set<nat>, i: nat, reliable: bool) {
    && FleetOnly(w, s, host) && s.nextCid == w.nextCid + |cs| && Quiet(w, h0, h, lost) && Before(w, s, lost)
    && (forall id | id in s.containers && id in w.containers :: s.containers[id] == w.containers[id])
    && (forall id | id in s.containers && id !in w.containers ::
          w.nextCid <= id < s.nextCid && s.containers[id] == cs[id - w.nextCid])
    && (reliable ==> forall id | id in s.containers && id !in w.containers :: id >= w.nextCid + i)
  }

  lemma ClearingStarts(w: World, s: World, h0: seq<World>, h: seq<World>, host: nat, cs: seq<Container>,
      lost: set<nat>, reliable: bool)
    requires Mid(w, s, h0, h, host, cs, lost)
    ensures Clearing(w, s, h0, h, host, cs, lost, 0, reliable)
  {
  }

  lemma ClearingDiscards(w: World, s: World, s': World, h0: seq<World>, h: seq<World>, host: nat, cs: seq<Container>,
      lost: set<nat>, i: nat, reliable: bool, ok: bool)
    requires Clearing(w, s, h0, h, host, cs, lost, i, reliable) && i < |cs| && ContainersOk(w)
    requires s' == s.(containers := if ok then s.containers - {w.nextCid + i} else s.containers)
    requires reliable && w.nextCid + i in s.containers ==> ok
    ensures Clearing(w, s', h0, h + [s'], host, cs, lost, i + 1, reliable)
  {
    hide Claimed;
  }

  lemma ClearingEnds(w: World, s: World, v: World, h0: seq<World>, h: seq<World>, host: nat, cs: seq<Container>,
      lost: set<nat>, reliable: bool, app: string, noted: seq<Deployment>)
    requires Clearing(w, s, h0, h, host, cs, lost, |cs|, reliable) && ContainersOk(w)
    requires forall k | 0 <= k < |cs| :: cs[k].node != "" && cs[k].app == app
    requires |noted| <= 1
    requires (noted != [] ==> noted[0].id == NextId(w.rows) && noted[0].app == app && noted[0].status == Failed)
    requires v == s.(leaks := s.leaks + (s.containers.Keys - w.containers.Keys), rows := s.rows + noted)
    ensures Refused(w, v, app, lost, noted) && SameBut(w.staging, v.staging, host) && Before(w, v, lost)
    ensures v.heal == w.heal
    ensures v.nextCid == w.nextCid + |cs|
    ensures forall id | id in v.containers && id !in w.containers ::
      w.nextCid <= id < v.nextCid && v.containers[id] == cs[id - w.nextCid]
    ensures reliable ==> v.leaks == w.leaks
  {
    hide Claimed, NextId;
  }

  lemma ClearingNode(w: World, s: World, h0: seq<World>, h: seq<World>, host: nat, cs: seq<Container>, lost: set<nat>,
      i: nat, reliable: bool)
    requires Clearing(w, s, h0, h, host, cs, lost, i, reliable) && ContainersOk(w) && i < |cs|
    ensures w.nextCid + i in s.containers ==> s.containers[w.nextCid + i] == cs[i]
  {
    hide Claimed;
  }

  lemma ClearingRows(w: World, s: World, h0: seq<World>, h: seq<World>, host: nat, cs: seq<Container>, lost: set<nat>,
      reliable: bool)
    requires Clearing(w, s, h0, h, host, cs, lost, |cs|, reliable)
    ensures s.rows == w.rows && Quiet(w, h0, h, lost)
  {
  }

  /** An operation that gave up and cleaned up: nothing is left behind but leaks. */
  lemma GaveUp(w: World, s: World, v: World, owner: string -> string, h0: seq<World>, h: seq<World>, host: nat,
      cs: seq<Container>, lost: set<nat>, reliable: bool, app: string, tried: Trial)
    requires ContainersOk(w) && Clearing(w, s, h0, h, host, cs, lost, |cs|, reliable)
    requires forall k | 0 <= k < |cs| :: cs[k].node != "" && cs[k].app == app
    requires tried.cs == cs && WellNamed(w.rows, app, tried)
    requires forall id | id in lost && id in w.containers :: w.containers[id].app == app
    requires v == s.(leaks := s.leaks + (s.containers.Keys - w.containers.Keys))
    ensures Step(w, v, owner, Refuse(app, lost, [], tried)) && Before(w, v, lost)
    ensures SameBut(w.staging, v.staging, host) && (reliable ==> v.leaks == w.leaks)
  {
    hide ContainersOk, Clearing, Refused, WellNamed, Before;
    assert v.rows == s.rows + [];
    assert v == s.(leaks := s.leaks + (s.containers.Keys - w.containers.Keys), rows := s.rows + []);
    ClearingEnds(w, s, v, h0, h, host, cs, lost, reliable, app, []);
  }

  /** The clean-up every failure before the flip runs: drop staging, remove what was started. */
  method TearDown(r: Reconciler, host: nat, nodes: seq<string>, ids: seq<nat>,
                  ghost w: World, ghost h0: seq<World>, ghost cs: seq<Container>, ghost lost: set<nat>)
    requires Mid(w, r.State(), h0, r.history, host, cs, lost) && ContainersOk(w) && ids == Ids(w.nextCid, |cs|)
    requires |cs| <= |nodes| && forall k | 0 <= k < |cs| :: nodes[k] == cs[k].node
    modifies r`history, r`ahead, r.fleet, r.router
    ensures Clearing(w, r.State(), h0, r.history, host, cs, lost, |cs|, r.fleet.reliable)
    ensures r.State().rows == w.rows && Quiet(w, h0, r.history, lost)
    ensures r.router.steady ==> host !in r.State().staging
    ensures r.State().ahead == None || r.State().ahead == old(r.State()).ahead
  {
    hide Clearing, Mid;
    ghost var s, h := r.State(), r.history;
    r.Unstage(host);
    MidKeeps(w, s, r.State(), h0, h, host, cs, lost);
    ClearingStarts(w, r.State(), h0, r.history, host, cs, lost, r.fleet.reliable);
    for i := 0 to |ids|
      invariant Clearing(w, r.State(), h0, r.history, host, cs, lost, i, r.fleet.reliable)
      invariant r.router.steady ==> host !in r.State().staging
      invariant r.State().ahead == None || r.State().ahead == old(r.State()).ahead
    {
      s, h := r.State(), r.history;
      var removed := r.Discard(nodes[i], ids[i]);
      ClearingNode(w, s, h0, h, host, cs, lost, i, r.fleet.reliable);
      ClearingDiscards(w, s, r.State(), h0, h, host, cs, lost, i, r.fleet.reliable, removed);
    }
    ClearingRows(w, r.State(), h0, r.history, host, cs, lost, r.fleet.reliable);
  }

  lemma QuietOn(w: World, h0: seq<World>, h: seq<World>, s: World, lost: set<nat>)
    requires Quiet(w, h0, h, lost) && Before(w, s, lost)
    ensures Quiet(w, h0, h + [s], lost)
  {
  }

  // ---------------------------------------------------------------- retiring the old set

  /** Only containers in `former` are gone. */
  ghost predicate Shrunk(p: World, s: World, former: set<nat>) {
    && s == p.(containers := s.containers)
    && (forall id | id in s.containers :: id in p.containers && s.containers[id] == p.containers[id])
    && (forall id | id in p.containers && id !in former :: id in s.containers)
  }

  ghost predicate Draining(p: World, s: World, h0: seq<World>, h: seq<World>, olds: seq<Replica>, k: nat,
      reliable: bool) {
    && Shrunk(p, s, Cids(olds)) && k <= |olds|
    && h0 <= h && (forall i | |h0| <= i < |h| :: Shrunk(p, h[i], Cids(olds)))
    && (reliable ==> forall j | 0 <= j < k :: olds[j].cid !in s.containers)
  }

  /** The entries of a live row name the node their container runs on. */
  ghost predicate Located(w: World, replicas: seq<Replica>) {
    forall k | 0 <= k < |replicas| && replicas[k].cid in w.containers ::
      w.containers[replicas[k].cid].node == replicas[k].node
  }

  lemma DrainingDiscards(p: World, s: World, s': World, h0: seq<World>, h: seq<World>, olds: seq<Replica>, k: nat,
      reliable: bool, ok: bool)
    requires Draining(p, s, h0, h, olds, k, reliable) && k < |olds|
    requires s' == s.(containers := if ok then s.containers - {olds[k].cid} else s.containers)
    requires reliable && olds[k].cid in s.containers ==> ok
    ensures Draining(p, s', h0, h + [s'], olds, k + 1, reliable)
  {
    assert olds[k].cid in Cids(olds);
  }

  lemma DrainingSkips(p: World, s: World, h0: seq<World>, h: seq<World>, olds: seq<Replica>, k: nat)
    requires Draining(p, s, h0, h, olds, k, false) && k < |olds|
    ensures Draining(p, s, h0, h, olds, k + 1, false)
  {
  }

  lemma DrainingNode(p: World, s: World, h0: seq<World>, h: seq<World>, olds: seq<Replica>, k: nat, reliable: bool)
    requires Draining(p, s, h0, h, olds, k, reliable) && k < |olds| && Located(p, olds)
    ensures olds[k].cid in s.containers ==> s.containers[olds[k].cid].node == olds[k].node
  {
  }

  /** The retire loop: each old replica on its own node, skipping a node that does not answer or resolve. */
  method RetireSet(r: Reconciler, olds: seq<Replica>)
    requires Located(r.State(), olds)
    modifies r`history, r.fleet
    ensures Draining(old(r.State()), r.State(), old(r.history), r.history, olds, |olds|, r.fleet.reliable)
  {
    for k := 0 to |olds|
      invariant Draining(old(r.State()), r.State(), old(r.history), r.history, olds, k, r.fleet.reliable)
    {
      ghost var s, h := r.State(), r.history;
      var node := Normalize(olds[k].node);
      var answers := r.fleet.Reachable(node);
      if !answers {
        DrainingSkips(old(r.State()), s, old(r.history), h, olds, k);
        continue;
      }
      var mesh := r.fleet.ResolveMeta(node);
      if mesh.None? {
        DrainingSkips(old(r.State()), s, old(r.history), h, olds, k);
        continue;
      }
      var removed := r.Discard(node, olds[k].cid);
      DrainingNode(old(r.State()), s, old(r.history), h, olds, k, r.fleet.reliable);
      DrainingDiscards(old(r.State()), s, r.State(), old(r.history), h, olds, k, r.fleet.reliable, removed);
    }
  }

  // ---------------------------------------------------------------- from the flip on

  /** What the later steps still need to know about the state the set was started in. */
  lemma MidFrame(w: World, m: World, h0: seq<World>, h: seq<World>, host: nat, cs: seq<Container>, lost: set<nat>)
    requires Mid(w, m, h0, h, host, cs, lost)
    ensures m.rows == w.rows && m.leaks == w.leaks && m.heal == w.heal && m.origin == w.origin
    ensures m.serving == w.serving && m.routes == w.routes && m.persists == w.persists && Mirrored(m)
    ensures SameBut(w.staging, m.staging, host) && Quiet(w, h0, h, lost)
  {
  }

  lemma AfterFlip(w: World, m: World, p: World, h0: seq<World>, h: seq<World>, host: nat, cs: seq<Container>,
      lost: set<nat>, domain: string, replicas: seq<Replica>, former: set<nat>)
    requires Mid(w, m, h0, h, host, cs, lost) && lost <= former
    requires forall k | 0 <= k < |replicas| :: replicas[k].cid < w.nextCid + |cs|
    requires Turned(m, p, domain, replicas)
    ensures After(w, p, domain, replicas, former)
  {
  }

  /** Once the route has moved off `lost`, what of it still runs is a leak. */
  lemma MidSwaps(w: World, m: World, v: World, h0: seq<World>, h: seq<World>, host: nat, cs: seq<Container>,
      lost: set<nat>)
    requires Mid(w, m, h0, h, host, cs, lost) && forall id | id in lost :: id < w.nextCid
    requires v.containers == m.containers && v.nextCid == m.nextCid && v.leaks == m.leaks + lost * m.containers.Keys
    requires Vetted(w, m) && v.healthy == m.healthy
    ensures Swapped(w, v, cs, lost) && m.rows == w.rows && m.heal == w.heal && m.origin == w.origin
    ensures m.serving == w.serving && m.routes == w.routes && m.persists == w.persists
    ensures SameBut(w.staging, m.staging, host)
  {
  }

  /** The same when the old containers are taken down after the flip. */
  lemma RetiredSwaps(w: World, m: World, q: World, v: World, h0: seq<World>, h: seq<World>, host: nat,
      cs: seq<Container>, former: set<nat>)
    requires Mid(w, m, h0, h, host, cs, {}) && forall id | id in former :: id < w.nextCid
    requires forall id | id in q.containers :: id in m.containers && q.containers[id] == m.containers[id]
    requires forall id | id in m.containers && id !in former :: id in q.containers
    requires v.containers == q.containers && v.nextCid == m.nextCid && v.leaks == m.leaks + former * q.containers.Keys
    requires Vetted(w, m) && v.healthy == m.healthy
    ensures Swapped(w, v, cs, former)
  {
  }

  lemma ShrunkFrame(p: World, s: World, former: set<nat>)
    requires Shrunk(p, s, former)
    ensures s == p.(containers := s.containers)
  {
  }

  lemma ShrunkNone(p: World, former: set<nat>)
    ensures Shrunk(p, p, former)
  {
  }

  lemma AfterShrinks(w: World, p: World, q: World, domain: string, replicas: seq<Replica>, former: set<nat>)
    requires After(w, p, domain, replicas, former) && Shrunk(p, q, former)
    requires forall id | id in former :: id < w.nextCid
    ensures After(w, q, domain, replicas, former)
  {
  }

  lemma CurrentIsLocated(w: World, owner: string -> string, app: string)
    requires Inv(w, owner) && Current(w.rows, app).Some?
    ensures Located(w, Current(w.rows, app).value.replicas)
    ensures forall id | id in CurrentCids(w.rows, app) :: id < w.nextCid
  {
    hide TableOk, RowsOk, RoutesOk, ContainersOk, ValidSpec, LatestAt;
    CurrentIsLive(w, owner, app);
    var cur := Current(w.rows, app).value;
    forall k | 0 <= k < |cur.replicas| && cur.replicas[k].cid in w.containers
      ensures w.containers[cur.replicas[k].cid].node == cur.replicas[k].node
    {
      assert Lodged(w, cur.replicas[k], cur.spec.value);
    }
  }

  lemma LocatedMid(w: World, m: World, h0: seq<World>, h: seq<World>, host: nat, cs: seq<Container>, lost: set<nat>,
      olds: seq<Replica>)
    requires Mid(w, m, h0, h, host, cs, lost) && Located(w, olds)
    requires forall k | 0 <= k < |olds| :: olds[k].cid < w.nextCid
    ensures Located(m, olds)
  {
  }

  lemma DrainedIsAfter(w: World, p: World, s: World, h0: seq<World>, h: seq<World>, domain: string,
      replicas: seq<Replica>, olds: seq<Replica>, reliable: bool)
    requires After(w, p, domain, replicas, Cids(olds)) && Draining(p, s, h0, h, olds, |olds|, reliable)
    requires forall id | id in Cids(olds) :: id < w.nextCid
    ensures After(w, s, domain, replicas, Cids(olds)) && Shrunk(p, s, Cids(olds)) && h0 <= h
    ensures forall i | |h0| <= i < |h| :: After(w, h[i], domain, replicas, Cids(olds))
    ensures reliable ==> Cids(olds) !! s.containers.Keys
  {
    AfterShrinks(w, p, s, domain, replicas, Cids(olds));
    forall i | |h0| <= i < |h| ensures After(w, h[i], domain, replicas, Cids(olds)) {
      AfterShrinks(w, p, h[i], domain, replicas, Cids(olds));
    }
  }

  lemma TurnsGreen(w: World, h0: seq<World>, hm: seq<World>, h: seq<World>, lost: set<nat>, domain: string,
      replicas: seq<Replica>, former: set<nat>)
    requires Quiet(w, h0, hm, lost) && hm <= h
    requires forall i | |hm| <= i < |h| :: After(w, h[i], domain, replicas, former)
    ensures BlueGreen(w, h0, h, lost, |hm|, domain, replicas, former)
  {
    hide After, Before;
    assert h[..|hm|] == hm;
  }

  /** After the flip Caddy is in step, and taking staging down keeps it so. */
  lemma UnstagedInStep(f: World, p: World, host: nat)
    requires Staged(f, p, host) && f.ahead == None && f.caddy == f.routes
    ensures p == f.(staging := p.staging) && SameBut(f.staging, p.staging, host)
  {
  }

  lemma AfterSame(w: World, s: World, s': World, domain: string, replicas: seq<Replica>, former: set<nat>)
    requires After(w, s, domain, replicas, former)
    requires s'.serving == s.serving && s'.routes == s.routes && s'.containers == s.containers
    requires s'.caddy == s.caddy && s'.ahead == s.ahead && s'.persists == s.persists
    ensures After(w, s', domain, replicas, former)
  {
  }
}
