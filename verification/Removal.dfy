/**
  `Remove` of an image app (internal/reconciler/reconciler.go:1380-1400, 1481-1557): its containers on
  every node of its replica set, then its route, then its row.
*/
module Removal {
  import opened Prelude
  import opened Schedule
  import opened Model
  import opened Transitions
  import opened Control
  import opened Effects
  import opened Runs
  import opened Calls

  /** `replicaNodeNames`: the distinct nodes of the current set, the anchor's first; "local" without one. */
  method ReplicaNodeNames(cur: Option<Deployment>) returns (names: seq<string>)
    requires cur.Some? ==> cur.value.replicas != []
    ensures |names| >= 1 && forall i, j | 0 <= i < j < |names| :: names[i] != names[j]
    ensures forall i | 0 <= i < |names| :: Normalize(names[i]) == names[i]
    ensures cur.None? ==> names == ["local"]
    ensures cur.Some? ==>
      && names[0] == Normalize(cur.value.replicas[0].node)
      && forall n :: n in names <==> exists k ::
        0 <= k < |cur.value.replicas| && Normalize(cur.value.replicas[k].node) == n
  {
    if cur.None? {
      return ["local"];
    }
    var replicas := cur.value.replicas;
    names := [Normalize(replicas[0].node)];
    for k := 1 to |replicas|
      invariant |names| >= 1 && names[0] == Normalize(replicas[0].node)
      invariant forall i, j | 0 <= i < j < |names| :: names[i] != names[j]
      invariant forall i | 0 <= i < |names| :: Normalize(names[i]) == names[i]
      invariant forall n :: n in names <==> exists j :: 0 <= j < k && Normalize(replicas[j].node) == n
    {
      var name := Normalize(replicas[k].node);
      if name !in names {
        names := names + [name];
      }
    }
  }

  /** Part way through the teardown: some of the app's containers are gone, and nothing else changed. */
  ghost predicate Removing(w: World, s: World, app: string) {
    && s == w.(containers := s.containers)
    && (forall id | id in s.containers :: id in w.containers && s.containers[id] == w.containers[id])
    && (forall id | id in w.containers && id !in s.containers :: w.containers[id].app == app)
  }

  /** No container of `app` is left on a node of `names`. */
  ghost predicate Swept(s: World, app: string, names: seq<string>) {
    forall id | id in s.containers && s.containers[id].app == app :: Normalize(s.containers[id].node) !in names
  }

  lemma RemovingOn(w: World, s: World, s': World, app: string, id: nat, ok: bool)
    requires Removing(w, s, app) && (id in s.containers ==> s.containers[id].app == app)
    requires s' == s.(containers := if ok then s.containers - {id} else s.containers)
    ensures Removing(w, s', app)
  {
  }

  lemma SweptOn(s: World, s': World, app: string, names: seq<string>)
    requires Swept(s, app, names)
    requires forall id | id in s'.containers :: id in s.containers && s'.containers[id] == s.containers[id]
    ensures Swept(s', app, names)
  {
  }

  /** What is left to remove on one node. */
  ghost predicate Sweeping(s: World, app: string, name: string, todo: set<nat>) {
    && (forall id | id in s.containers && s.containers[id].app == app && Normalize(s.containers[id].node) == name ::
          id in todo)
    && (forall id | id in todo && id in s.containers :: s.containers[id].app == app)
  }

  /** What is still to be removed on the node is there. */
  ghost predicate Present(s: World, name: string, todo: set<nat>) {
    forall id | id in todo :: id in s.containers && Normalize(s.containers[id].node) == name
  }

  /** Every container of the app on one node, by label; the first refusal ends it. */
  method SweepNode(r: Reconciler, app: string, name: string, ghost w: World)
    returns (failed: Option<Failure>)
    requires Removing(w, r.State(), app) && Normalize(name) == name
    modifies r`history, r.fleet
    ensures Removing(w, r.State(), app)
    ensures forall id | id in r.State().containers ::
      id in old(r.State()).containers && r.State().containers[id] == old(r.State()).containers[id]
    ensures failed.Some? ==> failed.value in {List, Teardown}
    ensures failed.None? ==> Swept(r.State(), app, [name])
    ensures r.Sound() ==> failed.None?
  {
    hide Removing;
    failed := None;
    var listed := r.fleet.ListContainers(name, app);
    if listed.None? {
      return Some(List);
    }
    var todo := listed.value;
    while todo != {}
      invariant Removing(w, r.State(), app) && Sweeping(r.State(), app, name, todo) && Present(r.State(), name, todo)
      invariant forall id | id in r.State().containers ::
        id in old(r.State()).containers && r.State().containers[id] == old(r.State()).containers[id]
      decreases |todo|
    {
      var id :| id in todo;
      ghost var s := r.State();
      var ok := r.Discard(name, id);
      RemovingOn(w, s, r.State(), app, id, ok);
      if !ok {
        return Some(Teardown);
      }
      todo := todo - {id};
    }
  }

  lemma SweptMore(s: World, app: string, names: seq<string>, name: string)
    requires Swept(s, app, names) && Swept(s, app, [name])
    ensures Swept(s, app, names + [name])
  {
    forall id | id in s.containers && s.containers[id].app == app
      ensures Normalize(s.containers[id].node) !in names + [name] {
      assert name in [name];
    }
  }

  lemma SweptNone(s: World, app: string)
    ensures Swept(s, app, [])
  {
  }

  lemma RemovingStarts(w: World, app: string)
    ensures Removing(w, w, app)
  {
  }

  /** Each node in turn; one that no longer resolves is skipped, the anchor's backing project goes too. */
  method SweepNodes(r: Reconciler, app: string, names: seq<string>, backed: bool,
      ghost w: World) returns (failed: Option<Failure>)
    requires w == r.State() && forall i | 0 <= i < |names| :: Normalize(names[i]) == names[i]
    modifies r`history, r.fleet
    ensures Removing(w, r.State(), app)
    ensures failed.None? && r.fleet.reliable ==> Swept(r.State(), app, names)
    ensures r.Sound() ==> failed.None?
  {
    hide Removing, Swept;
    failed := None;
    RemovingStarts(w, app);
    SweptNone(w, app);
    assert names[..0] == [];
    for i := 0 to |names|
      invariant failed.None? && Removing(w, r.State(), app) && (r.fleet.reliable ==> Swept(r.State(), app, names[..i]))
    {
      assert names[..i + 1] == names[..i] + [names[i]];
      var mesh := r.fleet.ResolveMeta(names[i]);
      if mesh.None? {
        continue;
      }
      ghost var s := r.State();
      failed := SweepNode(r, app, names[i], w);
      if failed.Some? {
        return;
      }
      if r.fleet.reliable {
        SweptOn(s, r.State(), app, names[..i]);
        SweptMore(r.State(), app, names[..i], names[i]);
      }
      if backed && i == 0 {
        var down := r.fleet.Attempt();
        if !down {
          return Some(Backing);
        }
      }
    }
    assert names[..|names|] == names;
  }

  /** The nodes of the current row cover every container it names. */
  lemma SweptCurrent(w: World, s: World, owner: string -> string, app: string, names: seq<string>)
    requires Inv(w, owner) && Removing(w, s, app) && Swept(s, app, names)
    requires Current(w.rows, app).Some? ==>
      forall k | 0 <= k < |Current(w.rows, app).value.replicas| ::
        Normalize(Current(w.rows, app).value.replicas[k].node) in names
    ensures CurrentCids(w.rows, app) * s.containers.Keys == {}
  {
    CurrentIsOwn(w, owner, app);
    hide TableOk, RowsOk, RoutesOk, ContainersOk, Current;
    if Current(w.rows, app).Some? {
      CurrentIsLocated(w, owner, app);
      var olds := Current(w.rows, app).value.replicas;
      forall k | 0 <= k < |olds| ensures olds[k].cid !in s.containers {
        assert olds[k].cid in CurrentCids(w.rows, app);
        assert olds[k].cid in w.containers ==>
          w.containers[olds[k].cid].node == olds[k].node && w.containers[olds[k].cid].app == app;
      }
    }
  }

  lemma GoneFrom(w: World, s: World, app: string)
    requires Removing(w, s, app)
    ensures s.containers == w.containers - (w.containers.Keys - s.containers.Keys)
  {
  }

  /** The route removal, taken or not, between `s` and `t`. */
  ghost predicate Parted(s: World, t: World, cur: Option<Deployment>, dropped: bool) {
    if dropped then
      && cur.Some? && cur.value.spec.Some?
      && var gate := {cur.value.spec.value.domain};
      t == s.(serving := s.serving - gate, routes := s.routes - gate, caddy := s.routes - gate, ahead := None)
    else t == s.(caddy := t.caddy, ahead := t.ahead) && (Mirrored(s) ==> Mirrored(t))
  }

  lemma RemoveEnds(w: World, s: World, t: World, v: World, owner: string -> string, app: string, dropped: bool)
    requires Inv(w, owner) && Removing(w, s, app) && Parted(s, t, Current(w.rows, app), dropped)
    requires v == t.(rows := Superseded(t.rows, app), leaks := t.leaks + CurrentCids(t.rows, app) * t.containers.Keys)
    ensures Step(w, v, owner, Remove(app, dropped)) && Inv(v, owner) && Current(v.rows, app).None?
    ensures dropped ==> Current(w.rows, app).value.spec.value.domain !in v.routes
    ensures CurrentCids(w.rows, app) * s.containers.Keys == {} ==> v.leaks == w.leaks
  {
    hide TableOk, RowsOk, RoutesOk, ContainersOk, Current, CurrentCids, Superseded;
    RemovingFrame(w, s, app);
    GoneFrom(w, s, app);
    assert s.routes - {} == s.routes && s.serving - {} == s.serving;
    StepKeepsInv(w, v, owner, Remove(app, dropped));
    RetiredIsNotCurrent(w, owner, app);
  }

  lemma RetiredIsNotCurrent(w: World, owner: string -> string, app: string)
    requires Inv(w, owner)
    ensures Current(Superseded(w.rows, app), app).None?
  {
    hide RowsOk, RoutesOk, ContainersOk;
    SupersededCurrent(w.rows, app, app);
  }

  lemma RemoveAborts(w: World, s: World, owner: string -> string, app: string)
    requires Inv(w, owner) && Removing(w, s, app)
    ensures Step(w, s, owner, AbortRemove(app)) && Inv(s, owner)
  {
    hide Inv;
    GoneFrom(w, s, app);
    StepKeepsInv(w, s, owner, AbortRemove(app));
  }

  /** No container of `app`, a left-over of earlier generations included, is on a node of the set. */
  ghost predicate NoneLeft(v: World, app: string, cur: Deployment) {
    forall id, k | id in v.containers && v.containers[id].app == app && 0 <= k < |cur.replicas| ::
      Normalize(v.containers[id].node) != Normalize(cur.replicas[k].node)
  }

  lemma SweptIsNoneLeft(s: World, app: string, cur: Deployment, names: seq<string>)
    requires Swept(s, app, names)
    requires forall k | 0 <= k < |cur.replicas| :: Normalize(cur.replicas[k].node) in names
    ensures NoneLeft(s, app, cur)
  {
  }

  /** `Remove`. */
  method RemoveApp(r: Reconciler, app: string) returns (failed: Option<Failure>, ghost e: Event)
    requires r.Valid()
    modifies r, r.fleet, r.router, r.store`rows
    ensures r.Valid() && Step(old(r.State()), r.State(), r.owner, e)
    ensures Performs(Deleting(app), [old(r.State()), r.State()], [e])
    ensures failed.Some? ==> e == AbortRemove(app)
    ensures r.Sound() ==> failed.None?
    ensures failed.None? && r.fleet.reliable && Current(old(r.State()).rows, app).Some? ==>
      NoneLeft(r.State(), app, Current(old(r.State()).rows, app).value)
    ensures failed.None? ==> e.Remove? && Current(r.State().rows, app).None?
    ensures failed.None? && e.dropped ==>
      && Current(old(r.State()).rows, app).Some? && Current(old(r.State()).rows, app).value.spec.Some?
      && Current(old(r.State()).rows, app).value.spec.value.domain !in r.State().routes
    ensures failed.None? && r.router.steady && Current(old(r.State()).rows, app).Some? ==>
      Current(old(r.State()).rows, app).value.spec.Some? &&
        (e.dropped <==> Current(old(r.State()).rows, app).value.spec.value.domain != "")
    ensures r.fleet.reliable ==> r.State().leaks == old(r.State()).leaks
  {
    hide TableOk, RowsOk, RoutesOk, ContainersOk, Removing, Swept, Current, CurrentCids, Superseded, Step;
    ghost var w := r.State();
    var cur := r.store.CurrentDeployment(app);
    if cur.Some? {
      CurrentFacts(w, r.owner, app);
    }
    var names := ReplicaNodeNames(cur);
    failed := SweepNodes(r, app, names, cur.Some? && cur.value.spec.value.backed, w);
    if failed.Some? {
      RemoveAborts(w, r.State(), r.owner, app);
      e := AbortRemove(app);
      return;
    }
    ghost var s := r.State();
    if r.fleet.reliable {
      SweptCurrent(w, s, r.owner, app, names);
      if cur.Some? { SweptIsNoneLeft(s, app, cur.value, names); }
    }
    var dropped := DropAndRetire(r, app, cur, w);
    e := Remove(app, dropped);
  }

  /** Once the containers are gone: the route, best-effort, and the row. */
  method DropAndRetire(r: Reconciler, app: string, cur: Option<Deployment>, ghost w: World) returns (dropped: bool)
    requires Inv(w, r.owner) && Removing(w, r.State(), app) && cur == Current(w.rows, app)
    requires (cur.Some? ==> cur.value.spec.Some?)
    modifies r, r.fleet, r.router, r.store`rows
    ensures r.Valid() && Step(w, r.State(), r.owner, Remove(app, dropped)) && Current(r.State().rows, app).None?
    ensures dropped ==> cur.Some? && cur.value.spec.value.domain !in r.State().routes
    ensures r.State().containers == old(r.State()).containers
    ensures r.router.steady && cur.Some? ==> (dropped <==> cur.value.spec.value.domain != "")
    ensures CurrentCids(w.rows, app) * old(r.State()).containers.Keys == {} ==> r.State().leaks == w.leaks
  {
    hide Inv, Mirrored, Removing, Current, CurrentCids, Superseded, Step;
    ghost var s := r.State();
    RemovingFrame(w, s, app);
    dropped := false;
    if cur.Some? && cur.value.spec.value.domain != "" {
      dropped := r.Drop(cur.value.spec.value.domain);
    }
    ghost var t := r.State();
    Retire(r, app, cur);
    RemoveEnds(w, s, t, r.State(), r.owner, app, dropped);
  }

  /** Retiring the row; what it named and still runs is a leak from here on. */
  method Retire(r: Reconciler, app: string, cur: Option<Deployment>)
    requires cur == Current(r.State().rows, app)
    modifies r`leaks, r.store`rows
    ensures r.State() == old(r.State()).(rows := Superseded(old(r.State()).rows, app),
      leaks := old(r.State()).leaks + CurrentCids(old(r.State()).rows, app) * old(r.State()).containers.Keys)
  {
    r.leaks := r.leaks + CurrentCids(r.store.rows, app) * r.fleet.containers.Keys;
    if cur.Some? {
      r.store.SetStatus(cur.value.id, Retired);
    }
  }

  lemma RemovingFrame(w: World, s: World, app: string)
    requires Removing(w, s, app)
    ensures s == w.(containers := s.containers) && (Mirrored(w) ==> Mirrored(s))
  {
  }

  lemma CurrentFacts(w: World, owner: string -> string, app: string)
    requires Inv(w, owner) && Current(w.rows, app).Some?
    ensures Current(w.rows, app).value.spec.Some? && Current(w.rows, app).value.replicas != []
  {
    CurrentIsLive(w, owner, app);
  }
}
