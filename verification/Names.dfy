/**
  Container names over whole runs.  A name carries the app, a deploy number and the index, and an in-place
  update takes the next number without using it up, so names are not always fresh.
*/
module Names {
  import opened Prelude
  import opened Schedule
  import opened Model
  import opened Transitions
  import opened Runs
  import opened Safety

  /** The containers `e` started, whether or not it failed and whatever became of them. */
  function StartedBy(e: Event): seq<Container> {
    match e
    case Deploy(_, _, _, cs) => cs
    case Update(_, _, cs, _) => cs
    case Refuse(_, _, _, tried, _) => tried.cs
    case _ => []
  }

  /** The index in its set of each of them. */
  function IndexesOf(e: Event): seq<nat> {
    match e
    case Deploy(_, _, _, cs) => seq(|cs|, k => k)
    case Update(_, idxs, _, _) => idxs
    case Refuse(_, _, _, tried, _) => tried.idxs
    case _ => []
  }

  /** How many replicas that set has. */
  function SizeOf(e: Event): nat {
    match e
    case Deploy(app, _, _, _) => Count(app)
    case Update(cur, _, _, _) => |cur.replicas|
    case Refuse(_, _, _, tried, _) => tried.size
    case _ => 0
  }

  /** One of the containers `e` started is called `name`. */
  ghost predicate Takes(e: Event, name: Host) {
    exists l :: 0 <= l < |StartedBy(e)| && StartedBy(e)[l].name == name
  }

  /** `e` left a row behind, current or failed. */
  predicate Records(e: Event) {
    e.Deploy? || (e.Refuse? && e.noted != [])
  }

  /** `u` started a container for index `i` of a set of `app` that, like one of `size`, is or is not a set of one. */
  ghost predicate Serves(u: Event, app: string, size: nat, i: nat) {
    Subject(u) == app && (SizeOf(u) > 1 <==> size > 1) && i in IndexesOf(u)
  }

  /** The naming rule, for whatever starts containers. */
  lemma NamedFor(w: World, v: World, owner: string -> string, e: Event)
    requires Inv(w, owner) && Step(w, v, owner, e)
    ensures |IndexesOf(e)| == |StartedBy(e)|
    ensures forall k | 0 <= k < |StartedBy(e)| ::
      && IndexesOf(e)[k] < SizeOf(e)
      && StartedBy(e)[k].name == NameOf(Subject(e), NextId(w.rows), SizeOf(e), IndexesOf(e)[k])
  {
    hide Inv, Admissible, Flipped, Pinned, Refused, LatestAt, NextId, Superseded, WithReplicas, KeepsPin, Current,
      NameOf, Tempo;
  }

  /** The deploy number never falls, and stands still exactly while no row is recorded. */
  lemma {:induction false} NumbersGrow(ws: seq<World>, es: seq<Event>, owner: string -> string, i: nat, j: nat)
    requires Run(ws, es, owner) && Inv(ws[0], owner) && i <= j < |ws|
    ensures NextId(ws[i].rows) <= NextId(ws[j].rows)
    ensures NextId(ws[i].rows) == NextId(ws[j].rows) <==> forall m | i <= m < j :: !Records(es[m])
  {
    hide Step, Inv, NextId;
    if i < j {
      NumbersGrow(ws, es, owner, i, j - 1);
      RunKeepsInv(ws, es, owner, j - 1);
      NumberUsedIffRecorded(ws[j - 1], ws[j], owner, es[j - 1]);
    }
  }

  /** Both operations started containers for one slot, and no row was recorded in between. */
  ghost predicate Reuses(es: seq<Event>, i: nat, l: nat, j: nat, k: nat) {
    && i < j < |es| && l < |IndexesOf(es[i])| && k < |IndexesOf(es[j])|
    && Subject(es[i]) == Subject(es[j]) && IndexesOf(es[i])[l] == IndexesOf(es[j])[k]
    && (SizeOf(es[i]) > 1 <==> SizeOf(es[j]) > 1)
    && forall m | i <= m < j :: !Records(es[m])
  }

  /**
    In any run, two operations, failed ones included, give a container the same name exactly when both are of
    one app and one index, of sets that are both of one replica or both of several, with no row recorded in
    between.
  */
  lemma SameNameIff(ws: seq<World>, es: seq<Event>, owner: string -> string, i: nat, l: nat, j: nat, k: nat)
    requires Run(ws, es, owner) && Inv(ws[0], owner) && i < j < |es|
    requires l < |StartedBy(es[i])| && k < |StartedBy(es[j])|
    ensures StartedBy(es[i])[l].name == StartedBy(es[j])[k].name <==> Reuses(es, i, l, j, k)
  {
    hide Step, Inv, NextId, IndexesOf, StartedBy, SizeOf;
    RunKeepsInv(ws, es, owner, i);
    RunKeepsInv(ws, es, owner, j);
    NamedFor(ws[i], ws[i + 1], owner, es[i]);
    NamedFor(ws[j], ws[j + 1], owner, es[j]);
    NumbersGrow(ws, es, owner, i, j);
  }

  /**
    The name an operation gives a container is fresh, given by none before it, if and only if no heal, move or
    unrecorded failure of that app has started a container for that index, in a set of the same shape, since
    the last row of any app was recorded.
  */
  lemma NameIsFreshIff(ws: seq<World>, es: seq<Event>, owner: string -> string, j: nat, k: nat)
    requires Run(ws, es, owner) && Inv(ws[0], owner) && j < |es| && k < |StartedBy(es[j])|
    ensures k < |IndexesOf(es[j])|
    ensures (forall i | 0 <= i < j :: !Takes(es[i], StartedBy(es[j])[k].name)) <==>
      forall i | 0 <= i < j && Serves(es[i], Subject(es[j]), SizeOf(es[j]), IndexesOf(es[j])[k]) ::
        exists m :: i <= m < j && Records(es[m])
  {
    hide Step, Inv, IndexesOf, StartedBy, SizeOf;
    RunKeepsInv(ws, es, owner, j);
    NamedFor(ws[j], ws[j + 1], owner, es[j]);
    hide Takes, Serves, Records;
    forall i | 0 <= i < j
      ensures Takes(es[i], StartedBy(es[j])[k].name) <==>
        Serves(es[i], Subject(es[j]), SizeOf(es[j]), IndexesOf(es[j])[k]) && forall m | i <= m < j :: !Records(es[m])
    {
      TakesIff(ws, es, owner, i, j, k);
    }
  }

  lemma TakesIff(ws: seq<World>, es: seq<Event>, owner: string -> string, i: nat, j: nat, k: nat)
    requires Run(ws, es, owner) && Inv(ws[0], owner) && i < j < |es| && k < |StartedBy(es[j])|
    ensures k < |IndexesOf(es[j])|
    ensures Takes(es[i], StartedBy(es[j])[k].name) <==>
      Serves(es[i], Subject(es[j]), SizeOf(es[j]), IndexesOf(es[j])[k]) && forall m | i <= m < j :: !Records(es[m])
  {
    hide Step, Inv, IndexesOf, StartedBy, SizeOf, Records;
    RunKeepsInv(ws, es, owner, i);
    RunKeepsInv(ws, es, owner, j);
    NamedFor(ws[i], ws[i + 1], owner, es[i]);
    NamedFor(ws[j], ws[j + 1], owner, es[j]);
    forall l | 0 <= l < |StartedBy(es[i])|
      ensures StartedBy(es[i])[l].name == StartedBy(es[j])[k].name <==> Reuses(es, i, l, j, k)
    {
      SameNameIff(ws, es, owner, i, l, j, k);
    }
  }

  // ---------------------------------------------------------------- names in use

  /** A step takes containers away and adds those it started, under the next ids. */
  lemma StepStarts(w: World, v: World, owner: string -> string, e: Event)
    requires (forall id | id in w.containers :: id < w.nextCid) && Step(w, v, owner, e)
    ensures v.nextCid == w.nextCid + |StartedBy(e)|
    ensures forall id | id in v.containers && id !in w.containers ::
      w.nextCid <= id < v.nextCid && v.containers[id] == StartedBy(e)[id - w.nextCid]
    ensures forall id | id in v.containers && id in w.containers :: v.containers[id] == w.containers[id]
  {
    hide Inv, Swapped, Admissible, Pinned, LatestAt, NextId, Superseded, WithReplicas, KeepsPin, Current,
      WellNamed, Tempo, StartedFor, RouteTo, Mirrored, Patch, CidsAt, CurrentCids;
    if e.Deploy? {
      SwapStarts(w, v, e.cs, CurrentCids(w.rows, e.app.name));
    } else if e.Update? {
      SwapStarts(w, v, e.cs, CidsAt(e.cur.replicas, e.idxs));
    } else if e.Refuse? {
      hide Left;
      RefusalStarts(w, v, e.name, e.lost, e.noted, e.tried);
    }
  }

  lemma SwapStarts(w: World, v: World, cs: seq<Container>, former: set<nat>)
    requires Swapped(w, v, cs, former)
    ensures v.nextCid == w.nextCid + |cs|
    ensures forall id | id in v.containers && id !in w.containers ::
      w.nextCid <= id < v.nextCid && v.containers[id] == cs[id - w.nextCid]
    ensures forall id | id in v.containers && id in w.containers && id < w.nextCid ::
      v.containers[id] == w.containers[id]
  {
  }

  lemma RefusalStarts(w: World, v: World, app: string, lost: set<nat>, noted: seq<Deployment>, tried: Trial)
    requires Refused(w, v, app, lost, noted) && Left(w, v, app, tried)
    ensures v.nextCid == w.nextCid + |tried.cs|
    ensures forall id | id in v.containers && id !in w.containers ::
      w.nextCid <= id < v.nextCid && v.containers[id] == tried.cs[id - w.nextCid]
    ensures forall id | id in v.containers && id in w.containers :: v.containers[id] == w.containers[id]
  {
    hide NextId, WellNamed, Mirrored;
  }

  /** Event `i` started container `id`. */
  ghost predicate StartedAt(ws: seq<World>, es: seq<Event>, i: nat, id: nat) {
    i < |es| < |ws| && ws[i].nextCid <= id < ws[i].nextCid + |StartedBy(es[i])|
  }

  lemma {:induction false} ContainerIsFrom(ws: seq<World>, es: seq<Event>, owner: string -> string, n: nat, id: nat)
    returns (i: nat)
    requires Run(ws, es, owner) && Init(ws[0]) && n < |ws| && id in ws[n].containers
    ensures i < n && StartedAt(ws, es, i, id) && ws[n].containers[id] == StartedBy(es[i])[id - ws[i].nextCid]
  {
    hide Step, Inv, StartedBy;
    InitIsInv(ws[0], owner);
    RunKeepsInv(ws, es, owner, n - 1);
    CidsAreOld(ws[n - 1], owner);
    StepStarts(ws[n - 1], ws[n], owner, es[n - 1]);
    if id in ws[n - 1].containers {
      i := ContainerIsFrom(ws, es, owner, n - 1, id);
    } else {
      i := n - 1;
    }
  }

  lemma {:induction false} IdsGrow(ws: seq<World>, es: seq<Event>, owner: string -> string, i: nat, j: nat)
    requires Run(ws, es, owner) && Inv(ws[0], owner) && i <= j < |ws|
    ensures ws[i].nextCid <= ws[j].nextCid
    ensures i < j ==> ws[i].nextCid + |StartedBy(es[i])| <= ws[j].nextCid
  {
    hide Step, Inv, StartedBy;
    if i < j {
      IdsGrow(ws, es, owner, i, j - 1);
      RunKeepsInv(ws, es, owner, j - 1);
      CidsAreOld(ws[j - 1], owner);
      StepStarts(ws[j - 1], ws[j], owner, es[j - 1]);
    }
  }

  lemma StartedOnce(ws: seq<World>, es: seq<Event>, owner: string -> string, i: nat, j: nat, id: nat)
    requires Run(ws, es, owner) && Inv(ws[0], owner) && StartedAt(ws, es, i, id) && StartedAt(ws, es, j, id)
    ensures i == j
  {
    hide Step, Inv, StartedBy;
    if i < j { IdsGrow(ws, es, owner, i, j); }
    if j < i { IdsGrow(ws, es, owner, j, i); }
  }

  /**
    The name an operation gives a container is that of a container still there if and only if a heal, a move or
    an unrecorded failure has started one for that slot since the last row was recorded, and it is still there.
  */
  lemma NameIsOccupiedIff(ws: seq<World>, es: seq<Event>, owner: string -> string, j: nat, k: nat)
    requires Run(ws, es, owner) && Init(ws[0]) && j < |es| && k < |StartedBy(es[j])|
    ensures (exists id :: id in ws[j].containers && ws[j].containers[id].name == StartedBy(es[j])[k].name) <==>
      exists i: nat, l: nat :: Reuses(es, i, l, j, k) && ws[i].nextCid + l in ws[j].containers
  {
    hide Step, Inv, StartedBy, IndexesOf, SizeOf;
    InitIsInv(ws[0], owner);
    if id :| id in ws[j].containers && ws[j].containers[id].name == StartedBy(es[j])[k].name {
      var i := ContainerIsFrom(ws, es, owner, j, id);
      SameNameIff(ws, es, owner, i, id - ws[i].nextCid, j, k);
      assert ws[i].nextCid + (id - ws[i].nextCid) in ws[j].containers;
    }
    if i: nat, l: nat :| Reuses(es, i, l, j, k) && ws[i].nextCid + l in ws[j].containers {
      LeftoverIsNamed(ws, es, owner, i, l, j, k);
    }
  }

  lemma LeftoverIsNamed(ws: seq<World>, es: seq<Event>, owner: string -> string, i: nat, l: nat, j: nat, k: nat)
    requires Run(ws, es, owner) && Init(ws[0]) && j < |es| && k < |StartedBy(es[j])|
    requires Reuses(es, i, l, j, k) && ws[i].nextCid + l in ws[j].containers
    ensures ws[j].containers[ws[i].nextCid + l].name == StartedBy(es[j])[k].name
  {
    hide Step, Inv, StartedBy, IndexesOf, SizeOf;
    InitIsInv(ws[0], owner);
    RunKeepsInv(ws, es, owner, i);
    NamedFor(ws[i], ws[i + 1], owner, es[i]);
    var id := ws[i].nextCid + l;
    var n := ContainerIsFrom(ws, es, owner, j, id);
    StartedOnce(ws, es, owner, i, n, id);
    SameNameIff(ws, es, owner, i, l, j, k);
  }

  // ---------------------------------------------------------------- a heal that takes a taken name

  /** The successor of replica `i` that a heal starts on the same node. */
  function SuccessorOf(w: World, cur: Deployment, i: nat): Container
    requires i < |cur.replicas|
  {
    Container(cur.replicas[i].node, cur.app, cur.image, NameOf(cur.app, NextId(w.rows), |cur.replicas|, i), "", 0)
  }

  function MergedWith(w: World, cur: Deployment, i: nat): (r: seq<Replica>)
    requires i < |cur.replicas| && cur.spec.Some?
    ensures |r| == |cur.replicas|
  {
    Patch(cur.replicas, [i], Replicas(w.nextCid, [SuccessorOf(w, cur, i)], cur.spec.value.port))
  }

  /** The state after a heal of replica `i` that cleans up completely. */
  function AfterHeal(w: World, cur: Deployment, i: nat): World
    requires i < |cur.replicas| && cur.spec.Some?
  {
    var domain, replicas := cur.spec.value.domain, MergedWith(w, cur, i);
    w.(rows := WithReplicas(w.rows, cur.id, replicas, Some(replicas[0].cid)),
       routes := w.routes[domain := RouteTo(domain, replicas)],
       serving := w.serving[domain := replicas],
       caddy := w.routes[domain := RouteTo(domain, replicas)],
       ahead := None,
       containers := Installed(w.containers - CidsAt(cur.replicas, [i]), w.nextCid, [SuccessorOf(w, cur, i)]),
       nextCid := w.nextCid + 1,
       healthy := w.healthy + {w.nextCid})
  }

  lemma AfterHealSwaps(w: World, owner: string -> string, cur: Deployment, i: nat)
    requires Inv(w, owner) && i < |cur.replicas| && cur.spec.Some?
    ensures Swapped(w, AfterHeal(w, cur, i), [SuccessorOf(w, cur, i)], CidsAt(cur.replicas, [i]))
  {
    hide Inv, CidsAt, WithReplicas, NextId, Swapped, RouteTo, MergedWith, Installed, SuccessorOf;
    CidsAreOld(w, owner);
    InstalledSwaps(w, AfterHeal(w, cur, i), [SuccessorOf(w, cur, i)], CidsAt(cur.replicas, [i]));
  }

  lemma AfterHealIsPatched(w: World, cur: Deployment, i: nat)
    requires i < |cur.replicas| && cur.spec.Some? && cur.replicas[i].node != ""
    requires Swapped(w, AfterHeal(w, cur, i), [SuccessorOf(w, cur, i)], CidsAt(cur.replicas, [i]))
    ensures Patched(w, AfterHeal(w, cur, i), cur, [i], [SuccessorOf(w, cur, i)])
    ensures KeepsPin(cur, [i], [SuccessorOf(w, cur, i)])
  {
    hide CidsAt, WithReplicas, NextId, Swapped, RouteTo, Patch, Installed, NameOf;
  }

  /** Whatever has happened before, every replica of a current row can be healed, where it was. */
  lemma CanHeal(w: World, owner: string -> string, app: string, i: nat) returns (v: World, e: Event)
    requires Inv(w, owner) && Current(w.rows, app).Some? && i < |Current(w.rows, app).value.replicas|
    ensures Step(w, v, owner, e) && e.Update? && Subject(e) == app && e.idxs == [i] && |e.cs| == 1
    ensures Current(v.rows, app).Some? && i < |Current(v.rows, app).value.replicas| == |e.cur.replicas|
    ensures var cid := Current(v.rows, app).value.replicas[i].cid;
      cid in v.containers && v.containers[cid] == e.cs[0]
  {
    hide Inv, Step, Current, Patched, KeepsPin, SuccessorOf, AfterHeal;
    var cur := Current(w.rows, app).value;
    CurrentCanBeHealed(w, owner, app, i);
    AfterHealSwaps(w, owner, cur, i);
    AfterHealIsPatched(w, cur, i);
    v, e := AfterHeal(w, cur, i), Update(cur, [i], [SuccessorOf(w, cur, i)]);
    HealIsStep(w, owner, cur, i);
    HealedCurrent(w, v, cur, i, SuccessorOf(w, cur, i));
  }

  lemma HealIsStep(w: World, owner: string -> string, cur: Deployment, i: nat)
    requires i < |cur.replicas| && cur.spec.Some? && Current(w.rows, cur.app) == Some(cur)
    requires Patched(w, AfterHeal(w, cur, i), cur, [i], [SuccessorOf(w, cur, i)])
    requires KeepsPin(cur, [i], [SuccessorOf(w, cur, i)])
    ensures Step(w, AfterHeal(w, cur, i), owner, Update(cur, [i], [SuccessorOf(w, cur, i)]))
  {
    hide Current, Patched, KeepsPin, SuccessorOf;
  }

  lemma CurrentCanBeHealed(w: World, owner: string -> string, app: string, i: nat)
    requires Inv(w, owner) && Current(w.rows, app).Some? && i < |Current(w.rows, app).value.replicas|
    ensures var cur := Current(w.rows, app).value;
      cur.app == app && cur.spec.Some? && cur.replicas[i].node != "" && TableOk(w.rows)
  {
    hide RoutesOk, ContainersOk;
    CurrentIsLive(w, owner, app);
  }

  lemma HealedCurrent(w: World, v: World, cur: Deployment, i: nat, c: Container)
    requires TableOk(w.rows) && Current(w.rows, cur.app) == Some(cur) && i < |cur.replicas|
    requires Patched(w, v, cur, [i], [c])
    ensures Current(v.rows, cur.app).Some?
    ensures var next := Current(v.rows, cur.app).value;
      && |next.replicas| == |cur.replicas| && next.replicas[i].cid == w.nextCid
      && w.nextCid in v.containers && v.containers[w.nextCid] == c
  {
    PatchedCurrent(w, v, cur, [i], [c], cur.app);
    PatchCases(cur.replicas, [i], Replicas(w.nextCid, [c], cur.spec.value.port), i);
    hide TableOk, Current, Patch, WithReplicas, NextId, NameOf, RouteTo;
  }

  /**
    A second heal of one index, with no row recorded since the first, takes the name that the container it
    replaces still has.  It can happen after any run that leaves the app a current row.
  */
  lemma SecondHealTakesTheName(w: World, owner: string -> string, app: string, i: nat)
    returns (ws: seq<World>, es: seq<Event>)
    requires Inv(w, owner) && Current(w.rows, app).Some? && i < |Current(w.rows, app).value.replicas|
    ensures Run(ws, es, owner) && |es| == 2 && ws[0] == w
    ensures forall n | 0 <= n < 2 :: es[n].Update? && es[n].cur.app == app && es[n].idxs == [i] && |es[n].cs| == 1
    ensures Current(ws[1].rows, app).Some? && i < |Current(ws[1].rows, app).value.replicas|
    ensures var cid := Current(ws[1].rows, app).value.replicas[i].cid;
      cid in ws[1].containers && ws[1].containers[cid].name == es[1].cs[0].name
  {
    hide Step, Inv, Current;
    var v, e := CanHeal(w, owner, app, i);
    StepKeepsInv(w, v, owner, e);
    var u, d := CanHeal(v, owner, app, i);
    ws, es := [w, v, u], [e, d];
    UpdateIsOfCurrent(v, u, owner, d);
    SameNameIff(ws, es, owner, 0, 0, 1, 0);
  }

  /** A failed start of replica `i` whose container could not be removed again. */
  lemma CanFailToHeal(w: World, owner: string -> string, app: string, i: nat) returns (v: World, e: Event)
    requires Inv(w, owner) && Current(w.rows, app).Some? && i < |Current(w.rows, app).value.replicas|
    ensures Step(w, v, owner, e) && e.Refuse? && Subject(e) == app && !Records(e) && IndexesOf(e) == [i]
    ensures |StartedBy(e)| == 1
    ensures SizeOf(e) == |Current(w.rows, app).value.replicas| && v.rows == w.rows
    ensures w.nextCid !in w.containers && w.nextCid in v.containers && v.containers[w.nextCid] == StartedBy(e)[0]
  {
    CidsAreOld(w, owner);
    InvIsMirrored(w, owner);
    hide Inv, NextId, Current, NameOf, Refused, Mirrored;
    var size := |Current(w.rows, app).value.replicas|;
    var c := Container("local", app, "", NameOf(app, NextId(w.rows), size, i), "", 0);
    v := w.(containers := w.containers[w.nextCid := c], nextCid := w.nextCid + 1, leaks := w.leaks + {w.nextCid});
    e := Refuse(app, {}, [], Trial(size, [i], [c]));
    StillMirrored(w, v);
    LeftoverIsRefused(w, v, app, c);
  }

  lemma LeftoverIsRefused(w: World, v: World, app: string, c: Container)
    requires (forall id | id in w.containers :: id < w.nextCid) && Mirrored(v) && c.node != "" && c.app == app
    requires v == w.(containers := w.containers[w.nextCid := c], nextCid := w.nextCid + 1,
      leaks := w.leaks + {w.nextCid})
    ensures Refused(w, v, app, {}, [])
  {
    hide Mirrored, NextId;
    assert v.rows == w.rows + [] && w.nextCid !in w.containers;
    assert v.containers.Keys - w.containers.Keys == {w.nextCid};
  }

  lemma InvIsMirrored(w: World, owner: string -> string)
    requires Inv(w, owner)
    ensures Mirrored(w)
  {
    hide TableOk, RowsOk, RoutesOk, ContainersOk, Mirrored;
  }

  lemma StillMirrored(w: World, v: World)
    requires Mirrored(w) && v == w.(containers := v.containers, nextCid := v.nextCid, leaks := v.leaks)
    requires w.nextCid <= v.nextCid
    ensures Mirrored(v)
  {
  }

  /**
    And so does a heal after one that failed and could not clean up: the name is that of a container that no
    completed operation ever started.
  */
  lemma FailedHealLeavesTheName(w: World, owner: string -> string, app: string, i: nat)
    returns (ws: seq<World>, es: seq<Event>)
    requires Inv(w, owner) && Current(w.rows, app).Some? && i < |Current(w.rows, app).value.replicas|
    ensures Run(ws, es, owner) && |es| == 2 && ws[0] == w
    ensures es[0].Refuse? && es[1].Update? && es[1].cur.app == app && es[1].idxs == [i] && |es[1].cs| == 1
    ensures w.nextCid !in ws[0].containers && w.nextCid in ws[1].containers
    ensures ws[1].containers[w.nextCid].name == es[1].cs[0].name
  {
    hide Step, Inv, Current;
    var v, e := CanFailToHeal(w, owner, app, i);
    StepKeepsInv(w, v, owner, e);
    var u, d := CanHeal(v, owner, app, i);
    ws, es := [w, v, u], [e, d];
    UpdateIsOfCurrent(v, u, owner, d);
    SameNameIff(ws, es, owner, 0, 0, 1, 0);
  }

  lemma UpdateIsOfCurrent(w: World, v: World, owner: string -> string, e: Event)
    requires Step(w, v, owner, e) && e.Update?
    ensures Current(w.rows, e.cur.app) == Some(e.cur)
  {
    hide Patched, KeepsPin, Current;
  }
}
