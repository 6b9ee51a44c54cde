/**
  Taking a whole node out of service: `EvacuateNode`, the whole-surface move for single replicas
  (internal/reconciler/evacuate.go), and the drain handler (internal/api/api.go:563-578).
*/
module NodeDrain {
  import opened Prelude
  import opened Schedule
  import opened Placing
  import opened Model
  import opened Transitions
  import opened Control
  import opened Effects
  import opened Deploy
  import opened Runs
  import opened Safety
  import opened Operations
  import opened Drain
  import opened Calls
  import opened Evacuate
  import Store

  // ---------------------------------------------------------------- a single replica

  /** Everywhere the inline loop of a scheduled deploy goes was offered, once its anchor was. */
  lemma RescheduledIsOffered(views: nat -> View, app: App, cs: seq<Container>)
    requires InlineTargets(views, 1, app, true, [app.node], Count(app)) == Ok(NodesOf(cs)) && OfferedIn(views, app.node)
    ensures |cs| == Count(app) && cs[0].node == app.node && forall c | c in cs :: OfferedIn(views, c.node)
  {
    InlineIsOffered(views, 1, app, [app.node], Count(app));
    InlineKeepsAnchor(views, 1, app, true, [app.node], Count(app));
    assert NodesOf(cs)[0] == cs[0].node;
    forall c | c in cs ensures OfferedIn(views, c.node) {
      var k :| 0 <= k < |cs| && cs[k] == c;
      assert NodesOf(cs)[k] == c.node;
    }
  }

  /** An Apply of an unpinned app, a Scale of a scheduled one included, starts containers only where offered. */
  lemma ApplyIsOffered(views: nat -> View, app: App, cs: seq<Container>)
    requires DeployPlan(views, app) == Ok(Spread(NodesOf(cs), true))
    ensures |cs| == Count(app) && forall c | c in cs :: OfferedIn(views, c.node)
  {
    var anchor := PlaceIn(views(0), app, []).value;
    PlaceInIsOffered(views(0), app, []);
    RescheduledIsOffered(views, app.(node := anchor), cs);
  }

  /** `rescheduleSurfaceLocked`: a new generation on some other node, forced to stay scheduled. */
  method Reschedule(r: Reconciler, cur: Deployment, node: string, views: nat -> View)
    returns (res: Result<Deployment, Failure>, ghost e: Event, ghost flip: nat)
    requires r.Valid() && Current(r.State().rows, cur.app) == Some(cur) && cur.scheduled
    requires forall k: nat :: WellFormed(views(k))
    modifies r, r.fleet, r.router, r.store`rows
    ensures r.Valid() && Step(old(r.State()), r.State(), r.owner, e) && Subject(e) == cur.app
    ensures (e.Deploy? || e.Refuse?)
    ensures Outcome(old(r.State()), r.State(), old(r.history), r.history, res, e, flip)
    ensures e.Deploy? ==>
      && cur.spec.Some? && e.app == cur.spec.value.(node := e.app.node) && e.scheduled && e.origin == ""
      && e.app.node != node && e.cs != [] && e.cs[0].node == e.app.node && |e.cs| == |cur.replicas|
    ensures Shifts(old(r.State()), e, n => OfferedIn(views, n))
    ensures r.Sound() && |cur.replicas| <= 1 ==>
      cur.spec.Some? && (res.Ok? <==> SomewhereElse(views(0), cur.spec.value, node))
    ensures r.fleet.reliable ==> r.State().leaks == old(r.State()).leaks
  {
    hide Inv, Step, Outcome, Current, Located, OfferedIn, SomewhereElse, ValidSpec, Shifts;
    CurrentCanMove(r.State(), r.owner, cur);
    flip := 0;
    var placed := PlaceOff(views, cur.spec.value.(image := cur.image), node);
    if placed.None? {
      res, e := Err(ReplicaUnplaced), Refuse(cur.app, {}, []);
      NothingAtAll(r.State(), r.owner, r.history, cur.app, ReplicaUnplaced);
      RefusalShifts(r.State(), e, n => OfferedIn(views, n));
      return;
    }
    res, e, flip := RedeployOn(r, cur, placed.value, views);
  }

  /** `placeExcluding`: where the app goes if `node` is out. */
  method PlaceOff(views: nat -> View, app: App, node: string) returns (anchor: Option<string>)
    requires forall k: nat :: WellFormed(views(k))
    ensures anchor.Some? <==> SomewhereElse(views(0), app, node)
    ensures anchor.Some? ==> anchor.value != "" && anchor.value != node && OfferedIn(views, anchor.value)
  {
    hide PlaceIn, SomewhereElse, OfferedIn;
    PlacedIfAnyCan(views(0), app, [node]);
    SomewhereIs(views(0), app, node);
    var placed := PlaceExcludingSet(views(0), app, [node]);
    if placed.Err? {
      return None;
    }
    PlacedElsewhere(views, app, node);
    anchor := Some(placed.value);
  }

  /** The surface redeployed with its first replica on `anchor`, and its provenance forced to scheduled. */
  method RedeployOn(r: Reconciler, cur: Deployment, anchor: string, views: nat -> View)
    returns (res: Result<Deployment, Failure>, ghost e: Event, ghost flip: nat)
    requires r.Valid() && Current(r.State().rows, cur.app) == Some(cur) && cur.scheduled
    requires anchor != "" && OfferedIn(views, anchor) && forall k: nat :: WellFormed(views(k))
    modifies r, r.fleet, r.router, r.store`rows
    ensures r.Valid() && Step(old(r.State()), r.State(), r.owner, e) && Subject(e) == cur.app && cur.spec.Some?
    ensures e.Deploy? || e.Refuse?
    ensures Outcome(old(r.State()), r.State(), old(r.history), r.history, res, e, flip)
    ensures e.Deploy? ==>
      && e.app == cur.spec.value.(node := anchor) && e.scheduled && e.origin == ""
      && |e.cs| == |cur.replicas| && e.cs != [] && e.cs[0].node == anchor
    ensures Shifts(old(r.State()), e, n => OfferedIn(views, n))
    ensures r.Sound() && |cur.replicas| <= 1 ==> res.Ok?
    ensures r.fleet.reliable ==> r.State().leaks == old(r.State()).leaks
  {
    hide Inv, Step, Outcome, Current, PlaceIn, InlineTargets, Located, Offers, OfferedIn, ValidSpec;
    CurrentCanMove(r.State(), r.owner, cur);
    var restored := cur.spec.value.(image := cur.image, node := anchor);
    ValidAnywhere(cur.spec.value, anchor);
    AnchorAlone(views, restored);
    res, e, flip := ApplyImageProvenance(r, restored, Some(true), views, "");
    OutcomeTells(old(r.State()), r.State(), old(r.history), r.history, res, e, flip);
    if e.Deploy? {
      RescheduledIsOffered(views, restored, e.cs);
    }
  }

  lemma RefusalShifts(w: World, e: Event, offered: string -> bool)
    requires e.Refuse?
    ensures Shifts(w, e, offered)
  {
  }

  lemma OutcomeTells(w: World, v: World, h0: seq<World>, h: seq<World>, res: Result<Deployment, Failure>, e: Event,
      flip: nat)
    requires Outcome(w, v, h0, h, res, e, flip)
    ensures res.Ok? <==> e.Deploy?
  {
    hide WentLive, CameToNothing;
  }

  /** A node other than `node` can take the app. */
  ghost predicate SomewhereElse(view: View, app: App, node: string) {
    exists n, cap :: n != node && CanTake(view, app, [], n, cap)
  }

  lemma SomewhereIs(view: View, app: App, node: string)
    ensures SomewhereElse(view, app, node) <==> exists n, cap :: CanTake(view, app, [node], n, cap)
  {
    hide Usable, HasRoom;
    if n, cap :| n != node && CanTake(view, app, [], n, cap) {
      assert CanTake(view, app, [node], n, cap);
    }
    if n, cap :| CanTake(view, app, [node], n, cap) {
      assert CanTake(view, app, [], n, cap);
    }
  }

  lemma ValidAnywhere(app: App, node: string)
    requires ValidSpec(app)
    ensures ValidSpec(app.(node := node))
  {
  }

  lemma AnchorAlone(views: nat -> View, app: App)
    ensures Count(app) == 1 ==> InlineTargets(views, 1, app, true, [app.node], Count(app)) == Ok([app.node])
  {
  }

  lemma PlacedElsewhere(views: nat -> View, app: App, node: string)
    requires PlaceIn(views(0), app, [node]).Ok? && WellFormed(views(0))
    ensures var n := PlaceIn(views(0), app, [node]).value; n != node && n != "" && OfferedIn(views, n)
  {
    PlaceInIsOffered(views(0), app, [node]);
  }

  // ---------------------------------------------------------------- one app

  /** `affectedByNode`: exactly the indexes of the replicas on the node, in order. */
  method AffectedByNode(replicas: seq<Replica>, node: string) returns (movingIdx: seq<nat>)
    ensures Increasing(movingIdx)
    ensures forall k :: k in movingIdx <==> 0 <= k < |replicas| && Normalize(replicas[k].node) == node
  {
    movingIdx := [];
    for i := 0 to |replicas|
      invariant Increasing(movingIdx)
      invariant forall k :: k in movingIdx <==> 0 <= k < i && Normalize(replicas[k].node) == node
    {
      if Normalize(replicas[i].node) == node {
        assert forall k | 0 <= k < |movingIdx| :: movingIdx[k] in movingIdx;
        movingIdx := movingIdx + [i];
      }
    }
  }

  /** If `app` is running and scheduled, none of its replicas is on `node`. */
  ghost predicate AppClear(rows: seq<Deployment>, app: string, node: string) {
    var cur := Current(rows, app);
    cur.Some? && cur.value.scheduled ==> forall k | 0 <= k < |cur.value.replicas| :: cur.value.replicas[k].node != node
  }

  lemma SpreadOffIsClear(before: seq<Replica>, now: seq<Replica>, node: string, moved: set<nat>, movingIdx: seq<nat>)
    requires Spreads(before, now, node, moved) && Elements(movingIdx) <= moved
    requires forall k :: k in movingIdx <==> 0 <= k < |before| && Normalize(before[k].node) == node
    requires forall k | 0 <= k < |before| :: before[k].node != ""
    ensures forall k | 0 <= k < |now| :: now[k].node != node
  {
  }

  ghost predicate SitsOn(replicas: seq<Replica>, node: string) {
    exists k :: 0 <= k < |replicas| && replicas[k].node == node
  }

  /** The running row of `app` has a replica on `node`. */
  ghost predicate Affected(rows: seq<Deployment>, app: string, node: string) {
    Current(rows, app).Some? && SitsOn(Current(rows, app).value.replicas, node)
  }

  ghost predicate Movable(rows: seq<Deployment>, app: string) {
    Current(rows, app).Some? && Current(rows, app).value.scheduled
  }

  /** The running row of `app` has another set of replicas than before. */
  ghost predicate Rehoused(a: seq<Deployment>, b: seq<Deployment>, app: string) {
    Current(a, app).Some? && Current(b, app).Some? && Current(b, app).value.replicas != Current(a, app).value.replicas
  }

  /**
    What an evacuation of `node` does to one app and says of it: a pinned app on the node is skipped, and of one
    that the scheduler placed there it reports whether anything moved and whether anything is left behind.
  */
  ghost predicate Handled(a: seq<Deployment>, b: seq<Deployment>, app: string, node: string, skipped: bool,
      moved: bool, failed: bool) {
    && (skipped <==> Affected(a, app, node) && !Movable(a, app))
    && (moved <==> Affected(a, app, node) && Movable(a, app) && Rehoused(a, b, app))
    && (failed <==> Affected(a, app, node) && Movable(a, app) && !AppClear(b, app, node))
    && (Affected(a, app, node) ==> skipped || moved || failed)
    && (!Affected(a, app, node) || skipped ==> Current(b, app) == Current(a, app))
  }

  /** A single replica is redeployed as a new generation; a set keeps its row and moves replica by replica. */
  predicate MovedAs(count: nat, es: seq<Event>) {
    if count <= 1 then |es| == 1 && (es[0].Deploy? || es[0].Refuse?)
    else forall i | 0 <= i < |es| :: es[i].Update? || es[i].Refuse?
  }

  ghost predicate HandledAs(a: seq<Deployment>, b: seq<Deployment>, app: string, node: string, verdict: Verdict) {
    match verdict
    case Unaffected => Handled(a, b, app, node, false, false, false)
    case Skipped => Handled(a, b, app, node, true, false, false)
    case Tried(moved, failures) => Handled(a, b, app, node, false, moved, failures != [])
  }

  datatype Verdict = Unaffected | Skipped | Tried(moved: bool, failures: seq<Failure>)

  lemma OffNodeIsClear(w: World, owner: string -> string, app: string, node: string, movingIdx: seq<nat>)
    requires Inv(w, owner) && Current(w.rows, app).Some? && movingIdx == []
    requires var before := Current(w.rows, app).value.replicas;
      forall k :: k in movingIdx <==> 0 <= k < |before| && Normalize(before[k].node) == node
    ensures AppClear(w.rows, app, node)
  {
    CurrentOf(w, owner, app);
    CurrentCanMove(w, owner, Current(w.rows, app).value);
    hide Inv, Current, ValidSpec, Located;
    forall k | 0 <= k < |Current(w.rows, app).value.replicas|
      ensures Current(w.rows, app).value.replicas[k].node != node {
      assert k !in movingIdx;
    }
  }

  /** The failures `EvacuateNode` reports, in the order of the indexes. */
  method Failures(movingIdx: seq<nat>, failed: map<nat, Failure>) returns (failures: seq<Failure>)
    ensures failures == [] <==> forall k | k in movingIdx :: k !in failed
  {
    failures := [];
    for i := 0 to |movingIdx|
      invariant failures == [] <==> forall k | 0 <= k < i :: movingIdx[k] !in failed
    {
      if movingIdx[i] in failed {
        failures := failures + [failed[movingIdx[i]]];
      }
    }
  }

  lemma MovedIsClear(w: World, s: World, owner: string -> string, ws: seq<World>, es: seq<Event>, h0: seq<World>,
      h: seq<World>, before: Deployment, now: Deployment, node: string, moved: set<nat>, views: nat -> View,
                     movingIdx: seq<nat>)
    requires Inv(w, owner) && Current(w.rows, before.app) == Some(before)
    requires Moving(w, s, owner, ws, es, h0, h, before, now, node, moved, views)
    requires forall k :: k in movingIdx <==> 0 <= k < |before.replicas| && Normalize(before.replicas[k].node) == node
    ensures Leads(w, s, owner, ws, es, before.app) && |ws| == |es| + 1
    ensures forall i | 0 <= i < |es| :: Shifts(ws[i], es[i], n => OfferedIn(views, n))
    ensures Elements(movingIdx) <= moved ==> AppClear(s.rows, before.app, node)
    ensures forall i | 0 <= i < |es| :: es[i].Update? || es[i].Refuse?
  {
    CurrentCanMove(w, owner, before);
    hide Inv, Current, ValidSpec, Located, Leads, Bright, Spreads;
    if Elements(movingIdx) <= moved {
      SpreadOffIsClear(before.replicas, now.replicas, node, moved, movingIdx);
    }
  }

  lemma RescheduledIsClear(w: World, v: World, owner: string -> string, e: Event, node: string)
    requires Inv(w, owner) && Step(w, v, owner, e) && e.Deploy? && |e.cs| == 1 && e.cs[0].node != node
    ensures AppClear(v.rows, e.app.name, node)
  {
    hide RowsOk, RoutesOk, ContainersOk, Admissible, Flipped, Pinned, Superseded, Current;
    DeployedCurrent(w, v, e.app, e.scheduled, e.origin, e.cs, e.app.name);
  }

  /** The body of `EvacuateNode`'s loop for one app. */
  method EvacuateApp(r: Reconciler, app: string, node: string, views: nat -> View)
    returns (verdict: Verdict, ghost ws: seq<World>, ghost es: seq<Event>)
    requires r.Valid() && forall k: nat :: WellFormed(views(k))
    modifies r, r.fleet, r.router, r.store`rows
    ensures r.Valid() && Leads(old(r.State()), r.State(), r.owner, ws, es, app)
    ensures |ws| == |es| + 1 && forall i | 0 <= i < |es| :: Shifts(ws[i], es[i], n => OfferedIn(views, n))
    ensures !verdict.Tried? ==> r.State() == old(r.State())
    ensures verdict.Tried? ==>
      Current(old(r.State()).rows, app).Some? && Current(old(r.State()).rows, app).value.scheduled
    ensures (verdict.Tried? ==> verdict.failures == []) ==> AppClear(r.State().rows, app, node)
    ensures HandledAs(old(r.State()).rows, r.State().rows, app, node, verdict)
    ensures verdict.Tried? ==> MovedAs(|Current(old(r.State()).rows, app).value.replicas|, es)
    ensures r.fleet.reliable ==> r.State().leaks == old(r.State()).leaks
  {
    hide Inv, Step, Outcome, Current, Moving, PlacedBy, Leads, OfferedIn, AppClear, Handled;
    ghost var w, h0 := r.State(), r.history;
    ws, es := [w], [];
    LeadsNowhere(w, r.owner, app);
    var current := r.store.CurrentDeployment(app);
    if current.None? {
      NotRunningIsClear(w, app, node);
      HandledWithout(w, r.owner, app, node, [], false);
      return Unaffected, ws, es;
    }
    var cur := current.value;
    CurrentOf(w, r.owner, app);
    var movingIdx := AffectedByNode(cur.replicas, node);
    HandledWithout(w, r.owner, app, node, movingIdx, !cur.scheduled);
    if |movingIdx| == 0 {
      OffNodeIsClear(w, r.owner, app, node, movingIdx);
      return Unaffected, ws, es;
    }
    if !cur.scheduled {
      NotRunningIsClear(w, app, node);
      return Skipped, ws, es;
    }
    if |cur.replicas| <= 1 {
      var res;
      ghost var e, flip;
      res, e, flip := Reschedule(r, cur, node, views);
      LeadsOn(w, w, r.State(), r.owner, ws, es, e, app);
      OneReplica(w, r.State(), r.owner, h0, r.history, cur, res, e, flip, node);
      OneIsHandled(w, r.State(), r.owner, h0, r.history, cur, res, e, flip, node);
      ws, es := ws + [r.State()], es + [e];
      verdict := Tried(res.Ok?, if res.Ok? then [] else [res.error]);
    } else {
      var moved, failed, next;
      moved, failed, next, ws, es := EvacuateReplicas(r, cur, node, movingIdx, views);
      MovedIsClear(w, r.State(), r.owner, ws, es, h0, r.history, cur, next, node, Elements(moved), views, movingIdx);
      ManyAreHandled(w, r.State(), r.owner, ws, es, h0, r.history, cur, next, node, Elements(moved), views, movingIdx);
      var failures := Failures(movingIdx, failed);
      assert moved != [] ==> moved[0] in Elements(moved);
      verdict := Tried(moved != [], failures);
    }
  }

  /** `movingIdx` are the indexes of the replicas on `node`. */
  ghost predicate IndexesOn(replicas: seq<Replica>, node: string, movingIdx: seq<nat>) {
    forall k :: k in movingIdx <==> 0 <= k < |replicas| && Normalize(replicas[k].node) == node
  }

  lemma IndexesAre(replicas: seq<Replica>, node: string, movingIdx: seq<nat>)
    requires IndexesOn(replicas, node, movingIdx) && forall k | 0 <= k < |replicas| :: replicas[k].node != ""
    ensures SitsOn(replicas, node) <==> movingIdx != []
    ensures forall k | k in movingIdx :: k < |replicas| && replicas[k].node == node
  {
    if movingIdx != [] { assert movingIdx[0] in movingIdx; }
  }

  /** An app that is not on the node, or is not the scheduler's to move, is left alone. */
  lemma HandledWithout(w: World, owner: string -> string, app: string, node: string, movingIdx: seq<nat>, pinned: bool)
    requires Inv(w, owner)
    requires Current(w.rows, app).Some? ==>
      && IndexesOn(Current(w.rows, app).value.replicas, node, movingIdx)
      && pinned == !Current(w.rows, app).value.scheduled
    ensures Current(w.rows, app).None? ==> Handled(w.rows, w.rows, app, node, false, false, false)
    ensures Current(w.rows, app).Some? ==> (Affected(w.rows, app, node) <==> movingIdx != [])
    ensures movingIdx == [] ==> Handled(w.rows, w.rows, app, node, false, false, false)
    ensures Current(w.rows, app).Some? && movingIdx != [] && pinned ==>
      Handled(w.rows, w.rows, app, node, true, false, false)
  {
    if Current(w.rows, app).Some? {
      CurrentOf(w, owner, app);
      CurrentCanMove(w, owner, Current(w.rows, app).value);
      IndexesAre(Current(w.rows, app).value.replicas, node, movingIdx);
    }
    hide Inv, Current, ValidSpec, Located, SitsOn, IndexesOn;
  }

  /** A single replica: redeployed elsewhere, or still where it was. */
  lemma OneIsHandled(w: World, v: World, owner: string -> string, h0: seq<World>, h: seq<World>, cur: Deployment,
      res: Result<Deployment, Failure>, e: Event, flip: nat, node: string)
    requires Inv(w, owner) && Current(w.rows, cur.app) == Some(cur) && |cur.replicas| <= 1 && cur.scheduled
    requires Step(w, v, owner, e) && Outcome(w, v, h0, h, res, e, flip) && Subject(e) == cur.app
    requires e.Deploy? ==> e.app.node != node && |e.cs| == 1 && e.cs[0].node == e.app.node
    requires Affected(w.rows, cur.app, node) && (res.Ok? ==> AppClear(v.rows, cur.app, node))
    ensures Handled(w.rows, v.rows, cur.app, node, false, res.Ok?, res.Err?)
  {
    hide Inv, Current, Step, Deployed, BlueGreen, Quiet, Refused, PassedGate, Left, Pinned, AppClear;
    if e.Deploy? {
      FreshRow(w, v, owner, e);
    } else {
      FailureKeepsCurrent(w, v, e);
      StuckIsNotClear(w.rows, v.rows, cur.app, node);
    }
  }

  lemma FreshRow(w: World, v: World, owner: string -> string, e: Event)
    requires Inv(w, owner) && e.Deploy? && Deployed(w, v, e.app, e.scheduled, e.origin, e.cs) && |e.cs| == 1
    ensures Current(v.rows, e.app.name).Some?
    ensures Current(v.rows, e.app.name).value.replicas == Replicas(w.nextCid, e.cs, e.app.port)
  {
    hide RowsOk, RoutesOk, ContainersOk, Mirrored, Flipped, Superseded, NextId, StartedFor;
    DeployedCurrent(w, v, e.app, e.scheduled, e.origin, e.cs, e.app.name);
  }

  lemma FailureKeepsCurrent(w: World, v: World, e: Event)
    requires e.Refuse? && Refused(w, v, e.name, e.lost, e.noted)
    ensures Current(v.rows, e.name) == Current(w.rows, e.name)
  {
    RefusedKeepsCurrent(w.rows, e.noted, e.name);
  }

  lemma StuckIsNotClear(a: seq<Deployment>, b: seq<Deployment>, app: string, node: string)
    requires Affected(a, app, node) && Movable(a, app) && Current(b, app) == Current(a, app)
    ensures !AppClear(b, app, node)
  {
    hide Current;
  }

  /** A replica set: what moved is off the node, what failed to is where it was. */
  lemma ManyAreHandled(w: World, s: World, owner: string -> string, ws: seq<World>, es: seq<Event>, h0: seq<World>,
      h: seq<World>, before: Deployment, now: Deployment, node: string, moved: set<nat>, views: nat -> View,
      movingIdx: seq<nat>)
    requires Inv(w, owner) && Current(w.rows, before.app) == Some(before) && before.scheduled
    requires Moving(w, s, owner, ws, es, h0, h, before, now, node, moved, views)
    requires IndexesOn(before.replicas, node, movingIdx) && movingIdx != [] && moved <= Elements(movingIdx)
    ensures Handled(w.rows, s.rows, before.app, node, false, moved != {}, !(Elements(movingIdx) <= moved))
  {
    CurrentCanMove(w, owner, before);
    IndexesAre(before.replicas, node, movingIdx);
    hide Inv, Current, ValidSpec, Located, Leads, Bright, Shines, SitsOn, IndexesOn, Spreads;
    SpreadTells(before.replicas, now.replicas, node, moved, movingIdx);
  }

  lemma SpreadTells(before: seq<Replica>, now: seq<Replica>, node: string, moved: set<nat>, movingIdx: seq<nat>)
    requires Spreads(before, now, node, moved) && moved <= Elements(movingIdx)
    requires IndexesOn(before, node, movingIdx) && forall k | 0 <= k < |before| :: before[k].node != ""
    ensures now != before <==> moved != {}
    ensures (forall k | 0 <= k < |now| :: now[k].node != node) <==> Elements(movingIdx) <= moved
  {
    IndexesAre(before, node, movingIdx);
    if moved != {} {
      var j :| j in moved;
      assert now[j].node != node && before[j].node == node;
    }
    if Elements(movingIdx) <= moved {
      SpreadOffIsClear(before, now, node, moved, movingIdx);
    } else {
      var j :| j in movingIdx && j !in moved;
      assert now[j] == before[j];
    }
  }

  lemma NotRunningIsClear(w: World, app: string, node: string)
    requires Current(w.rows, app).Some? ==> !Current(w.rows, app).value.scheduled
    ensures AppClear(w.rows, app, node)
  {
  }

  lemma OneReplica(w: World, v: World, owner: string -> string, h0: seq<World>, h: seq<World>, cur: Deployment,
      res: Result<Deployment, Failure>, e: Event, flip: nat, node: string)
    requires Inv(w, owner) && Current(w.rows, cur.app) == Some(cur) && |cur.replicas| <= 1
    requires Step(w, v, owner, e) && Outcome(w, v, h0, h, res, e, flip) && Subject(e) == cur.app
    requires e.Deploy? ==> e.app.node != node && e.cs != [] && e.cs[0].node == e.app.node && |e.cs| == |cur.replicas|
    ensures res.Ok? ==> AppClear(v.rows, cur.app, node)
  {
    hide Inv, Step, Current, AppClear;
    if e.Deploy? {
      RescheduledIsClear(w, v, owner, e, node);
    }
  }

  // ---------------------------------------------------------------- the whole node

  datatype EvacuateResult = EvacuateResult(moved: seq<string>, skipped: seq<string>, failed: seq<EvacFailure>)

  datatype EvacFailure = EvacFailure(app: string, failure: Failure)

  /** Where the loop of `EvacuateNode` stands after `n` of the listed apps. */
  ghost predicate Emptying(w: World, s: World, owner: string -> string, ws: seq<World>, es: seq<Event>,
                           apps: seq<string>, n: nat, node: string, clean: bool, views: nat -> nat -> View) {
    && Reaches(w, s, owner, ws, es) && n <= |apps|
    && |ws| == |es| + 1 && (forall i | 0 <= i < |es| :: Shifts(ws[i], es[i], m => OfferedToAny(views, m)))
    && (forall i | 0 <= i < |s.rows| :: s.rows[i].app in apps)
    && (forall i | n <= i < |apps| :: Current(s.rows, apps[i]) == Current(w.rows, apps[i]))
    && (forall a :: Current(w.rows, a).Some? && !Current(w.rows, a).value.scheduled ==>
          Current(s.rows, a) == Current(w.rows, a))
    && (clean ==> forall i | 0 <= i < n :: AppClear(s.rows, apps[i], node))
  }

  lemma EvacuatingStarts(w: World, owner: string -> string, node: string, views: nat -> nat -> View)
    ensures Emptying(w, w, owner, [w], [], Store.AppsOf(w.rows), 0, node, true, views)
  {
    hide Current;
    Store.AppsOfLists(w.rows);
  }

  /** A stretch of operations on `app` leaves every other app's current row alone. */
  lemma OthersKeepCurrent(w: World, v: World, owner: string -> string, ws: seq<World>, es: seq<Event>, app: string,
      b: string)
    requires Inv(w, owner) && Leads(w, v, owner, ws, es, app) && b != app
    ensures Current(v.rows, b) == Current(w.rows, b)
  {
    hide Inv, LatestAt, OutsideUntouched;
    RunLeavesOthersUntouched(ws, es, owner, b, |es|);
    LatestAtIs(v.rows, b, Running, LatestAt(w.rows, b, Running));
  }

  lemma StretchAddsOwnRows(w: World, v: World, owner: string -> string, ws: seq<World>, es: seq<Event>, app: string,
      apps: seq<string>)
    requires Inv(w, owner) && Leads(w, v, owner, ws, es, app) && app in apps
    requires forall i | 0 <= i < |w.rows| :: w.rows[i].app in apps
    ensures forall i | 0 <= i < |v.rows| :: v.rows[i].app in apps
  {
    hide Inv, Step;
    StretchRows(ws, es, owner, app, apps, |es|);
  }

  lemma {:induction false} StretchRows(ws: seq<World>, es: seq<Event>, owner: string -> string, app: string,
      apps: seq<string>, n: nat)
    requires Run(ws, es, owner) && Inv(ws[0], owner) && n < |ws| && app in apps
    requires forall i | 0 <= i < |es| :: Subject(es[i]) == app
    requires forall i | 0 <= i < |ws[0].rows| :: ws[0].rows[i].app in apps
    ensures forall i | 0 <= i < |ws[n].rows| :: ws[n].rows[i].app in apps
  {
    hide Inv, Step;
    if n > 0 {
      StretchRows(ws, es, owner, app, apps, n - 1);
      RunKeepsInv(ws, es, owner, n - 1);
      StepEvolves(ws[n - 1], ws[n], owner, es[n - 1]);
      forall i | 0 <= i < |ws[n].rows| ensures ws[n].rows[i].app in apps {
        if i < |ws[n - 1].rows| { assert ws[n].rows[i].app == ws[n - 1].rows[i].app; }
      }
    }
  }

  lemma ShiftsWider(w: World, e: Event, views: nat -> nat -> View, n: nat)
    requires Shifts(w, e, m => OfferedIn(views(n), m))
    ensures Shifts(w, e, m => OfferedToAny(views, m))
  {
    hide OfferedIn, InPlace;
    forall m | OfferedIn(views(n), m) ensures OfferedToAny(views, m) { }
  }

  lemma ReachesEnds(w: World, v: World, owner: string -> string, ws: seq<World>, es: seq<Event>)
    requires Reaches(w, v, owner, ws, es)
    ensures |ws| == |es| + 1 && ws[0] == w && ws[|es|] == v
  {
    hide Step;
  }

  lemma LeadsReaches(w: World, v: World, owner: string -> string, ws: seq<World>, es: seq<Event>, app: string)
    requires Leads(w, v, owner, ws, es, app)
    ensures Reaches(w, v, owner, ws, es)
  {
    hide Step;
  }

  lemma EvacuatingOn(w: World, s: World, u: World, owner: string -> string, ws: seq<World>, es: seq<Event>,
      more: seq<World>, then_: seq<Event>,
                     apps: seq<string>, n: nat, node: string, clean: bool, views: nat -> nat -> View, ok: bool)
    requires Emptying(w, s, owner, ws, es, apps, n, node, clean, views) && n < |apps| && Store.Distinct(apps)
    requires Inv(s, owner) && Leads(s, u, owner, more, then_, apps[n])
    requires |more| == |then_| + 1
    requires forall i | 0 <= i < |then_| :: Shifts(more[i], then_[i], m => OfferedIn(views(n), m))
    requires ok ==> AppClear(u.rows, apps[n], node)
    requires Current(s.rows, apps[n]).Some? && !Current(s.rows, apps[n]).value.scheduled ==> u == s
    ensures more != [] && Emptying(w, u, owner, ws + more[1..], es + then_, apps, n + 1, node, clean && ok, views)
  {
    hide Inv, Step, Run, Current, Leads, Reaches, Shifts, OfferedIn, OfferedToAny, AppClear;
    LeadsReaches(s, u, owner, more, then_, apps[n]);
    ReachesBoth(w, s, u, owner, ws, es, more, then_);
    StretchAddsOwnRows(s, u, owner, more, then_, apps[n], apps);
    forall b | b != apps[n] ensures Current(u.rows, b) == Current(s.rows, b) {
      OthersKeepCurrent(s, u, owner, more, then_, apps[n], b);
    }
    forall i | 0 <= i < n && clean ensures AppClear(u.rows, apps[i], node) {
      assert AppClear(s.rows, apps[i], node);
      SameCurrentIsClear(s.rows, u.rows, apps[i], node);
    }
    ReachesEnds(w, s, owner, ws, es);
    ReachesEnds(s, u, owner, more, then_);
    forall i | 0 <= i < |es + then_| ensures Shifts((ws + more[1..])[i], (es + then_)[i], m => OfferedToAny(views, m)) {
      if i >= |es| {
        assert (ws + more[1..])[i] == more[i - |es|];
        ShiftsWider(more[i - |es|], then_[i - |es|], views, n);
      }
    }
  }

  lemma SameCurrentIsClear(a: seq<Deployment>, b: seq<Deployment>, app: string, node: string)
    requires AppClear(a, app, node) && Current(b, app) == Current(a, app)
    ensures AppClear(b, app, node)
  {
  }

  lemma AllClear(w: World, s: World, owner: string -> string, ws: seq<World>, es: seq<Event>, apps: seq<string>,
      node: string, views: nat -> nat -> View)
    requires Emptying(w, s, owner, ws, es, apps, |apps|, node, true, views) && Inv(s, owner)
    ensures Clear(s, node)
  {
    hide RowsOk, RoutesOk, ContainersOk, TableOk, LatestAt, Reaches, PlacedBy;
    forall i, k | 0 <= i < |s.rows| && s.rows[i].status == Running && s.rows[i].scheduled &&
      0 <= k < |s.rows[i].replicas|
      ensures s.rows[i].replicas[k].node != node
    {
      RunningIsCurrent(s, owner, i);
      var j :| 0 <= j < |apps| && apps[j] == s.rows[i].app;
      assert AppClear(s.rows, apps[j], node);
    }
  }

  /** The moved, skipped and failed lists grow by one app's verdict. */
  function Noted(result: EvacuateResult, app: string, verdict: Verdict): EvacuateResult {
    match verdict
    case Unaffected => result
    case Skipped => result.(skipped := result.skipped + [app])
    case Tried(moved, failures) =>
      result.(
        moved := if moved then result.moved + [app] else result.moved,
        failed := result.failed + seq(|failures|, i requires 0 <= i < |failures| => EvacFailure(app, failures[i])))
  }

  ghost predicate FailedIn(result: EvacuateResult, app: string) {
    exists i :: 0 <= i < |result.failed| && result.failed[i].app == app
  }

  /** The result says of `app` what the evacuation did to it. */
  ghost predicate Told(a: seq<Deployment>, b: seq<Deployment>, app: string, node: string, result: EvacuateResult) {
    Handled(a, b, app, node, app in result.skipped, app in result.moved, FailedIn(result, app))
  }

  /** After `n` of the apps the result tells of those, and of no other. */
  ghost predicate Tallied(a: seq<Deployment>, b: seq<Deployment>, apps: seq<string>, n: nat, node: string,
      result: EvacuateResult) {
    && n <= |apps| && (forall i | 0 <= i < n :: Told(a, b, apps[i], node, result))
    && (forall x | x in result.skipped || x in result.moved || FailedIn(result, x) ::
          exists i :: 0 <= i < n && apps[i] == x)
  }

  lemma NotedIs(result: EvacuateResult, app: string, verdict: Verdict, x: string)
    ensures var next := Noted(result, app, verdict);
      && (x in next.skipped <==> x in result.skipped || (x == app && verdict.Skipped?))
      && (x in next.moved <==> x in result.moved || (x == app && verdict.Tried? && verdict.moved))
      && (FailedIn(next, x) <==> FailedIn(result, x) || (x == app && verdict.Tried? && verdict.failures != []))
  {
    var next := Noted(result, app, verdict);
    if FailedIn(result, x) {
      var i :| 0 <= i < |result.failed| && result.failed[i].app == x;
      assert next.failed[i].app == x;
    }
    if verdict.Tried? && verdict.failures != [] {
      assert next.failed[|result.failed|].app == app;
    }
  }

  lemma TalliedOn(a: seq<Deployment>, b: seq<Deployment>, c: seq<Deployment>, apps: seq<string>, n: nat, node: string,
      result: EvacuateResult, verdict: Verdict)
    requires Tallied(a, b, apps, n, node, result) && n < |apps| && Store.Distinct(apps)
    requires Current(b, apps[n]) == Current(a, apps[n]) && HandledAs(b, c, apps[n], node, verdict)
    requires forall x | x != apps[n] :: Current(c, x) == Current(b, x)
    ensures Tallied(a, c, apps, n + 1, node, Noted(result, apps[n], verdict))
  {
    hide Current, Noted;
    var next := Noted(result, apps[n], verdict);
    forall x
      ensures x in next.skipped <==> x in result.skipped || (x == apps[n] && verdict.Skipped?)
      ensures x in next.moved <==> x in result.moved || (x == apps[n] && verdict.Tried? && verdict.moved)
      ensures FailedIn(next, x) <==> FailedIn(result, x) || (x == apps[n] && verdict.Tried? && verdict.failures != [])
    {
      NotedIs(result, apps[n], verdict, x);
    }
    hide FailedIn;
    forall i | 0 <= i < n ensures Told(a, c, apps[i], node, next) {
      assert Told(a, b, apps[i], node, result) && apps[i] != apps[n];
    }
    assert apps[n] !in result.skipped && apps[n] !in result.moved && !FailedIn(result, apps[n]);
    assert Told(a, c, apps[n], node, next);
    forall x | x in next.skipped || x in next.moved || FailedIn(next, x)
      ensures exists i :: 0 <= i < n + 1 && apps[i] == x {
      if x != apps[n] {
        var i :| 0 <= i < n && apps[i] == x;
      }
    }
  }

  /** An app without rows is not on the node, and nothing is told of it. */
  lemma TalliedAll(a: seq<Deployment>, b: seq<Deployment>, apps: seq<string>, node: string, result: EvacuateResult)
    requires Tallied(a, b, apps, |apps|, node, result)
    requires forall i | 0 <= i < |a| :: a[i].app in apps
    requires forall i | 0 <= i < |b| :: b[i].app in apps
    ensures forall x :: Told(a, b, x, node, result)
  {
    hide LatestAt;
    forall x ensures Told(a, b, x, node, result) {
      if x in apps {
        var i :| 0 <= i < |apps| && apps[i] == x;
      } else {
        assert Current(a, x).None? && Current(b, x).None?;
      }
    }
  }

  /** No app is told to have failed exactly if the node is clear. */
  lemma CleanIsClear(a: World, b: World, owner: string -> string, node: string, result: EvacuateResult)
    requires Inv(a, owner) && Inv(b, owner) && forall x :: Told(a.rows, b.rows, x, node, result)
    ensures Clear(b, node) ==> result.failed == []
  {
    hide TableOk, RowsOk, RoutesOk, ContainersOk, Mirrored, Current;
    if result.failed != [] {
      var app := result.failed[0].app;
      assert FailedIn(result, app) && Told(a.rows, b.rows, app, node, result);
      assert !AppClear(b.rows, app, node);
      CurrentIsAt(b.rows, app);
      var cur := Current(b.rows, app).value;
      var k :| 0 <= k < |cur.replicas| && cur.replicas[k].node == node;
      assert b.rows[cur.id - 1].replicas[k].node == node;
    }
  }

  /**
    `EvacuateNode`.  It reports no failure exactly if no scheduled app is left on the node, pinned apps never move,
    and of every app the result says truly whether it was skipped, moved, or could not be moved in full.
  */
  method EvacuateNode(r: Reconciler, node: string, views: nat -> nat -> View)
    returns (result: EvacuateResult, ghost ws: seq<World>, ghost es: seq<Event>)
    requires r.Valid() && forall i: nat, k: nat :: WellFormed(views(i)(k))
    modifies r, r.fleet, r.router, r.store`rows
    ensures r.Valid() && Reaches(old(r.State()), r.State(), r.owner, ws, es)
    ensures result.failed == [] <==> Clear(r.State(), node)
    ensures forall a :: Told(old(r.State()).rows, r.State().rows, a, node, result)
    ensures forall a :: Current(old(r.State()).rows, a).Some? && !Current(old(r.State()).rows, a).value.scheduled ==>
      Current(r.State().rows, a) == Current(old(r.State()).rows, a)
    ensures Performs(Evacuating(node, result.failed == [], views), ws, es)
    ensures r.fleet.reliable ==> r.State().leaks == old(r.State()).leaks
  {
    hide Inv, Emptying, Reaches, Leads, PlacedBy, OfferedIn, OfferedToAny, AppClear, Current, Clear, Tallied, HandledAs,
      Told;
    ghost var w := r.State();
    result, ws, es := EvacuateResult([], [], []), [w], [];
    var apps := r.store.ListApps();
    Store.AppsOfLists(w.rows);
    EvacuatingStarts(w, r.owner, node, views);
    TallyStarts(w.rows, apps, node);
    for n := 0 to |apps|
      invariant r.Valid() && (r.fleet.reliable ==> r.State().leaks == w.leaks)
      invariant Emptying(w, r.State(), r.owner, ws, es, apps, n, node, result.failed == [], views)
      invariant Tallied(w.rows, r.State().rows, apps, n, node, result)
    {
      ghost var s := r.State();
      var verdict;
      ghost var more, then_;
      verdict, more, then_ := EvacuateApp(r, apps[n], node, views(n));
      EvacuatingOn(w, s, r.State(), r.owner, ws, es, more, then_, apps, n, node, result.failed == [], views,
        verdict.Tried? ==> verdict.failures == []);
      OnlyOneMoved(w, s, r.State(), r.owner, ws, es, more, then_, apps, n, node, result.failed == [], views);
      TalliedOn(w.rows, s.rows, r.State().rows, apps, n, node, result, verdict);
      ws, es := ws + more[1..], es + then_;
      result := Noted(result, apps[n], verdict);
    }
    EvacuatingFacts(w, r.State(), r.owner, ws, es, apps, node, result.failed == [], views);
    TalliedAll(w.rows, r.State().rows, apps, node, result);
    CleanIsClear(w, r.State(), r.owner, node, result);
    if result.failed == [] {
      AllClear(w, r.State(), r.owner, ws, es, apps, node, views);
    }
  }

  lemma TallyStarts(rows: seq<Deployment>, apps: seq<string>, node: string)
    ensures Tallied(rows, rows, apps, 0, node, EvacuateResult([], [], []))
  {
  }

  lemma OnlyOneMoved(w: World, s: World, u: World, owner: string -> string, ws: seq<World>, es: seq<Event>,
      more: seq<World>, then_: seq<Event>, apps: seq<string>, n: nat, node: string, clean: bool,
      views: nat -> nat -> View)
    requires Emptying(w, s, owner, ws, es, apps, n, node, clean, views) && n < |apps|
    requires Inv(s, owner) && Leads(s, u, owner, more, then_, apps[n])
    ensures Current(s.rows, apps[n]) == Current(w.rows, apps[n])
    ensures forall x | x != apps[n] :: Current(u.rows, x) == Current(s.rows, x)
  {
    hide Inv, Current, Leads, Reaches, Shifts, AppClear;
    forall x | x != apps[n] ensures Current(u.rows, x) == Current(s.rows, x) {
      OthersKeepCurrent(s, u, owner, more, then_, apps[n], x);
    }
  }

  lemma EvacuatingFacts(w: World, s: World, owner: string -> string, ws: seq<World>, es: seq<Event>,
      apps: seq<string>, node: string, clean: bool, views: nat -> nat -> View)
    requires Emptying(w, s, owner, ws, es, apps, |apps|, node, clean, views)
    ensures Reaches(w, s, owner, ws, es)
    ensures forall a :: Current(w.rows, a).Some? && !Current(w.rows, a).value.scheduled ==>
      Current(s.rows, a) == Current(w.rows, a)
    ensures |ws| == |es| + 1 && ws[|es|] == s && forall i | 0 <= i < |s.rows| :: s.rows[i].app in apps
    ensures forall i | 0 <= i < |es| :: Shifts(ws[i], es[i], m => OfferedToAny(views, m))
  {
    hide Current, Shifts, Step;
  }

  // ---------------------------------------------------------------- drain

  datatype DrainError = LocalNode | UnknownNode

  /** `handleNodeDrain`: cordon first, then evacuate. */
  method DrainNode(r: Reconciler, node: string, views: nat -> nat -> View)
    returns (res: Result<EvacuateResult, DrainError>, ghost ws: seq<World>, ghost es: seq<Event>)
    requires r.Valid() && forall i: nat, k: nat :: WellFormed(views(i)(k))
    modifies r, r.fleet, r.router, r.store
    ensures r.Valid() && Reaches(old(r.State()), r.State(), r.owner, ws, es)
    ensures res.Err? <==> node == "local" || node !in old(r.store.nodes)
    ensures r.store.nodes == if res.Ok? then Store.Cordon(old(r.store.nodes), node, false) else old(r.store.nodes)
    ensures res.Ok? ==> Cordoned(r.store.nodes, node) && (res.value.failed == [] <==> Clear(r.State(), node))
    ensures res.Ok? ==> forall a :: Told(old(r.State()).rows, r.State().rows, a, node, res.value)
    ensures res.Err? ==> r.State() == old(r.State())
    ensures res.Ok? ==> Performs(Evacuating(node, res.value.failed == [], views), ws, es)
  {
    hide Inv, Step, Clear, OfferedToAny, PlacedBy;
    if node == "local" || node !in r.store.nodes {
      ws, es := [r.State()], [];
      return Err(if node == "local" then LocalNode else UnknownNode), ws, es;
    }
    r.store.SetSchedulable(node, false);
    var result;
    result, ws, es := EvacuateNode(r, node, views);
    res := Ok(result);
  }
}
