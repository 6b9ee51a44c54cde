/**
  A drained node stays clear: the registry's cordon bit (internal/store/store.go:766-827), the scheduler
  that honours it (internal/reconciler/schedule.go:140-218), and every operation that starts containers.
*/
module Drain {
  import opened Prelude
  import opened Schedule
  import opened Model
  import opened Transitions
  import opened Runs
  import Store

  // ---------------------------------------------------------------- the registry

  datatype RegistryOp = Add(row: NodeRow) | SetSchedulable(name: string, schedulable: bool) | Delete(name: string)

  function Registered(registry: map<string, NodeRow>, op: RegistryOp): map<string, NodeRow> {
    match op
    case Add(row) => Store.Upsert(registry, row)
    case SetSchedulable(name, schedulable) => Store.Cordon(registry, name, schedulable)
    case Delete(name) => registry - {name}
  }

  /** The scheduler will not be offered `node`: it is cordoned, or not registered at all. */
  predicate Cordoned(registry: map<string, NodeRow>, node: string) {
    node != "local" && (node in registry ==> !registry[node].schedulable)
  }

  /** The two ways a cordon ends: an uncordon, or registering the node anew after it was deleted. */
  predicate Lifts(registry: map<string, NodeRow>, op: RegistryOp, node: string) {
    match op
    case Add(row) => row.name == node && node !in registry
    case SetSchedulable(name, schedulable) => name == node && schedulable
    case Delete(_) => false
  }

  /** A cordon outlives every registry write, a re-add included, but those two. */
  lemma CordonEndsOnlyWhenLifted(registry: map<string, NodeRow>, op: RegistryOp, node: string)
    requires Cordoned(registry, node)
    ensures !Lifts(registry, op, node) ==> Cordoned(Registered(registry, op), node)
    ensures op.Add? && Lifts(registry, op, node) ==> !Cordoned(Registered(registry, op), node)
    ensures op.SetSchedulable? && node in registry && Lifts(registry, op, node) ==>
      !Cordoned(Registered(registry, op), node)
  {
  }

  /** What a placement call listed is what the registry held. */
  ghost predicate Reads(view: View, registry: map<string, NodeRow>) {
    forall l | l in view.registry :: l.row.name in registry && registry[l.row.name] == l.row
  }

  lemma CordonedIsNotOffered(view: View, registry: map<string, NodeRow>, node: string)
    requires Reads(view, registry) && Cordoned(registry, node)
    ensures !Offers(view, node)
  {
  }

  // ---------------------------------------------------------------- clear of a node

  /** No scheduled app is running a replica on `node`. */
  ghost predicate Clear(w: World, node: string) {
    forall i, k | 0 <= i < |w.rows| && w.rows[i].status == Running && w.rows[i].scheduled &&
      0 <= k < |w.rows[i].replicas| ::
      w.rows[i].replicas[k].node != node
  }

  /** Every node a scheduled deploy or a moving update started a container on was offered by `offered`. */
  ghost predicate PlacedBy(e: Event, offered: string -> bool) {
    match e
    case Deploy(_, scheduled, _, cs) => scheduled ==> forall c | c in cs :: offered(c.node)
    case Update(cur, idxs, cs, _) =>
      && |idxs| == |cs| && (forall k | 0 <= k < |idxs| :: idxs[k] < |cur.replicas|)
      && (InPlace(cur, idxs, cs) || forall c | c in cs :: offered(c.node))
    case _ => true
  }

  lemma StepKeepsClear(w: World, v: World, owner: string -> string, e: Event, node: string, offered: string -> bool)
    requires Inv(w, owner) && Step(w, v, owner, e) && Clear(w, node)
    requires PlacedBy(e, offered) && !offered(node)
    ensures Clear(v, node)
  {
    hide Flipped;
    match e
    case Deploy(app, scheduled, origin, cs) => DeployKeepsClear(w, v, app, scheduled, origin, cs, node);
    case Update(cur, idxs, cs, _) => UpdateKeepsClear(w, v, cur, idxs, cs, node);
    case Remove(name, dropped) => SupersededRows(w.rows, name);
    case _ =>
  }

  lemma DeployKeepsClear(w: World, v: World, app: App, scheduled: bool, origin: string, cs: seq<Container>,
      node: string)
    requires TableOk(w.rows) && Deployed(w, v, app, scheduled, origin, cs) && Clear(w, node)
    requires scheduled ==> forall c | c in cs :: c.node != node
    ensures Clear(v, node)
  {
    hide Flipped, StartedFor, Superseded, NextId;
    SupersededRows(w.rows, app.name);
    forall k | 0 <= k < |cs| ensures cs[k] in cs { }
  }

  /** A scheduled deploy on a cluster clear of `node` leaves it clear exactly when it puts no container there. */
  lemma DeployIsClearIff(w: World, v: World, owner: string -> string, e: Event, node: string)
    requires Inv(w, owner) && Step(w, v, owner, e) && e.Deploy? && e.scheduled && Clear(w, node)
    ensures Clear(v, node) <==> forall c | c in e.cs :: c.node != node
  {
    hide RowsOk, RoutesOk, ContainersOk, Flipped, Superseded, NextId, Admissible, Pinned;
    if forall c | c in e.cs :: c.node != node {
      DeployKeepsClear(w, v, e.app, e.scheduled, e.origin, e.cs, node);
    } else {
      var k :| 0 <= k < |e.cs| && e.cs[k].node == node;
      assert v.rows[|v.rows| - 1].replicas[k].node == node;
    }
  }

  lemma UpdateKeepsClear(w: World, v: World, cur: Deployment, idxs: seq<nat>, cs: seq<Container>, node: string)
    requires TableOk(w.rows) && Current(w.rows, cur.app) == Some(cur) && Patched(w, v, cur, idxs, cs) && Clear(w, node)
    requires InPlace(cur, idxs, cs) || forall c | c in cs :: c.node != node
    ensures Clear(v, node)
  {
    hide LatestAt, NextId, Flipped, WithReplicas;
    PatchedTable(w, v, cur, idxs, cs);
    CurrentIsAt(w.rows, cur.app);
    var news := Replicas(w.nextCid, cs, cur.spec.value.port);
    if cur.scheduled {
      forall j | 0 <= j < |cur.replicas| ensures Patch(cur.replicas, idxs, news)[j].node != node {
        assert w.rows[cur.id - 1].replicas[j].node != node;
        PatchCases(cur.replicas, idxs, news, j);
        if k :| 0 <= k < |idxs| && idxs[k] == j && Patch(cur.replicas, idxs, news)[j] == news[k] {
          assert cs[k] in cs;
        }
      }
    }
  }
}
