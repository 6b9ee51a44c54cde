/**
  A heal looks at the replicas without the lock and acts under it, by index (internal/reconciler/reconcile.go:252-345).
  Here is what the container it takes down then has to do with the one it saw dead.
*/
module Observed {
  import opened Prelude
  import opened Schedule
  import opened Model
  import opened Transitions
  import opened Runs
  import opened Safety
  import opened Names

  /** `e` put a fresh container in the place of replica `j` of `app`. */
  ghost predicate Replaces(e: Event, app: string, j: nat) {
    e.Update? && e.cur.app == app && j in e.idxs
  }

  /** While a row stays current, an entry of it is what it was, or fresh if the step replaced it. */
  lemma EntryStep(w: World, v: World, owner: string -> string, e: Event, app: string, j: nat)
    requires Inv(w, owner) && Step(w, v, owner, e) && Current(w.rows, app).Some? && Current(v.rows, app).Some?
    requires Current(v.rows, app).value.id == Current(w.rows, app).value.id && j < |Current(w.rows, app).value.replicas|
    ensures var cur, next := Current(w.rows, app).value, Current(v.rows, app).value;
      && |next.replicas| == |cur.replicas|
      && if Replaces(e, app, j) then next.replicas[j].cid >= w.nextCid else next.replicas[j] == cur.replicas[j]
  {
    hide RowsOk, RoutesOk, ContainersOk, Mirrored, Admissible, Flipped, Pinned, StartedFor, Superseded, LatestAt,
      SameBut, KeepsPin, NextId, NameOf, Patch, Tempo, Left, WithReplicas;
    CurrentIsAt(w.rows, app);
    match e
    case Deploy(a, scheduled, origin, cs) =>
      DeployedCurrent(w, v, a, scheduled, origin, cs, app);
      NextIsNew(w.rows);
    case Update(cur, idxs, cs, _) =>
      PatchedCurrent(w, v, cur, idxs, cs, app);
      if cur.app == app { PatchedEntry(cur.replicas, idxs, w.nextCid, cs, cur.spec.value.port, j); }
    case Refuse(name, lost, noted, _, _) => RefusedKeepsCurrent(w.rows, noted, app);
    case Remove(name, dropped) => SupersededCurrent(w.rows, name, app);
    case _ =>
  }

  lemma NextIsNew(rows: seq<Deployment>)
    requires TableOk(rows)
    ensures forall i | 0 <= i < |rows| :: rows[i].id < NextId(rows)
  {
    MaxIdIsLength(rows);
  }

  lemma PatchedEntry(replicas: seq<Replica>, idxs: seq<nat>, first: nat, cs: seq<Container>, port: int, j: nat)
    requires |idxs| == |cs| && Increasing(idxs) && (forall k | 0 <= k < |idxs| :: idxs[k] < |replicas|)
    requires j < |replicas|
    ensures var merged := Patch(replicas, idxs, Replicas(first, cs, port));
      if j in idxs then merged[j].cid >= first else merged[j] == replicas[j]
  {
    hide Patch, ReplicaOf;
    PatchEntries(replicas, idxs, Replicas(first, cs, port));
  }

  /** Some event from `i` on, before `k`, replaced replica `j`. */
  ghost predicate ReplacedSince(es: seq<Event>, i: nat, k: nat, app: string, j: nat) {
    exists m :: i <= m < k <= |es| && Replaces(es[m], app, j)
  }

  lemma {:induction false} EntryStands(ws: seq<World>, es: seq<Event>, owner: string -> string, i: nat, k: nat,
      app: string,
      j: nat)
    requires Run(ws, es, owner) && Inv(ws[0], owner) && i <= k < |ws| && Current(ws[i].rows, app).Some?
    requires !Stale(ws[k], app, Current(ws[i].rows, app).value.id) && j < |Current(ws[i].rows, app).value.replicas|
    ensures var seen, now := Current(ws[i].rows, app).value, Current(ws[k].rows, app).value;
      && |now.replicas| == |seen.replicas|
      && if ReplacedSince(es, i, k, app, j) then now.replicas[j].cid >= ws[i].nextCid
         else now.replicas[j] == seen.replicas[j]
    decreases k
  {
    hide Step, Inv, LatestAt, Replaces;
    if i < k {
      var seen, e := Current(ws[i].rows, app).value, es[k - 1];
      RunKeepsInv(ws, es, owner, i);
      RunKeepsInv(ws, es, owner, k - 1);
      RowsGrow(ws, es, owner, i, k - 1);
      IdsGrow(ws, es, owner, i, k - 1);
      SeenIsAt(ws[i], owner, app);
      if Stale(ws[k - 1], app, seen.id) { StaysStale(ws[k - 1], ws[k], owner, e, app, seen.id); }
      EntryStands(ws, es, owner, i, k - 1, app, j);
      EntryStep(ws[k - 1], ws[k], owner, e, app, j);
      assert ReplacedSince(es, i, k, app, j) <==> ReplacedSince(es, i, k - 1, app, j) || Replaces(e, app, j);
    }
  }

  lemma SeenIsAt(w: World, owner: string -> string, app: string)
    requires Inv(w, owner) && Current(w.rows, app).Some?
    ensures var cur := Current(w.rows, app).value;
      1 <= cur.id <= |w.rows| && forall j | 0 <= j < |cur.replicas| :: cur.replicas[j].cid < w.nextCid
  {
    hide RoutesOk, ContainersOk, ValidSpec, LiveRow;
    CurrentIsLive(w, owner, app);
  }

  /**
    The row seen at `i` is still current at the lock at `k`, so a heal acts on it: at index `j` it takes down the
    very container it saw if and only if no heal or move has replaced that replica in between.
  */
  lemma HealTakesTheSeenIff(ws: seq<World>, es: seq<Event>, owner: string -> string, i: nat, k: nat, app: string,
      j: nat)
    requires Run(ws, es, owner) && Inv(ws[0], owner) && i <= k < |ws| && Current(ws[i].rows, app).Some?
    requires !Stale(ws[k], app, Current(ws[i].rows, app).value.id) && j < |Current(ws[i].rows, app).value.replicas|
    ensures var seen, now := Current(ws[i].rows, app).value, Current(ws[k].rows, app).value;
      && |now.replicas| == |seen.replicas|
      && (now.replicas[j].cid == seen.replicas[j].cid <==> !ReplacedSince(es, i, k, app, j))
      && (now.replicas[j].cid == seen.replicas[j].cid ==> now.replicas[j] == seen.replicas[j])
  {
    hide Step, Inv, LatestAt, ReplacedSince, Stale;
    RunKeepsInv(ws, es, owner, i);
    SeenIsAt(ws[i], owner, app);
    EntryStands(ws, es, owner, i, k, app, j);
  }

  /**
    It can come to that from any state: a replica is healed or moved between observation and lock, the observed
    row is still current, and the container in the place of the one seen dead is a fresh one that runs.
  */
  lemma HealCanTakeTheLive(w: World, owner: string -> string, app: string, j: nat) returns (v: World, e: Event)
    requires Inv(w, owner) && Current(w.rows, app).Some? && j < |Current(w.rows, app).value.replicas|
    ensures Step(w, v, owner, e) && !Stale(v, app, Current(w.rows, app).value.id)
    ensures j < |Current(v.rows, app).value.replicas|
    ensures var seen, now := Current(w.rows, app).value.replicas[j], Current(v.rows, app).value.replicas[j];
      now.cid != seen.cid && now.cid in v.containers
  {
    hide Inv, Step, Current, Stale;
    v, e := CanHeal(w, owner, app, j);
    UpdateKeepsId(w, v, owner, e);
    EntryStep(w, v, owner, e, app, j);
    SeenIsAt(w, owner, app);
  }

  lemma UpdateKeepsId(w: World, v: World, owner: string -> string, e: Event)
    requires Inv(w, owner) && Step(w, v, owner, e) && e.Update?
    ensures Current(w.rows, e.cur.app) == Some(e.cur)
    ensures Current(v.rows, e.cur.app).Some? && Current(v.rows, e.cur.app).value.id == e.cur.id
    ensures !Stale(v, e.cur.app, e.cur.id)
  {
    hide RowsOk, RoutesOk, ContainersOk, Mirrored, KeepsPin, Flipped, NameOf, Patch, Tempo, WithReplicas, LatestAt;
    PatchedCurrent(w, v, e.cur, e.idxs, e.cs, e.cur.app);
  }
}
