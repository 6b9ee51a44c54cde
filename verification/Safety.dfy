/**
  Safety over whole runs: apps are isolated from each other, nothing is orphaned, pins never move, a
  superseded generation never comes back, and rollback alternates.
*/
module Safety {
  import opened Prelude
  import opened Schedule
  import opened Model
  import opened Transitions
  import opened Runs
  import opened Backoff

  // ---------------------------------------------------------------- isolation

  /** Everything app `b` has is the same in both states: rows, routes, containers, heal bookkeeping. */
  ghost predicate Untouched(w: World, v: World, b: string, owner: string -> string) {
    && |w.rows| <= |v.rows|
    && (forall i | 0 <= i < |w.rows| && (w.rows[i].app == b || v.rows[i].app == b) :: v.rows[i] == w.rows[i])
    && (forall i | |w.rows| <= i < |v.rows| :: v.rows[i].app != b)
    && OutsideUntouched(w, v, b, owner)
    && (b in v.heal <==> b in w.heal) && (b in w.heal ==> v.heal[b] == w.heal[b])
  }

  lemma SameButAt<V>(a: map<string, V>, b: map<string, V>, key: string, k: string)
    requires SameBut(a, b, key) && k != key
    ensures (k in a <==> k in b) && (k in a ==> b[k] == a[k])
  {
    assert k in a <==> k in a - {key};
    assert k in b <==> k in b - {key};
    if k in a { assert (a - {key})[k] == a[k] && (b - {key})[k] == b[k]; }
  }

  /** A flip on a domain of `app` leaves the routes and containers of every other app alone. */
  lemma FlipLeavesOthers(w: World, v: World, owner: string -> string, domain: string, replicas: seq<Replica>,
      cs: seq<Container>, former: set<nat>, app: string, b: string)
    requires RoutesOk(w, owner) && ContainersOk(w) && OwnFlip(w, v, app, domain, replicas, cs, former)
    requires owner(domain) == app && b != app
    ensures OutsideUntouched(w, v, b, owner)
  {
    hide Claimed, RouteTo, OwnEntry;
  }

  /** The part of `Untouched` that is not about the table. */
  ghost predicate OutsideUntouched(w: World, v: World, b: string, owner: string -> string) {
    && (forall d | owner(d) == b :: (d in v.routes <==> d in w.routes) &&
          (d in w.routes ==> v.routes[d] == w.routes[d]))
    && (forall id | id in w.containers && w.containers[id].app == b ::
          id in v.containers && v.containers[id] == w.containers[id])
    && (forall id | id in v.containers && v.containers[id].app == b ::
          id in w.containers && w.containers[id] == v.containers[id])
  }

  lemma DeployLeavesOthers(w: World, v: World, owner: string -> string, app: App, scheduled: bool, origin: string,
      cs: seq<Container>, b: string)
    requires Inv(w, owner) && Deployed(w, v, app, scheduled, origin, cs) && owner(app.domain) == app.name
    requires b != app.name
    ensures OutsideUntouched(w, v, b, owner) && SameBut(w.heal, v.heal, app.name)
  {
    DeployedIsOwnFlip(w, v, owner, app, scheduled, origin, cs);
    hide TableOk, RowsOk, CurrentCids, OwnFlip, RoutesOk, ContainersOk, Superseded, RowFor, StartedFor, Flipped;
    FlipLeavesOthers(w, v, owner, app.domain, Replicas(w.nextCid, cs, app.port), cs, CurrentCids(w.rows, app.name),
      app.name, b);
  }

  lemma UpdateLeavesOthers(w: World, v: World, owner: string -> string, cur: Deployment, idxs: seq<nat>,
      cs: seq<Container>, b: string)
    requires Inv(w, owner) && Current(w.rows, cur.app) == Some(cur) && Patched(w, v, cur, idxs, cs) && b != cur.app
    ensures OutsideUntouched(w, v, b, owner)
  {
    PatchedIsOwnFlip(w, v, owner, cur, idxs, cs);
    CurrentIsLive(w, owner, cur.app);
    hide TableOk, RowsOk, OwnFlip, RoutesOk, ContainersOk, Flipped, Patch, Current, ValidSpec, LiveRow;
    FlipLeavesOthers(w, v, owner, cur.spec.value.domain, Patch(cur.replicas, idxs,
      Replicas(w.nextCid, cs, cur.spec.value.port)), cs, CidsAt(cur.replicas, idxs), cur.app, b);
  }

  lemma RemoveLeavesOthers(w: World, v: World, owner: string -> string, name: string, dropped: bool, b: string)
    requires Inv(w, owner) && Removed(w, v, name, dropped) && b != name
    ensures OutsideUntouched(w, v, b, owner)
  {
    if dropped { CurrentIsLive(w, owner, name); }
    hide TableOk, RowsOk, RoutesOk, ContainersOk, CurrentCids, Superseded, LatestAt, ValidSpec, LiveRow;
  }

  lemma OutsideKept(w: World, v: World, owner: string -> string, e: Event, b: string)
    requires Inv(w, owner) && Step(w, v, owner, e) && b != Subject(e)
    ensures OutsideUntouched(w, v, b, owner)
  {
    hide TableOk, RowsOk, RoutesOk, Deployed, Pinned, Patched, KeepsPin, Current, SameBut, ValidSpec, Removed, Claimed,
      LatestAt;
    match e
    case Deploy(app, scheduled, origin, cs) => DeployLeavesOthers(w, v, owner, app, scheduled, origin, cs, b);
    case Update(cur, idxs, cs, _) => UpdateLeavesOthers(w, v, owner, cur, idxs, cs, b);
    case Remove(name, dropped) => RemoveLeavesOthers(w, v, owner, name, dropped, b);
    case _ =>
  }

  lemma HealKept(w: World, v: World, owner: string -> string, e: Event, b: string)
    requires Step(w, v, owner, e) && b != Subject(e)
    ensures (b in v.heal <==> b in w.heal) && (b in w.heal ==> v.heal[b] == w.heal[b])
  {
    hide Admissible, Flipped, StartedFor, Superseded, Pinned, KeepsPin, LatestAt;
    assert SameBut(w.heal, v.heal, Subject(e));
    SameButAt(w.heal, v.heal, Subject(e), b);
  }

  /** No operation touches another app, however it ends. */
  lemma OthersUntouched(w: World, v: World, owner: string -> string, e: Event, b: string)
    requires Inv(w, owner) && Step(w, v, owner, e) && b != Subject(e)
    ensures Untouched(w, v, b, owner)
  {
    hide Inv, Step, OutsideUntouched;
    StepEvolves(w, v, owner, e);
    OutsideKept(w, v, owner, e, b);
    HealKept(w, v, owner, e, b);
  }

  lemma {:induction false} RunLeavesOthersUntouched(ws: seq<World>, es: seq<Event>, owner: string -> string, b: string,
      n: nat)
    requires Run(ws, es, owner) && Inv(ws[0], owner) && n < |ws|
    requires forall i | 0 <= i < n :: Subject(es[i]) != b
    ensures Untouched(ws[0], ws[n], b, owner)
  {
    hide Inv, Step;
    if n > 0 {
      RunLeavesOthersUntouched(ws, es, owner, b, n - 1);
      RunKeepsInv(ws, es, owner, n - 1);
      OthersUntouched(ws[n - 1], ws[n], owner, es[n - 1], b);
      UntouchedTwice(ws[0], ws[n - 1], ws[n], b, owner);
    }
  }

  lemma UntouchedTwice(w: World, v: World, u: World, b: string, owner: string -> string)
    requires Untouched(w, v, b, owner) && Untouched(v, u, b, owner)
    ensures Untouched(w, u, b, owner)
  {
  }

  /** A deploy that fails leaves its own app running as it was: same row, same route, every container of it. */
  lemma FailureLeavesRunning(w: World, v: World, app: string, noted: seq<Deployment>)
    requires ContainersOk(w) && Refused(w, v, app, {}, noted)
    ensures Current(v.rows, app) == Current(w.rows, app) && Previous(v.rows, app) == Previous(w.rows, app)
    ensures v.routes == w.routes && v.serving == w.serving
    ensures forall id | id in w.containers :: id in v.containers && v.containers[id] == w.containers[id]
    ensures v.leaks == w.leaks ==> v.containers == w.containers
  {
    hide LatestAt;
    RefusedKeepsCurrent(w.rows, noted, app);
    if v.leaks == w.leaks {
      forall id | id in v.containers ensures id in w.containers {
        assert id !in w.containers ==> id in v.leaks;
      }
    }
  }

  // ---------------------------------------------------------------- no orphans

  /** While every clean-up succeeds, a container runs only if the running row of its app names it. */
  lemma NoOrphans(ws: seq<World>, es: seq<Event>, owner: string -> string, n: nat)
    requires Run(ws, es, owner) && Init(ws[0]) && n < |ws|
    requires forall i | 0 <= i < n :: ws[i + 1].leaks == ws[i].leaks
    ensures forall id | id in ws[n].containers :: id in CurrentCids(ws[n].rows, ws[n].containers[id].app)
  {
    hide Step, CurrentCids, Inv;
    InitIsInv(ws[0], owner);
    RunKeepsInv(ws, es, owner, n);
    LeaksStayEmpty(ws, n);
    NoLeaksNoOrphans(ws[n], owner);
  }

  lemma {:induction false} LeaksStayEmpty(ws: seq<World>, n: nat)
    requires n < |ws| && ws[0].leaks == {} && forall i | 0 <= i < n :: ws[i + 1].leaks == ws[i].leaks
    ensures ws[n].leaks == {}
  {
    if n > 0 { LeaksStayEmpty(ws, n - 1); }
  }

  lemma NoLeaksNoOrphans(w: World, owner: string -> string)
    requires Inv(w, owner) && w.leaks == {}
    ensures forall id | id in w.containers :: id in CurrentCids(w.rows, w.containers[id].app)
  {
    hide CurrentCids, RowsOk, RoutesOk, TableOk;
    forall id | id in w.containers ensures id in CurrentCids(w.rows, w.containers[id].app) {
      assert Claimed(w, id);
    }
  }

  // ---------------------------------------------------------------- pins

  /**
    Provenance is told truly in every reachable state, and a pin is where the user put it: a row that is
    or was live is scheduled exactly when its lineage's spec named no node, and otherwise all of its
    replicas are on the node that spec named.
  */
  lemma PinsNeverMove(ws: seq<World>, es: seq<Event>, owner: string -> string, i: nat, j: nat)
    requires Run(ws, es, owner) && Init(ws[0]) && i < |ws| && j < |ws[i].rows| && ws[i].rows[j].status != Failed
    ensures var w := ws[i]; var row := w.rows[j];
      && row.id in w.origin && row.spec.Some?
      && (row.scheduled <==> w.origin[row.id] == "")
      && (!row.scheduled ==>
            && row.spec.value.node == w.origin[row.id]
            && forall k | 0 <= k < |row.replicas| :: row.replicas[k].node == w.origin[row.id])
  {
    InitIsInv(ws[0], owner);
    RunKeepsInv(ws, es, owner, i);
    hide ValidSpec, Run, LiveRow, RoutesOk, ContainersOk;
    assert GoodRow(ws[i], owner, ws[i].rows[j]);
  }

  // ---------------------------------------------------------------- superseded generations

  /** The row numbered `id` is not the running one of `app`, so a heal that observed it will not act. */
  predicate Stale(w: World, app: string, id: nat) {
    Current(w.rows, app).None? || Current(w.rows, app).value.id != id
  }

  lemma SupersededBy(w: World, v: World, owner: string -> string, e: Event, id: nat)
    requires Inv(w, owner) && Step(w, v, owner, e) && (e.Deploy? || e.Remove?) && id <= |w.rows|
    ensures Stale(v, Subject(e), id)
  {
    hide RowsOk, RoutesOk, ContainersOk, Admissible, Flipped, Pinned, Superseded, StartedFor;
    if e.Deploy? {
      MaxIdIsLength(w.rows);
      DeployedCurrent(w, v, e.app, e.scheduled, e.origin, e.cs, e.app.name);
    } else {
      SupersededCurrent(w.rows, e.name, e.name);
    }
  }

  /** A row that runs after a step and is not new ran before it. */
  lemma RunsOn(a: seq<Deployment>, b: seq<Deployment>, name: string, app: string)
    requires TableOk(a) && TableOk(b) && Evolves(a, b, name)
    requires Current(b, app).Some? && Current(b, app).value.id <= |a|
    ensures Current(a, app).Some? && Current(a, app).value.id == Current(b, app).value.id
  {
    hide LatestAt;
    CurrentIsAt(b, app);
    LatestAtIs(a, app, Running, Current(b, app).value.id - 1);
  }

  lemma StaysStale(w: World, v: World, owner: string -> string, e: Event, app: string, id: nat)
    requires Inv(w, owner) && Step(w, v, owner, e) && 1 <= id <= |w.rows| && Stale(w, app, id)
    ensures 1 <= id <= |v.rows| && Stale(v, app, id)
  {
    hide RowsOk, RoutesOk, ContainersOk, Step, LatestAt;
    StepEvolves(w, v, owner, e);
    StepKeepsInv(w, v, owner, e);
    if Current(v.rows, app).Some? && Current(v.rows, app).value.id <= |w.rows| {
      RunsOn(w.rows, v.rows, Subject(e), app);
    }
  }

  /**
    A generation that a Deploy (Apply, Rollback, Scale, single-replica evacuation) or a Remove superseded
    anywhere between the lock-free observation at `i` and the lock at `k` is stale at `k`.
  */
  lemma {:induction false} StaleHealNeverActs(ws: seq<World>, es: seq<Event>, owner: string -> string, i: nat, m: nat,
      k: nat, app: string)
    requires Run(ws, es, owner) && Inv(ws[0], owner) && i <= m < k < |ws|
    requires Current(ws[i].rows, app).Some?
    requires (es[m].Deploy? || es[m].Remove?) && Subject(es[m]) == app
    ensures 1 <= Current(ws[i].rows, app).value.id <= |ws[k].rows|
    ensures Stale(ws[k], app, Current(ws[i].rows, app).value.id)
    decreases k
  {
    hide Step, Stale, Current, RowsOk, RoutesOk, ContainersOk;
    RunKeepsInv(ws, es, owner, i);
    RunKeepsInv(ws, es, owner, k - 1);
    CurrentIsAt(ws[i].rows, app);
    if m == k - 1 {
      RowsGrow(ws, es, owner, i, k - 1);
      SupersededBy(ws[m], ws[k], owner, es[m], Current(ws[i].rows, app).value.id);
      StepEvolves(ws[m], ws[k], owner, es[m]);
    } else {
      StaleHealNeverActs(ws, es, owner, i, m, k - 1, app);
      StaysStale(ws[k - 1], ws[k], owner, es[k - 1], app, Current(ws[i].rows, app).value.id);
    }
  }

  lemma {:induction false} RowsGrow(ws: seq<World>, es: seq<Event>, owner: string -> string, i: nat, j: nat)
    requires Run(ws, es, owner) && Inv(ws[0], owner) && i <= j < |ws|
    ensures |ws[i].rows| <= |ws[j].rows|
  {
    hide Step, Inv;
    if i < j {
      RowsGrow(ws, es, owner, i, j - 1);
      RunKeepsInv(ws, es, owner, j - 1);
      StepEvolves(ws[j - 1], ws[j], owner, es[j - 1]);
    }
  }

  // ---------------------------------------------------------------- rollback

  /** What a rollback restores. */
  datatype Version = Version(image: string, spec: Option<App>, scheduled: bool)

  function VersionOf(d: Deployment): Version {
    Version(d.image, d.spec, d.scheduled)
  }

  /** `e` is a successful Rollback of its app. */
  ghost predicate RollsBack(w: World, e: Event) {
    e.Deploy? && Previous(w.rows, Subject(e)).Some? && Restores(w, Previous(w.rows, Subject(e)).value, e)
  }

  /** Whatever generation a deploy supersedes becomes the one that a rollback restores. */
  lemma DeployRetires(w: World, v: World, owner: string -> string, e: Event)
    requires Inv(w, owner) && Step(w, v, owner, e) && e.Deploy? && Current(w.rows, Subject(e)).Some?
    ensures Current(v.rows, Subject(e)).Some? && Previous(v.rows, Subject(e)).Some?
    ensures VersionOf(Current(v.rows, Subject(e)).value) == Version(e.app.image, Some(e.app), e.scheduled)
    ensures VersionOf(Previous(v.rows, Subject(e)).value) == VersionOf(Current(w.rows, Subject(e)).value)
  {
    hide RowsOk, RoutesOk, ContainersOk, Admissible, Flipped, Pinned, StartedFor, Superseded, LatestAt;
    DeployedCurrent(w, v, e.app, e.scheduled, e.origin, e.cs, e.app.name);
    SupersededRows(w.rows, e.app.name);
    CurrentIsAt(w.rows, e.app.name);
    LatestAtIs(v.rows, e.app.name, Retired, Current(w.rows, e.app.name).value.id - 1);
  }

  lemma RollbackSwaps(w: World, v: World, owner: string -> string, e: Event)
    requires Inv(w, owner) && Step(w, v, owner, e) && RollsBack(w, e) && Current(w.rows, Subject(e)).Some?
    ensures Current(v.rows, Subject(e)).Some? && Previous(v.rows, Subject(e)).Some?
    ensures VersionOf(Current(v.rows, Subject(e)).value) == VersionOf(Previous(w.rows, Subject(e)).value)
    ensures VersionOf(Previous(v.rows, Subject(e)).value) == VersionOf(Current(w.rows, Subject(e)).value)
  {
    hide Inv, Step, LatestAt;
    DeployRetires(w, v, owner, e);
  }

  /** No row of `app` changes status or version, and new ones are failed attempts. */
  ghost predicate SameGenerations(a: seq<Deployment>, b: seq<Deployment>, app: string) {
    && |a| <= |b|
    && (forall i | 0 <= i < |a| && (a[i].app == app || b[i].app == app) ::
          && b[i].app == a[i].app && b[i].status == a[i].status && VersionOf(b[i]) == VersionOf(a[i])
          && (a[i].status != Running ==> b[i] == a[i]))
    && (forall i | |a| <= i < |b| && b[i].app == app :: b[i].status == Failed)
  }

  /** Nothing but a Deploy or a Remove of `app` starts or ends a generation of it. */
  lemma GenerationsKept(w: World, v: World, owner: string -> string, e: Event, app: string)
    requires Inv(w, owner) && Step(w, v, owner, e) && (Subject(e) != app || !(e.Deploy? || e.Remove?))
    ensures SameGenerations(w.rows, v.rows, app)
  {
    hide Inv, Step;
    StepEvolves(w, v, owner, e);
    if Subject(e) == app { StatusKept(w, v, owner, e); }
  }

  lemma StatusKept(w: World, v: World, owner: string -> string, e: Event)
    requires Step(w, v, owner, e) && !e.Deploy? && !e.Remove?
    ensures |w.rows| <= |v.rows| && forall i | 0 <= i < |w.rows| :: v.rows[i].status == w.rows[i].status
  {
    hide Flipped, LatestAt, SameBut, Tempo, KeepsPin, NextId, NameOf, Mirrored;
  }

  lemma VersionsKept(a: seq<Deployment>, b: seq<Deployment>, app: string)
    requires SameGenerations(a, b, app) && Current(a, app).Some? && Previous(a, app).Some?
    ensures Current(b, app).Some? && VersionOf(Current(b, app).value) == VersionOf(Current(a, app).value)
    ensures Previous(b, app) == Previous(a, app)
  {
    hide LatestAt;
    LatestAtIs(b, app, Running, LatestAt(a, app, Running));
    LatestAtIs(b, app, Retired, LatestAt(a, app, Retired));
  }

  function Rollbacks(es: seq<Event>, app: string): nat {
    if es == [] then 0
    else Rollbacks(es[..|es| - 1], app) + (if es[|es| - 1].Deploy? && Subject(es[|es| - 1]) == app then 1 else 0)
  }

  /**
    Rollback alternates: however other apps' operations and this app's failures, heals and moved replicas fall
    between them, an even number of successful rollbacks gives the original version back, an odd number the
    previous one.  An Apply, a Scale, a single-replica evacuation or a Remove of the app starts the count anew.
  */
  lemma {:induction false} RollbackAlternates(ws: seq<World>, es: seq<Event>, owner: string -> string, app: string,
      n: nat)
    requires Run(ws, es, owner) && Inv(ws[0], owner) && n < |ws|
    requires Current(ws[0].rows, app).Some? && Previous(ws[0].rows, app).Some?
    requires forall i | 0 <= i < n && Subject(es[i]) == app ::
      !es[i].Remove? && (es[i].Deploy? ==> RollsBack(ws[i], es[i]))
    ensures Current(ws[n].rows, app).Some? && Previous(ws[n].rows, app).Some?
    ensures var a, b := VersionOf(Current(ws[0].rows, app).value), VersionOf(Previous(ws[0].rows, app).value);
      var even := Rollbacks(es[..n], app) % 2 == 0;
      && VersionOf(Current(ws[n].rows, app).value) == (if even then a else b)
      && VersionOf(Previous(ws[n].rows, app).value) == (if even then b else a)
  {
    hide Inv, Step, LatestAt, SameGenerations, VersionOf, Restores;
    if n > 0 {
      RollbackAlternates(ws, es, owner, app, n - 1);
      RunKeepsInv(ws, es, owner, n - 1);
      assert es[..n][..n - 1] == es[..n - 1];
      if es[n - 1].Deploy? && Subject(es[n - 1]) == app {
        RollbackSwaps(ws[n - 1], ws[n], owner, es[n - 1]);
      } else {
        GenerationsKept(ws[n - 1], ws[n], owner, es[n - 1], app);
        VersionsKept(ws[n - 1].rows, ws[n].rows, app);
      }
    }
  }

  /**
    One rollback takes back any deploy, an Apply, a Scale, an evacuation or a rollback: with no other deploy or
    removal of the app in between, it restores the version that the deploy superseded.
  */
  lemma RollbackTakesBack(ws: seq<World>, es: seq<Event>, owner: string -> string, app: string, m: nat, n: nat)
    requires Run(ws, es, owner) && Inv(ws[0], owner) && m < n < |es|
    requires es[m].Deploy? && Subject(es[m]) == app && Current(ws[m].rows, app).Some?
    requires RollsBack(ws[n], es[n]) && Subject(es[n]) == app
    requires forall i | m < i < n && Subject(es[i]) == app :: !es[i].Deploy? && !es[i].Remove?
    ensures Current(ws[n + 1].rows, app).Some?
    ensures VersionOf(Current(ws[n + 1].rows, app).value) == VersionOf(Current(ws[m].rows, app).value)
  {
    hide Inv, Step, LatestAt, VersionOf, Restores;
    RunKeepsInv(ws, es, owner, m);
    RunKeepsInv(ws, es, owner, n);
    DeployRetires(ws[m], ws[m + 1], owner, es[m]);
    StretchKeepsVersions(ws, es, owner, app, m + 1, n);
    RollbackSwaps(ws[n], ws[n + 1], owner, es[n]);
  }

  lemma {:induction false} StretchKeepsVersions(ws: seq<World>, es: seq<Event>, owner: string -> string, app: string,
      m: nat, n: nat)
    requires Run(ws, es, owner) && Inv(ws[0], owner) && m <= n < |ws|
    requires Current(ws[m].rows, app).Some? && Previous(ws[m].rows, app).Some?
    requires forall i | m <= i < n && Subject(es[i]) == app :: !es[i].Deploy? && !es[i].Remove?
    ensures Current(ws[n].rows, app).Some?
    ensures VersionOf(Current(ws[n].rows, app).value) == VersionOf(Current(ws[m].rows, app).value)
    ensures Previous(ws[n].rows, app) == Previous(ws[m].rows, app)
  {
    hide Inv, Step, LatestAt, VersionOf, SameGenerations;
    if m < n {
      StretchKeepsVersions(ws, es, owner, app, m, n - 1);
      RunKeepsInv(ws, es, owner, n - 1);
      GenerationsKept(ws[n - 1], ws[n], owner, es[n - 1], app);
      VersionsKept(ws[n - 1].rows, ws[n].rows, app);
    }
  }

  // ---------------------------------------------------------------- deploy numbers

  /** Only a recorded row uses up a deploy number; an in-place update takes one and gives it back. */
  lemma NumberUsedIffRecorded(w: World, v: World, owner: string -> string, e: Event)
    requires Inv(w, owner) && Step(w, v, owner, e)
    ensures NextId(v.rows) == NextId(w.rows) + (if e.Deploy? || (e.Refuse? && e.noted != []) then 1 else 0)
  {
    StepKeepsInv(w, v, owner, e);
    MaxIdIsLength(w.rows);
    MaxIdIsLength(v.rows);
    hide RowsOk, RoutesOk, ContainersOk, Admissible, Flipped, Pinned, StartedFor, LatestAt, SameBut, MaxId;
    if e.Update? {
      PatchedTable(w, v, e.cur, e.idxs, e.cs);
    }
  }

  // ---------------------------------------------------------------- the hypotheses can be met

  /** The fresh containers of a deploy of `app`, all on one node. */
  function FreshSet(app: App, deploy: nat, node: string): (cs: seq<Container>)
    ensures |cs| == Count(app)
    ensures forall k | 0 <= k < |cs| ::
      cs[k] == Container(node, app.name, app.image, NameOf(app.name, deploy, Count(app), k), "", 0)
  {
    seq(Count(app), k requires 0 <= k < Count(app) => Container(node, app.name, app.image,
      NameOf(app.name, deploy, Count(app), k),
      "", 0))
  }

  /** `m` with `cs` started under the ids from `first` on. */
  function Installed(m: map<nat, Container>, first: nat, cs: seq<Container>): map<nat, Container> {
    if cs == [] then m
    else Installed(m, first, cs[..|cs| - 1])[first + |cs| - 1 := cs[|cs| - 1]]
  }

  lemma {:induction false} InstalledIs(m: map<nat, Container>, first: nat, cs: seq<Container>)
    requires forall id | id in m :: id < first
    ensures var r := Installed(m, first, cs);
      && (forall id :: id in r <==> id in m || first <= id < first + |cs|)
      && (forall id | id in m :: r[id] == m[id])
      && (forall id | first <= id < first + |cs| :: r[id] == cs[id - first])
  {
    if cs != [] { InstalledIs(m, first, cs[..|cs| - 1]); }
  }

  /** The state a deploy that starts `cs` and cleans up completely ends in. */
  function AfterDeploy(w: World, app: App, scheduled: bool, origin: string, cs: seq<Container>): World
    requires cs != []
  {
    var id, replicas := NextId(w.rows), Replicas(w.nextCid, cs, app.port);
    w.(rows := Superseded(w.rows, app.name) + [RowFor(app, id, scheduled, replicas)],
       routes := w.routes[app.domain := RouteTo(app.domain, replicas)],
       serving := w.serving[app.domain := replicas],
       caddy := w.routes[app.domain := RouteTo(app.domain, replicas)],
       ahead := None,
       containers := Installed(w.containers - CurrentCids(w.rows, app.name), w.nextCid, cs),
       nextCid := w.nextCid + |cs|,
       healthy := w.healthy + Installed(map[], w.nextCid, cs).Keys,
       heal := w.heal - {app.name},
       origin := w.origin[id := origin])
  }

  lemma InstalledOver(m: map<nat, Container>, former: set<nat>, first: nat, cs: seq<Container>, r: map<nat, Container>)
    requires (forall id | id in m :: id < first) && r == Installed(m - former, first, cs)
    ensures forall id :: id in r <==> (id in m && id !in former) || first <= id < first + |cs|
    ensures forall id | id in m && id !in former :: r[id] == m[id]
    ensures forall id | first <= id < first + |cs| :: r[id] == cs[id - first]
  {
    var kept := m - former;
    assert forall id :: id in kept <==> id in m && id !in former;
    InstalledIs(kept, first, cs);
    hide Installed;
  }

  lemma InstalledSwaps(w: World, v: World, cs: seq<Container>, former: set<nat>)
    requires (forall id | id in w.containers :: id < w.nextCid) && v.nextCid == w.nextCid + |cs| && v.leaks == w.leaks
    requires v.containers == Installed(w.containers - former, w.nextCid, cs)
    requires w.healthy <= v.healthy && forall id | w.nextCid <= id < v.nextCid :: id in v.healthy
    requires forall id | id in v.healthy :: id in w.healthy || id < v.nextCid
    ensures Swapped(w, v, cs, former)
  {
    InstalledOver(w.containers, former, w.nextCid, cs, v.containers);
    CleanSwap(w, v, cs, former);
  }

  lemma CleanSwap(w: World, v: World, cs: seq<Container>, former: set<nat>)
    requires (forall id | id in w.containers :: id < w.nextCid) && v.nextCid == w.nextCid + |cs| && v.leaks == w.leaks
    requires forall id :: id in v.containers <==> (id in w.containers && id !in former) || w.nextCid <= id < v.nextCid
    requires forall id | id in w.containers && id !in former :: v.containers[id] == w.containers[id]
    requires forall id | w.nextCid <= id < v.nextCid :: v.containers[id] == cs[id - w.nextCid]
    requires w.healthy <= v.healthy && forall id | w.nextCid <= id < v.nextCid :: id in v.healthy
    requires forall id | id in v.healthy :: id in w.healthy || id < v.nextCid
    ensures Swapped(w, v, cs, former)
  {
  }

  lemma CidsAreOld(w: World, owner: string -> string)
    requires Inv(w, owner)
    ensures forall id | id in w.containers :: id < w.nextCid
  {
    hide RowsOk, LiveRow, RoutesOk, Claimed, ValidSpec;
  }

  lemma AfterDeploySwaps(w: World, owner: string -> string, app: App, scheduled: bool, origin: string,
      cs: seq<Container>)
    requires Inv(w, owner) && cs != []
    ensures Swapped(w, AfterDeploy(w, app, scheduled, origin, cs), cs, CurrentCids(w.rows, app.name))
  {
    hide Inv, CurrentCids, Superseded, NextId, Swapped, RouteTo, ReplicaOf, RowFor;
    CidsAreOld(w, owner);
    InstalledIs(map[], w.nextCid, cs);
    hide Installed;
    InstalledSwaps(w, AfterDeploy(w, app, scheduled, origin, cs), cs, CurrentCids(w.rows, app.name));
  }

  lemma AfterDeployIsDeployed(w: World, app: App, scheduled: bool, origin: string, cs: seq<Container>)
    requires StartedFor(app, NextId(w.rows), cs) && cs != []
    requires Swapped(w, AfterDeploy(w, app, scheduled, origin, cs), cs, CurrentCids(w.rows, app.name))
    ensures Deployed(w, AfterDeploy(w, app, scheduled, origin, cs), app, scheduled, origin, cs)
  {
    hide CurrentCids, Superseded, NextId, Swapped, RouteTo, ReplicaOf, RowFor, Installed, StartedFor;
  }

  lemma FreshIsStarted(app: App, scheduled: bool, origin: string, deploy: nat, owner: string -> string)
    requires Admissible(app, scheduled, origin, owner)
    ensures var cs := FreshSet(app, deploy, app.node); StartedFor(app, deploy, cs) && Pinned(app, scheduled, cs)
  {
    hide NameOf, ValidSpec;
  }

  /** Whatever has happened before, every admissible deploy can still succeed. */
  lemma CanDeploy(w: World, owner: string -> string, app: App, scheduled: bool, origin: string)
    requires Inv(w, owner) && Admissible(app, scheduled, origin, owner)
    ensures var e := Deploy(app, scheduled, origin, FreshSet(app, NextId(w.rows), app.node));
      Step(w, AfterDeploy(w, app, scheduled, origin, e.cs), owner, e)
  {
    hide Inv, Deployed, AfterDeploy, Admissible, Pinned, StartedFor, NextId, Swapped, CurrentCids;
    var cs := FreshSet(app, NextId(w.rows), app.node);
    FreshIsStarted(app, scheduled, origin, NextId(w.rows), owner);
    AfterDeploySwaps(w, owner, app, scheduled, origin, cs);
    AfterDeployIsDeployed(w, app, scheduled, origin, cs);
  }

  /** Every app with a retired row can be rolled back. */
  lemma CanRollBack(w: World, owner: string -> string, app: string)
    requires Inv(w, owner) && Previous(w.rows, app).Some?
    ensures exists v: World, e: Event :: Step(w, v, owner, e) && RollsBack(w, e) && Subject(e) == app
  {
    var prev := Previous(w.rows, app).value;
    PreviousIsGood(w, owner, app);
    CanDeploy(w, owner, prev.spec.value, prev.scheduled, w.origin[prev.id]);
    var e := Deploy(prev.spec.value, prev.scheduled, w.origin[prev.id],
      FreshSet(prev.spec.value, NextId(w.rows), prev.spec.value.node));
    hide Inv, Step, NextId, Previous, AfterDeploy;
    assert RollsBack(w, e) && Subject(e) == app;
  }

  lemma PreviousIsGood(w: World, owner: string -> string, app: string)
    requires Inv(w, owner) && Previous(w.rows, app).Some?
    ensures var prev := Previous(w.rows, app).value;
      && GoodRow(w, owner, prev) && prev.app == app
      && Admissible(prev.spec.value, prev.scheduled, w.origin[prev.id], owner)
  {
    hide RoutesOk, ContainersOk, ValidSpec;
    var j := LatestAt(w.rows, app, Retired);
    assert GoodRow(w, owner, w.rows[j]);
  }
}
