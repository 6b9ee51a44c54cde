/**
  Whole runs: any sequence of locked operations, by any app, with any failures.  Each method of the
  reconciler says which `Event` it was; the theorems here are about every run made of such events.
*/
module Runs {
  import opened Prelude
  import opened Schedule
  import opened Model
  import opened Transitions
  import opened Backoff

  /** What a failed operation had started: `cs`, for the indexes `idxs` of a set of `size`. */
  datatype Trial = Trial(size: nat, idxs: seq<nat>, cs: seq<Container>)

  const Untried := Trial(0, [], [])

  /** Each with the beat it is in the heal bookkeeping of its app. */
  datatype Event =
    | Deploy(app: App, scheduled: bool, origin: string, cs: seq<Container>)
    | Refuse(name: string, lost: set<nat>, noted: seq<Deployment>, tried: Trial := Untried, beat: Beat := Idle)
    | Update(cur: Deployment, idxs: seq<nat>, cs: seq<Container>, beat: Beat := Idle)
    | Remove(name: string, dropped: bool)
    | AbortRemove(name: string)
    | Note(name: string, beat: Beat)

  function Subject(e: Event): string {
    match e
    case Deploy(app, _, _, _) => app.name
    case Update(cur, _, _, _) => cur.app
    case Refuse(name, _, _, _, _) => name
    case Remove(name, _) => name
    case AbortRemove(name) => name
    case Note(name, _) => name
  }

  function BeatOf(e: Event): Beat {
    match e
    case Deploy(_, _, _, _) => Reset
    case Update(_, _, _, beat) => beat
    case Refuse(_, _, _, _, beat) => beat
    case Note(_, beat) => beat
    case _ => Idle
  }

  function WithBeat(e: Event, beat: Beat): Event {
    match e
    case Refuse(name, lost, noted, tried, _) => Refuse(name, lost, noted, tried, beat)
    case Update(cur, idxs, cs, _) => Update(cur, idxs, cs, beat)
    case _ => e
  }

  /** The heal bookkeeping moves by `beat`, for the app `name` alone. */
  ghost predicate Tempo(a: map<string, HealState>, b: map<string, HealState>, name: string, beat: Beat) {
    if beat.Idle? then b == a else SameBut(a, b, name) && BeatStep(Entry(a, name), Entry(b, name), beat)
  }

  /** The containers in `tried` were started under the names an operation gives them. */
  ghost predicate WellNamed(rows: seq<Deployment>, app: string, tried: Trial) {
    && |tried.idxs| == |tried.cs|
    && forall k | 0 <= k < |tried.cs| ::
         tried.idxs[k] < tried.size && tried.cs[k].name == NameOf(app, NextId(rows), tried.size, tried.idxs[k])
  }

  /** A failed operation started exactly what it `tried`, and that is all there is of it to be left over. */
  ghost predicate Left(w: World, v: World, app: string, tried: Trial) {
    && WellNamed(w.rows, app, tried) && v.nextCid == w.nextCid + |tried.cs|
    && forall id | id in v.containers && id !in w.containers ::
         w.nextCid <= id < v.nextCid && v.containers[id] == tried.cs[id - w.nextCid]
  }

  /** `Note` is heal bookkeeping; a refused operation may only have lost containers of its own app. */
  ghost predicate Step(w: World, v: World, owner: string -> string, e: Event) {
    match e
    case Deploy(app, scheduled, origin, cs) =>
      Admissible(app, scheduled, origin, owner) && Deployed(w, v, app, scheduled, origin, cs) &&
        Pinned(app, scheduled, cs)
    case Refuse(name, lost, noted, tried, beat) =>
      && Refused(w, v, name, lost, noted) && Left(w, v, name, tried) && Tempo(w.heal, v.heal, name, beat)
      && forall id | id in lost && id in w.containers :: w.containers[id].app == name
    case Update(cur, idxs, cs, beat) =>
      && Current(w.rows, cur.app) == Some(cur) && Patched(w, v, cur, idxs, cs) && KeepsPin(cur, idxs, cs)
      && Tempo(w.heal, v.heal, cur.app, beat)
    case Remove(name, dropped) => Removed(w, v, name, dropped)
    case AbortRemove(name) => RemoveAborted(w, v, name)
    case Note(name, beat) => v == w.(heal := v.heal) && Tempo(w.heal, v.heal, name, beat)
  }

  ghost predicate Run(ws: seq<World>, es: seq<Event>, owner: string -> string) {
    |ws| == |es| + 1 && forall i | 0 <= i < |es| :: Step(ws[i], ws[i + 1], owner, es[i])
  }

  // ---------------------------------------------------------------- safety over every run

  lemma StepKeepsInv(w: World, v: World, owner: string -> string, e: Event)
    requires Inv(w, owner) && Step(w, v, owner, e)
    ensures Inv(v, owner)
  {
    hide TableOk, RowsOk, RoutesOk, ContainersOk, Admissible, Deployed, Pinned, Refused, Patched, KeepsPin, Removed,
      RemoveAborted, Current, Tempo;
    match e
    case Deploy(app, scheduled, origin, cs) => DeployedKeepsInv(w, v, owner, app, scheduled, origin, cs);
    case Refuse(name, lost, noted, _, _) => RefusedKeepsInv(w, v, owner, name, lost, noted);
    case Update(cur, idxs, cs, _) => PatchedKeepsInv(w, v, owner, cur, idxs, cs);
    case Remove(name, dropped) => RemovedKeepsInv(w, v, owner, name, dropped);
    case AbortRemove(name) => RemoveAbortedKeepsInv(w, v, owner, name);
    case Note(name, _) => NoteKeepsInv(w, v, owner);
  }

  lemma NoteKeepsInv(w: World, v: World, owner: string -> string)
    requires Inv(w, owner) && v == w.(heal := v.heal)
    ensures Inv(v, owner)
  {
    hide TableOk, RowsOk, RoutesOk, ContainersOk, Begun;
    ContextKeepsInv(w, v, owner);
  }

  /** Neither heal bookkeeping nor a config sent again touches what the rest of the invariant is about. */
  lemma ContextKeepsInv(w: World, v: World, owner: string -> string)
    requires Inv(w, owner) && v == w.(heal := v.heal, caddy := v.caddy, ahead := v.ahead) && Mirrored(v)
    ensures Inv(v, owner)
  {
    hide ValidSpec, LatestAt, TableOk, CurrentCids;
    forall i | 0 <= i < |w.rows| && w.rows[i].status != Failed ensures GoodRow(v, owner, v.rows[i]) {
      assert GoodRow(w, owner, w.rows[i]);
    }
    forall i | 0 <= i < |w.rows| && w.rows[i].status == Running ensures LiveRow(v, v.rows[i]) {
      assert LiveRow(w, w.rows[i]);
      forall k | 0 <= k < |w.rows[i].replicas| ensures Lodged(v, w.rows[i].replicas[k], w.rows[i].spec.value) {
        assert Lodged(w, w.rows[i].replicas[k], w.rows[i].spec.value);
      }
    }
    forall d, k | d in v.serving && 0 <= k < |v.serving[d]| ensures OwnEntry(v, v.serving[d][k], owner(d)) {
      assert OwnEntry(w, w.serving[d][k], owner(d));
    }
    forall id | id in v.containers ensures id in v.leaks || Claimed(v, id) {
      assert id in w.leaks || Claimed(w, id);
    }
  }

  lemma {:induction false} RunKeepsInv(ws: seq<World>, es: seq<Event>, owner: string -> string, i: nat)
    requires Run(ws, es, owner) && Inv(ws[0], owner) && i < |ws|
    ensures Inv(ws[i], owner)
  {
    hide Inv, Step;
    if i > 0 {
      RunKeepsInv(ws, es, owner, i - 1);
      StepKeepsInv(ws[i - 1], ws[i], owner, es[i - 1]);
    }
  }

  lemma InitIsInv(w: World, owner: string -> string)
    requires Init(w)
    ensures Inv(w, owner)
  {
  }

  /**
    Rows and routes agree in every state of every run: an app has at most one running row, its id exceeds every
    retired id of the app, it has max(1, replicas) entries, and the committed route of its domain leads, in order,
    to each of them: every container of the row that still exists is addressed where it is and runs the row's
    image, and all have passed their health check.  Certificates are the internal ones just for names that are
    not public.
  */
  lemma RowsAndRoutesAgree(ws: seq<World>, es: seq<Event>, owner: string -> string, i: nat, j: nat)
    requires Run(ws, es, owner) && Init(ws[0]) && i < |ws| && j < |ws[i].rows| && ws[i].rows[j].status == Running
    ensures var w := ws[i]; var row := w.rows[j];
      && (forall k | 0 <= k < |w.rows| && k != j && w.rows[k].app == row.app ::
            w.rows[k].status != Running && (w.rows[k].status == Retired ==> w.rows[k].id < row.id))
      && row.spec.Some? && |row.replicas| == (if row.spec.value.replicas > 1 then row.spec.value.replicas else 1)
      && var domain := row.spec.value.domain;
      && domain in w.routes && w.routes[domain].domain == domain && |w.routes[domain].upstreams| == |row.replicas|
      && (w.routes[domain].tlsInternal <==>
            || domain == "" || domain == "localhost" || '.' !in domain
            || exists prefix :: domain == prefix + ".localhost")
      && forall k | 0 <= k < |row.replicas| ::
        && row.replicas[k].cid in w.healthy
        && (row.replicas[k].cid in w.containers ==>
              && Addresses(w.routes[domain].upstreams[k], w.containers[row.replicas[k].cid], row.spec.value.port)
              && w.containers[row.replicas[k].cid].node == row.replicas[k].node
              && w.containers[row.replicas[k].cid].app == row.app &&
                w.containers[row.replicas[k].cid].image == row.image)
  {
    InitIsInv(ws[0], owner);
    RunKeepsInv(ws, es, owner, i);
    RunningIsCurrent(ws[i], owner, j);
    CurrentEntriesAreOwn(ws[i], owner, ws[i].rows[j].app);
    hide LatestAt, ValidSpec, Run;
    var w, row := ws[i], ws[i].rows[j];
    assert GoodRow(w, owner, row) && LiveRow(w, row);
    InternalTLSIs(row.spec.value.domain);
    forall k | 0 <= k < |row.replicas| && row.replicas[k].cid in w.containers
      ensures Addresses(w.routes[row.spec.value.domain].upstreams[k], w.containers[row.replicas[k].cid],
        row.spec.value.port)
      ensures w.containers[row.replicas[k].cid].image == row.image
    {
      assert Lodged(w, row.replicas[k], row.spec.value);
      EntryAddresses(row.replicas[k].cid, w.containers[row.replicas[k].cid], row.spec.value.port);
    }
  }

  lemma InternalTLSIs(domain: string)
    ensures UseInternalTLS(domain) <==>
      || domain == "" || domain == "localhost" || '.' !in domain
      || exists prefix :: domain == prefix + ".localhost"
  {
    if EndsWith(domain, ".localhost") {
      assert domain == domain[..|domain| - 10] + ".localhost";
    }
    if prefix :| domain == prefix + ".localhost" {
      assert domain[|domain| - 10..] == ".localhost";
    }
  }

  // ---------------------------------------------------------------- how the table evolves

  /** One step's rows: a running row of `name` may change, one row of `name` may be added, no more. */
  ghost predicate Evolves(a: seq<Deployment>, b: seq<Deployment>, name: string) {
    && |a| <= |b| <= |a| + 1
    && (forall i | 0 <= i < |a| ::
          && (a[i].app != name || a[i].status != Running ==> b[i] == a[i])
          && b[i] == a[i].(status := b[i].status, replicas := b[i].replicas, containerId := b[i].containerId)
          && (b[i].status == a[i].status || (a[i].status == Running && b[i].status == Retired)))
    && (|b| > |a| ==> b[|a|].app == name && b[|a|].id == |b| && b[|a|].status != Retired)
  }

  lemma StepEvolves(w: World, v: World, owner: string -> string, e: Event)
    requires Inv(w, owner) && Step(w, v, owner, e)
    ensures Evolves(w.rows, v.rows, Subject(e))
    ensures e.Deploy? <==> |v.rows| > |w.rows| && v.rows[|w.rows|].status == Running
  {
    hide RowsOk, RoutesOk, ContainersOk, Admissible, Flipped, Pinned, Superseded, LatestAt, SameBut, StartedFor, MaxId;
    MaxIdIsLength(w.rows);
    SupersededRows(w.rows, Subject(e));
    if e.Update? {
      PatchedTable(w, v, e.cur, e.idxs, e.cs);
      CurrentIsAt(w.rows, e.cur.app);
    }
  }

  lemma CurrentIsAt(rows: seq<Deployment>, app: string)
    requires TableOk(rows) && Current(rows, app).Some?
    ensures var cur := Current(rows, app).value;
      1 <= cur.id <= |rows| && rows[cur.id - 1] == cur && cur.app == app && cur.status == Running
  {
    assert rows[LatestAt(rows, app, Running)].id == LatestAt(rows, app, Running) + 1;
  }

  lemma CurrentOf(w: World, owner: string -> string, app: string)
    requires Inv(w, owner) && Current(w.rows, app).Some?
    ensures Current(w.rows, app).value.app == app
  {
    CurrentIsAt(w.rows, app);
  }

  /** `row` was read from the table at some earlier time; what it says of its generation still holds. */
  ghost predicate Snapshot(w: World, row: Deployment) {
    && 1 <= row.id <= |w.rows|
    && var now := w.rows[row.id - 1];
    && now.status != Failed
    && now.app == row.app && now.image == row.image && now.spec == row.spec && now.scheduled == row.scheduled
  }

  /** Reading a row without the lock is harmless: whatever runs next, the snapshot still holds. */
  lemma StepKeepsSnapshot(w: World, v: World, owner: string -> string, e: Event, row: Deployment)
    requires Inv(w, owner) && Step(w, v, owner, e) && Snapshot(w, row)
    ensures Snapshot(v, row)
    ensures row.id in w.origin && row.id in v.origin && v.origin[row.id] == w.origin[row.id]
  {
    hide Inv, Step;
    StepEvolves(w, v, owner, e);
    StepKeepsOrigin(w, v, owner, e, row.id);
  }

  lemma StepKeepsOrigin(w: World, v: World, owner: string -> string, e: Event, id: nat)
    requires Inv(w, owner) && Step(w, v, owner, e) && 1 <= id <= |w.rows| && w.rows[id - 1].status != Failed
    ensures id in w.origin && id in v.origin && v.origin[id] == w.origin[id]
  {
    hide RoutesOk, ContainersOk, Admissible, Flipped, Pinned, Superseded, LatestAt, SameBut, StartedFor, LiveRow,
      ValidSpec;
    assert GoodRow(w, owner, w.rows[id - 1]);
    MaxIdIsLength(w.rows);
  }

  lemma {:induction false} RunKeepsSnapshot(ws: seq<World>, es: seq<Event>, owner: string -> string, i: nat, j: nat,
      row: Deployment)
    requires Run(ws, es, owner) && Inv(ws[0], owner) && i <= j < |ws| && Snapshot(ws[i], row)
    ensures Snapshot(ws[j], row)
    ensures row.id in ws[i].origin && row.id in ws[j].origin && ws[j].origin[row.id] == ws[i].origin[row.id]
  {
    hide Inv, Step, Snapshot;
    RunKeepsInv(ws, es, owner, i);
    if i == j {
      SnapshotHasOrigin(ws[i], owner, row);
    } else {
      RunKeepsSnapshot(ws, es, owner, i, j - 1, row);
      RunKeepsInv(ws, es, owner, j - 1);
      StepKeepsSnapshot(ws[j - 1], ws[j], owner, es[j - 1], row);
    }
  }

  lemma SnapshotHasOrigin(w: World, owner: string -> string, row: Deployment)
    requires Inv(w, owner) && Snapshot(w, row)
    ensures row.id in w.origin
  {
    hide RoutesOk, ContainersOk, LiveRow;
    assert GoodRow(w, owner, w.rows[row.id - 1]);
  }

  /** `e` deploys exactly what row `prev` recorded. */
  ghost predicate Restores(w: World, prev: Deployment, e: Event) {
    && e.Deploy? && prev.id in w.origin
    && prev.spec == Some(e.app) && e.app.image == prev.image && e.scheduled == prev.scheduled &&
      e.origin == w.origin[prev.id]
  }

  // ---------------------------------------------------------------- stretches of a run

  /** A run of `es` on one app takes `w` to `v`. */
  ghost predicate Leads(w: World, v: World, owner: string -> string, ws: seq<World>, es: seq<Event>, app: string) {
    Run(ws, es, owner) && ws[0] == w && ws[|es|] == v && forall i | 0 <= i < |es| :: Subject(es[i]) == app
  }

  lemma LeadsOn(w: World, v: World, u: World, owner: string -> string, ws: seq<World>, es: seq<Event>, e: Event,
      app: string)
    requires Leads(w, v, owner, ws, es, app) && Step(v, u, owner, e) && Subject(e) == app
    ensures Leads(w, u, owner, ws + [u], es + [e], app)
  {
    hide Step;
    forall i | 0 <= i < |es + [e]| ensures Step((ws + [u])[i], (ws + [u])[i + 1], owner, (es + [e])[i]) {
    }
  }

  lemma LeadsNowhere(w: World, owner: string -> string, app: string)
    ensures Leads(w, w, owner, [w], [], app)
  {
  }

  /** The same without saying whose operations they are. */
  ghost predicate Reaches(w: World, v: World, owner: string -> string, ws: seq<World>, es: seq<Event>) {
    Run(ws, es, owner) && ws[0] == w && ws[|es|] == v
  }

  lemma ReachesBoth(w: World, v: World, u: World, owner: string -> string, ws: seq<World>, es: seq<Event>,
      more: seq<World>, then_: seq<Event>)
    requires Reaches(w, v, owner, ws, es) && Reaches(v, u, owner, more, then_)
    ensures more != [] && Reaches(w, u, owner, ws + more[1..], es + then_)
  {
    hide Step;
    var all, evs := ws + more[1..], es + then_;
    forall i | 0 <= i < |evs| ensures Step(all[i], all[i + 1], owner, evs[i]) {
      if i < |es| {
        assert all[i] == ws[i] && all[i + 1] == ws[i + 1] && evs[i] == es[i];
      } else {
        var j := i - |es|;
        assert all[i] == more[j] && all[i + 1] == more[j + 1] && evs[i] == then_[j];
      }
    }
  }
}
