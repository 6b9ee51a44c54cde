/**
  Operations in time.  Registry writes go through the API and do not take the reconciler's lock, so an
  operation spans a stretch of registry instants, and a write may fall inside it; the operations themselves
  serialise.  Here drain sticks whatever was in flight, and every row that is or was live descends from a spec
  a user applied.
*/
module Timeline {
  import opened Prelude
  import opened Schedule
  import opened Model
  import opened Transitions
  import opened Runs
  import opened Safety
  import opened Effects
  import opened Operations
  import opened Drain
  import opened Calls
  import opened NodeDrain

  /** One locked operation: its events are `lo..hi`, and it held the lock from instant `start` to instant `end`. */
  datatype Section = Section(call: Call, lo: nat, hi: nat, start: nat, end: nat)

  /** The registry at instant `m` is `registries[m]`, and `writes[m]` is what happens to it next. */
  datatype History = History(
    ws: seq<World>,
    es: seq<Event>,
    sections: seq<Section>,
    registries: seq<map<string, NodeRow>>,
    writes: seq<RegistryOp>)

  /** `view` lists the registry as it was at some instant between `start` and `end`. */
  ghost predicate ReadIn(view: View, registries: seq<map<string, NodeRow>>, start: nat, end: nat) {
    exists m: nat :: start <= m <= end && m < |registries| && Reads(view, registries[m])
  }

  /** Every placement call of the operation lists the registry while the operation holds the lock. */
  ghost predicate ListsWithin(call: Call, registries: seq<map<string, NodeRow>>, start: nat, end: nat) {
    match call
    case Applying(_, views) => forall t: nat :: ReadIn(views(t), registries, start, end)
    case Scaling(_, _, views) => forall t: nat :: ReadIn(views(t), registries, start, end)
    case RollingBack(_, views) => forall t: nat :: ReadIn(views(t), registries, start, end)
    case Evacuating(_, _, byApp) => forall i: nat, t: nat :: ReadIn(byApp(i)(t), registries, start, end)
    case _ => true
  }

  ghost predicate InBounds(h: History, s: Section) {
    s.lo <= s.hi <= |h.es| && s.start <= s.end < |h.registries|
  }

  /** One operation ends before the next begins, in events and in time. */
  ghost predicate Serial(h: History) {
    && (forall k | 0 <= k < |h.sections| :: InBounds(h, h.sections[k]))
    && (forall k | 0 < k < |h.sections| ::
          h.sections[k - 1].hi == h.sections[k].lo && h.sections[k - 1].end <= h.sections[k].start)
    && (if h.sections == [] then h.es == [] else h.sections[0].lo == 0 && h.sections[|h.sections| - 1].hi == |h.es|)
  }

  ghost predicate Kept(h: History, s: Section)
    requires |h.ws| == |h.es| + 1 && InBounds(h, s)
  {
    Performs(s.call, h.ws[s.lo..s.hi + 1], h.es[s.lo..s.hi]) && ListsWithin(s.call, h.registries, s.start, s.end)
  }

  ghost predicate Lawful(h: History, owner: string -> string) {
    && Run(h.ws, h.es, owner) && Serial(h)
    && |h.registries| == |h.writes| + 1
    && (forall i | 0 <= i < |h.writes| :: h.registries[i + 1] == Registered(h.registries[i], h.writes[i]))
    && forall k | 0 <= k < |h.sections| :: Kept(h, h.sections[k])
  }

  // ---------------------------------------------------------------- order in time

  lemma {:induction false} Serialised(h: History, q: nat, k: nat)
    requires Serial(h) && q < k < |h.sections|
    ensures h.sections[q].hi <= h.sections[k].lo && h.sections[q].end <= h.sections[k].start
  {
    assert InBounds(h, h.sections[k - 1]);
    if q < k - 1 { Serialised(h, q, k - 1); }
  }

  /** Every event belongs to an operation. */
  lemma {:induction false} SectionOf(h: History, i: nat, k: nat) returns (s: nat)
    requires Serial(h) && k < |h.sections| && i < h.sections[k].hi
    ensures s <= k && h.sections[s].lo <= i < h.sections[s].hi
  {
    if i >= h.sections[k].lo {
      s := k;
    } else {
      s := SectionOf(h, i, k - 1);
    }
  }

  lemma {:induction false} CordonHolds(h: History, owner: string -> string, node: string, from: nat, m: nat)
    requires Lawful(h, owner) && from <= m < |h.registries| && Cordoned(h.registries[from], node)
    requires forall i | from <= i < |h.writes| :: !Lifts(h.registries[i], h.writes[i], node)
    ensures Cordoned(h.registries[m], node)
  {
    hide Run, Serial, Kept;
    if from < m {
      CordonHolds(h, owner, node, from, m - 1);
      CordonEndsOnlyWhenLifted(h.registries[m - 1], h.writes[m - 1], node);
    }
  }

  /** No placement call of the operation is offered `node`. */
  ghost predicate Blind(call: Call, node: string) {
    match call
    case Applying(_, views) => forall t: nat :: !Offers(views(t), node)
    case Scaling(_, _, views) => forall t: nat :: !Offers(views(t), node)
    case RollingBack(_, views) => forall t: nat :: !Offers(views(t), node)
    case Evacuating(_, _, byApp) => forall i: nat, t: nat :: !Offers(byApp(i)(t), node)
    case _ => true
  }

  lemma LateReadIsBlind(h: History, owner: string -> string, view: View, node: string, from: nat, start: nat, end: nat)
    requires Lawful(h, owner) && from <= start && from < |h.registries| && Cordoned(h.registries[from], node)
    requires forall i | from <= i < |h.writes| :: !Lifts(h.registries[i], h.writes[i], node)
    requires ReadIn(view, h.registries, start, end)
    ensures !Offers(view, node)
  {
    hide Lawful;
    var m: nat :| start <= m <= end && m < |h.registries| && Reads(view, h.registries[m]);
    CordonHolds(h, owner, node, from, m);
    CordonedIsNotOffered(view, h.registries[m], node);
  }

  /** An operation that takes the lock after the cordon lists the registry after the cordon. */
  lemma LateIsBlind(h: History, owner: string -> string, node: string, from: nat, k: nat)
    requires Lawful(h, owner) && from < |h.registries| && Cordoned(h.registries[from], node)
    requires forall i | from <= i < |h.writes| :: !Lifts(h.registries[i], h.writes[i], node)
    requires k < |h.sections| && from <= h.sections[k].start
    ensures Blind(h.sections[k].call, node)
  {
    var s := h.sections[k];
    assert ListsWithin(s.call, h.registries, s.start, s.end) by { assert Kept(h, s); }
    hide Lawful, ReadIn, Offers, Reads, Cordoned;
    match s.call
    case Applying(_, views) =>
      forall t: nat ensures !Offers(views(t), node) { LateReadIsBlind(h, owner, views(t), node, from, s.start, s.end); }
    case Scaling(_, _, views) =>
      forall t: nat ensures !Offers(views(t), node) { LateReadIsBlind(h, owner, views(t), node, from, s.start, s.end); }
    case RollingBack(_, views) =>
      forall t: nat ensures !Offers(views(t), node) { LateReadIsBlind(h, owner, views(t), node, from, s.start, s.end); }
    case Evacuating(_, _, byApp) =>
      forall i: nat, t: nat
        ensures !Offers(byApp(i)(t), node) { LateReadIsBlind(h, owner, byApp(i)(t), node, from, s.start, s.end); }
    case _ =>
  }

  // ---------------------------------------------------------------- what each call does to a clear node

  /** The operation is a Rollback to a snapshot the scheduler had placed on `node`. */
  predicate Replays(call: Call, node: string) {
    call.RollingBack? && call.prev.scheduled && call.prev.spec.Some? && call.prev.spec.value.node == node
  }

  /**
    A successful Rollback replays its snapshot's node as the anchor, cordoned or not.  On a cluster clear of
    `node`, with no view offering it, it leaves the node clear if and only if the snapshot is the user's to
    place or names another: something the caller can see before calling.
  */
  lemma RollbackUndoesDrainIff(w: World, v: World, owner: string -> string, prev: Deployment, views: nat -> View,
      e: Event, node: string)
    requires Inv(w, owner) && Step(w, v, owner, e) && RollsBackTo(w, prev, views, e) && e.Deploy? && Clear(w, node)
    requires forall t: nat :: !Offers(views(t), node)
    ensures Clear(v, node) <==> !Replays(RollingBack(prev, views), node)
  {
    hide Inv, Step, Clear, Offers, PlaceIn, InlineTargets;
    if e.scheduled {
      DeployIsClearIff(w, v, owner, e, node);
      AnchoredElsewhere(views, e.app, e.cs, node);
    } else {
      StepKeepsClear(w, v, owner, e, node, n => false);
    }
  }

  lemma AnchoredElsewhere(views: nat -> View, app: App, cs: seq<Container>, node: string)
    requires InlineTargets(views, 1, app, true, [app.node], Count(app)) == Ok(NodesOf(cs))
    requires forall t: nat :: !Offers(views(t), node)
    ensures (forall c | c in cs :: c.node != node) <==> app.node != node
  {
    hide Offers;
    InlineIsOffered(views, 1, app, [app.node], Count(app));
    InlineKeepsAnchor(views, 1, app, true, [app.node], Count(app));
    assert NodesOf(cs)[0] == cs[0].node;
    if app.node != node {
      forall c | c in cs ensures c.node != node {
        var k :| 0 <= k < |cs| && cs[k] == c;
        assert NodesOf(cs)[k] == c.node;
      }
    }
  }

  lemma ApplyKeepsClear(w: World, v: World, owner: string -> string, app: App, views: nat -> View, e: Event,
      origin: string, node: string)
    requires Inv(w, owner) && Step(w, v, owner, e) && Applies(app, views, e, origin) && Clear(w, node)
    requires forall t: nat :: !Offers(views(t), node)
    ensures Clear(v, node)
  {
    hide Inv, Step, Clear, Offers, DeployPlan;
    if e.Deploy? && e.scheduled {
      ApplyIsOffered(views, app, e.cs);
      assert forall c | c in e.cs :: OfferedIn(views, c.node);
    }
    StepKeepsClear(w, v, owner, e, node, n => OfferedIn(views, n));
  }

  lemma RollbackKeepsClear(w: World, v: World, owner: string -> string, prev: Deployment, views: nat -> View, e: Event,
      node: string)
    requires Inv(w, owner) && Step(w, v, owner, e) && RollsBackTo(w, prev, views, e) && Clear(w, node)
    requires forall t: nat :: !Offers(views(t), node)
    requires !Replays(RollingBack(prev, views), node)
    ensures Clear(v, node)
  {
    hide Inv, Step, Clear, Offers, InlineTargets;
    if e.Deploy? {
      RollbackUndoesDrainIff(w, v, owner, prev, views, e, node);
    } else {
      StepKeepsClear(w, v, owner, e, node, n => false);
    }
  }

  lemma {:induction false} EvacuationKeepsClear(ws: seq<World>, es: seq<Event>, owner: string -> string, node: string,
      views: nat -> nat -> View, j: nat)
    requires Run(ws, es, owner) && Inv(ws[0], owner) && Clear(ws[0], node) && j < |ws|
    requires forall i | 0 <= i < |es| :: PlacedBy(es[i], n => OfferedToAny(views, n))
    requires !OfferedToAny(views, node)
    ensures Clear(ws[j], node)
  {
    hide Inv, Step, Clear, OfferedToAny, PlacedBy;
    if j > 0 {
      EvacuationKeepsClear(ws, es, owner, node, views, j - 1);
      RunKeepsInv(ws, es, owner, j - 1);
      StepKeepsClear(ws[j - 1], ws[j], owner, es[j - 1], node, n => OfferedToAny(views, n));
    }
  }

  /** An operation that no view offers a clear node leaves it clear throughout, unless it replays a snapshot there. */
  lemma CallKeepsClear(call: Call, ws: seq<World>, es: seq<Event>, owner: string -> string, node: string, j: nat)
    requires Run(ws, es, owner) && Inv(ws[0], owner) && Performs(call, ws, es) && Clear(ws[0], node)
    requires Blind(call, node) && !Replays(call, node) && j < |ws|
    ensures Clear(ws[j], node)
  {
    hide Inv, Step, Clear, Offers, Applies, RollsBackTo, Snapshot;
    if j > 0 {
      match call
      case Applying(app, views) => ApplyKeepsClear(ws[0], ws[1], owner, app, views, es[0], app.node, node);
      case Scaling(base, count, views) =>
        ApplyKeepsClear(ws[0], ws[1], owner, ScaledSpec(base, count), views, es[0], ws[0].origin[base.id], node);
      case RollingBack(prev, views) => RollbackKeepsClear(ws[0], ws[1], owner, prev, views, es[0], node);
      case Evacuating(_, _, views) => EvacuationKeepsClear(ws, es, owner, node, views, j);
      case Healing => StepKeepsClear(ws[0], ws[1], owner, es[0], node, n => false);
      case Deleting(_) => StepKeepsClear(ws[0], ws[1], owner, es[0], node, n => false);
    }
  }

  // ---------------------------------------------------------------- drain sticks

  lemma SliceRuns(h: History, owner: string -> string, lo: nat, hi: nat)
    requires Run(h.ws, h.es, owner) && lo <= hi <= |h.es|
    ensures Run(h.ws[lo..hi + 1], h.es[lo..hi], owner)
  {
    hide Step;
    forall i | 0 <= i < hi - lo ensures Step(h.ws[lo..hi + 1][i], h.ws[lo..hi + 1][i + 1], owner, h.es[lo..hi][i]) {
      assert h.ws[lo..hi + 1][i] == h.ws[lo + i] && h.ws[lo..hi + 1][i + 1] == h.ws[lo + i + 1] &&
        h.es[lo..hi][i] == h.es[lo + i];
    }
  }

  lemma SectionKeepsClear(h: History, owner: string -> string, node: string, k: nat, j: nat)
    requires Lawful(h, owner) && Inv(h.ws[0], owner) && k < |h.sections| && h.sections[k].lo <= j <= h.sections[k].hi
    requires Clear(h.ws[h.sections[k].lo], node) && Blind(h.sections[k].call, node)
    requires !Replays(h.sections[k].call, node)
    ensures Clear(h.ws[j], node)
  {
    hide Inv, Step, Clear, Performs, Blind, ListsWithin;
    var s := h.sections[k];
    assert InBounds(h, s) && Kept(h, s);
    SliceRuns(h, owner, s.lo, s.hi);
    RunKeepsInv(h.ws, h.es, owner, s.lo);
    CallKeepsClear(s.call, h.ws[s.lo..s.hi + 1], h.es[s.lo..s.hi], owner, node, j - s.lo);
  }

  /**
    The API cordons `node` at instant `c`, lock or no lock, and then calls the evacuation, which is operation
    `q` and reports no failure.  Later on nobody lifts the cordon or rolls back to a snapshot that names the node.
  */
  ghost predicate Drained(h: History, node: string, c: nat, q: nat) {
    && node != "local" && c < |h.writes| < |h.registries| && h.writes[c] == SetSchedulable(node, false)
    && q < |h.sections| && h.sections[q].call.Evacuating? && h.sections[q].call.node == node &&
      h.sections[q].call.cleared
    && c < h.sections[q].start
    && (forall i | c < i < |h.writes| :: !Lifts(h.registries[i], h.writes[i], node))
    && (forall i | q < i < |h.sections| :: !Replays(h.sections[i].call, node))
  }

  /**
    Drain sticks, with whatever is in flight: from the end of the evacuation on, in every state of the history,
    no scheduled app has a replica on the node.  An operation that was under way when the node was cordoned has
    ended before the evacuation takes the lock; one that ends after it lists the registry after the cordon.
  */
  lemma {:induction false} DrainSticks(h: History, owner: string -> string, node: string, c: nat, q: nat, k: nat,
      j: nat)
    requires Lawful(h, owner) && Inv(h.ws[0], owner) && Drained(h, node, c, q)
    requires q <= k < |h.sections| && h.sections[q].hi <= j <= h.sections[k].hi
    ensures j < |h.ws| && Clear(h.ws[j], node)
    decreases k
  {
    hide Inv, Clear, Lawful, Drained;
    Ordered(h, owner, q, k);
    if k == q {
      EvacuationClears(h, owner, node, c, q);
    } else {
      var lo := h.sections[k].lo;
      assert h.sections[k - 1].hi == lo by { Ordered(h, owner, k - 1, k); }
      Ordered(h, owner, q, k - 1);
      if j <= lo {
        DrainSticks(h, owner, node, c, q, k - 1, j);
      } else {
        DrainSticks(h, owner, node, c, q, k - 1, lo);
        LaterKeepsClear(h, owner, node, c, q, k, j);
      }
    }
  }

  /** Of two operations the one comes wholly before the other. */
  lemma Ordered(h: History, owner: string -> string, q: nat, k: nat)
    requires Lawful(h, owner) && q <= k < |h.sections|
    ensures |h.ws| == |h.es| + 1 && h.sections[k].lo <= h.sections[k].hi < |h.ws|
    ensures h.sections[q].hi <= h.sections[k].hi && h.sections[q].start <= h.sections[k].start
    ensures q < k ==> h.sections[q].hi <= h.sections[k].lo
    ensures q + 1 == k ==> h.sections[q].hi == h.sections[k].lo
  {
    hide Step, Kept;
    assert InBounds(h, h.sections[k]) && InBounds(h, h.sections[q]);
    if q < k { Serialised(h, q, k); }
  }

  lemma LaterKeepsClear(h: History, owner: string -> string, node: string, c: nat, q: nat, k: nat, j: nat)
    requires Lawful(h, owner) && Inv(h.ws[0], owner) && Drained(h, node, c, q) && q < k < |h.sections|
    requires h.sections[k].lo <= j <= h.sections[k].hi < |h.ws| && Clear(h.ws[h.sections[k].lo], node)
    ensures Clear(h.ws[j], node)
  {
    hide Inv, Clear, Blind, Replays, Lifts;
    Ordered(h, owner, q, k);
    CordonTaken(h, owner, node, c);
    hide Lawful;
    LateIsBlind(h, owner, node, c + 1, k);
    SectionKeepsClear(h, owner, node, k, j);
  }

  lemma CordonTaken(h: History, owner: string -> string, node: string, c: nat)
    requires Lawful(h, owner) && node != "local" && c < |h.writes| && h.writes[c] == SetSchedulable(node, false)
    ensures c + 1 < |h.registries| && Cordoned(h.registries[c + 1], node)
  {
    hide Run, Serial, Kept;
  }

  lemma EvacuationClears(h: History, owner: string -> string, node: string, c: nat, q: nat)
    requires Lawful(h, owner) && Drained(h, node, c, q)
    ensures h.sections[q].hi < |h.ws| && Clear(h.ws[h.sections[q].hi], node)
  {
    hide Step, Clear, ListsWithin, Shifts, Lifts, Replays;
    var s := h.sections[q];
    assert InBounds(h, s) && Kept(h, s);
    assert h.ws[s.lo..s.hi + 1][|h.es[s.lo..s.hi]|] == h.ws[s.hi];
  }

  // ---------------------------------------------------------------- a rollback that undoes a drain

  /**
    It happens: on a fresh installation an app is placed on `a`, then on `b`, and `a` is drained; a Rollback,
    whatever it is offered, puts the app back on `a`.
  */
  lemma RollbackCanUndoDrain(w: World, owner: string -> string, app: App, a: string, b: string, views: nat -> View)
    returns (ws: seq<World>, es: seq<Event>)
    requires Init(w) && ValidSpec(app) && owner(app.domain) == app.name && Count(app) == 1
    requires a != "" && b != "" && a != b
    ensures Run(ws, es, owner) && |es| == 3 && ws[0] == w
    ensures Previous(ws[2].rows, app.name).Some?
    ensures Performs(RollingBack(Previous(ws[2].rows, app.name).value, views), [ws[2], ws[3]], [es[2]])
    ensures Clear(ws[2], a) && !Clear(ws[3], a)
  {
    hide Inv, Step, ValidSpec, NextId, Clear;
    InitIsInv(w, owner);
    var v, d := PlacedOn(w, owner, app, a);
    var u, e := PlacedOn(v, owner, app, b);
    var x, f := PlacedOn(u, owner, app, a);
    ws, es := [w, v, u, x], [d, e, f];
    TwoGenerations(w, v, u, owner, d, e, app, a, b);
    RowIsOn(u, x, owner, f, a);
    assert InlineTargets(views, 1, f.app, true, [a], 1) == Ok([a]);
    assert NodesOf(f.cs) == [a];
  }

  /** A deploy of a scheduled app of one replica that lands on `node`. */
  lemma PlacedOn(w: World, owner: string -> string, app: App, node: string) returns (v: World, e: Event)
    requires Inv(w, owner) && ValidSpec(app) && owner(app.domain) == app.name && Count(app) == 1 && node != ""
    ensures Step(w, v, owner, e) && Inv(v, owner)
    ensures e.Deploy? && e.app == app.(node := node) && e.scheduled && e.origin == ""
    ensures |e.cs| == 1 && e.cs[0].node == node
  {
    hide Inv, Step, NextId, AfterDeploy;
    var placed := app.(node := node);
    CanDeploy(w, owner, placed, true, "");
    e := Deploy(placed, true, "", FreshSet(placed, NextId(w.rows), node));
    v := AfterDeploy(w, placed, true, "", e.cs);
    StepKeepsInv(w, v, owner, e);
  }

  /** After a first deploy and a second, the first is what a rollback restores, and its node is clear. */
  lemma TwoGenerations(w: World, v: World, u: World, owner: string -> string, d: Event, e: Event, app: App, a: string,
      b: string)
    requires Init(w) && Step(w, v, owner, d) && Step(v, u, owner, e) && a != b
    requires d.Deploy? && d.app == app.(node := a) && d.scheduled && d.origin == ""
    requires e.Deploy? && e.app == app.(node := b) && |e.cs| == 1 && e.cs[0].node == b
    ensures Clear(u, a) && Previous(u.rows, app.name).Some?
    ensures var prev := Previous(u.rows, app.name).value;
      && prev.app == app.name && prev.image == app.image && prev.spec == Some(app.(node := a)) && prev.scheduled
      && Snapshot(u, prev) && prev.id in u.origin && u.origin[prev.id] == ""
  {
    hide Flipped, Admissible, Pinned, ReplicaOf, NameOf;
    assert v.rows == [RowFor(d.app, 1, true, Replicas(w.nextCid, d.cs, app.port))];
    SupersededRows(v.rows, app.name);
    assert |u.rows| == 2 && u.rows[0] == v.rows[0].(status := Retired);
    LatestAtIs(u.rows, app.name, Retired, 0);
  }

  lemma RowIsOn(w: World, v: World, owner: string -> string, e: Event, node: string)
    requires Step(w, v, owner, e) && e.Deploy? && e.scheduled && |e.cs| == 1 && e.cs[0].node == node
    ensures !Clear(v, node)
  {
    hide Flipped, StartedFor, Admissible, Pinned, Superseded, NextId;
    assert v.rows[|v.rows| - 1].replicas[0].node == node;
  }

  // ---------------------------------------------------------------- where pins come from

  /** Among the operations that ended by event `i`, one applied a spec that names the app and `node`. */
  ghost predicate Requested(h: History, i: nat, name: string, node: string) {
    exists k :: 0 <= k < |h.sections| && h.sections[k].hi <= i && Asks(h.sections[k].call, name, node)
  }

  predicate Asks(call: Call, name: string, node: string) {
    call.Applying? && call.app.name == name && call.app.node == node
  }

  /**
    A pin is the user's word, through any history of operations: every row that is or was live descends from a
    spec some Apply was given, whatever scales, rollbacks, heals, moves and evacuations lie between.  The row
    is scheduled exactly if that spec named no node, and otherwise all its replicas are on the node it named.
  */
  lemma PinsDescend(h: History, owner: string -> string, i: nat, j: nat)
    requires Lawful(h, owner) && Init(h.ws[0]) && i < |h.ws| && j < |h.ws[i].rows| && h.ws[i].rows[j].status != Failed
    ensures var row := h.ws[i].rows[j];
      exists node: string :: Requested(h, i, row.app, node)
        && (row.scheduled <==> node == "")
        && (!row.scheduled ==> forall k | 0 <= k < |row.replicas| :: row.replicas[k].node == node)
  {
    hide Requested, Step, Serial, Kept;
    InitIsInv(h.ws[0], owner);
    OriginIsRequested(h, owner, i, j);
    PinsNeverMove(h.ws, h.es, owner, i, j);
  }

  lemma {:induction false} OriginIsRequested(h: History, owner: string -> string, i: nat, j: nat)
    requires Lawful(h, owner) && Init(h.ws[0]) && i < |h.ws| && j < |h.ws[i].rows| && h.ws[i].rows[j].status != Failed
    ensures var row := h.ws[i].rows[j];
      row.id == j + 1 && row.id in h.ws[i].origin && Requested(h, i, row.app, h.ws[i].origin[row.id])
    decreases i, 0
  {
    hide Requested, Step, Serial, Kept, Inv;
    InitIsInv(h.ws[0], owner);
    RunKeepsInv(h.ws, h.es, owner, i);
    RowIsNumbered(h.ws[i], owner, j);
    if i > 0 {
      var w, e := h.ws[i - 1], h.es[i - 1];
      RunKeepsInv(h.ws, h.es, owner, i - 1);
      StepEvolves(w, h.ws[i], owner, e);
      if j < |w.rows| {
        OriginIsRequested(h, owner, i - 1, j);
        StepKeepsOrigin(w, h.ws[i], owner, e, j + 1);
        RequestedStill(h, i - 1, i, w.rows[j].app, w.origin[j + 1]);
      } else {
        NewRowIs(w, h.ws[i], owner, e);
        DeployIsRequested(h, owner, i);
      }
    }
  }

  lemma RequestedStill(h: History, i: nat, k: nat, name: string, node: string)
    requires Requested(h, i, name, node) && i <= k
    ensures Requested(h, k, name, node)
  {
  }

  lemma RowIsNumbered(w: World, owner: string -> string, j: nat)
    requires Inv(w, owner) && j < |w.rows|
    ensures w.rows[j].id == j + 1
  {
    hide RowsOk, RoutesOk, ContainersOk;
  }

  lemma NewRowIs(w: World, v: World, owner: string -> string, e: Event)
    requires Inv(w, owner) && Step(w, v, owner, e) && e.Deploy?
    ensures |v.rows| == |w.rows| + 1 && v.rows[|w.rows|].app == e.app.name
    ensures |w.rows| + 1 in v.origin && v.origin[|w.rows| + 1] == e.origin
  {
    hide RowsOk, RoutesOk, ContainersOk, Flipped, StartedFor, Admissible, Pinned, Superseded, MaxId;
    MaxIdIsLength(w.rows);
    SupersededRows(w.rows, e.app.name);
  }

  /** `e` claims the lineage of row `id`. */
  ghost predicate Inherits(w: World, e: Event, id: nat) {
    && 1 <= id <= |w.rows| && w.rows[id - 1].status != Failed && e.Deploy? && w.rows[id - 1].app == e.app.name
    && id in w.origin && w.origin[id] == e.origin
  }

  lemma {:induction false} DeployIsRequested(h: History, owner: string -> string, i: nat)
    requires Lawful(h, owner) && Init(h.ws[0]) && 0 < i < |h.ws| && h.es[i - 1].Deploy?
    ensures Requested(h, i, h.es[i - 1].app.name, h.es[i - 1].origin)
    decreases i - 1, 2
  {
    hide Requested, Step, Inv, Inherits, Asks, Performs, ListsWithin;
    var k := SectionOf(h, i - 1, |h.sections| - 1);
    var s := h.sections[k];
    assert InBounds(h, s) && Kept(h, s);
    InitIsInv(h.ws[0], owner);
    RunKeepsInv(h.ws, h.es, owner, i - 1);
    var w, e := h.ws[i - 1], h.es[i - 1];
    var ws, es := h.ws[s.lo..s.hi + 1], h.es[s.lo..s.hi];
    assert ws[i - 1 - s.lo] == w && es[i - 1 - s.lo] == e;
    DeployDescends(s.call, ws, es, owner, i - 1 - s.lo);
    if id: nat :| Inherits(w, e, id) {
      InheritsRow(h, owner, i, id);
    } else {
      AskedIs(h, k, i, e.app.name, e.origin);
    }
  }

  lemma InheritsRow(h: History, owner: string -> string, i: nat, id: nat)
    requires Lawful(h, owner) && Init(h.ws[0]) && 0 < i < |h.ws| && Inherits(h.ws[i - 1], h.es[i - 1], id)
    ensures Requested(h, i, h.es[i - 1].app.name, h.es[i - 1].origin)
    decreases i - 1, 1
  {
    var e := h.es[i - 1];
    hide Lawful, Requested;
    OriginIsRequested(h, owner, i - 1, id - 1);
    RequestedStill(h, i - 1, i, e.app.name, e.origin);
  }

  lemma AskedIs(h: History, k: nat, i: nat, name: string, node: string)
    requires k < |h.sections| && h.sections[k].hi <= i && Asks(h.sections[k].call, name, node)
    ensures Requested(h, i, name, node)
  {
  }

  /** The lineage a deploy claims is the spec it was given, or a row's that is or was live. */
  lemma DeployDescends(call: Call, ws: seq<World>, es: seq<Event>, owner: string -> string, t: nat)
    requires Performs(call, ws, es) && t < |es| && Inv(ws[t], owner) && es[t].Deploy?
    ensures (Asks(call, es[t].app.name, es[t].origin) && t + 1 == |es|) || exists id: nat :: Inherits(ws[t], es[t], id)
  {
    hide Inv, Inherits, DeployPlan, InlineTargets, Snapshot, Clear, PlacedBy;
    match call
    case Scaling(base, _, _) => SnapshotIsInherited(ws[0], owner, base, es[0]);
    case RollingBack(prev, _) => SnapshotIsInherited(ws[0], owner, prev, es[0]);
    case Evacuating(_, _, views) =>
      assert Shifts(ws[t], es[t], n => OfferedToAny(views, n));
      CurrentIsInherited(ws[t], owner, es[t]);
    case _ =>
  }

  lemma SnapshotIsInherited(w: World, owner: string -> string, row: Deployment, e: Event)
    requires Inv(w, owner) && Snapshot(w, row) && e.Deploy? && row.spec.Some? && row.id in w.origin
    requires e.origin == w.origin[row.id] && (e.app.name == row.app || e.app.name == row.spec.value.name)
    ensures exists id: nat :: Inherits(w, e, id)
  {
    hide RoutesOk, ContainersOk, LiveRow, ValidSpec, Inherits;
    assert GoodRow(w, owner, w.rows[row.id - 1]);
    IsInherited(w, e, row.id);
  }

  lemma IsInherited(w: World, e: Event, id: nat)
    requires 1 <= id <= |w.rows| && w.rows[id - 1].status != Failed && e.Deploy? && w.rows[id - 1].app == e.app.name
    requires id in w.origin && w.origin[id] == e.origin
    ensures Inherits(w, e, id)
  {
  }

  lemma CurrentIsInherited(w: World, owner: string -> string, e: Event)
    requires Inv(w, owner) && Relocates(w, e) && e.Deploy?
    ensures exists id: nat :: Inherits(w, e, id)
  {
    hide RoutesOk, ContainersOk, ValidSpec, LiveRow, Inherits, LatestAt;
    CurrentIsLive(w, owner, e.app.name);
    IsInherited(w, e, Current(w.rows, e.app.name).value.id);
  }
}
