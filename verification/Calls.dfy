/**
  The locked operations as calls: what each was asked, and what its contract says of the events it made.
  Every operation method ensures `Performs`, so a theorem about calls is a theorem about the methods.
*/
module Calls {
  import opened Prelude
  import opened Schedule
  import opened Model
  import opened Transitions
  import opened Runs
  import opened Effects
  import opened Drain

  /** Some view of `views` offers `node`. */
  ghost predicate OfferedIn(views: nat -> View, node: string) {
    exists t: nat :: Offers(views(t), node)
  }

  /** The same of an evacuation, whose `i`-th app is placed by `views(i)`. */
  ghost predicate OfferedToAny(views: nat -> nat -> View, node: string) {
    exists i: nat :: OfferedIn(views(i), node)
  }

  /** An update that moves no replica to another node. */
  ghost predicate StaysPut(e: Event) {
    e.Update? ==>
      && |e.idxs| == |e.cs| && (forall k | 0 <= k < |e.idxs| :: e.idxs[k] < |e.cur.replicas|)
      && InPlace(e.cur, e.idxs, e.cs)
  }

  /** A deploy made by an evacuation is of an app that was running, and was the scheduler's to move. */
  ghost predicate Relocates(w: World, e: Event) {
    e.Deploy? ==>
      && Current(w.rows, e.app.name).Some? && Current(w.rows, e.app.name).value.scheduled
      && e.scheduled && e.origin == ""
  }

  /** An event of an evacuation: it moves only what is the scheduler's, and only to where `offered` says. */
  ghost predicate Shifts(w: World, e: Event, offered: string -> bool) {
    PlacedBy(e, offered) && Relocates(w, e)
  }

  /** The spec a Scale applies: the snapshot with a new count, its node cleared if the scheduler chose it. */
  function ScaledSpec(base: Deployment, count: int): App
    requires base.spec.Some?
  {
    base.spec.value.(replicas := count, node := if base.scheduled then "" else base.spec.value.node)
  }

  /** `cleared` says that the evacuation reported no failure. */
  datatype Call =
    | Applying(app: App, views: nat -> View)
    | Scaling(base: Deployment, count: int, views: nat -> View)
    | RollingBack(prev: Deployment, views: nat -> View)
    | Evacuating(node: string, cleared: bool, byApp: nat -> nat -> View)
    | Healing
    | Deleting(name: string)

  /** `e` is a fresh deploy of the spec `app`, as its one placement plan says, or was refused. */
  ghost predicate Applies(app: App, views: nat -> View, e: Event, origin: string) {
    && Subject(e) == app.name && (e.Deploy? || e.Refuse?)
    && (e.Deploy? ==>
          && e.app == app.(node := e.app.node) && e.origin == origin
          && DeployPlan(views, app) == Ok(Spread(NodesOf(e.cs), e.scheduled)))
  }

  ghost predicate RollsBackTo(w: World, prev: Deployment, views: nat -> View, e: Event) {
    && Subject(e) == prev.app && (e.Deploy? || e.Refuse?)
    && (e.Deploy? ==>
          && Restores(w, prev, e)
          && InlineTargets(views, 1, e.app, e.scheduled, [e.app.node], Count(e.app)) == Ok(NodesOf(e.cs)))
  }

  ghost predicate Evacuates(ws: seq<World>, es: seq<Event>, node: string, cleared: bool, views: nat -> nat -> View) {
    && |ws| == |es| + 1
    && (forall i | 0 <= i < |es| :: Shifts(ws[i], es[i], n => OfferedToAny(views, n)))
    && (cleared ==> Clear(ws[|es|], node))
  }

  /** What the operation promises of the events `es` it made, from the state `ws[0]` it found under the lock. */
  ghost predicate Performs(call: Call, ws: seq<World>, es: seq<Event>) {
    && |ws| == |es| + 1
    && match call
       case Applying(app, views) => |es| == 1 && Applies(app, views, es[0], app.node)
       case Scaling(base, count, views) =>
         && |es| == 1 && Snapshot(ws[0], base) && base.spec.Some? && base.id in ws[0].origin
         && Applies(ScaledSpec(base, count), views, es[0], ws[0].origin[base.id])
       case RollingBack(prev, views) => |es| == 1 && Snapshot(ws[0], prev) && RollsBackTo(ws[0], prev, views, es[0])
       case Evacuating(node, cleared, views) => Evacuates(ws, es, node, cleared, views)
       case Healing => |es| == 1 && !es[0].Deploy? && StaysPut(es[0])
       case Deleting(name) => |es| == 1 && (es[0].Remove? || es[0].AbortRemove?) && Subject(es[0]) == name
  }
}
