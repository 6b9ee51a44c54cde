/**
  Automatic node-loss failover: `failoverLostNodes` (internal/reconciler/reconcile.go:86-154).  Times are
  those of one nondecreasing clock.
*/
module Failover {
  import opened Prelude
  import opened Schedule
  import opened Model
  import opened Control
  import opened Runs
  import opened Drain
  import opened Calls
  import opened NodeDrain

  // ---------------------------------------------------------------- what a pass has seen

  /** One node in one pass: whether it answered, and whether the pass evacuated it. */
  datatype Sighting = Sighting(node: string, at: int, reachable: bool, evacuated: bool)

  /** When the node's present streak of unanswered probes began; an answer or an evacuation ends a streak. */
  function Since(log: seq<Sighting>, node: string): Option<int> {
    if log == [] then None
    else
      var last, before := log[|log| - 1], Since(log[..|log| - 1], node);
      if last.node != node then before
      else if last.reachable || last.evacuated then None
      else if before.Some? then before
      else Some(last.at)
  }

  /** A pass evacuates exactly the registered nodes whose streak has lasted the grace period. */
  ghost predicate Honest(log: seq<Sighting>, grace: int) {
    && (forall i, j | 0 <= i < j < |log| :: log[i].at <= log[j].at)
    && forall i | 0 <= i < |log| :: DueAt(log, i, grace)
  }

  ghost predicate DueAt(log: seq<Sighting>, i: nat, grace: int)
    requires i < |log|
  {
    && log[i].node != "local"
    && var since := Since(log[..i], log[i].node);
    log[i].evacuated <==> !log[i].reachable && since.Some? && log[i].at - since.value >= grace
  }

  lemma HonestNext(log: seq<Sighting>, s: Sighting, grace: int)
    requires Honest(log, grace) && s.node != "local" && forall i | 0 <= i < |log| :: log[i].at <= s.at
    requires s.evacuated <==> !s.reachable && Since(log, s.node).Some? && s.at - Since(log, s.node).value >= grace
    ensures Honest(log + [s], grace)
  {
    hide Since;
    var more := log + [s];
    forall i | 0 <= i < |more| ensures DueAt(more, i, grace) {
      if i < |log| {
        assert more[..i] == log[..i] && DueAt(log, i, grace);
      } else {
        assert more[..i] == log;
      }
    }
  }

  class Tracker {
    var unreachableSince: map<string, int>
    var clock: int
    ghost var log: seq<Sighting>
    const grace: int

    constructor (grace: int)
      requires grace > 0
      ensures Valid() && log == [] && this.grace == grace
    {
      this.grace := grace;
      unreachableSince, clock, log := map[], 0, [];
    }

    /** The timers are exactly the streaks of the log. */
    ghost predicate Valid()
      reads this
    {
      && grace > 0 && Honest(log, grace)
      && (forall i | 0 <= i < |log| :: log[i].at <= clock)
      && forall n :: Since(log, n) == if n in unreachableSince then Some(unreachableSince[n]) else None
    }

    method Now() returns (t: int)
      modifies this`clock
      ensures t == clock >= old(clock)
    {
      var passed: int := *;
      if passed > 0 {
        clock := clock + passed;
      }
      t := clock;
    }

    /** The evacuation of `node`, decided at `at`, is due. */
    ghost predicate Due(node: string, at: int)
      reads this
    {
      && node != "local" && node in unreachableSince && at - unreachableSince[node] >= grace
      && at <= clock && forall i | 0 <= i < |log| :: log[i].at <= at
    }

    /** One node of one pass, up to the decision whether to evacuate it. */
    method Look(node: string, reachable: bool) returns (evacuate: bool, at: int)
      requires Valid() && node != "local"
      modifies this
      ensures Valid() && (evacuate ==> !reachable && Due(node, at) && log == old(log))
      ensures !evacuate ==> log == old(log) + [Sighting(node, at, reachable, false)]
    {
      hide Honest;
      at := Now();
      evacuate := false;
      if reachable {
        unreachableSince := unreachableSince - {node};
      } else if node !in unreachableSince {
        unreachableSince := unreachableSince[node := at];
      } else if at - unreachableSince[node] >= grace {
        return true, at;
      }
      ghost var was := log;
      log := log + [Sighting(node, at, reachable, false)];
      assert log[..|was|] == was;
      HonestNext(was, Sighting(node, at, reachable, false), grace);
    }

    /** Clearing the timer once the evacuation has run, whatever it achieved. */
    method Evacuated(node: string, at: int)
      requires Valid() && Due(node, at)
      modifies this
      ensures Valid() && log == old(log) + [Sighting(node, at, false, true)]
    {
      hide Honest;
      unreachableSince := unreachableSince - {node};
      ghost var was := log;
      log := log + [Sighting(node, at, false, true)];
      assert log[..|was|] == was;
      HonestNext(was, Sighting(node, at, false, true), grace);
    }
  }

  /** What one sighting did to the cluster: an evacuation of that very node, or nothing. */
  ghost predicate Turn(s: Sighting, ws: seq<World>, es: seq<Event>, lo: nat, hi: nat,
      views: nat -> nat -> nat -> View) {
    && lo <= hi <= |es| < |ws|
    && if s.evacuated
       then exists p: nat, cleared: bool :: Performs(Evacuating(s.node, cleared, views(p)), ws[lo..hi + 1], es[lo..hi])
       else lo == hi
  }

  /** The events of a pass, cut at `cuts`, are those of its sightings in turn. */
  ghost predicate Passes(seen: seq<Sighting>, ws: seq<World>, es: seq<Event>, cuts: seq<nat>,
      views: nat -> nat -> nat -> View) {
    && |ws| == |es| + 1 && |cuts| == |seen| + 1 && cuts[0] == 0 && cuts[|seen|] == |es|
    && forall k | 0 <= k < |seen| :: Turn(seen[k], ws, es, cuts[k], cuts[k + 1], views)
  }

  lemma TurnStands(s: Sighting, ws: seq<World>, es: seq<Event>, lo: nat, hi: nat, views: nat -> nat -> nat -> View,
      more: seq<World>, then_: seq<Event>)
    requires Turn(s, ws, es, lo, hi, views) && |more| == |then_|
    ensures Turn(s, ws + more, es + then_, lo, hi, views)
  {
    hide Performs;
    assert (ws + more)[lo..hi + 1] == ws[lo..hi + 1] && (es + then_)[lo..hi] == es[lo..hi];
    if s.evacuated {
      var p: nat, cleared: bool :| Performs(Evacuating(s.node, cleared, views(p)), ws[lo..hi + 1], es[lo..hi]);
      assert Performs(Evacuating(s.node, cleared, views(p)), (ws + more)[lo..hi + 1], (es + then_)[lo..hi]);
    }
  }

  lemma PassesOn(seen: seq<Sighting>, ws: seq<World>, es: seq<Event>, cuts: seq<nat>, views: nat -> nat -> nat -> View,
      s: Sighting, more: seq<World>, then_: seq<Event>, p: nat, cleared: bool)
    requires Passes(seen, ws, es, cuts, views) && |more| == |then_| + 1 && more[0] == ws[|es|]
    requires if s.evacuated then Performs(Evacuating(s.node, cleared, views(p)), more, then_) else then_ == []
    ensures Passes(seen + [s], ws + more[1..], es + then_, cuts + [|es + then_|], views)
  {
    hide Performs;
    var all, evs, cut := ws + more[1..], es + then_, cuts + [|es + then_|];
    forall k | 0 <= k < |seen + [s]| ensures Turn((seen + [s])[k], all, evs, cut[k], cut[k + 1], views) {
      if k < |seen| {
        assert Turn(seen[k], ws, es, cuts[k], cuts[k + 1], views);
        hide Turn;
        TurnStands(seen[k], ws, es, cuts[k], cuts[k + 1], views, more[1..], then_);
      } else {
        assert all[|es|..|evs| + 1] == more && evs[|es|..|evs|] == then_;
      }
    }
  }

  /** The registered names a pass looks at. */
  function Remote(nodes: seq<string>): seq<string> {
    if nodes == [] then []
    else Remote(nodes[..|nodes| - 1]) + (if nodes[|nodes| - 1] == "local" then [] else [nodes[|nodes| - 1]])
  }

  ghost predicate SightingsOf(seen: seq<Sighting>, names: seq<string>) {
    |seen| == |names| && forall k | 0 <= k < |seen| :: seen[k].node == names[k]
  }

  /**
    `failoverLostNodes`: `nodes` are the registered names as listed, `wired` whether reachability is known
    at all.  The evacuation runs without the lock on the timers, which only this loop touches.  The pass looks
    at each listed node once, in order, and does to the cluster what its evacuations do, each of a node that
    was due.
  */
  method FailoverLostNodes(r: Reconciler, f: Tracker, nodes: seq<string>, wired: bool, views: nat -> nat -> nat -> View)
    returns (ghost ws: seq<World>, ghost es: seq<Event>, ghost seen: seq<Sighting>, ghost cuts: seq<nat>)
    requires r.Valid() && f.Valid() && forall p: nat, i: nat, k: nat :: WellFormed(views(p)(i)(k))
    modifies f, r, r.fleet, r.router, r.store`rows
    ensures r.Valid() && f.Valid() && f.log == old(f.log) + seen
    ensures SightingsOf(seen, if wired then Remote(nodes) else [])
    ensures Reaches(old(r.State()), r.State(), r.owner, ws, es) && Passes(seen, ws, es, cuts, views)
    ensures !wired ==> r.State() == old(r.State())
    ensures r.fleet.reliable ==> r.State().leaks == old(r.State()).leaks
  {
    hide Inv, Step, Run, Performs, Honest, Since, Passes;
    ghost var w := r.State();
    ws, es, seen, cuts := [w], [], [], [0];
    NothingSeen(w, r.owner, views);
    if !wired {
      return;
    }
    for p := 0 to |nodes|
      invariant r.Valid() && f.Valid() && f.log == old(f.log) + seen
      invariant SightingsOf(seen, Remote(nodes[..p]))
      invariant Reaches(w, r.State(), r.owner, ws, es) && Passes(seen, ws, es, cuts, views)
      invariant r.fleet.reliable ==> r.State().leaks == w.leaks
    {
      assert nodes[..p + 1][..p] == nodes[..p];
      if nodes[p] == "local" {
        continue;
      }
      ghost var more, then_, cleared, s;
      ghost var before := r.State();
      more, then_, cleared, s := FailOver(r, f, nodes[p], views(p));
      ReachesIsSized(w, before, r.owner, ws, es);
      ReachesIsSized(before, r.State(), r.owner, more, then_);
      PassesOn(seen, ws, es, cuts, views, s, more, then_, p, cleared);
      ReachesBoth(w, before, r.State(), r.owner, ws, es, more, then_);
      ws, es, seen, cuts := ws + more[1..], es + then_, seen + [s], cuts + [|es + then_|];
    }
    assert nodes[..|nodes|] == nodes;
  }

  /** One turn of the pass, for a registered node. */
  method FailOver(r: Reconciler, f: Tracker, node: string, views: nat -> nat -> View)
    returns (ghost ws: seq<World>, ghost es: seq<Event>, ghost cleared: bool, ghost s: Sighting)
    requires r.Valid() && f.Valid() && node != "local" && forall i: nat, k: nat :: WellFormed(views(i)(k))
    modifies f, r, r.fleet, r.router, r.store`rows
    ensures r.Valid() && f.Valid() && s.node == node && f.log == old(f.log) + [s]
    ensures Reaches(old(r.State()), r.State(), r.owner, ws, es)
    ensures s.evacuated ==> Performs(Evacuating(node, cleared, views), ws, es)
    ensures !s.evacuated ==> es == [] && r.State() == old(r.State())
    ensures r.fleet.reliable ==> r.State().leaks == old(r.State()).leaks
  {
    hide Inv, Step, Run, Performs, Honest, Since;
    cleared := false;
    var reachable := r.fleet.Reachable(node);
    var evacuate, at := f.Look(node, reachable);
    if evacuate {
      var result;
      result, ws, es := EvacuateNode(r, node, views);
      f.Evacuated(node, at);
      cleared := result.failed == [];
    } else {
      ws, es := [r.State()], [];
      ReachesNowhere(r.State(), r.owner);
    }
    s := f.log[|f.log| - 1];
  }

  lemma ReachesIsSized(w: World, v: World, owner: string -> string, ws: seq<World>, es: seq<Event>)
    requires Reaches(w, v, owner, ws, es)
    ensures |ws| == |es| + 1
  {
    hide Step;
  }

  lemma NothingSeen(w: World, owner: string -> string, views: nat -> nat -> nat -> View)
    ensures Reaches(w, w, owner, [w], []) && Passes([], [w], [], [0], views)
  {
  }

  lemma ReachesNowhere(w: World, owner: string -> string)
    ensures Reaches(w, w, owner, [w], [])
  {
  }

  // ---------------------------------------------------------------- when failover happens

  lemma {:induction false} StreakStarts(log: seq<Sighting>, grace: int, node: string)
    requires Honest(log, grace) && Since(log, node).Some?
    ensures exists i :: 0 <= i < |log| && Starts(log, i, node) && log[i].at == Since(log, node).value
  {
    hide Honest;
    var n := |log| - 1;
    assert Honest(log[..n], grace) by { HonestPrefix(log, grace, n); }
    if log[n].node == node && Since(log[..n], node).None? {
      assert Starts(log, n, node);
    } else {
      StreakStarts(log[..n], grace, node);
      var i :| 0 <= i < n && Starts(log[..n], i, node) && log[..n][i].at == Since(log[..n], node).value;
      assert Starts(log, i, node) by {
        forall k | i < k < |log| && log[k].node == node ensures !log[k].reachable && !log[k].evacuated {
          if k < n { assert log[..n][k] == log[k]; }
        }
      }
    }
  }

  /** From sighting `i` on the node never answered and was never evacuated. */
  ghost predicate Starts(log: seq<Sighting>, i: nat, node: string) {
    && i < |log| && log[i].node == node && !log[i].reachable && !log[i].evacuated
    && forall k | i < k < |log| && log[k].node == node :: !log[k].reachable && !log[k].evacuated
  }

  lemma HonestPrefix(log: seq<Sighting>, grace: int, n: nat)
    requires Honest(log, grace) && n <= |log|
    ensures Honest(log[..n], grace)
  {
    hide Since;
    forall i | 0 <= i < n ensures DueAt(log[..n], i, grace) {
      assert log[..n][..i] == log[..i] && DueAt(log, i, grace);
    }
  }

  /**
    A node is evacuated only if an earlier pass, at least the grace period ago, found it unreachable and no
    pass since has found it otherwise; and never the local one.
  */
  lemma FailoverWaitsOutTheGrace(log: seq<Sighting>, grace: int, j: nat)
    requires Honest(log, grace) && j < |log| && log[j].evacuated
    ensures log[j].node != "local" && !log[j].reachable
    ensures exists i :: 0 <= i < j && Starts(log[..j], i, log[j].node) && log[j].at - log[i].at >= grace
  {
    assert DueAt(log, j, grace);
    HonestPrefix(log, grace, j);
    StreakStarts(log[..j], grace, log[j].node);
    var i :| 0 <= i < j && Starts(log[..j], i, log[j].node) && log[..j][i].at == Since(log[..j], log[j].node).value;
    assert log[i] == log[..j][i];
  }

  /** Two automatic evacuations of one node are at least the grace period apart. */
  lemma EvacuationsAreApart(log: seq<Sighting>, grace: int, i: nat, j: nat)
    requires Honest(log, grace) && i < j < |log| && log[i].node == log[j].node && log[i].evacuated && log[j].evacuated
    ensures log[j].at - log[i].at >= grace
  {
    hide Since;
    FailoverWaitsOutTheGrace(log, grace, j);
    var k :| 0 <= k < j && Starts(log[..j], k, log[j].node) && log[j].at - log[k].at >= grace;
    assert log[..j][i] == log[i] && log[..j][k] == log[k];
  }
}
