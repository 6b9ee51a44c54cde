/**
  What a placement means, said of the observed cluster alone, without the candidates and the ranking that
  internal/reconciler/schedule.go:140-218 and internal/scheduler/scheduler.go:42-123 compute it by.
*/
module Placing {
  import opened Prelude
  import opened Scheduler
  import opened Schedule

  /**
    This view lets `app` be placed on `n`, which reports `cap`: the local node for the default pool, measured or
    not, or a registered one of the app's pool that is not cordoned, resolves, reports a capacity, and is not
    known to be unreachable.
  */
  ghost predicate Usable(view: View, app: App, n: string, cap: Capacity) {
    || (&& n == "local" && (app.pool == "" || app.pool == "default") && view.localResolves
        && (view.localCapacity.Some? ==> cap == view.localCapacity.value)
        && (view.localCapacity.None? ==> cap == Capacity(0, 0.0, 0, 0, false)))
    || exists l :: l in view.registry && Answers(view, app, l, cap) && l.row.name == n
  }

  ghost predicate Answers(view: View, app: App, l: Listed, cap: Capacity) {
    && (if app.pool == "" then l.row.pool == "default" else l.row.pool == app.pool) && l.row.schedulable
    && (view.reachWired ==> l.probe.reachable) && l.probe.resolves && l.probe.capacity == Some(cap)
  }

  /** A measured node has room if it has what the app asks for; an unmeasured one is taken at its word. */
  ghost predicate HasRoom(app: App, cap: Capacity) {
    cap.known && app.requirements.Some? ==>
      && (app.requirements.value.mem != 0 ==> app.requirements.value.mem <= cap.memAvailable)
      && (app.requirements.value.cpu != 0.0 ==> cap.cpuUsed + app.requirements.value.cpu <= cap.cores as real)
  }

  /** `a` and `b` agree up to `k`, where `a` ends or has the smaller character. */
  ghost predicate PartsAt(a: string, b: string, k: nat) {
    k < |b| && k <= |a| && (forall i | 0 <= i < k :: a[i] == b[i]) && (k == |a| || a[k] < b[k])
  }

  /** The order of dictionaries. */
  ghost predicate SortsBefore(a: string, b: string) {
    exists k: nat :: PartsAt(a, b, k)
  }

  /** More free memory first, then more free CPU, then the smaller name; unmeasured nodes count as empty. */
  ghost predicate Precedes(n: string, a: Capacity, m: string, b: Capacity) {
    var memA, memB := if a.known then a.memAvailable else a.memTotal, if b.known then b.memAvailable else b.memTotal;
    var usedA, usedB := if a.known then a.cpuUsed else 0.0, if b.known then b.cpuUsed else 0.0;
    var cpuA, cpuB := a.cores as real - usedA, b.cores as real - usedB;
    memA > memB || (memA == memB && (cpuA > cpuB || (cpuA == cpuB && SortsBefore(n, m))))
  }

  lemma {:induction false} StringLessSorts(a: string, b: string)
    ensures StringLess(a, b) <==> SortsBefore(a, b)
  {
    if a != "" && b != "" && a[0] == b[0] {
      StringLessSorts(a[1..], b[1..]);
      hide StringLess;
      if k: nat :| PartsAt(a[1..], b[1..], k) {
        assert PartsAt(a, b, k + 1);
      }
      if k: nat :| PartsAt(a, b, k) {
        assert PartsAt(a[1..], b[1..], k - 1);
      }
    } else if StringLess(a, b) {
      assert PartsAt(a, b, 0);
    }
  }

  lemma OutranksIsPrecedes(a: NodeInfo, b: NodeInfo)
    ensures Outranks(a, b) <==> Precedes(a.name, a.cap, b.name, b.cap)
  {
    hide StringLess, SortsBefore;
    StringLessSorts(a.name, b.name);
  }

  /** The candidate that a usable node is. */
  function Offered(app: App, n: string, cap: Capacity): NodeInfo {
    NodeInfo(n, AppPool(app), true, true, cap)
  }

  lemma UsableIsCandidate(view: View, app: App, exclude: seq<string>, n: string, cap: Capacity)
    ensures Offered(app, n, cap) in Candidates(view, AppPool(app), exclude) <==>
      Usable(view, app, n, cap) && n !in exclude
  {
    var pool, remote := AppPool(app), RemoteCandidates(view.registry, view.reachWired, AppPool(app), exclude);
    RemoteCandidatesMembers(view.registry, view.reachWired, pool, exclude);
    forall l | l in view.registry
      ensures Offered(app, n, cap) == CandidateOf(l, view.reachWired) && l.row.pool == pool <==>
        Answers(view, app, l, cap) && l.row.name == n
    {
    }
    if Usable(view, app, n, cap) && n !in exclude && !(n == "local" && Offered(app, n, cap) == LocalCandidate(view)) {
      assert Offered(app, n, cap) in remote || n == "local";
    }
  }

  /** Someone can take the app: a usable node outside `exclude` with room for it. */
  ghost predicate CanTake(view: View, app: App, exclude: seq<string>, n: string, cap: Capacity) {
    Usable(view, app, n, cap) && n !in exclude && HasRoom(app, cap)
  }

  /** And nobody who can take it comes before. */
  ghost predicate FirstToTake(view: View, app: App, exclude: seq<string>, n: string, cap: Capacity) {
    && CanTake(view, app, exclude, n, cap)
    && forall m, c | CanTake(view, app, exclude, m, c) && m != n :: Precedes(n, cap, m, c)
  }

  lemma EligibleTakes(view: View, app: App, exclude: seq<string>, c: NodeInfo)
    ensures c in Candidates(view, AppPool(app), exclude) && InPool(c, AppPool(app)) <==>
      c == Offered(app, c.name, c.cap) && Usable(view, app, c.name, c.cap) && c.name !in exclude
    ensures Fits(c, ReqOf(app)) <==> HasRoom(app, c.cap)
  {
    hide Usable, Candidates;
    UsableIsCandidate(view, app, exclude, c.name, c.cap);
  }

  /**
    Where an app is placed, said of the view alone: on the node that can take it and comes first; and it fails
    exactly if no node outside `exclude` is usable, or those that are have no room.
  */
  lemma PlacementIs(view: View, app: App, exclude: seq<string>)
    requires WellFormed(view)
    ensures forall n :: PlaceIn(view, app, exclude) == Ok(n) <==> exists cap :: FirstToTake(view, app, exclude, n, cap)
    ensures PlaceIn(view, app, exclude) == Err(NoSchedulableNode) <==>
      forall m, c | Usable(view, app, m, c) :: m in exclude
    ensures PlaceIn(view, app, exclude) == Err(NoCapacity) <==>
      && (exists m, c :: Usable(view, app, m, c) && m !in exclude)
      && forall m, c | Usable(view, app, m, c) && m !in exclude :: !HasRoom(app, c)
  {
    hide Usable, Candidates, Fits, HasRoom, Outranks, Precedes, Placed, InPool, ReqOf;
    var pool, req, s := AppPool(app), ReqOf(app), Candidates(view, AppPool(app), exclude);
    PlacedIsBest(s, pool, req);
    forall c: NodeInfo
      ensures c in s && InPool(c, pool) <==>
        c == Offered(app, c.name, c.cap) && Usable(view, app, c.name, c.cap) && c.name !in exclude
      ensures Fits(c, req) <==> HasRoom(app, c.cap)
    {
      EligibleTakes(view, app, exclude, c);
    }
    forall m, c | Usable(view, app, m, c) && m !in exclude
      ensures Offered(app, m, c) in s && InPool(Offered(app, m, c), pool) {
      assert Offered(app, m, c).name == m && Offered(app, m, c).cap == c;
    }
    forall n ensures PlaceIn(view, app, exclude) == Ok(n) <==> exists cap :: FirstToTake(view, app, exclude, n, cap) {
      if PlaceIn(view, app, exclude) == Ok(n) {
        var c :| IsBest(c, s, pool, req) && c.name == n;
        BestIsFirst(view, app, exclude, c);
      }
      if cap :| FirstToTake(view, app, exclude, n, cap) {
        FirstIsBest(view, app, exclude, n, cap);
        BestIsPlaced(Offered(app, n, cap), s, pool, req);
      }
    }
  }

  lemma BestIsFirst(view: View, app: App, exclude: seq<string>, c: NodeInfo)
    requires WellFormed(view) && IsBest(c, Candidates(view, AppPool(app), exclude), AppPool(app), ReqOf(app))
    ensures FirstToTake(view, app, exclude, c.name, c.cap)
  {
    hide Usable, Candidates, Fits, HasRoom, Outranks, Precedes, InPool, ReqOf;
    EligibleTakes(view, app, exclude, c);
    forall m, cap | CanTake(view, app, exclude, m, cap) && m != c.name ensures Precedes(c.name, c.cap, m, cap) {
      var d := Offered(app, m, cap);
      EligibleTakes(view, app, exclude, d);
      OutranksOrder(c, d, c);
      OutranksIsPrecedes(c, d);
    }
  }

  lemma FirstIsBest(view: View, app: App, exclude: seq<string>, n: string, cap: Capacity)
    requires WellFormed(view) && FirstToTake(view, app, exclude, n, cap)
    ensures IsBest(Offered(app, n, cap), Candidates(view, AppPool(app), exclude), AppPool(app), ReqOf(app))
  {
    hide Usable, Candidates, Fits, HasRoom, Outranks, Precedes, InPool, ReqOf;
    var c := Offered(app, n, cap);
    EligibleTakes(view, app, exclude, c);
    ExcludeIsFilter(view, AppPool(app), exclude);
    CandidateNamesDistinct(view, AppPool(app));
    forall d | d in Candidates(view, AppPool(app), exclude) && Eligible(d, AppPool(app), ReqOf(app))
      ensures !Outranks(d, c)
    {
      EligibleTakes(view, app, exclude, d);
      OutranksOrder(c, d, c);
      if d.name == n {
        assert d == c;
      } else {
        OutranksIsPrecedes(c, d);
      }
    }
  }

  /** Placement succeeds exactly if some node can take the app. */
  lemma PlacedIfAnyCan(view: View, app: App, exclude: seq<string>)
    requires WellFormed(view)
    ensures PlaceIn(view, app, exclude).Ok? <==> exists n, cap :: CanTake(view, app, exclude, n, cap)
  {
    hide PlaceIn, Usable, HasRoom;
    PlacementIs(view, app, exclude);
    if PlaceIn(view, app, exclude).Ok? {
      var cap :| FirstToTake(view, app, exclude, PlaceIn(view, app, exclude).value, cap);
      assert CanTake(view, app, exclude, PlaceIn(view, app, exclude).value, cap);
    } else {
      forall n, cap ensures !CanTake(view, app, exclude, n, cap) {
        match PlaceIn(view, app, exclude).error
        case NoSchedulableNode =>
        case NoCapacity =>
      }
    }
  }
}
