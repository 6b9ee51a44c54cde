/**
  Placement of a replica set: internal/reconciler/schedule.go, and the target loop that
  `deployReplicaSet` keeps inline (internal/reconciler/reconciler.go:931-971).

  Everything a placement call observes of the cluster is one `View`.  A deploy makes several calls,
  at different instants, so its loop takes a view per call; a fixed cluster view is a constant one.
*/
module Schedule {
  import opened Prelude
  import opened Scheduler

  /** The part of an app's spec that placement and deploys read (internal/spec/spec.go:76-112). */
  datatype App = App(
    name: string,
    image: string,
    domain: string,
    port: int,
    node: string,
    pool: string,
    replicas: int,
    requirements: Option<Requirements>,
    backed: bool)

  /** A registry row (internal/store/store.go:99-107). */
  datatype NodeRow = NodeRow(name: string, sshHost: string, mesh: string, agentUrl: string, pool: string,
    schedulable: bool)

  /** What probing one registered node answers: reachability, resolution, capacity. */
  datatype Probe = Probe(reachable: bool, resolves: bool, capacity: Option<Capacity>)

  datatype Listed = Listed(row: NodeRow, probe: Probe)

  datatype View = View(reachWired: bool, localResolves: bool, localCapacity: Option<Capacity>, registry: seq<Listed>)

  /** The registry is keyed by name, and the API refuses to register "local" or an empty name. */
  ghost predicate WellFormed(view: View) {
    && (forall l | l in view.registry :: l.row.name != "local" && l.row.name != "")
    && (forall i, j | 0 <= i < j < |view.registry| :: view.registry[i].row.name != view.registry[j].row.name)
  }

  function ReqOf(app: App): Requirements {
    match app.requirements
    case None => Requirements(0.0, 0)
    case Some(r) => r
  }

  function AppPool(app: App): string {
    if app.pool == "" then "default" else app.pool
  }

  function Count(app: App): nat {
    if app.replicas < 1 then 1 else app.replicas
  }

  // ---------------------------------------------------------------- candidates

  function LocalCandidate(view: View): NodeInfo {
    NodeInfo("local", "default", true, true, match view.localCapacity case Some(c) => c case None => ZERO_CAPACITY)
  }

  function CandidateOf(l: Listed, reachWired: bool): NodeInfo {
    if reachWired && !l.probe.reachable then
      NodeInfo(l.row.name, l.row.pool, false, l.row.schedulable, ZERO_CAPACITY)
    else if !l.probe.resolves || l.probe.capacity.None? then
      NodeInfo(l.row.name, l.row.pool, false, l.row.schedulable, ZERO_CAPACITY)
    else
      NodeInfo(l.row.name, l.row.pool, true, l.row.schedulable, l.probe.capacity.value)
  }

  function RemoteCandidates(registry: seq<Listed>, reachWired: bool, pool: string,
      exclude: seq<string>): seq<NodeInfo> {
    if registry == [] then []
    else
      var l := registry[|registry| - 1];
      RemoteCandidates(registry[..|registry| - 1], reachWired, pool, exclude)
      + (if l.row.pool != pool || l.row.name in exclude then [] else [CandidateOf(l, reachWired)])
  }

  function Candidates(view: View, pool: string, exclude: seq<string>): seq<NodeInfo> {
    (if pool == "default" && "local" !in exclude && view.localResolves then [LocalCandidate(view)] else [])
    + RemoteCandidates(view.registry, view.reachWired, pool, exclude)
  }

  /** `schedulableCandidates`. */
  method SchedulableCandidates(view: View, app: App, exclude: seq<string>) returns (candidates: seq<NodeInfo>)
    ensures candidates == Candidates(view, AppPool(app), exclude)
  {
    var pool := AppPool(app);
    candidates := [];
    if pool == "default" && "local" !in exclude && view.localResolves {
      candidates := [LocalCandidate(view)];
    }
    ghost var local := candidates;
    for i := 0 to |view.registry|
      invariant candidates == local + RemoteCandidates(view.registry[..i], view.reachWired, pool, exclude)
    {
      assert view.registry[..i + 1][..i] == view.registry[..i];
      var l := view.registry[i];
      if l.row.pool == pool && l.row.name !in exclude {
        candidates := candidates + [CandidateOf(l, view.reachWired)];
      }
    }
    assert view.registry[..|view.registry|] == view.registry;
  }

  lemma {:induction false} RemoteCandidatesMembers(registry: seq<Listed>, reachWired: bool, pool: string,
      exclude: seq<string>)
    ensures forall c :: c in RemoteCandidates(registry, reachWired, pool, exclude) <==>
      exists l :: l in registry && l.row.pool == pool && l.row.name !in exclude && c == CandidateOf(l, reachWired)
  {
    if registry != [] {
      var front, last := registry[..|registry| - 1], registry[|registry| - 1];
      RemoteCandidatesMembers(front, reachWired, pool, exclude);
      assert registry == front + [last];
      forall c ensures c in RemoteCandidates(registry, reachWired, pool, exclude) <==>
        exists l :: l in registry && l.row.pool == pool && l.row.name !in exclude && c == CandidateOf(l, reachWired)
      {
        if l :| l in front && l.row.pool == pool && l.row.name !in exclude && c == CandidateOf(l, reachWired) {
          assert l in registry;
        }
      }
    }
  }

  /** Excluding names drops exactly the candidates of those names. */
  lemma ExcludeIsFilter(view: View, pool: string, exclude: seq<string>)
    ensures forall c :: c in Candidates(view, pool, exclude) <==> c in Candidates(view, pool, []) && c.name !in exclude
  {
    RemoteCandidatesMembers(view.registry, view.reachWired, pool, exclude);
    RemoteCandidatesMembers(view.registry, view.reachWired, pool, []);
    forall c ensures c in Candidates(view, pool, exclude) <==> c in Candidates(view, pool, []) && c.name !in exclude {
      assert c in Candidates(view, pool, []) <==>
        (c in (if pool == "default" && view.localResolves then [LocalCandidate(view)] else [])
         || c in RemoteCandidates(view.registry, view.reachWired, pool, []));
    }
  }

  lemma CandidateNamesDistinct(view: View, pool: string)
    requires WellFormed(view)
    ensures forall c, d | c in Candidates(view, pool, []) && d in Candidates(view, pool, []) && c.name == d.name ::
      c == d
  {
    RemoteCandidatesMembers(view.registry, view.reachWired, pool, []);
  }

  // ---------------------------------------------------------------- one placement

  function PlaceIn(view: View, app: App, exclude: seq<string>): Result<string, PlaceError> {
    Placed(Candidates(view, AppPool(app), exclude), AppPool(app), ReqOf(app))
  }

  /** `placeExcludingSet`. */
  method PlaceExcludingSet(view: View, app: App, exclude: seq<string>) returns (r: Result<string, PlaceError>)
    ensures r == PlaceIn(view, app, exclude)
  {
    var candidates := SchedulableCandidates(view, app, exclude);
    r := Place(candidates, AppPool(app), ReqOf(app));
  }

  /** A node the registry in this view offers to the scheduler: the local one, or a listed, uncordoned one. */
  ghost predicate Offers(view: View, node: string) {
    node == "local" || exists l :: l in view.registry && l.row.name == node && l.row.schedulable
  }

  /** A placed node is outside the exclude set and is never cordoned or unregistered. */
  lemma PlaceInIsOffered(view: View, app: App, exclude: seq<string>)
    requires PlaceIn(view, app, exclude).Ok?
    ensures PlaceIn(view, app, exclude).value !in exclude
    ensures Offers(view, PlaceIn(view, app, exclude).value)
    ensures WellFormed(view) ==> PlaceIn(view, app, exclude).value != ""
  {
    var pool := AppPool(app);
    PlacedIsBest(Candidates(view, pool, exclude), pool, ReqOf(app));
    ExcludeIsFilter(view, pool, exclude);
    RemoteCandidatesMembers(view.registry, view.reachWired, pool, exclude);
  }

  datatype Placement = Placement(node: string, scheduled: bool)

  /** `resolvePlacement`: an explicit node, "local" included, bypasses the scheduler. */
  function ResolvePlacement(view: View, app: App): Result<Placement, PlaceError> {
    if app.node != "" then Ok(Placement(app.node, false))
    else match PlaceIn(view, app, [])
      case Ok(n) => Ok(Placement(n, true))
      case Err(e) => Err(e)
  }

  // ---------------------------------------------------------------- placeReplicas

  datatype Spread = Spread(nodes: seq<string>, scheduled: bool)

  function Stack(node: string, n: nat): (r: seq<string>)
    ensures |r| == n && forall i | 0 <= i < n :: r[i] == node
  {
    seq(n, _ => node)
  }

  /** The loop of `placeReplicas` from the nodes chosen so far; placement call number `t` sees views(t). */
  function SpreadFrom(views: nat -> View, t: nat, app: App, chosen: seq<string>, n: nat): Result<seq<string>,
      PlaceError>
    decreases n - |chosen|
  {
    if |chosen| >= n then Ok(chosen)
    else match PlaceIn(views(t), app, chosen)
      case Ok(next) => SpreadFrom(views, t + 1, app, chosen + [next], n)
      case Err(_) =>
        match PlaceIn(views(t + 1), app, [])
        case Ok(next) => SpreadFrom(views, t + 2, app, chosen + [next], n)
        case Err(e) => Err(e)
  }

  function SpreadOver(views: nat -> View, app: App, n: int): Result<Spread, PlaceError> {
    var m: nat := if n <= 0 then 1 else n;
    if app.node != "" && app.node != "local" then Ok(Spread(Stack(app.node, m), false))
    else match PlaceIn(views(0), app, [])
      case Err(e) => Err(e)
      case Ok(first) =>
        match SpreadFrom(views, 1, app, [first], m)
        case Err(e) => Err(e)
        case Ok(nodes) => Ok(Spread(nodes, true))
  }

  /** `placeReplicas`. */
  method PlaceReplicas(views: nat -> View, app: App, n: int) returns (r: Result<Spread, PlaceError>)
    ensures r == SpreadOver(views, app, n)
  {
    hide PlaceIn;
    var m: nat := if n <= 0 then 1 else n;
    if app.node != "" && app.node != "local" {
      return Ok(Spread(Stack(app.node, m), false));
    }
    var first := PlaceExcludingSet(views(0), app, []);
    if first.Err? {
      return Err(first.error);
    }
    var nodes, t := [first.value], 1;
    while |nodes| < m
      invariant 1 <= |nodes| <= m
      invariant SpreadFrom(views, 1, app, [first.value], m) == SpreadFrom(views, t, app, nodes, m)
    {
      var next := PlaceExcludingSet(views(t), app, nodes);
      if next.Err? {
        t := t + 1;
        next := PlaceExcludingSet(views(t), app, []);
        if next.Err? {
          return Err(next.error);
        }
      }
      t := t + 1;
      nodes := nodes + [next.value];
    }
    r := Ok(Spread(nodes, true));
  }

  /** A cluster that does not change while replicas are being placed. */
  function Fixed(view: View): nat -> View {
    _ => view
  }

  // ---------------------------------------------------------------- greedy spread is ranking

  /** The fitting candidates in rank order. */
  function Ranking(view: View, app: App): seq<NodeInfo> {
    Ranked(Fitting(PoolOf(Candidates(view, AppPool(app), []), AppPool(app)), ReqOf(app)))
  }

  function Names(s: seq<NodeInfo>): (r: seq<string>)
    ensures |r| == |s| && forall i | 0 <= i < |s| :: r[i] == s[i].name
  {
    seq(|s|, i requires 0 <= i < |s| => s[i].name)
  }

  /** The first `n` of the ranking; when it is shorter, the head again for every remaining replica. */
  function TopOf(names: seq<string>, n: nat): (r: seq<string>)
    requires names != []
    ensures |r| == n
    ensures forall i | 0 <= i < n :: r[i] == if i < |names| then names[i] else names[0]
  {
    seq(n, i requires 0 <= i < n => if i < |names| then names[i] else names[0])
  }

  /** What a ranking is, without the sort: exactly the fitting candidates, each once, best first. */
  lemma RankingIsRanking(view: View, app: App)
    requires WellFormed(view)
    ensures forall c :: c in Ranking(view, app) <==>
      c in Candidates(view, AppPool(app), []) && Eligible(c, AppPool(app), ReqOf(app))
    ensures forall i, j | 0 <= i < j < |Ranking(view, app)| ::
      Outranks(Ranking(view, app)[i], Ranking(view, app)[j]) && Ranking(view, app)[i].name != Ranking(view, app)[j].name
  {
    var pool, req := AppPool(app), ReqOf(app);
    var all := Candidates(view, pool, []);
    PoolOfMembers(all, pool);
    FittingMembers(PoolOf(all, pool), req);
    RankedSorts(Fitting(PoolOf(all, pool), req));
    CandidateNamesDistinct(view, pool);
    var r := Ranking(view, app);
    CandidatesOnce(view, pool);
    PoolOfOnce(all, pool);
    FittingOnce(PoolOf(all, pool), req);
    forall i, j | 0 <= i < j < |r| ensures Outranks(r[i], r[j]) && r[i].name != r[j].name {
      OnceApart(r, i, j);
      OutranksOrder(r[i], r[j], r[i]);
    }
  }

  ghost predicate Once(s: seq<NodeInfo>) {
    forall c :: multiset(s)[c] <= 1
  }

  lemma OnceApart(s: seq<NodeInfo>, i: nat, j: nat)
    requires i < j < |s| && Once(s)
    ensures s[i] != s[j]
  {
    assert s == s[..j] + s[j..];
    assert multiset(s) == multiset(s[..j]) + multiset(s[j..]);
    assert s[i] in s[..j] && s[j] in s[j..];
    assert multiset(s)[s[j]] <= 1;
  }

  lemma {:induction false} RemoteOnce(registry: seq<Listed>, reachWired: bool, pool: string)
    requires forall i, j | 0 <= i < j < |registry| :: registry[i].row.name != registry[j].row.name
    ensures Once(RemoteCandidates(registry, reachWired, pool, []))
  {
    if registry != [] {
      var front, last := registry[..|registry| - 1], registry[|registry| - 1];
      RemoteOnce(front, reachWired, pool);
      RemoteCandidatesMembers(front, reachWired, pool, []);
      assert CandidateOf(last, reachWired) !in RemoteCandidates(front, reachWired, pool, []);
    }
  }

  lemma CandidatesOnce(view: View, pool: string)
    requires WellFormed(view)
    ensures Once(Candidates(view, pool, []))
  {
    RemoteOnce(view.registry, view.reachWired, pool);
    RemoteCandidatesMembers(view.registry, view.reachWired, pool, []);
    assert LocalCandidate(view) !in RemoteCandidates(view.registry, view.reachWired, pool, []);
  }

  lemma {:induction false} PoolOfOnce(s: seq<NodeInfo>, pool: string)
    ensures multiset(PoolOf(s, pool)) <= multiset(s)
  {
    if s != [] {
      PoolOfOnce(s[..|s| - 1], pool);
      assert s == s[..|s| - 1] + [s[|s| - 1]];
    }
  }

  lemma {:induction false} FittingOnce(s: seq<NodeInfo>, req: Requirements)
    ensures multiset(Fitting(s, req)) <= multiset(s)
  {
    if s != [] {
      FittingOnce(s[..|s| - 1], req);
      assert s == s[..|s| - 1] + [s[|s| - 1]];
    }
  }

  /** Excluding the first `i` of the ranking, placement picks the next one, and fails when there is none. */
  lemma PlaceAfter(view: View, app: App, chosen: seq<string>, i: nat)
    requires WellFormed(view)
    requires i <= |Ranking(view, app)|
    requires forall n :: n in Names(Ranking(view, app)) ==> (n in chosen <==> n in Names(Ranking(view, app)[..i]))
    ensures i < |Ranking(view, app)| ==> PlaceIn(view, app, chosen) == Ok(Ranking(view, app)[i].name)
    ensures i == |Ranking(view, app)| ==> PlaceIn(view, app, chosen).Err?
  {
    hide Ranking;
    var pool, req, r := AppPool(app), ReqOf(app), Ranking(view, app);
    RankingIsRanking(view, app);
    ExcludeIsFilter(view, pool, chosen);
    var left := Candidates(view, pool, chosen);
    forall k | 0 <= k < i ensures r[k].name in Names(r[..i]) {
      assert Names(r[..i])[k] == r[k].name;
    }
    forall c | c in left && Eligible(c, pool, req) ensures exists j :: i <= j < |r| && r[j] == c {
      assert c in r;
      var j :| 0 <= j < |r| && r[j] == c;
      assert Names(r)[j] == c.name;
    }
    if i < |r| {
      assert r[i] in r && Names(r)[i] == r[i].name;
      assert r[i].name !in Names(r[..i]);
      forall d | d in left && Eligible(d, pool, req) ensures !Outranks(d, r[i]) {
        var j :| i <= j < |r| && r[j] == d;
        OutranksOrder(d, r[i], d);
      }
      assert IsBest(r[i], left, pool, req);
      BestIsPlaced(r[i], left, pool, req);
    } else {
      PlacedIsBest(left, pool, req);
    }
  }

  lemma {:induction false} SpreadFromIsTop(view: View, t: nat, app: App, chosen: seq<string>, n: nat)
    requires WellFormed(view) && Ranking(view, app) != [] && 1 <= |chosen| <= n
    requires chosen == TopOf(Names(Ranking(view, app)), |chosen|)
    ensures SpreadFrom(Fixed(view), t, app, chosen, n) == Ok(TopOf(Names(Ranking(view, app)), n))
    decreases n - |chosen|
  {
    hide Ranked;
    var r := Ranking(view, app);
    if |chosen| < n {
      var i := if |chosen| < |r| then |chosen| else |r|;
      forall m | m in Names(r) ensures m in chosen <==> m in Names(r[..i]) {
        if m in Names(r[..i]) {
          var j :| 0 <= j < i && Names(r[..i])[j] == m;
          assert chosen[j] == m;
        }
        if m in chosen {
          var j :| 0 <= j < |chosen| && chosen[j] == m;
          var j' := if j < |r| then j else 0;
          assert Names(r[..i])[j'] == m;
        }
      }
      PlaceAfter(view, app, chosen, i);
      PlaceAfter(view, app, [], 0);
      var next := if |chosen| < |r| then r[|chosen|].name else r[0].name;
      assert chosen + [next] == TopOf(Names(r), |chosen| + 1);
      SpreadFromIsTop(view, if |chosen| < |r| then t + 1 else t + 2, app, chosen + [next], n);
    }
  }

  /**
    Greedy spread equals ranking: on a fixed view an unpinned app's replicas take the ranking from the
    top, the overflow stacks on its head, and placement fails exactly when nothing fits.
  */
  lemma SpreadIsRanking(view: View, app: App, n: int)
    requires WellFormed(view) && (app.node == "" || app.node == "local")
    ensures SpreadOver(Fixed(view), app, n).Ok? <==> Ranking(view, app) != []
    ensures Ranking(view, app) != [] ==>
      SpreadOver(Fixed(view), app, n) == Ok(Spread(TopOf(Names(Ranking(view, app)), if n <= 0 then 1 else n), true))
  {
    var r := Ranking(view, app);
    PlaceAfter(view, app, [], 0);
    if r != [] {
      assert [r[0].name] == TopOf(Names(r), 1);
      SpreadFromIsTop(view, 1, app, [r[0].name], if n <= 0 then 1 else n);
    }
  }

  /** The spread does not depend on the order the registry is listed in. */
  lemma SpreadIgnoresOrder(view: View, other: View, app: App, n: int)
    requires WellFormed(view) && WellFormed(other)
    requires other == view.(registry := other.registry)
    requires forall l :: l in view.registry <==> l in other.registry
    ensures SpreadOver(Fixed(view), app, n) == SpreadOver(Fixed(other), app, n)
  {
    forall exclude: seq<string> ensures PlaceIn(view, app, exclude) == PlaceIn(other, app, exclude) {
      var pool := AppPool(app);
      RemoteCandidatesMembers(view.registry, view.reachWired, pool, exclude);
      RemoteCandidatesMembers(other.registry, other.reachWired, pool, exclude);
      PlacedIgnoresOrder(Candidates(view, pool, exclude), Candidates(other, pool, exclude), pool, ReqOf(app));
    }
    if PlaceIn(view, app, []).Ok? {
      SpreadFromSame(Fixed(view), Fixed(other), 1, app, app, [PlaceIn(view, app, []).value], if n <= 0 then 1 else n);
    }
  }

  /** Two placement loops that are answered alike choose alike. */
  lemma {:induction false} SpreadFromSame(views: nat -> View, others: nat -> View, t: nat, app: App, twin: App,
      chosen: seq<string>, n: nat)
    requires forall k: nat, exclude: seq<string> :: PlaceIn(views(k), app, exclude) == PlaceIn(others(k), twin, exclude)
    ensures SpreadFrom(views, t, app, chosen, n) == SpreadFrom(others, t, twin, chosen, n)
    decreases n - |chosen|
  {
    hide PlaceIn;
    if |chosen| < n {
      if PlaceIn(views(t), app, chosen).Ok? {
        SpreadFromSame(views, others, t + 1, app, twin, chosen + [PlaceIn(views(t), app, chosen).value], n);
      } else if PlaceIn(views(t + 1), app, []).Ok? {
        SpreadFromSame(views, others, t + 2, app, twin, chosen + [PlaceIn(views(t + 1), app, []).value], n);
      }
    }
  }

  // ---------------------------------------------------------------- the inline loop of deployReplicaSet

  /**
    The names `deployReplicaSet` settles on for replicas 1..count-1, the anchor being chosen[0].
    `t` counts the placement calls made, so call number t sees views(t).
  */
  function InlineTargets(views: nat -> View, t: nat, app: App, scheduled: bool, chosen: seq<string>,
      n: nat): Result<seq<string>, PlaceError>
    decreases n - |chosen|
  {
    if |chosen| >= n then Ok(chosen)
    else if !scheduled then InlineTargets(views, t, app, scheduled, chosen + [app.node], n)
    else match PlaceIn(views(t), app, chosen)
      case Ok(next) => InlineTargets(views, t + 1, app, scheduled, chosen + [next], n)
      case Err(_) =>
        match PlaceIn(views(t + 1), app, [])
        case Ok(next) => InlineTargets(views, t + 2, app, scheduled, chosen + [next], n)
        case Err(e) => Err(e)
  }

  /** An Apply's placement: the anchor from `resolvePlacement`, the rest from the inline loop. */
  function DeployPlan(views: nat -> View, app: App): Result<Spread, PlaceError> {
    match ResolvePlacement(views(0), app)
    case Err(e) => Err(e)
    case Ok(p) =>
      match InlineTargets(views, 1, app.(node := p.node), p.scheduled, [p.node], Count(app))
      case Err(e) => Err(e)
      case Ok(nodes) => Ok(Spread(nodes, p.scheduled))
  }

  lemma {:induction false} InlineIsSpread(views: nat -> View, t: nat, app: App, anchor: string, chosen: seq<string>,
      n: nat)
    ensures InlineTargets(views, t, app.(node := anchor), true, chosen, n) == SpreadFrom(views, t, app, chosen, n)
    decreases n - |chosen|
  {
    var moved := app.(node := anchor);
    assert forall k: nat, exclude: seq<string> :: PlaceIn(views(k), moved, exclude) == PlaceIn(views(k), app, exclude);
    if |chosen| < n {
      if PlaceIn(views(t), app, chosen).Ok? {
        InlineIsSpread(views, t + 1, app, anchor, chosen + [PlaceIn(views(t), app, chosen).value], n);
      } else if PlaceIn(views(t + 1), app, []).Ok? {
        InlineIsSpread(views, t + 2, app, anchor, chosen + [PlaceIn(views(t + 1), app, []).value], n);
      }
    }
  }

  lemma {:induction false} InlineStacks(views: nat -> View, t: nat, app: App, chosen: seq<string>, n: nat)
    requires |chosen| <= n && chosen == Stack(app.node, |chosen|)
    ensures InlineTargets(views, t, app, false, chosen, n) == Ok(Stack(app.node, n))
    decreases n - |chosen|
  {
    if |chosen| < n {
      assert chosen + [app.node] == Stack(app.node, |chosen| + 1);
      InlineStacks(views, t, app, chosen + [app.node], n);
    }
  }

  /**
    Whatever the calls observe, the inline copy and `placeReplicas` agree exactly on the apps that are
    not pinned to "local": `placeReplicas` schedules such an app, while a deploy honours the pin.
  */
  lemma InlineRefinesPlaceReplicas(views: nat -> View, app: App)
    ensures DeployPlan(views, app) == SpreadOver(views, app, app.replicas) <==> app.node != "local"
  {
    var n := Count(app);
    if app.node == "" {
      if PlaceIn(views(0), app, []).Ok? {
        var first := PlaceIn(views(0), app, []).value;
        InlineIsSpread(views, 1, app, first, [first], n);
      }
    } else {
      assert [app.node] == Stack(app.node, 1);
      assert app.(node := app.node) == app;
      InlineStacks(views, 1, app, [app.node], n);
    }
  }

  /** Wherever the inline loop puts a replica beyond the anchor, some view it consulted offered the node. */
  lemma {:induction false} InlineIsOffered(views: nat -> View, t: nat, app: App, chosen: seq<string>, n: nat)
    requires InlineTargets(views, t, app, true, chosen, n).Ok?
    requires |chosen| <= n
    ensures var nodes := InlineTargets(views, t, app, true, chosen, n).value;
      |nodes| == n && chosen <= nodes && forall i | |chosen| <= i < n :: exists k: nat :: Offers(views(k), nodes[i])
    decreases n - |chosen|
  {
    if |chosen| < n {
      match PlaceIn(views(t), app, chosen) {
        case Ok(next) =>
          PlaceInIsOffered(views(t), app, chosen);
          InlineIsOffered(views, t + 1, app, chosen + [next], n);
        case Err(_) =>
          PlaceInIsOffered(views(t + 1), app, []);
          InlineIsOffered(views, t + 2, app, chosen + [PlaceIn(views(t + 1), app, []).value], n);
      }
    }
  }
}
