/**
  Zero downtime: what the worlds between two effects of a deploy, a heal or an evacuation have in common.
*/
module Uptime {
  import opened Prelude
  import opened Schedule
  import opened Model
  import opened Transitions
  import opened Effects
  import opened Runs

  /**
    The route of `d` names only containers that run: each entry is a fresh container that is up, or one
    the route already had and that is still there unless it was missing, or known dead, to begin with.
  */
  ghost predicate Lit(w: World, s: World, d: string, dead: set<nat>) {
    d in s.serving && forall k | 0 <= k < |s.serving[d]| :: LitEntry(w, s, d, s.serving[d][k], dead)
  }

  ghost predicate LitEntry(w: World, s: World, d: string, r: Replica, dead: set<nat>) {
    || (r.cid >= w.nextCid && r.cid in s.containers)
    || (d in w.serving && r in w.serving[d] && (r.cid in w.containers && r.cid !in dead ==> r.cid in s.containers))
  }

  /** A domain the operation may not darken: the one it flips, and every other app's. */
  predicate Watched(d: string, domain: string, owner: string -> string) {
    d == domain || owner(d) != owner(domain)
  }

  lemma LitAtStart(w: World, d: string, dead: set<nat>)
    requires d in w.serving
    ensures Lit(w, w, d, dead)
  {
  }

  lemma LitBefore(w: World, s: World, d: string, lost: set<nat>)
    requires s.serving == w.serving && d in s.serving
    requires forall id | id in w.containers && id !in lost :: id in s.containers
    ensures Lit(w, s, d, lost)
  {
  }

  lemma LitAfter(w: World, s: World, owner: string -> string, domain: string, replicas: seq<Replica>, former: set<nat>,
      d: string)
    requires RoutesOk(w, owner) && After(w, s, domain, replicas, former) && Merges(w, domain, replicas, former)
    requires forall id | id in former && id in w.containers :: w.containers[id].app == owner(domain)
    requires d in s.serving && Watched(d, domain, owner)
    ensures Lit(w, s, d, {})
  {
    forall k | 0 <= k < |s.serving[d]| ensures LitEntry(w, s, d, s.serving[d][k], {}) {
      if d != domain {
        assert OwnEntry(w, w.serving[d][k], owner(d));
      }
    }
  }

  /**
    No committed route goes dark: at every instant of a blue-green operation, on the domain it flips and on
    every other app's, the committed route is a complete before-set or a complete after-set, and no
    container it names is removed before the flip has dropped it.  Only a heal has dead containers to except.
  */
  lemma NeverDark(w: World, owner: string -> string, h0: seq<World>, h: seq<World>, dead: set<nat>, flip: nat,
      domain: string, replicas: seq<Replica>, former: set<nat>, i: nat, d: string)
    requires Inv(w, owner) && BlueGreen(w, h0, h, dead, flip, domain, replicas, former)
    requires Merges(w, domain, replicas, former)
    requires forall id | id in former && id in w.containers :: w.containers[id].app == owner(domain)
    requires |h0| <= i < |h| && d in h[i].serving && Watched(d, domain, owner)
    ensures Lit(w, h[i], d, dead)
    ensures h[i].routes == w.routes || h[i].routes == w.routes[domain := RouteTo(domain, replicas)]
    ensures i >= flip ==> h[i].ahead == None && h[i].caddy == h[i].routes
    ensures Mirrored(h[i]) && h[i].persists == w.persists
  {
    hide TableOk, RowsOk, RoutesOk, ContainersOk, Lit, After, Before, RouteTo, Merges;
    if i < flip {
      assert h[..flip][i] == h[i];
      BeforeIsLit(w, h[i], dead, d);
    } else {
      LitAfter(w, h[i], owner, domain, replicas, former, d);
      LitMore(w, h[i], d, dead);
      AfterRoutes(w, h[i], domain, replicas, former);
    }
  }

  lemma BeforeIsLit(w: World, s: World, lost: set<nat>, d: string)
    requires Before(w, s, lost) && d in s.serving
    ensures Lit(w, s, d, lost) && s.routes == w.routes && Mirrored(s) && s.persists == w.persists
  {
    hide Lit, AheadOk;
    LitBefore(w, s, d, lost);
  }

  // ---------------------------------------------------------------- what Caddy itself runs

  /** `d` had the entry `r` at `w`: the router had committed it, or Caddy ran it all the same. */
  ghost predicate Had(w: World, d: string, r: Replica) {
    (d in w.serving && r in w.serving[d]) || (d in Proxied(w) && r in Proxied(w)[d])
  }

  /** `d` had the entry, and what ran then runs still, unless it was known dead. */
  ghost predicate KeptEntry(w: World, s: World, d: string, r: Replica, dead: set<nat>) {
    Had(w, d, r) && (r.cid in w.containers && r.cid !in dead ==> r.cid in s.containers)
  }

  /** The route that Caddy runs, committed or not, is of containers started since and up, or kept. */
  ghost predicate LitAtCaddy(w: World, s: World, d: string, dead: set<nat>) {
    d in Proxied(s) && forall k | 0 <= k < |Proxied(s)[d]| ::
      var r := Proxied(s)[d][k];
      (r.cid >= w.nextCid && r.cid in s.containers) || KeptEntry(w, s, d, r, dead)
  }

  /** A flip that Caddy took and the router did not commit sends `d` to a container that is gone again. */
  ghost predicate SentToTheGone(w: World, s: World, d: string) {
    && s.ahead.Some? && s.ahead.value.domain == d && s.ahead.value.replicas.Some?
    && var replicas := s.ahead.value.replicas.value;
    exists k :: 0 <= k < |replicas| && replicas[k].cid >= w.nextCid && replicas[k].cid !in s.containers
  }

  /** Nothing but containers started since `w`, if anything, can be missing from the route that Caddy runs. */
  ghost predicate Sent(w: World, s: World, d: string, dead: set<nat>) {
    d in Proxied(s) ==> forall k | 0 <= k < |Proxied(s)[d]| ::
      Proxied(s)[d][k].cid >= w.nextCid || KeptEntry(w, s, d, Proxied(s)[d][k], dead)
  }

  /** The committed routes are those the recorded flips installed. */
  ghost predicate Paired(s: World) {
    s.routes.Keys == s.serving.Keys && forall d | d in s.serving :: s.routes[d] == RouteTo(d, s.serving[d])
  }

  /** `Proxied` is what Caddy runs. */
  lemma CaddyRunsProxied(w: World)
    requires Paired(w) && Mirrored(w)
    ensures w.caddy.Keys == Proxied(w).Keys && forall d | d in w.caddy :: w.caddy[d] == RouteTo(d, Proxied(w)[d])
  {
    hide RouteTo, Begun;
  }

  /** No route, of the router's or of Caddy's, names a container that is yet to be started. */
  lemma HadIsOld(w: World, owner: string -> string, d: string)
    requires RoutesOk(w, owner) && Mirrored(w)
    ensures forall r | Had(w, d, r) :: r.cid < w.nextCid
  {
    hide RouteTo;
    forall r | Had(w, d, r) ensures r.cid < w.nextCid {
      if d in w.serving && r in w.serving[d] {
        var k :| 0 <= k < |w.serving[d]| && w.serving[d][k] == r;
        assert OwnEntry(w, w.serving[d][k], owner(d));
      }
    }
  }

  /** Where the committed route is lit, what Caddy runs is dark exactly if it has been sent to the gone. */
  lemma DarkIffSent(w: World, s: World, owner: string -> string, d: string, dead: set<nat>)
    requires RoutesOk(w, owner) && Mirrored(w) && d in Proxied(s) && Sent(w, s, d, dead)
    requires d in s.serving ==> Lit(w, s, d, dead)
    ensures LitAtCaddy(w, s, d, dead) <==> !SentToTheGone(w, s, d)
  {
    HadIsOld(w, owner, d);
    hide RoutesOk, Mirrored, Had;
    if SentToTheGone(w, s, d) {
      var replicas := s.ahead.value.replicas.value;
      var k :| 0 <= k < |replicas| && replicas[k].cid >= w.nextCid && replicas[k].cid !in s.containers;
      assert !KeptEntry(w, s, d, Proxied(s)[d][k], dead);
    } else if s.ahead.Some? && s.ahead.value.domain == d {
    } else {
      assert Proxied(s)[d] == s.serving[d];
      forall k | 0 <= k < |s.serving[d]|
        ensures var r := s.serving[d][k]; (r.cid >= w.nextCid && r.cid in s.containers) || KeptEntry(w, s, d, r, dead)
      {
        LitIsKept(w, s, d, s.serving[d][k], dead);
      }
    }
  }

  lemma LitIsKept(w: World, s: World, d: string, r: Replica, dead: set<nat>)
    requires LitEntry(w, s, d, r, dead)
    ensures (r.cid >= w.nextCid && r.cid in s.containers) || KeptEntry(w, s, d, r, dead)
  {
    hide Proxied;
  }

  /** Before the flip, and all through an operation that fails. */
  lemma BeforeIsSent(w: World, s: World, lost: set<nat>, d: string)
    requires Before(w, s, lost)
    ensures Sent(w, s, d, lost)
  {
    hide Mirrored;
  }

  /** A committed route that is lit is kept or fresh, and Caddy runs it if it is in step. */
  lemma InStepIsSent(w: World, s: World, d: string, dead: set<nat>)
    requires s.ahead == None && (d in s.serving ==> Lit(w, s, d, dead))
    ensures Sent(w, s, d, dead)
  {
    if d in s.serving {
      forall k | 0 <= k < |s.serving[d]|
        ensures s.serving[d][k].cid >= w.nextCid || KeptEntry(w, s, d, s.serving[d][k], dead) {
        LitIsKept(w, s, d, s.serving[d][k], dead);
      }
    }
  }

  /** It composes. */
  lemma SentOn(w: World, v: World, s: World, d: string)
    requires w.nextCid <= v.nextCid && Sent(v, s, d, {}) && Sent(w, v, d, {}) && (d in v.serving ==> Lit(w, v, d, {}))
    ensures Sent(w, s, d, {})
  {
    hide Proxied;
    if d in Proxied(s) {
      forall k | 0 <= k < |Proxied(s)[d]|
        ensures Proxied(s)[d][k].cid >= w.nextCid || KeptEntry(w, s, d, Proxied(s)[d][k], {}) {
        var r := Proxied(s)[d][k];
        if r.cid < v.nextCid { KeptOn(w, v, s, d, r); }
      }
    }
  }

  lemma KeptOn(w: World, v: World, s: World, d: string, r: Replica)
    requires KeptEntry(v, s, d, r, {}) && Sent(w, v, d, {}) && (d in v.serving ==> Lit(w, v, d, {}))
    ensures r.cid >= w.nextCid || KeptEntry(w, s, d, r, {})
  {
    hide Proxied;
    if d in v.serving && r in v.serving[d] {
      var j :| 0 <= j < |v.serving[d]| && v.serving[d][j] == r;
      assert LitEntry(w, v, d, v.serving[d][j], {});
    } else {
      var j :| 0 <= j < |Proxied(v)[d]| && Proxied(v)[d][j] == r;
      assert r.cid >= w.nextCid || KeptEntry(w, v, d, Proxied(v)[d][j], {});
    }
  }

  /**
    Before the flip, and all through an operation that fails, the route Caddy runs for `d` goes dark exactly
    while Caddy is ahead of the router with a container that has been taken down again: the file write
    after a flip failed, the clean-up ran, and no later config has been taken.  That cannot happen to a
    router that writes no file.
  */
  lemma CaddyDarkIff(w: World, owner: string -> string, h0: seq<World>, h: seq<World>, lost: set<nat>, i: nat,
      d: string)
    requires Inv(w, owner) && Quiet(w, h0, h, lost) && |h0| <= i < |h|
    ensures h[i].caddy.Keys == Proxied(h[i]).Keys
    ensures d in h[i].caddy ==> h[i].caddy[d] == RouteTo(d, Proxied(h[i])[d])
    ensures d in h[i].caddy ==> (LitAtCaddy(w, h[i], d, lost) <==> !SentToTheGone(w, h[i], d))
    ensures !w.persists ==> !SentToTheGone(w, h[i], d)
  {
    var s := h[i];
    assert Before(w, s, lost);
    hide TableOk, RowsOk, RouteTo, OwnEntry, LitAtCaddy, Sent, Lit, Begun, AheadOk;
    CaddyRunsProxied(s);
    BeforeIsSent(w, s, lost, d);
    if d in s.serving { BeforeIsLit(w, s, lost, d); }
    if d in Proxied(s) { DarkIffSent(w, s, owner, d, lost); }
  }

  lemma AfterIsInStep(w: World, s: World, domain: string, replicas: seq<Replica>, former: set<nat>, d: string)
    requires After(w, s, domain, replicas, former) && w.routes.Keys == w.serving.Keys
    ensures s.ahead == None && s.caddy == s.routes && s.routes.Keys == s.serving.Keys && !SentToTheGone(w, s, d)
  {
  }

  /** From the flip on Caddy is in step, and what it runs is lit because what is committed is. */
  lemma InStepIsLit(w: World, s: World, d: string, dead: set<nat>)
    requires Lit(w, s, d, dead) && s.ahead == None
    ensures LitAtCaddy(w, s, d, dead)
  {
    forall k | 0 <= k < |s.serving[d]|
      ensures var r := s.serving[d][k]; (r.cid >= w.nextCid && r.cid in s.containers) || KeptEntry(w, s, d, r, dead)
    {
      LitIsKept(w, s, d, s.serving[d][k], dead);
    }
  }

  lemma LitMore(w: World, s: World, d: string, dead: set<nat>)
    requires Lit(w, s, d, {})
    ensures Lit(w, s, d, dead)
  {
  }

  lemma AfterRoutes(w: World, s: World, domain: string, replicas: seq<Replica>, former: set<nat>)
    requires After(w, s, domain, replicas, former)
    ensures s.routes == w.routes[domain := RouteTo(domain, replicas)] && s.ahead == None && s.caddy == s.routes
    ensures s.persists == w.persists
  {
  }

  /** An in-place update's set is the old one but for the entries it replaces. */
  lemma UpdateMerges(w: World, owner: string -> string, cur: Deployment, idxs: seq<nat>, cs: seq<Container>)
    requires Inv(w, owner) && Current(w.rows, cur.app) == Some(cur)
    requires |idxs| == |cs| && Increasing(idxs) && forall k | 0 <= k < |idxs| :: idxs[k] < |cur.replicas|
    ensures cur.spec.Some?
    ensures Merges(w, cur.spec.value.domain, Patch(cur.replicas, idxs, Replicas(w.nextCid, cs, cur.spec.value.port)),
      CidsAt(cur.replicas, idxs))
  {
    hide TableOk, RowsOk, RoutesOk, ContainersOk, ValidSpec, LatestAt, Patch, CidsAt, Increasing, ReplicaOf;
    CurrentIsLive(w, owner, cur.app);
    var news := Replicas(w.nextCid, cs, cur.spec.value.port);
    forall j | 0 <= j < |cur.replicas|
      ensures var r := Patch(cur.replicas, idxs, news)[j];
        r.cid >= w.nextCid || (r in w.serving[cur.spec.value.domain] && r.cid !in CidsAt(cur.replicas, idxs))
    {
      PatchCases(cur.replicas, idxs, news, j);
      if j !in idxs {
        UnpatchedCid(cur.replicas, idxs, j);
      }
    }
  }

  // ---------------------------------------------------------------- the gap is real

  /** Three effects of a failed move or deploy: its container starts, Caddy alone takes the flip, the container goes. */
  function DarkHistory(w: World, d: string, c: Container): seq<World> {
    var started := w.(containers := w.containers[w.nextCid := c], nextCid := w.nextCid + 1);
    var set_ := [ReplicaOf(w.nextCid, c, 0)];
    var taken := started.(caddy := w.routes[d := RouteTo(d, set_)], ahead := Some(Ahead(d, Some(set_))));
    [started, taken, taken.(containers := w.containers)]
  }

  lemma DarkHistoryIsQuiet(w: World, owner: string -> string, d: string, c: Container)
    requires Inv(w, owner) && w.persists
    ensures Quiet(w, [], DarkHistory(w, d, c), {})
  {
    hide TableOk, RowsOk, RoutesOk, RouteTo, Claimed, ReplicaOf;
    var h := DarkHistory(w, d, c);
    forall i | 0 <= i < 3 ensures Before(w, h[i], {}) {
    }
  }

  /** Whenever the router writes a file, an operation on `d` can fail and leave the route Caddy runs for it dark. */
  lemma CanGoDark(w: World, owner: string -> string, d: string) returns (h: seq<World>, e: Event)
    requires Inv(w, owner) && w.persists
    ensures |h| == 3 && Quiet(w, [], h, {}) && Step(w, h[2], owner, e) && e.Refuse? && Subject(e) == owner(d)
    ensures d in h[2].caddy && SentToTheGone(w, h[2], d) && !LitAtCaddy(w, h[2], d, {})
  {
    var app := owner(d);
    var c := Container("local", app, "", NameOf(app, NextId(w.rows), 1, 0), "", 0);
    h, e := DarkHistory(w, d, c), Refuse(app, {}, [], Trial(1, [0], [c]));
    DarkHistoryIsQuiet(w, owner, d, c);
    EndsDark(w, owner, d, c);
    CaddyDarkIff(w, owner, [], h, {}, 2, d);
  }

  lemma EndsDark(w: World, owner: string -> string, d: string, c: Container)
    requires Inv(w, owner) && w.persists && c.node != "" && c.name == NameOf(owner(d), NextId(w.rows), 1, 0)
    ensures var v := DarkHistory(w, d, c)[2];
      && Step(w, v, owner, Refuse(owner(d), {}, [], Trial(1, [0], [c])))
      && d in v.caddy && SentToTheGone(w, v, d)
  {
    hide TableOk, RowsOk, RoutesOk, RouteTo, Claimed, NameOf, NextId;
    var v := DarkHistory(w, d, c)[2];
    assert v.rows == w.rows + [];
    assert v.ahead.value.replicas.value[0].cid == w.nextCid && w.nextCid !in v.containers;
  }

  /** So what an operation may do to the route of `d` at Caddy before its flip is decided by that alone. */
  lemma GoesDarkIffPersists(w: World, owner: string -> string, d: string)
    requires Inv(w, owner)
    ensures w.persists <==>
      exists h: seq<World>, i: nat :: Quiet(w, [], h, {}) && i < |h| && d in h[i].caddy && !LitAtCaddy(w, h[i], d, {})
  {
    hide Inv, Quiet, LitAtCaddy, SentToTheGone, Step;
    if w.persists {
      var h, e := CanGoDark(w, owner, d);
      assert 2 < |h| && !LitAtCaddy(w, h[2], d, {});
    } else {
      forall h: seq<World>, i: nat | Quiet(w, [], h, {}) && i < |h| && d in h[i].caddy
        ensures LitAtCaddy(w, h[i], d, {}) {
        CaddyDarkIff(w, owner, [], h, {}, i, d);
      }
    }
  }

  /** Uptime composes: lit since `w`, then lit since a later `v`, is lit since `w`. */
  lemma LitOn(w: World, v: World, s: World, d: string)
    requires w.nextCid <= v.nextCid && Lit(v, s, d, {}) && (d in v.serving ==> Lit(w, v, d, {}))
    ensures Lit(w, s, d, {})
  {
    forall k | 0 <= k < |s.serving[d]| ensures LitEntry(w, s, d, s.serving[d][k], {}) {
      assert LitEntry(v, s, d, s.serving[d][k], {});
      if d in v.serving && s.serving[d][k] in v.serving[d] {
        var j :| 0 <= j < |v.serving[d]| && v.serving[d][j] == s.serving[d][k];
        assert LitEntry(w, v, d, v.serving[d][j], {});
      }
    }
  }
}
