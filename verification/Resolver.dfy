/**
  internal/node/resolver.go: the cache of remote nodes, and its coherence with the registry while resolves
  interleave with the API's writers (internal/api/api.go:443-451, 487-495), each of which writes the store
  first and invalidates the cache afterwards.
*/
module Resolver {
  import opened Prelude
  import opened Schedule
  import opened Drain
  import Store

  datatype Transport = Agent | Ssh

  datatype Remote = Remote(mesh: string, dockerHost: string, transport: Transport)

  /** What the registry lookup answered: an error, no such node, or its row. */
  datatype Lookup = Failed | Unknown | Found(row: NodeRow)

  datatype Resolution = LocalNode | RemoteNode(remote: Remote)

  datatype ResolveError = LookupFailed | UnknownNode | ConnectFailed

  function DockerHost(row: NodeRow): string {
    "ssh://" + row.sshHost
  }

  /** What a cached entry owes to the row it was built from; the transport is chosen by pinging. */
  predicate Describes(e: Remote, row: NodeRow) {
    e.mesh == row.mesh && e.dockerHost == DockerHost(row)
  }

  class RegistryResolver {
    var remotes: map<string, Remote>

    constructor ()
      ensures remotes == map[]
    {
      remotes := map[];
    }

    /** `buildTransport`: the agent if it is registered and answers, ssh if that can be built. */
    method BuildTransport(agentUrl: string) returns (t: Option<Transport>)
      ensures t == Some(Agent) ==> agentUrl != ""
    {
      if agentUrl != "" {
        var ping: bool := *;
        if ping {
          return Some(Agent);
        }
      }
      var built: bool := *;
      t := if built then Some(Ssh) else None;
    }

    /** `ResolveMeta`, with the mutex held throughout; `looked` is what the store answers when asked. */
    method ResolveMeta(name: string, looked: Lookup) returns (r: Result<Resolution, ResolveError>)
      modifies this
      ensures name == "" || name == "local" ==> r == Ok(LocalNode) && remotes == old(remotes)
      ensures name != "" && name != "local" && name in old(remotes) ==>
        r == Ok(RemoteNode(old(remotes)[name])) && remotes == old(remotes)
      ensures r.Err? ==> remotes == old(remotes)
      ensures name != "" && name != "local" && name !in old(remotes) && r.Ok? ==>
        && looked.Found? && r.value.RemoteNode? && Describes(r.value.remote, looked.row)
        && remotes == old(remotes)[name := r.value.remote]
    {
      if name == "" || name == "local" {
        return Ok(LocalNode);
      }
      if name in remotes {
        return Ok(RemoteNode(remotes[name]));
      }
      match looked
      case Failed => r := Err(LookupFailed);
      case Unknown => r := Err(UnknownNode);
      case Found(row) =>
        var t := BuildTransport(row.agentUrl);
        if t.None? {
          return Err(ConnectFailed);
        }
        var e := Remote(row.mesh, DockerHost(row), t.value);
        remotes := remotes[name := e];
        r := Ok(RemoteNode(e));
    }

    method Invalidate(name: string)
      modifies this
      ensures remotes == old(remotes) - {name}
    {
      remotes := remotes - {name};
    }
  }

  // ---------------------------------------------------------------- the registry's writers

  datatype NodeError =
    | NameRequired | NameReserved | HostRequired | MeshRequired | MeshInvalid | AgentInvalid | PoolInvalid

  /** The syntax the API demands: of a mesh address, of an agent URL, of a pool name. */
  datatype Syntax = Syntax(mesh: string -> bool, url: string -> bool, pool: string -> bool)

  predicate Complete(row: NodeRow, syntax: Syntax) {
    && row.name != "" && row.name != "local" && row.sshHost != "" && row.mesh != "" && syntax.mesh(row.mesh)
    && (row.agentUrl == "" || syntax.url(row.agentUrl)) && (row.pool == "" || syntax.pool(row.pool))
  }

  /** What placement relies on: neither the empty name nor the local node's is ever registered. */
  predicate NamesOk(registry: map<string, NodeRow>) {
    "" !in registry && "local" !in registry
  }

  /** `handleNodeAdd`: an incomplete, malformed or reserved node is refused; else the store first, then the cache. */
  method AddNode(s: Store.Store, rr: RegistryResolver, row: NodeRow, syntax: Syntax) returns (failed: Option<NodeError>)
    requires NamesOk(s.nodes)
    modifies s`nodes, rr
    ensures NamesOk(s.nodes)
    ensures failed.None? <==> Complete(row, syntax)
    ensures failed.None? ==>
      && s.nodes == Registered(old(s.nodes), Add(row)) && rr.remotes == old(rr.remotes) - {row.name}
      && s.nodes[row.name].mesh == row.mesh
      && (row.name in old(s.nodes) ==> s.nodes[row.name].schedulable == old(s.nodes)[row.name].schedulable)
    ensures failed.Some? ==> s.nodes == old(s.nodes) && rr.remotes == old(rr.remotes)
  {
    if row.name == "" { return Some(NameRequired); }
    if row.name == "local" { return Some(NameReserved); }
    if row.sshHost == "" { return Some(HostRequired); }
    if row.mesh == "" { return Some(MeshRequired); }
    if !syntax.mesh(row.mesh) { return Some(MeshInvalid); }
    if row.agentUrl != "" && !syntax.url(row.agentUrl) { return Some(AgentInvalid); }
    if row.pool != "" && !syntax.pool(row.pool) { return Some(PoolInvalid); }
    s.AddNode(row);
    rr.Invalidate(row.name);
    failed := None;
  }

  /** `handleNodeDelete`. */
  method DeleteNode(s: Store.Store, rr: RegistryResolver, name: string)
    requires NamesOk(s.nodes)
    modifies s`nodes, rr
    ensures NamesOk(s.nodes) && s.nodes == Registered(old(s.nodes), Delete(name))
    ensures rr.remotes == old(rr.remotes) - {name} && name !in s.nodes && name !in rr.remotes
  {
    s.DeleteNode(name);
    rr.Invalidate(name);
  }

  /** A listing of such a registry, one entry a name, is a well-formed view for the scheduler. */
  lemma ListingIsWellFormed(view: View, registry: map<string, NodeRow>)
    requires NamesOk(registry) && Reads(view, registry)
    requires forall i, j | 0 <= i < j < |view.registry| :: view.registry[i].row.name != view.registry[j].row.name
    ensures WellFormed(view)
  {
  }

  // ---------------------------------------------------------------- interleaving

  /** Who holds the mutex: nobody, a resolve about to look `name` up, or one that has read a row. */
  datatype Mutex = Free | Looking(name: string) | Holding(name: string, row: NodeRow)

  /** `pending` counts, per name, the writers that have written the store and not yet invalidated. */
  datatype State = State(registry: map<string, NodeRow>, remotes: map<string, Remote>, mutex: Mutex,
    pending: multiset<string>)

  datatype Action =
    | Write(op: RegistryOp)
    | SetCordon(name: string, schedulable: bool)
    | Evict(name: string)
    | Lock(name: string)
    | Read
    | Fill(remote: Remote)
    | GiveUp

  function Written(op: RegistryOp): string {
    match op
    case Add(row) => row.name
    case SetSchedulable(name, _) => name
    case Delete(name) => name
  }

  /** One atomic step of some thread.  `Evict` is `Invalidate`, which needs the mutex to itself. */
  ghost predicate Acts(s: State, s': State, a: Action) {
    match a
    case Write(op) =>
      !op.SetSchedulable? && s' == s.(registry := Registered(s.registry, op),
        pending := s.pending + multiset{Written(op)})
    case SetCordon(name, schedulable) => s' == s.(registry := Registered(s.registry, SetSchedulable(name, schedulable)))
    case Evict(name) =>
      s.mutex.Free? && name in s.pending &&
        s' == s.(remotes := s.remotes - {name}, pending := s.pending - multiset{name})
    case Lock(name) =>
      s.mutex.Free? && name !in s.remotes && name != "" && name != "local" && s' == s.(mutex := Looking(name))
    case Read =>
      && s.mutex.Looking?
      && s' == s.(mutex := if s.mutex.name in s.registry then Holding(s.mutex.name, s.registry[s.mutex.name]) else Free)
    case Fill(remote) =>
      s.mutex.Holding? && Describes(remote, s.mutex.row) &&
        s' == s.(remotes := s.remotes[s.mutex.name := remote], mutex := Free)
    case GiveUp => !s.mutex.Free? && s' == s.(mutex := Free)
  }

  ghost predicate Interleaving(ss: seq<State>, acts: seq<Action>) {
    |ss| == |acts| + 1 && forall i | 0 <= i < |acts| :: Acts(ss[i], ss[i + 1], acts[i])
  }

  /** `e` is what the registry says of `name` now. */
  predicate Current(s: State, name: string, e: Remote) {
    name in s.registry && Describes(e, s.registry[name])
  }

  /** Every cached entry is current, unless a writer of that name has yet to invalidate. */
  ghost predicate Coherent(s: State) {
    forall name | name in s.remotes && name !in s.pending :: Current(s, name, s.remotes[name])
  }

  /** The same of the row a resolve holds but has not cached yet. */
  ghost predicate Safe(s: State) {
    && Coherent(s)
    && (s.mutex.Holding? && s.mutex.name !in s.pending ==>
          && s.mutex.name in s.registry
          && s.registry[s.mutex.name].mesh == s.mutex.row.mesh &&
            s.registry[s.mutex.name].sshHost == s.mutex.row.sshHost)
  }

  lemma StepIsSafe(s: State, s': State, a: Action)
    requires Safe(s) && Acts(s, s', a)
    ensures Safe(s')
  {
    forall name | name in s'.remotes && name !in s'.pending ensures Current(s', name, s'.remotes[name]) {
      match a
      case Write(op) =>
        assert name != Written(op) && name !in s.pending;
        WriteKeepsOthers(s.registry, op, name);
      case SetCordon(_, _) => assert name !in s.pending;
      case Evict(gone) => assert name !in s.pending;
      case _ =>
    }
    if a.Write? && s.mutex.Holding? && s.mutex.name !in s'.pending {
      assert s.mutex.name != Written(a.op) && s.mutex.name !in s.pending;
      WriteKeepsOthers(s.registry, a.op, s.mutex.name);
    }
  }

  lemma WriteKeepsOthers(registry: map<string, NodeRow>, op: RegistryOp, name: string)
    requires name != Written(op)
    ensures name in Registered(registry, op) <==> name in registry
    ensures name in registry ==> Registered(registry, op)[name] == registry[name]
  {
  }

  /**
    Cache coherence: from an empty cache, after any interleaving of any number of resolves, registry
    writers and cordons, a cached mesh address or docker host differs from the registry row only while
    some writer of that name still owes its invalidation.
  */
  lemma {:induction false} CacheIsCoherent(ss: seq<State>, acts: seq<Action>, i: nat)
    requires Interleaving(ss, acts) && i < |ss|
    requires ss[0].remotes == map[] && ss[0].mutex.Free?
    ensures Safe(ss[i])
  {
    if i > 0 {
      CacheIsCoherent(ss, acts, i - 1);
      StepIsSafe(ss[i - 1], ss[i], acts[i - 1]);
    }
  }

  /** Once every writer has invalidated, the cache holds nothing but current rows. */
  lemma QuiescentCacheIsCurrent(ss: seq<State>, acts: seq<Action>, name: string)
    requires Interleaving(ss, acts) && ss[0].remotes == map[] && ss[0].mutex.Free?
    requires ss[|acts|].pending == multiset{} && name in ss[|acts|].remotes
    ensures Current(ss[|acts|], name, ss[|acts|].remotes[name])
  {
    CacheIsCoherent(ss, acts, |acts|);
  }

  // ---------------------------------------------------------------- why the writer writes first

  /** The same machine with the two halves of a writer the other way round. */
  ghost predicate ActsReversed(s: State, s': State, a: Action) {
    match a
    case Write(op) =>
      && !op.SetSchedulable? && Written(op) in s.pending
      && s' == s.(registry := Registered(s.registry, op), pending := s.pending - multiset{Written(op)})
    case Evict(name) =>
      s.mutex.Free? && s' == s.(remotes := s.remotes - {name}, pending := s.pending + multiset{name})
    case _ => Acts(s, s', a)
  }

  ghost predicate InterleavingReversed(ss: seq<State>, acts: seq<Action>) {
    |ss| == |acts| + 1 && forall i | 0 <= i < |acts| :: ActsReversed(ss[i], ss[i + 1], acts[i])
  }

  /** Invalidate-then-write would leave a stale entry behind with no writer in flight: the order matters. */
  lemma ReversedOrderGoesStale(before: NodeRow, after: NodeRow)
    requires before.name == after.name && before.name != "" && before.name != "local" && before.mesh != after.mesh
    ensures exists ss: seq<State>, acts: seq<Action> ::
      && InterleavingReversed(ss, acts) && ss[0] == State(map[before.name := before], map[], Free, multiset{})
      && ss[|acts|].pending == multiset{} && ss[|acts|].mutex.Free? && !Coherent(ss[|acts|])
  {
    var n, e := before.name, Remote(before.mesh, DockerHost(before), Ssh);
    var s0 := State(map[n := before], map[], Free, multiset{});
    var s1 := s0.(pending := multiset{n});
    var s2 := s1.(mutex := Looking(n));
    var s3 := s2.(mutex := Holding(n, before));
    var s4 := s3.(remotes := map[n := e], mutex := Free);
    var s5 := s4.(registry := Registered(s4.registry, Add(after)), pending := multiset{});
    assert s0.remotes - {n} == s0.remotes;
    assert ActsReversed(s0, s1, Evict(n)) && ActsReversed(s1, s2, Lock(n)) && ActsReversed(s2, s3, Read);
    assert ActsReversed(s3, s4, Fill(e)) && ActsReversed(s4, s5, Write(Add(after)));
    assert !Coherent(s5) by { assert n in s5.remotes && n !in s5.pending && !Current(s5, n, s5.remotes[n]); }
    FiveSteps(s0, s1, s2, s3, s4, s5, Evict(n), Lock(n), Read, Fill(e), Write(Add(after)));
    hide ActsReversed, Coherent, InterleavingReversed;
    var ss, acts := [s0, s1, s2, s3, s4, s5], [Evict(n), Lock(n), Read, Fill(e), Write(Add(after))];
    assert InterleavingReversed(ss, acts) && ss[0] == s0 && ss[|acts|] == s5;
  }

  lemma FiveSteps(s0: State, s1: State, s2: State, s3: State, s4: State, s5: State, a: Action, b: Action, c: Action,
      d: Action, e: Action)
    requires ActsReversed(s0, s1, a) && ActsReversed(s1, s2, b) && ActsReversed(s2, s3, c) && ActsReversed(s3, s4, d)
    requires ActsReversed(s4, s5, e)
    ensures InterleavingReversed([s0, s1, s2, s3, s4, s5], [a, b, c, d, e])
  {
    hide ActsReversed;
    var ss, acts := [s0, s1, s2, s3, s4, s5], [a, b, c, d, e];
    forall i | 0 <= i < |acts| ensures ActsReversed(ss[i], ss[i + 1], acts[i]) {
      if i == 0 {
      } else if i == 1 {
      } else if i == 2 {
      } else if i == 3 {
      }
    }
  }
}
