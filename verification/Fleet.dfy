/**
  The containers on every node, behind internal/node's `Node` and `Resolver` interfaces.  Every call may
  fail; a failed `RunContainer` starts nothing.  Container ids are fresh, and a node is its name.
*/
module Fleet {
  import opened Prelude
  import opened Model

  datatype Started = Started(id: nat, container: Container)

  class Fleet {
    /** The hypothesis that the nodes an operation touches resolve, answer, and carry out removals. */
    const reliable: bool
    /** The hypothesis that every other call succeeds too: images, networks, secrets, starts, health checks. */
    const sound: bool
    var containers: map<nat, Container>
    var nextCid: nat
    /** The containers that have passed a health check. */
    ghost var healthy: set<nat>

    /** The mesh address the resolver usually answers for a node, and what else it may answer at one time or another. */
    const usual: string -> string
    const answers: string -> set<string>

    constructor (reliable: bool, sound: bool, usual: string -> string, answers: string -> set<string>)
      ensures this.reliable == reliable && this.sound == sound && this.usual == usual && this.answers == answers
      ensures containers == map[] && nextCid == 0 && healthy == {}
    {
      this.reliable, this.sound, this.usual, this.answers := reliable, sound, usual, answers;
      containers, nextCid, healthy := map[], 0, {};
    }

    /** `address` is one the resolver gave for `node`; the local node needs none. */
    predicate Resolved(node: string, address: string) {
      if IsLocal(node) then address == "" else address == usual(node) || address in answers(node)
    }

    /** Any call whose only effect here is that it succeeds or fails: networks, images, secrets. */
    method Attempt() returns (ok: bool)
      ensures sound ==> ok
    {
      var done: bool := *;
      ok := sound || done;
    }

    method CheckHealth(id: nat) returns (ok: bool)
      modifies this`healthy
      ensures healthy == if ok then old(healthy) + {id} else old(healthy)
      ensures sound ==> ok
    {
      var passed: bool := *;
      ok := sound || passed;
      if ok {
        healthy := healthy + {id};
      }
    }

    method Reachable(node: string) returns (ok: bool)
      ensures reliable ==> ok
    {
      var answered: bool := *;
      ok := reliable || answered;
    }

    /** `ResolveMeta`: the local node always resolves and has no mesh address. */
    method ResolveMeta(node: string) returns (mesh: Option<string>)
      ensures IsLocal(node) ==> mesh == Some("")
      ensures mesh.Some? ==> Resolved(node, mesh.value)
      ensures reliable ==> mesh.Some?
    {
      if IsLocal(node) {
        return Some("");
      }
      var found: bool, address: string := *, *;
      mesh := if found && address in answers(node) then Some(address)
        else if found || reliable then Some(usual(node))
        else None;
    }

    method RunContainer(node: string, app: string, image: string, name: Host, hostIP: string)
      returns (c: Option<Started>)
      modifies this`containers, this`nextCid
      ensures c.None? ==> containers == old(containers) && nextCid == old(nextCid)
      ensures sound ==> c.Some?
      ensures c.Some? ==>
        && c.value.id == old(nextCid) && nextCid == old(nextCid) + 1
        && containers == old(containers)[c.value.id := c.value.container]
        && c.value.container == Container(node, app, image, name, hostIP, c.value.container.hostPort)
    {
      var ok: bool := *;
      if !ok && !sound {
        return None;
      }
      var port: int := *;
      var started := Container(node, app, image, name, hostIP, port);
      containers := containers[nextCid := started];
      c := Some(Started(nextCid, started));
      nextCid := nextCid + 1;
    }

    /** Removal through `node`'s own handle: it can only take a container that runs there. */
    method RemoveContainer(node: string, id: nat) returns (ok: bool)
      modifies this`containers
      ensures containers == if ok then old(containers) - {id} else old(containers)
      ensures ok ==> id in old(containers) && Normalize(old(containers)[id].node) == Normalize(node)
      ensures reliable && id in old(containers) && Normalize(old(containers)[id].node) == Normalize(node) ==> ok
    {
      var done: bool := *;
      ok := id in containers && Normalize(containers[id].node) == Normalize(node) && (done || reliable);
      if ok {
        containers := containers - {id};
      }
    }

    /** `ListContainers` by app label on one node. */
    method ListContainers(node: string, app: string) returns (ids: Option<set<nat>>)
      ensures sound ==> ids.Some?
      ensures ids.Some? ==> forall id :: id in ids.value <==>
        id in containers && containers[id].app == app && Normalize(containers[id].node) == Normalize(node)
    {
      var ok: bool := *;
      if !ok && !sound {
        return None;
      }
      ids := Some(set id | id in containers && containers[id].app == app &&
        Normalize(containers[id].node) == Normalize(node));
    }
  }
}
