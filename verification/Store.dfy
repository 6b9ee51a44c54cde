/**
  internal/store/store.go: the deployments table and the node registry.  Each method is one SQL
  statement; the store never fails in this model.
*/
module Store {
  import opened Prelude
  import opened Schedule
  import opened Model
  import Scheduler

  /** `INSERT ... ON CONFLICT(name) DO UPDATE`: a re-added node keeps its schedulable bit. */
  function Upsert(nodes: map<string, NodeRow>, n: NodeRow): map<string, NodeRow> {
    var pool := if n.pool == "" then "default" else n.pool;
    var schedulable := if n.name in nodes then nodes[n.name].schedulable else true;
    nodes[n.name := n.(pool := pool, schedulable := schedulable)]
  }

  function Cordon(nodes: map<string, NodeRow>, name: string, schedulable: bool): map<string, NodeRow> {
    if name in nodes then nodes[name := nodes[name].(schedulable := schedulable)] else nodes
  }

  // ---------------------------------------------------------------- SELECT DISTINCT app ... ORDER BY app

  ghost predicate Distinct(s: seq<string>) {
    forall i, j | 0 <= i < j < |s| :: s[i] != s[j]
  }

  ghost predicate Ascending(s: seq<string>) {
    forall i, j | 0 <= i < j < |s| :: Scheduler.StringLess(s[i], s[j])
  }

  function Inserted(x: string, s: seq<string>): (r: seq<string>)
    ensures forall y :: y in r <==> y == x || y in s
  {
    if s == [] then [x]
    else if Scheduler.StringLess(x, s[0]) then [x] + s
    else
      assert forall y :: y in s <==> y == s[0] || y in s[1..];
      [s[0]] + Inserted(x, s[1..])
  }

  lemma {:induction false} InsertedAscends(x: string, s: seq<string>)
    requires Ascending(s) && x !in s
    ensures Ascending(Inserted(x, s))
  {
    hide Scheduler.StringLess;
    if s != [] {
      Scheduler.StringLessTotal(x, s[0]);
      if Scheduler.StringLess(x, s[0]) {
        forall j | 0 < j < |s| ensures Scheduler.StringLess(x, s[j]) {
          Scheduler.StringLessTransitive(x, s[0], s[j]);
        }
      } else {
        assert s[0] != x;
        InsertedAscends(x, s[1..]);
        var rest := Inserted(x, s[1..]);
        forall j | 0 <= j < |rest| ensures Scheduler.StringLess(s[0], rest[j]) {
          assert rest[j] in rest;
          if rest[j] != x {
            var k :| 0 <= k < |s[1..]| && s[1..][k] == rest[j];
            assert s[k + 1] == rest[j];
          }
        }
      }
    }
  }

  lemma AscendingIsDistinct(s: seq<string>)
    requires Ascending(s)
    ensures Distinct(s)
  {
    forall i, j | 0 <= i < j < |s| ensures s[i] != s[j] {
      Scheduler.StringLessTotal(s[i], s[j]);
    }
  }

  function AppsOf(rows: seq<Deployment>): seq<string> {
    if rows == [] then []
    else
      var names := AppsOf(rows[..|rows| - 1]);
      if rows[|rows| - 1].app in names then names else Inserted(rows[|rows| - 1].app, names)
  }

  /** Every app with a row is listed, once, in ascending order. */
  lemma {:induction false} AppsOfLists(rows: seq<Deployment>)
    ensures Ascending(AppsOf(rows)) && Distinct(AppsOf(rows))
    ensures forall a :: a in AppsOf(rows) <==> exists i :: 0 <= i < |rows| && rows[i].app == a
  {
    if rows != [] {
      var n := |rows| - 1;
      AppsOfLists(rows[..n]);
      if rows[n].app !in AppsOf(rows[..n]) {
        InsertedAscends(rows[n].app, AppsOf(rows[..n]));
      }
      forall a ensures a in AppsOf(rows) <==> exists i :: 0 <= i < |rows| && rows[i].app == a {
        if i :| 0 <= i < |rows| && rows[i].app == a {
          if i < n { assert rows[..n][i].app == a; }
        }
        if a in AppsOf(rows[..n]) {
          var i :| 0 <= i < n && rows[..n][i].app == a;
          assert rows[i].app == a;
        }
      }
    }
    AscendingIsDistinct(AppsOf(rows));
  }

  class Store {
    var rows: seq<Deployment>
    var nodes: map<string, NodeRow>

    constructor ()
      ensures rows == [] && nodes == map[]
    {
      rows, nodes := [], map[];
    }

    /** The id column is assigned by the table; the caller's value is ignored. */
    method RecordDeployment(d: Deployment) returns (id: nat)
      modifies this`rows
      ensures id == NextId(old(rows)) && rows == old(rows) + [d.(id := id)]
      ensures forall i | 0 <= i < |rows| - 1 :: rows[i].id < id
    {
      MaxIdIsMax(rows);
      id := NextId(rows);
      rows := rows + [d.(id := id)];
    }

    method CurrentDeployment(app: string) returns (d: Option<Deployment>)
      ensures d == Current(rows, app)
    {
      d := Current(rows, app);
    }

    method PreviousDeployment(app: string) returns (d: Option<Deployment>)
      ensures d == Previous(rows, app)
    {
      d := Previous(rows, app);
    }

    method ListApps() returns (apps: seq<string>)
      ensures apps == AppsOf(rows)
    {
      apps := AppsOf(rows);
    }

    /** `COALESCE(MAX(id), 0) + 1`: the least number above every id there is. */
    method NextDeployID() returns (id: nat)
      ensures id == NextId(rows)
      ensures forall i | 0 <= i < |rows| :: rows[i].id < id
      ensures id == 1 || exists i :: 0 <= i < |rows| && rows[i].id == id - 1
    {
      MaxIdIsMax(rows);
      id := NextId(rows);
    }

    method SetStatus(id: nat, status: Status)
      modifies this`rows
      ensures rows == WithStatus(old(rows), id, status)
    {
      rows := WithStatus(rows, id, status);
    }

    method UpdateReplicas(id: nat, replicas: seq<Replica>, cid: Option<nat>)
      modifies this`rows
      ensures rows == WithReplicas(old(rows), id, replicas, cid)
    {
      rows := WithReplicas(rows, id, replicas, cid);
    }

    method AddNode(n: NodeRow)
      modifies this`nodes
      ensures nodes == Upsert(old(nodes), n)
      ensures nodes.Keys == old(nodes).Keys + {n.name}
      ensures forall m | m in old(nodes) && m != n.name :: nodes[m] == old(nodes)[m]
      ensures nodes[n.name] == NodeRow(n.name, n.sshHost, n.mesh, n.agentUrl, nodes[n.name].pool,
        nodes[n.name].schedulable)
      ensures if n.pool == "" then nodes[n.name].pool == "default" else nodes[n.name].pool == n.pool
      ensures nodes[n.name].schedulable <==> (n.name in old(nodes) ==> old(nodes)[n.name].schedulable)
    {
      nodes := Upsert(nodes, n);
    }

    method SetSchedulable(name: string, schedulable: bool)
      modifies this`nodes
      ensures nodes == Cordon(old(nodes), name, schedulable)
      ensures nodes.Keys == old(nodes).Keys && forall m | m in nodes && m != name :: nodes[m] == old(nodes)[m]
      ensures name in nodes ==> nodes[name] == old(nodes)[name].(schedulable := schedulable)
    {
      nodes := Cordon(nodes, name, schedulable);
    }

    method DeleteNode(name: string)
      modifies this`nodes
      ensures nodes == old(nodes) - {name}
    {
      nodes := nodes - {name};
    }
  }
}
