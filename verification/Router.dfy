/**
  internal/router/router.go: `CaddyRouter` and its commit discipline.  A mutator builds a candidate map,
  applies it, and commits it only when the whole apply succeeded.
*/
module Router {
  import opened Prelude
  import opened Model

  datatype Config = Config(routes: map<string, Route>, staging: map<nat, seq<Upstream>>)

  /** `applyConfig`: Caddy refused the config, or took it, or took it but the file write then failed. */
  datatype Outcome = Applied | Rejected | NotSaved

  class CaddyRouter {
    /** Whether a data directory is configured; without one nothing is written after the POST. */
    const persists: bool
    /** The hypothesis that Caddy takes every config it is sent and every file write succeeds. */
    const steady: bool
    var routes: map<string, Route>
    var staging: map<nat, seq<Upstream>>
    /** What Caddy itself runs. */
    ghost var served: Config

    constructor (persists: bool, steady: bool)
      ensures this.persists == persists && this.steady == steady && routes == map[] && staging == map[] && InStep()
    {
      this.persists, this.steady := persists, steady;
      routes, staging := map[], map[];
      served := Config(map[], map[]);
    }

    ghost function Committed(): Config
      reads this
    {
      Config(routes, staging)
    }

    /** Caddy serves exactly the committed maps. */
    ghost predicate InStep()
      reads this
    {
      served == Committed()
    }

    method ApplyConfig(candidate: Config) returns (o: Outcome)
      modifies this`served
      ensures o == Applied ==> served == candidate
      ensures o == Rejected ==> served == old(served)
      ensures o == NotSaved ==> persists && served == candidate
      ensures steady ==> o == Applied
    {
      var posted: bool := *;
      if !posted && !steady {
        return Rejected;
      }
      served := candidate;
      if persists {
        var written: bool := *;
        if !written && !steady {
          return NotSaved;
        }
      }
      o := Applied;
    }

    /** Success commits the candidate and leaves Caddy in step; failure commits nothing. */
    method SetRoute(r: Route) returns (o: Outcome)
      modifies this`routes, this`served
      ensures routes == if o == Applied then old(routes)[r.domain := r] else old(routes)
      ensures o == Applied ==> InStep()
      ensures o == Rejected ==> served == old(served)
      ensures o == NotSaved ==> persists && served == Config(old(routes)[r.domain := r], staging)
      ensures !persists && old(InStep()) ==> InStep()
      ensures steady ==> o == Applied
    {
      var candidate := routes[r.domain := r];
      o := ApplyConfig(Config(candidate, staging));
      if o == Applied {
        routes := candidate;
      }
    }

    method RemoveRoute(domain: string) returns (o: Outcome)
      modifies this`routes, this`served
      ensures routes == if o == Applied then old(routes) - {domain} else old(routes)
      ensures o == Applied ==> InStep()
      ensures o == Rejected ==> served == old(served)
      ensures o == NotSaved ==> persists && served == Config(old(routes) - {domain}, staging)
      ensures !persists && old(InStep()) ==> InStep()
      ensures steady ==> o == Applied
    {
      var candidate := routes - {domain};
      o := ApplyConfig(Config(candidate, staging));
      if o == Applied {
        routes := candidate;
      }
    }

    method SetStaging(host: nat, upstreams: seq<Upstream>) returns (o: Outcome)
      modifies this`staging, this`served
      ensures staging == if o == Applied then old(staging)[host := upstreams] else old(staging)
      ensures o == Applied ==> InStep()
      ensures o == Rejected ==> served == old(served)
      ensures o == NotSaved ==> persists && served == Config(routes, old(staging)[host := upstreams])
      ensures !persists && old(InStep()) ==> InStep()
      ensures steady ==> o == Applied
    {
      var candidate := staging[host := upstreams];
      o := ApplyConfig(Config(routes, candidate));
      if o == Applied {
        staging := candidate;
      }
    }

    method RemoveStaging(host: nat) returns (o: Outcome)
      modifies this`staging, this`served
      ensures staging == if o == Applied then old(staging) - {host} else old(staging)
      ensures o == Applied ==> InStep()
      ensures o == Rejected ==> served == old(served)
      ensures o == NotSaved ==> persists && served == Config(routes, old(staging) - {host})
      ensures !persists && old(InStep()) ==> InStep()
      ensures steady ==> o == Applied
    {
      var candidate := staging - {host};
      o := ApplyConfig(Config(routes, candidate));
      if o == Applied {
        staging := candidate;
      }
    }

    /** `Reload` re-applies what is committed, which also mends a step lost to a failed write. */
    method Reload() returns (o: Outcome)
      modifies this`served
      ensures o != Rejected ==> InStep()
      ensures o == Rejected ==> served == old(served)
      ensures steady ==> o == Applied
    {
      o := ApplyConfig(Config(routes, staging));
    }

    /** `SeedRoutes`: replaces the committed set without touching Caddy; a later route for a domain wins. */
    method SeedRoutes(list: seq<Route>)
      modifies this`routes
      ensures routes == Keyed(list)
    {
      var m: map<string, Route> := map[];
      for i := 0 to |list|
        invariant m == Keyed(list[..i])
      {
        assert list[..i + 1][..i] == list[..i];
        m := m[list[i].domain := list[i]];
      }
      assert list[..|list|] == list;
      routes := m;
    }
  }

  function Keyed(list: seq<Route>): map<string, Route> {
    if list == [] then map[]
    else Keyed(list[..|list| - 1])[list[|list| - 1].domain := list[|list| - 1]]
  }
}
