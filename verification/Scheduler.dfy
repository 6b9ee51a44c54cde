/**
  The placement engine of internal/scheduler/scheduler.go.

  `Place` filters the candidates in two loops and takes the head of a stable sort.  It is proved
  against `Placed`, and `PlacedIsBest` / `BestIsPlaced` say what that head is: the one candidate
  that no other eligible candidate outranks.
*/
module Scheduler {
  import opened Prelude

  /** CPU figures are float64 in the source; `real` is used here, so rounding and NaN are out. */
  datatype Capacity = Capacity(cores: int, cpuUsed: real, memTotal: int, memAvailable: int, known: bool)

  const ZERO_CAPACITY := Capacity(0, 0.0, 0, 0, false)

  datatype NodeInfo = NodeInfo(name: string, pool: string, reachable: bool, schedulable: bool, cap: Capacity)

  datatype Requirements = Requirements(cpu: real, mem: int)

  datatype PlaceError = NoSchedulableNode | NoCapacity

  // ---------------------------------------------------------------- eligibility

  predicate InPool(c: NodeInfo, pool: string) {
    c.reachable && c.schedulable && c.pool == pool
  }

  predicate Fits(c: NodeInfo, req: Requirements) {
    !c.cap.known
    || (&& (req.mem == 0 || c.cap.memAvailable >= req.mem)
        && (req.cpu == 0.0 || c.cap.cores as real - c.cap.cpuUsed >= req.cpu))
  }

  predicate Eligible(c: NodeInfo, pool: string, req: Requirements) {
    InPool(c, pool) && Fits(c, req)
  }

  function DefaultPool(pool: string): string {
    if pool == "" then "default" else pool
  }

  // ---------------------------------------------------------------- the order

  function FreeMem(c: NodeInfo): int {
    if c.cap.known then c.cap.memAvailable else c.cap.memTotal
  }

  function FreeCpu(c: NodeInfo): real {
    if c.cap.known then c.cap.cores as real - c.cap.cpuUsed else c.cap.cores as real
  }

  /** Go's `<` on strings. */
  predicate StringLess(a: string, b: string) {
    b != "" && (a == "" || a[0] < b[0] || (a[0] == b[0] && StringLess(a[1..], b[1..])))
  }

  /** `a` sorts strictly before `b`: more free memory, then more free CPU, then the smaller name. */
  predicate Outranks(a: NodeInfo, b: NodeInfo) {
    if FreeMem(a) != FreeMem(b) then FreeMem(a) > FreeMem(b)
    else if FreeCpu(a) != FreeCpu(b) then FreeCpu(a) > FreeCpu(b)
    else StringLess(a.name, b.name)
  }

  lemma {:induction false} StringLessTotal(a: string, b: string)
    ensures !(StringLess(a, b) && StringLess(b, a))
    ensures StringLess(a, b) || StringLess(b, a) || a == b
    ensures !StringLess(a, a)
  {
    if a != "" {
      StringLessTotal(a[1..], a[1..]);
      if b != "" {
        StringLessTotal(a[1..], b[1..]);
        assert a == [a[0]] + a[1..] && b == [b[0]] + b[1..];
      }
    }
  }

  lemma {:induction false} StringLessTransitive(a: string, b: string, c: string)
    requires StringLess(a, b) && StringLess(b, c)
    ensures StringLess(a, c)
  {
    if a != "" && a[0] == b[0] && b[0] == c[0] {
      StringLessTransitive(a[1..], b[1..], c[1..]);
    }
  }

  /** Outranking is a strict order, and only candidates of one name are level. */
  lemma OutranksOrder(a: NodeInfo, b: NodeInfo, c: NodeInfo)
    ensures !Outranks(a, a)
    ensures !Outranks(a, b) && !Outranks(b, a) ==> a.name == b.name
    ensures Outranks(a, b) && Outranks(b, c) ==> Outranks(a, c)
    ensures !Outranks(b, a) && !Outranks(c, b) ==> !Outranks(c, a)
  {
    StringLessTotal(a.name, a.name);
    StringLessTotal(a.name, b.name);
    StringLessTotal(b.name, c.name);
    StringLessTotal(a.name, c.name);
    if StringLess(a.name, b.name) && StringLess(b.name, c.name) {
      StringLessTransitive(a.name, b.name, c.name);
    }
    if StringLess(c.name, a.name) {
      if StringLess(a.name, b.name) { StringLessTransitive(c.name, a.name, b.name); }
      if StringLess(b.name, c.name) { StringLessTransitive(b.name, c.name, a.name); }
    }
  }

  // ---------------------------------------------------------------- specification of Place

  /** The candidates the first loop keeps, in their order. */
  function PoolOf(s: seq<NodeInfo>, pool: string): seq<NodeInfo> {
    if s == [] then []
    else PoolOf(s[..|s| - 1], pool) + (if InPool(s[|s| - 1], pool) then [s[|s| - 1]] else [])
  }

  /** The candidates the second loop keeps, in their order. */
  function Fitting(s: seq<NodeInfo>, req: Requirements): seq<NodeInfo> {
    if s == [] then []
    else Fitting(s[..|s| - 1], req) + (if Fits(s[|s| - 1], req) then [s[|s| - 1]] else [])
  }

  /** Insertion that puts `c` behind every entry it does not outrank, so equals keep their order. */
  function Insert(c: NodeInfo, s: seq<NodeInfo>): seq<NodeInfo> {
    if s == [] || !Outranks(c, s[|s| - 1]) then s + [c]
    else Insert(c, s[..|s| - 1]) + [s[|s| - 1]]
  }

  /** The stable sort the source calls. */
  function Ranked(s: seq<NodeInfo>): seq<NodeInfo> {
    if s == [] then [] else Insert(s[|s| - 1], Ranked(s[..|s| - 1]))
  }

  function Placed(s: seq<NodeInfo>, pool: string, req: Requirements): Result<string, PlaceError> {
    var p := DefaultPool(pool);
    var inPool := PoolOf(s, p);
    if inPool == [] then Err(NoSchedulableNode)
    else
      var ranked := Ranked(Fitting(inPool, req));
      if ranked == [] then Err(NoCapacity) else Ok(ranked[0].name)
  }

  // ---------------------------------------------------------------- facts about the parts

  lemma {:induction false} PoolOfMembers(s: seq<NodeInfo>, pool: string)
    ensures forall c :: c in PoolOf(s, pool) <==> c in s && InPool(c, pool)
  {
    if s != [] {
      PoolOfMembers(s[..|s| - 1], pool);
      assert s == s[..|s| - 1] + [s[|s| - 1]];
    }
  }

  lemma {:induction false} FittingMembers(s: seq<NodeInfo>, req: Requirements)
    ensures forall c :: c in Fitting(s, req) <==> c in s && Fits(c, req)
  {
    if s != [] {
      FittingMembers(s[..|s| - 1], req);
      assert s == s[..|s| - 1] + [s[|s| - 1]];
    }
  }

  ghost predicate InRankOrder(s: seq<NodeInfo>) {
    forall i, j | 0 <= i < j < |s| :: !Outranks(s[j], s[i])
  }

  lemma {:induction false} InsertRanks(c: NodeInfo, s: seq<NodeInfo>)
    requires InRankOrder(s)
    ensures InRankOrder(Insert(c, s))
    ensures multiset(Insert(c, s)) == multiset(s) + multiset{c}
  {
    hide Outranks;
    if s == [] || !Outranks(c, s[|s| - 1]) {
      forall i | 0 <= i < |s| ensures !Outranks(c, s[i]) {
        OutranksOrder(s[i], s[|s| - 1], c);
      }
    } else {
      var front, last := s[..|s| - 1], s[|s| - 1];
      InsertRanks(c, front);
      assert s == front + [last];
      var r := Insert(c, front);
      forall i | 0 <= i < |r| ensures !Outranks(last, r[i]) {
        assert r[i] in multiset(r);
        OutranksOrder(c, last, c);
        assert r[i] == c || r[i] in front;
      }
    }
  }

  /** The sort sorts, and it neither loses nor invents a candidate. */
  lemma {:induction false} RankedSorts(s: seq<NodeInfo>)
    ensures InRankOrder(Ranked(s))
    ensures multiset(Ranked(s)) == multiset(s)
    ensures |Ranked(s)| == |s|
    ensures forall c :: c in Ranked(s) <==> c in s
  {
    hide Insert, Outranks;
    if s != [] {
      RankedSorts(s[..|s| - 1]);
      InsertRanks(s[|s| - 1], Ranked(s[..|s| - 1]));
      assert s == s[..|s| - 1] + [s[|s| - 1]];
    }
    assert |multiset(Ranked(s))| == |Ranked(s)| && |multiset(s)| == |s|;
    forall c ensures c in Ranked(s) <==> c in s {
      assert c in Ranked(s) <==> c in multiset(Ranked(s));
      assert c in s <==> c in multiset(s);
    }
  }

  // ---------------------------------------------------------------- what Place promises

  /** `c` is an eligible candidate and no eligible candidate outranks it. */
  ghost predicate IsBest(c: NodeInfo, s: seq<NodeInfo>, pool: string, req: Requirements) {
    && c in s && Eligible(c, pool, req)
    && forall d | d in s && Eligible(d, pool, req) :: !Outranks(d, c)
  }

  /** Success names a best candidate; the two errors tell "nobody is in the pool" from "nobody has room". */
  lemma PlacedIsBest(s: seq<NodeInfo>, pool: string, req: Requirements)
    ensures var p := DefaultPool(pool);
      match Placed(s, pool, req)
      case Ok(name) => exists c :: IsBest(c, s, p, req) && c.name == name
      case Err(NoSchedulableNode) => forall c | c in s :: !InPool(c, p)
      case Err(NoCapacity) => (exists c :: c in s && InPool(c, p)) && forall c | c in s :: !Eligible(c, p, req)
  {
    var p := DefaultPool(pool);
    PoolOfMembers(s, p);
    FittingMembers(PoolOf(s, p), req);
    var fitting := Fitting(PoolOf(s, p), req);
    RankedSorts(fitting);
    if PoolOf(s, p) != [] {
      assert PoolOf(s, p)[0] in s && InPool(PoolOf(s, p)[0], p);
      var ranked := Ranked(fitting);
      if ranked != [] {
        forall d | d in s && Eligible(d, p, req) ensures !Outranks(d, ranked[0]) {
          assert d in ranked;
          OutranksOrder(d, d, d);
        }
        assert IsBest(ranked[0], s, p, req);
      } else {
        forall c | c in s ensures !Eligible(c, p, req) {
          assert c in ranked <==> c in fitting;
        }
      }
    } else {
      forall c | c in s ensures !InPool(c, p) {
        assert c in PoolOf(s, p) <==> c in s && InPool(c, p);
      }
    }
  }

  /** The converse: whichever candidate is best, `Place` answers with its name. */
  lemma BestIsPlaced(c: NodeInfo, s: seq<NodeInfo>, pool: string, req: Requirements)
    requires IsBest(c, s, DefaultPool(pool), req)
    ensures Placed(s, pool, req) == Ok(c.name)
  {
    PlacedIsBest(s, pool, req);
    if Placed(s, pool, req).Ok? {
      var d :| IsBest(d, s, DefaultPool(pool), req) && Ok(d.name) == Placed(s, pool, req);
      OutranksOrder(c, d, c);
    }
  }

  /** The answer depends only on which candidates there are, not on the order they were gathered in. */
  lemma PlacedIgnoresOrder(s: seq<NodeInfo>, t: seq<NodeInfo>, pool: string, req: Requirements)
    requires forall c :: c in s <==> c in t
    ensures Placed(s, pool, req) == Placed(t, pool, req)
  {
    var p := DefaultPool(pool);
    PlacedIsBest(s, pool, req);
    PlacedIsBest(t, pool, req);
    if Placed(s, pool, req).Ok? {
      var c :| IsBest(c, s, p, req) && Ok(c.name) == Placed(s, pool, req);
      assert IsBest(c, t, p, req);
      BestIsPlaced(c, t, pool, req);
    }
  }

  /** internal/scheduler/scheduler.go `Place`. */
  method Place(candidates: seq<NodeInfo>, pool: string, req: Requirements) returns (r: Result<string, PlaceError>)
    ensures r == Placed(candidates, pool, req)
    ensures r.Ok? ==> exists c :: IsBest(c, candidates, DefaultPool(pool), req) && c.name == r.value
    ensures r.Err? ==> forall c | c in candidates :: !Eligible(c, DefaultPool(pool), req)
  {
    hide Fits, InPool, Outranks, Ranked, IsBest;
    var p := if pool == "" then "default" else pool;
    var inPool: seq<NodeInfo> := [];
    for i := 0 to |candidates|
      invariant inPool == PoolOf(candidates[..i], p)
    {
      assert candidates[..i + 1][..i] == candidates[..i];
      if InPool(candidates[i], p) {
        inPool := inPool + [candidates[i]];
      }
    }
    assert candidates[..|candidates|] == candidates;
    PlacedIsBest(candidates, pool, req);
    if |inPool| == 0 {
      return Err(NoSchedulableNode);
    }
    var fitting: seq<NodeInfo> := [];
    for i := 0 to |inPool|
      invariant fitting == Fitting(inPool[..i], req)
    {
      assert inPool[..i + 1][..i] == inPool[..i];
      if Fits(inPool[i], req) {
        fitting := fitting + [inPool[i]];
      }
    }
    assert inPool[..|inPool|] == inPool;
    RankedSorts(fitting);
    if |fitting| == 0 {
      return Err(NoCapacity);
    }
    r := Ok(Ranked(fitting)[0].name);
  }
}
