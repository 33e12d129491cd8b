/**
 The steering rules (`mod boid_rule`). A rule is inspected against one boid of
 the population at a time and only reads the population. The source's only
 observable effect of a rule is diagnostic output, so each `use_on` is modelled
 by the distances it asks for: one `DistanceQuery` per `distance_to` call, in
 call order. The distances themselves are not computed.
 */
module BoidRules {
  import opened Boids

  /** Rust's `u64`, the type of `Avoid::n_nearest`. */
  newtype u64 = x: int | 0 <= x < 0x1_0000_0000_0000_0000

  /** `Avoid::N_NEAREST`. */
  const N_NEAREST: u64 := 3

  /** The rule implementations behind `dyn RuleTrait`, as a closed sum. */
  datatype Rule = Avoid(nNearest: u64) | Attract

  /** `Avoid::new`. */
  function NewAvoid(): (rule: Rule)
    ensures rule.Avoid? && rule.nNearest == 3
  {
    Avoid(N_NEAREST)
  }

  /** `Attract::new`. */
  function NewAttract(): (rule: Rule)
    ensures rule.Attract?
  {
    Attract
  }

  /** The distance from the boid at index `other` to the boid at index `target`. */
  datatype DistanceQuery = DistanceQuery(other: nat, target: nat)

  /** The distances `Avoid::use_on` asks for on `target` while sweeping the indices `0..n`. */
  function AvoidQueries(n: nat, target: nat): seq<DistanceQuery>
    decreases n
  {
    if n == 0 then []
    else AvoidQueries(n - 1, target) + (if n - 1 != target then [DistanceQuery(n - 1, target)] else [])
  }

  /** The distances a call of `use_on` of `rule` on `target` asks for in a population of `n` boids. */
  function RuleQueries(rule: Rule, target: nat, n: nat): seq<DistanceQuery>
  {
    match rule
    case Avoid(_) => AvoidQueries(n, target)
    case Attract => []
  }

  /** The Avoid sweep over `0..n` asks `n - 1` distances when the target is one of the boids, `n` otherwise. */
  lemma {:induction false} AvoidQueriesCount(n: nat, target: nat)
    decreases n
    ensures |AvoidQueries(n, target)| == if target < n then n - 1 else n
  {
    if n > 0 {
      AvoidQueriesCount(n - 1, target);
    }
  }

  /**
   The Avoid sweep over `0..n` asks for a distance exactly when it is to the
   target and from an index below `n` other than the target.
   */
  lemma {:induction false} AvoidQueriesMembers(n: nat, target: nat)
    decreases n
    ensures forall q :: q in AvoidQueries(n, target) <==>
              q.target == target && q.other < n && q.other != target
  {
    if n > 0 {
      AvoidQueriesMembers(n - 1, target);
      forall q: DistanceQuery | q.target == target && q.other == n - 1 && q.other != target
        ensures q in AvoidQueries(n, target)
      {
        assert q == DistanceQuery(n - 1, target);
      }
    }
  }

  /**
   Every distance of the Avoid sweep is to the target, and the sweep visits the
   other boids in strictly ascending index order, so each one once.
   */
  lemma {:induction false} AvoidQueriesAscending(n: nat, target: nat)
    decreases n
    ensures forall k :: 0 <= k < |AvoidQueries(n, target)| ==>
              AvoidQueries(n, target)[k].target == target && AvoidQueries(n, target)[k].other < n
    ensures forall k, l :: 0 <= k < l < |AvoidQueries(n, target)| ==>
              AvoidQueries(n, target)[k].other < AvoidQueries(n, target)[l].other
  {
    if n > 0 {
      AvoidQueriesAscending(n - 1, target);
    }
  }

  /**
   `Avoid::use_on`: the target is fetched first (an index out of range is a
   contract violation), then every other index of the population, in
   ascending order, is asked for its distance to the target.
   */
  method AvoidUseOn(nNearest: u64, boidIx: nat, pop: Population) returns (queries: seq<DistanceQuery>)
    requires boidIx < pop.Size()
    ensures queries == AvoidQueries(pop.Size(), boidIx)
  {
    var targetBoid := pop.Get(boidIx);
    queries := [];
    var ix := 0;
    while ix < pop.Size()
      invariant ix <= pop.Size()
      invariant queries == AvoidQueries(ix, boidIx)
    {
      if ix != boidIx {
        var boid := pop.Get(ix);
        queries := queries + [DistanceQuery(ix, boidIx)];
      }
      ix := ix + 1;
    }
  }

  /** `Attract::use_on`: fetches the target (same contract on the index) and asks for no distance. */
  method AttractUseOn(boidIx: nat, pop: Population) returns (queries: seq<DistanceQuery>)
    requires boidIx < pop.Size()
    ensures queries == []
  {
    var targetBoid := pop.Get(boidIx);
    queries := [];
  }

  /** `BoidRule::use_on`, dispatched on the rule. */
  method UseOn(rule: Rule, boidIx: nat, pop: Population) returns (queries: seq<DistanceQuery>)
    requires boidIx < pop.Size()
    ensures queries == RuleQueries(rule, boidIx, pop.Size())
  {
    match rule
    case Avoid(nNearest) =>
      queries := AvoidUseOn(nNearest, boidIx, pop);
    case Attract =>
      queries := AttractUseOn(boidIx, pop);
  }
}
