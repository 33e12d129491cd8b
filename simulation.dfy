/**
 The world of the simulation: one rule and one population. A world is built
 from a rule selection and a boid count, and one turn applies the rule to
 every boid index once.
 */
module Simulation {
  import opened Boids
  import BoidRules

  /** The closed menu of rules the program entry point chooses from. */
  datatype Rules = Attract | Avoid

  datatype World = World(rule: BoidRules.Rule, boids: Population)

  /** The `match rule_selection` of `World::a_whole_new_world`. */
  function SelectRule(selection: Rules): (rule: BoidRules.Rule)
    ensures selection.Avoid? <==> rule.Avoid?
    ensures selection.Attract? <==> rule.Attract?
    ensures rule.Avoid? ==> rule.nNearest == 3
  {
    match selection
    case Attract => BoidRules.NewAttract()
    case Avoid => BoidRules.NewAvoid()
  }

  /** `World::a_whole_new_world`: the selected rule over a freshly created population of `nBoids` boids. */
  method AWholeNewWorld(selection: Rules, nBoids: u32, newId: nat -> Uuid) returns (world: World)
    ensures world.rule == SelectRule(selection)
    ensures fresh(world.boids) && world.boids.Valid() && world.boids.nextIx == 0
    ensures world.boids.Size() == nBoids as int
    ensures forall i :: 0 <= i < world.boids.Size() ==>
              world.boids.Get(i).id == newId(i) && world.boids.Get(i).kind == Dumb &&
              world.boids.Get(i).position == Origin && world.boids.Get(i).speed == 0.0
  {
    var rule := SelectRule(selection);
    var boids := new Population.Create(nBoids, newId);
    world := World(rule, boids);
  }

  /** The distances the first `k` calls of `use_on` of one turn ask for, in order, in a population of `n`. */
  function TurnQueries(rule: BoidRules.Rule, k: nat, n: nat): seq<BoidRules.DistanceQuery>
    decreases k
  {
    if k == 0 then [] else TurnQueries(rule, k - 1, n) + BoidRules.RuleQueries(rule, k - 1, n)
  }

  /** Queries are ordered by target, then by the other boid. */
  predicate Before(a: BoidRules.DistanceQuery, b: BoidRules.DistanceQuery)
  {
    a.target < b.target || (a.target == b.target && a.other < b.other)
  }

  /**
   `World::turn`: calls `use_on` of the world's rule once for every index
   `0..size()`, in ascending order, on the same population; returns the
   index of each call and the distances all calls asked for. The world is
   not changed (the source consumes it).
   */
  method Turn(world: World) returns (applied: seq<nat>, queries: seq<BoidRules.DistanceQuery>)
    ensures |applied| == world.boids.Size()
    ensures forall i :: 0 <= i < |applied| ==> applied[i] == i
    ensures queries == TurnQueries(world.rule, world.boids.Size(), world.boids.Size())
  {
    applied, queries := [], [];
    var i := 0;
    while i < world.boids.Size()
      invariant i <= world.boids.Size()
      invariant |applied| == i
      invariant forall j :: 0 <= j < i ==> applied[j] == j
      invariant queries == TurnQueries(world.rule, i, world.boids.Size())
    {
      var q := BoidRules.UseOn(world.rule, i, world.boids);
      applied, queries := applied + [i], queries + q;
      i := i + 1;
    }
  }

  /** Under Avoid, the first `k` calls of a turn ask for `n - 1` distances each. */
  lemma {:induction false} TurnAvoidCount(nNearest: BoidRules.u64, k: nat, n: nat)
    requires k <= n
    decreases k
    ensures |TurnQueries(BoidRules.Avoid(nNearest), k, n)| == k * (n - 1)
  {
    if k > 0 {
      TurnAvoidCount(nNearest, k - 1, n);
      BoidRules.AvoidQueriesCount(n, k - 1);
      assert k * (n - 1) == (k - 1) * (n - 1) + (n - 1);
    }
  }

  /**
   Under Avoid, the first `k` calls of a turn ask for a distance exactly when
   its target is below `k` and its other boid is a different boid of the
   population.
   */
  lemma {:induction false} TurnAvoidPairs(nNearest: BoidRules.u64, k: nat, n: nat)
    requires k <= n
    decreases k
    ensures forall q :: q in TurnQueries(BoidRules.Avoid(nNearest), k, n) <==>
              q.target < k && q.other < n && q.other != q.target
  {
    if k > 0 {
      TurnAvoidPairs(nNearest, k - 1, n);
      BoidRules.AvoidQueriesMembers(n, k - 1);
      var front := TurnQueries(BoidRules.Avoid(nNearest), k - 1, n);
      var back := BoidRules.AvoidQueries(n, k - 1);
      var all := front + back;
      assert TurnQueries(BoidRules.Avoid(nNearest), k, n) == all;
      forall q: BoidRules.DistanceQuery
        ensures q in all <==> q.target < k && q.other < n && q.other != q.target
      {
        assert q in all <==> q in front || q in back;
      }
    }
  }

  /** Under Avoid, every distance the first `k` calls of a turn ask for is to one of the first `k` boids. */
  lemma TurnAvoidTargets(nNearest: BoidRules.u64, k: nat, n: nat)
    requires k <= n
    ensures forall i :: 0 <= i < |TurnQueries(BoidRules.Avoid(nNearest), k, n)| ==>
              TurnQueries(BoidRules.Avoid(nNearest), k, n)[i].target < k
  {
    TurnAvoidPairs(nNearest, k, n);
    var all := TurnQueries(BoidRules.Avoid(nNearest), k, n);
    forall i | 0 <= i < |all|
      ensures all[i].target < k
    {
      assert all[i] in all;
    }
  }

  /**
   Under Avoid, the queries of a turn are ordered by target and then by the
   other boid, so no pair is asked twice.
   */
  lemma {:induction false} TurnAvoidOrdered(nNearest: BoidRules.u64, k: nat, n: nat)
    requires k <= n
    decreases k
    ensures forall a, b :: 0 <= a < b < |TurnQueries(BoidRules.Avoid(nNearest), k, n)| ==>
              Before(TurnQueries(BoidRules.Avoid(nNearest), k, n)[a], TurnQueries(BoidRules.Avoid(nNearest), k, n)[b])
  {
    if k > 0 {
      var front := TurnQueries(BoidRules.Avoid(nNearest), k - 1, n);
      var back := BoidRules.AvoidQueries(n, k - 1);
      TurnAvoidOrdered(nNearest, k - 1, n);
      TurnAvoidTargets(nNearest, k - 1, n);
      BoidRules.AvoidQueriesAscending(n, k - 1);
      var all := front + back;
      assert TurnQueries(BoidRules.Avoid(nNearest), k, n) == all;
      forall a, b | 0 <= a < b < |all|
        ensures Before(all[a], all[b])
      {
        if b >= |front| {
          assert all[b] == back[b - |front|];
          if a >= |front| {
            assert all[a] == back[a - |front|];
          }
        }
      }
    }
  }

  /** The whole Avoid turn: every ordered pair of distinct boids, once each, `n * (n - 1)` in all. */
  lemma AvoidTurnIsAllPairs(nNearest: BoidRules.u64, n: nat)
    ensures |TurnQueries(BoidRules.Avoid(nNearest), n, n)| == n * (n - 1)
    ensures forall q :: q in TurnQueries(BoidRules.Avoid(nNearest), n, n) <==>
              q.target < n && q.other < n && q.other != q.target
    ensures forall a, b :: 0 <= a < b < |TurnQueries(BoidRules.Avoid(nNearest), n, n)| ==>
              Before(TurnQueries(BoidRules.Avoid(nNearest), n, n)[a], TurnQueries(BoidRules.Avoid(nNearest), n, n)[b])
  {
    TurnAvoidCount(nNearest, n, n);
    TurnAvoidPairs(nNearest, n, n);
    TurnAvoidOrdered(nNearest, n, n);
  }

  /** An Attract turn asks for no distance at all. */
  lemma {:induction false} TurnAttractAsksNothing(k: nat, n: nat)
    decreases k
    ensures TurnQueries(BoidRules.Attract, k, n) == []
  {
    if k > 0 {
      TurnAttractAsksNothing(k - 1, n);
    }
  }
}
