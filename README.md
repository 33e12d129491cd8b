# roids, modelled in Dafny

A model of the per-tick core of `roids`, a boids (flocking) simulation. It covers:

- the agents (`Boid`);
- the population that owns them, which has an in-place traversal cursor;
- the two steering rules, Avoid and Attract, behind one `use_on` entry point;
- the world, which pairs one rule with one population and runs a turn.

Modules follow the Rust modules:

- `Boids` (`boids.dfy`) models `mod boid`. It holds the boid value, `Boid::new` and the `Population` class with its `next_ix` cursor.
- `BoidRules` (`boid_rules.dfy`) models `mod boid_rule`. It holds the rules as a closed sum type with one `UseOn` dispatch.
- `Simulation` (`simulation.dfy`) models the `Rules` menu and `World`, with `a_whole_new_world` and `turn`.
- `Wrappers` (`wrappers.dfy`) is Rust's `Option`.

In the source, the only observable effect of a rule is printing. Each `use_on` is therefore modelled as a method that returns the distances it asks for. Each `DistanceQuery(other, target)` stands for one `distance_to` call, and they appear in call order. `Turn` also returns the index of every `use_on` call it makes. This makes the visiting order and the coverage of the sweeps provable without modelling any output.

Identifiers come from a random UUID generator in an external crate. They are an opaque token here, and the generator is a parameter: `newId(k)` is the identifier the k-th `Boid::new` draws.

The model follows the code as written:

- `Avoid::use_on` asks for every distance and never reads `n_nearest`.
- `Population::get` panics on an out-of-range index, so every `use_on` requires its index to be in range.
- Traversal is one-shot. After the end, `next` returns `None` forever.

## Model

| member | source | states |
|---|---|---|
| `Boids.NewBoid` | src/main.rs:62-69 | `Boid::new` gives the boid the identifier it draws, kind `Dumb`, the origin (`Position::default`) as position and speed zero |
| `Boids.BuildBoids` | src/main.rs:86-90 | the push loop of `create` yields exactly `n_boids` boids; the i-th has the i-th drawn id, kind `Dumb`, the origin as position and speed zero |
| `Boids.Population.Create` | src/main.rs:86-95 | a created population has `size() == n_boids`, its cursor at 0, the invariant `next_ix <= len`, and every boid freshly made by `Boid::new` in creation order |
| `Boids.Population.Get` | src/main.rs:97-99 | `get` is defined only for `ix < size()` (the requires stands for the `Vec` index panic) and returns the boid that `next` yields with the cursor at `ix` |
| `Boids.Population.Size` | src/main.rs:101-103 | `size` is the length of the vector: `next` yields a boid at every cursor below it and `None` at it |
| `Boids.Advance` | src/main.rs:111-117 | one step of `next`: it yields iff the cursor is inside the vector, then the boid under the cursor and the cursor one further; otherwise the cursor stays; it keeps `next_ix <= len` |
| `Boids.Population.Next` | src/main.rs:111-117 | while the cursor is inside the vector, returns the boid at the old cursor and advances the cursor by exactly one; at the end, returns `None` and changes nothing; never touches the boids, so `size()` is unchanged; keeps `next_ix <= len` |
| `Boids.RunYieldsRestThenNone` | src/main.rs:107-118 | from any valid cursor, the j-th of k successive `next` calls returns the boid at cursor + j while one exists and `None` afterwards; the cursor stops at the end (one-shot traversal) |
| `Boids.Population.Drain` | src/main.rs:107-118 | k successive `next` calls on the population object return exactly the `Run` items from the old cursor, leave the cursor at `CursorAfter` and never change the boids |
| `Boids.DrainFromStart` | src/main.rs:107-118 | draining from a fresh cursor yields every boid, `get(0) .. get(n-1)` in order, then only `None`, with the cursor left at `size()` |
| `BoidRules.NewAvoid` | src/main.rs:136-141 | `Avoid::new` gives an Avoid rule with `n_nearest == N_NEAREST == 3` |
| `BoidRules.NewAttract` | src/main.rs:163-165 | `Attract::new` gives the Attract rule |
| `BoidRules.AvoidQueriesCount` | src/main.rs:150-156 | the Avoid sweep on target t over `0..n` asks `n - 1` distances when t is one of the boids (none at all for a single boid) |
| `BoidRules.AvoidQueriesMembers` | src/main.rs:150-156 | the Avoid sweep on target t asks for a distance iff it is to t and from an index of the population other than t: every other boid is covered and t itself never is |
| `BoidRules.AvoidQueriesAscending` | src/main.rs:150-156 | every distance of the Avoid sweep is to t, and the other boids are visited in strictly ascending index order, so each is visited exactly once |
| `BoidRules.AvoidUseOn` | src/main.rs:146-157 | `Avoid::use_on` fetches the target (an index out of range is a contract violation), then asks exactly the Avoid sweep's distances without changing the population |
| `BoidRules.AttractUseOn` | src/main.rs:169-171 | `Attract::use_on` requires the target index to be in range and asks for no distance |
| `BoidRules.UseOn` | src/main.rs:125-129 | the rule entry point asks for the distances of the rule it dispatches to, on a population it only reads |
| `Simulation.SelectRule` | src/main.rs:199-202 | `Rules::Avoid` selects Avoid with `n_nearest == 3` (`Avoid::new`), `Rules::Attract` selects Attract, and not the other way round |
| `Simulation.AWholeNewWorld` | src/main.rs:198-207 | a new world holds the selected rule and a fresh population of `n_boids` boids with its cursor at 0; the i-th boid has the i-th drawn id, kind `Dumb`, the origin as position and speed zero |
| `Simulation.Turn` | src/main.rs:221-223 | `turn` calls `use_on` once per index `0..size()` in ascending order on the same population, and the distances asked are those of each call, concatenated in that order |
| `Simulation.TurnAvoidCount` | src/main.rs:221-223 | an Avoid turn over `k` targets in a population of n asks `k * (n - 1)` distances (`n * (n - 1)` for a whole turn) |
| `Simulation.TurnAvoidPairs` | src/main.rs:221-223 | an Avoid turn over the first k targets asks for a distance iff its target is below k and its other boid is a different boid of the population |
| `Simulation.TurnAvoidTargets` | src/main.rs:221-223 | every distance asked by the first k calls of an Avoid turn is to one of the first k boids |
| `Simulation.TurnAvoidOrdered` | src/main.rs:221-223 | the distances of an Avoid turn are asked in order of target and then of the other boid, so no pair is asked twice |
| `Simulation.AvoidTurnIsAllPairs` | src/main.rs:209-224 | a whole Avoid turn asks for every ordered pair of distinct boids exactly once, ordered by target: `n * (n - 1)` queries, i.e. quadratic work per tick |
| `Simulation.TurnAttractAsksNothing` | src/main.rs:168-172 | an Attract turn asks for no distance at all |

## Left out

- `Position::distance_to` and `Boid::distance_to` use `f64` arithmetic and `sqrt`. They are not computed. A distance request is recorded as the pair of indices it is between, and no metric property is claimed.
- Positions and speeds are `f64` in the source. They are carried as `real` values, and no arithmetic is done on them.
- `UUID::new` and `Display for UUID` call an external crate for random v4 UUIDs. The id source is the parameter `newId`, and ids are not proved distinct.
- The `println!` diagnostics of `Avoid::use_on` and `Attract::use_on` are I/O. The model keeps what they reveal about control flow, namely which distances are requested and in what order, but not the printed text.
- `Boid::react_to` is an empty no-op with no caller.
- The commented-out `ThreadPool` block, `World::N_WORKERS` and the `Send` bound on `RuleTrait` are inert concurrency intent that the source never runs.
- `main` is the process driver, with a hard-coded 100,000 boids.
- `Population` derives `Clone`, and `next` returns clones. Boids are values in the model, so a clone is the boid itself.
- The `usize` cursor and indices are unbounded `nat`. Sizes come from a `u32` count, so overflow cannot occur.
- Nearest-k selection, steering vectors and updates from one tick to the next do not exist in the source and are not modelled.
