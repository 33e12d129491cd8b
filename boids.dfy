/**
 The agents of the simulation and the container that owns them (`mod boid`).

 A boid is a value: an identifier, a kind, a position and a speed. The
 population owns an ordered vector of boids and a traversal cursor that
 `Iterator::next` advances in place, so it is a class.
 */
module Boids {
  import opened Wrappers

  /** Rust's `u32`, the type of the boid count handed to `Population::create`. */
  newtype u32 = x: int | 0 <= x < 0x1_0000_0000

  /**
   An agent identifier. The source draws random version-4 UUIDs from an
   external crate; here an identifier is an opaque token, only compared for
   equality.
   */
  datatype Uuid = Uuid(token: nat)

  datatype BoidKind = Dumb

  /** The source's coordinates are `f64`; the model carries them as values and computes nothing with them. */
  datatype Position = Position(x: real, y: real)

  /** `Position::default`. */
  const Origin: Position := Position(0.0, 0.0)

  datatype Boid = Boid(id: Uuid, kind: BoidKind, position: Position, speed: real)

  /** `Boid::new`: the given fresh identifier, the only kind, at the origin, at rest. */
  function NewBoid(id: Uuid): (b: Boid)
    ensures b.id == id && b.kind == Dumb
    ensures b.position == Origin && b.speed == 0.0
  {
    Boid(id, Dumb, Origin, 0.0)
  }

  /**
   The `for _ in 0..n_boids { boids.push(Boid::new()) }` loop of
   `Population::create`. `newId(k)` is the identifier the k-th call of
   `Boid::new` draws.
   */
  method BuildBoids(nBoids: u32, newId: nat -> Uuid) returns (boids: seq<Boid>)
    ensures |boids| == nBoids as int
    ensures forall i :: 0 <= i < |boids| ==>
              boids[i].id == newId(i) && boids[i].kind == Dumb &&
              boids[i].position == Origin && boids[i].speed == 0.0
  {
    boids := [];
    var k := 0;
    while k < nBoids as int
      invariant k <= nBoids as int
      invariant |boids| == k
      invariant forall i :: 0 <= i < k ==> boids[i] == NewBoid(newId(i))
    {
      boids := boids + [NewBoid(newId(k))];
      k := k + 1;
    }
  }

  /**
   One call of `Iterator::next` with the cursor at `ix`: the boid under the
   cursor together with the advanced cursor, or nothing with the cursor left
   where it was.
   */
  function Advance(boids: seq<Boid>, ix: nat): (step: (Option<Boid>, nat))
    ensures ix <= |boids| ==> step.1 <= |boids|
    ensures step.0.Some? <==> ix < |boids|
    ensures step.0.Some? ==> step.0.value == boids[ix] && step.1 == ix + 1
    ensures step.0.None? ==> step.1 == ix
  {
    if ix < |boids| then (Some(boids[ix]), ix + 1) else (None, ix)
  }

  /** What `k` successive calls of `next` return, starting with the cursor at `ix`. */
  function Run(boids: seq<Boid>, ix: nat, k: nat): seq<Option<Boid>>
    decreases k
  {
    if k == 0 then [] else [Advance(boids, ix).0] + Run(boids, Advance(boids, ix).1, k - 1)
  }

  /** Where the cursor stands after `k` successive calls of `next` from `ix`. */
  function CursorAfter(boids: seq<Boid>, ix: nat, k: nat): nat
    decreases k
  {
    if k == 0 then ix else CursorAfter(boids, Advance(boids, ix).1, k - 1)
  }

  /**
   Traversal is one-shot and in insertion order: from cursor `ix`, the j-th
   call of `next` returns the boid at `ix + j` while there is one, and `None`
   from then on; the cursor stops at the end of the vector.
   */
  lemma {:induction false} RunYieldsRestThenNone(boids: seq<Boid>, ix: nat, k: nat)
    requires ix <= |boids|
    decreases k
    ensures |Run(boids, ix, k)| == k
    ensures forall j :: 0 <= j < k ==>
              Run(boids, ix, k)[j] == if ix + j < |boids| then Some(boids[ix + j]) else None
    ensures CursorAfter(boids, ix, k) == if ix + k <= |boids| then ix + k else |boids|
  {
    if k > 0 {
      var ix' := Advance(boids, ix).1;
      RunYieldsRestThenNone(boids, ix', k - 1);
      var rest := Run(boids, ix', k - 1);
      assert Run(boids, ix, k) == [Advance(boids, ix).0] + rest;
      forall j | 0 <= j < k
        ensures Run(boids, ix, k)[j] == if ix + j < |boids| then Some(boids[ix + j]) else None
      {
        if j > 0 {
          assert Run(boids, ix, k)[j] == rest[j - 1];
        }
      }
    }
  }

  /**
   Draining a population from a fresh cursor: the first `|boids|` calls of
   `next` return every boid in order, each further call returns `None`.
   */
  lemma DrainFromStart(boids: seq<Boid>, extra: nat)
    ensures |Run(boids, 0, |boids| + extra)| == |boids| + extra
    ensures forall j :: 0 <= j < |boids| + extra ==>
              Run(boids, 0, |boids| + extra)[j] == if j < |boids| then Some(boids[j]) else None
    ensures CursorAfter(boids, 0, |boids| + extra) == |boids|
  {
    RunYieldsRestThenNone(boids, 0, |boids| + extra);
  }

  class Population {
    var nextIx: nat
    var boids: seq<Boid>

    /** The cursor never passes the end of the vector. */
    ghost predicate Valid()
      reads this
    {
      nextIx <= |boids|
    }

    /** `Population::create`: `nBoids` fresh boids in creation order, cursor at the start. */
    constructor Create(nBoids: u32, newId: nat -> Uuid)
      ensures Valid() && nextIx == 0
      ensures Size() == nBoids as int
      ensures forall i :: 0 <= i < Size() ==>
                Get(i).id == newId(i) && Get(i).kind == Dumb &&
                Get(i).position == Origin && Get(i).speed == 0.0
    {
      var created := BuildBoids(nBoids, newId);
      nextIx := 0;
      boids := created;
    }

    /** `get`: indexed access; an index out of range is a contract violation (a panic in the source). */
    function Get(ix: nat): (b: Boid)
      reads this
      requires ix < |boids|
      ensures Advance(boids, ix).0 == Some(b)
    {
      boids[ix]
    }

    /** The number of boids, which is where `next` stops yielding. */
    function Size(): (n: nat)
      reads this
      ensures Advance(boids, n).0 == None
      ensures forall ix: nat :: ix < n ==> Advance(boids, ix).0.Some?
    {
      |boids|
    }

    /**
     `Iterator::next`: while the cursor is inside the vector, the boid under it
     and the cursor moves by one; afterwards `None` and nothing changes. The
     boids themselves are never touched.
     */
    method Next() returns (r: Option<Boid>)
      requires Valid()
      modifies this`nextIx
      ensures Valid() && Size() == old(Size())
      ensures (r, nextIx) == Advance(boids, old(nextIx))
      ensures old(nextIx) < Size() ==> r == Some(Get(old(nextIx))) && nextIx == old(nextIx) + 1
      ensures old(nextIx) == Size() ==> r == None && nextIx == old(nextIx)
    {
      if nextIx < |boids| {
        var nextBoid := boids[nextIx];
        nextIx := nextIx + 1;
        return Some(nextBoid);
      }
      return None;
    }

    /**
     `k` successive calls of `next`, as a `for` loop over the population
     makes them: the items are those of `Run` from the old cursor, and the
     cursor ends where `CursorAfter` puts it.
     */
    method Drain(k: nat) returns (items: seq<Option<Boid>>)
      requires Valid()
      modifies this`nextIx
      ensures Valid() && Size() == old(Size())
      ensures items == Run(boids, old(nextIx), k)
      ensures nextIx == CursorAfter(boids, old(nextIx), k)
    {
      items := [];
      var i := 0;
      while i < k
        invariant i <= k && Valid()
        invariant Run(boids, old(nextIx), k) == items + Run(boids, nextIx, k - i)
        invariant CursorAfter(boids, old(nextIx), k) == CursorAfter(boids, nextIx, k - i)
      {
        var item := Next();
        items := items + [item];
        i := i + 1;
      }
    }
  }
}
