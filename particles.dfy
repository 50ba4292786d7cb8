/**
 * The sparkle particle system of the splash script: the slot array
 * `particles`, `create_particle`, `update_particles`, `draw_particles`
 * and the capped append the progress bar performs.
 *
 * The array only ever grows: a dead particle's slot is set to null and is
 * never reused, and the cap of `max_particles` applies to the number of
 * slots ever filled.
 */
module Particles {
  import opened Wrappers
  import opened Palette
  import opened Canvas

  /** `max_particles`. */
  const MaxParticles: nat := 20
  /** Life lost per second of `dt`. */
  const DecayRate: real := 0.5
  /** A spawn happens when the spawn draw is below this. */
  const SpawnChance: real := 0.3

  datatype Particle = Particle(x: real, y: real, vx: real, vy: real, life: real, size: real)

  /** One array slot: a particle, or null once it has died. */
  type Slot = Option<Particle>

  /** The five `Math.Random()` results `create_particle` consumes, in call order. */
  datatype Jitter = Jitter(dx: real, dy: real, dvx: real, dvy: real, size: real)
  {
    predicate InRange()
    {
      InUnit(dx) && InUnit(dy) && InUnit(dvx) && InUnit(dvy) && InUnit(size)
    }
  }

  /** The range of `Math.Random()`. */
  predicate InUnit(r: real)
  {
    0.0 <= r < 1.0
  }

  /**
   * A fresh sparkle around (x, y): a full life, a size in [1, 4), a
   * position jittered by up to 50 units across and 25 up or down, and a
   * velocity in [-1, 1) on each axis.
   */
  function CreateParticle(x: real, y: real, j: Jitter): (p: Particle)
    ensures p.life == 1.0
    ensures j.InRange() ==>
      1.0 <= p.size < 4.0 &&
      -50.0 <= p.x - x < 50.0 && -25.0 <= p.y - y < 25.0 &&
      -1.0 <= p.vx < 1.0 && -1.0 <= p.vy < 1.0
  {
    Particle(x + (j.dx - 0.5) * 100.0, y + (j.dy - 0.5) * 50.0,
             (j.dvx - 0.5) * 2.0, (j.dvy - 0.5) * 2.0,
             1.0, j.size * 3.0 + 1.0)
  }

  /** The particle after `dt` seconds: moved along its velocity, its life decayed. */
  function Advance(p: Particle, dt: real): Particle
  {
    p.(x := p.x + p.vx * dt, y := p.y + p.vy * dt, life := p.life - dt * DecayRate)
  }

  /** What `update_particles` does to one slot. */
  function StepSlot(slot: Slot, dt: real): Slot
  {
    match slot
    case None => None
    case Some(p) =>
      var q := Advance(p, dt);
      if q.life <= 0.0 then None else Some(q)
  }

  /** q is p moved and decayed by `dt`, with its velocity and size unchanged. */
  predicate MovedBy(p: Particle, q: Particle, dt: real)
  {
    q.x == p.x + p.vx * dt && q.y == p.y + p.vy * dt &&
    q.vx == p.vx && q.vy == p.vy &&
    q.life == p.life - dt * DecayRate && q.size == p.size
  }

  /** Every particle still in the array has life left. */
  predicate AllLive(s: seq<Slot>)
  {
    forall i :: 0 <= i < |s| && s[i].Some? ==> s[i].value.life > 0.0
  }

  /** The array after `update_particles(dt)`: as long as before, with every remaining particle alive. */
  function Updated(s: seq<Slot>, dt: real): (r: seq<Slot>)
    ensures |r| == |s|
    ensures AllLive(r)
  {
    seq(|s|, i requires 0 <= i < |s| => StepSlot(s[i], dt))
  }

  /**
   * Slot by slot, `update_particles(dt)` leaves null slots null, moves and
   * decays each particle, and nulls it exactly when its new life is at
   * most zero.
   */
  lemma UpdateSlotwise(s: seq<Slot>, dt: real, i: nat)
    requires i < |s|
    ensures s[i].None? ==> Updated(s, dt)[i].None?
    ensures s[i].Some? ==> (Updated(s, dt)[i].None? <==> s[i].value.life - dt * DecayRate <= 0.0)
    ensures Updated(s, dt)[i].Some? ==> s[i].Some? && MovedBy(s[i].value, Updated(s, dt)[i].value, dt)
  {
  }

  /** With every particle alive, a zero-length step changes nothing. */
  lemma UpdateByZeroIsIdentity(s: seq<Slot>)
    requires AllLive(s)
    ensures Updated(s, 0.0) == s
  {
    var r := Updated(s, 0.0);
    forall i | 0 <= i < |s| ensures r[i] == s[i] {
      if s[i].Some? {
        assert r[i] == StepSlot(s[i], 0.0);
      }
    }
  }

  /**
   * The array after a spawn attempt at (x, y): it never shrinks and keeps
   * its slots; it gains exactly one slot, at index `|s|`, holding the new
   * particle, if and only if the draw is below the spawn chance and fewer
   * than `max_particles` slots were ever used; otherwise it is unchanged.
   */
  function SpawnStep(s: seq<Slot>, chance: real, x: real, y: real, j: Jitter): (r: seq<Slot>)
    ensures |s| <= |r| <= |s| + 1 && r[..|s|] == s
    ensures |r| == |s| + 1 <==> chance < SpawnChance && |s| < MaxParticles
    ensures |r| > |s| ==> r[|s|] == Some(CreateParticle(x, y, j))
    ensures |s| <= MaxParticles ==> |r| <= MaxParticles
    ensures AllLive(s) ==> AllLive(r)
  {
    if chance < SpawnChance && |s| < MaxParticles then s + [Some(CreateParticle(x, y, j))] else s
  }

  /** One spawn attempt: its random draw and the draws for the new particle. */
  datatype Attempt = Attempt(chance: real, jitter: Jitter)

  /** The array after several successive spawn attempts at (x, y). */
  function SpawnSeries(s: seq<Slot>, attempts: seq<Attempt>, x: real, y: real): seq<Slot>
    decreases |attempts|
  {
    if attempts == [] then s
    else SpawnSeries(SpawnStep(s, attempts[0].chance, x, y, attempts[0].jitter), attempts[1..], x, y)
  }

  function Min(a: int, b: int): int
  {
    if a <= b then a else b
  }

  /**
   * Attempts that all pass the random draw fill the array up to
   * `max_particles` slots and no further, keeping what was there and
   * adding only live particles; the attempts beyond capacity are ignored.
   */
  lemma {:induction false} SpawnSeriesSaturates(s: seq<Slot>, attempts: seq<Attempt>, x: real, y: real)
    requires |s| <= MaxParticles
    requires forall k :: 0 <= k < |attempts| ==> attempts[k].chance < SpawnChance
    ensures |SpawnSeries(s, attempts, x, y)| == Min(|s| + |attempts|, MaxParticles)
    ensures SpawnSeries(s, attempts, x, y)[..|s|] == s
    ensures forall i :: |s| <= i < |SpawnSeries(s, attempts, x, y)| ==>
      SpawnSeries(s, attempts, x, y)[i].Some? && SpawnSeries(s, attempts, x, y)[i].value.life == 1.0
    decreases |attempts|
  {
    if attempts != [] {
      var s' := SpawnStep(s, attempts[0].chance, x, y, attempts[0].jitter);
      SpawnSeriesSaturates(s', attempts[1..], x, y);
      var r := SpawnSeries(s, attempts, x, y);
      assert r == SpawnSeries(s', attempts[1..], x, y);
      assert r[..|s'|] == s';
      assert r[..|s|] == r[..|s'|][..|s|];
      forall i | |s| <= i < |r| ensures r[i].Some? && r[i].value.life == 1.0 {
        if i < |s'| {
          assert r[i] == r[..|s'|][i] == s'[i];
        }
      }
    }
  }

  /** From an empty array, `MaxParticles + 5` passing attempts leave exactly twenty fresh sparkles of life 1.0. */
  lemma SpawnSaturationFromEmpty(attempts: seq<Attempt>, x: real, y: real)
    requires |attempts| == MaxParticles + 5
    requires forall k :: 0 <= k < |attempts| ==> attempts[k].chance < SpawnChance
    ensures |SpawnSeries([], attempts, x, y)| == MaxParticles
    ensures forall i :: 0 <= i < MaxParticles ==>
      SpawnSeries([], attempts, x, y)[i].Some? && SpawnSeries([], attempts, x, y)[i].value.life == 1.0
  {
    SpawnSeriesSaturates([], attempts, x, y);
  }

  /**
   * Once `max_particles` slots have been used, no spawn attempt adds a
   * particle, whatever the draws, and every later update can only remove
   * particles.
   */
  lemma FullArrayNeverGrows(s: seq<Slot>, dt: real, chance: real, x: real, y: real, j: Jitter)
    requires |s| == MaxParticles
    ensures SpawnStep(Updated(s, dt), chance, x, y, j) == Updated(s, dt)
    ensures forall i :: 0 <= i < |s| && s[i].None? ==> SpawnStep(Updated(s, dt), chance, x, y, j)[i].None?
  {
    var r := Updated(s, dt);
    assert SpawnStep(r, chance, x, y, j)[..|r|] == r;
  }

  /** `draw_particles` renders a slot when it holds a particle with life left. */
  predicate Drawn(slot: Slot)
  {
    slot.Some? && slot.value.life > 0.0
  }

  /** A sparkle: the primary colour at the particle's life as alpha, then a cross of half-length `size * life`. */
  function SparkleEvents(p: Particle, c: Rgba): seq<Event>
  {
    var half := p.size * p.life;
    [SetSource(Rgba(c.r, c.g, c.b, p.life)),
     Line(p.x - half, p.y, p.x + half, p.y, 1.0),
     Line(p.x, p.y - half, p.x, p.y + half, 1.0)]
  }

  function SlotEvents(slot: Slot, c: Rgba): seq<Event>
  {
    if Drawn(slot) then SparkleEvents(slot.value, c) else []
  }

  /** The number of slots `draw_particles` renders. */
  function DrawnCount(s: seq<Slot>): nat
  {
    if s == [] then 0 else DrawnCount(s[..|s| - 1]) + (if Drawn(s[|s| - 1]) then 1 else 0)
  }

  /** The events of `draw_particles`, slot by slot in index order: three for each rendered slot. */
  function LiveEvents(s: seq<Slot>, c: Rgba): (r: seq<Event>)
    ensures |r| == 3 * DrawnCount(s)
  {
    if s == [] then [] else LiveEvents(s[..|s| - 1], c) + SlotEvents(s[|s| - 1], c)
  }

  /** Every event of `draw_particles` belongs to the sparkle of a slot holding a live particle. */
  lemma {:induction false} OnlyLiveParticlesDrawn(s: seq<Slot>, c: Rgba, e: Event)
    requires e in LiveEvents(s, c)
    ensures exists i :: 0 <= i < |s| && Drawn(s[i]) && e in SparkleEvents(s[i].value, c)
    decreases |s|
  {
    var init := s[..|s| - 1];
    if e in LiveEvents(init, c) {
      OnlyLiveParticlesDrawn(init, c, e);
      var i :| 0 <= i < |init| && Drawn(init[i]) && e in SparkleEvents(init[i].value, c);
      assert s[i] == init[i];
    } else {
      assert e in SlotEvents(s[|s| - 1], c);
      assert Drawn(s[|s| - 1]);
    }
  }

  /** Conversely, every slot holding a live particle has its whole sparkle drawn. */
  lemma {:induction false} EveryLiveParticleDrawn(s: seq<Slot>, c: Rgba, i: nat)
    requires i < |s| && Drawn(s[i])
    ensures forall e :: e in SparkleEvents(s[i].value, c) ==> e in LiveEvents(s, c)
    decreases |s|
  {
    var init := s[..|s| - 1];
    if i < |s| - 1 {
      assert init[i] == s[i];
      EveryLiveParticleDrawn(init, c, i);
    }
  }

  /** When every particle is alive, every non-null slot is rendered. */
  lemma {:induction false} AllLiveAllDrawn(s: seq<Slot>)
    requires AllLive(s)
    ensures DrawnCount(s) == |set i | 0 <= i < |s| && s[i].Some?|
    decreases |s|
  {
    if s != [] {
      var init := s[..|s| - 1];
      assert AllLive(init) by {
        forall i | 0 <= i < |init| && init[i].Some? ensures init[i].value.life > 0.0 {
          assert init[i] == s[i];
        }
      }
      AllLiveAllDrawn(init);
      var a := set i | 0 <= i < |init| && init[i].Some?;
      var b := set i | 0 <= i < |s| && s[i].Some?;
      if s[|s| - 1].Some? {
        assert |s| - 1 !in a;
        assert b == a + {|s| - 1};
      } else {
        assert b == a;
      }
    }
  }

  /** The script's `particles` array. */
  class ParticlePool {
    var slots: seq<Slot>

    /** At most `max_particles` slots, and every particle in them has life left. */
    ghost predicate Valid()
      reads this
    {
      |slots| <= MaxParticles && AllLive(slots)
    }

    /** `particles = [];` */
    constructor ()
      ensures Valid() && slots == []
    {
      slots := [];
    }

    /** `update_particles(dt)`: advances every particle in place and nulls the ones that die. */
    method Update(dt: real)
      requires Valid()
      modifies this
      ensures Valid()
      ensures slots == Updated(old(slots), dt)
    {
      ghost var s0 := slots;
      var i := 0;
      while i < |slots|
        invariant 0 <= i <= |slots| == |s0|
        invariant forall k :: 0 <= k < i ==> slots[k] == StepSlot(s0[k], dt)
        invariant forall k :: i <= k < |slots| ==> slots[k] == s0[k]
      {
        var slot := slots[i];
        assert slot == s0[i];
        if slot.Some? {
          var p := slot.value;
          var dx, dy := p.vx * dt, p.vy * dt;
          p := p.(x := p.x + dx);
          p := p.(y := p.y + dy);
          p := p.(life := p.life - dt * DecayRate);
          assert p == Advance(slot.value, dt);
          slots := slots[i := Some(p)];
          if p.life <= 0.0 {
            slots := slots[i := None];
          }
        }
        assert slots[i] == StepSlot(s0[i], dt);
        i := i + 1;
      }
    }

    /** Appends a fresh sparkle at (x, y) when the draw is below 0.3 and fewer than 20 slots are used. */
    method TrySpawn(chance: real, x: real, y: real, j: Jitter)
      requires Valid()
      modifies this
      ensures Valid()
      ensures slots == SpawnStep(old(slots), chance, x, y, j)
    {
      if chance < SpawnChance && |slots| < MaxParticles {
        slots := slots + [Some(CreateParticle(x, y, j))];
      }
    }

    /** `draw_particles()` in primary colour `c`: visits the slots in order and renders the live ones. */
    method Draw(c: Rgba) returns (events: seq<Event>)
      ensures events == LiveEvents(slots, c)
    {
      events := [];
      var i := 0;
      while i < |slots|
        invariant 0 <= i <= |slots|
        invariant events == LiveEvents(slots[..i], c)
      {
        var slot := slots[i];
        assert slots[..i + 1][..i] == slots[..i];
        assert LiveEvents(slots[..i + 1], c) == LiveEvents(slots[..i], c) + SlotEvents(slot, c);
        if slot.Some? && slot.value.life > 0.0 {
          events := events + SparkleEvents(slot.value, c);
        }
        i := i + 1;
      }
      assert slots[..i] == slots;
    }
  }
}
