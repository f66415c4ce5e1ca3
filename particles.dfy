/** The falling-star particle effect: a pool of Particle records that an
    update step advances and retires and a respawn step refills in place
    (src/main.cpp:158-171, 962-997, 1019-1034). */
module Particles {
  import opened Vectors

  /** One falling star: the Particle struct. */
  datatype Particle = Particle(
    position: Vec3,
    velocity: Vec3,
    lifetime: real,   // seconds left
    size: real,
    color: Vec4,      // its alpha fades with the lifetime
    active: bool)

  function Min(a: real, b: real): real { if a <= b then a else b }

  function Max(a: real, b: real): real { if a <= b then b else a }

  /** randomFloat(lo, hi), where u stands for rand() / RAND_MAX, a value in
      [0, 1]. The bounds may come in either order: randomFloat(-1, -2)
      yields a value in [-2, -1]. */
  function RandomFloat(lo: real, hi: real, u: real): (v: real)
    requires 0.0 <= u <= 1.0
    ensures Min(lo, hi) <= v <= Max(lo, hi)
    ensures u == 0.0 ==> v == lo
    ensures u == 1.0 ==> v == hi
  {
    Interpolates(lo, hi, u);
    lo + u * (hi - lo)
  }

  lemma Interpolates(lo: real, hi: real, u: real)
    requires 0.0 <= u <= 1.0
    ensures Min(lo, hi) <= lo + u * (hi - lo) <= Max(lo, hi)
  {
    ScaledBetween(u, lo, hi);
    ShiftedBetween(lo, hi, u * (hi - lo));
  }

  /** A fraction u of the width from lo to hi lies between 0 and that
      width. */
  lemma ScaledBetween(u: real, lo: real, hi: real)
    requires 0.0 <= u <= 1.0
    ensures lo <= hi ==> 0.0 <= u * (hi - lo) <= hi - lo
    ensures hi <= lo ==> hi - lo <= u * (hi - lo) <= 0.0
  {
    var w := hi - lo;
    assert w - u * w == (1.0 - u) * w;
    ProductSign(u, w);
    ProductSign(1.0 - u, w);
  }

  /** A non-negative factor keeps the sign of the other. */
  lemma ProductSign(x: real, y: real)
    requires 0.0 <= x
    ensures 0.0 <= y ==> 0.0 <= x * y
    ensures y <= 0.0 ==> x * y <= 0.0
  {
    if y < 0.0 {
      assert x * y == -(x * -y);
    }
  }

  /** Moving from lo by at most the width toward hi stays between them. */
  lemma ShiftedBetween(lo: real, hi: real, d: real)
    requires lo <= hi ==> 0.0 <= d <= hi - lo
    requires hi <= lo ==> hi - lo <= d <= 0.0
    ensures Min(lo, hi) <= lo + d <= Max(lo, hi)
  {
  }

  /** A part d of a non-zero width w, on the same side of zero and no
      larger, is the fraction d / w of it. */
  lemma FractionOfWidth(d: real, w: real)
    requires w != 0.0
    requires 0.0 < w ==> 0.0 <= d <= w
    requires w < 0.0 ==> w <= d <= 0.0
    ensures 0.0 <= d / w <= 1.0 && d / w * w == d
  {
    var q := d / w;
    assert q * w == d;
    if 0.0 < w {
      NonNegFactor(q, w, d);
      NonNegFactor(1.0 - q, w, w - d);
    } else {
      NonNegFactor(q, -w, -d);
      NonNegFactor(1.0 - q, -w, d - w);
    }
  }

  /** A product with a positive factor has the sign of the other factor. */
  lemma NonNegFactor(x: real, c: real, p: real)
    requires 0.0 < c && x * c == p && 0.0 <= p
    ensures 0.0 <= x
  {
    assert x == p / c;
  }

  /** Every value between the bounds is one that randomFloat can return, so
      the ranges below are exactly the values a spawn can produce. */
  lemma RandomFloatCovers(lo: real, hi: real, v: real)
    requires Min(lo, hi) <= v <= Max(lo, hi)
    ensures exists u :: 0.0 <= u <= 1.0 && RandomFloat(lo, hi, u) == v
  {
    if lo == hi {
      assert RandomFloat(lo, hi, 0.0) == v;
    } else {
      var w := hi - lo;
      var u := (v - lo) / w;
      FractionOfWidth(v - lo, w);
      assert RandomFloat(lo, hi, u) == lo + u * w == v;
    }
  }

  /** The six results of rand() / RAND_MAX that one spawn consumes. C++ does
      not fix the order in which the arguments of a glm::vec3 constructor are
      evaluated, so each draw is named after the field it sets rather than
      placed in a stream. */
  datatype Draws = Draws(x: real, y: real, z: real, fall: real, life: real, size: real)
  {
    predicate Valid() {
      && 0.0 <= x <= 1.0 && 0.0 <= y <= 1.0 && 0.0 <= z <= 1.0
      && 0.0 <= fall <= 1.0 && 0.0 <= life <= 1.0 && 0.0 <= size <= 1.0
    }
  }

  const White: Vec4 := Vec4(1.0, 1.0, 1.0, 1.0)

  /** The fade divides the remaining lifetime by this fixed window, whatever
      lifetime the particle was given. */
  const FadeWindow: real := 5.0

  /** initializeParticles draws y in [5, 10]: a spawn with top 5. */
  const InitialTopY: real := 5.0

  /** The state of a particle just (re)initialised below the given top. */
  predicate FreshAt(p: Particle, topY: real) {
    && p.active
    && -5.0 <= p.position.x <= 5.0
    && topY <= p.position.y <= topY + 5.0
    && -5.0 <= p.position.z <= 5.0
    && p.velocity.x == 0.0 && p.velocity.z == 0.0
    && -2.0 <= p.velocity.y <= -1.0
    && 2.0 <= p.lifetime <= 5.0
    && 0.1 <= p.size <= 0.3
    && p.color == White
  }

  /** The particle that initializeParticles builds and respawnParticles
      writes into an inactive slot. */
  function Spawn(d: Draws, topY: real): (p: Particle)
    requires d.Valid()
    ensures FreshAt(p, topY)
  {
    Particle(
      Vec3(RandomFloat(-5.0, 5.0, d.x), RandomFloat(topY, topY + 5.0, d.y), RandomFloat(-5.0, 5.0, d.z)),
      Vec3(0.0, RandomFloat(-1.0, -2.0, d.fall), 0.0),
      RandomFloat(2.0, 5.0, d.life),
      RandomFloat(0.1, 0.3, d.size),
      White,
      true)
  }

  /** Conversely, every particle in the spawn ranges is the result of some
      draws. */
  lemma SpawnCovers(p: Particle, topY: real)
    requires FreshAt(p, topY)
    ensures exists d: Draws :: d.Valid() && Spawn(d, topY) == p
  {
    RandomFloatCovers(-5.0, 5.0, p.position.x);
    var ux :| 0.0 <= ux <= 1.0 && RandomFloat(-5.0, 5.0, ux) == p.position.x;
    RandomFloatCovers(topY, topY + 5.0, p.position.y);
    var uy :| 0.0 <= uy <= 1.0 && RandomFloat(topY, topY + 5.0, uy) == p.position.y;
    RandomFloatCovers(-5.0, 5.0, p.position.z);
    var uz :| 0.0 <= uz <= 1.0 && RandomFloat(-5.0, 5.0, uz) == p.position.z;
    RandomFloatCovers(-1.0, -2.0, p.velocity.y);
    var uf :| 0.0 <= uf <= 1.0 && RandomFloat(-1.0, -2.0, uf) == p.velocity.y;
    RandomFloatCovers(2.0, 5.0, p.lifetime);
    var ul :| 0.0 <= ul <= 1.0 && RandomFloat(2.0, 5.0, ul) == p.lifetime;
    RandomFloatCovers(0.1, 0.3, p.size);
    var us :| 0.0 <= us <= 1.0 && RandomFloat(0.1, 0.3, us) == p.size;
    var d := Draws(ux, uy, uz, uf, ul, us);
    assert Spawn(d, topY) == p;
  }

  /** One particle's share of updateParticles. */
  function Step(p: Particle, dt: real, floorY: real): (q: Particle)
    ensures !p.active ==> q == p
    ensures p.active ==> q.position == Add(p.position, Scale(p.velocity, dt))
    ensures p.active ==> q.lifetime == p.lifetime - dt
    ensures p.active ==> q.color.a == Max(0.0, q.lifetime / FadeWindow)
    ensures p.active ==> (q.active <==> floorY < q.position.y && 0.0 < q.lifetime)
    ensures q.velocity == p.velocity && q.size == p.size
    ensures q.color.r == p.color.r && q.color.g == p.color.g && q.color.b == p.color.b
  {
    if !p.active then p
    else
      var position := Add(p.position, Scale(p.velocity, dt));
      var lifetime := p.lifetime - dt;
      var alpha := if lifetime > 0.0 then lifetime / 5.0 else 0.0;
      var retired := position.y <= floorY || lifetime <= 0.0;
      p.(position := position, lifetime := lifetime, color := p.color.(a := alpha),
         active := if retired then false else p.active)
  }

  /** What every particle satisfies from its creation on, as long as time
      does not run backwards: it is falling, its alpha is a proper opacity,
      and an active particle has time left. */
  predicate WellFormed(p: Particle) {
    && p.velocity.y < 0.0
    && p.lifetime <= FadeWindow
    && 0.0 <= p.color.a <= 1.0
    && (p.active ==> 0.0 < p.lifetime)
  }

  lemma FreshIsWellFormed(p: Particle, topY: real)
    requires FreshAt(p, topY)
    ensures WellFormed(p)
  {
  }

  /** A step with a non-negative time delta keeps a particle well formed,
      and an active particle only falls and only loses time. */
  lemma StepKeepsWellFormed(p: Particle, dt: real, floorY: real)
    requires WellFormed(p) && 0.0 <= dt
    ensures WellFormed(Step(p, dt, floorY))
    ensures Step(p, dt, floorY).position.y <= p.position.y
    ensures Step(p, dt, floorY).lifetime <= p.lifetime
  {
    if p.active {
      assert p.velocity.y * dt <= 0.0;
    }
  }

  /** A particle run through one update per entry of dts. */
  function Steps(p: Particle, dts: seq<real>, floorY: real): Particle
    decreases |dts|
  {
    if dts == [] then p else Steps(Step(p, dts[0], floorY), dts[1..], floorY)
  }

  function Sum(dts: seq<real>): real
    decreases |dts|
  {
    if dts == [] then 0.0 else dts[0] + Sum(dts[1..])
  }

  /** Over any run of updates an inactive particle stays as it is, and a
      particle still active at the end has moved and aged by exactly the
      total time; after at least one update that total is less than the
      lifetime it started with, so it is retired no later than its lifetime
      runs out. */
  lemma {:induction false} StepsAge(p: Particle, dts: seq<real>, floorY: real)
    ensures !p.active ==> Steps(p, dts, floorY) == p
    ensures p.active && Steps(p, dts, floorY).active ==>
      && Steps(p, dts, floorY).lifetime == p.lifetime - Sum(dts)
      && Steps(p, dts, floorY).position == Add(p.position, Scale(p.velocity, Sum(dts)))
    ensures p.active && dts != [] && Steps(p, dts, floorY).active ==> Sum(dts) < p.lifetime
    decreases |dts|
  {
    if dts != [] {
      var q := Step(p, dts[0], floorY);
      StepsAge(q, dts[1..], floorY);
      assert Steps(p, dts, floorY) == Steps(q, dts[1..], floorY);
      if p.active && Steps(p, dts, floorY).active {
        assert q.active;
        assert q.lifetime == p.lifetime - dts[0];
        assert Sum(dts) == dts[0] + Sum(dts[1..]);
        MoveTwice(p.position, p.velocity, dts[0], Sum(dts[1..]));
      }
    }
  }

  /** Moving for d and then for rest seconds is moving for d + rest. */
  lemma MoveTwice(position: Vec3, v: Vec3, d: real, rest: real)
    ensures Add(Add(position, Scale(v, d)), Scale(v, rest)) == Add(position, Scale(v, d + rest))
  {
    assert v.x * d + v.x * rest == v.x * (d + rest);
    assert v.y * d + v.y * rest == v.y * (d + rest);
    assert v.z * d + v.z * rest == v.z * (d + rest);
  }

  /** The particles vector that the update and respawn steps change in
      place. */
  class ParticlePool {
    var particles: seq<Particle>

    predicate AllWellFormed()
      reads this
    {
      forall k :: 0 <= k < |particles| ==> WellFormed(particles[k])
    }

    constructor ()
      ensures particles == []
    {
      particles := [];
    }

    /** initializeParticles: appends numParticles fresh particles (none when
        the count is negative); draws[k] feeds the k-th. */
    method Initialize(numParticles: int, draws: seq<Draws>)
      requires numParticles <= |draws|
      requires forall k :: 0 <= k < |draws| ==> draws[k].Valid()
      modifies this
      ensures |particles| == |old(particles)| + (if numParticles < 0 then 0 else numParticles)
      ensures particles[..|old(particles)|] == old(particles)
      ensures forall k :: |old(particles)| <= k < |particles| ==>
        particles[k] == Spawn(draws[k - |old(particles)|], InitialTopY)
      ensures forall k :: |old(particles)| <= k < |particles| ==> FreshAt(particles[k], InitialTopY)
      ensures old(AllWellFormed()) ==> AllWellFormed()
    {
      var i := 0;
      while i < numParticles
        invariant 0 <= i <= |draws|
        invariant numParticles < 0 ==> i == 0
        invariant 0 <= numParticles ==> i <= numParticles
        invariant |particles| == |old(particles)| + i
        invariant particles[..|old(particles)|] == old(particles)
        invariant forall k :: |old(particles)| <= k < |particles| ==>
          particles[k] == Spawn(draws[k - |old(particles)|], InitialTopY)
      {
        var p := Spawn(draws[i], InitialTopY);
        particles := particles + [p];
        i := i + 1;
      }
      forall k | 0 <= k < |particles|
        ensures old(AllWellFormed()) ==> WellFormed(particles[k])
      {
        if k >= |old(particles)| {
          FreshIsWellFormed(particles[k], InitialTopY);
        } else {
          assert particles[k] == old(particles)[k];
        }
      }
    }

    /** updateParticles: every active particle advances by one step; the
        inactive ones and the length are left as they are. */
    method Update(deltaTime: real, floorY: real)
      modifies this
      ensures |particles| == |old(particles)|
      ensures forall k :: 0 <= k < |particles| ==> particles[k] == Step(old(particles)[k], deltaTime, floorY)
      ensures 0.0 <= deltaTime && old(AllWellFormed()) ==> AllWellFormed()
    {
      for i := 0 to |particles|
        invariant |particles| == |old(particles)|
        invariant forall k :: 0 <= k < i ==> particles[k] == Step(old(particles)[k], deltaTime, floorY)
        invariant forall k :: i <= k < |particles| ==> particles[k] == old(particles)[k]
      {
        var p := particles[i];
        if !p.active {
          continue;
        }
        p := p.(position := Add(p.position, Scale(p.velocity, deltaTime)));
        p := p.(lifetime := p.lifetime - deltaTime);
        p := p.(color := p.color.(a := if p.lifetime > 0.0 then p.lifetime / 5.0 else 0.0));
        if p.position.y <= floorY || p.lifetime <= 0.0 {
          p := p.(active := false);
        }
        particles := particles[i := p];
      }
      if 0.0 <= deltaTime && old(AllWellFormed()) {
        forall k | 0 <= k < |particles|
          ensures WellFormed(particles[k])
        {
          StepKeepsWellFormed(old(particles)[k], deltaTime, floorY);
        }
      }
    }

    /** respawnParticles: every inactive slot is re-initialised below topY
        (draws[k] feeds slot k); active slots are left as they are. */
    method Respawn(topY: real, draws: seq<Draws>)
      requires |draws| == |particles|
      requires forall k :: 0 <= k < |draws| ==> draws[k].Valid()
      modifies this
      ensures |particles| == |old(particles)|
      ensures forall k :: 0 <= k < |particles| ==>
        particles[k] == if old(particles)[k].active then old(particles)[k] else Spawn(draws[k], topY)
      ensures forall k :: 0 <= k < |particles| ==> particles[k].active
      ensures forall k :: 0 <= k < |particles| && !old(particles)[k].active ==> FreshAt(particles[k], topY)
      ensures old(AllWellFormed()) ==> AllWellFormed()
    {
      for i := 0 to |particles|
        invariant |particles| == |old(particles)|
        invariant forall k :: 0 <= k < i ==>
          particles[k] == if old(particles)[k].active then old(particles)[k] else Spawn(draws[k], topY)
        invariant forall k :: i <= k < |particles| ==> particles[k] == old(particles)[k]
      {
        if !particles[i].active {
          particles := particles[i := Spawn(draws[i], topY)];
        }
      }
      forall k | 0 <= k < |particles|
        ensures old(AllWellFormed()) ==> WellFormed(particles[k])
      {
        if !old(particles)[k].active {
          FreshIsWellFormed(particles[k], topY);
        }
      }
    }
  }
}
