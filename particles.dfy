/**
 * The particle field of client/src/lib/ParticleSystem.ts: smoothed scale and
 * rotation, the configured shape and count, and the two flat Float32Array
 * buffers `positions` and `velocities` (three slots per particle).
 *
 * Float32 rounding is not modelled: every slot holds a `real`.  The shape
 * generators' trigonometry and Math.random draws are folded into a `Sampler`
 * handed to each operation that generates particles.
 */
module Particles {
  import opened Numeric

  const ScaleMin: real := 0.5
  const ScaleMax: real := 2.0
  /** Fraction of the remaining distance covered by one `update`. */
  const Smoothing: real := 0.1
  /** Downward pull subtracted, times dt, from each z velocity per firework tick. */
  const Gravity: real := 0.5

  /** The five generators of `generateParticleShape`. */
  datatype Family = Sphere | Heart | Flower | Firework | Nebula

  /** The `switch` of `generateParticleShape`: an unknown name falls back to the sphere. */
  function FamilyOf(shape: string): (f: Family)
    ensures f == Firework <==> shape == "firework"
  {
    match shape
    case "sphere" => Sphere
    case "heart" => Heart
    case "flower" => Flower
    case "firework" => Firework
    case "nebula" => Nebula
    case _ => Sphere
  }

  /** Each of the five names selects its own generator; every other name selects the sphere. */
  lemma FamilyOfNames(shape: string)
    ensures FamilyOf(shape) == Firework <==> shape == "firework"
    ensures FamilyOf(shape) == Heart <==> shape == "heart"
    ensures FamilyOf(shape) == Flower <==> shape == "flower"
    ensures FamilyOf(shape) == Nebula <==> shape == "nebula"
    ensures shape !in ["heart", "flower", "firework", "nebula"] ==> FamilyOf(shape) == Sphere
  {
  }

  datatype Vec3 = Vec3(x: real, y: real, z: real) {
    /** Component `k` of the triple, in buffer order x, y, z. */
    function At(k: nat): real
      requires k < 3
    {
      if k == 0 then x else if k == 1 then y else z
    }
  }

  /** What one generator call produces: a position and, for the firework, a velocity. */
  datatype Particle = Particle(pos: Vec3, vel: Vec3)

  /**
   * One generation pass's values: the particle a family's generator produces
   * when called with `index` and `total`.  It stands for the generator's
   * trigonometry and for the random draws of that pass.
   */
  type Sampler = (Family, nat, nat) -> Particle

  /** A zero-filled buffer, as `new Float32Array(n)` allocates it. */
  function Zeros(n: nat): (z: seq<real>)
    ensures |z| == n && forall j :: 0 <= j < n ==> z[j] == 0.0
  {
    seq(n, _ => 0.0)
  }

  // ---------------------------------------------------------------------------
  // Buffer writes

  /** A typed-array store: a write at or past the end is dropped. */
  function Store(s: seq<real>, j: nat, x: real): (r: seq<real>)
    ensures |r| == |s|
  {
    if j < |s| then s[j := x] else s
  }

  /** A store changes slot j only, and a store at or past the end changes nothing. */
  lemma StoreAt(s: seq<real>, j: nat, x: real, m: nat)
    requires m < |s|
    ensures Store(s, j, x)[m] == if m == j then x else s[m]
    ensures |s| <= j ==> Store(s, j, x) == s
  {
  }

  /** The three stores `s[j] = v.x; s[j+1] = v.y; s[j+2] = v.z`. */
  function StoreTriple(s: seq<real>, j: nat, v: Vec3): (r: seq<real>)
    ensures |r| == |s|
  {
    Store(Store(Store(s, j, v.x), j + 1, v.y), j + 2, v.z)
  }

  lemma StoreTripleAt(s: seq<real>, j: nat, v: Vec3, m: nat)
    requires m < |s|
    ensures StoreTriple(s, j, v)[m] == if j <= m < j + 3 then v.At(m - j) else s[m]
  {
    var s1 := Store(s, j, v.x);
    var s2 := Store(s1, j + 1, v.y);
    StoreAt(s, j, v.x, m);
    StoreAt(s1, j + 1, v.y, m);
    StoreAt(s2, j + 2, v.z, m);
  }

  /**
   * Positions after the loop of `generateParticleShape` has handled particles
   * 0 .. n-1: particle i's generator gets `index = 3*i` and writes its triple there.
   */
  function Placed(p: seq<real>, fam: Family, n: nat, total: nat, sample: Sampler): (r: seq<real>)
    ensures |r| == |p|
  {
    if n == 0 then p
    else StoreTriple(Placed(p, fam, n - 1, total, sample), 3 * (n - 1), sample(fam, 3 * (n - 1), total).pos)
  }

  /**
   * Velocities after the same loop.  Only the firework generator writes them,
   * and it writes at `index * 3`, which is 9*i for particle i; stores at or past
   * the end are dropped.
   */
  function Launched(v: seq<real>, fam: Family, n: nat, total: nat, sample: Sampler): (r: seq<real>)
    ensures |r| == |v|
    ensures fam != Firework ==> r == v
  {
    if n == 0 || fam != Firework then v
    else StoreTriple(Launched(v, fam, n - 1, total, sample), 9 * (n - 1), sample(Firework, 3 * (n - 1), total).vel)
  }

  /** Slot k of particle i (i < n) holds component k of the position its generator produced. */
  lemma {:induction false} PlacedAt(p: seq<real>, fam: Family, n: nat, total: nat, sample: Sampler, i: nat, k: nat)
    requires i < n && k < 3 && 3 * i + k < |p|
    ensures Placed(p, fam, n, total, sample)[3 * i + k] == sample(fam, 3 * i, total).pos.At(k)
  {
    var prev := Placed(p, fam, n - 1, total, sample);
    StoreTripleAt(prev, 3 * (n - 1), sample(fam, 3 * (n - 1), total).pos, 3 * i + k);
    if i < n - 1 {
      PlacedAt(p, fam, n - 1, total, sample, i, k);
    }
  }

  /** Nothing at or beyond slot 3*n is written. */
  lemma {:induction false} PlacedBeyond(p: seq<real>, fam: Family, n: nat, total: nat, sample: Sampler, j: nat)
    requires 3 * n <= j < |p|
    ensures Placed(p, fam, n, total, sample)[j] == p[j]
  {
    if n > 0 {
      var prev := Placed(p, fam, n - 1, total, sample);
      StoreTripleAt(prev, 3 * (n - 1), sample(fam, 3 * (n - 1), total).pos, j);
      PlacedBeyond(p, fam, n - 1, total, sample, j);
    }
  }

  /**
   * A full pass over a buffer of 3*total slots overwrites every slot: the
   * result does not depend on what the buffer held before.
   */
  lemma PlacedReplacesAll(p: seq<real>, q: seq<real>, fam: Family, total: nat, sample: Sampler)
    requires |p| == |q| == 3 * total
    ensures Placed(p, fam, total, total, sample) == Placed(q, fam, total, total, sample)
  {
    var a, b := Placed(p, fam, total, total, sample), Placed(q, fam, total, total, sample);
    forall j | 0 <= j < 3 * total
      ensures a[j] == b[j]
    {
      var i, k := j / 3, j % 3;
      assert 3 * i + k == j && i < total && k < 3;
      PlacedAt(p, fam, total, total, sample, i, k);
      PlacedAt(q, fam, total, total, sample, i, k);
    }
    assert a == b;
  }

  /** The firework velocity of particle i (i < n) lands at slots 9i .. 9i+2 when they exist. */
  lemma {:induction false} LaunchedAt(v: seq<real>, n: nat, total: nat, sample: Sampler, i: nat, k: nat)
    requires i < n && k < 3 && 9 * i + k < |v|
    ensures Launched(v, Firework, n, total, sample)[9 * i + k] == sample(Firework, 3 * i, total).vel.At(k)
  {
    var prev := Launched(v, Firework, n - 1, total, sample);
    StoreTripleAt(prev, 9 * (n - 1), sample(Firework, 3 * (n - 1), total).vel, 9 * i + k);
    if i < n - 1 {
      LaunchedAt(v, n - 1, total, sample, i, k);
    }
  }

  /** A velocity slot that is not 9i+k (k < 3, i < n) keeps its value. */
  lemma {:induction false} LaunchedElsewhere(v: seq<real>, fam: Family, n: nat, total: nat, sample: Sampler, j: nat)
    requires j < |v|
    requires j % 9 >= 3 || j >= 9 * n
    ensures Launched(v, fam, n, total, sample)[j] == v[j]
  {
    if n > 0 && fam == Firework {
      var prev := Launched(v, fam, n - 1, total, sample);
      StoreTripleAt(prev, 9 * (n - 1), sample(Firework, 3 * (n - 1), total).vel, j);
      LaunchedElsewhere(v, fam, n - 1, total, sample, j);
    }
  }

  /**
   * Right after `setParticleCount`, a velocity slot is zero unless it is one of
   * the firework slots 9i .. 9i+2.  In particular slots 3 .. 5, which `update`
   * reads as particle 1's velocity, stay zero whenever there are at least two
   * particles: particle 1's velocity went to slots 9 .. 11.
   */
  lemma FreshVelocitiesZeroElsewhere(fam: Family, n: nat, sample: Sampler, j: nat)
    requires j < 3 * n && j % 9 >= 3
    ensures Launched(Zeros(3 * n), fam, n, n, sample)[j] == 0.0
  {
    LaunchedElsewhere(Zeros(3 * n), fam, n, n, sample, j);
  }

  /**
   * As written, particle 1's velocity (slots 3 .. 5, where `update` reads it)
   * is never generated: it stays zero whenever there are two or more particles,
   * whatever velocity the generator produced for it.
   */
  lemma FireworkParticleOneAtRest(n: nat, sample: Sampler)
    requires n >= 2
    ensures Launched(Zeros(3 * n), Firework, n, n, sample)[3..6] == [0.0, 0.0, 0.0]
  {
    FreshVelocitiesZeroElsewhere(Firework, n, sample, 3);
    FreshVelocitiesZeroElsewhere(Firework, n, sample, 4);
    FreshVelocitiesZeroElsewhere(Firework, n, sample, 5);
  }

  /** The evidently intended firework layout: particle i's velocity beside its position, at `index`. */
  function LaunchedIntended(v: seq<real>, n: nat, total: nat, sample: Sampler): (r: seq<real>)
    ensures |r| == |v|
  {
    if n == 0 then v
    else StoreTriple(LaunchedIntended(v, n - 1, total, sample), 3 * (n - 1), sample(Firework, 3 * (n - 1), total).vel)
  }

  /** With the intended layout, `update` reads every particle's own generated velocity. */
  lemma {:induction false} LaunchedIntendedAt(v: seq<real>, n: nat, total: nat, sample: Sampler, i: nat, k: nat)
    requires |v| == 3 * total && i < n <= total && k < 3
    ensures LaunchedIntended(v, n, total, sample)[3 * i + k] == sample(Firework, 3 * i, total).vel.At(k)
  {
    var prev := LaunchedIntended(v, n - 1, total, sample);
    StoreTripleAt(prev, 3 * (n - 1), sample(Firework, 3 * (n - 1), total).vel, 3 * i + k);
    if i < n - 1 {
      LaunchedIntendedAt(v, n - 1, total, sample, i, k);
    }
  }

  /** The argument `-1 + 2 * index / total` that the sphere generator hands to Math.acos. */
  function SphereCosPhi(index: nat, total: nat): (r: real)
    requires total > 0
    ensures index == 0 ==> r == -1.0
    ensures index == total ==> r == 1.0
  {
    var t := total as real;
    assert t / t == 1.0 by {
      assert (t / t) * t == t;
      assert (t / t - 1.0) * t == 0.0;
    }
    -1.0 + 2.0 * ((index as real) / t)
  }

  lemma RatioBounds(x: real, c: real)
    requires 0.0 <= x && 0.0 < c
    ensures 0.0 <= x / c
    ensures x / c <= 1.0 <==> x <= c
    ensures x / c < 1.0 <==> x < c
  {
    var q := x / c;
    assert q * c == x;
    assert 0.0 <= q by {
      if q < 0.0 {
        assert false;
      }
    }
    if q <= 1.0 {
      assert (1.0 - q) * c >= 0.0;
    } else {
      assert (q - 1.0) * c > 0.0;
    }
    if q < 1.0 {
      assert (1.0 - q) * c > 0.0;
    } else {
      assert (q - 1.0) * c >= 0.0;
    }
  }

  /**
   * As written the sphere generator receives `index = 3*i`, so the acos
   * argument is in [-1, 1] only for 3*i <= count: the other particles,
   * about two thirds of them, get NaN coordinates.
   */
  lemma SphereAsWrittenDomain(i: nat, count: nat)
    requires count > 0
    ensures -1.0 <= SphereCosPhi(3 * i, count) <= 1.0 <==> 3 * i <= count
  {
    RatioBounds((3 * i) as real, count as real);
  }

  /** Called with the particle number i < count, the acos argument always lies in [-1, 1). */
  lemma SphereIntendedDomain(i: nat, count: nat)
    requires i < count
    ensures -1.0 <= SphereCosPhi(i, count) < 1.0
  {
    RatioBounds(i as real, count as real);
  }

  // ---------------------------------------------------------------------------
  // Smoothing and integration

  /** One smoothing step of `update`: `current += (target - current) * 0.1`. */
  function Smooth(current: real, target: real): (r: real)
    ensures r - target == (1.0 - Smoothing) * (current - target)
    ensures current < target ==> current < r < target
    ensures target < current ==> target < r < current
    ensures current == target ==> r == target
  {
    current + (target - current) * Smoothing
  }

  /** `n` consecutive updates toward a fixed target. */
  function SmoothN(current: real, target: real, n: nat): (r: real)
    ensures current == target ==> r == target
  {
    if n == 0 then current else Smooth(SmoothN(current, target, n - 1), target)
  }

  function Pow(b: real, n: nat): real
  {
    if n == 0 then 1.0 else b * Pow(b, n - 1)
  }

  function Abs(x: real): real { if x < 0.0 then -x else x }

  /** After n updates the distance to the target is 0.9^n of the initial one. */
  lemma {:induction false} SmoothNDecay(current: real, target: real, n: nat)
    ensures SmoothN(current, target, n) - target == Pow(1.0 - Smoothing, n) * (current - target)
  {
    if n > 0 {
      SmoothNDecay(current, target, n - 1);
    }
  }

  /**
   * Repeated updates never overshoot and strictly approach the target: the
   * value stays on the side it started on and each further tick shrinks the
   * distance, unless current already equals target.
   */
  lemma {:induction false} SmoothNApproaches(current: real, target: real, n: nat)
    ensures current < target ==> current <= SmoothN(current, target, n) < target
    ensures target < current ==> target < SmoothN(current, target, n) <= current
    ensures current == target ==> SmoothN(current, target, n) == target
    ensures current != target ==>
      Abs(SmoothN(current, target, n + 1) - target) < Abs(SmoothN(current, target, n) - target)
  {
    if n > 0 {
      SmoothNApproaches(current, target, n - 1);
    }
  }

  /** `p += v * dt` for one slot. */
  function Moved(p: real, v: real, dt: real): (r: real)
    ensures v == 0.0 || dt == 0.0 ==> r == p
  {
    p + v * dt
  }

  /** `positions[j] += velocities[j] * dt` for every slot. */
  function Drifted(p: seq<real>, v: seq<real>, dt: real): (r: seq<real>)
    requires |p| == |v|
    ensures |r| == |p|
  {
    seq(|p|, j requires 0 <= j < |p| => Moved(p[j], v[j], dt))
  }

  /** `velocities[3i + 2] -= 0.5 * dt` for every particle i. */
  function Fallen(v: seq<real>, dt: real): (r: seq<real>)
    ensures |r| == |v|
  {
    seq(|v|, j requires 0 <= j < |v| => if j % 3 == 2 then v[j] - Gravity * dt else v[j])
  }

  /** Per particle: x and y velocity unchanged, z velocity down by exactly 0.5*dt. */
  lemma FallenAt(v: seq<real>, dt: real, i: nat)
    requires 3 * i + 2 < |v|
    ensures Fallen(v, dt)[3 * i] == v[3 * i]
    ensures Fallen(v, dt)[3 * i + 1] == v[3 * i + 1]
    ensures Fallen(v, dt)[3 * i + 2] == v[3 * i + 2] - 0.5 * dt
  {
  }

  /** The z coordinate and z velocity of one firework particle after n ticks of dt. */
  function Flight(z: real, vz: real, dt: real, n: nat): (r: (real, real))
    ensures n == 0 ==> r == (z, vz)
  {
    if n == 0 then (z, vz)
    else
      var before := Flight(z, vz, dt, n - 1);
      (Moved(before.0, before.1, dt), before.1 - Gravity * dt)
  }

  /** The position and velocity buffers after n firework ticks of `update`, each with step dt. */
  function Ticks(p: seq<real>, v: seq<real>, dt: real, n: nat): (r: (seq<real>, seq<real>))
    requires |p| == |v|
    ensures |r.0| == |p| && |r.1| == |v|
  {
    if n == 0 then (p, v)
    else
      var before := Ticks(p, v, dt, n - 1);
      (Drifted(before.0, before.1, dt), Fallen(before.1, dt))
  }

  /** Over n ticks, each particle's z coordinate and z velocity follow `Flight`. */
  lemma {:induction false} TicksFollowFlight(p: seq<real>, v: seq<real>, dt: real, n: nat, i: nat)
    requires |p| == |v| && 3 * i + 2 < |p|
    ensures Ticks(p, v, dt, n).0[3 * i + 2] == Flight(p[3 * i + 2], v[3 * i + 2], dt, n).0
    ensures Ticks(p, v, dt, n).1[3 * i + 2] == Flight(p[3 * i + 2], v[3 * i + 2], dt, n).1
  {
    if n > 0 {
      var j := 3 * i + 2;
      TicksFollowFlight(p, v, dt, n - 1, i);
      var before := Ticks(p, v, dt, n - 1);
      var f := Flight(p[j], v[j], dt, n - 1);
      FallenAt(before.1, dt, i);
      assert Drifted(before.0, before.1, dt)[j] == Moved(f.0, f.1, dt);
      assert Fallen(before.1, dt)[j] == f.1 - Gravity * dt;
    }
  }

  /** Triangular number 0 + 1 + ... + (n-1), as a real. */
  function Tri(n: nat): real
  {
    if n == 0 then 0.0 else Tri(n - 1) + (n - 1) as real
  }

  /** The closed form n (n - 1) / 2 of the triangular number. */
  lemma {:induction false} TriClosedForm(n: nat)
    ensures Tri(n) == (n as real) * ((n as real) - 1.0) / 2.0
  {
    if n > 0 {
      TriClosedForm(n - 1);
      var M := (n - 1) as real;
      assert (M + 1.0) * M == M * (M - 1.0) + 2.0 * M;
    }
  }

  /** After n ticks the z velocity has dropped by exactly 0.5 n dt. */
  lemma {:induction false} FlightVelocity(z: real, vz: real, dt: real, n: nat)
    ensures Flight(z, vz, dt, n).1 == vz - Gravity * (n as real) * dt
  {
    if n > 0 {
      var m: nat := n - 1;
      FlightVelocity(z, vz, dt, m);
      var M, N := m as real, n as real;
      assert N == M + 1.0;
      assert Gravity * N * dt == Gravity * M * dt + Gravity * dt;
    }
  }

  /** One tick applied to the closed form after m ticks gives the closed form after m + 1 ticks. */
  lemma ParabolaStep(z: real, vz: real, dt: real, M: real, T: real, N: real, Tn: real, zm: real, vm: real)
    requires N == M + 1.0 && Tn == T + M
    requires zm == z + M * vz * dt - Gravity * T * dt * dt
    requires vm == vz - Gravity * M * dt
    ensures Moved(zm, vm, dt) == z + N * vz * dt - Gravity * Tn * dt * dt
  {
    var a, b := vz * dt, dt * dt;
    assert M * vz * dt == M * a && N * vz * dt == M * a + a;
    assert Gravity * T * dt * dt == Gravity * T * b;
    assert Gravity * Tn * dt * dt == Gravity * T * b + Gravity * M * b;
    assert vm * dt == a - Gravity * M * b;
  }

  /**
   * The z track of a firework particle is a discrete parabola:
   * z_n = z + n vz dt - 0.5 (n (n-1) / 2) dt^2.
   */
  lemma {:induction false} FlightIsParabola(z: real, vz: real, dt: real, n: nat)
    ensures Flight(z, vz, dt, n).0 == z + (n as real) * vz * dt - Gravity * Tri(n) * dt * dt
  {
    if n > 0 {
      var m: nat := n - 1;
      FlightIsParabola(z, vz, dt, m);
      FlightVelocity(z, vz, dt, m);
      var before := Flight(z, vz, dt, m);
      assert Flight(z, vz, dt, n).0 == Moved(before.0, before.1, dt);
      ParabolaStep(z, vz, dt, m as real, Tri(m), n as real, Tri(n), before.0, before.1);
    }
  }

  // ---------------------------------------------------------------------------
  // The particle system object

  class ParticleSystem {
    /** `config.particleCount`. */
    var particleCount: nat
    /** `config.particleShape`. */
    var particleShape: string
    var targetScale: real
    var currentScale: real
    var targetRotation: real
    var currentRotation: real
    var positions: array<real>
    var velocities: array<real>

    /** Both buffers hold three slots per particle and are distinct arrays. */
    ghost predicate BuffersValid()
      reads this
    {
      positions != velocities &&
      positions.Length == 3 * particleCount &&
      velocities.Length == 3 * particleCount
    }

    /** The target scale is always clamped, so the smoothed scale never leaves [0.5, 2] either. */
    ghost predicate ScalesValid()
      reads this
    {
      ScaleMin <= targetScale <= ScaleMax && ScaleMin <= currentScale <= ScaleMax
    }

    ghost predicate Valid()
      reads this
    {
      BuffersValid() && ScalesValid()
    }

    /** Starts at scale 1 and rotation 0 and generates the configured shape. */
    constructor (count: nat, shape: string, sample: Sampler)
      ensures Valid()
      ensures particleCount == count && particleShape == shape
      ensures targetScale == currentScale == 1.0 && targetRotation == currentRotation == 0.0
      ensures fresh(positions) && fresh(velocities)
      ensures positions[..] == Placed(Zeros(3 * count), FamilyOf(shape), count, count, sample)
      ensures velocities[..] == Launched(Zeros(3 * count), FamilyOf(shape), count, count, sample)
    {
      particleCount := count;
      particleShape := shape;
      targetScale, currentScale := 1.0, 1.0;
      targetRotation, currentRotation := 0.0, 0.0;
      // the source leaves both buffers null until initializeParticles runs, just below
      positions := new real[0];
      velocities := new real[0];
      new;
      InitializeParticles(sample);
    }

    /** Allocates zeroed buffers of 3*count slots and generates the shape into them. */
    method InitializeParticles(sample: Sampler)
      modifies this
      ensures fresh(positions) && fresh(velocities) && BuffersValid()
      ensures particleCount == old(particleCount) && particleShape == old(particleShape)
      ensures targetScale == old(targetScale) && currentScale == old(currentScale)
      ensures targetRotation == old(targetRotation) && currentRotation == old(currentRotation)
      ensures positions[..] == Placed(Zeros(3 * particleCount), FamilyOf(particleShape), particleCount, particleCount, sample)
      ensures velocities[..] == Launched(Zeros(3 * particleCount), FamilyOf(particleShape), particleCount, particleCount, sample)
    {
      var buffer := new real[3 * particleCount](_ => 0.0);
      velocities := new real[3 * particleCount](_ => 0.0);
      assert buffer[..] == Zeros(3 * particleCount);
      assert velocities[..] == Zeros(3 * particleCount);
      GenerateParticleShape(buffer, sample);
      positions := buffer;
    }

    /** A Float32Array store: `a[j] = x`, dropped when j is past the end. */
    static method SetSlot(a: array<real>, j: nat, x: real)
      modifies a
      ensures a[..] == Store(old(a[..]), j, x)
    {
      if j < a.Length {
        a[j] := x;
      }
    }

    /** The three stores of a generator: `buffer[index .. index+2] = v`. */
    static method SetTriple(a: array<real>, index: nat, v: Vec3)
      modifies a
      ensures a[..] == StoreTriple(old(a[..]), index, v)
    {
      SetSlot(a, index, v.x);
      SetSlot(a, index + 1, v.y);
      SetSlot(a, index + 2, v.z);
    }

    /** The sphere, heart, flower and nebula generators: they write the position triple only. */
    static method GeneratePositionOnly(buffer: array<real>, fam: Family, index: nat, total: nat, sample: Sampler)
      modifies buffer
      ensures buffer[..] == StoreTriple(old(buffer[..]), index, sample(fam, index, total).pos)
    {
      SetTriple(buffer, index, sample(fam, index, total).pos);
    }

    /** `generateFireworkParticle`: the position triple at `index`, the velocity triple at `index * 3`. */
    method GenerateFireworkParticle(buffer: array<real>, index: nat, total: nat, sample: Sampler)
      requires buffer != velocities
      modifies buffer, velocities
      ensures buffer[..] == StoreTriple(old(buffer[..]), index, sample(Firework, index, total).pos)
      ensures velocities[..] == StoreTriple(old(velocities[..]), index * 3, sample(Firework, index, total).vel)
    {
      var p := sample(Firework, index, total);
      SetTriple(buffer, index, p.pos);
      SetTriple(velocities, index * 3, p.vel);
    }

    /**
     * One pass of the dispatch loop: the generator chosen by the shape name,
     * for particle i, extends the first i passes to the first i + 1.
     */
    method GenerateOne(buffer: array<real>, shape: string, i: nat, total: nat, sample: Sampler,
                       ghost p0: seq<real>, ghost v0: seq<real>)
      requires buffer != velocities
      requires buffer[..] == Placed(p0, FamilyOf(shape), i, total, sample)
      requires velocities[..] == Launched(v0, FamilyOf(shape), i, total, sample)
      modifies buffer, velocities
      ensures buffer[..] == Placed(p0, FamilyOf(shape), i + 1, total, sample)
      ensures velocities[..] == Launched(v0, FamilyOf(shape), i + 1, total, sample)
    {
      var index := i * 3;
      match shape
      case "sphere" => GeneratePositionOnly(buffer, Sphere, index, total, sample);
      case "heart" => GeneratePositionOnly(buffer, Heart, index, total, sample);
      case "flower" => GeneratePositionOnly(buffer, Flower, index, total, sample);
      case "firework" => GenerateFireworkParticle(buffer, index, total, sample);
      case "nebula" => GeneratePositionOnly(buffer, Nebula, index, total, sample);
      case _ => GeneratePositionOnly(buffer, Sphere, index, total, sample);
    }

    /** The dispatch loop of `generateParticleShape`, writing into `buffer` and `velocities`. */
    method GenerateParticleShape(buffer: array<real>, sample: Sampler)
      requires buffer != velocities
      modifies buffer, velocities
      ensures buffer[..] == Placed(old(buffer[..]), FamilyOf(particleShape), particleCount, particleCount, sample)
      ensures velocities[..] == Launched(old(velocities[..]), FamilyOf(particleShape), particleCount, particleCount, sample)
    {
      var count := particleCount;
      var shape := particleShape;
      ghost var p0, v0 := buffer[..], velocities[..];
      for i := 0 to count
        invariant buffer[..] == Placed(p0, FamilyOf(shape), i, count, sample)
        invariant velocities[..] == Launched(v0, FamilyOf(shape), i, count, sample)
      {
        GenerateOne(buffer, shape, i, count, sample, p0, v0);
      }
    }

    /** Sets the target scale, clamped to [0.5, 2]. */
    method SetScale(scale: real)
      requires Valid()
      modifies this`targetScale
      ensures Valid()
      ensures targetScale == Clamp(ScaleMin, ScaleMax, scale)
    {
      targetScale := Clamp(ScaleMin, ScaleMax, scale);
    }

    /** Sets the target rotation, unclamped. */
    method SetRotation(angle: real)
      requires Valid()
      modifies this`targetRotation
      ensures Valid()
      ensures targetRotation == angle
    {
      targetRotation := angle;
    }

    /**
     * A no-op for the current shape; otherwise records the shape and
     * regenerates into the same position buffer (and, for the firework, the
     * same velocity buffer).
     */
    method SetParticleShape(shape: string, sample: Sampler)
      requires Valid()
      modifies this`particleShape, positions, velocities
      ensures Valid()
      ensures positions == old(positions) && velocities == old(velocities)
      ensures particleShape == shape && particleCount == old(particleCount)
      ensures old(particleShape) == shape ==>
        positions[..] == old(positions[..]) && velocities[..] == old(velocities[..])
      ensures old(particleShape) != shape ==>
        positions[..] == Placed(old(positions[..]), FamilyOf(shape), particleCount, particleCount, sample) &&
        velocities[..] == Launched(old(velocities[..]), FamilyOf(shape), particleCount, particleCount, sample)
    {
      if particleShape != shape {
        particleShape := shape;
        GenerateParticleShape(positions, sample);
      }
    }

    /** A no-op for the current count; otherwise reallocates both buffers and regenerates. */
    method SetParticleCount(count: nat, sample: Sampler)
      requires Valid()
      modifies this
      ensures Valid()
      ensures particleCount == count && particleShape == old(particleShape)
      ensures targetScale == old(targetScale) && currentScale == old(currentScale)
      ensures targetRotation == old(targetRotation) && currentRotation == old(currentRotation)
      ensures old(particleCount) == count ==>
        positions == old(positions) && velocities == old(velocities) &&
        positions[..] == old(positions[..]) && velocities[..] == old(velocities[..])
      ensures old(particleCount) != count ==>
        fresh(positions) && fresh(velocities) &&
        positions[..] == Placed(Zeros(3 * count), FamilyOf(particleShape), count, count, sample) &&
        velocities[..] == Launched(Zeros(3 * count), FamilyOf(particleShape), count, count, sample)
    {
      if particleCount != count {
        particleCount := count;
        InitializeParticles(sample);
      }
    }

    /**
     * One frame: smooth scale and rotation toward their targets; for the
     * firework shape only, move every particle by its velocity times dt and
     * pull its z velocity down by 0.5 * dt.
     */
    method Update(dt: real)
      requires Valid()
      modifies this`currentScale, this`currentRotation, positions, velocities
      ensures Valid()
      ensures currentScale == Smooth(old(currentScale), targetScale)
      ensures currentRotation == Smooth(old(currentRotation), targetRotation)
      ensures particleShape == "firework" ==>
        positions[..] == Drifted(old(positions[..]), old(velocities[..]), dt) &&
        velocities[..] == Fallen(old(velocities[..]), dt)
      ensures particleShape != "firework" ==>
        positions[..] == old(positions[..]) && velocities[..] == old(velocities[..])
    {
      currentScale := currentScale + (targetScale - currentScale) * Smoothing;
      var rotationDiff := targetRotation - currentRotation;
      currentRotation := currentRotation + rotationDiff * Smoothing;

      if particleShape == "firework" {
        Integrate(dt);
      }
    }

    /** One iteration of the firework loop: particle i's triple drifts, its z velocity falls. */
    method MoveParticle(i: nat, dt: real)
      requires BuffersValid() && i < particleCount
      modifies positions, velocities
      ensures forall j :: 0 <= j < positions.Length ==>
        positions[j] == if 3 * i <= j < 3 * i + 3 then Moved(old(positions[j]), old(velocities[j]), dt) else old(positions[j])
      ensures forall j :: 0 <= j < velocities.Length ==>
        velocities[j] == if j == 3 * i + 2 then old(velocities[j]) - Gravity * dt else old(velocities[j])
    {
      var i3 := i * 3;
      positions[i3] := Moved(positions[i3], velocities[i3], dt);
      positions[i3 + 1] := Moved(positions[i3 + 1], velocities[i3 + 1], dt);
      positions[i3 + 2] := Moved(positions[i3 + 2], velocities[i3 + 2], dt);
      velocities[i3 + 2] := velocities[i3 + 2] - Gravity * dt;
    }

    /** The firework loop of `update`: drift every particle, then apply gravity to its z velocity. */
    method Integrate(dt: real)
      requires BuffersValid()
      modifies positions, velocities
      ensures positions[..] == Drifted(old(positions[..]), old(velocities[..]), dt)
      ensures velocities[..] == Fallen(old(velocities[..]), dt)
    {
      ghost var p0, v0 := positions[..], velocities[..];
      var n := particleCount;
      for i := 0 to n
        invariant forall j :: 0 <= j < 3 * i ==> positions[j] == Moved(p0[j], v0[j], dt)
        invariant forall j :: 3 * i <= j < 3 * n ==> positions[j] == p0[j]
        invariant forall j :: 0 <= j < 3 * i ==>
          velocities[j] == if j % 3 == 2 then v0[j] - Gravity * dt else v0[j]
        invariant forall j :: 3 * i <= j < 3 * n ==> velocities[j] == v0[j]
      {
        MoveParticle(i, dt);
      }
      assert positions[..] == Drifted(p0, v0, dt);
      assert velocities[..] == Fallen(v0, dt);
    }
  }
}
