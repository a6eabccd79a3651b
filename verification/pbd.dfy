/**
 * Position-based-dynamics particle bookkeeping and constraint projection
 * (code/hb_pbd.h, code/hb_pbd.cpp).
 *
 * Scalars of either precision (f32, f64) are reals.  A group's `particles`
 * pointer into the pool is the index `start` of its first particle.
 */
module Pbd {
  import opened Vec
  import opened Wrappers

  /** `array_count(pool->particles)`. */
  const PoolCapacity: nat := 4096

  datatype Particle = Particle(
    p: Vec3,
    v: Vec3,
    r: real,
    invMass: real,                 // 0 encodes an immovable particle
    initialOffsetFromCom: Vec3,
    phase: int,
    // scratch state, meant to be zero at the start of every frame
    prevP: Vec3,
    dPSum: Vec3,
    constraintHitCount: nat)

  predicate ScratchCleared(q: Particle)
  {
    q.prevP == Zero && q.dPSum == Zero && q.constraintHitCount == 0
  }

  /**
   * The slot after `allocate_particle_from_pool` wrote it: position, velocity,
   * radius and inverse mass are the arguments, the scratch fields are zero,
   * and the phase and the offset from the centre of mass are whatever the
   * slot held before (the `phase` argument is never stored).
   */
  function Initialized(slot: Particle, p: Vec3, v: Vec3, r: real, invMass: real): (q: Particle)
    ensures q.p == p && q.v == v && q.r == r && q.invMass == invMass
    ensures ScratchCleared(q)
    ensures q.phase == slot.phase && q.initialOffsetFromCom == slot.initialOffsetFromCom
  {
    slot.(p := p, v := v, r := r, invMass := invMass,
          prevP := Zero, dPSum := Zero, constraintHitCount := 0)
  }

  /** A fixed array of particles and the append-only high-water mark `count`. */
  class ParticlePool {
    const particles: array<Particle>
    var count: nat

    ghost predicate Valid()
      reads this
    {
      particles.Length == PoolCapacity && count <= PoolCapacity
    }

    constructor ()
      ensures Valid() && count == 0 && fresh(particles)
    {
      particles := new Particle[PoolCapacity];
      count := 0;
    }

    /**
     * `allocate_particle_from_pool`: writes slot `count` and advances `count`;
     * the source asserts that the new count stays within the capacity.
     */
    method Allocate(p: Vec3, v: Vec3, r: real, invMass: real, phase: int)
      requires Valid()
      requires count < PoolCapacity
      modifies this, particles
      ensures Valid()
      ensures count == old(count) + 1
      ensures particles[..] == old(particles[..])[old(count) := Initialized(old(particles[..])[old(count)], p, v, r, invMass)]
    {
      var slot := count;
      count := count + 1;
      particles[slot] := Initialized(particles[slot], p, v, r, invMass);
    }
  }

  /**
   * The pool contents after allocating one particle per position of `ps`,
   * in order, into the slots from `start` on: what a run of
   * `allocate_particle_from_pool` calls leaves behind.
   */
  function AllocateAll(s: seq<Particle>, start: nat, ps: seq<Vec3>, v: Vec3, r: real, invMass: real): (t: seq<Particle>)
    requires start + |ps| <= |s|
    ensures |t| == |s|
    decreases |ps|
  {
    if ps == [] then s
    else
      var t := AllocateAll(s, start, ps[..|ps| - 1], v, r, invMass);
      var i := start + |ps| - 1;
      t[i := Initialized(t[i], ps[|ps| - 1], v, r, invMass)]
  }

  /** Slot start + k holds the k-th allocated position; every other slot is untouched. */
  lemma {:induction false} AllocateAllAt(s: seq<Particle>, start: nat, ps: seq<Vec3>, v: Vec3, r: real, invMass: real)
    requires start + |ps| <= |s|
    ensures var t := AllocateAll(s, start, ps, v, r, invMass);
            && (forall k :: 0 <= k < |ps| ==> t[start + k] == Initialized(s[start + k], ps[k], v, r, invMass))
            && (forall i :: 0 <= i < |s| && !(start <= i < start + |ps|) ==> t[i] == s[i])
    decreases |ps|
  {
    if ps != [] {
      var init := ps[..|ps| - 1];
      AllocateAllAt(s, start, init, v, r, invMass);
      var t := AllocateAll(s, start, ps, v, r, invMass);
      forall k | 0 <= k < |ps|
        ensures t[start + k] == Initialized(s[start + k], ps[k], v, r, invMass)
      {
        if k < |init| {
          assert ps[k] == init[k];
        }
      }
    }
  }

  /** The allocated run holds the given positions, each with the given inverse mass. */
  lemma AllocatedRun(s: seq<Particle>, start: nat, ps: seq<Vec3>, v: Vec3, r: real, invMass: real)
    requires start + |ps| <= |s|
    ensures var run := AllocateAll(s, start, ps, v, r, invMass)[start..start + |ps|];
            && |run| == |ps|
            && forall k :: 0 <= k < |ps| ==> run[k].p == ps[k] && run[k].invMass == invMass
  {
    AllocateAllAt(s, start, ps, v, r, invMass);
  }

  /** Allocation leaves the slots before and after the run as they were. */
  lemma AllocatedOutside(s: seq<Particle>, start: nat, ps: seq<Vec3>, v: Vec3, r: real, invMass: real)
    requires start + |ps| <= |s|
    ensures var t := AllocateAll(s, start, ps, v, r, invMass);
            t[..start] == s[..start] && t[start + |ps|..] == s[start + |ps|..]
  {
    AllocateAllAt(s, start, ps, v, r, invMass);
  }

  /** One more allocation extends the run by one position. */
  lemma AllocateAllSnoc(s: seq<Particle>, start: nat, ps: seq<Vec3>, q: Vec3, v: Vec3, r: real, invMass: real)
    requires start + |ps| < |s|
    ensures var t := AllocateAll(s, start, ps, v, r, invMass);
            AllocateAll(s, start, ps + [q], v, r, invMass)
              == t[start + |ps| := Initialized(t[start + |ps|], q, v, r, invMass)]
  {
    assert (ps + [q])[..|ps|] == ps;
  }

  /** Allocating a + b is allocating a, then b in the slots right after. */
  lemma {:induction false} AllocateAllAppend(s: seq<Particle>, start: nat, a: seq<Vec3>, b: seq<Vec3>,
                                             v: Vec3, r: real, invMass: real)
    requires start + |a| + |b| <= |s|
    ensures AllocateAll(s, start, a + b, v, r, invMass)
         == AllocateAll(AllocateAll(s, start, a, v, r, invMass), start + |a|, b, v, r, invMass)
    decreases |b|
  {
    if b == [] {
      assert a + b == a;
    } else {
      var init := b[..|b| - 1];
      AllocateAllAppend(s, start, a, init, v, r, invMass);
      assert (a + b)[..|a + b| - 1] == a + init;
    }
  }

  /**
   * A body of n particles that each carry inverse mass n * w has total mass
   * 1 / w: the builders spread one body mass evenly over their particles.
   */
  lemma EvenlySplitMass(ps: seq<Particle>, w: real)
    requires ps != [] && w != 0.0
    requires forall i :: 0 <= i < |ps| ==> ps[i].invMass == |ps| as real * w
    ensures AllFinite(ps) && TotalMass(ps) == 1.0 / w
  {
    var n := |ps| as real;
    EqualMassSums(ps, n * w);
    QuotientCancel(n, w);
  }

  lemma QuotientCancel(n: real, w: real)
    requires n != 0.0 && w != 0.0
    ensures n / (n * w) == 1.0 / w
  {
    assert (n * w) * (1.0 / w) == n;
  }

  /**
   * The inverse mass a builder gives each of its `count` particles so that
   * the body as a whole has inverse mass `invMass`.
   */
  function ParticleInvMass(count: nat, invMass: real): real
  {
    count as real * invMass
  }

  /**
   * Allocating n positions with inverse mass ParticleInvMass(n, w) each gives
   * a run whose total mass is 1 / w.
   */
  lemma AllocatedMass(s: seq<Particle>, start: nat, ps: seq<Vec3>, v: Vec3, r: real, w: real)
    requires start + |ps| <= |s| && ps != [] && w != 0.0
    ensures var run := AllocateAll(s, start, ps, v, r, ParticleInvMass(|ps|, w))[start..start + |ps|];
            AllFinite(run) && TotalMass(run) == 1.0 / w
  {
    AllocatedRun(s, start, ps, v, r, ParticleInvMass(|ps|, w));
    EvenlySplitMass(AllocateAll(s, start, ps, v, r, ParticleInvMass(|ps|, w))[start..start + |ps|], w);
  }

  /**
   * A body's particles, the contiguous pool slice [start, start + count), and
   * the distance and volume constraints whose indices are local to that slice.
   * Between StartAllocation and EndAllocation `count` temporarily holds the
   * pool's count at the start.
   */
  class ParticleGroup {
    var start: nat
    var count: nat
    var distanceConstraints: seq<DistanceConstraint>
    var invDistanceStiffness: real
    var volumeConstraints: seq<VolumeConstraint>

    /** A zero-filled group, as an entity slot holds before any builder ran. */
    constructor ()
      ensures start == 0 && count == 0 && invDistanceStiffness == 0.0
      ensures distanceConstraints == [] && volumeConstraints == []
    {
      start, count := 0, 0;
      distanceConstraints, volumeConstraints := [], [];
      invDistanceStiffness := 0.0;
    }

    /** `start_particle_allocation_from_pool`: the group starts at the pool's current count. */
    method StartAllocation(pool: ParticlePool)
      modifies this`start, this`count
      ensures start == pool.count && count == pool.count
    {
      start := pool.count;
      count := pool.count;
    }

    /**
     * `end_particle_allocation_from_pool`: the count becomes the number of
     * particles allocated since StartAllocation, asserted to be positive.
     */
    method EndAllocation(pool: ParticlePool)
      requires count < pool.count
      modifies this`count
      ensures count == pool.count - old(count) && count > 0
    {
      count := pool.count - count;
    }
  }

  // ---------------------------------------------------------------------
  // Constraints and their documented formulas (code/hb_pbd.h)
  // ---------------------------------------------------------------------

  /** Two group-local particle indices and the rest length captured at creation. */
  datatype DistanceConstraint = DistanceConstraint(index0: nat, index1: nat, restLength: real)

  /** index0 is the apex; index1, index2, index3 form the counter-clockwise base. */
  datatype VolumeConstraint = VolumeConstraint(
    index0: nat, index1: nat, index2: nat, index3: nat, restVolume: real)

  /** The two particles a collision constraint points at. */
  datatype CollisionConstraint = CollisionConstraint(particle0: Particle, particle1: Particle)

  /** A particle against the half-space dot(n, x) >= d; `n` should be unit length. */
  datatype EnvironmentConstraint = EnvironmentConstraint(particle: Particle, n: Vec3, d: real)

  /** C(x0, x1) = |x0 - x1| - (r0 + r1); the constraint asks C >= 0. */
  function CollisionC(m: Math, x0: Vec3, x1: Vec3, r0: real, r1: real): real
  {
    m.length(Sub(x0, x1)) - (r0 + r1)
  }

  /** C(x) = dot(n, x) - d - r; the constraint asks C >= 0. */
  function EnvironmentC(n: Vec3, d: real, r: real, x: Vec3): real
  {
    Dot(n, x) - d - r
  }

  /** Gradient of the distance constraint at x0: normalize(x1 - x0). */
  function DistanceGradient0(m: Math, x0: Vec3, x1: Vec3): Vec3 { m.normalize(Sub(x1, x0)) }

  /** Gradient of the distance constraint at x1: normalize(x0 - x1). */
  function DistanceGradient1(m: Math, x0: Vec3, x1: Vec3): Vec3 { m.normalize(Sub(x0, x1)) }

  /** The two endpoint gradients of a distance constraint point in opposite directions. */
  lemma DistanceGradientsOpposite(m: Math, x0: Vec3, x1: Vec3)
    requires Lawful(m)
    requires m.length(Sub(x1, x0)) != 0.0
    ensures DistanceGradient0(m, x0, x1) == Neg(DistanceGradient1(m, x0, x1))
  {
    LengthOfReversedDifference(m, x1, x0);
    NormalizeDivides(m, Sub(x1, x0));
    NormalizeDivides(m, Sub(x0, x1));
    assert Sub(x0, x1) == Neg(Sub(x1, x0));
  }

  /**
   * Six times the signed volume of the tetrahedron with apex x0 over the base
   * x1, x2, x3: the triple product whose gradients the header documents.
   */
  function SixVolume(x0: Vec3, x1: Vec3, x2: Vec3, x3: Vec3): real
  {
    Dot(Cross(Sub(x2, x1), Sub(x3, x1)), Sub(x0, x1))
  }

  function VolumeGradient0(x0: Vec3, x1: Vec3, x2: Vec3, x3: Vec3): Vec3
  {
    Cross(Sub(x2, x1), Sub(x3, x1))
  }

  function VolumeGradient1(x0: Vec3, x1: Vec3, x2: Vec3, x3: Vec3): Vec3
  {
    Cross(Sub(x0, x2), Sub(x3, x2))
  }

  function VolumeGradient2(x0: Vec3, x1: Vec3, x2: Vec3, x3: Vec3): Vec3
  {
    Cross(Sub(x3, x1), Sub(x0, x1))
  }

  function VolumeGradient3(x0: Vec3, x1: Vec3, x2: Vec3, x3: Vec3): Vec3
  {
    Cross(Sub(x1, x2), Sub(x0, x2))
  }

  /** Six times the volume seen from vertex x2: gradient1 does not involve x1, so the volume is affine in x1. */
  lemma VolumeFrame1(x0: Vec3, x1: Vec3, x2: Vec3, x3: Vec3)
    ensures SixVolume(x0, x1, x2, x3) == Dot(VolumeGradient1(x0, x1, x2, x3), Sub(x1, x2))
  {
  }

  /** Six times the volume seen from vertex x1: gradient2 does not involve x2, so the volume is affine in x2. */
  lemma VolumeFrame2(x0: Vec3, x1: Vec3, x2: Vec3, x3: Vec3)
    ensures SixVolume(x0, x1, x2, x3) == Dot(VolumeGradient2(x0, x1, x2, x3), Sub(x2, x1))
  {
  }

  /** Six times the volume seen from vertex x2: gradient3 does not involve x3, so the volume is affine in x3. */
  lemma VolumeFrame3(x0: Vec3, x1: Vec3, x2: Vec3, x3: Vec3)
    ensures SixVolume(x0, x1, x2, x3) == Dot(VolumeGradient3(x0, x1, x2, x3), Sub(x3, x2))
  {
  }

  /** Moving the apex by t changes the volume by exactly dot(gradient0, t). */
  lemma VolumeGradient0Exact(x0: Vec3, x1: Vec3, x2: Vec3, x3: Vec3, t: Vec3)
    ensures SixVolume(Add(x0, t), x1, x2, x3)
         == SixVolume(x0, x1, x2, x3) + Dot(VolumeGradient0(x0, x1, x2, x3), t)
  {
    SubAddLeft(x0, t, x1);
    DotAddRight(VolumeGradient0(x0, x1, x2, x3), Sub(x0, x1), t);
  }

  /** Moving base vertex 1 by t changes the volume by exactly dot(gradient1, t). */
  lemma VolumeGradient1Exact(x0: Vec3, x1: Vec3, x2: Vec3, x3: Vec3, t: Vec3)
    ensures SixVolume(x0, Add(x1, t), x2, x3)
         == SixVolume(x0, x1, x2, x3) + Dot(VolumeGradient1(x0, x1, x2, x3), t)
  {
    VolumeFrame1(x0, x1, x2, x3);
    VolumeFrame1(x0, Add(x1, t), x2, x3);
    SubAddLeft(x1, t, x2);
    DotAddRight(VolumeGradient1(x0, x1, x2, x3), Sub(x1, x2), t);
  }

  /** Moving base vertex 2 by t changes the volume by exactly dot(gradient2, t). */
  lemma VolumeGradient2Exact(x0: Vec3, x1: Vec3, x2: Vec3, x3: Vec3, t: Vec3)
    ensures SixVolume(x0, x1, Add(x2, t), x3)
         == SixVolume(x0, x1, x2, x3) + Dot(VolumeGradient2(x0, x1, x2, x3), t)
  {
    VolumeFrame2(x0, x1, x2, x3);
    VolumeFrame2(x0, x1, Add(x2, t), x3);
    SubAddLeft(x2, t, x1);
    DotAddRight(VolumeGradient2(x0, x1, x2, x3), Sub(x2, x1), t);
  }

  /** Moving base vertex 3 by t changes the volume by exactly dot(gradient3, t). */
  lemma VolumeGradient3Exact(x0: Vec3, x1: Vec3, x2: Vec3, x3: Vec3, t: Vec3)
    ensures SixVolume(x0, x1, x2, Add(x3, t))
         == SixVolume(x0, x1, x2, x3) + Dot(VolumeGradient3(x0, x1, x2, x3), t)
  {
    VolumeFrame3(x0, x1, x2, x3);
    VolumeFrame3(x0, x1, x2, Add(x3, t));
    SubAddLeft(x3, t, x2);
    DotAddRight(VolumeGradient3(x0, x1, x2, x3), Sub(x3, x2), t);
  }

  /** The four documented gradients cancel: translating the whole tetrahedron keeps its volume. */
  lemma VolumeGradientsCancel(x0: Vec3, x1: Vec3, x2: Vec3, x3: Vec3)
    ensures GradientSum(x0, x1, x2, x3) == Zero
  {
    CrossOfDifferences(x2, x1, x3, x1);
    CrossOfDifferences(x0, x2, x3, x2);
    CrossOfDifferences(x3, x1, x0, x1);
    CrossOfDifferences(x1, x2, x0, x2);
    GradientComponentsCancel(x0.y, x1.y, x2.y, x3.y, x0.z, x1.z, x2.z, x3.z);
    GradientComponentsCancel(x0.z, x1.z, x2.z, x3.z, x0.x, x1.x, x2.x, x3.x);
    GradientComponentsCancel(x0.x, x1.x, x2.x, x3.x, x0.y, x1.y, x2.y, x3.y);
  }

  /** The sum of the four volume gradients. */
  function GradientSum(x0: Vec3, x1: Vec3, x2: Vec3, x3: Vec3): Vec3
  {
    Add(Add(VolumeGradient0(x0, x1, x2, x3), VolumeGradient1(x0, x1, x2, x3)),
        Add(VolumeGradient2(x0, x1, x2, x3), VolumeGradient3(x0, x1, x2, x3)))
  }

  /** The components of (a - b) x (c - d), written out coordinate by coordinate. */
  lemma CrossOfDifferences(a: Vec3, b: Vec3, c: Vec3, d: Vec3)
    ensures var r := Cross(Sub(a, b), Sub(c, d));
            && r.x == (a.y - b.y) * (c.z - d.z) - (a.z - b.z) * (c.y - d.y)
            && r.y == (a.z - b.z) * (c.x - d.x) - (a.x - b.x) * (c.z - d.z)
            && r.z == (a.x - b.x) * (c.y - d.y) - (a.y - b.y) * (c.x - d.x)
  {
  }

  /**
   * One component of the four gradients: a cross-product component reads
   * two coordinates (p, q) of each point, so one identity serves all three.
   */
  lemma GradientComponentsCancel(p0: real, p1: real, p2: real, p3: real, q0: real, q1: real, q2: real, q3: real)
    ensures (((p2 - p1) * (q3 - q1) - (q2 - q1) * (p3 - p1)) + ((p0 - p2) * (q3 - q2) - (q0 - q2) * (p3 - p2)))
          + (((p3 - p1) * (q0 - q1) - (q3 - q1) * (p0 - p1)) + ((p1 - p2) * (q0 - q2) - (q1 - q2) * (p0 - p2))) == 0.0
  {
  }

  // ---------------------------------------------------------------------
  // Centre of mass (get_com_of_particle_group)
  // ---------------------------------------------------------------------

  predicate AllFinite(ps: seq<Particle>)
  {
    forall i :: 0 <= i < |ps| ==> ps[i].invMass != 0.0
  }

  /** Sum of the masses 1/w, accumulated front to back as the loop does. */
  function TotalMass(ps: seq<Particle>): real
    requires AllFinite(ps)
  {
    if ps == [] then 0.0
    else TotalMass(ps[..|ps| - 1]) + 1.0 / ps[|ps| - 1].invMass
  }

  /** Sum of mass * position. */
  function Moment(ps: seq<Particle>): Vec3
    requires AllFinite(ps)
  {
    if ps == [] then Zero
    else Add(Moment(ps[..|ps| - 1]), Scale(1.0 / ps[|ps| - 1].invMass, ps[|ps| - 1].p))
  }

  /** Sum of mass * offset from the centre of mass. */
  function OffsetMoment(ps: seq<Particle>): Vec3
    requires AllFinite(ps)
  {
    if ps == [] then Zero
    else Add(OffsetMoment(ps[..|ps| - 1]),
             Scale(1.0 / ps[|ps| - 1].invMass, ps[|ps| - 1].initialOffsetFromCom))
  }

  /** Sum of positions. */
  function PositionSum(ps: seq<Particle>): Vec3
  {
    if ps == [] then Zero else Add(PositionSum(ps[..|ps| - 1]), ps[|ps| - 1].p)
  }

  /** COM = sum(m_i * x_i) / sum(m_i). */
  function Com(ps: seq<Particle>): Vec3
    requires AllFinite(ps) && TotalMass(ps) != 0.0
  {
    Scale(1.0 / TotalMass(ps), Moment(ps))
  }

  /**
   * `get_com_of_particle_group`: the mass-weighted average of the group's
   * positions.  Every particle must have finite mass (the source asserts
   * inv_mass != 0).
   */
  method ComOfGroup(pool: ParticlePool, group: ParticleGroup) returns (com: Vec3)
    requires group.start + group.count <= pool.particles.Length
    requires AllFinite(pool.particles[group.start..group.start + group.count])
    requires TotalMass(pool.particles[group.start..group.start + group.count]) != 0.0
    ensures com == Com(pool.particles[group.start..group.start + group.count])
  {
    ghost var ps := pool.particles[group.start..group.start + group.count];
    var result := Zero;
    var totalMass := 0.0;
    var i := 0;
    while i < group.count
      invariant 0 <= i <= group.count
      invariant AllFinite(ps[..i])
      invariant totalMass == TotalMass(ps[..i])
      invariant result == Moment(ps[..i])
    {
      var particle := pool.particles[group.start + i];
      assert particle == ps[i];
      assert ps[..i + 1][..i] == ps[..i];
      var mass := 1.0 / particle.invMass;
      totalMass := totalMass + mass;
      result := Add(result, Scale(mass, particle.p));
      i := i + 1;
    }
    assert ps[..i] == ps;
    com := Scale(1.0 / totalMass, result);
  }

  /** With equal inverse masses the centre of mass is the arithmetic mean of the positions. */
  lemma {:induction false} EqualMassComIsMean(ps: seq<Particle>, w: real)
    requires ps != [] && w != 0.0
    requires forall i :: 0 <= i < |ps| ==> ps[i].invMass == w
    ensures AllFinite(ps) && TotalMass(ps) != 0.0
    ensures Com(ps) == Scale(1.0 / |ps| as real, PositionSum(ps))
  {
    EqualMassSums(ps, w);
    var n := |ps| as real;
    QuotientInverse(n, w);
    ScaleScaleTo(1.0 / (n / w), 1.0 / w, 1.0 / n, PositionSum(ps));
  }

  lemma QuotientStep(n: real, w: real)
    requires w != 0.0
    ensures n / w + 1.0 / w == (n + 1.0) / w
  {
    assert (n / w + 1.0 / w) * w == n + 1.0;
  }

  lemma QuotientInverse(n: real, w: real)
    requires n != 0.0 && w != 0.0
    ensures n / w != 0.0
    ensures (1.0 / (n / w)) * (1.0 / w) == 1.0 / n
  {
  }

  lemma {:induction false} EqualMassSums(ps: seq<Particle>, w: real)
    requires w != 0.0
    requires forall i :: 0 <= i < |ps| ==> ps[i].invMass == w
    ensures AllFinite(ps)
    ensures TotalMass(ps) == |ps| as real / w
    ensures Moment(ps) == Scale(1.0 / w, PositionSum(ps))
  {
    if ps != [] {
      var init := ps[..|ps| - 1];
      EqualMassSums(init, w);
      QuotientStep(|init| as real, w);
      ScaleAdd(1.0 / w, PositionSum(init), ps[|ps| - 1].p);
    }
  }

  /**
   * Shifting every position by -c: if each particle's offset is p - c, the
   * mass-weighted offsets sum to the moment minus total mass times c.
   */
  lemma {:induction false} OffsetMomentShift(ps: seq<Particle>, c: Vec3)
    requires AllFinite(ps)
    requires forall i :: 0 <= i < |ps| ==> ps[i].initialOffsetFromCom == Sub(ps[i].p, c)
    ensures OffsetMoment(ps) == Sub(Moment(ps), Scale(TotalMass(ps), c))
  {
    if ps != [] {
      var init, last := ps[..|ps| - 1], ps[|ps| - 1];
      OffsetMomentShift(init, c);
      ShiftStep(Moment(init), TotalMass(init), c, 1.0 / last.invMass, last.p);
    }
  }

  /** Offsets taken from the centre of mass balance: their mass-weighted sum is zero. */
  lemma OffsetsFromComBalance(ps: seq<Particle>)
    requires AllFinite(ps) && TotalMass(ps) != 0.0
    requires forall i :: 0 <= i < |ps| ==> ps[i].initialOffsetFromCom == Sub(ps[i].p, Com(ps))
    ensures OffsetMoment(ps) == Zero
  {
    OffsetMomentShift(ps, Com(ps));
    ScaleInverse(TotalMass(ps), Moment(ps));
    SubSelf(Moment(ps));
  }

  /** Every particle's offset from the centre of mass set to p - c; nothing else changes. */
  function WithOffsetsFrom(ps: seq<Particle>, c: Vec3): (qs: seq<Particle>)
    ensures |qs| == |ps|
    ensures forall i :: 0 <= i < |ps| ==>
      qs[i].initialOffsetFromCom == Sub(ps[i].p, c) && qs[i] == ps[i].(initialOffsetFromCom := qs[i].initialOffsetFromCom)
  {
    seq(|ps|, i requires 0 <= i < |ps| => ps[i].(initialOffsetFromCom := Sub(ps[i].p, c)))
  }

  /** Mass and moment depend only on the positions and inverse masses. */
  lemma {:induction false} SameMassDistribution(ps: seq<Particle>, qs: seq<Particle>)
    requires |ps| == |qs| && AllFinite(ps)
    requires forall i :: 0 <= i < |ps| ==> ps[i].p == qs[i].p && ps[i].invMass == qs[i].invMass
    ensures AllFinite(qs) && TotalMass(qs) == TotalMass(ps) && Moment(qs) == Moment(ps)
  {
    if ps != [] {
      SameMassDistribution(ps[..|ps| - 1], qs[..|qs| - 1]);
    }
  }

  /**
   * Recording every particle's offset from the group's centre of mass keeps
   * that centre and makes the mass-weighted offsets sum to zero.
   */
  lemma ComOffsetsBalance(ps: seq<Particle>)
    requires AllFinite(ps) && TotalMass(ps) != 0.0
    ensures var qs := WithOffsetsFrom(ps, Com(ps));
            AllFinite(qs) && TotalMass(qs) != 0.0 && Com(qs) == Com(ps) && OffsetMoment(qs) == Zero
  {
    var qs := WithOffsetsFrom(ps, Com(ps));
    SameMassDistribution(ps, qs);
    OffsetsFromComBalance(qs);
  }

  // ---------------------------------------------------------------------
  // Collision and environment projection (code/hb_pbd.cpp)
  // ---------------------------------------------------------------------

  datatype CollisionSolution = CollisionSolution(offset0: Vec3, offset1: Vec3)

  /**
   * `solve_collision_constraint`: None where the source leaves `solution`
   * untouched, i.e. both particles are immovable or the spheres do not
   * penetrate.  Otherwise lambda = -C / (w0 + w1) and each particle moves by
   * lambda * w_i along its gradient, +normalize(p0 - p1) for particle 0 and
   * its negation for particle 1.
   */
  function SolveCollision(m: Math, c: CollisionConstraint, p0: Vec3, p1: Vec3): (s: Option<CollisionSolution>)
    ensures s.None? <==>
      (c.particle0.invMass + c.particle1.invMass == 0.0
       || CollisionC(m, p0, p1, c.particle0.r, c.particle1.r) >= 0.0)
  {
    var w0, w1 := c.particle0.invMass, c.particle1.invMass;
    if w0 + w1 != 0.0 then
      var delta := Sub(p0, p1);
      var restLength := c.particle0.r + c.particle1.r;
      var C := m.length(delta) - restLength;
      if C < 0.0 then
        var gradient0 := m.normalize(delta);
        var gradient1 := Neg(gradient0);
        var lambda := -C / (w0 + w1);
        Some(CollisionSolution(Scale(lambda * w0, gradient0), Scale(lambda * w1, gradient1)))
      else
        None
    else
      None
  }

  /**
   * The inverse-mass-weighted offsets of a collision correction cancel (no
   * net linear momentum), and an immovable particle receives no offset.
   */
  lemma CollisionConservesMomentum(m: Math, c: CollisionConstraint, p0: Vec3, p1: Vec3)
    requires SolveCollision(m, c, p0, p1).Some?
    ensures var s, w0, w1 := SolveCollision(m, c, p0, p1).value, c.particle0.invMass, c.particle1.invMass;
            && Add(Scale(w1, s.offset0), Scale(w0, s.offset1)) == Zero
            && (w0 == 0.0 ==> s.offset0 == Zero)
            && (w1 == 0.0 ==> s.offset1 == Zero)
  {
    var s := SolveCollision(m, c, p0, p1).value;
    var w0, w1 := c.particle0.invMass, c.particle1.invMass;
    var C := m.length(Sub(p0, p1)) - (c.particle0.r + c.particle1.r);
    var g := m.normalize(Sub(p0, p1));
    var lambda := -C / (w0 + w1);
    assert s.offset0 == Scale(lambda * w0, g);
    assert s.offset1 == Scale(lambda * w1, Neg(g));
    MomentumCancels(lambda, w0, w1, g, s.offset0, s.offset1);
  }

  /** Offsets lambda w0 g and -lambda w1 g: their w1/w0-weighted sum is zero, and a zero weight gives a zero offset. */
  lemma MomentumCancels(lambda: real, w0: real, w1: real, g: Vec3, offset0: Vec3, offset1: Vec3)
    requires offset0 == Scale(lambda * w0, g) && offset1 == Scale(lambda * w1, Neg(g))
    ensures Add(Scale(w1, offset0), Scale(w0, offset1)) == Zero
    ensures w0 == 0.0 ==> offset0 == Zero
    ensures w1 == 0.0 ==> offset1 == Zero
  {
  }

  /**
   * Applying a collision correction to two penetrating particles at distinct
   * centres (non-zero separation length) leaves them exactly touching: the
   * constraint value becomes 0.
   */
  lemma CollisionResolvesPenetration(m: Math, c: CollisionConstraint, p0: Vec3, p1: Vec3)
    requires Lawful(m)
    requires SolveCollision(m, c, p0, p1).Some?
    requires m.length(Sub(p0, p1)) != 0.0
    ensures var s := SolveCollision(m, c, p0, p1).value;
            CollisionC(m, Add(p0, s.offset0), Add(p1, s.offset1), c.particle0.r, c.particle1.r) == 0.0
  {
    var s := SolveCollision(m, c, p0, p1).value;
    var w0, w1 := c.particle0.invMass, c.particle1.invMass;
    var delta := Sub(p0, p1);
    var l, rest := m.length(delta), c.particle0.r + c.particle1.r;
    var C := l - rest;
    var lambda, k := -C / (w0 + w1), 1.0 / l;
    var g := m.normalize(delta);
    assert s.offset0 == Scale(lambda * w0, g);
    assert s.offset1 == Scale(lambda * w1, Neg(g));
    NormalizeDivides(m, delta);
    CollisionFactor(C, lambda, w0, w1, k, l, rest);
    RestFactor(k, l, rest);
    SeparationScaled(lambda * w0, lambda * w1, k, rest * k, p0, p1);
    LengthOfRescaled(m, Sub(Add(p0, s.offset0), Add(p1, s.offset1)), delta, rest * k, rest);
  }

  /** A vector that is v scaled by f >= 0, where f |v| = rest, has length rest. */
  lemma LengthOfRescaled(m: Math, u: Vec3, v: Vec3, f: real, rest: real)
    requires Lawful(m)
    requires u == Scale(f, v) && StretchesTo(f, m.length(v), rest)
    ensures m.length(u) == rest
  {
    LengthOfScaled(m, f, v);
  }

  /** Offsets a k (p0 - p1) and -b k (p0 - p1) rescale the separation p0 - p1 by f = 1 + a k + b k. */
  lemma SeparationScaled(a: real, b: real, k: real, f: real, p0: Vec3, p1: Vec3)
    requires RescalesBy(f, a, b, k)
    ensures var g := Scale(k, Sub(p0, p1));
            Sub(Add(p0, Scale(a, g)), Add(p1, Scale(b, Neg(g)))) == Scale(f, Sub(p0, p1))
  {
    var d, g := Sub(p0, p1), Scale(k, Sub(p0, p1));
    calc {
      Sub(Add(p0, Scale(a, g)), Add(p1, Scale(b, Neg(g))));
      { SubOfSums(p0, Scale(a, g), p1, Scale(b, Neg(g))); }
      Add(d, Sub(Scale(a, g), Scale(b, Neg(g))));
      { OpposedScales(a, b, g); }
      Add(d, Scale(a + b, g));
      { ScaleScale(a + b, k, d); }
      Add(d, Scale((a + b) * k, d));
      { AddScaled(d, (a + b) * k); }
      Scale(1.0 + (a + b) * k, d);
      { assert 1.0 + (a + b) * k == f; }
      Scale(f, d);
    }
  }

  /** f = 1 + a k + b k: the factor by which offsets a k d and -b k d stretch a separation d. */
  predicate RescalesBy(f: real, a: real, b: real, k: real)
  {
    f == 1.0 + a * k + b * k
  }

  /** f >= 0 takes the length l to rest. */
  predicate StretchesTo(f: real, l: real, rest: real)
  {
    0.0 <= f && f * l == rest
  }

  /** The collision multiplier lambda = -(l - rest) / (w0 + w1) turns 1 + lambda w0 k + lambda w1 k into rest k, k = 1 / l. */
  lemma CollisionFactor(C: real, lambda: real, w0: real, w1: real, k: real, l: real, rest: real)
    requires w0 + w1 != 0.0 && 0.0 < l && k == 1.0 / l
    requires C == l - rest && lambda == -C / (w0 + w1)
    ensures RescalesBy(rest * k, lambda * w0, lambda * w1, k)
  {
    assert lambda * (w0 + w1) == -C;
    assert lambda * w0 * k + lambda * w1 * k == lambda * (w0 + w1) * k;
    assert l * k == 1.0;
  }

  /** rest / l is a non-negative factor taking the length l to rest. */
  lemma RestFactor(k: real, l: real, rest: real)
    requires 0.0 < l < rest && k == 1.0 / l
    ensures StretchesTo(rest * k, l, rest)
  {
    assert l * k == 1.0;
  }

  /** With equal inverse masses each particle moves by half the penetration depth. */
  lemma CollisionEqualMassSplitsEvenly(m: Math, c: CollisionConstraint, p0: Vec3, p1: Vec3)
    requires Lawful(m)
    requires SolveCollision(m, c, p0, p1).Some?
    requires m.length(Sub(p0, p1)) != 0.0
    requires c.particle0.invMass == c.particle1.invMass
    ensures var s := SolveCollision(m, c, p0, p1).value;
            var depth := -CollisionC(m, p0, p1, c.particle0.r, c.particle1.r);
            m.length(s.offset0) == depth / 2.0 && m.length(s.offset1) == depth / 2.0
  {
    var s := SolveCollision(m, c, p0, p1).value;
    var w := c.particle0.invMass;
    var delta := Sub(p0, p1);
    var C := m.length(delta) - (c.particle0.r + c.particle1.r);
    NormalizeIsUnit(m, delta);
    var g := m.normalize(delta);
    var h := -C / 2.0;
    assert -C / (w + w) * w == h;
    assert s.offset0 == Scale(h, g);
    assert s.offset1 == Scale(h, Neg(g));
    LengthOfScaled(m, h, g);
    LengthOfScaled(m, h, Neg(g));
    UnitLength(m, g);
    LengthSquaredNeg(g);
    UnitLength(m, Neg(g));
  }

  /**
   * Two unit-radius particles of inverse mass 1 placed one unit apart: one
   * projection moves each half a unit straight away from the other.
   */
  lemma CollisionOverlapScenario(m: Math)
    requires Lawful(m)
    ensures var a := Particle(Zero, Zero, 1.0, 1.0, Zero, 0, Zero, Zero, 0);
            SolveCollision(m, CollisionConstraint(a, a), Vec3(0.0, 0.0, 0.0), Vec3(1.0, 0.0, 0.0))
              == Some(CollisionSolution(Vec3(-0.5, 0.0, 0.0), Vec3(0.5, 0.0, 0.0)))
  {
    var delta := Vec3(-1.0, 0.0, 0.0);
    assert Sub(Vec3(0.0, 0.0, 0.0), Vec3(1.0, 0.0, 0.0)) == delta;
    var l := m.length(delta);
    LengthOf(m, delta);
    SquareRootUnique(l, 1.0);
    NormalizeDivides(m, delta);
    assert m.normalize(delta) == delta;
  }

  datatype EnvironmentSolution = EnvironmentSolution(offset: Vec3)

  /**
   * `solve_environment_constraint`: None where the source leaves `solution`
   * untouched (immovable particle, or not below the plane); otherwise the
   * offset is -C along the plane normal, with no mass weighting.
   */
  function SolveEnvironment(c: EnvironmentConstraint, p: Vec3): (s: Option<EnvironmentSolution>)
    ensures s.None? <==> (c.particle.invMass == 0.0 || EnvironmentC(c.n, c.d, c.particle.r, p) >= 0.0)
    // with a unit normal the corrected position lies exactly on the offset plane
    ensures s.Some? && LengthSquared(c.n) == 1.0 ==>
      EnvironmentC(c.n, c.d, c.particle.r, Add(p, s.value.offset)) == 0.0
    // and the particle is pushed outward, along the normal
    ensures s.Some? && LengthSquared(c.n) == 1.0 ==>
      Dot(s.value.offset, c.n) == -EnvironmentC(c.n, c.d, c.particle.r, p) > 0.0
    ensures s.Some? ==> Cross(s.value.offset, c.n) == Zero
  {
    if c.particle.invMass != 0.0 then
      var d := Dot(c.n, p);
      var C := d - c.d - c.particle.r;
      if C < 0.0 then
        var lambda := -C;
        Some(EnvironmentSolution(Scale(lambda, c.n)))
      else
        None
    else
      None
  }
}
