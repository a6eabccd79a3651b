/**
 * Entities and the soft- and rigid-body builders (code/hb_entity.cpp).
 *
 * The game state's entity table is a sequence of entity objects; each entity
 * owns its particle group.  A freshly added entity's group is all zero, as the
 * zero-initialised entity storage of the source is.  The builders call the
 * particle allocator with a position, a radius and an inverse mass only; the
 * model passes velocity Zero and phase 0 for the parameters the call leaves
 * out.
 */
module Entities {
  import opened Vec
  import opened Pbd

  /** `particle_radius`: every particle a builder creates has radius 1. */
  const ParticleRadius: real := 1.0

  const ParticleDiameter: real := 2.0 * ParticleRadius

  /** The entity types the builders use. */
  datatype EntityType = Floor | Cube | PBD

  /** `is_entity_flag_set`: the two masks share a set bit. */
  predicate IsEntityFlagSet(flags: bv32, flag: bv32)
  {
    flags & flag != 0
  }

  /** Adding a non-empty flag to a mask makes it set; the empty mask has none set. */
  lemma FlagSetAfterAdding(flags: bv32, flag: bv32)
    ensures IsEntityFlagSet(flags | flag, flag) <==> flag != 0
    ensures !IsEntityFlagSet(0, flag)
  {
  }

  class Entity {
    var entityType: EntityType
    var flags: bv32
    var color: Vec3
    const group: ParticleGroup

    /** A zero-filled entity slot with its type and flags set. */
    constructor (entityType: EntityType, flags: bv32)
      ensures this.entityType == entityType && this.flags == flags && color == Zero
      ensures fresh(group) && group.start == 0 && group.count == 0
      ensures group.distanceConstraints == [] && group.volumeConstraints == []
      ensures group.invDistanceStiffness == 0.0
    {
      this.entityType := entityType;
      this.flags := flags;
      color := Zero;
      group := new ParticleGroup();
    }
  }

  /** `g` lies wholly before `h` in the pool, or one of them is empty. */
  ghost predicate Before(g: ParticleGroup, h: ParticleGroup)
    reads g, h
  {
    g.count == 0 || h.count == 0 || g.start + g.count <= h.start
  }

  ghost predicate InGroup(g: ParticleGroup, i: nat)
    reads g
  {
    g.start <= i < g.start + g.count
  }

  class GameState {
    var entities: seq<Entity>
    const maxEntityCount: nat
    const pool: ParticlePool

    ghost function Groups(): set<ParticleGroup>
      reads this
    {
      set e | e in entities :: e.group
    }

    /**
     * The table stays within its capacity, every entity owns its own group,
     * each group is a slice of the allocated part of the pool, and groups are
     * laid out in the order their entities were added.
     */
    ghost predicate Valid()
      reads this, pool, Groups()
    {
      && pool.Valid()
      && |entities| <= maxEntityCount
      && (forall i :: 0 <= i < |entities| ==> entities[i].group.start + entities[i].group.count <= pool.count)
      && (forall i, j :: 0 <= i < j < |entities| ==> entities[i].group != entities[j].group)
      && (forall i, j :: 0 <= i < j < |entities| ==> Before(entities[i].group, entities[j].group))
    }

    constructor (maxEntityCount: nat)
      ensures Valid() && entities == [] && this.maxEntityCount == maxEntityCount
      ensures fresh(pool) && fresh(pool.particles) && pool.count == 0
    {
      entities := [];
      this.maxEntityCount := maxEntityCount;
      pool := new ParticlePool();
    }

    /** No pool slot belongs to two entities' groups. */
    lemma GroupsDisjoint(i: nat, j: nat, k: nat)
      requires Valid()
      requires i < |entities| && j < |entities| && i != j
      ensures !(InGroup(entities[i].group, k) && InGroup(entities[j].group, k))
    {
      if i < j {
        assert Before(entities[i].group, entities[j].group);
      } else {
        assert Before(entities[j].group, entities[i].group);
      }
    }

    /**
     * `add_entity`: appends a zero-filled entity with the given type and
     * flags; the source asserts the table stays within its capacity.
     */
    method AddEntity(entityType: EntityType, flags: bv32) returns (e: Entity)
      requires Valid()
      requires |entities| < maxEntityCount
      modifies this
      ensures Valid()
      ensures entities == old(entities) + [e]
      ensures fresh(e) && fresh(e.group)
      ensures e.entityType == entityType && e.flags == flags && e.color == Zero
      ensures e.group.start == 0 && e.group.count == 0 && e.group.invDistanceStiffness == 0.0
      ensures e.group.distanceConstraints == [] && e.group.volumeConstraints == []
    {
      e := new Entity(entityType, flags);
      entities := entities + [e];
    }

    /**
     * `add_pbd_soft_body_tetrahedron_entity`: a new PBD entity whose group is
     * built by BuildTetrahedronBody.
     */
    method AddTetrahedron(m: Math, top: Vec3, bottom0: Vec3, bottom1: Vec3, bottom2: Vec3,
                          invEdgeStiffness: real, invMass: real, color: Vec3, flags: bv32)
      returns (e: Entity)
      requires Valid()
      requires |entities| < maxEntityCount
      requires pool.count + 4 <= PoolCapacity
      modifies this, pool, pool.particles
      ensures Valid()
      ensures entities == old(entities) + [e] && fresh(e)
      ensures e.entityType == PBD && e.flags == flags && e.color == color
      ensures e.group.start == old(pool.count) && e.group.count == 4 && pool.count == old(pool.count) + 4
      ensures pool.particles[..] == AllocateAll(old(pool.particles[..]), old(pool.count),
                                                [top, bottom0, bottom1, bottom2], Zero, ParticleRadius, ParticleInvMass(4, invMass))
      ensures e.group.invDistanceStiffness == invEdgeStiffness
      ensures e.group.distanceConstraints == TetrahedronEdgeList(m, top, bottom0, bottom1, bottom2)
      ensures e.group.volumeConstraints == [VolumeConstraint(0, 1, 2, 3, m.tetrahedronVolume(top, bottom0, bottom1, bottom2))]
    {
      e := AddEntity(PBD, flags);
      label registered:
      e.color := color;
      BuildTetrahedronBody(m, pool, e.group, top, bottom0, bottom1, bottom2, invEdgeStiffness, invMass);
      RegisteredGroupKeepsValid@registered();
    }

    /**
     * `add_pbd_soft_body_bipyramid_entity`: a new PBD entity whose group is
     * built by BuildBipyramidBody.
     */
    method AddBipyramid(m: Math, top0: Vec3, bottom0: Vec3, bottom1: Vec3, bottom2: Vec3, top1: Vec3,
                        invEdgeStiffness: real, invMass: real, color: Vec3, flags: bv32)
      returns (e: Entity)
      requires Valid()
      requires |entities| < maxEntityCount
      requires pool.count + 5 <= PoolCapacity
      modifies this, pool, pool.particles
      ensures Valid()
      ensures entities == old(entities) + [e] && fresh(e)
      ensures e.entityType == PBD && e.flags == flags && e.color == color
      ensures e.group.start == old(pool.count) && e.group.count == 5 && pool.count == old(pool.count) + 5
      ensures pool.particles[..] == AllocateAll(old(pool.particles[..]), old(pool.count),
                                                [top0, bottom0, bottom1, bottom2, top1], Zero, ParticleRadius, ParticleInvMass(5, invMass))
      ensures e.group.invDistanceStiffness == invEdgeStiffness
      ensures e.group.distanceConstraints == BipyramidEdgeList(m, top0, bottom0, bottom1, bottom2, top1)
      ensures e.group.volumeConstraints == [
        VolumeConstraint(0, 1, 2, 3, m.tetrahedronVolume(top0, bottom0, bottom1, bottom2)),
        VolumeConstraint(1, 2, 3, 4, m.tetrahedronVolume(bottom0, bottom1, bottom2, top1))]
    {
      e := AddEntity(PBD, flags);
      label registered:
      e.color := color;
      BuildBipyramidBody(m, pool, e.group, top0, bottom0, bottom1, bottom2, top1, invEdgeStiffness, invMass);
      RegisteredGroupKeepsValid@registered();
    }

    /**
     * `add_pbd_rigid_body_cube_entity`: a new Cube entity whose group is the
     * lattice BuildRigidBodyCubeBody allocates.
     */
    method AddRigidBodyCube(center: Vec3, dim: Vec3, color: Vec3, invMass: real, flags: bv32)
      returns (e: Entity)
      requires Valid()
      requires |entities| < maxEntityCount
      requires 0.0 < dim.x && 0.0 < dim.y && 0.0 < dim.z
      requires pool.count + RigidCubeCount(dim) <= PoolCapacity
      modifies this, pool, pool.particles
      ensures Valid()
      ensures entities == old(entities) + [e] && fresh(e)
      ensures e.entityType == Cube && e.flags == flags && e.color == color
      ensures e.group.start == old(pool.count) && e.group.count == RigidCubeCount(dim)
      ensures pool.count == old(pool.count) + RigidCubeCount(dim)
      ensures pool.particles[..] == RigidCubePool(old(pool.particles[..]), old(pool.count), center, dim, invMass)
      ensures e.group.distanceConstraints == [] && e.group.volumeConstraints == []
    {
      e := AddEntity(Cube, flags);
      label registered:
      e.color := color;
      BuildRigidBodyCubeBody(pool, e.group, center, dim, invMass);
      RegisteredGroupKeepsValid@registered();
    }

    /**
     * `add_pbd_cube_entity`: a new PBD entity whose group is the voxel block
     * BuildVoxelCubeBody allocates.
     */
    method AddVoxelCube(leftBottom: Vec3, countX: nat, countY: nat, countZ: nat,
                        invEdgeStiffness: real, invMass: real, color: Vec3, flags: bv32)
      returns (e: Entity)
      requires Valid()
      requires |entities| < maxEntityCount
      requires 0 < countX && 0 < countY && 0 < countZ
      requires invMass != 0.0
      requires pool.count + countX * countY * countZ <= PoolCapacity
      modifies this, pool, pool.particles
      ensures Valid()
      ensures entities == old(entities) + [e] && fresh(e)
      ensures e.entityType == PBD && e.flags == flags && e.color == color
      ensures e.group.start == old(pool.count) && e.group.count == countX * countY * countZ
      ensures pool.count == old(pool.count) + countX * countY * countZ
      ensures pool.particles[..] == VoxelPool(old(pool.particles[..]), old(pool.count), leftBottom, countX, countY, countZ, invMass)
      ensures e.group.invDistanceStiffness == invEdgeStiffness
      ensures e.group.distanceConstraints == [] && e.group.volumeConstraints == []
    {
      e := AddEntity(PBD, flags);
      label registered:
      e.color := color;
      BuildVoxelCubeBody(pool, e.group, leftBottom, countX, countY, countZ, invEdgeStiffness, invMass);
      RegisteredGroupKeepsValid@registered();
    }

    /**
     * The last entity's group, registered empty and then built from the pool
     * count of that moment on, keeps the table valid: every earlier group
     * ends at or before that count and none of them changed.
     */
    twostate lemma RegisteredGroupKeepsValid()
      requires old(Valid()) && |old(entities)| > 0 && entities == old(entities)
      requires pool.Valid() && old(pool.count) <= pool.count
      requires var g := entities[|entities| - 1].group;
               g.start == old(pool.count) && g.start + g.count <= pool.count
      requires forall i :: 0 <= i < |entities| - 1 ==> unchanged(entities[i].group)
      ensures Valid()
    {
    }
  }

  /**
   * The body of `add_pbd_soft_body_tetrahedron_entity` after `add_entity`:
   * four particles (top, then the counter-clockwise base) of inverse mass
   * 4 * invMass, the six edges and one volume constraint.
   */
  method BuildTetrahedronBody(m: Math, pool: ParticlePool, group: ParticleGroup,
                              top: Vec3, bottom0: Vec3, bottom1: Vec3, bottom2: Vec3,
                              invEdgeStiffness: real, invMass: real)
    requires pool.Valid()
    requires pool.count + 4 <= PoolCapacity
    modifies pool, pool.particles, group
    ensures pool.Valid()
    ensures group.start == old(pool.count) && group.count == 4 && pool.count == old(pool.count) + 4
    ensures pool.particles[..] == AllocateAll(old(pool.particles[..]), old(pool.count),
                                              [top, bottom0, bottom1, bottom2], Zero, ParticleRadius, ParticleInvMass(4, invMass))
    ensures group.invDistanceStiffness == invEdgeStiffness
    ensures group.distanceConstraints == TetrahedronEdgeList(m, top, bottom0, bottom1, bottom2)
    ensures group.volumeConstraints == [VolumeConstraint(0, 1, 2, 3, m.tetrahedronVolume(top, bottom0, bottom1, bottom2))]
  {
    var invParticleMass := ParticleInvMass(4, invMass);
    AllocateTetrahedron(pool, group, top, bottom0, bottom1, bottom2, invParticleMass);

    group.distanceConstraints := [];
    group.invDistanceStiffness := invEdgeStiffness;
    AddTetrahedronEdges(m, pool, group, top, bottom0, bottom1, bottom2);

    group.volumeConstraints := [];
    AddVolumeConstraint(m, pool, group, 0, 1, 2, 3);
  }

  /**
   * The body of `add_pbd_soft_body_bipyramid_entity` after `add_entity`:
   * five particles (the apex top0, the base triangle, the apex top1) of
   * inverse mass 5 * invMass, nine edges and two volume constraints.
   */
  method BuildBipyramidBody(m: Math, pool: ParticlePool, group: ParticleGroup,
                            top0: Vec3, bottom0: Vec3, bottom1: Vec3, bottom2: Vec3, top1: Vec3,
                            invEdgeStiffness: real, invMass: real)
    requires pool.Valid()
    requires pool.count + 5 <= PoolCapacity
    modifies pool, pool.particles, group
    ensures pool.Valid()
    ensures group.start == old(pool.count) && group.count == 5 && pool.count == old(pool.count) + 5
    ensures pool.particles[..] == AllocateAll(old(pool.particles[..]), old(pool.count),
                                              [top0, bottom0, bottom1, bottom2, top1], Zero, ParticleRadius, ParticleInvMass(5, invMass))
    ensures group.invDistanceStiffness == invEdgeStiffness
    ensures group.distanceConstraints == BipyramidEdgeList(m, top0, bottom0, bottom1, bottom2, top1)
    ensures group.volumeConstraints == [
      VolumeConstraint(0, 1, 2, 3, m.tetrahedronVolume(top0, bottom0, bottom1, bottom2)),
      VolumeConstraint(1, 2, 3, 4, m.tetrahedronVolume(bottom0, bottom1, bottom2, top1))]
  {
    var vertexCount := 5;
    var invParticleMass := ParticleInvMass(vertexCount, invMass);
    AllocateBipyramid(pool, group, top0, bottom0, bottom1, bottom2, top1, invParticleMass);

    group.distanceConstraints := [];
    group.invDistanceStiffness := invEdgeStiffness;
    AddBipyramidEdges(m, pool, group, top0, bottom0, bottom1, bottom2, top1);

    group.volumeConstraints := [];
    AddVolumeConstraint(m, pool, group, 0, 1, 2, 3);
    AddVolumeConstraint(m, pool, group, 1, 2, 3, 4);
  }

  /** After allocating the listed positions, slot start + k holds the k-th of them. */
  lemma ListedPosition(t: seq<Particle>, s0: seq<Particle>, start: nat, ps: seq<Vec3>, invMass: real, k: nat)
    requires start + |ps| <= |s0| && k < |ps|
    requires t == AllocateAll(s0, start, ps, Zero, ParticleRadius, invMass)
    ensures t[start + k].p == ps[k]
  {
    AllocateAllAt(s0, start, ps, Zero, ParticleRadius, invMass);
  }

  /** One `allocate_particle_from_pool` call of a builder, the k-th of its listed positions. */
  method AllocateListed(pool: ParticlePool, ghost s0: seq<Particle>, ghost start: nat, ghost ps: seq<Vec3>, ghost k: nat,
                        p: Vec3, invMass: real)
    requires pool.Valid() && pool.count < PoolCapacity
    requires k < |ps| && ps[k] == p && pool.count == start + k && start + |ps| <= |s0|
    requires pool.particles[..] == AllocateAll(s0, start, ps[..k], Zero, ParticleRadius, invMass)
    modifies pool, pool.particles
    ensures pool.Valid() && pool.count == old(pool.count) + 1
    ensures pool.particles[..] == AllocateAll(s0, start, ps[..k + 1], Zero, ParticleRadius, invMass)
    ensures k + 1 == |ps| ==> pool.particles[..] == AllocateAll(s0, start, ps, Zero, ParticleRadius, invMass)
  {
    pool.Allocate(p, Zero, ParticleRadius, invMass, 0);
    assert ps[..k + 1][..k] == ps[..k];
    assert k + 1 == |ps| ==> ps[..k + 1] == ps;
  }

  /** The tetrahedron builder's allocation block: its four corners, in order. */
  method AllocateTetrahedron(pool: ParticlePool, group: ParticleGroup,
                             top: Vec3, bottom0: Vec3, bottom1: Vec3, bottom2: Vec3, invParticleMass: real)
    requires pool.Valid()
    requires pool.count + 4 <= PoolCapacity
    modifies pool, pool.particles, group`start, group`count
    ensures pool.Valid()
    ensures group.start == old(pool.count) && group.count == 4 && pool.count == old(pool.count) + 4
    ensures pool.particles[..] == AllocateAll(old(pool.particles[..]), old(pool.count),
                                              [top, bottom0, bottom1, bottom2], Zero, ParticleRadius, invParticleMass)
    ensures pool.particles[group.start].p == top && pool.particles[group.start + 1].p == bottom0
    ensures pool.particles[group.start + 2].p == bottom1 && pool.particles[group.start + 3].p == bottom2
  {
    ghost var s0 := pool.particles[..];
    ghost var start := pool.count;
    ghost var ps := [top, bottom0, bottom1, bottom2];
    group.StartAllocation(pool);
    AllocateTetrahedronPoints(pool, top, bottom0, bottom1, bottom2, invParticleMass);
    group.EndAllocation(pool);
    ListedPosition(pool.particles[..], s0, start, ps, invParticleMass, 0);
    ListedPosition(pool.particles[..], s0, start, ps, invParticleMass, 1);
    ListedPosition(pool.particles[..], s0, start, ps, invParticleMass, 2);
    ListedPosition(pool.particles[..], s0, start, ps, invParticleMass, 3);
  }

  /** The tetrahedron builder's four `allocate_particle_from_pool` calls, in order. */
  method AllocateTetrahedronPoints(pool: ParticlePool, top: Vec3, bottom0: Vec3, bottom1: Vec3, bottom2: Vec3, invParticleMass: real)
    requires pool.Valid()
    requires pool.count + 4 <= PoolCapacity
    modifies pool, pool.particles
    ensures pool.Valid() && pool.count == old(pool.count) + 4
    ensures pool.particles[..] == AllocateAll(old(pool.particles[..]), old(pool.count),
                                              [top, bottom0, bottom1, bottom2], Zero, ParticleRadius, invParticleMass)
  {
    ghost var s0 := pool.particles[..];
    ghost var start := pool.count;
    ghost var ps := [top, bottom0, bottom1, bottom2];
    AllocateListed(pool, s0, start, ps, 0, top, invParticleMass);
    AllocateListed(pool, s0, start, ps, 1, bottom0, invParticleMass);
    AllocateListed(pool, s0, start, ps, 2, bottom1, invParticleMass);
    AllocateListed(pool, s0, start, ps, 3, bottom2, invParticleMass);
  }


  /** The bipyramid builder's allocation block: its five corners, in order. */
  method AllocateBipyramid(pool: ParticlePool, group: ParticleGroup,
                           top0: Vec3, bottom0: Vec3, bottom1: Vec3, bottom2: Vec3, top1: Vec3, invParticleMass: real)
    requires pool.Valid()
    requires pool.count + 5 <= PoolCapacity
    modifies pool, pool.particles, group`start, group`count
    ensures pool.Valid()
    ensures group.start == old(pool.count) && group.count == 5 && pool.count == old(pool.count) + 5
    ensures pool.particles[..] == AllocateAll(old(pool.particles[..]), old(pool.count),
                                              [top0, bottom0, bottom1, bottom2, top1], Zero, ParticleRadius, invParticleMass)
    ensures pool.particles[group.start].p == top0 && pool.particles[group.start + 1].p == bottom0
    ensures pool.particles[group.start + 2].p == bottom1 && pool.particles[group.start + 3].p == bottom2
    ensures pool.particles[group.start + 4].p == top1
  {
    ghost var s0 := pool.particles[..];
    ghost var start := pool.count;
    ghost var ps := [top0, bottom0, bottom1, bottom2, top1];
    group.StartAllocation(pool);
    AllocateBipyramidPoints(pool, top0, bottom0, bottom1, bottom2, top1, invParticleMass);
    group.EndAllocation(pool);
    ListedPosition(pool.particles[..], s0, start, ps, invParticleMass, 0);
    ListedPosition(pool.particles[..], s0, start, ps, invParticleMass, 1);
    ListedPosition(pool.particles[..], s0, start, ps, invParticleMass, 2);
    ListedPosition(pool.particles[..], s0, start, ps, invParticleMass, 3);
    ListedPosition(pool.particles[..], s0, start, ps, invParticleMass, 4);
  }

  /** The bipyramid builder's five `allocate_particle_from_pool` calls, in order. */
  method AllocateBipyramidPoints(pool: ParticlePool, top0: Vec3, bottom0: Vec3, bottom1: Vec3, bottom2: Vec3, top1: Vec3,
                                 invParticleMass: real)
    requires pool.Valid()
    requires pool.count + 5 <= PoolCapacity
    modifies pool, pool.particles
    ensures pool.Valid() && pool.count == old(pool.count) + 5
    ensures pool.particles[..] == AllocateAll(old(pool.particles[..]), old(pool.count),
                                              [top0, bottom0, bottom1, bottom2, top1], Zero, ParticleRadius, invParticleMass)
  {
    ghost var s0 := pool.particles[..];
    ghost var start := pool.count;
    ghost var ps := [top0, bottom0, bottom1, bottom2, top1];
    AllocateListed(pool, s0, start, ps, 0, top0, invParticleMass);
    AllocateListed(pool, s0, start, ps, 1, bottom0, invParticleMass);
    AllocateListed(pool, s0, start, ps, 2, bottom1, invParticleMass);
    AllocateListed(pool, s0, start, ps, 3, bottom2, invParticleMass);
    AllocateListed(pool, s0, start, ps, 4, top1, invParticleMass);
  }


  /**
   * The body of `add_pbd_rigid_body_cube_entity` after `add_entity`: the
   * lattice of CubeCount particles per axis centred on `center`, each of
   * inverse mass (particle count) * invMass.  The source asserts the group
   * is not empty, so every extent must be positive.
   */
  method BuildRigidBodyCubeBody(pool: ParticlePool, group: ParticleGroup, center: Vec3, dim: Vec3, invMass: real)
    requires pool.Valid()
    requires 0.0 < dim.x && 0.0 < dim.y && 0.0 < dim.z
    requires pool.count + RigidCubeCount(dim) <= PoolCapacity
    modifies pool, pool.particles, group`start, group`count
    ensures pool.Valid()
    ensures group.start == old(pool.count) && group.count == RigidCubeCount(dim)
    ensures pool.count == old(pool.count) + RigidCubeCount(dim)
    ensures pool.particles[..] == RigidCubePool(old(pool.particles[..]), old(pool.count), center, dim, invMass)
  {
    var nx, ny, nz := CubeCount(dim.x), CubeCount(dim.y), CubeCount(dim.z);
    var total := nx * ny * nz;
    var invParticleMass := ParticleInvMass(total, invMass);
    ghost var s0 := pool.particles[..];
    ghost var start := pool.count;
    group.StartAllocation(pool);
    var corner := CubeCorner(center, nx, ny, nz);
    AllocateLattice(pool, corner, nx, ny, nz, invParticleMass);
    ghost var lattice := Lattice(corner, nx, ny, nz);
    assert pool.particles[..] == AllocateAll(s0, start, lattice, Zero, ParticleRadius, invParticleMass);
    PositiveProduct(nx, ny, nz);
    group.EndAllocation(pool);
    assert pool.particles[..] == AllocateAll(s0, start, lattice, Zero, ParticleRadius, invParticleMass);
    assert |lattice| == total;
  }

  /** `total_particle_count` of a rigid cube of the given extents. */
  function RigidCubeCount(dim: Vec3): (n: nat)
    requires 0.0 < dim.x && 0.0 < dim.y && 0.0 < dim.z
    ensures 1 <= n
  {
    PositiveProduct(CubeCount(dim.x), CubeCount(dim.y), CubeCount(dim.z));
    CubeCount(dim.x) * CubeCount(dim.y) * CubeCount(dim.z)
  }

  /**
   * The pool after `add_pbd_rigid_body_cube_entity`: the cube's lattice,
   * centred on `center`, allocated from `start` on with inverse mass
   * (particle count) * invMass each; the rest of the pool is untouched.
   */
  function RigidCubePool(s: seq<Particle>, start: nat, center: Vec3, dim: Vec3, invMass: real): (t: seq<Particle>)
    requires 0.0 < dim.x && 0.0 < dim.y && 0.0 < dim.z
    requires start + RigidCubeCount(dim) <= |s|
    ensures |t| == |s|
    ensures t[..start] == s[..start]
    ensures t[start + RigidCubeCount(dim)..] == s[start + RigidCubeCount(dim)..]
  {
    var nx, ny, nz := CubeCount(dim.x), CubeCount(dim.y), CubeCount(dim.z);
    var lattice := Lattice(CubeCorner(center, nx, ny, nz), nx, ny, nz);
    AllocatedOutside(s, start, lattice, Zero, ParticleRadius, ParticleInvMass(|lattice|, invMass));
    AllocateAll(s, start, lattice, Zero, ParticleRadius, ParticleInvMass(|lattice|, invMass))
  }

  /** A rigid cube weighs 1 / invMass, however many particles its extents call for. */
  lemma RigidCubeMass(s: seq<Particle>, start: nat, center: Vec3, dim: Vec3, invMass: real)
    requires 0.0 < dim.x && 0.0 < dim.y && 0.0 < dim.z
    requires start + RigidCubeCount(dim) <= |s|
    requires invMass != 0.0
    ensures var run := RigidCubePool(s, start, center, dim, invMass)[start..start + RigidCubeCount(dim)];
            AllFinite(run) && TotalMass(run) == 1.0 / invMass
  {
    var nx, ny, nz := CubeCount(dim.x), CubeCount(dim.y), CubeCount(dim.z);
    var lattice := Lattice(CubeCorner(center, nx, ny, nz), nx, ny, nz);
    AllocatedMass(s, start, lattice, Zero, ParticleRadius, invMass);
  }

  /** The rigid cube's particle LatticeIndex(x, y, z) sits at lattice point (x, y, z). */
  lemma RigidCubeAt(s: seq<Particle>, start: nat, center: Vec3, dim: Vec3, invMass: real, x: nat, y: nat, z: nat)
    requires 0.0 < dim.x && 0.0 < dim.y && 0.0 < dim.z
    requires start + RigidCubeCount(dim) <= |s|
    requires x < CubeCount(dim.x) && y < CubeCount(dim.y) && z < CubeCount(dim.z)
    ensures var nx, ny, nz := CubeCount(dim.x), CubeCount(dim.y), CubeCount(dim.z);
            && LatticeIndex(nx, ny, x, y, z) < RigidCubeCount(dim)
            && RigidCubePool(s, start, center, dim, invMass)[start + LatticeIndex(nx, ny, x, y, z)].p
               == LatticePoint(CubeCorner(center, nx, ny, nz), x, y, z)
  {
    var nx, ny, nz := CubeCount(dim.x), CubeCount(dim.y), CubeCount(dim.z);
    var corner := CubeCorner(center, nx, ny, nz);
    var lattice := Lattice(corner, nx, ny, nz);
    LatticeAt(corner, nx, ny, nz, x, y, z);
    var k := LatticeIndex(nx, ny, x, y, z);
    var w := ParticleInvMass(|lattice|, invMass);
    AllocatedRun(s, start, lattice, Zero, ParticleRadius, w);
    RunIndex(RigidCubePool(s, start, center, dim, invMass), start, |lattice|, k);
  }

  lemma RunIndex<T>(t: seq<T>, start: nat, len: nat, k: nat)
    requires start + len <= |t| && k < len
    ensures t[start..start + len][k] == t[start + k]
  {
  }

  /**
   * Particle (x, y, z) of a rigid cube and particle (nx-1-x, ny-1-y, nz-1-z)
   * are mirror images through `center`: the cube is centred on `center`
   * whatever the parity of its counts.
   */
  lemma RigidCubeCentred(s: seq<Particle>, start: nat, center: Vec3, dim: Vec3, invMass: real, x: nat, y: nat, z: nat)
    requires 0.0 < dim.x && 0.0 < dim.y && 0.0 < dim.z
    requires start + RigidCubeCount(dim) <= |s|
    requires x < CubeCount(dim.x) && y < CubeCount(dim.y) && z < CubeCount(dim.z)
    ensures var nx, ny, nz := CubeCount(dim.x), CubeCount(dim.y), CubeCount(dim.z);
            var t := RigidCubePool(s, start, center, dim, invMass);
            var i := start + LatticeIndex(nx, ny, x, y, z);
            var j := start + LatticeIndex(nx, ny, nx - 1 - x, ny - 1 - y, nz - 1 - z);
            i < |t| && j < |t| && Add(t[i].p, t[j].p) == Scale(2.0, center)
  {
    var nx, ny, nz := CubeCount(dim.x), CubeCount(dim.y), CubeCount(dim.z);
    RigidCubeAt(s, start, center, dim, invMass, x, y, z);
    RigidCubeAt(s, start, center, dim, invMass, nx - 1 - x, ny - 1 - y, nz - 1 - z);
    CubeCentred(center, nx, ny, nz, x, y, z);
  }

  /**
   * The pool after `add_pbd_cube_entity`: the voxel block VoxelBody with each
   * particle's offset from the block's centre of mass recorded; the rest of
   * the pool is untouched.
   */
  function VoxelPool(s: seq<Particle>, start: nat, leftBottom: Vec3, countX: nat, countY: nat, countZ: nat,
                     invMass: real): (t: seq<Particle>)
    requires 0 < countX && 0 < countY && 0 < countZ && invMass != 0.0
    requires start + countX * countY * countZ <= |s|
    ensures |t| == |s|
    ensures var n := countX * countY * countZ;
            var body := VoxelBody(s, start, leftBottom, countX, countY, countZ, invMass);
            && t[..start] == s[..start] && t[start + n..] == s[start + n..]
            && t[start..start + n] == WithOffsetsFrom(body, Com(body))
  {
    var n := countX * countY * countZ;
    var body := VoxelBody(s, start, leftBottom, countX, countY, countZ, invMass);
    SplitThree(s[..start], WithOffsetsFrom(body, Com(body)), s[start + n..]);
    s[..start] + WithOffsetsFrom(body, Com(body)) + s[start + n..]
  }

  /**
   * After `add_pbd_cube_entity` every particle of the block stores its
   * offset from the block's own centre of mass, which the offsets do not
   * move, and those offsets balance: their mass-weighted sum is zero.
   */
  lemma VoxelOffsetsBalance(s: seq<Particle>, start: nat, leftBottom: Vec3, countX: nat, countY: nat, countZ: nat,
                            invMass: real)
    requires 0 < countX && 0 < countY && 0 < countZ && invMass != 0.0
    requires start + countX * countY * countZ <= |s|
    ensures var n := countX * countY * countZ;
            var block := VoxelPool(s, start, leftBottom, countX, countY, countZ, invMass)[start..start + n];
            && AllFinite(block) && TotalMass(block) != 0.0
            && Com(block) == Com(VoxelBody(s, start, leftBottom, countX, countY, countZ, invMass))
            && (forall k :: 0 <= k < |block| ==> block[k].initialOffsetFromCom == Sub(block[k].p, Com(block)))
            && OffsetMoment(block) == Zero
  {
    var body := VoxelBody(s, start, leftBottom, countX, countY, countZ, invMass);
    ComOffsetsBalance(body);
  }

  /**
   * The voxel block as first allocated: particle k is lattice point k, of
   * inverse mass 8 * invMass; so the block has a positive total mass and a
   * centre of mass.
   */
  function VoxelBody(s: seq<Particle>, start: nat, leftBottom: Vec3, countX: nat, countY: nat, countZ: nat,
                     invMass: real): (body: seq<Particle>)
    requires 0 < countX && 0 < countY && 0 < countZ && invMass != 0.0
    requires start + countX * countY * countZ <= |s|
    ensures |body| == countX * countY * countZ
    ensures forall k :: 0 <= k < |body| ==>
              body[k].p == Lattice(leftBottom, countX, countY, countZ)[k] && body[k].invMass == ParticleInvMass(8, invMass)
    ensures AllFinite(body) && TotalMass(body) != 0.0
  {
    var lattice := Lattice(leftBottom, countX, countY, countZ);
    var w := ParticleInvMass(8, invMass);
    var body := AllocateAll(s, start, lattice, Zero, ParticleRadius, w)[start..start + |lattice|];
    AllocatedRun(s, start, lattice, Zero, ParticleRadius, w);
    PositiveProduct(countX, countY, countZ);
    assert body != [] && w != 0.0;
    EqualMassComIsMean(body, w);
    body
  }

  lemma SplitThree<T>(a: seq<T>, b: seq<T>, c: seq<T>)
    ensures var t := a + b + c;
            t[..|a|] == a && t[|a|..|a| + |b|] == b && t[|a| + |b|..] == c
  {
  }

  /**
   * The body of `add_pbd_cube_entity` after `add_entity`: allocates the voxel
   * lattice, computes the group's centre of mass and stores every particle's
   * offset from it.  The source asserts the group is not empty; a zero
   * inverse mass would leave the centre of mass undefined.
   */
  method BuildVoxelCubeBody(pool: ParticlePool, group: ParticleGroup, leftBottom: Vec3,
                            countX: nat, countY: nat, countZ: nat, invEdgeStiffness: real, invMass: real)
    requires pool.Valid()
    requires 0 < countX && 0 < countY && 0 < countZ
    requires invMass != 0.0
    requires pool.count + countX * countY * countZ <= PoolCapacity
    modifies pool, pool.particles, group`start, group`count, group`invDistanceStiffness
    ensures pool.Valid()
    ensures group.start == old(pool.count) && group.count == countX * countY * countZ
    ensures pool.count == old(pool.count) + countX * countY * countZ
    ensures pool.particles[..] == VoxelPool(old(pool.particles[..]), old(pool.count), leftBottom, countX, countY, countZ, invMass)
    ensures group.invDistanceStiffness == invEdgeStiffness
  {
    ghost var s0 := pool.particles[..];
    ghost var start := pool.count;
    AllocateVoxelBlock(pool, group, leftBottom, countX, countY, countZ, invMass);
    VoxelBlockAllocated(s0, start, leftBottom, countX, countY, countZ, invMass);
    ghost var filled := pool.particles[..];
    var com := ComOfGroup(pool, group);
    SetOffsetsFromCom(pool, group, com);
    VoxelOffsetsRecorded(s0, filled, start, leftBottom, countX, countY, countZ, invMass);
    group.invDistanceStiffness := invEdgeStiffness;
  }

  /**
   * The allocation loops of `add_pbd_cube_entity`: the lattice of voxel
   * centres, each particle carrying inverse mass 8 * invMass, bracketed by
   * the group's start and end of allocation.
   */
  method AllocateVoxelBlock(pool: ParticlePool, group: ParticleGroup, leftBottom: Vec3,
                            countX: nat, countY: nat, countZ: nat, invMass: real)
    requires pool.Valid()
    requires 0 < countX && 0 < countY && 0 < countZ
    requires pool.count + countX * countY * countZ <= PoolCapacity
    modifies pool, pool.particles, group`start, group`count
    ensures pool.Valid()
    ensures group.start == old(pool.count) && group.count == countX * countY * countZ
    ensures pool.count == old(pool.count) + countX * countY * countZ
    ensures pool.particles[..] == AllocateAll(old(pool.particles[..]), old(pool.count), Lattice(leftBottom, countX, countY, countZ),
                                              Zero, ParticleRadius, ParticleInvMass(8, invMass))
  {
    var vertexCount := 8;
    var invParticleMass := ParticleInvMass(vertexCount, invMass);
    group.StartAllocation(pool);
    AllocateLattice(pool, leftBottom, countX, countY, countZ, invParticleMass);
    PositiveProduct(countX, countY, countZ);
    group.EndAllocation(pool);
  }

  /** The lattice allocation leaves the voxel body in its run and the rest of the pool as it was. */
  lemma VoxelBlockAllocated(s: seq<Particle>, start: nat, leftBottom: Vec3, countX: nat, countY: nat, countZ: nat,
                            invMass: real)
    requires 0 < countX && 0 < countY && 0 < countZ && invMass != 0.0
    requires start + countX * countY * countZ <= |s|
    ensures var n := countX * countY * countZ;
            var t := AllocateAll(s, start, Lattice(leftBottom, countX, countY, countZ), Zero, ParticleRadius,
                                 ParticleInvMass(8, invMass));
            && t[start..start + n] == VoxelBody(s, start, leftBottom, countX, countY, countZ, invMass)
            && t[..start] == s[..start] && t[start + n..] == s[start + n..]
  {
    AllocatedOutside(s, start, Lattice(leftBottom, countX, countY, countZ), Zero, ParticleRadius, ParticleInvMass(8, invMass));
  }

  /** Recording the offsets from the body's centre of mass over the allocated pool gives VoxelPool. */
  lemma VoxelOffsetsRecorded(s: seq<Particle>, filled: seq<Particle>, start: nat, leftBottom: Vec3,
                             countX: nat, countY: nat, countZ: nat, invMass: real)
    requires 0 < countX && 0 < countY && 0 < countZ && invMass != 0.0
    requires start + countX * countY * countZ <= |s| == |filled|
    requires var n := countX * countY * countZ;
             && filled[start..start + n] == VoxelBody(s, start, leftBottom, countX, countY, countZ, invMass)
             && filled[..start] == s[..start] && filled[start + n..] == s[start + n..]
    ensures var n := countX * countY * countZ;
            filled[..start] + WithOffsetsFrom(filled[start..start + n], Com(filled[start..start + n])) + filled[start + n..]
              == VoxelPool(s, start, leftBottom, countX, countY, countZ, invMass)
  {
  }

  /**
   * The last loop of `add_pbd_cube_entity`: every particle of the group
   * records its offset from `com`; nothing outside the group changes.
   */
  method SetOffsetsFromCom(pool: ParticlePool, group: ParticleGroup, com: Vec3)
    requires group.start + group.count <= pool.particles.Length
    modifies pool.particles
    ensures var s, start, end := old(pool.particles[..]), group.start, group.start + group.count;
            pool.particles[..] == s[..start] + WithOffsetsFrom(s[start..end], com) + s[end..]
  {
    var particles, start, count := pool.particles, group.start, group.count;
    ghost var s := particles[..];
    ghost var body := s[start..start + count];
    var i := 0;
    while i < count
      invariant 0 <= i <= count
      invariant particles[..] == s[..start] + WithOffsetsFrom(body, com)[..i] + s[start + i..]
    {
      OffsetStep(s, start, body, com, i);
      var particle := particles[start + i];
      particles[start + i] := particle.(initialOffsetFromCom := Sub(particle.p, com));
      i := i + 1;
    }
    assert WithOffsetsFrom(body, com)[..i] == WithOffsetsFrom(body, com);
  }

  /** Recording offset i of the block extends the recorded prefix by one particle. */
  lemma OffsetStep(s: seq<Particle>, start: nat, body: seq<Particle>, com: Vec3, i: nat)
    requires i < |body| && start + |body| <= |s| && body == s[start..start + |body|]
    ensures var t := s[..start] + WithOffsetsFrom(body, com)[..i] + s[start + i..];
            && t[start + i] == body[i]
            && t[start + i := body[i].(initialOffsetFromCom := Sub(body[i].p, com))]
                 == s[..start] + WithOffsetsFrom(body, com)[..i + 1] + s[start + i + 1..]
  {
    var w := WithOffsetsFrom(body, com);
    assert w[..i + 1] == w[..i] + [w[i]];
  }

  /** `ceil_f32_to_u32(dim / particle_diameter)`: particles along one axis of a rigid cube. */
  function CubeCount(extent: real): (n: nat)
    requires 0.0 < extent
    ensures 1 <= n
  {
    Ceil(extent / ParticleDiameter)
  }

  /**
   * The particles along an axis span the extent, and one fewer would not:
   * the count is the smallest that covers it.
   */
  lemma CubeCountCovers(extent: real)
    requires 0.0 < extent
    ensures var n := CubeCount(extent);
            (n - 1) as real * ParticleDiameter < extent <= n as real * ParticleDiameter
  {
  }

  /**
   * The first particle of a rigid cube: the lattice of nx * ny * nz points at
   * spacing `ParticleDiameter` starting here is centred on `center`.
   */
  function CubeCorner(center: Vec3, nx: nat, ny: nat, nz: nat): Vec3
    requires 1 <= nx && 1 <= ny && 1 <= nz
  {
    Sub(center, Scale(ParticleDiameter, Vec3((nx - 1) as real / 2.0, (ny - 1) as real / 2.0, (nz - 1) as real / 2.0)))
  }

  /** Lattice point (x, y, z): `corner + diameter * (x, y, z)`. */
  function LatticePoint(corner: Vec3, x: nat, y: nat, z: nat): Vec3
  {
    Add(corner, Scale(ParticleDiameter, Vec3(x as real, y as real, z as real)))
  }

  /** Where lattice point (x, y, z) comes in allocation order: x fastest, then y, then z. */
  function LatticeIndex(nx: nat, ny: nat, x: nat, y: nat, z: nat): nat
  {
    x + nx * (y + ny * z)
  }

  /** The first nx points of row (y, z), in increasing x. */
  function Row(corner: Vec3, nx: nat, y: nat, z: nat): (r: seq<Vec3>)
    ensures |r| == nx
  {
    if nx == 0 then [] else Row(corner, nx - 1, y, z) + [LatticePoint(corner, nx - 1, y, z)]
  }

  /** The first ny rows of plane z, in increasing y. */
  function Plane(corner: Vec3, nx: nat, ny: nat, z: nat): (r: seq<Vec3>)
    ensures |r| == nx * ny
  {
    if ny == 0 then []
    else
      ProductStep(nx, ny - 1);
      Plane(corner, nx, ny - 1, z) + Row(corner, nx, ny - 1, z)
  }

  /** The first nz planes, in increasing z: the order the builders' loops allocate in. */
  function Lattice(corner: Vec3, nx: nat, ny: nat, nz: nat): (r: seq<Vec3>)
    ensures |r| == nx * ny * nz
  {
    if nz == 0 then []
    else
      ProductStep(nx * ny, nz - 1);
      Lattice(corner, nx, ny, nz - 1) + Plane(corner, nx, ny, nz - 1)
  }

  lemma ProductStep(a: nat, b: nat)
    ensures a * b + a == a * (b + 1)
  {
  }

  lemma {:induction false} RowAt(corner: Vec3, nx: nat, y: nat, z: nat, x: nat)
    requires x < nx
    ensures Row(corner, nx, y, z)[x] == LatticePoint(corner, x, y, z)
  {
    if x < nx - 1 {
      RowAt(corner, nx - 1, y, z, x);
    }
  }

  lemma {:induction false} PlaneAt(corner: Vec3, nx: nat, ny: nat, z: nat, x: nat, y: nat)
    requires x < nx && y < ny
    ensures Plane(corner, nx, ny, z)[x + nx * y] == LatticePoint(corner, x, y, z)
  {
    var front := Plane(corner, nx, ny - 1, z);
    assert Plane(corner, nx, ny, z) == front + Row(corner, nx, ny - 1, z);
    if y < ny - 1 {
      RowBelow(nx, ny - 1, x, y);
      PlaneAt(corner, nx, ny - 1, z, x, y);
    } else {
      assert x + nx * y == |front| + x;
      RowAt(corner, nx, y, z, x);
    }
  }

  lemma RowBelow(nx: nat, rows: nat, x: nat, y: nat)
    requires x < nx && y < rows
    ensures x + nx * y < nx * rows
  {
    assert x + nx * y < nx + nx * y == nx * (y + 1);
    assert nx * (y + 1) <= nx * rows;
  }

  /**
   * Particle x + nx * (y + ny * z) of a lattice is point (x, y, z): the
   * builders lay particles out with x varying fastest, then y, then z.
   */
  lemma {:induction false} LatticeAt(corner: Vec3, nx: nat, ny: nat, nz: nat, x: nat, y: nat, z: nat)
    requires x < nx && y < ny && z < nz
    ensures LatticeIndex(nx, ny, x, y, z) < |Lattice(corner, nx, ny, nz)|
            && Lattice(corner, nx, ny, nz)[LatticeIndex(nx, ny, x, y, z)] == LatticePoint(corner, x, y, z)
  {
    var front := Lattice(corner, nx, ny, nz - 1);
    var back := Plane(corner, nx, ny, nz - 1);
    assert Lattice(corner, nx, ny, nz) == front + back;
    var k := x + nx * y;
    IndexSplit(nx, ny, x, y, z);
    RowBelow(nx, ny, x, y);
    if z < nz - 1 {
      PlaneBelow(nx * ny, nz - 1, k, z);
      LatticeAt(corner, nx, ny, nz - 1, x, y, z);
      ConcatFront(front, back, k + nx * ny * z);
    } else {
      PlaneAt(corner, nx, ny, z, x, y);
      ConcatBack(front, back, nx * ny, nz, k, z);
    }
  }

  lemma ConcatFront<T>(front: seq<T>, back: seq<T>, i: nat)
    requires i < |front|
    ensures (front + back)[i] == front[i]
  {
  }

  lemma ConcatBack<T>(front: seq<T>, back: seq<T>, size: nat, n: nat, k: nat, z: nat)
    requires |front| == size * (n - 1) && 1 <= n && |back| == size
    requires k < size && z == n - 1
    ensures (front + back)[k + size * z] == back[k]
  {
  }

  lemma IndexSplit(nx: nat, ny: nat, x: nat, y: nat, z: nat)
    ensures x + nx * (y + ny * z) == (x + nx * y) + nx * ny * z
  {
  }

  lemma PlaneBelow(size: nat, planes: nat, k: nat, z: nat)
    requires k < size && z < planes
    ensures k + size * z < size * planes
  {
    assert k + size * z < size + size * z == size * (z + 1);
    assert size * (z + 1) <= size * planes;
  }

  /** A rigid cube is centred: each lattice point's mirror image through `center` is a lattice point too. */
  lemma CubeCentred(center: Vec3, nx: nat, ny: nat, nz: nat, x: nat, y: nat, z: nat)
    requires 1 <= nx && 1 <= ny && 1 <= nz
    requires x < nx && y < ny && z < nz
    ensures var corner := CubeCorner(center, nx, ny, nz);
            Add(LatticePoint(corner, x, y, z), LatticePoint(corner, nx - 1 - x, ny - 1 - y, nz - 1 - z))
              == Scale(2.0, center)
  {
  }

  lemma PositiveProduct(a: nat, b: nat, c: nat)
    requires 0 < a && 0 < b && 0 < c
    ensures 0 < a * b * c
  {
    assert 0 < a * b;
  }

  /**
   * The innermost loop of the cube builders: allocates row (y, z) in
   * increasing x, with radius 1, zero velocity and the given inverse mass.
   */
  method AllocateRow(pool: ParticlePool, corner: Vec3, nx: nat, y: nat, z: nat, invMass: real)
    requires pool.Valid()
    requires pool.count + nx <= PoolCapacity
    modifies pool, pool.particles
    ensures pool.Valid()
    ensures pool.count == old(pool.count) + nx
    ensures pool.particles[..] == AllocateAll(old(pool.particles[..]), old(pool.count),
                                              Row(corner, nx, y, z), Zero, ParticleRadius, invMass)
  {
    ghost var s0 := pool.particles[..];
    ghost var start := pool.count;
    var x := 0;
    while x < nx
      invariant 0 <= x <= nx
      invariant pool.Valid()
      invariant pool.count == start + x
      invariant pool.particles[..] == AllocateAll(s0, start, Row(corner, x, y, z), Zero, ParticleRadius, invMass)
    {
      pool.Allocate(LatticePoint(corner, x, y, z), Zero, ParticleRadius, invMass, 0);
      AllocateAllSnoc(s0, start, Row(corner, x, y, z), LatticePoint(corner, x, y, z), Zero, ParticleRadius, invMass);
      x := x + 1;
    }
  }

  /** The middle loop: the rows of plane z in increasing y. */
  method AllocatePlane(pool: ParticlePool, corner: Vec3, nx: nat, ny: nat, z: nat, invMass: real)
    requires pool.Valid()
    requires pool.count + nx * ny <= PoolCapacity
    modifies pool, pool.particles
    ensures pool.Valid()
    ensures pool.count == old(pool.count) + nx * ny
    ensures pool.particles[..] == AllocateAll(old(pool.particles[..]), old(pool.count),
                                              Plane(corner, nx, ny, z), Zero, ParticleRadius, invMass)
  {
    ghost var s0 := pool.particles[..];
    ghost var start := pool.count;
    var y := 0;
    while y < ny
      invariant 0 <= y <= ny
      invariant pool.Valid()
      invariant pool.count == start + |Plane(corner, nx, y, z)|
      invariant pool.particles[..] == AllocateAll(s0, start, Plane(corner, nx, y, z), Zero, ParticleRadius, invMass)
    {
      PlaneStep(corner, nx, ny, z, y);
      AllocateRow(pool, corner, nx, y, z, invMass);
      AllocateAllAppend(s0, start, Plane(corner, nx, y, z), Row(corner, nx, y, z), Zero, ParticleRadius, invMass);
      y := y + 1;
    }
  }

  /** One more row extends the plane by nx points and stays within the full plane. */
  lemma PlaneStep(corner: Vec3, nx: nat, ny: nat, z: nat, y: nat)
    requires y < ny
    ensures Plane(corner, nx, y + 1, z) == Plane(corner, nx, y, z) + Row(corner, nx, y, z)
    ensures |Plane(corner, nx, y + 1, z)| == |Plane(corner, nx, y, z)| + nx
    ensures |Plane(corner, nx, y, z)| + nx <= |Plane(corner, nx, ny, z)|
  {
    ProductBelow(nx, y, ny);
  }

  /**
   * The cube builders' triple loop: the planes in increasing z, so x varies
   * fastest, then y, then z.
   */
  method AllocateLattice(pool: ParticlePool, corner: Vec3, nx: nat, ny: nat, nz: nat, invMass: real)
    requires pool.Valid()
    requires pool.count + nx * ny * nz <= PoolCapacity
    modifies pool, pool.particles
    ensures pool.Valid()
    ensures pool.count == old(pool.count) + nx * ny * nz
    ensures pool.particles[..] == AllocateAll(old(pool.particles[..]), old(pool.count),
                                              Lattice(corner, nx, ny, nz), Zero, ParticleRadius, invMass)
  {
    ghost var s0 := pool.particles[..];
    ghost var start := pool.count;
    var z := 0;
    while z < nz
      invariant 0 <= z <= nz
      invariant pool.Valid()
      invariant pool.count == start + |Lattice(corner, nx, ny, z)|
      invariant pool.particles[..] == AllocateAll(s0, start, Lattice(corner, nx, ny, z), Zero, ParticleRadius, invMass)
    {
      LatticeStep(corner, nx, ny, nz, z);
      AllocatePlane(pool, corner, nx, ny, z, invMass);
      AllocateAllAppend(s0, start, Lattice(corner, nx, ny, z), Plane(corner, nx, ny, z), Zero, ParticleRadius, invMass);
      z := z + 1;
    }
  }

  /** One more plane extends the lattice by nx * ny points and stays within the full lattice. */
  lemma LatticeStep(corner: Vec3, nx: nat, ny: nat, nz: nat, z: nat)
    requires z < nz
    ensures Lattice(corner, nx, ny, z + 1) == Lattice(corner, nx, ny, z) + Plane(corner, nx, ny, z)
    ensures |Lattice(corner, nx, ny, z)| + |Plane(corner, nx, ny, z)| <= |Lattice(corner, nx, ny, nz)|
  {
    ProductBelow(nx * ny, z, nz);
  }

  lemma ProductBelow(a: nat, b: nat, c: nat)
    requires b < c
    ensures a * b + a <= a * c
  {
    assert a * b + a == a * (b + 1);
  }

  // ---------------------------------------------------------------------
  // Distance and volume constraint authoring
  // ---------------------------------------------------------------------

  /** The constraint joins particles i and j, in either order. */
  predicate SameEdge(c: DistanceConstraint, i: nat, j: nat)
  {
    (c.index0 == i && c.index1 == j) || (c.index0 == j && c.index1 == i)
  }

  predicate HasEdge(cs: seq<DistanceConstraint>, i: nat, j: nat)
  {
    exists k :: 0 <= k < |cs| && SameEdge(cs[k], i, j)
  }

  /** No two constraints join the same unordered pair. */
  predicate NoDuplicateEdges(cs: seq<DistanceConstraint>)
  {
    forall a, b :: 0 <= a < b < |cs| ==> !SameEdge(cs[b], cs[a].index0, cs[a].index1)
  }

  /**
   * What `add_distance_constraint` does to the list: append `c` unless its
   * unordered pair is already joined.
   */
  function InsertEdge(cs: seq<DistanceConstraint>, c: DistanceConstraint): seq<DistanceConstraint>
  {
    if HasEdge(cs, c.index0, c.index1) then cs else cs + [c]
  }

  /** After an insertion the pair is joined, and exactly the pairs joined before or by `c` are. */
  lemma InsertEdgeJoins(cs: seq<DistanceConstraint>, c: DistanceConstraint, i: nat, j: nat)
    ensures HasEdge(InsertEdge(cs, c), c.index0, c.index1)
    ensures HasEdge(InsertEdge(cs, c), i, j) <==> HasEdge(cs, i, j) || SameEdge(c, i, j)
  {
    var r := InsertEdge(cs, c);
    if !HasEdge(cs, c.index0, c.index1) {
      assert r[|cs|] == c;
      if HasEdge(r, i, j) && !SameEdge(c, i, j) {
        var k :| 0 <= k < |r| && SameEdge(r[k], i, j);
        assert k < |cs| && r[k] == cs[k];
      }
      if HasEdge(cs, i, j) {
        var k :| 0 <= k < |cs| && SameEdge(cs[k], i, j);
        assert r[k] == cs[k];
      }
    }
  }

  /** Inserting the same pair again, in either order, changes nothing. */
  lemma InsertEdgeIdempotent(cs: seq<DistanceConstraint>, c: DistanceConstraint, d: DistanceConstraint)
    requires SameEdge(d, c.index0, c.index1)
    ensures InsertEdge(InsertEdge(cs, c), d) == InsertEdge(cs, c)
  {
    InsertEdgeJoins(cs, c, d.index0, d.index1);
  }

  /** Insertion keeps a duplicate-free list duplicate-free. */
  lemma InsertEdgeKeepsNoDuplicates(cs: seq<DistanceConstraint>, c: DistanceConstraint)
    requires NoDuplicateEdges(cs)
    ensures NoDuplicateEdges(InsertEdge(cs, c))
  {
    var r := InsertEdge(cs, c);
    if !HasEdge(cs, c.index0, c.index1) {
      forall a, b | 0 <= a < b < |r|
        ensures !SameEdge(r[b], r[a].index0, r[a].index1)
      {
        if b == |cs| {
          assert r[a] == cs[a];
          assert !SameEdge(cs[a], c.index0, c.index1);
        } else {
          assert r[a] == cs[a] && r[b] == cs[b];
        }
      }
    }
  }

  /** The six edges of a tetrahedron (0 the apex, 1..3 the base), with the rest lengths of the given corners. */
  function TetrahedronEdgeList(m: Math, top: Vec3, bottom0: Vec3, bottom1: Vec3, bottom2: Vec3): (cs: seq<DistanceConstraint>)
    ensures |cs| == 6 && NoDuplicateEdges(cs)
    ensures forall k :: 0 <= k < |cs| ==> cs[k].index0 < cs[k].index1 < 4
  {
    [DistanceConstraint(0, 1, m.length(Sub(top, bottom0))),
     DistanceConstraint(0, 2, m.length(Sub(top, bottom1))),
     DistanceConstraint(1, 2, m.length(Sub(bottom0, bottom1))),
     DistanceConstraint(0, 3, m.length(Sub(top, bottom2))),
     DistanceConstraint(1, 3, m.length(Sub(bottom0, bottom2))),
     DistanceConstraint(2, 3, m.length(Sub(bottom1, bottom2)))]
  }

  /** Every pair of the four corners is joined: the tetrahedron is fully braced. */
  lemma TetrahedronFullyBraced(m: Math, top: Vec3, bottom0: Vec3, bottom1: Vec3, bottom2: Vec3)
    ensures forall i, j :: 0 <= i < j < 4 ==> HasEdge(TetrahedronEdgeList(m, top, bottom0, bottom1, bottom2), i, j)
  {
    var cs := TetrahedronEdgeList(m, top, bottom0, bottom1, bottom2);
    forall i, j | 0 <= i < j < 4
      ensures HasEdge(cs, i, j)
    {
      if i == 0 && j == 1 { assert SameEdge(cs[0], i, j); }
      else if i == 0 && j == 2 { assert SameEdge(cs[1], i, j); }
      else if i == 1 && j == 2 { assert SameEdge(cs[2], i, j); }
      else if i == 0 && j == 3 { assert SameEdge(cs[3], i, j); }
      else if i == 1 && j == 3 { assert SameEdge(cs[4], i, j); }
      else { assert SameEdge(cs[5], i, j); }
    }
  }

  /**
   * The nine edges of a bipyramid in the order the builder adds them: the
   * triangle (top0, bottom0, bottom1), top0 and bottom0, bottom1 to bottom2,
   * then top0, bottom0, bottom1 to top1.
   */
  function BipyramidEdgeList(m: Math, top0: Vec3, bottom0: Vec3, bottom1: Vec3, bottom2: Vec3, top1: Vec3)
    : (cs: seq<DistanceConstraint>)
    ensures |cs| == 9 && NoDuplicateEdges(cs)
    ensures forall k :: 0 <= k < |cs| ==> cs[k].index0 < cs[k].index1 < 5
  {
    [DistanceConstraint(0, 1, m.length(Sub(top0, bottom0))),
     DistanceConstraint(1, 2, m.length(Sub(bottom0, bottom1))),
     DistanceConstraint(0, 2, m.length(Sub(top0, bottom1))),
     DistanceConstraint(0, 3, m.length(Sub(top0, bottom2))),
     DistanceConstraint(1, 3, m.length(Sub(bottom0, bottom2))),
     DistanceConstraint(2, 3, m.length(Sub(bottom1, bottom2))),
     DistanceConstraint(0, 4, m.length(Sub(top0, top1))),
     DistanceConstraint(1, 4, m.length(Sub(bottom0, top1))),
     DistanceConstraint(2, 4, m.length(Sub(bottom1, top1)))]
  }

  /**
   * Of the ten pairs of the five particles, the bipyramid joins all but one:
   * bottom2 (index 3) and top1 (index 4) are not joined.
   */
  lemma BipyramidBracing(m: Math, top0: Vec3, bottom0: Vec3, bottom1: Vec3, bottom2: Vec3, top1: Vec3)
    ensures forall i, j :: 0 <= i < j < 5 ==>
              (HasEdge(BipyramidEdgeList(m, top0, bottom0, bottom1, bottom2, top1), i, j) <==> !(i == 3 && j == 4))
  {
    var cs := BipyramidEdgeList(m, top0, bottom0, bottom1, bottom2, top1);
    forall i, j | 0 <= i < j < 5
      ensures HasEdge(cs, i, j) <==> !(i == 3 && j == 4)
    {
      if i == 0 && j == 1 { assert SameEdge(cs[0], i, j); }
      else if i == 1 && j == 2 { assert SameEdge(cs[1], i, j); }
      else if i == 0 && j == 2 { assert SameEdge(cs[2], i, j); }
      else if i == 0 && j == 3 { assert SameEdge(cs[3], i, j); }
      else if i == 1 && j == 3 { assert SameEdge(cs[4], i, j); }
      else if i == 2 && j == 3 { assert SameEdge(cs[5], i, j); }
      else if i == 0 && j == 4 { assert SameEdge(cs[6], i, j); }
      else if i == 1 && j == 4 { assert SameEdge(cs[7], i, j); }
      else if i == 2 && j == 4 { assert SameEdge(cs[8], i, j); }
    }
  }

  /** `add_distance_constraint` applied to the first k constraints of `cs`, in order, starting from no constraints. */
  function Insertions(cs: seq<DistanceConstraint>, k: nat): seq<DistanceConstraint>
    requires k <= |cs|
  {
    if k == 0 then [] else InsertEdge(Insertions(cs, k - 1), cs[k - 1])
  }

  /**
   * Inserting the constraints of a duplicate-free list one by one keeps every
   * one of them: the result is the list itself, in the same order.
   */
  lemma {:induction false} InsertionsBuild(cs: seq<DistanceConstraint>, k: nat)
    requires NoDuplicateEdges(cs) && k <= |cs|
    ensures Insertions(cs, k) == cs[..k]
  {
    if k > 0 {
      InsertionsBuild(cs, k - 1);
      assert !HasEdge(cs[..k - 1], cs[k - 1].index0, cs[k - 1].index1);
      assert cs[..k - 1] + [cs[k - 1]] == cs[..k];
    }
  }

  /** The tetrahedron builder's six `add_distance_constraint` calls, on a group with no constraints yet. */
  method AddTetrahedronEdges(m: Math, pool: ParticlePool, group: ParticleGroup,
                             top: Vec3, bottom0: Vec3, bottom1: Vec3, bottom2: Vec3)
    requires group.start + 4 <= pool.particles.Length
    requires pool.particles[group.start].p == top && pool.particles[group.start + 1].p == bottom0
    requires pool.particles[group.start + 2].p == bottom1 && pool.particles[group.start + 3].p == bottom2
    requires group.distanceConstraints == []
    modifies group`distanceConstraints
    ensures group.distanceConstraints == TetrahedronEdgeList(m, top, bottom0, bottom1, bottom2)
  {
    ghost var edges := TetrahedronEdgeList(m, top, bottom0, bottom1, bottom2);
    AddListedEdge(m, pool, group, edges, 0, 0, 1);
    AddListedEdge(m, pool, group, edges, 1, 0, 2);
    AddListedEdge(m, pool, group, edges, 2, 1, 2);
    AddListedEdge(m, pool, group, edges, 3, 0, 3);
    AddListedEdge(m, pool, group, edges, 4, 1, 3);
    AddListedEdge(m, pool, group, edges, 5, 2, 3);
    InsertionsBuild(edges, 6);
    assert edges[..6] == edges;
  }

  /** The bipyramid builder's nine `add_distance_constraint` calls, on a group with no constraints yet. */
  method AddBipyramidEdges(m: Math, pool: ParticlePool, group: ParticleGroup,
                           top0: Vec3, bottom0: Vec3, bottom1: Vec3, bottom2: Vec3, top1: Vec3)
    requires group.start + 5 <= pool.particles.Length
    requires pool.particles[group.start].p == top0 && pool.particles[group.start + 1].p == bottom0
    requires pool.particles[group.start + 2].p == bottom1 && pool.particles[group.start + 3].p == bottom2
    requires pool.particles[group.start + 4].p == top1
    requires group.distanceConstraints == []
    modifies group`distanceConstraints
    ensures group.distanceConstraints == BipyramidEdgeList(m, top0, bottom0, bottom1, bottom2, top1)
  {
    ghost var edges := BipyramidEdgeList(m, top0, bottom0, bottom1, bottom2, top1);
    AddListedEdge(m, pool, group, edges, 0, 0, 1);
    AddListedEdge(m, pool, group, edges, 1, 1, 2);
    AddListedEdge(m, pool, group, edges, 2, 0, 2);
    AddListedEdge(m, pool, group, edges, 3, 0, 3);
    AddListedEdge(m, pool, group, edges, 4, 1, 3);
    AddListedEdge(m, pool, group, edges, 5, 2, 3);
    AddListedEdge(m, pool, group, edges, 6, 0, 4);
    AddListedEdge(m, pool, group, edges, 7, 1, 4);
    AddListedEdge(m, pool, group, edges, 8, 2, 4);
    InsertionsBuild(edges, 9);
    assert edges[..9] == edges;
  }

  /** One `add_distance_constraint` call of a builder, the k-th of its listed edges. */
  method AddListedEdge(m: Math, pool: ParticlePool, group: ParticleGroup, ghost edges: seq<DistanceConstraint>,
                       ghost k: nat, index0: nat, index1: nat)
    requires group.start + index0 < pool.particles.Length && group.start + index1 < pool.particles.Length
    requires k < |edges| && group.distanceConstraints == Insertions(edges, k)
    requires edges[k] == DistanceConstraint(index0, index1,
      m.length(Sub(pool.particles[group.start + index0].p, pool.particles[group.start + index1].p)))
    modifies group`distanceConstraints
    ensures group.distanceConstraints == Insertions(edges, k + 1)
  {
    AddDistanceConstraint(m, pool, group, index0, index1);
  }

  /**
   * `add_distance_constraint`: scans the group's constraints for the pair in
   * either order and appends (index0, index1, current distance) only if it
   * was not there.  The source reads both particles of the group, so both
   * must lie in the pool.
   */
  method AddDistanceConstraint(m: Math, pool: ParticlePool, group: ParticleGroup, index0: nat, index1: nat)
    requires group.start + index0 < pool.particles.Length && group.start + index1 < pool.particles.Length
    modifies group`distanceConstraints
    ensures group.distanceConstraints == InsertEdge(old(group.distanceConstraints),
      DistanceConstraint(index0, index1,
        m.length(Sub(pool.particles[group.start + index0].p, pool.particles[group.start + index1].p))))
  {
    var shouldAdd := true;
    var k := 0;
    while k < |group.distanceConstraints|
      invariant 0 <= k <= |group.distanceConstraints|
      invariant shouldAdd <==> !HasEdge(group.distanceConstraints[..k], index0, index1)
    {
      var c := group.distanceConstraints[k];
      assert group.distanceConstraints[..k + 1] == group.distanceConstraints[..k] + [c];
      if (c.index0 == index0 && c.index1 == index1) || (c.index0 == index1 && c.index1 == index0) {
        shouldAdd := false;
      }
      k := k + 1;
    }
    assert group.distanceConstraints[..k] == group.distanceConstraints;
    if shouldAdd {
      var restLength := m.length(Sub(pool.particles[group.start + index0].p, pool.particles[group.start + index1].p));
      group.distanceConstraints := group.distanceConstraints + [DistanceConstraint(index0, index1, restLength)];
    }
  }

  /**
   * `add_volume_constraint`: always appends (top, bottom0, bottom1, bottom2)
   * in that order with the tetrahedron's current volume; no de-duplication.
   */
  method AddVolumeConstraint(m: Math, pool: ParticlePool, group: ParticleGroup,
                             top: nat, bottom0: nat, bottom1: nat, bottom2: nat)
    requires group.start + top < pool.particles.Length && group.start + bottom0 < pool.particles.Length
    requires group.start + bottom1 < pool.particles.Length && group.start + bottom2 < pool.particles.Length
    modifies group`volumeConstraints
    ensures group.volumeConstraints == old(group.volumeConstraints) + [VolumeConstraint(top, bottom0, bottom1, bottom2,
      m.tetrahedronVolume(pool.particles[group.start + top].p, pool.particles[group.start + bottom0].p,
                          pool.particles[group.start + bottom1].p, pool.particles[group.start + bottom2].p))]
  {
    var particle0 := pool.particles[group.start + top];
    var particle1 := pool.particles[group.start + bottom0];
    var particle2 := pool.particles[group.start + bottom1];
    var particle3 := pool.particles[group.start + bottom2];
    var restVolume := m.tetrahedronVolume(particle0.p, particle1.p, particle2.p, particle3.p);
    group.volumeConstraints := group.volumeConstraints + [VolumeConstraint(top, bottom0, bottom1, bottom2, restVolume)];
  }
}
