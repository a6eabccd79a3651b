# meka_engine physics, render-buffer and asset-table core in Dafny

This project models four parts of the meka_engine game engine and proves properties of each model:

- **Position-based dynamics (PBD) bookkeeping.**
  - A fixed pool of 4096 particles that only ever grows.
  - Particle groups: contiguous slices of the pool, carved out by the begin / allocate / end protocol.
  - The centre of mass of a group.
  - The collision and environment (plane) constraint solvers.
  - The builders for the four body archetypes: tetrahedron, bipyramid, rigid-body cube lattice and voxel cube. They author distance and volume constraints and record each particle's offset from the centre of mass.
- **The game state's entity table** and its flag test.
- **The render push buffer.**
  - A command buffer of typed entries, reserved by bump allocation.
  - The combined vertex and index byte buffers that `push_data` copies into.
  - The giant buffer, from which grass grids reserve their per-blade buffers.
- **The asset tables.**
  - The mesh-asset table: append, and lookup by ID or first matching tag.
  - The font tables: sequential glyph IDs, the codepoint-to-glyph map, and the row-major kerning table.

How the source's types are modelled:

- Scalars (`f32`, `f64`) are reals.
- The math library's `length`, `normalize` and `get_tetrahedron_volume` are function values with stated laws (`Vec.Lawful`).
- `u16` and `u32` stores and arithmetic that can overflow truncate explicitly (`Ints.ToU16`, `Ints.ToU32`).
- Every C `assert` becomes a precondition, because the program aborts there. There is one exception: `get_mesh_asset`'s final assertion becomes the `None` result of an `Option`.
- In-place state is modelled as classes:
  - the particle pool, groups and game state;
  - the byte arenas and push buffer;
  - the asset tables.
- Each in-place method is specified by a value-level function, and the properties are proved about that function.

Files:

- `ints.dfy` and `wrappers.dfy`: integer widths and `Option`.
- `vec.dfy`: the vector algebra.
- `pbd.dfy`: the pool, groups, constraints, centre of mass and solvers.
- `entity.dfy`: the entity table, builders and constraint authoring.
- `render.dfy`: the push buffer and grass grids.
- `asset.dfy`: the mesh and font tables.

The particle allocator is called in two different ways:

- The builders call `allocate_particle_from_pool` with (p, r, inv_mass) (code/hb_entity.cpp:153-156, 236-254, 295-318, 378-381).
- The definition takes (p, v, r, inv_mass, phase) (code/hb_pbd.cpp:19-20).

The model passes velocity zero and phase 0 for the two missing arguments. `allocate` never stores `phase`.

## Model

| member | source | states |
|---|---|---|
| Pbd.Initialized | code/hb_pbd.cpp:25-33 | an allocated slot gets p, v, r and inv_mass, its scratch fields (prev_p, d_p_sum, constraint_hit_count) are zero, and phase and offset keep their old values |
| Pbd.ParticlePool.constructor | code/hb_pbd.h:35-40 | the pool has exactly 4096 slots and count 0 |
| Pbd.ParticlePool.Allocate | code/hb_pbd.cpp:18-34 | writes slot `old count` only, increments count by one, keeps count <= 4096 |
| Pbd.AllocateAll | code/hb_pbd.cpp:18-34 | a run of allocations keeps the pool's length |
| Pbd.AllocateAllAt | code/hb_pbd.cpp:22-33 | after a run of allocations, slot start+k holds the k-th position initialised, and every other slot is unchanged |
| Pbd.AllocatedRun | code/hb_pbd.cpp:22-33 | the allocated run has one particle per position, in order, each with the given inverse mass |
| Pbd.AllocatedOutside | code/hb_pbd.cpp:22-33 | slots before and after the run are untouched |
| Pbd.AllocateAllSnoc | code/hb_pbd.cpp:18-34 | one more allocate call extends the run by one slot |
| Pbd.AllocateAllAppend | code/hb_pbd.cpp:18-34 | two consecutive runs are one run of the concatenated positions |
| Pbd.EvenlySplitMass | code/hb_entity.cpp:129 | n particles of inverse mass n*w have finite masses totalling 1/w |
| Pbd.AllocatedMass | code/hb_entity.cpp:129 | a body allocated with inverse mass (count * inv_mass) per particle weighs 1/inv_mass |
| Pbd.ParticleGroup.constructor | code/hb_pbd.h:111-124 | a zeroed group: empty slice, no constraints |
| Pbd.ParticleGroup.StartAllocation | code/hb_pbd.cpp:3-9 | the group starts at the pool count and temporarily stores that count, and the pool is unchanged |
| Pbd.ParticleGroup.EndAllocation | code/hb_pbd.cpp:11-16 | the group count becomes pool count minus the saved count, asserted > 0, so the group is exactly the slots allocated in between |
| Pbd.DistanceGradientsOpposite | code/hb_pbd.h:73-79 | the two endpoints' distance gradients normalize(x1-x0) and normalize(x0-x1) are opposite |
| Pbd.VolumeGradient0Exact | code/hb_pbd.h:92-101 | gradient(x0) = (x2-x1)x(x3-x1) is the exact rate of change of six times the signed volume as x0 moves |
| Pbd.VolumeGradient1Exact | code/hb_pbd.h:92-101 | the same for gradient(x1) = (x0-x2)x(x3-x2) |
| Pbd.VolumeGradient2Exact | code/hb_pbd.h:92-101 | the same for gradient(x2) = (x3-x1)x(x0-x1) |
| Pbd.VolumeGradient3Exact | code/hb_pbd.h:92-101 | the same for gradient(x3) = (x1-x2)x(x0-x2) |
| Pbd.VolumeGradientsCancel | code/hb_pbd.h:96-99 | the four volume gradients sum to zero, so translating the tetrahedron keeps its volume |
| Pbd.ComOfGroup | code/hb_pbd.cpp:42-62 | the loop returns the mass-weighted mean sum(p_i/w_i) / sum(1/w_i) of the group's slice, for non-zero inverse masses |
| Pbd.EqualMassComIsMean | code/hb_pbd.cpp:38-41 | with equal inverse masses the centre of mass is the arithmetic mean of positions |
| Pbd.EqualMassSums | code/hb_pbd.cpp:48-58 | with equal inverse masses w the total mass is n/w and the moment is (sum of p)/w |
| Pbd.OffsetMomentShift | code/hb_entity.cpp:388-396 | offsets p - c have mass-weighted sum equal to moment - totalMass*c |
| Pbd.OffsetsFromComBalance | code/hb_entity.cpp:388-396 | offsets taken from the centre of mass have zero mass-weighted sum |
| Pbd.WithOffsetsFrom | code/hb_entity.cpp:390-396 | every particle records p - c, and nothing else about it changes |
| Pbd.SameMassDistribution | code/hb_entity.cpp:390-396 | recording offsets keeps total mass and moment, so the centre of mass is unchanged |
| Pbd.ComOffsetsBalance | code/hb_entity.cpp:388-396 | after recording offsets from the centre of mass, the centre of mass is unchanged and the offsets balance |
| Pbd.SolveCollision | code/hb_pbd.cpp:71-106 | the solution is left untouched (no correction) iff w0+w1 = 0 or C = abs(x0-x1)-(r0+r1) >= 0 |
| Pbd.CollisionConservesMomentum | code/hb_pbd.cpp:91-103 | the corrections satisfy w1*offset0 + w0*offset1 = 0 (no net momentum), and a particle with w = 0 gets a zero offset |
| Pbd.CollisionResolvesPenetration | code/hb_pbd.cpp:84-103 | after applying the offsets the collision constraint is exactly satisfied (C = 0) |
| Pbd.CollisionEqualMassSplitsEvenly | code/hb_pbd.cpp:96-103 | with equal inverse masses each particle moves half the penetration depth |
| Pbd.CollisionOverlapScenario | code/hb_pbd.cpp:82-103 | two unit spheres one unit apart are each pushed half a unit apart |
| Pbd.SolveEnvironment | code/hb_pbd.cpp:113-134 | no correction iff inv_mass = 0 or C = dot(n,x)-d-r >= 0; otherwise offset = -C*n, parallel to n, and with unit n the corrected position has C = 0 |
| Vec.Ceil | code/hb_entity.cpp:121-123 | the smallest integer not below x, as ceil_f32_to_u32 computes |
| Vec.NormalizeIsUnit | code/hb_pbd.cpp:93 | normalize yields a unit vector for a non-zero vector |
| Vec.NormalizeDivides | code/hb_pbd.cpp:93 | normalize(v) is v divided by its positive length |
| Entities.FlagSetAfterAdding | code/hb_entity.cpp:10-20 | a flag is set after OR-ing it in iff it is non-zero, and no flag is set in 0 |
| Entities.Entity.constructor | code/hb_entity.cpp:29-30 | a zero-filled entity with the given type and flags |
| Entities.GameState.constructor | code/hb_entity.cpp:22-33 | an empty table over an empty pool |
| Entities.GameState.GroupsDisjoint | code/hb_pbd.h:111-115 | no pool slot belongs to two entities' groups |
| Entities.GameState.AddEntity | code/hb_entity.cpp:22-33 | appends one entity with the type and flags, asserting count <= max_entity_count, and keeps groups disjoint and in order |
| Entities.GameState.AddTetrahedron | code/hb_entity.cpp:220-273 | 4 particles top,b0,b1,b2 with inverse mass 4*inv_mass; the 6 edges; volume constraint (0,1,2,3); stiffness set |
| Entities.GameState.AddBipyramid | code/hb_entity.cpp:277-345 | 5 particles with inverse mass 5*inv_mass; the 9 edges in call order; volume constraints (0,1,2,3) and (1,2,3,4) |
| Entities.GameState.AddRigidBodyCube | code/hb_entity.cpp:113-168 | a Cube entity whose group is the lattice of nx*ny*nz particles |
| Entities.GameState.AddVoxelCube | code/hb_entity.cpp:349-399 | a PBD entity whose group is count.x*count.y*count.z particles with offsets from their centre of mass |
| Entities.GameState.RegisteredGroupKeepsValid | code/hb_pbd.cpp:3-16 | a group built after all earlier ones keeps every pair of groups disjoint and ordered |
| Entities.BuildTetrahedronBody | code/hb_entity.cpp:227-272 | the tetrahedron's pool run, edge list, volume constraint and stiffness |
| Entities.BuildBipyramidBody | code/hb_entity.cpp:285-344 | the bipyramid's pool run, edge list, two volume constraints and stiffness |
| Entities.AllocateTetrahedron | code/hb_entity.cpp:234-256 | a group of exactly 4 slots from the old pool count, holding top,b0,b1,b2 in order |
| Entities.AllocateBipyramid | code/hb_entity.cpp:293-320 | a group of exactly 5 slots from the old pool count, holding top0,b0,b1,b2,top1 in order |
| Entities.AllocateTetrahedronPoints | code/hb_entity.cpp:236-254 | the four allocate calls advance the pool count by 4 and lay top,b0,b1,b2 out as one run from the old count |
| Entities.AllocateBipyramidPoints | code/hb_entity.cpp:295-318 | the five allocate calls advance the pool count by 5 and lay top0,b0,b1,b2,top1 out as one run from the old count |
| Entities.BuildRigidBodyCubeBody | code/hb_entity.cpp:116-167 | group count nx*ny*nz with n = ceil(dim/2r); the pool becomes RigidCubePool |
| Entities.RigidCubeCount | code/hb_entity.cpp:120-127 | a positive-extent cube has at least one particle |
| Entities.RigidCubePool | code/hb_entity.cpp:129-163 | the cube's allocation touches only its own run of the pool |
| Entities.RigidCubeMass | code/hb_entity.cpp:125-129 | with inverse mass (particle count)*inv_mass per particle the cube weighs 1/inv_mass |
| Entities.RigidCubeAt | code/hb_entity.cpp:135-163 | particle x + nx*(y + ny*z) sits at corner + 2r*(x,y,z): x fastest, then y, then z |
| Entities.RigidCubeCentred | code/hb_entity.cpp:133-138 | mirror particles through the centre sum to 2*center, so the cube is centred whatever the parity of its counts |
| Entities.CubeCountCovers | code/hb_entity.cpp:120-123 | ceil(dim/2r) particles of diameter 2r span the extent, and one fewer would not |
| Entities.CubeCentred | code/hb_entity.cpp:135-138 | the corner formula puts the lattice's mirror points symmetric about center |
| Entities.LatticeAt | code/hb_entity.cpp:139-163 | the triple loop's k-th point is (x, y, z) with k = x + nx*(y + ny*z) |
| Entities.Lattice | code/hb_entity.cpp:364-385 | the triple loop yields nx*ny*nz points |
| Entities.AllocateRow | code/hb_entity.cpp:149-157 | the innermost loop allocates row (y,z) in increasing x |
| Entities.AllocatePlane | code/hb_entity.cpp:145-160 | the middle loop allocates plane z in increasing y |
| Entities.AllocateLattice | code/hb_entity.cpp:140-163 | the triple loop allocates the whole lattice, count advanced by nx*ny*nz |
| Entities.AllocateVoxelBlock | code/hb_entity.cpp:358-386 | the group is exactly the count.x*count.y*count.z slots from the old pool count, filled with the lattice at inverse mass 8*inv_mass |
| Entities.VoxelBlockAllocated | code/hb_entity.cpp:362-386 | the allocated run is the voxel body, and the pool before and after it is unchanged |
| Entities.VoxelOffsetsRecorded | code/hb_entity.cpp:388-396 | recording offsets from the run's own centre of mass over the allocated pool gives VoxelPool |
| Entities.VoxelPool | code/hb_entity.cpp:362-396 | the voxel block lies at the old pool count with offsets from its own centre of mass; the rest of the pool is untouched |
| Entities.VoxelOffsetsBalance | code/hb_entity.cpp:388-396 | the block's recorded offsets equal p - COM, and the block's COM equals the freshly allocated body's; the offsets balance |
| Entities.VoxelBody | code/hb_entity.cpp:358-385 | particle k is lattice point k at left_bottom + 2*(x,y,z), with inverse mass 8*inv_mass whatever the count; positive total mass |
| Entities.BuildVoxelCubeBody | code/hb_entity.cpp:358-398 | allocates the block, computes the COM and records offsets, giving VoxelPool; stiffness set |
| Entities.SetOffsetsFromCom | code/hb_entity.cpp:390-396 | every particle of the group records p - com, and nothing outside the group changes |
| Entities.InsertEdgeJoins | code/hb_entity.cpp:170-199 | after insertion the pair is joined, and exactly the pairs joined before or by the new constraint are |
| Entities.InsertEdgeIdempotent | code/hb_entity.cpp:177-190 | inserting (i,j) or (j,i) again changes nothing |
| Entities.InsertEdgeKeepsNoDuplicates | code/hb_entity.cpp:177-198 | insertion never creates two constraints on one unordered pair |
| Entities.TetrahedronEdgeList | code/hb_entity.cpp:258-266 | six pairwise-distinct edges, all within the 4 particles |
| Entities.TetrahedronFullyBraced | code/hb_entity.cpp:261-266 | every pair of the four corners is joined |
| Entities.BipyramidEdgeList | code/hb_entity.cpp:322-335 | nine pairwise-distinct edges, all within the 5 particles |
| Entities.BipyramidBracing | code/hb_entity.cpp:325-335 | of the ten pairs, exactly (bottom2, top1) = (3,4) is not joined |
| Entities.InsertionsBuild | code/hb_entity.cpp:170-199 | inserting a duplicate-free list one by one from empty yields the list itself, in order |
| Entities.AddTetrahedronEdges | code/hb_entity.cpp:258-266 | the six add_distance_constraint calls produce exactly the six edges |
| Entities.AddBipyramidEdges | code/hb_entity.cpp:322-335 | the nine add_distance_constraint calls produce exactly the nine edges |
| Entities.AddDistanceConstraint | code/hb_entity.cpp:170-199 | the scan appends (i, j, current distance) iff neither (i,j) nor (j,i) is present, and is otherwise a no-op |
| Entities.AddVolumeConstraint | code/hb_entity.cpp:202-217 | always appends (top,b0,b1,b2) in that order with the current volume |
| Ints.ToU32 | code/hb_render.cpp:333 | a u32 keeps its value below 2^32 and never grows it |
| Ints.ToU16 | code/hb_asset.cpp:198 | a u16 keeps its value below 2^16 and never grows it |
| Render.Written | code/hb_render.cpp:335-336 | memcpy: the written range reads back as src, and every other byte is unchanged |
| Render.AdjacentWritesKeepBoth | code/hb_render.cpp:333-339 | two pushes to adjacent ranges both read back |
| Render.ByteArena.constructor | code/hb_render.cpp:295-296 | an empty buffer of the given capacity |
| Render.ByteArena.PushData | code/hb_render.cpp:329-342 | returns the old used (as u32), copies src_size bytes there, advances used by exactly src_size within dst_size, leaves other bytes untouched |
| Render.LaidSnoc | code/hb_render.cpp:301-310 | an entry placed at the old used keeps the command entries in order and non-overlapping |
| Render.LaidGrow | code/hb_render.cpp:306 | advancing used keeps the entries below it |
| Render.RenderPushBuffer.constructor | code/hb_render.cpp:269-299 | buffers as handed over: allocated, nothing pushed |
| Render.RenderPushBuffer.InitRenderPushBuffer | code/hb_render.cpp:269-299 | requires base; stores the settings; resets used, combined_vertex_buffer_used and combined_index_buffer_used to 0; leaves the giant buffer alone |
| Render.RenderPushBuffer.PushRenderElement | code/hb_render.cpp:301-310 | returns the old used, advances it by size, asserts used <= total_size |
| Render.RenderPushBuffer.PushLine | code/hb_render.cpp:314-327 | appends a Line entry at the old used, with its own size in the header and start, end and color verbatim |
| Render.RenderPushBuffer.PushFrustum | code/hb_render.cpp:344-365 | a Frustum entry whose vertex and index offsets are the combined buffers' used counters before the push, with index_count stored and the data copied there |
| Render.RenderPushBuffer.PushArbitraryMesh | code/hb_render.cpp:430-449 | the same for an ArbitraryMesh entry |
| Render.GrassGrid.constructor | code/hb_render.cpp:236-256 | a zeroed grid with both buffer pointers null |
| Render.GrassCount | code/hb_render.cpp:234 | the blade count x*y, computed in u32 |
| Render.Reservation | code/hb_render.cpp:236-264 | a buffer already set reserves nothing, and a null one reserves 4 bytes per blade |
| Render.ZeroedFloats | code/hb_render.cpp:247-252 | zeroing count floats keeps the buffer's length |
| Render.ZeroedFloatsMeaning | code/hb_render.cpp:247-252 | the zeroed range reads zero, and other bytes are unchanged |
| Render.ZeroedFloatsStep | code/hb_render.cpp:247-252 | clearing one more float extends the zeroed range by its four bytes |
| Render.ZeroFloorZBufferAsWritten | code/hb_render.cpp:247-252 | the loop as written clears only the buffer's first float, however many blades there are |
| Render.AsWrittenZeroingMissesLaterFloats | code/hb_render.cpp:247-252 | for two blades over non-zero memory the second float stays non-zero, where clearing both is intended |
| Render.ZeroFloorZBuffer | code/hb_render.cpp:247-252 | iteration i clears float i, so the whole floor-z buffer reads zero |
| Render.GrassGrid.ReserveFloorZBuffer | code/hb_render.cpp:237-255 | the floor-z buffer is set at the old giant_buffer_used with 4*count bytes, used advances by that size, those floats read zero (the corrected loop, see Findings), and the buffer is marked updated |
| Render.GrassGrid.ReservePerlinNoiseBuffer | code/hb_render.cpp:257-265 | the Perlin buffer is set at the old giant_buffer_used with 4*count bytes, and used advances by that size |
| Render.InitGrassGrid | code/hb_render.cpp:225-266 | reserves 4*count bytes per null buffer at the prior giant_buffer_used, the Perlin buffer right after the floor buffer; asserts the total fits; the floor-z bytes read zero (the corrected loop, see Findings); afterwards both buffers are set, so a repeated call reserves nothing |
| Assets.FirstWithTag | code/hb_asset.cpp:120-131 | the lowest index with the tag, or None iff no populated asset has it |
| Assets.MeshLookup | code/hb_asset.cpp:107-136 | a non-zero ID is used directly; otherwise the first asset by tag; None where the final assert fires |
| Assets.FirstWithTagAppend | code/hb_asset.cpp:78-79 | appending keeps existing tags' lookups, and a new tag finds the new slot |
| Assets.GameAssets.constructor | code/hb_asset.cpp:78-79 | an empty mesh table of the given capacity |
| Assets.GameAssets.LoadMeshAsset | code/hb_asset.cpp:69-103 | writes slot populated_mesh_asset with the data, counts and tag, increments it, and asserts capacity |
| Assets.GameAssets.GetMeshAsset | code/hb_asset.cpp:106-136 | the scan with early break returns MeshLookup, and a tag hit is a populated slot with that tag |
| Assets.FirstMatchIsFirstWithTag | code/hb_asset.cpp:124-129 | the first matching index found by the scan is FirstWithTag's answer |
| Assets.LoadedMeshIsFound | code/hb_asset.cpp:78-131 | after loading a new tag, lookup by that tag finds the new slot, and present tags are found as before |
| Assets.RowMajorInRange | code/hb_asset.cpp:185 | i*max + j < max*max for in-range i, j |
| Assets.RowMajorInjective | code/hb_asset.cpp:185 | distinct in-range pairs have distinct row-major positions |
| Assets.KerningIndexInRange | code/hb_asset.cpp:281 | the slot of an in-range glyph pair lies inside the max*max table |
| Assets.KerningIndexInjective | code/hb_asset.cpp:185 | when max*max fits in u32, distinct pairs never share a kerning slot |
| Assets.FilledStep | code/hb_asset.cpp:176-186 | writing pair (i,j) adds it to the filled prefix without disturbing earlier pairs |
| Assets.FontAsset.constructor | code/hb_asset.cpp:159-165 | max glyph slots, a zeroed codepoint table and a max*max kerning table |
| Assets.GlyphKerning | code/hb_asset.cpp:275-283 | scale times the slot the two codepoints' glyph IDs address; when max*max fits in u32 that slot is the in-range row-major position id0*max + id1 (KerningRoundTrip gives what it holds) |
| Assets.KerningRoundTrip | code/hb_asset.cpp:275-283 | reading id0*max + id1 returns exactly what end_load_font wrote at i*max + j for that pair |
| Assets.LoadFontInfo.constructor | code/hb_asset.cpp:139-148 | a font load with no glyphs yet |
| Assets.LoadFontInfo.AddGlyphAsset | code/hb_asset.cpp:193-205 | glyph ID = populated count (as u16), count incremented within max, codepoint maps to the ID, and the glyph stores the codepoint and scaled metrics |
| Assets.RowFilled | code/hb_asset.cpp:176-186 | a finished row i means every pair of rows below i+1 is filled |
| Assets.LoadFontInfo.FillKerningRow | code/hb_asset.cpp:180-186 | the inner loop fills row i, slots i*max + j for every j, on top of the rows already filled (when max*max fits in u32) |
| Assets.LoadFontInfo.EndLoadFont | code/hb_asset.cpp:169-190 | the nested loop fills every slot i*max + j with the scaled kerning of glyphs i and j (when max*max fits in u32) |

## Left out

- Camera, projection and frustum math, `rhs_to_lhs`, glyph placement, `push_mesh_pn` and `push_glyph` (code/hb_render.cpp:7-221, 368-427). They are floating-point matrix and trigonometry code. `init_render_push_buffer`'s camera fields are not modelled.
- The `get_mesh_asset` call in `push_mesh_pn` (code/hb_render.cpp:381) uses a different signature from the definition at code/hb_asset.cpp:107. That call is not part of this model. The lookup is modelled after the definition.
- GPU work queues, `get_gpu_visible_buffer`, `flush_gpu_visible_buffer` and texture loading (code/hb_asset.cpp:9-65). These are I/O and concurrency. GPU buffers are a handle parameter plus the copied bytes.
- The file read, the stb_truetype calls and the font's vertical metrics in `begin_load_font` (code/hb_asset.cpp:144-157), the glyph bitmap and texture in `add_glyph_asset` (code/hb_asset.cpp:209-228), and `load_game_assets` (code/hb_asset.cpp:231-273). These are foreign calls and I/O. The font library's scale, metrics and kerning enter as parameters. The glyph dimensions and offsets are not modelled. The rest of `begin_load_font` (the maximum glyph count and the three tables, code/hb_asset.cpp:141-142, 159-165) is modelled by the `FontAsset` and `LoadFontInfo` constructors.
- Assets.FontAsset.constructor: models the codepoint table as exactly MAX_UNICODE_CODEPOINT zeroed u16 entries. The source allocates `sizeof(u16) * MAX_UNICODE_CODEPOINT` bytes but passes `sizeof(u32) * MAX_UNICODE_CODEPOINT` to `zero_memory` (code/hb_asset.cpp:160-162). If that size is a byte count, twice the allocation is cleared. `zero_memory` is not part of this model, so the overrun is not modelled.
- Floating-point rounding and the f32/f64 split. All scalars are reals. `length`, `normalize` and `get_tetrahedron_volume` are opaque functions constrained only by `Vec.Lawful`.
- The static `cube_vertices` table and `add_floor_entity` (code/hb_entity.cpp:35-111). The first is data; the second does nothing beyond `add_entity`.
- The `TIMED_BLOCK` profiling macros.
- The per-tick solver driver, distance/volume projection and shape matching. None of them appears in the modelled source.
- The sizes of the render entry structs. They are defined in a header that is not part of this model, so they enter as a `Layout` of positive sizes.
- The entity table is modelled as a growing sequence of distinct objects, not a fixed array. The arena arrays that the builders' constraints live in are modelled as sequences, so their fixed capacities (6, 9, 1, 2) are not checked.
- Pbd.ComOfGroup: requires every inverse mass to be non-zero before the loop. The source divides by the inverse mass before its per-particle assertion, so for a zero inverse mass the model does not describe the infinite mass computed first. It also requires a non-zero total mass, which excludes an empty group and inverse masses whose reciprocals sum to zero, where the source divides by a zero total. No builder can produce either: `end_particle_allocation_from_pool` asserts a positive count (code/hb_pbd.cpp:15), and each builder gives all its particles one inverse mass.
- Entities.BuildRigidBodyCubeBody: the u32 product nx*ny*nz is not truncated. The pool-capacity precondition keeps it far below 2^32.
- Assets.LoadFontInfo.EndLoadFont: promises the full kerning table only when max*max fits in u32. Past that, the source's u32 slot arithmetic wraps and pairs share slots.
- Assets.GlyphKerning: requires the codepoints to lie in the table and to map to glyph IDs below the maximum. The source reads without checking.

## Findings

| source | as written | input that shows it | evidently intended | confidence | as-written member | corrected member |
|---|---|---|---|---|---|---|
| code/hb_render.cpp:247-252 | every iteration of the floor-z initialisation loop stores 0 through the buffer's base pointer, so only the first float is cleared | a 2x1 grid over giant-buffer bytes that are all 1: bytes 4-7 (blade 1) stay 1 | iteration i clears float i, so the whole floor-z buffer reads 0 | high, not executed | Render.ZeroFloorZBufferAsWritten, Render.AsWrittenZeroingMissesLaterFloats | Render.ZeroFloorZBuffer (used by Render.GrassGrid.ReserveFloorZBuffer and Render.InitGrassGrid) |
