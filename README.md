# Palamander morphology, motion and UI state — a Dafny model

Palamanders are on-screen creatures drawn as rooted, ordered trees of
circular segments. Each segment carries a radius, a relative body angle,
a `curveRange`, an overlap and a list of periodic wriggle components. This
project models how the trees are built and the small arithmetic and state
machines around them, and proves what each operation promises.

- **The offline Python generator** (`tools/generate_palamanders.py`) is
  modelled by modules `PyArena`, `PyGenerate` and `PyCreatures`.
  - Dicts live in an arena addressed by creation order (class
    `PyArena.Pool`).
  - The chain builders are loops over that arena. Each is proved equal to
    a specification function of its arguments: leg, spike, octopus arm,
    tapered snake and frill.
  - The creature assemblers are proved against the tree they leave.
- **The TypeScript morphology pipeline** (`client/src/palamander/morphology/`).
  - Sections (`Sections`) are expanded by `Segmentate` through a
    dispatch map, which is a parameter here.
  - The segments the builders create and link live in an arena (class
    `SegmentStore.Store`). Chains are built by the loops of
    `Segmentations`.
  - The other builders are `Composites`, `Parts`, `Heads`, `Bodies`,
    `Sets` and `Pals`.
  - The wriggle arithmetic is in `WriggleSpecs`, `Wriggles`,
    `WriggleGradients` and `Suppressions`.
  - Segment trees as values are in `Segments`.
- **Motion**:
  - the sample-and-hold closure (`MovementSample`);
  - the velocity clamp (`Velocity`);
  - turn compounding and the move closure (`Movement`);
  - the half-mass pivot (`Pivot`).
  Closures that keep state are classes whose fields are the captured
  variables.
- **Geometry helpers**: `Coordinates` and `Circles`.
- **UI reducers**: the exhibit staging state (`Staging`) and the colour
  filter (`ColorFilters`).

Numbers are `real`.
- JavaScript division is `Num.Div`. It is 0 for a zero divisor; no
  contract depends on that case.
- The remainder, `Math.round` and `Math.trunc` are written out in `Num`.
- π is a positive constant.

A call that throws is a `Result` failure that names the exception.

**How the model follows the code where the code and its description differ:**
- The builders call `createSection(type)`, but the `createSection` in
  `section.ts` takes no argument. The model keeps `Sections.CreateSection`
  as written. Callers use `Sections.NewSection(kind)`, which is
  `CreateSection` with the kind set.
- The eel and inchworm bodies pass two numbers to `createSegmentation`,
  which takes one partial segmentation. Spreading a number adds no field,
  so the defaults stand and the literal's own fields override them.
- `asColorFilter` keeps any key that is `in` the enum object, and that
  includes the colour names. A stored `"Red": true` therefore survives
  loading. It makes the filter active while matching no creature, so the
  list comes out empty (`ColorFilters.NameKeyHidesAll`).
- The feelers and claws of the crawdad pal set `parentIndex`, a field
  `segmentate` never reads. Those branches hang off the segment at the
  pal section's own `index`.
- `prevVelocity` in `velocity.ts` is never reassigned. Every velocity
  sample is therefore clipped against 0.

## Model

| member | source | states |
|---|---|---|
| `Coordinates.CreateOrigin` | client/src/palamander/common/coords.ts:6-8 | the origin is the neutral element of shifting: shifting any point by it gives the point back |
| `Coordinates.ShiftNegative` | client/src/palamander/common/coords.ts:21-23 | shifting the result by the delta gives the original point, so a negative shift undoes a shift |
| `Coordinates.Stretch` | client/src/palamander/common/coords.ts:25-30 | factor 1 keeps the point, factor 0 gives the origin, factor -1 gives the point's opposite |
| `Coordinates.StretchByElement` | client/src/palamander/common/coords.ts:32-37 | with equal factors on both axes it is the uniform stretch |
| `Coordinates.RoundAxis` | client/src/palamander/common/coords.ts:42-43 | Math.round(v·1000)/1000 is a whole number of thousandths lying in (v − 0.0005, v + 0.0005], halves rounded up |
| `Coordinates.RoundAxisUnique` | client/src/palamander/common/coords.ts:42-43 | any whole number of thousandths in that window is the rounded value, so the contract above fixes it |
| `Coordinates.Round` | client/src/palamander/common/coords.ts:39-45 | each axis becomes a whole number of thousandths and moves by at most half a thousandth, i.e. is rounded to three decimals |
| `Coordinates.ShiftNegativeOfShift` | client/src/palamander/common/coords.ts:14-23 | a negative shift by d after a shift by d is the identity |
| `Coordinates.ShiftNegativeSelf` | client/src/palamander/common/coords.test.ts:12-14 | a point shifted negatively by itself is the origin |
| `Coordinates.CoordsExamples` | client/src/palamander/common/coords.test.ts:20-32 | (10,10) shifted negatively by (-5,-5) is (15,15); 3.3333 rounds to 3.333 and 5.5555 to 5.556 |
| `Circles.CreateDefaultCircle` | client/src/palamander/common/circle.ts:8-13 | the circle has the given radius and is centred on the origin |
| `Circles.CreateEngineCircle` | client/src/palamander/common/circle.ts:17-22 | the engine circle's radius is the negated head radius; its centre is the given origin, or (0,0) by default |
| `Circles.GenerateUpdateCircle` | client/src/palamander/common/circle.ts:25-32 | every circle the closure returns keeps the radius and has its centre moved by exactly the delta |
| `Circles.StretchCircle` | client/src/palamander/common/circle.ts:34-39 | centre and radius are both scaled by the factor; factor 1 is the identity |
| `Circles.StretchCircleInverse` | client/src/palamander/common/circle.ts:34-39 | stretching by f and then by 1/f gives the circle back, for f ≠ 0 |
| `Suppressions.Tuck` | client/src/palamander/morphology/animation/suppression.ts:34-36 | at speed 0 the angle is kept; at speed 100 the whole tuck is added |
| `Suppressions.Dampen` | client/src/palamander/morphology/animation/suppression.ts:38-40 | speed 0 or factor 0 keeps the angle; factor 1 at full speed flattens it to 0 |
| `Suppressions.Suppress` | client/src/palamander/morphology/animation/suppression.ts:12-32 | magnitude plus suppressed is the angle; the suppressed part moves at most interval·delta from its previous value, stays put when delta is 0, and reaches the dampened-then-tucked target when that is within reach |
| `Suppressions.CalculateTuck` | client/src/palamander/morphology/animation/suppression.ts:42-44 | equal angle and target give 0; with factor 1 the tuck brings the angle exactly to the target |
| `Suppressions.CalculateDampen` | client/src/palamander/morphology/animation/suppression.ts:46-53 | the first index gets the front factor, the last the back factor; a count of 1 or less divides by 1 |
| `Suppressions.CalculateDelta` | client/src/palamander/morphology/animation/suppression.ts:55-57 | for a non-zero period, the delta times the period in ms is four times the absolute range; so it has the period's sign and is 0 for a zero range |
| `Suppressions.CreateSuppression` | client/src/palamander/morphology/animation/suppression.ts:59-63 | no dampen, no tuck, and the delta of a full wave |
| `Suppressions.SuppressNeutral` | client/src/palamander/morphology/animation/suppression.test.ts:53-90 | with dampen and tuck absent or zero and nothing suppressed before, the whole angle is the magnitude |
| `Suppressions.DampenBeforeTuck` | client/src/palamander/morphology/animation/suppression.test.ts:182-198 | dampen 1 and tuck -45 at full speed turn 90 into magnitude -45 and suppressed 135: dampening comes first |
| `Suppressions.DampenLinear` | client/src/palamander/morphology/animation/suppression.test.ts:28-42 | consecutive indexes differ by the same step, (back−front)/(count−1); index 1 of 3 from 10 to 20 is 15 |
| `Suppressions.CalculateTuckExample` | client/src/palamander/morphology/animation/suppression.test.ts:18-20 | a tuck from 0 towards 90 at factor 0.5 is 45 |
| `WriggleSpecs.CreateCurlSpec` | client/src/palamander/morphology/animation/wriggle-spec.ts:20-27 | keeps the wave and index; synchronized with no phase step, so all segments curl together |
| `WriggleSpecs.CreateSquiggleSpec` | client/src/palamander/morphology/animation/wriggle-spec.ts:33-44 | keeps the wave and index; not synchronized; the phase step times the length is one full wave |
| `WriggleSpecs.CreateRotationSpec` | client/src/palamander/morphology/animation/wriggle-spec.ts:47-54 | index 0, no phase step, not synchronized: the section rotates as one line |
| `Wriggles.Compound` | client/src/palamander/morphology/animation/wriggle.ts:22-24 | an empty wriggle compounds to 0 and a single component to its magnitude |
| `Wriggles.CompoundAppend` | client/src/palamander/morphology/animation/wriggle.ts:22-24 | compounding splits over concatenation: the fold is the plain sum of magnitudes |
| `Wriggles.ToWriggleComponent` | client/src/palamander/morphology/animation/wriggle.ts:63-87 | phase offset −2π·i·squiggleRate − offset; acceleration defaults to 0.5 and suppression to delta 0; one cycle per period; range multiplied by the index when synchronized; dynamic fields 0 |
| `Wriggles.ToWriggle` | client/src/palamander/morphology/animation/wriggle.ts:90-92 | one component per spec, in order |
| `Wriggles.CurlAtZeroIsStill` | client/src/palamander/morphology/animation/wriggle.ts:72 | a curl at index 0 gets range 0, so the first curled segment does not move |
| `Wriggles.SyncWriggleComponent` | client/src/palamander/morphology/animation/wriggle.ts:36-60 | keeps the static fields; progress advances by interval·rate·(1 + acceleration·speed/100); magnitude plus suppressed is the raw sine value; with delta 0 the suppressed part stays |
| `Wriggles.SyncWriggle` | client/src/palamander/morphology/animation/wriggle.ts:26-34 | every component is synced, keeping length, order and static fields |
| `Wriggles.AccelerationEffect` | client/src/palamander/morphology/animation/wriggle.test.ts:42-90 | acceleration 1 at full speed doubles the advance, −1 stops it, and at speed 0 acceleration has no effect |
| `WriggleGradients.GetFractionI` | client/src/palamander/morphology/animation/wriggle-gradient.ts:31 | index 0 is at fraction 0, the last index at 1, and every index of a section in between |
| `WriggleGradients.SuppressAtIndex` | client/src/palamander/morphology/animation/wriggle-gradient.ts:33-52 | keeps the base delta (the wave's suppression or one made from its range and period); dampen comes from the gradient's range and tuck towards the target (factor 0.5 by default) only when given |
| `WriggleGradients.RangeAt` | client/src/palamander/morphology/animation/wriggle-gradient.ts:56-60 | a ramp of width `increase` centred on the wave's range; index 0 is scaled by the ease factor |
| `WriggleGradients.ToSquiggleGenerator` | client/src/palamander/morphology/animation/wriggle-gradient.ts:54-72 | each index gets a one-component squiggle over the gradient's length with the ramped range |
| `WriggleGradients.RangeRampExample` | client/src/palamander/morphology/animation/wriggle-gradient.test.ts:56-66 | count 3, increase 20, range 30 without easing give ranges 20, 30, 40 |
| `WriggleGradients.RangeStep` | client/src/palamander/morphology/animation/wriggle-gradient.ts:56-59 | from index 1 on, consecutive ranges differ by increase/(count−1) |
| `WriggleGradients.NoGradientSuppression` | client/src/palamander/morphology/animation/wriggle-gradient.ts:62-70 | without a suppression gradient a component keeps the wave's own suppression, or {delta: 0} |
| `Sections.CreateSection` | client/src/palamander/morphology/section.ts:18-30 | an 'empty' section: every number 0, no mirror, no next, no branches |
| `Sections.NewSection` | client/src/palamander/morphology/segmentation/segmentate-pal.ts:88 | what the callers' `createSection(type)` builds: a fresh section that differs from `createSection()` only in its type |
| `Sections.CreateBranch` | client/src/palamander/morphology/section.ts:32-34 | a copy with the new type and next and branches cleared; every other field kept |
| `Sections.CreatePassthru` | client/src/palamander/morphology/section.ts:36-38 | a fresh section of type 'passthru' |
| `Sections.CreatePassthruBranch` | client/src/palamander/morphology/section.ts:40-42 | a branch of the passthru that always hangs off index 0 |
| `Sections.CalculateRadius` | client/src/palamander/morphology/section.ts:44-46 | the radius is `size` percent of the parent's radius; size 100 copies it |
| `Sections.CreateBranchIdempotent` | client/src/palamander/morphology/section.ts:32-34 | branching twice is branching once; a section with no next and no branches is its own branch |
| `Segments.ConvexBetween` | client/src/palamander/morphology/segment.ts:57-59 | a convex combination of two angles lies between them |
| `Segments.CalculateAbsoluteBodyAngle` | client/src/palamander/morphology/segment.ts:51-63 | step 0 keeps the segment's angle, step 1 gives the parent's previous angle; below 1 the angle lies between the segment's and the parent's previous angles, from 1 on between the parent's previous and current angles |
| `Segments.ClipAbsoluteBodyAngle` | client/src/palamander/morphology/segment.ts:66-78 | the result stays within curveRange of the parent's angle; an angle already in range is kept, one too far below becomes parent minus curveRange |
| `Segments.UpdateBodyAngle` | client/src/palamander/morphology/segment.ts:80-100 | relative and curveRange are kept; the absolute angle is the interpolated one clipped against the parent, so it is within curveRange of the parent |
| `Segments.HydrateSegment` | client/src/palamander/morphology/segment.ts:103-130 | the tree keeps its shape (radii, overlaps, relative angles, flags, child counts), every segment takes the given absolute angle, and each child is hydrated against its parent's new circle |
| `Segments.UpdateSegment` | client/src/palamander/morphology/segment.ts:132-174 | the tree keeps its shape; the body angle is updated with step interval/propagationInterval times (1 + speed/100); each child is updated against this segment's new circle, new angle and previous angle |
| `Segments.GetSegmentCircles` | client/src/palamander/morphology/segment.ts:176-181 | one circle per segment of the tree, the root's first |
| `Segments.CirclesOf` | client/src/palamander/morphology/segment.ts:179 | the flattened circles of the children: one per segment |
| `Segments.GetBodySegments` | client/src/palamander/morphology/segment.ts:183-189 | empty when the root is not primary; otherwise starts with the root; every segment returned is primary and there are no more than the tree has |
| `Segments.BodiesOf` | client/src/palamander/morphology/segment.ts:187 | the flattened body segments of the children are all primary and no more than the children hold |
| `Segments.CreateDefaultSegment` | client/src/palamander/morphology/segment.ts:191-208 | a default circle of the radius, every angle 0, no wriggle, no overlap, not primary, no children |
| `Segments.CreateSegment` | client/src/palamander/morphology/segment.ts:210-220 | the default segment with the given relative angle and an overlap of radius times the multiplier |
| `Segments.SameShapeSize` | client/src/palamander/morphology/segment.ts:126-128 | two trees of the same shape have the same number of segments, so hydration and update keep the count |
| `Segments.SameShapeSizeOf` | client/src/palamander/morphology/segment.ts:163-172 | the same for two child lists of the same shape |
| `SegmentStore.Link` | client/src/palamander/morphology/segmentation/segmentation.ts:166 | `children.push`: the parent keeps its own fields and gains the child after its earlier children; every other node is unchanged and the arena keeps its size |
| `SegmentStore.Attach` | client/src/palamander/morphology/segmentation/segmentation.ts:159-166 | a freshly created segment, pushed onto its parent, is the arena's new last node with no children |
| `SegmentStore.AppendChain` | client/src/palamander/morphology/segmentation/segmentation.ts:153-170 | the chain loop creates one node per segment |
| `SegmentStore.AppendChainStep` | client/src/palamander/morphology/segmentation/segmentation.ts:166-167 | each turn of the loop pushes the new segment onto the one the previous turn created (the parent on the first turn) |
| `SegmentStore.ChainIds` | client/src/palamander/morphology/segmentation/segmentation.ts:168 | the ids of the segments a chain returns: one per segment |
| `SegmentStore.ChainIdsAt` | client/src/palamander/morphology/segmentation/segmentation.ts:168 | the k-th segment returned is the k-th one created |
| `SegmentStore.ChainIdsAppend` | client/src/palamander/morphology/segmentation/segmentation.ts:168 | two chains created one after the other return one contiguous run of segments |
| `SegmentStore.LinkLast` | client/src/palamander/morphology/segmentation/segmentation.ts:166 | pushing onto the newest segment changes that segment only |
| `SegmentStore.LinkBefore` | client/src/palamander/morphology/segmentation/segmentate-part.ts:117 | pushing onto an older segment commutes with creating newer ones |
| `SegmentStore.AttachAt` | client/src/palamander/morphology/segmentation/segmentate-part.ts:155 | a fresh segment pushed onto an older one: that one gains the new id, everything between is kept, the new node comes last |
| `SegmentStore.AttachTwice` | client/src/palamander/morphology/segmentation/segmentate-part.ts:55-56 | two fresh segments pushed onto one parent: it gains exactly those two, in order, and no other old node changes |
| `SegmentStore.AppendChainShape` | client/src/palamander/morphology/segmentation/segmentation.ts:147-170 | after a chain the parent gains exactly the first new segment, every other old segment is untouched, and each new segment has the next one as its only child |
| `SegmentStore.Store.constructor` | client/src/palamander/morphology/segmentation/segmentation.ts:153 | an empty arena |
| `SegmentStore.Store.Add` | client/src/palamander/morphology/segmentation/segmentate-pal.ts:155 | a segment created without a parent is appended and gets the next id |
| `SegmentStore.Store.AddChild` | client/src/palamander/morphology/segmentation/segmentation.ts:159-166 | the arena becomes `Attach` of the old arena; the new id is the old size |
| `SegmentStore.Store.Push` | client/src/palamander/morphology/segmentation/segmentate-pal.ts:75 | the arena becomes `Link` of the old arena |
| `SegmentStore.Store.SetSegment` | client/src/palamander/morphology/segmentation/segmentation.ts:163-165 | only that segment's fields change; its children are kept |
| `Segmentations.CreateSegmentation` | client/src/palamander/morphology/segmentation/segmentation.ts:47-58 | each field is the given one or its default (count 1, radius 100, taper 1, angle 0, overlap 0.5, curve range 0, curve 0); no fields gives exactly the defaults |
| `Segmentations.ToSegmentation` | client/src/palamander/morphology/segmentation/segmentation.ts:60-67 | count and angle from the section, radius the section's percentage of the parent's radius, the rest defaulted |
| `Segmentations.CalculateTaper` | client/src/palamander/morphology/segmentation/segmentation.ts:173-175 | the count-th root of the termination factor; a count below 2 takes the first power |
| `Segmentations.ChainSegmentFields` | client/src/palamander/morphology/segmentation/segmentation.ts:157-165 | segment k of a chain: radius tapered k + 1 times, overlap proportional to that radius, relative angle turned by k curves, curve range and wriggle from the segmentation, no children, not primary |
| `Segmentations.Chain` | client/src/palamander/morphology/segmentation/segmentation.ts:156 | one segment per count (none for a count of 0 or less) |
| `Segmentations.TaperedRadii` | client/src/palamander/morphology/segmentation/segmentation.ts:157 | with a positive radius and a taper strictly between 0 and 1, radii strictly decrease along the chain and stay positive |
| `Segmentations.UntaperedRadii` | client/src/palamander/morphology/segmentation/segmentation.ts:51 | with the default taper of 1 every segment keeps the segmentation's radius |
| `Segmentations.ChainStep` | client/src/palamander/morphology/segmentation/segmentation.ts:166-167 | turn i attaches segment i of the chain under the segment the previous turn created |
| `Segmentations.WholeChain` | client/src/palamander/morphology/segmentation/segmentation.ts:155-170 | after all turns the whole chain hangs off the parent, one segment under the next |
| `Segmentations.TaperedNext` | client/src/palamander/morphology/segmentation/segmentation.ts:157 | one more turn multiplies the radius accumulator by the taper |
| `Segmentations.TaperedPow` | client/src/palamander/morphology/segmentation/segmentation.ts:157 | after n turns the accumulator holds radius times taper to the n |
| `Segmentations.NextSegment` | client/src/palamander/morphology/segmentation/segmentation.ts:158-165 | the segment a turn builds from the accumulated radius is segment i of the chain |
| `Segmentations.ChainTurn` | client/src/palamander/morphology/segmentation/segmentation.ts:157-167 | one turn: the radius tapers once more, the arena gains segment i under the cursor, and the cursor moves to it |
| `Segmentations.CreateDefault` | client/src/palamander/morphology/segmentation/segmentation.ts:148-171 | the arena gains the whole chain under the parent, every older segment but the parent is untouched, and the ids returned are the new segments in order |
| `Segmentations.AsSegments` | client/src/palamander/morphology/segmentation/segmentation.ts:187-209 | the same chain with the segmentation's own wriggle generator, or no wriggle without one |
| `Segmentations.RotationGenerator` | client/src/palamander/morphology/segmentation/segmentation.ts:142 | every index gets the same single rotation spec of the wave |
| `Segmentations.CreateRotation` | client/src/palamander/morphology/segmentation/segmentation.ts:138-145 | a chain whose segments all rotate with the wave |
| `Segmentations.RotationChainWriggle` | client/src/palamander/morphology/segmentation/segmentation.ts:138-145 | each segment of a rotation chain has exactly one component, a rotation of the wave |
| `Segmentations.NoodleGenerator` | client/src/palamander/morphology/segmentation/segmentation.ts:126-133 | one squiggle spec per index, carrying its index, squiggling over twice the limb's length, suppressed with a tuck halfway from the limb's angle to `pullTowards` |
| `Segmentations.CreateNoodleLimb` | client/src/palamander/morphology/segmentation/segmentation.ts:120-135 | a chain whose segments wriggle as the noodle generator says |
| `Builders.ToSegments` | client/src/palamander/morphology/segmentation/segmentate-part.ts:91 | the arena and the returned segments are what `toSegments` gives; the arena never shrinks and every returned segment exists |
| `Builders.Dir` | client/src/palamander/morphology/segmentation/segmentate-part.ts:28 | -1 exactly when the section is mirrored, 1 otherwise |
| `Sets.SetWrapper` | client/src/palamander/morphology/segmentation/segmentate-set.ts:9-225 | each set wraps a replacement of its section (with at most a new kind, count, size and angle) in a fresh section; a pair for the mirrored pairs, claws and gill pairs, an equal spread for gills, hairdo, mane, octo arms, propellers and tentacles, a radial one for starfish arms |
| `Sets.PairMirror` | client/src/palamander/morphology/segmentation/segmentate-set.ts:13 | a pair wrapper is mirrored exactly for the mirrored pair sets (not claws or gill pairs), and sets nothing but the mirror flag and its next |
| `Sets.RigidLegSets` | client/src/palamander/morphology/segmentation/segmentate-set.ts:9-89 | buggy legs, nubby legs and frog arms are rigid legs at right angles to the section, with counts 2, 1, 5 and sizes 20, 30, 20 |
| `Sets.MandiblesFixed` | client/src/palamander/morphology/segmentation/segmentate-set.ts:137-150 | mandibles are always at 165 degrees whatever the section's angle, while buggy legs turn with it |
| `Sets.EqualSpreads` | client/src/palamander/morphology/segmentation/segmentate-set.ts:33-207 | for each even spread: the number of copies, the range of degrees, the mirror flag, and the kind, count and size of each copy; only propellers have a phase offset |
| `Sets.PropellerPhases` | client/src/palamander/morphology/segmentation/segmentate-set.ts:170-184 | three blades at one angle, a third of a full cycle apart in phase |
| `Sets.StarfishArms` | client/src/palamander/morphology/segmentation/segmentate-set.ts:218-225 | five mirrored radial curls of eight segments at 75 percent |
| `Composites.FlippedAngle` | client/src/palamander/morphology/segmentation/segmentate-composite.ts:16 | the mirror image about the parent's relative angle: the two angles average to it, and that angle is its own mirror |
| `Composites.Pair` | client/src/palamander/morphology/segmentation/segmentate-composite.ts:10-23 | without a next nothing changes; otherwise no segments, next is cleared and the branches become two clones of next, the second mirrored about the parent's angle with its mirror flag flipped and, when the section mirrors, its offset half a cycle back |
| `Composites.Equal` | client/src/palamander/morphology/segmentation/segmentate-composite.ts:26-42 | without a next nothing changes; a count of at most 1 hands next to `follow`; otherwise the old branches are kept and `count` clones of next are appended, clone i at its spread angle and at its staggered offset (or the section's offset when it mirrors) |
| `Composites.EqualSpread` | client/src/palamander/morphology/segmentation/segmentate-composite.ts:33-36 | the first clone sits half the range below next's angle, the last half the range above, neighbours `range / (count - 1)` apart |
| `Composites.RadialRange` | client/src/palamander/morphology/segmentation/segmentate-composite.ts:50 | the whole circle less one step of 360/count |
| `Composites.RadialEqual` | client/src/palamander/morphology/segmentation/segmentate-composite.ts:51-52 | an 'equal' branch that keeps the section's count, mirror, index, size and offset, spans the radial range and carries next |
| `Composites.Radial` | client/src/palamander/morphology/segmentation/segmentate-composite.ts:45-54 | without a next nothing changes; a count of at most 1 hands next to `follow`; otherwise `follow` gets the 'equal' branch around next |
| `Composites.RadialStep` | client/src/palamander/morphology/segmentation/segmentate-composite.ts:50-53 | once expanded, neighbouring radial branches are exactly 360/count degrees apart, so first and last do not overlap |
| `Heads.Head` | client/src/palamander/morphology/segmentation/segmentate-head.ts:9-14 | one new default segment whose radius is the section's size, returned alone; the section is unchanged |
| `Heads.LionHead` | client/src/palamander/morphology/segmentation/segmentate-head.ts:16-38 | the arena gains head, two ears, snout and neck, the last four children of the head in that order; a mane branch is added; head and neck are returned |
| `Heads.MonkeyHead` | client/src/palamander/morphology/segmentation/segmentate-head.ts:40-59 | the arena gains head, two ears and neck under the head; a hairdo branch turned 180 degrees is added; head and neck are returned |
| `Heads.SnakeHead` | client/src/palamander/morphology/segmentation/segmentate-head.ts:61-74 | the arena gains a snout with the head as its only child; a flicker branch is added; snout and head are returned |
| `Heads.LionHeadShape` | client/src/palamander/morphology/segmentation/segmentate-head.ts:20-37 | the lion head's new segments form one tree rooted at the head, each named once as a child; the returned neck is the head's last child |
| `Heads.MonkeyHeadShape` | client/src/palamander/morphology/segmentation/segmentate-head.ts:44-58 | the monkey head's new segments form one tree rooted at the head; the neck is its last child |
| `Heads.SnakeHeadShape` | client/src/palamander/morphology/segmentation/segmentate-head.ts:65-73 | the snake head's two segments form one tree: the head is the snout's only child |
| `Heads.OnlyRootBranches` | client/src/palamander/morphology/segmentation/segmentate-head.ts:22-32 | when only the first new segment gets children, its children are all the children there are |
| `Heads.EarsMirror` | client/src/palamander/morphology/segmentation/segmentate-head.ts:22-26 | the two ears of a head differ only in the sign of their angle (80 degrees for a lion, 90 for a monkey) |
| `Bodies.EelBody` | client/src/palamander/morphology/segmentation/segmentate-body.ts:25-49 | the arena gains the eel chain under the parent (radius from the parent, taper to 45 percent over the count, overlap 0.5, squiggly curve range) with the squiggle-gradient wriggle; the new segments are returned in order |
| `Bodies.EelTapersTo` | client/src/palamander/morphology/segmentation/segmentate-body.ts:29-38 | when the power function takes true roots, the eel's last segment has 45 percent of the radius it starts from |
| `Bodies.FishTail` | client/src/palamander/morphology/segmentation/segmentate-body.ts:55-66 | a six-segment fish tail at 75 percent carrying two flippers off its first segment, the second mirrored and half a cycle out of phase |
| `Bodies.InchwormBody` | client/src/palamander/morphology/segmentation/segmentate-body.ts:70-94 | the arena gains the inchworm chain under the parent with its squiggle; the new segments are returned in order |
| `Bodies.InchwormSegments` | client/src/palamander/morphology/segmentation/segmentate-body.ts:74-91 | every inchworm segment has the radius the section asks of the parent, points straight on, may curve 720/count degrees, and squiggles with one wave over three quarters of the count |
| `Bodies.NewtLegs` | client/src/palamander/morphology/segmentation/segmentate-body.ts:96-106 | an eel body keeping the count, with two pairs of noodle limbs of a third of the count (rounded down) at 45 degrees off the section, off segment 0 and segment third - 2; below a count of 6 the second index is negative |
| `Parts.Claw` | client/src/palamander/morphology/segmentation/segmentate-part.ts:24-58 | a 3-segment rotating upper arm off the parent, the lower arm from `toSegments` off its third segment, the big then the small pincer pushed onto the lower arm's third segment; returns upper then lower arm; fails with a TypeError exactly when the lower arm has fewer than three segments |
| `Parts.ClawArmCount` | client/src/palamander/morphology/segmentation/segmentate-part.ts:29-34 | the upper arm segmentation has three segments |
| `Parts.PincerArm` | client/src/palamander/morphology/segmentation/segmentate-part.ts:41-57 | for any 3-segment upper arm: the rotation chain off the parent, the lower arm off its third segment, then the two pincers pushed in order onto the lower arm's third segment; fails with a TypeError exactly when the lower arm has fewer than three segments |
| `Parts.Curl` | client/src/palamander/morphology/segmentation/segmentate-part.ts:60-78 | the arena and result are `toSegments` of the curling segmentation (radius from the parent, taper 0.9, a full turn of curve range shared over the count) |
| `Parts.CurlRadius` | client/src/palamander/morphology/segmentation/segmentate-part.ts:60-78 | the curl's radius is the section's share of the parent's, its count and angle the section's, and its curve ranges add up to 360 degrees |
| `Parts.Feeler` | client/src/palamander/morphology/segmentation/segmentate-part.ts:80-93 | the arena and result are `toSegments` of a 5-segment feeler a fifth of the parent's radius |
| `Parts.FishTail` | client/src/palamander/morphology/segmentation/segmentate-part.ts:95-120 | `toSegments` of the tapering tail, then fins at -30 and +30 degrees pushed in that order onto tail segment count - 1; fails with a TypeError exactly when the tail has no such segment (count 0 or too few segments) |
| `Parts.Fork` | client/src/palamander/morphology/segmentation/segmentate-part.ts:147-153 | one fork of the tongue: three segments, each the only child of the one before |
| `Parts.AddFork` | client/src/palamander/morphology/segmentation/segmentate-part.ts:146-155 | the fork is created and then pushed, as a whole, onto the tongue's tip |
| `Parts.Flicker` | client/src/palamander/morphology/segmentation/segmentate-part.ts:122-158 | `toSegments` of a 7-segment squiggling tongue, then two forks (side -1, then +1) pushed onto its seventh segment, which gains exactly those two children; fails with a TypeError exactly when the tongue has fewer than seven segments |
| `Parts.FlipperShapes` | client/src/palamander/morphology/segmentation/segmentate-part.ts:165-171 | six segments, one per size |
| `Parts.FlipperChain` | client/src/palamander/morphology/segmentation/segmentate-part.ts:172-182 | the six segments once each has its rotation |
| `Parts.Flipper` | client/src/palamander/morphology/segmentation/segmentate-part.ts:160-184 | six segments chained off the parent, each the only new child of the one before; the six are returned in order |
| `Parts.FlipperSegment` | client/src/palamander/morphology/segmentation/segmentate-part.ts:165-181 | flipper segment i has radius sizes[i] percent of the section size, is drawn at the section's angle turned back 15 degrees per step (both mirrored), overlaps by 1.2 radii and rotates with range 20 |
| `Parts.FrogFoot` | client/src/palamander/morphology/segmentation/segmentate-part.ts:219-234 | the pad has the two toes as children (side +1 first), and each toe has one child |
| `Parts.AddFrogFoot` | client/src/palamander/morphology/segmentation/segmentate-part.ts:219-234 | the pad and toes are appended in the order they are created |
| `Parts.AddToe` | client/src/palamander/morphology/segmentation/segmentate-part.ts:225-233 | a toe 10 degrees to its side off the pad, with one child of its own radius and angle |
| `Parts.FrogLegs` | client/src/palamander/morphology/segmentation/segmentate-part.ts:205-216 | the upper and lower leg chains add six segments |
| `Parts.FrogLegCounts` | client/src/palamander/morphology/segmentation/segmentate-part.ts:191-198 | both leg chains of a frog leg have three segments |
| `Parts.LegChains` | client/src/palamander/morphology/segmentation/segmentate-part.ts:205-216 | the upper chain off the parent, the lower chain off the upper chain's third segment; the two runs of ids are returned |
| `Parts.FrogLeg` | client/src/palamander/morphology/segmentation/segmentate-part.ts:186-237 | the two leg chains, then the foot pushed onto the lower leg's third segment; returns upper leg, lower leg and pad, seven consecutive new segments |
| `Parts.FootedLeg` | client/src/palamander/morphology/segmentation/segmentate-part.ts:205-236 | for any two 3-segment leg chains: both chains, then the foot pushed onto the lower chain's third segment; returns seven consecutive new ids |
| `Parts.AddFootOn` | client/src/palamander/morphology/segmentation/segmentate-part.ts:219-235 | the foot is appended and its pad becomes the last child of the lower leg's end |
| `Parts.ChainIdsSplit` | client/src/palamander/morphology/segmentation/segmentate-part.ts:236 | upper leg, lower leg and pad are one run of seven ids |
| `Parts.Hair` | client/src/palamander/morphology/segmentation/segmentate-part.ts:239-266 | the arena and result are `toSegments` of the segmentation mixed with a curl (range 30) and then a rotation (range 5) |
| `Parts.MandibleCurve` | client/src/palamander/morphology/segmentation/segmentate-part.ts:272 | -10 exactly when the section's angle is negative, 10 otherwise |
| `Parts.Mandible` | client/src/palamander/morphology/segmentation/segmentate-part.ts:268-288 | a rotating chain off the parent tapering by 0.8 and curving away from zero |
| `Parts.MandibleBends` | client/src/palamander/morphology/segmentation/segmentate-part.ts:272-286 | segment k points 10·k degrees further from zero than the section does |
| `Parts.MonkeyArmBuilt` | client/src/palamander/morphology/segmentation/segmentate-part.ts:296-329 | pec, shoulder, a 2-segment upper arm and a 3-segment forearm add seven segments |
| `Parts.MonkeyArm` | client/src/palamander/morphology/segmentation/segmentate-part.ts:290-335 | the parent gains only the pec; shoulder, upper arm and forearm hang one off the other; only the last forearm segment is then made a fist of radius 0.6·size and overlap 0.3·size; all seven are returned in order |
| `Parts.MonkeyIds` | client/src/palamander/morphology/segmentation/segmentate-part.ts:334 | pec, shoulder, upper arm and forearm are one run of seven ids |
| `Parts.NoodleLimb` | client/src/palamander/morphology/segmentation/segmentate-part.ts:337-361 | the arena and result are `toSegments` of a squiggling limb that does not grow and tucks towards 0 by half |
| `Parts.Pod` | client/src/palamander/morphology/segmentation/segmentate-part.ts:363-372 | the parent gains exactly one child of the section's size at 75 degrees to the mirrored side with overlap 0.25·size; a propellers branch is pushed onto the section; the pod is returned |
| `Parts.Propeller` | client/src/palamander/morphology/segmentation/segmentate-part.ts:374-396 | the arena and result are `toSegments` of an untapered blade squiggling over count + 1.5 segments |
| `Parts.RigidLeg` | client/src/palamander/morphology/segmentation/segmentate-part.ts:398-417 | a rotating chain off the parent with overlap 0.2 |
| `Parts.RigidLegUntapered` | client/src/palamander/morphology/segmentation/segmentate-part.ts:402-408 | every rigid-leg segment has the section's share of the parent's radius |
| `Parts.SimpleLimbCurve` | client/src/palamander/morphology/segmentation/segmentate-part.ts:423 | 15 exactly when the offset is a whole number of cycles under JavaScript's truncating remainder, -15 otherwise |
| `Parts.SimpleLimb` | client/src/palamander/morphology/segmentation/segmentate-part.ts:419-439 | a rotating chain off the parent curving 15 degrees per segment, one way or the other |
| `Parts.SimpleLimbMirrors` | client/src/palamander/morphology/segmentation/segmentate-part.ts:423 | offset 0 curls one way and offset plus or minus half a cycle the other, so the two limbs of a mirrored pair bend apart |
| `Parts.Tentacle` | client/src/palamander/morphology/segmentation/segmentate-part.ts:441-464 | the arena and result are `toSegments` of a non-growing squiggle spanning three times the count |
| `Pals.Tadpole` | client/src/palamander/morphology/segmentation/segmentate-pal.ts:282-292 | the tadpole returns no segments of its own: what `follow` returns for its head is dropped, and only the section as `follow` leaves it is kept |
| `Pals.PalHeads` | client/src/palamander/morphology/segmentation/segmentate-pal.ts:15-24 | the axolotl's head is a full-size 'head' branch of the section (angle, offset and mirror kept) carrying only gills off segment 0; the newt's is bare, the newt king's three quarters the size, and the snake's carries its body off segment 1 at 70 percent |
| `Pals.NewtBodiesCarryLegs` | client/src/palamander/morphology/segmentation/segmentate-pal.ts:189-214 | the newt bodies the axolotl, newt and newt king ask for (counts 15, 18, 12) put their second leg pair on segments 3, 4 and 2, all on the body |
| `Pals.CaterpillarBody` | client/src/palamander/morphology/segmentation/segmentate-pal.ts:27-43 | an inchworm body with one buggy-leg pair per segment but the last, pair i off segment i |
| `Pals.Caterpillar` | client/src/palamander/morphology/segmentation/segmentate-pal.ts:27-43 | the loop pushes exactly the caterpillar body's leg pairs; the result is the section followed by the mandibled head, which is followed by that body |
| `Pals.CaterpillarAlternates` | client/src/palamander/morphology/segmentation/segmentate-pal.ts:36-40 | neighbouring leg pairs are half a cycle apart, so every other pair moves in step |
| `Pals.CentipedeFeelers` | client/src/palamander/morphology/segmentation/segmentate-pal.ts:58-62 | two feelers off the last segment, 12 degrees either side of the section's angle |
| `Pals.CentipedeBody` | client/src/palamander/morphology/segmentation/segmentate-pal.ts:46-66 | one leg pair per segment, then the two feelers |
| `Pals.Centipede` | client/src/palamander/morphology/segmentation/segmentate-pal.ts:46-66 | the loop pushes exactly the centipede body's leg pairs and then the feelers; the result is the section followed by the mandibled head, which is followed by that body |
| `Pals.CentipedeLegPairs` | client/src/palamander/morphology/segmentation/segmentate-pal.ts:55-59 | the loop yields, in order, the leg pair of each of the `count` segments, and none for a count of 0 or less |
| `Pals.CentipedeLegs` | client/src/palamander/morphology/segmentation/segmentate-pal.ts:52-62 | branch i is the buggy-leg pair off segment i, and the feelers come right after the last pair |
| `Pals.CentipedeCascade` | client/src/palamander/morphology/segmentation/segmentate-pal.ts:55-56 | each leg pair is the same step of 1/(2.5 count) of a cycle behind the one before, and all lie within half a cycle of the section's offset |
| `Pals.CrawdadBranches` | client/src/palamander/morphology/segmentation/segmentate-pal.ts:84-104 | a three-segment fish tail off chain segment 4, buggy legs off segments 2, 3 and 4, two feelers at 210 and 150 degrees with parent index 0, and claws with parent index 2 |
| `Pals.Crawdad` | client/src/palamander/morphology/segmentation/segmentate-pal.ts:69-108 | head and spacer are appended, the carapace comes from `toSegments` off the spacer, the branches are pushed in order; head, spacer and carapace are returned |
| `Pals.AddCrawdadBranches` | client/src/palamander/morphology/segmentation/segmentate-pal.ts:87-105 | the pushes append exactly the crawdad's seven branches, in order, after the section's own |
| `Pals.CrawdadIndices` | client/src/palamander/morphology/segmentation/segmentate-pal.ts:84-104 | with a three-segment carapace the tail hangs off its last segment and the leg pairs off each carapace segment; the feelers and claws keep the section's own index |
| `Pals.FrogBranches` | client/src/palamander/morphology/segmentation/segmentate-pal.ts:132-143 | five-segment simple limbs at 20 percent of the size off the head, 45 degrees round, and frog legs off body segment 4 |
| `Pals.Frog` | client/src/palamander/morphology/segmentation/segmentate-pal.ts:111-145 | head and two eyes are appended, the squiggling body comes from `toSegments` off the head, the limbs are pushed; head and body are returned |
| `Pals.FrogShape` | client/src/palamander/morphology/segmentation/segmentate-pal.ts:115-131 | the eyes mirror each other, and each body segment is three quarters of the one before |
| `Pals.Jelly` | client/src/palamander/morphology/segmentation/segmentate-pal.ts:148-158 | head, medulla and bell appended in a line; tentacles followed off segment 1; head and medulla returned |
| `Pals.HorseshoeCrabLegs` | client/src/palamander/morphology/segmentation/segmentate-pal.ts:168-171 | three nubby-leg pairs off the shell at -30, 0 and 30 degrees from the section's angle |
| `Pals.HorseshoeCrab` | client/src/palamander/morphology/segmentation/segmentate-pal.ts:161-174 | head and shell appended; the leg pairs pushed, then a feeler followed off the head; head and shell returned |
| `Pals.Nautilus` | client/src/palamander/morphology/segmentation/segmentate-pal.ts:177-186 | one hull segment; pods at half size and then propellers pushed onto the section |
| `Pals.HeadWithArms` | client/src/palamander/morphology/segmentation/segmentate-pal.ts:217-224 | one default head; the arms (octo arms, or starfish arms for the starfish) are followed off it |
| `Pals.Wyrm` | client/src/palamander/morphology/segmentation/segmentate-pal.ts:295-306 | one default head; a six-segment snake body at 90 percent pushed onto the section |
| `Segmentate.BranchParent` | client/src/palamander/morphology/segmentation/segmentate.ts:32-34 | a branch's parent is the indexed segment of the section's own segments followed by those of its next; one past the end is the grandparent; any other index gives no parent |
| `Segmentate.LastParent` | client/src/palamander/morphology/segmentation/segmentate.ts:27 | next hangs off the last segment the section made, or off the grandparent when it made none |
| `Segmentate.Process` | client/src/palamander/morphology/segmentation/segmentate.ts:7-19 | a type missing from the map returns nothing and changes nothing; otherwise segments are only ever added, and every segment returned exists |
| `Segmentate.Children` | client/src/palamander/morphology/segmentation/segmentate.ts:21-39 | processing next and the branches only adds segments, and the segments returned (those of next) exist |
| `Segmentate.ChildrenIgnoresBranches` | client/src/palamander/morphology/segmentation/segmentate.ts:28-38 | the segments `processChildren` returns are exactly those of next, none without a next; dropping the branches gives the same segments, so branch segments are never returned |
| `Segmentate.ProcessOwnThenNext` | client/src/palamander/morphology/segmentation/segmentate.ts:17-18 | an Ok result begins with the segments the section's segmentation function made, and goes on with those of its next chain, computed as if the section had no branches |
| `Segmentate.Branches` | client/src/palamander/morphology/segmentation/segmentate.ts:33-36 | processing the branches in order only adds segments |
| `Segmentate.MarkPrimary` | client/src/palamander/morphology/segmentation/segmentate.ts:43 | marking keeps the number of segments |
| `Segmentate.MarkPrimaryEffect` | client/src/palamander/morphology/segmentation/segmentate.ts:43 | every returned segment becomes primary; every other segment is unchanged; no segment's children or other fields change |
| `Segmentate.ProcessSection` | client/src/palamander/morphology/segmentation/segmentate.ts:7-19 | the imperative `processSection` fails exactly when `Process` does, with the same error, and otherwise leaves the arena and returns the segments `Process` gives |
| `Segmentate.ProcessChildren` | client/src/palamander/morphology/segmentation/segmentate.ts:21-39 | the imperative `processChildren`, with the branch loop, agrees with `Children` in the same way |
| `Segmentate.ProcessBranches` | client/src/palamander/morphology/segmentation/segmentate.ts:33-36 | the `forEach` over the branches fails exactly when `Branches` does, with the same error, and otherwise leaves the arena `Branches` computes |
| `Segmentate.Segmentate` | client/src/palamander/morphology/segmentation/segmentate.ts:6-45 | the tree is processed under a fresh radius-100 root; the result is the segments `Process` returns, and in the final arena exactly those are additionally marked primary |
| `PyArena.Link` | tools/generate_palamanders.py:61 | `parent['children'].append(child)`: the parent keeps its own keys and gains the child after its earlier children |
| `PyArena.Attach` | tools/generate_palamanders.py:57-61 | a fresh dict appended to its parent is the arena's new last node, without children |
| `PyArena.Chain` | tools/generate_palamanders.py:55-62 | a chain loop creates one dict per turn |
| `PyArena.ChainHasShape` | tools/generate_palamanders.py:55-62 | after a chain loop the parent gains exactly the first new dict, every other old dict is untouched, and each new dict has the next as its only child |
| `PyArena.Run` | tools/generate_palamanders.py:61-62 | the dicts of a chain before the first is hung: one per turn |
| `PyArena.ChainClosed` | tools/generate_palamanders.py:55-62 | a non-empty chain is its run of new dicts with the first appended to the parent |
| `PyArena.LinkAt` | tools/generate_palamanders.py:61 | appending to one dict leaves every other dict alone |
| `PyArena.ChainStep` | tools/generate_palamanders.py:61-62 | each turn hangs the new dict off the one the previous turn created (the parent on the first turn) |
| `PyArena.Fan` | tools/generate_palamanders.py:181-189 | several chains hung off one parent add the dicts of all of them |
| `PyArena.FanStep` | tools/generate_palamanders.py:181-183 | each further call hangs one more chain off the same parent |
| `PyArena.Starts` | tools/generate_palamanders.py:181-189 | the id each chain of a fan starts at: one per chain |
| `PyArena.ChainKeeps` | tools/generate_palamanders.py:55-62 | a chain changes no old dict but its parent |
| `PyArena.ChainParent` | tools/generate_palamanders.py:61 | the parent gains the chain's first dict, if there is one, after its earlier children |
| `PyArena.ChainNode` | tools/generate_palamanders.py:57-62 | new dict k of a chain holds the k-th segment with the next new dict as its only child |
| `PyArena.FanKeeps` | tools/generate_palamanders.py:181-189 | a fan changes no old dict but its parent |
| `PyArena.FanNode` | tools/generate_palamanders.py:181-189 | dict k of chain i of a fan sits at that chain's start plus k, with the next dict of its chain as its only child |
| `PyArena.FanParent` | tools/generate_palamanders.py:181-189 | the parent of a fan gains the first dict of each non-empty chain, in order |
| `PyArena.UniformStarts` | tools/generate_palamanders.py:194-196 | in a fan of chains of one length L, chain i starts L·i dicts in |
| `PyArena.UniformFanParent` | tools/generate_palamanders.py:194-196 | the parent of such a fan gains a child every L dicts |
| `PyArena.UniformFanNode` | tools/generate_palamanders.py:194-196 | dict k of chain i of such a fan sits at L·i + k |
| `PyArena.FanAppend` | tools/generate_palamanders.py:181-189 | two fans off one parent, one after the other, are one fan |
| `PyArena.Pool.constructor` | tools/generate_palamanders.py:225-228 | a run of the generator starts with no dicts |
| `PyArena.Pool.Add` | tools/generate_palamanders.py:57 | a dict created without a parent is appended and gets the next id |
| `PyArena.Pool.Append` | tools/generate_palamanders.py:61 | the arena becomes `Link` of the old arena |
| `PyGenerate.SquiggleSpec` | tools/generate_palamanders.py:33-41 | a squiggle spec exists exactly when the length is non-zero (otherwise ZeroDivisionError); its rate times the length is 1, it does not synchronize, and it keeps the range, period, index and offset |
| `PyGenerate.SpecKinds` | tools/generate_palamanders.py:19-52 | a curl synchronizes without squiggling and its specs differ exactly by index; a rotation neither synchronizes nor squiggles and has index 0 |
| `PyGenerate.Turn` | tools/generate_palamanders.py:57-62 | one loop turn appends the new dict to the current one and makes it current: the arena grows by one step of the chain |
| `PyGenerate.AddLeg` | tools/generate_palamanders.py:54-62 | the arena becomes the old one with the leg's chain hung off the parent |
| `PyGenerate.LegRigid` | tools/generate_palamanders.py:54-62 | a leg is `length` identical dicts turned by its angle, each with one rotation spec of range 45 and period 2 |
| `PyGenerate.AddSpike` | tools/generate_palamanders.py:64-74 | a zero length raises ZeroDivisionError before anything is appended; otherwise the spike's chain is hung off the parent |
| `PyGenerate.SpikeLoop` | tools/generate_palamanders.py:65-74 | with a non-zero length, the loop hangs the spike's chain off the parent |
| `PyGenerate.SpikeStep` | tools/generate_palamanders.py:74 | taking the taper off dict i's radius gives dict i + 1's |
| `PyGenerate.SpikeDictBuilt` | tools/generate_palamanders.py:68-71 | the dict a turn builds field by field is dict i of the spike |
| `PyGenerate.SpikeTapers` | tools/generate_palamanders.py:66-74 | a spike starts at the full radius, thins by radius / length per dict, and ends at radius / length, still positive |
| `PyGenerate.TaperStep` | tools/generate_palamanders.py:79 | multiplying the running radius once more by the factor raises the power by one |
| `PyGenerate.AddOctoArm` | tools/generate_palamanders.py:76-86 | the arena becomes the old one with the arm's chain hung off the parent |
| `PyGenerate.OctoTurn` | tools/generate_palamanders.py:79-86 | one turn tapers the radius once more and hangs arm dict i off the cursor |
| `PyGenerate.OctoDictBuilt` | tools/generate_palamanders.py:80-84 | the dict a turn builds field by field is dict i of the arm |
| `PyGenerate.OctoDictFields` | tools/generate_palamanders.py:79-84 | arm dict k has the radius tapered k + 1 times, overlaps by half of it, and carries one synchronised curl of range 120/length |
| `PyGenerate.OctoArmTapers` | tools/generate_palamanders.py:78-84 | with a factor in (0, 1) each arm dict is strictly thinner than the one before and positive, overlaps by half its radius, curls in sync at its own index, and the curl ranges add up to 120 |
| `PyGenerate.SnakeDictBuilt` | tools/generate_palamanders.py:92-96 | the dict one turn of `add_tapered_snake` builds field by field is that turn's dict of the snake |
| `PyGenerate.AddTaperedSnake` | tools/generate_palamanders.py:88-99 | the snake's chain is hung off the parent, and the returned dict is the last one appended, or the parent when none was |
| `PyGenerate.SnakeTurn` | tools/generate_palamanders.py:91-98 | one turn tapers the radius once more and hangs snake dict i off the cursor |
| `PyGenerate.SnakeTapers` | tools/generate_palamanders.py:90-96 | dict k has the radius times the factor to the k + 1, an overlap proportional to it, and one unsynchronized squiggle of rate 1 / (2 · length) at index k |
| `PyGenerate.AddFrill` | tools/generate_palamanders.py:101-110 | the arena becomes the old one with the frill's chain hung off the parent |
| `PyGenerate.FrillRootTurns` | tools/generate_palamanders.py:103-108 | only the frill's first dict is turned; all share one radius, no overlap, and a squiggle rate of 1 / (10 · length) |
| `PyCreatures.CreateTadpole` | tools/generate_palamanders.py:112-115 | the arena gains the tadpole's dicts and the returned head is the first of them |
| `PyCreatures.TadpoleShape` | tools/generate_palamanders.py:112-115 | the tadpole is a head of radius 20 with one line of ten dicts, dict k of radius 15 · 0.9^(k+1) |
| `PyCreatures.CreateHorseshoeCrab` | tools/generate_palamanders.py:132-138 | the arena gains the crab's dicts and the returned head is the first of them |
| `PyCreatures.HorseshoeCrabShape` | tools/generate_palamanders.py:132-138 | head, a body of radius 30 overlapping by 30, and a five-dict spike thinning from 3 by 0.6, all in one line |
| `PyCreatures.CrabSpikeDict` | tools/generate_palamanders.py:64-74 | dict k of the crab's spike has radius 3 − 0.6 k |
| `PyCreatures.Limbs` | tools/generate_palamanders.py:167-168 | two five-dict limbs add ten dicts |
| `PyCreatures.AddLimbs` | tools/generate_palamanders.py:167-168 | the two `add_tapered_snake` calls on one spine dict leave the arena `Limbs` of the old one |
| `PyCreatures.LimbsShape` | tools/generate_palamanders.py:167-168 | the host keeps its fields and gains the two limb roots as its last children, at +45 and -45 from half its radius; every other dict is untouched |
| `PyCreatures.Spine` | tools/generate_palamanders.py:163-164 | the head and its fifteen-dict tapered snake add sixteen dicts |
| `PyCreatures.NewtNodes` | tools/generate_palamanders.py:162-176 | the newt adds 36 dicts |
| `PyCreatures.SpineWalk` | tools/generate_palamanders.py:165-168 | `curr['children'][0]` from the head is the first spine dict, and stays the next spine dict once the limbs are hung |
| `PyCreatures.FirstLimbs` | tools/generate_palamanders.py:167-171 | limbs on the first spine dict come after its spine child, so `children[0]` still walks the spine |
| `PyCreatures.ChainStart` | tools/generate_palamanders.py:55-62 | a chain hung off a childless last dict starts a line: each of its first dicts has the next as only child |
| `PyCreatures.CreateNewt` | tools/generate_palamanders.py:162-176 | the arena gains the newt's dicts and the returned head is the first of them |
| `PyCreatures.NewtShape` | tools/generate_palamanders.py:162-176 | the head has only the spine; spine dicts 1 and 3 carry, after the next spine dict, a limb at +45 and one at -45 from half their radius |
| `PyCreatures.NewtSpine` | tools/generate_palamanders.py:164 | the spine is a line and dict k has radius 10 · 0.95^k |
| `PyCreatures.SpineDicts` | tools/generate_palamanders.py:55-62 | the first dicts of a chain hung off a childless last dict each have the next as only child |
| `PyCreatures.BothLimbs` | tools/generate_palamanders.py:167-174 | limbs on spine dicts 1 and 3 leave their fields alone and put the limb roots after the spine child |
| `PyCreatures.AxolotlArms` | tools/generate_palamanders.py:220-222 | six arms of five dicts |
| `PyCreatures.CreateAxolotl` | tools/generate_palamanders.py:206-223 | the arena gains the axolotl's dicts and the returned head is the first of them |
| `PyCreatures.AddAxolotlArm` | tools/generate_palamanders.py:220-222 | turn i of the arm loop adds arm i to the fan off the head |
| `PyCreatures.AxolotlShape` | tools/generate_palamanders.py:206-223 | the head carries the spine and then six arm roots five ids apart, arm i turned 30 + 60 i degrees |
| `PyCreatures.NewtHead` | tools/generate_palamanders.py:207-218 | the newt part has 36 dicts and its head only the spine as child |
| `PyCreatures.ArmsOffHead` | tools/generate_palamanders.py:220-222 | equal-length arms fanned off a head give it their roots, one arm length apart, in order |
| `PyCreatures.FrillRow` | tools/generate_palamanders.py:181-183 | one loop of the jelly hangs seven frills of eight dicts |
| `PyCreatures.AddFrillRow` | tools/generate_palamanders.py:181-183 | a frill loop leaves the arena as the fan of its seven frills off the head |
| `PyCreatures.AddFrillTurn` | tools/generate_palamanders.py:181-183 | turn i of a frill loop adds frill i to the fan off the head |
| `PyCreatures.FrillTurn` | tools/generate_palamanders.py:182-183 | loop turn i hangs frill i at angle scale · (i - 4) |
| `PyCreatures.CreateJelly` | tools/generate_palamanders.py:178-190 | the arena gains the jelly's dicts and the returned head is the first of them |
| `PyCreatures.JellyFrill` | tools/generate_palamanders.py:181-189 | frill 7 r + i of the jelly is frill i of loop r, and all 21 have eight dicts |
| `PyCreatures.JellyShape` | tools/generate_palamanders.py:178-190 | the head carries 21 frill roots eight ids apart; frill 7 r + i is turned by 10, 5 or 2 times (i - 4) at its root only, so each row leans to one side |
| `PyCreatures.FrillOffHead` | tools/generate_palamanders.py:183 | a frill among equal frills off a head is turned at its root and runs straight on |
| `PyCreatures.OctopusArms` | tools/generate_palamanders.py:194-196 | six arms of twelve dicts |
| `PyCreatures.CreateOctopus` | tools/generate_palamanders.py:192-197 | the arena gains the octopus's dicts and the returned head is the first of them |
| `PyCreatures.OctopusTurn` | tools/generate_palamanders.py:195-196 | loop turn i hangs arm i at angle 8 + 16 (i - 3) with offset 29 i mod 17 |
| `PyCreatures.OctopusSpread` | tools/generate_palamanders.py:195-196 | arm i and arm 5 - i mirror each other, and no two arms share a phase offset |
| `PyCreatures.OctopusShape` | tools/generate_palamanders.py:192-197 | the head carries six arm roots twelve ids apart, each at its angle and curling with its offset at range 10 |
| `PyCreatures.StarfishArms` | tools/generate_palamanders.py:201-203 | five arms of eight dicts |
| `PyCreatures.CreateStarfish` | tools/generate_palamanders.py:199-204 | the arena gains the starfish's dicts and the returned head is the first of them |
| `PyCreatures.StarfishTurn` | tools/generate_palamanders.py:202-203 | loop turn i hangs arm i at 180 + 72 i |
| `PyCreatures.StarfishShape` | tools/generate_palamanders.py:199-204 | the head carries five arm roots eight ids apart, 72 degrees apart, arm dict k of radius 15 · 0.9^(k+1) |
| `PyCreatures.StarfishDict` | tools/generate_palamanders.py:199-203 | dict k of arm i has radius 15 · 0.9^(k+1), and arm i turns to 180 + 72 i |
| `PyCreatures.Hung` | tools/generate_palamanders.py:144-147 | a body dict with a leg on each side is one dict plus both legs |
| `PyCreatures.Legged` | tools/generate_palamanders.py:144-149 | one trunk turn adds eleven dicts |
| `PyCreatures.AddPiece` | tools/generate_palamanders.py:144-149 | one trunk turn leaves the arena `Legged` of the old one and returns the new body dict |
| `PyCreatures.PieceClosed` | tools/generate_palamanders.py:146-147 | two legs hung off a fresh body dict are that dict followed by both legs |
| `PyCreatures.HangTwo` | tools/generate_palamanders.py:146-147 | two chains off a fresh dict give it both roots as children, in order |
| `PyCreatures.HangFirst` | tools/generate_palamanders.py:146 | a chain off a fresh dict gives it the chain's root as only child, followed by the run |
| `PyCreatures.HangSecond` | tools/generate_palamanders.py:147 | a second chain off that dict gives it the second root after the first run |
| `PyCreatures.HangOne` | tools/generate_palamanders.py:61 | a chain hung off an older dict gives it the run's root after the dicts created since |
| `PyCreatures.LeggedShape` | tools/generate_palamanders.py:144-149 | the new body dict has its two legs as children and is appended to `curr` |
| `PyCreatures.LeggedKeeps` | tools/generate_palamanders.py:144-149 | a trunk turn changes no old dict but `curr` |
| `PyCreatures.Trunk` | tools/generate_palamanders.py:143-149 | a trunk loop adds eleven dicts per piece |
| `PyCreatures.TrunkStep` | tools/generate_palamanders.py:148-149 | each trunk turn hangs its piece off the previous body dict (the head on the first) |
| `PyCreatures.TrunkHead` | tools/generate_palamanders.py:148 | the head gains the first body dict after its earlier children |
| `PyCreatures.TrunkKeeps` | tools/generate_palamanders.py:143-149 | later trunk turns keep every dict earlier turns made, except the body dict they append to |
| `PyCreatures.TrunkTurnKeeps` | tools/generate_palamanders.py:143-149 | one trunk turn keeps every older dict except the body dict it appends to |
| `PyCreatures.TrunkFresh` | tools/generate_palamanders.py:144-147 | turn i creates body dict i 11 i ids in, with its two legs as children |
| `PyCreatures.TrunkGrow` | tools/generate_palamanders.py:148-149 | turn i + 1 appends body dict i + 1 to body dict i |
| `PyCreatures.TrunkBody` | tools/generate_palamanders.py:143-149 | body dict i has its two legs and then the next body dict as children (the last only its legs) |
| `PyCreatures.TrunkLegs` | tools/generate_palamanders.py:146-147 | the legs of body dict i start 1 and 6 ids after it |
| `PyCreatures.CreateCentipede` | tools/generate_palamanders.py:117-130 | as written, the first `add_leg` call gets the builtin `next` and raises TypeError after the head, the first body dict and the first leg dict are created; none of them is appended |
| `PyCreatures.CentipedePieces` | tools/generate_palamanders.py:121-127 | ten body pieces as the loop intends them |
| `PyCreatures.CreateCentipedeFixed` | tools/generate_palamanders.py:117-130 | with the legs on `x`, the arena gains the head and a ten-piece legged trunk |
| `PyCreatures.CentipedeFixedShape` | tools/generate_palamanders.py:117-130 | a head with one line of ten body dicts, each carrying legs at +80 and -80 swinging with phase offset i, then the next body dict |
| `PyCreatures.TrunkPiece` | tools/generate_palamanders.py:143-149 | off a childless head, the head has only the first body dict and body dict i its legs and the next |
| `PyCreatures.CrawdadTrunk` | tools/generate_palamanders.py:143-149 | the crawdad's three legged pieces are hung off the head and the last body dict is returned |
| `PyCreatures.CreateCrawdad` | tools/generate_palamanders.py:140-160 | as written, the write to `rightTailScale` before it is assigned raises UnboundLocalError after the trunk, tail and left scale are created |
| `PyCreatures.CreateCrawdadFixed` | tools/generate_palamanders.py:140-160 | with the first write on the left scale, the arena gains the trunk, the unattached tail and the two scales |
| `PyCreatures.CrawdadTailScales` | tools/generate_palamanders.py:150-159 | the last body dict carries its two legs and then the two tail scales, mirror images at +45 and -45; the tail is attached nowhere |
| `MovementSample.Smallest` | client/src/palamander/movement/movement-sample.ts:20 | `Math.min` of the draws is one of them and no larger than any |
| `MovementSample.ScaleMono` | client/src/palamander/movement/movement-sample.ts:21 | with a positive `max`, a larger draw gives a larger point |
| `MovementSample.SampleSkewedMin` | client/src/palamander/movement/movement-sample.ts:17-22 | a negative `skewMin` makes `Array(skew)` throw RangeError; otherwise the result is the point one of the draws picks |
| `MovementSample.SkewedMinBounds` | client/src/palamander/movement/movement-sample.ts:17-22 | with draws in [0, 1) the sample lies in [min, min + max) and is the lowest point any draw picks, so `max` is a width, not an upper limit |
| `MovementSample.Sample` | client/src/palamander/movement/movement-sample.ts:24-34 | a zero roll below `zero` gives 0 without drawing; an error only from a negative skew after a non-zero roll; unmirrored, the skewed sample itself |
| `MovementSample.MirrorFlipsSign` | client/src/palamander/movement/movement-sample.ts:28-32 | mirroring keeps the magnitude and flips the sign exactly when the direction roll is below one half |
| `MovementSample.GetSample` | client/src/palamander/movement/movement-sample.ts:42-54 | a new value is drawn exactly when the interval exceeds the countdown; otherwise the held value is returned and the countdown shrinks by the interval; after a draw the held value is the new one and the countdown is the next interval minus the overshoot |
| `MovementSample.GetSampleWeights` | client/src/palamander/movement/movement-sample.ts:47-53 | a drawing call returns the old and new values weighted by the shares of the interval before and after the countdown ran out, shares that sum to 1 |
| `MovementSample.GetSampleBetween` | client/src/palamander/movement/movement-sample.ts:47-53 | with a countdown in [0, interval) the result lies between the old and the new value |
| `MovementSample.FirstSampleIsDrawn` | client/src/palamander/movement/movement-sample.ts:40-53 | the first call, from countdown 0, draws and returns the drawn value itself |
| `MovementSample.HeldAcrossCalls` | client/src/palamander/movement/movement-sample.ts:43-45 | calls whose intervals together fit in the countdown all return the held value and use up their sum |
| `MovementSample.SampleHold.constructor` | client/src/palamander/movement/movement-sample.ts:40-41 | both captured variables start at 0 |
| `MovementSample.SampleHold.Call` | client/src/palamander/movement/movement-sample.ts:42-54 | one call updates the captured countdown and value and returns what `GetSample` says |
| `Velocity.ClipVelocity` | client/src/palamander/movement/velocity.ts:24-28 | a drop of more than `decel` is cut to `prev - decel`, otherwise a rise of more than `accel` to `prev + accel`, otherwise `curr` is kept; with non-negative limits the result is within them |
| `Velocity.ClipIdempotent` | client/src/palamander/movement/velocity.ts:24-28 | clipping a clipped velocity changes nothing |
| `Velocity.ClipMonotone` | client/src/palamander/movement/velocity.ts:24-28 | clipping keeps the order of two velocities |
| `Velocity.DistanceScales` | client/src/palamander/movement/velocity.ts:38 | a zero interval or velocity covers no distance, and the distance is proportional to the interval |
| `Velocity.DistanceSign` | client/src/palamander/movement/velocity.ts:38 | with positive interval, top speed and factor the distance has the velocity's sign |
| `Velocity.Integrate` | client/src/palamander/movement/velocity.ts:36-40 | the velocity is the override's or the clipped sample; the distance is the override's or the one that velocity covers |
| `Velocity.OverrideIgnoresSample` | client/src/palamander/movement/velocity.ts:37 | with a velocity override the sample has no effect |
| `Velocity.ClampedAroundRest` | client/src/palamander/movement/velocity.ts:35-37 | as `prevVelocity` stays 0, every unoverridden velocity lies in [-decel, accel] whatever came before |
| `Velocity.VelocitySampler.constructor` | client/src/palamander/movement/velocity.ts:31-35 | the limit is copied and `prevVelocity` starts at 0 |
| `Velocity.VelocitySampler.Sample` | client/src/palamander/movement/velocity.ts:36-40 | one call returns `Integrate` from rest, and calls the timed sampler exactly when there is no velocity override |
| `Movement.CompoundAngle` | client/src/palamander/movement/movement.ts:27-30 | standing still the whole turn is taken, at full speed or with no turn the angle is kept |
| `Movement.CompoundAdditive` | client/src/palamander/movement/movement.ts:27-30 | at one speed, two turns compound like their sum |
| `Movement.CompoundDamped` | client/src/palamander/movement/movement.ts:27-30 | between rest and full speed the angle moves toward the turn by no more than the turn |
| `Movement.Step` | client/src/palamander/movement/movement.ts:45-61 | with an angle override the new angle is the override; without one it is the old angle turned by the rotational distance, damped at the linear velocity; both integrals use the scaled interval; the rotational distance returned is the new angle and the delta is computed from it |
| `Movement.OverrideAngleWins` | client/src/palamander/movement/movement.ts:51 | with an angle override the old angle has no effect |
| `Movement.IntervalScaled` | client/src/palamander/movement/movement.ts:46 | the interval factor acts only by scaling the interval |
| `Movement.AnglePersists` | client/src/palamander/movement/movement.ts:44-51 | two moves compound from the angle the first left, turning by both rotational distances |
| `Movement.StepTurns` | client/src/palamander/movement/movement.ts:44-51 | without an angle override, at an overridden linear velocity, a move turns the angle by its rotational distance damped by that velocity |
| `Movement.Mover.constructor` | client/src/palamander/movement/movement.ts:41-44 | the angle starts at 0 and each velocity sampler gets its limit |
| `Movement.Mover.Move` | client/src/palamander/movement/movement.ts:45-61 | one call returns the movement `Step` gives and keeps its angle for the next call |
| `Pivot.Masses` | client/src/palamander/palamander.ts:88 | one mass per body segment |
| `Pivot.SumFront` | client/src/palamander/palamander.ts:89 | the running sum is the first mass plus the sum of the rest |
| `Pivot.SumPositive` | client/src/palamander/palamander.ts:89 | positive masses have a positive sum |
| `Pivot.PivotEmpty` | client/src/palamander/palamander.ts:98 | an empty body pivots at 0 |
| `Pivot.PivotFromStraddles` | client/src/palamander/palamander.ts:91-97 | from any segment, a remaining mass below the rest stops the walk in the segment it falls inside, at the share of that segment still left |
| `Pivot.PivotHalfMass` | client/src/palamander/palamander.ts:87-99 | with positive masses the pivot lies in [0, n): its whole part is the segment where the running mass passes half the total, so `return 0` is reached only for an empty body |
| `Pivot.ShareBounds` | client/src/palamander/palamander.ts:93 | the fraction of a segment is in [0, 1) |
| `Pivot.CalculatePivotIndex` | client/src/palamander/palamander.ts:87-99 | the two loops return the pivot of the body's masses |
| `Staging.NoopOverride` | client/src/palamander/palamander-modifier.ts:29-32 | not frozen, and neither velocity nor the angle is overridden |
| `Staging.NoopFactor` | client/src/palamander/palamander-modifier.ts:49-53 | every movement factor is 1 |
| `Staging.InitMod` | client/src/components/exhibit/StagingState.ts:27-36 | a given modifier overrides every default; without one the defaults are a no-op override and factor, interval 50, motion 1, magnification 100, black, opaque |
| `Staging.InitStagingState` | client/src/components/exhibit/StagingState.ts:21-25 | three empty slots with the default modifier, nothing active, nothing selected |
| `Staging.FindFrom` | client/src/components/exhibit/StagingState.ts:57 | the search from i returns the first match at or after i, or -1 when there is none |
| `Staging.FindIndex` | client/src/components/exhibit/StagingState.ts:57 | `findIndex` returns the first creature of the type, and -1 exactly when there is none |
| `Staging.CloneStaged` | client/src/components/exhibit/StagingState.ts:43-45 | the copy equals the original, and destructuring fails exactly when a slot is `undefined` |
| `Staging.CloneStagingState` | client/src/components/exhibit/StagingState.ts:38-41 | the copy equals the state, failing exactly when a slot is `undefined` |
| `Staging.StagedFromExhibited` | client/src/components/exhibit/StagingState.ts:51-61 | one slot per stored entry: the first creature of the entry's type with the entry's modifier, or else the old slot at that position (`undefined` past the old end) |
| `Staging.ExhibitedFromStaged` | client/src/components/exhibit/StagingState.ts:63-68 | one entry per slot with its creature's type ('' when empty) and its modifier, failing exactly on an `undefined` slot |
| `Staging.ExhibitThenOverwrite` | client/src/components/exhibit/StagingState.ts:51-68 | storing the slots and loading them back restores them, when each creature is the first of its type and none has the empty type |
| `Staging.OverwriteThenExhibit` | client/src/components/exhibit/StagingState.ts:51-68 | loading entries whose types all name creatures and storing the result gives the entries back |
| `Staging.OverwriteStaging` | client/src/components/exhibit/StagingState.ts:101-110 | the slots come from storage; active and selected are kept |
| `Staging.ToggleSelect` | client/src/components/exhibit/StagingState.ts:112-119 | the selected slot is deselected, any other becomes selected, and active follows the selection; the slots are unchanged |
| `Staging.ToggleTwiceDeselects` | client/src/components/exhibit/StagingState.ts:112-119 | toggling the same slot twice leaves nothing selected or active |
| `Staging.ActivateSlot` | client/src/components/exhibit/StagingState.ts:121-127 | while a slot is selected nothing changes; otherwise only the active index changes |
| `Staging.SetSlot` | client/src/components/exhibit/StagingState.ts:129-148 | with nothing selected, or an unknown type, the reducer throws; the same type changes only the selection; otherwise the selected slot gets the first creature of the type with that creature's modifier, and the selection is cleared |
| `Staging.SetFrame` | client/src/components/exhibit/StagingState.ts:136-142 | a successful set leaves every other slot alone and the selected slot holds a creature of the chosen type |
| `Staging.ModifySlot` | client/src/components/exhibit/StagingState.ts:150-161 | only the modifier of the indexed slot changes; an index outside the slots throws |
| `Staging.ModifyLastWins` | client/src/components/exhibit/StagingState.ts:150-161 | modifying a slot twice keeps only the second modifier |
| `Staging.ReduceStaging` | client/src/components/exhibit/StagingState.ts:81-99 | each action goes to its reducer, and anything else returns a copy |
| `Staging.ReduceKeepsSlots` | client/src/components/exhibit/StagingState.ts:81-99 | every action but an overwrite keeps the number of slots and makes no `undefined` slot |
| `Staging.InitThenToggle` | client/src/components/exhibit/StagingState.ts:21-25 | toggling a slot of the initial state makes it selected and active |
| `ColorFilters.Ordinal` | client/src/components/filter/color-filter.ts:4-9 | the four enum members take the values 0 to 3 |
| `ColorFilters.Key` | client/src/components/filter/color-filter.ts:42-49 | a colour is stored under its numeric value written as a one-digit key |
| `ColorFilters.KeyInjective` | client/src/components/filter/color-filter.ts:42-49 | two colours share a key exactly when they are the same colour |
| `ColorFilters.InitColorFilter` | client/src/components/filter/color-filter.ts:42-49 | exactly the four colour keys, all off |
| `ColorFilters.NonStrings` | client/src/components/filter/color-filter.ts:52-54 | the values that are not strings, never more than the values |
| `ColorFilters.NamesDropped` | client/src/components/filter/color-filter.ts:52-54 | the reverse-mapping names before the values are all dropped |
| `ColorFilters.ValuesKept` | client/src/components/filter/color-filter.ts:52-54 | the enum values are all kept, in order |
| `ColorFilters.ValuesInOrder` | client/src/components/filter/color-filter.ts:52-54 | the four enum values come out in declaration order |
| `ColorFilters.EnumerateColorsInOrder` | client/src/components/filter/color-filter.ts:51-55 | `enumerateColors` lists each colour once, in declaration order |
| `ColorFilters.AsColorFilter` | client/src/components/filter/color-filter.ts:57-63 | each colour is present, on exactly when the stored object has it on; the other keys kept are stored enum names; a stored value wins over the default |
| `ColorFilters.AsColorFilterKeeps` | client/src/components/filter/color-filter.ts:57-63 | loading a filter that already has exactly the colour keys gives it back |
| `ColorFilters.StyleColor` | client/src/components/filter/color-filter.ts:65-78 | black exactly for a value outside the enum |
| `ColorFilters.StyleColorDistinct` | client/src/components/filter/color-filter.ts:65-78 | the four colours get four different backgrounds |
| `ColorFilters.SharedAmongIff` | client/src/components/filter/color-filter.ts:91-94 | the `reduce` over the colours finds one that is on in both filters exactly when there is one, skipping colours missing from either |
| `ColorFilters.MatchesIff` | client/src/components/filter/color-filter.ts:88-95 | a creature passes exactly when its type has a filter and some colour is on in both that filter and the active one |
| `ColorFilters.KeepWhere` | client/src/components/filter/color-filter.ts:88 | `filter` keeps exactly the creatures the predicate accepts, and none when it accepts none |
| `ColorFilters.KeepWhereAppend` | client/src/components/filter/color-filter.ts:88 | filtering keeps order: two lists in a row filter to their filtered parts in a row |
| `ColorFilters.KeepWhereIdempotent` | client/src/components/filter/color-filter.ts:88 | filtering a filtered list changes nothing |
| `ColorFilters.FilterPals` | client/src/components/filter/color-filter.ts:80-96 | with no value on, every creature is listed; otherwise those the predicate keeps |
| `ColorFilters.FilterPalsKeeps` | client/src/components/filter/color-filter.ts:80-96 | with a value on, a creature is listed exactly when its type's filter shares an active colour with the active filter |
| `ColorFilters.NameKeyHidesAll` | client/src/components/filter/color-filter.ts:86-95 | a filter whose only true value sits under a colour name is active yet matches nothing, so no creature is listed |
| `ColorFilters.ReduceColorFilter` | client/src/components/filter/filter-context.ts:33-48 | CLEAR gives the all-off filter; TOGGLE negates one colour, a missing one counting as off, and keeps every other key; anything else copies |
| `ColorFilters.ClearIdempotent` | client/src/components/filter/filter-context.ts:38-39 | clearing twice is clearing once |
| `ColorFilters.ToggleTwice` | client/src/components/filter/filter-context.ts:40-44 | toggling a present colour twice restores the filter; a missing one ends up present and off |
| `ColorFilters.ReachableHasColorKeys` | client/src/components/filter/filter-context.ts:33-48 | from a filter with exactly the colour keys, any actions keep exactly those keys |

`PyGenerate.DefaultSegment`, `PyGenerate.CurlSpec` and
`PyGenerate.RotationSpec` are record literals (`create_default_segment`,
`to_curl_spec` and `to_rotation_spec`). Their fields are stated by their
definitions and used by the lemmas above. The same holds for the
section-only pals `Pals.Axolotl`, `Pals.Newt`, `Pals.NewtKing`,
`Pals.SeaLion`, `Pals.SeaMonkey` and `Pals.Snake`
(client/src/palamander/morphology/segmentation/segmentate-pal.ts), whose
shared shape `Pals.PalHeads` and `Pals.NewtBodiesCarryLegs` state.

A few more definitions carry no contract of their own; the row of the
member named beside each states what they do:

- `Coordinates.Shift` (coords.ts:14-19 `shift`): `Coordinates.ShiftNegativeOfShift`, `Coordinates.ShiftNegative` and `Coordinates.CreateOrigin`.
- `Bodies.FishBody` (segmentate-body.ts:51-68): it hands the section to `follow` with `Bodies.FishTail`.
- `Bodies.NewtBodyOutcome` (segmentate-body.ts:96-106): it hands the section to `follow` with the body `Bodies.NewtLegs` describes.
- `Sets.SegmentateSet` (the `follow` call of each `sets` entry in segmentate-set.ts): it hands the section to `follow` with `Sets.SetWrapper`.
- `ColorFilters.EnumerateColors` (color-filter.ts:51-55): `ColorFilters.EnumerateColorsInOrder`.
- `Velocity.Distance` (velocity.ts:38): `Velocity.DistanceScales` and `Velocity.DistanceSign`.
- `Staging.DefaultMod` (StagingState.ts:27-35): `Staging.InitMod`, which returns it when no modifier is given.

## Left out

- File and storage I/O are not modelled. This covers the JSON dump and the file write in `generate` (tools/generate_palamanders.py:225-232), and `pullPalamanderFilters`/`syncPalamanderFilters` in color-filter.ts.
- Floating point is modelled as exact reals. Rounding, NaN and infinities are not modelled.
- A division by zero gives 0 in `Num.Div`. JavaScript gives an infinity or NaN; no proved property relies on that case.
- Trigonometry is a parameter or is left out: `calculateDelta` in movement.ts, the `Math.sin` magnitude of a wriggle, and circle centres.
- Fractional powers are parameters: `Math.pow` in `calculateTaper`, and the mass `radius ** 1.5` in the pivot.
- `Math.random` is an input: a list of draws, or one roll. Nothing states that draws are uniform.
- The helpers the builders import but no modelled file defines are fields of `Builders.Env`, with no semantics: `follow`, `replace`, `passthru`, `deepClone`, `toSegments`, `mixCurl`, `mixRotation`, `mixSquiggle` and the squiggle-gradient generator. The only thing assumed of `toSegments` is that the arena does not shrink.
- Segmentate.Segmentate: the walk carries a `fuel` bound. Running out of fuel is its own failure, because the sections `follow` hands on have no depth bound the model can see.
- The timed sampler `velocity.ts` imports, and the behaviour that picks the sample specs (behavior.ts), are not modelled. The sampled value is an input to `Velocity.VelocitySampler.Sample` and to `Movement.Mover.Move`.
- Movement.Mover.Move: the state of the samplers inside the two velocity closures is not carried between calls. Each call takes its samples as inputs.
- Objects that spreads copy are values. Aliasing between a section and its copies is not captured. Builders that change their section return the changed section.
- `console.log` in segmentate.ts and the React contexts, components and rendering are not modelled.
- The Palamander fields the staging state does not read are left out; a creature is its type, size and modifier. Filter values are booleans only.
- ColorFilters: prototype keys such as `toString` are not modelled for `in` on objects. A key counts only when it is set.
- Segmentate.Process: prototype keys such as `constructor` or `toString` are not modelled for the `section.type in segmentationMap` test (segmentate.ts:11). Such a type counts as missing, and the section yields no segments.
- Timers and the animation loop in palamander.ts, random spawn factors, window-dependent ranges and the static behaviour tables are not modelled.
- The superseded copies of the morphology, movement and filter files are not part of this model; they duplicate the modelled logic.

## Findings

| source | as written | input that shows it | evidently intended | confidence | as-written member | corrected member |
|---|---|---|---|---|---|---|
| tools/generate_palamanders.py:126-127 | `add_leg(next, …)` passes Python's builtin `next`, not the new body dict `x`; `next['children']` raises TypeError | `create_centipede()` with no arguments: the first loop turn raises after the head, one body dict and one leg dict are created | `add_leg(x, …)`: each of the ten body dicts carries legs at +80 and -80 | not executed | `PyCreatures.CreateCentipede` | `PyCreatures.CreateCentipedeFixed`, `PyCreatures.CentipedeFixedShape` |
| tools/generate_palamanders.py:153 | `rightTailScale['bodyAngle']['relative'] = 45` runs before `rightTailScale` is assigned on line 155, so it raises UnboundLocalError; the `tail` dict of line 150 is attached nowhere | `create_crawdad()` with no arguments: it raises after the trunk, the tail and the left scale are created | the first write goes to `leftTailScale`, so the scales are mirror images at +45 and -45 (the tail stays unattached, as written) | not executed | `PyCreatures.CreateCrawdad` | `PyCreatures.CreateCrawdadFixed`, `PyCreatures.CrawdadTailScales` |
