# Portfolio scene generators and catalogue, in Dafny

This project models the parts of a React/three.js portfolio page that compute something.

- **The layered "neural network" scene** (`components/data-visualization.tsx`):
  - 36 nodes placed in five centred layers.
  - Connections between adjacent layers, each kept by a random test.
  - 100 floating particles.
  - The per-frame motion of the group and of the particles.
  - The colour and the title chosen for the active section.
- **The rotating point cloud** (`components/data-sphere.tsx`):
  - 100 points in a spherical shell, coloured from a five-entry palette.
  - 80 lines, each joining two different points. The second end is redrawn until it differs from the first.
  - The per-frame turn of the group.
- **The project carousel** (`components/portfolio-scene.tsx`):
  - Selecting a project turns its id into a camera request.
  - Projects are placed evenly around a circle.
  - The scene turns until a project is hovered.
  - Each project object eases its scale and its height.
  - 200 ambient particles rise and restart at the floor.
- **The project catalogue** (`components/portfolio-context.tsx`):
  - The constant list of eight projects.
  - The featured projects.
  - Lookup by id and selection by type.
  - The `usePortfolio` hook, which fails outside its provider.

How the model is built:

- **Loop generators are methods.** The node, connection, point and line generators push into arrays inside loops, so they are methods with loops. The particle generators are `Array.from` comprehensions and are functions (`FloatingParticles`, `Particles`). Each loop is proved equal to a specification function: the node, connection and line loops to recursive functions (`NodesFrom`, `ConnectFrom`, `ConnectSpec`), and the point loop to `SpherePoint` applied point by point. The properties are lemmas about those functions.
- **Frame callbacks update an object in place.** The `useFrame` callbacks change an `Object3D` (`Three.Object3D`) through `modifies`. The particle, scale, height and floor updates go through pure functions (`ParticleStep`, `FloatStep`, `HoverScale`, `HoverHeight`, `FloorHeight`), which carry the bounds. The network's depth goes through `Lerp` toward `TargetDepth`. The rotation increments (`SphereFrame`, `NetworkFrame`, `Scene.Frame`) are stated directly in the methods' `ensures` as old value plus delta times the rate.
- **`Math.random` is an oracle.** It is a function `rand: nat -> real`, and the j-th call of a run returns `rand(j)`. `IsUniformSource` states that every draw lies in [0, 1). The generators thread a draw cursor `k`, so the draws are consumed in exactly the order the source makes them. A connection draws its opacity only when the keep test passes, and a particle draws fresh x and z only when it restarts.
- **The three.js helpers are written out.** `MathUtils.randFloat`, `randFloatSpread` and `lerp` use the formulas three.js documents: `low + u * (high - low)`, `range * (0.5 - u)` and `x + (y - x) * t`.
- **`Math.sin` and `Math.cos` are parameters.** The bounds use only their range [-1, 1], through `BoundedTrig`. The one concrete camera position (`SelectThirdProject`) assumes sin(π/2) = 1 and cos(π/2) = 0. Values that depend on the clock arrive already evaluated.
- **Numbers are exact reals.** Floating-point rounding is not modelled.

Behaviour worth noting:

- **Group motion.** The network group's rotation is a plain per-frame increment of `delta * 0.1`, not an interpolation. Hovering suspends rotation only in the carousel scene (`PortfolioScene.Scene.Frame`), not in the network scene (`DataVisualization.NetworkFrame`).
- **Particle drift.** A floating particle of the network scene drifts x and z by up to 0.01 after the wrap. A freshly restarted particle can therefore sit up to 0.01 outside [-15, 15] horizontally (`DataVisualization.FloatStep`). Its height always stays within [-15, 15].
- **Carousel facing.** A slot is turned about y by π minus its angle (`CarouselPlacement`). In three.js that points the object's local +z along (sin a, 0, −cos a), while the centre lies along (−sin a, 0, −cos a). The two agree only for a = 0 and a = π, so most slots do not face the centre.
- **Angle ranges.** The angles of a sphere point come from `randFloat`. They lie in [0, 2π] and [0, π]; with a draw below 1 they are strictly below the upper end.

## Model

| member | source | states |
|---|---|---|
| Three.RandFloat | components/data-visualization.tsx:43 | `randFloat(low, high)` for a draw in [0, 1) lies in [low, high], strictly below high when low < high |
| Three.RandFloatSpread | components/data-visualization.tsx:88 | `randFloatSpread(range)` for a draw in [0, 1) lies in [-range/2, range/2] |
| Three.RandomIndex | components/data-sphere.tsx:52 | `Math.floor(random * n)` is an index in [0, n) for n > 0, and 0 when n <= 1 |
| Three.Lerp | components/data-visualization.tsx:80 | `lerp(x, y, t)` with t in [0, 1] lies between x and y |
| Three.EasedGap | components/portfolio-scene.tsx:193-195 | after n frames of easing by rate t, the gap to the target is (1 - t)^n of the first gap, and the value never passes the target |
| Three.RemainingShrinks | components/data-visualization.tsx:80 | for a rate 0 < t < 1 the share of the gap left is positive and strictly shrinking, so easing approaches the target without reaching it |
| Three.DampedProduct | components/data-sphere.tsx:46-48 | a value bounded by m times a sine or cosine stays bounded by m |
| Ambient.Rise | components/portfolio-scene.tsx:346-349 | `y += speed; if (y > 15) y = -15`: no frame ends above 15, a particle starting in [-15, 15] with non-negative speed stays there, and the two branches are exact |
| Seqs.Filter | components/portfolio-context.tsx:126 | `filter` never lengthens the list |
| Seqs.FilterMembers | components/portfolio-context.tsx:133 | a filter keeps exactly the elements that match |
| Seqs.FilterAppend | components/data-visualization.tsx:51-52 | filtering a concatenation filters each part |
| Seqs.FilterAll | components/data-visualization.tsx:51 | a filter over all-matching elements keeps everything |
| Seqs.FilterNone | components/data-visualization.tsx:52 | a filter over non-matching elements keeps nothing |
| Seqs.FilterPrefix | components/portfolio-context.tsx:126 | when exactly the first k elements match, the filter is the prefix of length k |
| Seqs.MatchingPositionsExact | components/portfolio-context.tsx:133 | the matching positions are exactly the positions whose element matches |
| Seqs.PickFront | components/portfolio-context.tsx:126 | an earlier pick placed in front of later picks keeps the picks in increasing order |
| Seqs.FilterKeepsOrder | components/portfolio-context.tsx:126 | a filter is the order-preserving subsequence of exactly the matching elements: it picks them at strictly increasing positions, and every matching position is picked |
| Seqs.FindIndex | components/portfolio-scene.tsx:48 | `findIndex` returns the first matching position, or -1 exactly when nothing matches |
| Seqs.Find | components/portfolio-context.tsx:129 | `find` returns the first matching element, or nothing exactly when nothing matches |
| PortfolioContext.PortfolioData | components/portfolio-context.tsx:19-98 | the catalogue has eight entries |
| PortfolioContext.CatalogueIds | components/portfolio-context.tsx:19-98 | entry i has id "project" followed by the digit i + 1 |
| PortfolioContext.DistinctIds | components/portfolio-context.tsx:19-98 | no id is listed twice |
| PortfolioContext.CatalogueFeatured | components/portfolio-context.tsx:19-98 | exactly the first three entries have `featured: true`; the other five carry no `featured` field at all (`None`) |
| PortfolioContext.CatalogueKinds | components/portfolio-context.tsx:19-98 | no entry has type "design" |
| PortfolioContext.FeaturedProjects | components/portfolio-context.tsx:126 | the featured projects are exactly those with `featured` true, as an order-preserving subsequence; an absent flag excludes the entry |
| PortfolioContext.GetProjectById | components/portfolio-context.tsx:128-130 | the first project with the queried id, or undefined exactly when no project has it |
| PortfolioContext.LookupUniqueId | components/portfolio-context.tsx:128-130 | in a list with distinct ids, looking up an entry's id returns that entry |
| PortfolioContext.LookupListedIds | components/portfolio-context.tsx:19-98 | looking up each listed id in the catalogue returns that very entry |
| PortfolioContext.GetProjectsByType | components/portfolio-context.tsx:132-134 | exactly the projects whose type string equals the query, in their original order |
| PortfolioContext.DesignName | components/portfolio-context.tsx:14 | "design" is the type string of the Design member of the union and of no other |
| PortfolioContext.NoDesignProjects | components/portfolio-context.tsx:132-134 | `getProjectsByType("design")` on the catalogue is empty although the union permits it |
| PortfolioContext.PortfolioProvider | components/portfolio-context.tsx:123-126 | the provider exposes its project list unchanged and, as its featured projects, exactly those with `featured` true, in list order |
| PortfolioContext.FeaturedCatalogue | components/portfolio-context.tsx:124-126 | over the catalogue, the provider lists all eight entries and features project1 to project3, in order |
| PortfolioContext.UsePortfolio | components/portfolio-context.tsx:178-184 | the hook fails with its error message exactly when there is no provider, and otherwise returns the provider's value |
| DataVisualization.ColorForSection | components/data-visualization.tsx:277-294 | every label gets a seven-character `#` colour |
| DataVisualization.UnknownSectionColor | components/data-visualization.tsx:291-292 | any label other than the six known ones gets the pair of "about" |
| DataVisualization.SectionColorsDiffer | components/data-visualization.tsx:277-294 | the particle colour always differs from the primary colour, and the six known sections have six different primary colours |
| DataVisualization.SectionTitle | components/data-visualization.tsx:221-244 | unknown labels are titled "Portfolio" and "publications" is titled "Research" |
| DataVisualization.TitleIsCapitalizedName | components/data-visualization.tsx:222-240 | the other five known sections are titled with their own name capitalised |
| DataVisualization.LayoutIsCentred | components/data-visualization.tsx:35-38 | mirrored layers have opposite x and mirrored nodes opposite y; neighbouring layers are 4 apart and neighbouring nodes 2 apart; the five layer x values are -8, -4, 0, 4, 8 |
| DataVisualization.LayerX | components/data-visualization.tsx:35 | no contract of its own; its properties are the `LayoutIsCentred`, `LayoutMiddle` and `LayerXInjective` rows |
| DataVisualization.NodeY | components/data-visualization.tsx:38 | no contract of its own; its properties are the `LayoutIsCentred` and `LayoutMiddle` rows |
| DataVisualization.LayoutMiddle | components/data-visualization.tsx:35-38 | `LayerX` is 0 exactly for the middle layer and negative exactly for the layers before it; `NodeY` likewise for the nodes of a layer |
| DataVisualization.LayerXInjective | components/data-visualization.tsx:35 | different layers have different x |
| DataVisualization.LayerNodesShape | components/data-visualization.tsx:37-46 | a layer yields one node per index, in index order, each tagged with its layer, at its layer's x and its index's y with z = 0, in the section colour, with size in [0.1, 0.2] |
| DataVisualization.LayerNodes | components/data-visualization.tsx:37-46 | specification of one layer's inner loop; no contract of its own, its shape is the `LayerNodesShape` row |
| DataVisualization.NodesFrom | components/data-visualization.tsx:34-47 | specification of the node loops; no contract of its own, its properties are the `NodesFromShape`, `NodesFromPlaced`, `NodeSlotOrder` and `LayerOfNodes` rows, and `GenerateNodes` is proved equal to it |
| DataVisualization.NodesFromShape | components/data-visualization.tsx:34-47 | the node list has the sum of the layer sizes, and node i of layer l sits at slot (nodes of earlier layers) + i, so the order is layer order then index order |
| DataVisualization.NodesFromPlaced | components/data-visualization.tsx:34-47 | every generated node sits where its layer and index tags place it, in the section colour, with size in [0.1, 0.2] |
| DataVisualization.SpanSplit | components/data-visualization.tsx:34 | node counts of consecutive layer ranges add up |
| DataVisualization.NodeSlotOrder | components/data-visualization.tsx:34-47 | in the generated list a node comes before another exactly when its layer is earlier, or the layer is the same and its index is smaller |
| DataVisualization.NodeCountOfLayers | components/data-visualization.tsx:24 | the layers [4, 8, 12, 8, 4] hold 36 nodes |
| DataVisualization.LayerNodesInLayer | components/data-visualization.tsx:51 | filtering one layer's nodes by a layer index keeps all of them or none |
| DataVisualization.LayerOfOtherNodes | components/data-visualization.tsx:51 | filtering by a layer index outside the generated layers keeps nothing |
| DataVisualization.LayerOf | components/data-visualization.tsx:51-52 | the filter for layer l holds exactly the nodes tagged with layer l, and is no longer than the node list |
| DataVisualization.LayerOfNodes | components/data-visualization.tsx:51-52 | filtering the generated node list by layer l recovers exactly layer l's nodes, in order |
| DataVisualization.GenerateNodes | components/data-visualization.tsx:34-47 | the node loops build exactly the specified node list and use one draw per node |
| DataVisualization.ConnectRow | components/data-visualization.tsx:55-65 | a row uses one draw per end node plus one per kept link |
| DataVisualization.ConnectLayer | components/data-visualization.tsx:54-66 | specification of the middle connection loop; no contract of its own, its properties are the `ConnectLayerLinks` and `ConnectLayerCount` rows, and `LinkLayer` is proved equal to it |
| DataVisualization.ConnectFrom | components/data-visualization.tsx:50-67 | specification of the outer connection loop; no contract of its own, its properties are the `ConnectFromShape` and `NetworkLinks` rows, and `GenerateConnections` is proved equal to it |
| DataVisualization.LinkRow | components/data-visualization.tsx:55-65 | the inner loop tests each end node with one draw, and on a draw above 0.3 pushes a link whose opacity uses the next draw |
| DataVisualization.LinkLayer | components/data-visualization.tsx:54-66 | the middle loop links every start node against every end node, in order |
| DataVisualization.ConnectFromStep | components/data-visualization.tsx:50-67 | linking layers l and l + 1 and then the rest covers everything from layer l |
| DataVisualization.GenerateConnections | components/data-visualization.tsx:50-67 | the outer loop links each layer with the next, in order, for every layer but the last |
| DataVisualization.ConnectRowShape | components/data-visualization.tsx:55-64 | one row makes at most as many links as there are end nodes, all of them when every draw passes and none when none does; each link starts at the start node, ends at an end node, and has the section colour and an opacity in [0.2, 0.6] |
| DataVisualization.ConnectLayerLinks | components/data-visualization.tsx:54-66 | each link of a layer pair joins a start node to an end node and is styled; there are none when no draw passes |
| DataVisualization.ConnectLayerCount | components/data-visualization.tsx:54-66 | a layer pair yields at most starts × ends links, all of them when every draw passes; it uses one draw per candidate pair plus one per kept link |
| DataVisualization.ConnectFromShape | components/data-visualization.tsx:50-67 | every link joins a node of some layer l to a node of layer l + 1; the count is at most the sum of the products of adjacent layer sizes, equals it when every draw passes, and is 0 when none does; one draw is used per candidate pair plus one per kept link |
| DataVisualization.GeneratedLayer | components/data-visualization.tsx:51 | each filtered layer of the generated list has that layer's size, and all its nodes have that layer's x |
| DataVisualization.GeneratedPairs | components/data-visualization.tsx:50-55 | the candidate pairs over the generated list are the products of adjacent layer sizes |
| DataVisualization.PairsOfLayers | components/data-visualization.tsx:24 | the layers used have 256 candidate pairs |
| DataVisualization.AdjacentLinksAdvance | components/data-visualization.tsx:50-60 | a link between adjacent layers goes exactly one layer distance to the right, so its start and end differ |
| DataVisualization.LinkAcrossLayers | components/data-visualization.tsx:51-60 | a link between generated layers l and l + 1 starts at layer l's x and ends at layer l + 1's x |
| DataVisualization.NetworkLinks | components/data-visualization.tsx:50-67 | over a generated node list, links join adjacent layers only and are styled; their number is bounded by the candidate pairs and equals it when every draw passes |
| DataVisualization.NetworkNodesOfLayers | components/data-visualization.tsx:24-47 | the network has 36 nodes, each at its layer's x and its index's y, in the section colour, with size in [0.1, 0.2] |
| DataVisualization.NetworkLinksOfLayers | components/data-visualization.tsx:49-67 | the network's links join adjacent layers only, in the section colour with opacity in [0.2, 0.6]; at most 256, all 256 when every draw passes, none when none does |
| DataVisualization.GenerateNetwork | components/data-visualization.tsx:29-70 | the `useMemo` builds the specified nodes, then the specified links over them from draw k0 + 36 on |
| DataVisualization.FloatingParticles | components/data-visualization.tsx:85-93 | 100 particles in the section's particle colour, each inside [-15, 15]^3, with size in [0.05, 0.2] and speed in [0.02, 0.08] |
| DataVisualization.MakeFloatingParticle | components/data-visualization.tsx:87-92 | one particle from five draws in source order keeps the given colour; with real draws it starts inside [-15, 15]^3 with size in [0.05, 0.2) and speed in [0.02, 0.08) |
| DataVisualization.TargetDepth | components/data-visualization.tsx:79 | the target depth is never positive, and it is 0 exactly for the "about" section |
| DataVisualization.NetworkFrame | components/data-visualization.tsx:73-82 | while mounted, the group turns by delta × 0.1 about y and its depth eases 5% toward 0 for "about" and -5 otherwise; nothing else changes |
| DataVisualization.FloatStep | components/data-visualization.tsx:190-205 | the height follows the rise-and-restart rule; drift moves x and z by at most 0.01 each; after a restart x and z are within 15.01 of the centre |
| DataVisualization.FloatingParticleFrame | components/data-visualization.tsx:190-205 | the mounted mesh's position becomes the particle step of its old position; rotation and scale are unchanged |
| DataSphere.SpherePoint | components/data-sphere.tsx:42-54 | a point's colour is one of the five palette entries, its size is in [0.02, 0.08], and every coordinate lies within 2.5 of the centre |
| DataSphere.GeneratePoints | components/data-sphere.tsx:36-58 | exactly 100 points, point i built from the five draws at k0 + 5i |
| DataSphere.Redraw | components/data-sphere.tsx:70-72 | the first draw in the window whose index differs from `pointA`, or none when every draw repeats it |
| DataSphere.NoOtherPoint | components/data-sphere.tsx:70-72 | with at most one point every redraw gives index 0, so the retry loop never exits |
| DataSphere.DrawOther | components/data-sphere.tsx:67-72 | the redraw loop ends with an index different from `pointA` exactly when the specified search finds one, and then returns the first such draw |
| DataSphere.NextLine | components/data-sphere.tsx:66-78 | one connection: `pointA` from one draw, `pointB` from the first later draw whose index differs; the line is "#6366f1" and joins two different points; none when the retry runs out, and always none with fewer than two points |
| DataSphere.ConnectSpec | components/data-sphere.tsx:61-82 | specification of the `connections` loop; no contract of its own, its properties are the `ConnectSpecShape` and `ConnectSpecFinishes` rows, and `ConnectLines` is proved equal to it |
| DataSphere.ConnectSpecShape | components/data-sphere.tsx:61-82 | the specified connections: at most as many lines as asked, all of them when finished, each "#6366f1" joining two different points; with fewer than two points none and never finished |
| DataSphere.ConnectSpecFinishes | components/data-sphere.tsx:63-82 | with at least two points and retries that always find a different index, every connection is made and the loop finishes |
| DataSphere.DrawnLine | components/data-sphere.tsx:66-78 | the redraw loop's result for a drawn `pointA` is the specified `NextLine`: found exactly when it exists, and then the same line and next draw |
| DataSphere.ConnectLines | components/data-sphere.tsx:63-81 | the `for` loop over `numConnections` returns exactly the specified `ConnectSpec`: its lines, its next draw and whether it finished |
| DataSphere.ConnectPoints | components/data-sphere.tsx:61-82 | the 80 connections are exactly `ConnectSpec` of the draws; hence at most 80 lines, exactly 80 when it finishes, every line "#6366f1" joining the positions of two different points, and with fewer than two points it cannot finish |
| DataSphere.SphereFrame | components/data-sphere.tsx:85-89 | while mounted, the group's rotation.y grows by exactly delta × 0.05; nothing else changes |
| PortfolioScene.AngleFraction | components/portfolio-scene.tsx:50 | index / length lies in [0, 1), and times the length gives back the index |
| PortfolioScene.Angle | components/portfolio-scene.tsx:126 | no contract of its own; it is the slot fraction times 2π, whose properties are the `AngleFraction` and `FractionsIncrease` rows |
| PortfolioScene.FractionsIncrease | components/portfolio-scene.tsx:126 | slot fractions are strictly increasing in the slot index, hence distinct |
| PortfolioScene.HandleProjectSelect | components/portfolio-scene.tsx:44-54 | the id always becomes active; a camera request exists exactly when some project has the id, and then it is at y = 3, x = 8 · sin a and z = 8 · cos a for the angle a of the first such slot, each coordinate within 8 |
| PortfolioScene.CarouselPlacement | components/portfolio-scene.tsx:125-136 | a slot is on the ground plane at (10·sin a, 0, 10·cos a), each coordinate within 10, turned about y by π minus its angle a |
| PortfolioScene.SelectionCamera | components/portfolio-scene.tsx:48-52 | selecting the project in slot i, whose id no earlier slot uses, sends the camera to (sin(angle) × 8, 3, cos(angle) × 8) for that slot's angle |
| PortfolioScene.SelectionFacesSlot | components/portfolio-scene.tsx:44-54 | that camera position has the x and z of the slot's carousel placement scaled by 8/10, at height 3 |
| PortfolioScene.SelectThirdProject | components/portfolio-scene.tsx:48-52 | selecting "project3" of the catalogue sends the camera to (8, 3, 0), given sin(π/2) = 1 and cos(π/2) = 0 |
| PortfolioScene.FloorHeight | components/portfolio-scene.tsx:63-65 | the floor bobs within 0.05 of -5 |
| PortfolioScene.Scene.constructor | components/portfolio-scene.tsx:29 | nothing is hovered at first |
| PortfolioScene.Scene.OnHover | components/portfolio-scene.tsx:138 | the hovered project becomes the id while hovered and null after |
| PortfolioScene.Scene.Frame | components/portfolio-scene.tsx:57-66 | the group turns by delta × 0.05 about y only while nothing is hovered and is otherwise unchanged; the floor is set to its bobbing height |
| PortfolioScene.HoverScale | components/portfolio-scene.tsx:193-195 | every scale axis closes 10% of its gap to 1.1 when hovered, or to 1 otherwise |
| PortfolioScene.ScaleSettles | components/portfolio-scene.tsx:193-195 | holding the hover state, each axis follows the easing sequence, with gap 0.9^n of the first after n frames |
| PortfolioScene.HoverHeight | components/portfolio-scene.tsx:198-202 | the mesh sits 0.5 above rest when hovered, otherwise within 0.2 of rest |
| PortfolioScene.ProjectObject.constructor | components/portfolio-scene.tsx:169-171 | a project object starts not hovered, at its placed position |
| PortfolioScene.ProjectObject.PointerOver | components/portfolio-scene.tsx:177-181 | the object is hovered and the scene records its id |
| PortfolioScene.ProjectObject.PointerOut | components/portfolio-scene.tsx:183-187 | the object is not hovered and the scene's hover is cleared |
| PortfolioScene.ProjectObject.Frame | components/portfolio-scene.tsx:190-204 | the mounted mesh's scale eases toward the hover target, and its height becomes the hover height over the placed position's y; rotation is unchanged |
| PortfolioScene.Centred | components/portfolio-scene.tsx:325 | `(random - 0.5) * 30` lies in [-15, 15) |
| PortfolioScene.MakeAmbientParticle | components/portfolio-scene.tsx:324-327 | a particle's coordinates lie in [-15, 15) and its speed in [0.02, 0.07) |
| PortfolioScene.Particles | components/portfolio-scene.tsx:322-328 | exactly `count` particles, each with coordinates in [-15, 15) and speed in [0.02, 0.07) |
| PortfolioScene.SceneParticles | components/portfolio-scene.tsx:163 | the scene's particle list has 200 entries, each in the particle space with speed in [0.02, 0.07) |
| PortfolioScene.ParticleStep | components/portfolio-scene.tsx:343-354 | y follows the rise-and-restart rule; x and z change only on a restart, and then lie in [-15, 15); a particle in its space stays in it |
| PortfolioScene.ParticleFrame | components/portfolio-scene.tsx:343-354 | the mounted mesh's position becomes the particle step of its old position; rotation and scale are unchanged |

## Left out

- React and three.js machinery is not modelled. This covers hook lifecycles, `useMemo` recomputation, cleanup effects, materials, lights, `Float`, `OrbitControls`, `Text3D`, `Html`, texture loading and the cursor style. Only the values these components compute and the transforms their frame callbacks write are modelled.
- The node pulse of `NeuralNode` (components/data-visualization.tsx:144-149) only rescales a sphere by a clock sine. It is not modelled.
- The `SectionTitle` state starts as "" before its effect runs. Only the effect's choice of title is modelled.
- The static `bio` record of the provider carries no logic. It is not modelled.
- The provider is modelled over its project list: `PortfolioContext.PortfolioProvider` takes it as a parameter. The list never changes because the state setter is discarded, and it is the catalogue `PortfolioData`.
- `setActiveProject` and `setCameraPosition` are callbacks into the page. `PortfolioScene.HandleProjectSelect` returns what it would pass them.
- A featured project's mesh starts at height 1 (components/portfolio-scene.tsx:298). That is JSX initial state. The frame callback sets the height from the group's placed position instead, so the start height is not modelled.
- `Math.random`, `MathUtils.randFloat`, `randFloatSpread` and `lerp` are library code that is not part of this model. Their behaviour is written out as described above. The probability that a candidate pair is kept (0.7) is not modelled. The model states what happens when every draw passes and when none does.
- Sines and cosines, including those of the clock, are parameters bounded in [-1, 1]. The spherical-to-Cartesian mapping is bounded by the shell radius only; nothing is proved about points lying on the 1.5–2.5 shell.
- Frame-rate dependence is modelled as written: particle speeds are added once per frame, without `delta`.
- DataSphere.ConnectPoints: the source's retry loop has no bound. The model gives each retry at most `maxRedraws` redraws. `ConnectSpec` stops with `finished = false` when one runs out, so termination with two or more points is claimed only when every retry window finds a different index (`ConnectSpecFinishes`).
- DataSphere.DrawOther: same bound on redraws as `ConnectPoints`, for the same reason.
- DataSphere.ConnectLines: same bound on redraws as `ConnectPoints`, for the same reason.
