# ReinsMod core, modelled in Dafny

ReinsMod is a Minecraft mod that lets a player put reins on an animal and tie it by a rope to a
fence on a Valkyrien Skies ship. The animal then drags the ship: when the rope is taut or the
rider steers, a force is applied to the ship. This project models the decision logic behind that
rope, plus the small state holders around it:

- **Tether force controller** (`leash_control.dfy`, `ship_leash_physics_tick.dfy`). Every second
  server tick, each reined animal leashed to a ship knot is handled:
  - the commanded speed comes from the owner's recent input;
  - stop-intent is the early exit taken when the owner is controlling but giving no input;
  - otherwise a hysteresis band around the allowed along-rope speed picks BRAKE, HOLD or PULL;
  - in PULL the pull force is smoothed and rate limited;
  - the anchor is the nearer of two readings of the knot;
  - bad-anchor records are throttled per animal.
- **Coordinate-transform resolution** (`vs_ship_transforms.dfy`):
  - matrix accessors are found by filtering and scoring, and the first maximum wins;
  - a one-shot state machine assigns the two directions by comparing round-trip errors;
  - the transform uses the direct matrix when there is one, else the inverse of the other.
- **Ship lookup selection** (`vs_ship_access.dfy`): the static "get ship managing position"
  method is chosen by filter and score, then cached, and its result is normalised.
- **Rigid rope clamp** (`ship_rope_constraint.dfy`) and **legacy spring pull**
  (`ship_pull_physics.dfy`).
- **State holders**:
  - the owner-input table (`server_control_state.dfy`);
  - the reins capability, its NBT save/load and the attach/remove interaction
    (`capability_reined.dfy`, `nbt.dfy`, `reins_interaction_events.dfy`);
  - the controller flag (`capability_controller.dfy`, `whip_item.dfy`);
  - the input packet (`animal_control_input_packet.dfy`);
  - the client sprint toggle (`client_sprint_intent.dfy`);
  - the FOV grace counter (`client_whip_fov_fix.dfy`).

Modelling conventions:

- Java `double` and `float` are modelled as `real`.
- Square root, power, matrix transforms and inversion, ship lookup, ship mass and velocity, and
  knot lookup are **host operations**. They are function-valued fields of the host records
  (`World.KnotHost`, `LeashPhysicsTick.PhysicsHost`, `VsShipTransforms.MatrixOps`). Proofs that
  need the square root assume only `IsSqrt`: the result is non-negative and squares back.
- Forces are returned as requests (`ForceCall(ship, force, point)`; a missing point means the
  centre of mass), not applied.
- Objects whose fields the Java updates in place are classes: `ReinedAnimal`, `AnimalController`,
  `ServerControlState`, `ItemStack`, `ByteBuf`, `Resolved`, `TransformCache`, `ShipAccess`,
  `BestAnchor`, `LeashPhysics`, `ClientSprintIntent`, `ClientWhipFovFix`.
- The pure computations are functions with lemmas.
- The tick loop is specified by a fold. `Visit` handles one scanned animal: it skips an entity id
  already met, and otherwise applies `Handle`'s outcome to a `TickState`. `FoldAnimals` and
  `FoldPlayers` run it over the players' scans in order. `OnLevelTick` and `ScanNearby` are proved
  equal to those folds, and the lemmas about the folds give the loop's properties. Reins records
  are keyed by object in the fold, so two animals sharing one record see each other's changes.
- Resolution of a ship class is specified by `ResolutionOf`, whose choices are `FirstMaxOf`, the
  first maximum of the running-best scans.

Each source cell below gives a Java file's path within the repository and the lines that the
member models.

## Model

| member | source | states |
|---|---|---|
| LeashControl.InputMag | src/main/java/com/smeakmoseley/reinsmod/event/ShipLeashPhysicsTick.java:155-159 | the stick magnitude is at most 1, and non-negative for a true square root |
| LeashControl.CommandedSpeed | src/main/java/com/smeakmoseley/reinsmod/event/ShipLeashPhysicsTick.java:151-177 | 0 without recent control; otherwise walk speed 0.2, times 1.8 when sprinting, times the clamped stick magnitude |
| LeashControl.EffectiveMass | src/main/java/com/smeakmoseley/reinsmod/event/ShipLeashPhysicsTick.java:203-209 | always positive; a positive mass is kept, a non-positive one becomes 20000 |
| LeashControl.AllowedAlong | src/main/java/com/smeakmoseley/reinsmod/event/ShipLeashPhysicsTick.java:203-209 | allowed speed is at least 0.015, at least the animal's speed along the rope plus 0.015, and, when controlled, at least the commanded speed plus 0.015; it equals one of those three bounds |
| LeashControl.AllowedFor | src/main/java/com/smeakmoseley/reinsmod/event/ShipLeashPhysicsTick.java:203-209 | the allowed speed for an animal and its owner's control is never below 0.015 |
| LeashControl.ModeOf | src/main/java/com/smeakmoseley/reinsmod/event/ShipLeashPhysicsTick.java:211-234 | partition: BRAKE iff ship speed > allowed+0.05; HOLD iff max(0, allowed-0.05) <= speed <= allowed+0.05; PULL iff below that lower bound |
| LeashControl.BrakeMagnitude | src/main/java/com/smeakmoseley/reinsmod/event/ShipLeashPhysicsTick.java:219-226 | the brake magnitude is in (0, MAX_FORCE] |
| LeashControl.Intent | src/main/java/com/smeakmoseley/reinsmod/event/ShipLeashPhysicsTick.java:243-247 | intent is non-negative and at least the commanded speed; a commanded speed below 0.08 while the ship moves below 0.15 is raised to at least 0.12, otherwise intent is max(0, commanded) |
| LeashControl.IntentForce | src/main/java/com/smeakmoseley/reinsmod/event/ShipLeashPhysicsTick.java:250-257 | the intent force lies in [5000, 8000000] |
| LeashControl.PullTarget | src/main/java/com/smeakmoseley/reinsmod/event/ShipLeashPhysicsTick.java:239-265 | target is non-negative; with input it is at least max(1, 2 x mass) and at least 5000; without input it is max(stretch x 2800 + relVel x 280, 0) when stretched and 0 otherwise |
| LeashControl.IntentAlwaysEffective | src/main/java/com/smeakmoseley/reinsmod/event/ShipLeashPhysicsTick.java:242-261 | whenever the owner gives input, the intent exceeds 0.01, so the input branch always applies |
| LeashControl.SmoothedForce | src/main/java/com/smeakmoseley/reinsmod/event/ShipLeashPhysicsTick.java:267-277 | result in [0, MAX_FORCE]; from a stored value in range it moves by at most the per-tick limit (mass x 400, or x 220 for heavy ships) and toward the target without passing it |
| LeashControl.FirstPullIsTarget | src/main/java/com/smeakmoseley/reinsmod/event/ShipLeashPhysicsTick.java:267-277 | with no stored force the previous value is the target, and the force is the target clamped to [0, MAX_FORCE] |
| LeashControl.StopBrake | src/main/java/com/smeakmoseley/reinsmod/event/ShipLeashPhysicsTick.java:182-201 | a stop brake exists iff the horizontal ship speed exceeds 0.02, and it is horizontal |
| LeashControl.StopBrakeMagnitude | src/main/java/com/smeakmoseley/reinsmod/event/ShipLeashPhysicsTick.java:185-194 | the stop magnitude is in (0, 2500000], the local cap of the stop branch |
| LeashControl.StopBrakeOpposesVelocity | src/main/java/com/smeakmoseley/reinsmod/event/ShipLeashPhysicsTick.java:185-196 | the stop force has magnitude min(mass x speed x 6, 2500000) and points exactly against the horizontal velocity |
| LeashControl.Decide | src/main/java/com/smeakmoseley/reinsmod/event/ShipLeashPhysicsTick.java:165-282 | stop-intent iff controlled with no input, and then the stop brake; otherwise BRAKE/HOLD/PULL exactly as the mode partition says; brake in (0, MAX], pull in [0, MAX] and rate limited against the stored value; the value stored is always in [0, MAX] |
| LeashPhysicsTick.BestAnchor.constructor | src/main/java/com/smeakmoseley/reinsmod/event/ShipLeashPhysicsTick.java:289-308 | a fresh search has no anchor, no ship, mode "none" and infinite distance |
| LeashPhysicsTick.BestAnchor.ConsiderAnchor | src/main/java/com/smeakmoseley/reinsmod/event/ShipLeashPhysicsTick.java:331-346 | a missing candidate changes nothing; otherwise the candidate replaces the best only when strictly nearer |
| LeashPhysicsTick.Resolution | src/main/java/com/smeakmoseley/reinsmod/event/ShipLeashPhysicsTick.java:310-346 | the shipyard reading wins unless the world reading is strictly nearer; the result is accepted iff its horizontal distance is at most 128 |
| LeashPhysicsTick.ResolveAnchorWorld | src/main/java/com/smeakmoseley/reinsmod/event/ShipLeashPhysicsTick.java:310-329 | the resolved anchor equals Resolution, and the transform cache is invalidated exactly when the nearest candidate is beyond 128 |
| LeashPhysicsTick.OwnerControl | src/main/java/com/smeakmoseley/reinsmod/event/ShipLeashPhysicsTick.java:144-149 | the control used is the owner's recent entry (5-tick grace), and there is none without an owner |
| LeashPhysicsTick.Handle | src/main/java/com/smeakmoseley/reinsmod/event/ShipLeashPhysicsTick.java:107-286 | skip iff not reined, not ship-leashed, not leashed or no ship at the knot; cleanup iff leashed with no knot; once a ship is found, bad anchor iff the resolved anchor is rejected, too close iff accepted but nearer than 1e-6, act iff accepted and at least 1e-6 away; an acted-on animal uses that anchor and rope direction, and its step is Decide on the distance, direction, owner control, velocities, mass and stored force, so its stored value is in [0, MAX] and it stops iff the owner controls with no input |
| LeashPhysicsTick.RopeDirIsUnit | src/main/java/com/smeakmoseley/reinsmod/event/ShipLeashPhysicsTick.java:137-142 | the rope direction is a horizontal unit vector pointing from the anchor toward the animal |
| LeashPhysicsTick.EffectsOf | src/main/java/com/smeakmoseley/reinsmod/event/ShipLeashPhysicsTick.java:195-282 | HOLD applies nothing; BRAKE applies -dir x m at the centre of mass; PULL applies +dir x m at the anchor only when m > 0; stop applies its brake, if any, at the centre of mass |
| LeashPhysicsTick.WarnUpdate | src/main/java/com/smeakmoseley/reinsmod/event/ShipLeashPhysicsTick.java:348-354 | a bad-anchor tick is recorded iff there was no record or at least 40 ticks have passed since it; otherwise the map is unchanged |
| LeashPhysicsTick.WarnThrottled | src/main/java/com/smeakmoseley/reinsmod/event/ShipLeashPhysicsTick.java:348-354 | after a record at tick t, any tick within the next 39 leaves the map unchanged |
| LeashPhysicsTick.ScannedSnoc | src/main/java/com/smeakmoseley/reinsmod/event/ShipLeashPhysicsTick.java:99-106 | scanning one more player appends that player's nearby animals |
| LeashPhysicsTick.ScannedPrefix | src/main/java/com/smeakmoseley/reinsmod/event/ShipLeashPhysicsTick.java:99-106 | every animal scanned for a prefix of the players is scanned for all of them |
| LeashPhysicsTick.Apply | src/main/java/com/smeakmoseley/reinsmod/event/ShipLeashPhysicsTick.java:107-286 | skip and too-close change nothing; only the animal's own entries change; the record changes only on cleanup, which clears ship-leashed, fence and anchor and keeps reins and owner; acting stores the step's value |
| LeashPhysicsTick.Visit | src/main/java/com/smeakmoseley/reinsmod/event/ShipLeashPhysicsTick.java:104-107 | an id already met changes nothing; otherwise it is recorded once in the met set and the handled list; only the animal's own entries and record change; a newly stored force is in [0, MAX] |
| LeashPhysicsTick.FoldAnimalsSnoc | src/main/java/com/smeakmoseley/reinsmod/event/ShipLeashPhysicsTick.java:104-107 | one more animal of the scan is one more Visit |
| LeashPhysicsTick.FoldPlayersSnoc | src/main/java/com/smeakmoseley/reinsmod/event/ShipLeashPhysicsTick.java:101-104 | one more player folds that player's scan on top of the earlier players' |
| LeashPhysicsTick.FoldAnimalsHandlesOnce | src/main/java/com/smeakmoseley/reinsmod/event/ShipLeashPhysicsTick.java:99-107 | the met ids grow by exactly the scanned ids and the handled list holds each met id exactly once |
| LeashPhysicsTick.FoldPlayersHandlesOnce | src/main/java/com/smeakmoseley/reinsmod/event/ShipLeashPhysicsTick.java:99-107 | over all players, the met ids are exactly the ids of all scans, each handled exactly once |
| LeashPhysicsTick.RepeatIsIgnored | src/main/java/com/smeakmoseley/reinsmod/event/ShipLeashPhysicsTick.java:104-105 | an animal whose id was already met, by this or an earlier player, leaves the fold unchanged |
| LeashPhysicsTick.FoldAnimalsFrame | src/main/java/com/smeakmoseley/reinsmod/event/ShipLeashPhysicsTick.java:104-284 | entries of UUIDs not scanned and records held by no scanned animal are unchanged |
| LeashPhysicsTick.FoldPlayersFrame | src/main/java/com/smeakmoseley/reinsmod/event/ShipLeashPhysicsTick.java:101-284 | over all players, entries of unscanned UUIDs and records held by no scanned animal are unchanged |
| LeashPhysicsTick.FoldAnimalsBounded | src/main/java/com/smeakmoseley/reinsmod/event/ShipLeashPhysicsTick.java:267-278 | stored pull forces stay in [0, MAX] through a scan |
| LeashPhysicsTick.LeashPhysics.constructor | src/main/java/com/smeakmoseley/reinsmod/event/ShipLeashPhysicsTick.java:82-83 | both per-animal maps start empty |
| LeashPhysicsTick.LeashPhysics.MaybeWarnBadAnchor | src/main/java/com/smeakmoseley/reinsmod/event/ShipLeashPhysicsTick.java:348-354 | the bad-anchor map becomes WarnUpdate of its old value; the pull map is untouched |
| LeashPhysicsTick.LeashPhysics.Cleanup | src/main/java/com/smeakmoseley/reinsmod/event/ShipLeashPhysicsTick.java:368-377 | both map entries of the animal are removed, and its record loses ship-leashed, fence and anchor while every other field stays |
| LeashPhysicsTick.LeashPhysics.ControlAnimal | src/main/java/com/smeakmoseley/reinsmod/event/ShipLeashPhysicsTick.java:107-286 | per animal, the force requests, both maps and the record equal Apply of Handle on the old record and stored force, and follow Handle case by case; an animal without a capability changes nothing; stored forces stay in [0, MAX] |
| LeashPhysicsTick.LeashPhysics.HandleOne | src/main/java/com/smeakmoseley/reinsmod/event/ShipLeashPhysicsTick.java:107-286 | handling an animal met for the first time leaves exactly the state Visit describes |
| LeashPhysicsTick.LeashPhysics.OnLevelTick | src/main/java/com/smeakmoseley/reinsmod/event/ShipLeashPhysicsTick.java:89-286 | nothing happens on a tick that is not due; otherwise the handled ids, force requests, both maps and every record equal FoldPlayers over the players' scans from the old state, so each scanned entity id is handled exactly once; entries and records of unscanned animals are unchanged; stored forces stay in [0, MAX] |
| LeashPhysicsTick.LeashPhysics.ScanNearby | src/main/java/com/smeakmoseley/reinsmod/event/ShipLeashPhysicsTick.java:101-284 | over one player's nearby animals, the met ids, handled ids, force requests, both maps and every record equal FoldAnimals from the old state: each id not yet met is recorded once and handled, met ids are skipped; only those animals' entries and records change |
| VsShipTransforms.IsBannedName | src/main/java/com/smeakmoseley/reinsmod/vs/VsShipTransforms.java:256-268 | true iff the lower-cased name contains one of the eleven banned tokens |
| VsShipTransforms.WeakSignals | src/main/java/com/smeakmoseley/reinsmod/vs/VsShipTransforms.java:216-223 | the weak-signal part of a score is in [0, 95], and at least 50 for a name containing "matrix" |
| VsShipTransforms.ScoreMatrixName | src/main/java/com/smeakmoseley/reinsmod/vs/VsShipTransforms.java:201-225 | a name with the preferred token and not the opposite one scores at least 1000; with neither, in [0, 95]; with only the opposite one, below 0 |
| VsShipTransforms.PreferredOutscoresNeutral | src/main/java/com/smeakmoseley/reinsmod/vs/VsShipTransforms.java:201-225 | such a preferred name outscores every name carrying neither direction token |
| Selection.FirstMax | src/main/java/com/smeakmoseley/reinsmod/vs/VsShipTransforms.java:186-199 | the running-best loop returns the first eligible element of maximal score, and nothing iff none is eligible |
| Selection.FirstMaxUnique | src/main/java/com/smeakmoseley/reinsmod/vs/VsShipTransforms.java:186-199 | the first maximum is unique |
| Selection.FirstMaxOf | src/main/java/com/smeakmoseley/reinsmod/vs/VsShipTransforms.java:186-199 | the specified choice exists iff some first maximum does, and is the element at one |
| Selection.FirstMaxOfIs | src/main/java/com/smeakmoseley/reinsmod/vs/VsShipTransforms.java:186-199 | any first maximum is the element FirstMaxOf names |
| Selection.FirstMaxExists | src/main/java/com/smeakmoseley/reinsmod/vs/VsShipTransforms.java:186-199 | a first maximum exists whenever some element is eligible |
| Selection.FirstMaxOfBounds | src/main/java/com/smeakmoseley/reinsmod/vs/VsShipTransforms.java:186-199 | with an eligible element, the choice is an eligible element of the list that no eligible score exceeds |
| VsShipTransforms.PickBest | src/main/java/com/smeakmoseley/reinsmod/vs/VsShipTransforms.java:186-199 | null iff the list is empty; otherwise the first matrix getter with maximal score (strict comparison), the one FirstMaxOf names |
| VsShipTransforms.MatrixGetters | src/main/java/com/smeakmoseley/reinsmod/vs/VsShipTransforms.java:171-184 | exactly the public, zero-argument, matrix-returning, non-banned methods, and no more of them than methods |
| VsShipTransforms.MatrixGettersAppend | src/main/java/com/smeakmoseley/reinsmod/vs/VsShipTransforms.java:171-184 | the filter keeps order: the getters of a concatenation are the first part's followed by the second's |
| VsShipTransforms.FindAllMatrixGetters | src/main/java/com/smeakmoseley/reinsmod/vs/VsShipTransforms.java:171-184 | the loop collects exactly MatrixGetters of the method list |
| VsShipTransforms.TransformScore | src/main/java/com/smeakmoseley/reinsmod/vs/VsShipTransforms.java:243-247 | transform-getter scores lie in [50, 400], and the exact name gettransform scores at least 200 |
| VsShipTransforms.FindTransformGetter | src/main/java/com/smeakmoseley/reinsmod/vs/VsShipTransforms.java:227-254 | nothing iff no method qualifies; otherwise the first qualifying method with maximal score, the one FirstMaxOf names |
| VsShipTransforms.Resolve | src/main/java/com/smeakmoseley/reinsmod/vs/VsShipTransforms.java:126-169 | equals ResolutionOf: the ship's own getters when it has any, the transform type's only otherwise, none when the chosen list is empty; candidate A is the first best ship->world getter and B the first best world->ship getter unless that is A |
| VsShipTransforms.TransformPathResolves | src/main/java/com/smeakmoseley/reinsmod/vs/VsShipTransforms.java:136-143 | a ship without matrix getters but with a transform getter resolves iff the transform type has a matrix getter, and then reads matrices from the transform object |
| VsShipTransforms.CandidatesScoreBest | src/main/java/com/smeakmoseley/reinsmod/vs/VsShipTransforms.java:145-150 | candidate A has the top ship->world score; B, when kept, differs from A and has the top world->ship score; B is dropped only when A also tops world->ship |
| VsShipTransforms.Resolved.constructor | src/main/java/com/smeakmoseley/reinsmod/vs/VsShipTransforms.java:28-47 | a fresh resolution is undecided with neither direction assigned |
| VsShipTransforms.Resolved.DecideDirectionIfNeeded | src/main/java/com/smeakmoseley/reinsmod/vs/VsShipTransforms.java:298-357 | afterwards decided; once decided nothing changes; a first decision sets the getters to `Decision`: one candidate or one readable matrix makes it shipToWorld; none readable leaves both unset; with both, they swap iff e2 < e1 |
| VsShipTransforms.DecisionUsesCandidates | src/main/java/com/smeakmoseley/reinsmod/vs/VsShipTransforms.java:308-352 | a decision only ever assigns the two candidates, and with both matrices readable it assigns both directions, to different candidates |
| VsShipTransforms.ExactRoundTripDecidesA | src/main/java/com/smeakmoseley/reinsmod/vs/VsShipTransforms.java:337-352 | when both matrices are readable and A then B round-trips exactly, the decision is A ship->world and B world->ship |
| VsShipTransforms.ExactRoundTripKeepsOrder | src/main/java/com/smeakmoseley/reinsmod/vs/VsShipTransforms.java:340-364 | when A then B round-trips exactly, the error comparison never swaps the candidates |
| VsShipTransforms.Read | src/main/java/com/smeakmoseley/reinsmod/vs/VsShipTransforms.java:270-278 | a missing getter reads no matrix |
| VsShipTransforms.PreferDirect | src/main/java/com/smeakmoseley/reinsmod/vs/VsShipTransforms.java:64-81 | the direct matrix is used when present, else the inverse of the other; no result iff both are missing |
| VsShipTransforms.HolderOf | src/main/java/com/smeakmoseley/reinsmod/vs/VsShipTransforms.java:59-60 | matrices are read from the ship itself unless they live on its transform object |
| VsShipTransforms.TransformCache.constructor | src/main/java/com/smeakmoseley/reinsmod/vs/VsShipTransforms.java:26 | the cache starts empty |
| VsShipTransforms.TransformCache.ClearCacheFor | src/main/java/com/smeakmoseley/reinsmod/event/ShipLeashPhysicsTick.java:324 | the entry for that ship class is removed and nothing else |
| VsShipTransforms.TransformCache.ResolvedFor | src/main/java/com/smeakmoseley/reinsmod/vs/VsShipTransforms.java:56-57 | a cached resolution is reused unchanged; an uncached class gets a result iff ResolutionOf has one, and then a fresh undecided entry holding it is cached; a failure caches nothing |
| VsShipTransforms.TransformCache.ShipyardToWorld | src/main/java/com/smeakmoseley/reinsmod/vs/VsShipTransforms.java:52-85 | null on null input; the class ends up cached iff it was or it resolves; with a holder the direction is decided and the result is the shipToWorld matrix if readable, else the inverse of worldToShip, else null; no holder or no resolution gives null; a direction decided by an earlier call is kept, and one decided by this call (fresh entry or undecided one) is exactly `Decision` on this ship's matrices and sample; no other cached entry is touched (the modifies clause names only this class's entry) |
| VsShipTransforms.TransformCache.WorldToShipyard | src/main/java/com/smeakmoseley/reinsmod/vs/VsShipTransforms.java:88-122 | the mirror image: the same caching, the same direction decision and frame, and worldToShip if readable, else the inverse of shipToWorld, else null |
| VsShipAccess.ClassifyPosParam | src/main/java/com/smeakmoseley/reinsmod/vs/VsShipAccess.java:139-145 | BlockPos, Minecraft Vec3 and JOML Vector3d/Vector3dc are classified, each iff its class name matches |
| VsShipAccess.IsLookupBannedName | src/main/java/com/smeakmoseley/reinsmod/vs/VsShipAccess.java:88-95 | true iff the lower-cased name contains a banned token |
| VsShipAccess.LookupScore | src/main/java/com/smeakmoseley/reinsmod/vs/VsShipAccess.java:113-121 | scores lie in [0, 335]; the exact name scores at least 300, every other name at most 135, and at most 35 without "managingpos" |
| VsShipAccess.LookupOf | src/main/java/com/smeakmoseley/reinsmod/vs/VsShipAccess.java:123-127 | the chosen lookup keeps the method and its classified position kind |
| VsShipAccess.ChosenHasMatch | src/main/java/com/smeakmoseley/reinsmod/vs/VsShipAccess.java:130-133 | the class a lookup was chosen from has a matching method, so the search does not move past it |
| VsShipAccess.ChosenFromUnique | src/main/java/com/smeakmoseley/reinsmod/vs/VsShipAccess.java:78-133 | within one class there is only one chosen lookup, its first maximum |
| VsShipAccess.StopOf | src/main/java/com/smeakmoseley/reinsmod/vs/VsShipAccess.java:69-137 | every search outcome stops at one class index: the search moves past every earlier class; running off the end means no lookup; stopping at a class that throws means the search throws, and a found lookup is chosen from the class it stops at |
| VsShipAccess.FoundExcludesOthers | src/main/java/com/smeakmoseley/reinsmod/vs/VsShipAccess.java:69-137 | a search that finds a lookup neither comes up empty nor throws |
| VsShipAccess.LookupChoiceUnique | src/main/java/com/smeakmoseley/reinsmod/vs/VsShipAccess.java:69-137 | the outcome (first class that is neither missing nor matchless: its first maximum if it loads, a throwable if loading it fails; no lookup when every class is passed over) is unique, so a throwing class hides every later class |
| VsShipAccess.FindShipLookupMethod | src/main/java/com/smeakmoseley/reinsmod/vs/VsShipAccess.java:69-137 | the nested loops return that outcome: a missing class is skipped, any other load failure ends the search with a throwable; a found method is static, named get..ship..managing, unbanned, takes a level and a classified position, and returns non-void |
| VsShipAccess.Containing | src/main/java/com/smeakmoseley/reinsmod/vs/VsShipAccess.java:51 | the block containing a position has each coordinate within [block, block+1) |
| VsShipAccess.AtCenterOf | src/main/java/com/smeakmoseley/reinsmod/vs/VsShipAccess.java:64 | the centre of a block lies in that block |
| VsShipAccess.ArgumentFor | src/main/java/com/smeakmoseley/reinsmod/vs/VsShipAccess.java:45-52 | Vec3 and JOML lookups get the position itself; a BlockPos lookup gets the containing block |
| VsShipAccess.Normalise | src/main/java/com/smeakmoseley/reinsmod/vs/VsShipAccess.java:54-60 | null and failure become empty, an Optional passes through, any other value is wrapped |
| VsShipAccess.ShipAccess.constructor | src/main/java/com/smeakmoseley/reinsmod/vs/VsShipAccess.java:17-18 | no lookup is cached at first |
| VsShipAccess.ShipAccess.GetShipManagingPos | src/main/java/com/smeakmoseley/reinsmod/vs/VsShipAccess.java:31-61 | a cached lookup is reused; otherwise the lookup is searched and cached only when found; when the search finds nothing or throws, nothing is cached and the answer is empty |
| VsShipAccess.ShipAccess.GetShipManagingBlock | src/main/java/com/smeakmoseley/reinsmod/vs/VsShipAccess.java:63-65 | the block overload asks the same question at the block's centre |
| ShipRopeConstraint.ConsiderCandidate | src/main/java/com/smeakmoseley/reinsmod/vs/ShipRopeConstraint.java:118-131 | an unusable candidate leaves the best unchanged; otherwise the result is the minimum of the best and the candidate's distance |
| ShipRopeConstraint.ChooseBestAnchorWorld | src/main/java/com/smeakmoseley/reinsmod/vs/ShipRopeConstraint.java:90-116 | the chosen anchor is a usable candidate, no farther than 256 and no farther than either usable candidate; A wins ties; nothing when neither is usable |
| ShipRopeConstraint.ClampMove | src/main/java/com/smeakmoseley/reinsmod/vs/ShipRopeConstraint.java:59-79 | the vertical move is kept; a target nearer than 1e-4, beyond 256 or within 2.5 + 1e-4 leaves the move unchanged |
| ShipRopeConstraint.ClampReachesRope | src/main/java/com/smeakmoseley/reinsmod/vs/ShipRopeConstraint.java:71-79 | a clamped move ends at horizontal distance exactly 2.5 from the anchor |
| ShipRopeConstraint.ClampKeepsBearing | src/main/java/com/smeakmoseley/reinsmod/vs/ShipRopeConstraint.java:71-77 | the clamped end keeps the bearing of the unclamped target: same line, same side of the anchor |
| ShipRopeConstraint.ClampBoundsDistance | src/main/java/com/smeakmoseley/reinsmod/vs/ShipRopeConstraint.java:67-79 | for every plausible target the move ends within 2.5 + 1e-4 of the anchor |
| ShipRopeConstraint.ApplyRigid | src/main/java/com/smeakmoseley/reinsmod/vs/ShipRopeConstraint.java:30-80 | a missing argument, knot, ship or anchor returns the move unchanged; otherwise the clamped move; the vertical move is always kept |
| ShipPullPhysics.SpringDamper | src/main/java/com/smeakmoseley/reinsmod/vs/ShipPullPhysics.java:52-53 | the magnitude is stretch x 80 + relVel x 18 clamped to [0, 2500] |
| ShipPullPhysics.PullMagnitude | src/main/java/com/smeakmoseley/reinsmod/vs/ShipPullPhysics.java:47-53 | the pull magnitude lies in [0, 2500] |
| ShipPullPhysics.TickLeashPull | src/main/java/com/smeakmoseley/reinsmod/vs/ShipPullPhysics.java:20-58 | no force without knot, ship or world anchor; otherwise a force iff 3.5 < dist <= 64, on that ship, at the centre of mass |
| ShipPullPhysics.ScaledVector | src/main/java/com/smeakmoseley/reinsmod/vs/ShipPullPhysics.java:47-55 | scaling the unit offset by a non-negative magnitude gives a horizontal vector of that length, on the offset's line and side |
| ShipPullPhysics.PullForceAlongRope | src/main/java/com/smeakmoseley/reinsmod/vs/ShipPullPhysics.java:40-55 | the pull force is horizontal, has the clamped magnitude, and points from the anchor toward the animal |
| ShipPullPhysics.TickLeashPullAlongRope | src/main/java/com/smeakmoseley/reinsmod/vs/ShipPullPhysics.java:40-57 | every force requested obeys PullForceAlongRope with the true horizontal distance |
| World.WrapInt32 | src/main/java/com/smeakmoseley/reinsmod/control/ServerControlState.java:43 | Java int subtraction: the result is in int range, is exact in range, and is congruent modulo 2^32 |
| ControlState.ServerControlState.constructor | src/main/java/com/smeakmoseley/reinsmod/control/ServerControlState.java:19 | the table starts empty |
| ControlState.ServerControlState.Update | src/main/java/com/smeakmoseley/reinsmod/control/ServerControlState.java:21-33 | that player's entry holds exactly the new six values (created if absent, every field overwritten); other players unchanged |
| ControlState.ServerControlState.Get | src/main/java/com/smeakmoseley/reinsmod/control/ServerControlState.java:35-37 | the stored entry, and nothing iff there is none |
| ControlState.ServerControlState.GetRecent | src/main/java/com/smeakmoseley/reinsmod/control/ServerControlState.java:39-44 | the entry iff it exists and the wrapped tick difference is at most the grace; then it equals Get |
| ControlState.ServerControlState.Clear | src/main/java/com/smeakmoseley/reinsmod/control/ServerControlState.java:46-48 | the entry is removed, so Get and GetRecent answer nothing for that player |
| ControlState.RecentWindow | src/main/java/com/smeakmoseley/reinsmod/control/ServerControlState.java:39-44 | without overflow, recent means tick <= last input tick + grace |
| Reined.ReinedAnimal.constructor | src/main/java/com/smeakmoseley/reinsmod/capability/reined/ReinedAnimal.java:10-17 | a fresh record: no reins, no owner, not ship-leashed, no fence, no anchor, grace 0 |
| Reined.ReinedAnimal.SetHasReins | src/main/java/com/smeakmoseley/reinsmod/capability/reined/ReinedAnimal.java:25-27 | only hasReins changes, to the value given |
| Reined.ReinedAnimal.SetOwner | src/main/java/com/smeakmoseley/reinsmod/capability/reined/ReinedAnimal.java:35-37 | only the owner changes, to the value given |
| Reined.ReinedAnimal.SetLeashedToShip | src/main/java/com/smeakmoseley/reinsmod/capability/reined/ReinedAnimal.java:45-47 | only leashedToShip changes, to the value given |
| Reined.ReinedAnimal.SetShipFencePos | src/main/java/com/smeakmoseley/reinsmod/capability/reined/ReinedAnimal.java:55-57 | only the fence position changes, to the value given |
| Reined.ReinedAnimal.SetShipAnchorPos | src/main/java/com/smeakmoseley/reinsmod/capability/reined/ReinedAnimal.java:65-67 | only the anchor position changes, to the value given |
| Reined.Saved | src/main/java/com/smeakmoseley/reinsmod/capability/reined/ReinedAnimalProvider.java:24-44 | HasReins and ShipLeashed are always written and read back; Owner, ShipFencePos and AnchorX/Y/Z are present iff their field is set; no other key |
| Reined.Loaded | src/main/java/com/smeakmoseley/reinsmod/capability/reined/ReinedAnimalProvider.java:46-68 | both flags come from the tag; a missing Owner, ShipFencePos or AnchorX keeps the old field; the anchor is decided by AnchorX alone |
| Reined.SaveLoad | src/main/java/com/smeakmoseley/reinsmod/capability/reined/ReinedAnimalProvider.java:24-68 | loading a saved record restores every set field and both flags; unset fields keep the receiver's value |
| Reined.SaveLoadFresh | src/main/java/com/smeakmoseley/reinsmod/capability/reined/ReinedAnimalProvider.java:24-68 | saving then loading into a fresh record reproduces the record |
| Reined.ReinedAnimalProvider.constructor | src/main/java/com/smeakmoseley/reinsmod/capability/reined/ReinedAnimalProvider.java:15 | the provider owns a fresh record |
| Reined.ReinedAnimalProvider.GetCapability | src/main/java/com/smeakmoseley/reinsmod/capability/reined/ReinedAnimalProvider.java:19-21 | the record iff the key is the reins capability |
| Reined.ReinedAnimalProvider.SerializeNBT | src/main/java/com/smeakmoseley/reinsmod/capability/reined/ReinedAnimalProvider.java:24-44 | the tag built by successive puts is Saved of the record |
| Reined.ReinedAnimalProvider.DeserializeNBT | src/main/java/com/smeakmoseley/reinsmod/capability/reined/ReinedAnimalProvider.java:46-68 | the record after the setters is Loaded of the old record and the tag |
| ReinsInteraction.ItemStack.constructor | src/main/java/com/smeakmoseley/reinsmod/event/ReinsInteractionEvents.java:63-68 | a stack holds its kind and count |
| ReinsInteraction.ItemStack.Shrink | src/main/java/com/smeakmoseley/reinsmod/event/ReinsInteractionEvents.java:66-68 | the count drops by the amount given |
| ReinsInteraction.Interact | src/main/java/com/smeakmoseley/reinsmod/event/ReinsInteractionEvents.java:31-84 | shift-removal first: on a reined animal it clears reins, owner and the three leash fields, drops one reins item and cancels; attach only while holding reins: sets reins and owner, keeps leash fields, consumes one item unless creative, cancels; anything else changes nothing |
| ReinsInteraction.InteractConservesReins | src/main/java/com/smeakmoseley/reinsmod/event/ReinsInteractionEvents.java:39-83 | outside creative, reins in hand, on the animal and dropped never increase, and stay equal unless reins are re-attached to an animal that already has them |
| ReinsInteraction.RemoveIdempotent | src/main/java/com/smeakmoseley/reinsmod/event/ReinsInteractionEvents.java:39-57 | a second shift-removal changes nothing more |
| ReinsInteraction.OnEntityInteract | src/main/java/com/smeakmoseley/reinsmod/event/ReinsInteractionEvents.java:22-85 | non-animal targets, client-side calls and animals without the capability change nothing; otherwise record, stack and outcome follow Interact |
| Controller.AnimalController.constructor | src/main/java/com/smeakmoseley/reinsmod/capability/controller/AnimalController.java:5 | a fresh controller is not controlling |
| Controller.AnimalController.SetControlling | src/main/java/com/smeakmoseley/reinsmod/capability/controller/AnimalController.java:12-15 | the flag becomes the value given |
| Controller.SavedController | src/main/java/com/smeakmoseley/reinsmod/capability/controller/AnimalControllerProvider.java:25-30 | the tag holds exactly Controlling, read back as the flag |
| Controller.ControllerRoundTrip | src/main/java/com/smeakmoseley/reinsmod/capability/controller/AnimalControllerProvider.java:25-35 | loading a saved flag restores it |
| Controller.AnimalControllerProvider.constructor | src/main/java/com/smeakmoseley/reinsmod/capability/controller/AnimalControllerProvider.java:16 | the provider owns a fresh controller |
| Controller.AnimalControllerProvider.GetCapability | src/main/java/com/smeakmoseley/reinsmod/capability/controller/AnimalControllerProvider.java:20-23 | the controller iff the key is the controller capability |
| Controller.AnimalControllerProvider.SerializeNBT | src/main/java/com/smeakmoseley/reinsmod/capability/controller/AnimalControllerProvider.java:25-30 | the tag is SavedController of the flag |
| Controller.AnimalControllerProvider.DeserializeNBT | src/main/java/com/smeakmoseley/reinsmod/capability/controller/AnimalControllerProvider.java:32-35 | the flag becomes the one in the tag |
| Whip.WhipUpdate | src/main/java/com/smeakmoseley/reinsmod/item/WhipItem.java:31-42 | the flag becomes selected; a message is sent iff it changed; ON iff now selected, OFF otherwise |
| Whip.WhipSettles | src/main/java/com/smeakmoseley/reinsmod/item/WhipItem.java:31 | a repeat tick with the same selection changes nothing and sends nothing |
| Whip.InventoryTick | src/main/java/com/smeakmoseley/reinsmod/item/WhipItem.java:17-45 | client side, a non-player holder or no capability change nothing; otherwise the flag and message follow WhipUpdate |
| InputPacket.FloatBytes | src/main/java/com/smeakmoseley/reinsmod/network/AnimalControlInputPacket.java:23-25 | a float is written as four bytes |
| InputPacket.FloatRoundTrip | src/main/java/com/smeakmoseley/reinsmod/network/AnimalControlInputPacket.java:23-33 | reading back four written bytes gives the same float bits |
| InputPacket.EncodePacket | src/main/java/com/smeakmoseley/reinsmod/network/AnimalControlInputPacket.java:22-28 | a packet takes exactly 14 bytes |
| InputPacket.DecodePacket | src/main/java/com/smeakmoseley/reinsmod/network/AnimalControlInputPacket.java:30-38 | decoding succeeds iff at least 14 bytes are readable |
| InputPacket.PacketRoundTrip | src/main/java/com/smeakmoseley/reinsmod/network/AnimalControlInputPacket.java:22-38 | decoding an encoded packet, whatever follows it, gives back every field |
| InputPacket.ByteBuf.constructor | src/main/java/com/smeakmoseley/reinsmod/network/AnimalControlInputPacket.java:22-28 | an empty buffer |
| InputPacket.ByteBuf.WriteFloat | src/main/java/com/smeakmoseley/reinsmod/network/AnimalControlInputPacket.java:23-25 | appends the float's four bytes |
| InputPacket.ByteBuf.WriteBoolean | src/main/java/com/smeakmoseley/reinsmod/network/AnimalControlInputPacket.java:26-27 | appends one byte, 1 for true and 0 for false |
| InputPacket.ByteBuf.ReadFloat | src/main/java/com/smeakmoseley/reinsmod/network/AnimalControlInputPacket.java:32-34 | succeeds iff four bytes are readable, then returns them as a float and advances by four; a failed read consumes nothing |
| InputPacket.ByteBuf.ReadBoolean | src/main/java/com/smeakmoseley/reinsmod/network/AnimalControlInputPacket.java:35-36 | succeeds iff a byte is readable, then returns whether it is non-zero and advances by one |
| InputPacket.Encode | src/main/java/com/smeakmoseley/reinsmod/network/AnimalControlInputPacket.java:22-28 | appends forward, strafe, yaw, sprint and jump in that order, and nothing else |
| InputPacket.Decode | src/main/java/com/smeakmoseley/reinsmod/network/AnimalControlInputPacket.java:30-38 | returns DecodePacket of the readable bytes and on success consumes exactly 14 bytes, leaving what follows |
| SprintIntent.NextToggled | src/main/java/com/smeakmoseley/reinsmod/client/ClientSprintIntent.java:15-30 | toggle mode flips iff a click was consumed; hold mode follows the key |
| SprintIntent.TwoPressesCancel | src/main/java/com/smeakmoseley/reinsmod/client/ClientSprintIntent.java:21-25 | two consumed clicks in toggle mode restore the original value |
| SprintIntent.ClientSprintIntent.constructor | src/main/java/com/smeakmoseley/reinsmod/client/ClientSprintIntent.java:11 | sprint starts off |
| SprintIntent.ClientSprintIntent.Tick | src/main/java/com/smeakmoseley/reinsmod/client/ClientSprintIntent.java:15-30 | the new state is NextToggled of the old |
| SprintIntent.ClientSprintIntent.Get | src/main/java/com/smeakmoseley/reinsmod/client/ClientSprintIntent.java:32-34 | answers the stored state |
| SprintIntent.ClientSprintIntent.Reset | src/main/java/com/smeakmoseley/reinsmod/client/ClientSprintIntent.java:36-38 | afterwards Get answers false |
| WhipFovFix.NextGrace | src/main/java/com/smeakmoseley/reinsmod/event/ClientWhipFovFix.java:21-38 | no player: 0; holding: 5; otherwise one less, never below 0; always within [0, 5] |
| WhipFovFix.FovModifier | src/main/java/com/smeakmoseley/reinsmod/event/ClientWhipFovFix.java:40-51 | forced to 1.0 iff a player exists and is holding or in grace; otherwise untouched |
| WhipFovFix.GraceCountsDown | src/main/java/com/smeakmoseley/reinsmod/event/ClientWhipFovFix.java:33-37 | n ticks without the whip take the counter from g to max(g - n, 0) |
| WhipFovFix.NeutralForGraceTicks | src/main/java/com/smeakmoseley/reinsmod/event/ClientWhipFovFix.java:19-51 | after releasing the whip the FOV stays neutral for exactly 5 ticks |
| WhipFovFix.ClientWhipFovFix.constructor | src/main/java/com/smeakmoseley/reinsmod/event/ClientWhipFovFix.java:16 | the counter starts at 0 |
| WhipFovFix.ClientWhipFovFix.OnClientTick | src/main/java/com/smeakmoseley/reinsmod/event/ClientWhipFovFix.java:21-38 | the counter becomes NextGrace of the old one and stays within [0, 5] |
| WhipFovFix.ClientWhipFovFix.OnFovModifier | src/main/java/com/smeakmoseley/reinsmod/event/ClientWhipFovFix.java:40-51 | the modifier set is FovModifier of the state |

## Left out

- Host operations are parameters, not code: square root, power, JOML matrix transform and
  inversion, the round-trip error, ship lookup by position, ship mass and velocity, knot lookup
  near an animal, class loading and method reflection, and force application. VsShipForces.java,
  VsShipMass.java and VsShipTransforms.getShipMass are not part of this model.
- Floating point: doubles and floats are reals. There is no rounding, NaN or infinity, so the
  `Double.isFinite` guards are modelled but can never fire.
- The packet's float fields are opaque 32-bit patterns. The IEEE encoding of a float is not modelled.
- NBT: only the tag kinds the providers write are modelled, plus numeric conversion in the getters.
- InputPacket.Decode: does not state where the reader index stands after a partial read that fails.
- VsShipTransforms.TransformCache.ClearCacheFor: `clearCacheFor` is called by the tick but is
  not defined in VsShipTransforms.java. It is modelled as removing that ship class's cache entry.
  The tick reports the request as a `ClearTransformCache` effect.
- AnimalControlLogic.java calls `update` with six arguments, but `ServerControlState.update`
  takes seven. The model follows ServerControlState.java.
- Text.LowerChar: lower-cases the ASCII letters only, where Java's `toLowerCase(Locale.ROOT)` folds
  every Unicode letter. Every token the heuristics look for is ASCII.
- Entries of the control table are values, so aliasing of the returned `Control` object is not modelled.
- Concurrency: `ConcurrentHashMap`, `volatile` and `synchronized` are modelled as plain sequential
  state.
- Chat messages are recorded as strings. Logging, the `debug`/`fmt` helpers and particle or
  sound effects are left out.
- The rope, pull and tick modules read the ship transform through a host `shipyardToWorld`,
  not through `TransformCache`.
- Ship-leash detection in ReinsInteractionEvents.java is a boolean parameter. Dropping the reins
  item (`spawnAtLocation`) is recorded as a flag in the outcome.
- The entity query around each player is the `nearby` list given to `OnLevelTick`. The
  SCAN_RADIUS constant is therefore unused, and so are the STOP_BRAKE_* fields, which the Java
  itself never reads.
- `shipLeashGraceTicks` has no accessor in ReinedAnimal.java. It is kept in the record and
  never changes.
- Entity puppeting, key polling, movement locks, step and jump assist, event registration and
  networking are not part of this model.
