# Residency and wander-or-teleport navigation of MCA villagers

This project models two parts of the villager AI of the Minecraft Comes Alive mod, and proves properties of them.

**Residency** is the per-villager controller of village and home membership. Its state is:
- three tracked ids: village, building and hangout tile;
- the HOME and JOB_SITE brain memories;
- the villager's mood and per-player hearts;
- the shared village registry;
- the bed tickets of the point-of-interest storage.

What it does:
- Every 600 ticks a villager without a village adopts the nearest one. A villager without a building then seeks a bed in a free building, visiting buildings in shuffled order, or forgets a village that no longer exists. It moves out of a building when HOME is lost.
- Every 1200 ticks it validates the residency. It then exchanges mood, hearts and reputation with the village ledgers.
- Players can set the workplace, the hangout and the home, and can send the villager home.

**WanderOrTeleportToTargetTask** is the brain task that walks a mob to its WALK_TARGET. It works as follows:
- It starts only when there is a path and no countdown is running. The countdown is zero at first. A run that ends with the target unreached while the mob is near its path start draws a new countdown below 40.
- It follows the navigator and re-plans once the target has drifted more than two blocks.
- When teleporting is allowed and the target is out of range, it tries up to ten random tiles around the target instead. A tile must lie outside a 3x3 exclusion zone, be walkable, have room for the mob and stand on a block that is not blacklisted. The blacklist holds block ids and `#tag` entries. An unknown tag raises an error.

Layout:
- `common.dfy`: positions, `Option` and `Result`.
- `settlement.dfy`: villages, buildings and their ledgers, as values.
- `residency_spec.dfy`: the controller as transition functions over a `State` record. World queries come in through an `Env` record.
- `residency_properties.dfy`: the lemmas about those functions.
- `residency.dfy`: the controller as a class with the entity's fields and a shared `World` object. Each method is proved to produce exactly the state the matching function describes.
- `wander_spec.dfy`: distances, the planner's answer, random offsets, the blacklist scan and the teleport search, as functions, with their lemmas.
- `wander_task.dfy`: the `Mob` and the task as classes whose methods update fields in place.

The path planner, the random source, the block world and the navigator are parameters:
- the planner's answers are a `Plan`;
- the random draws are `Draw`s and a raw countdown draw;
- the block world is a `Terrain`;
- the navigator's idle and near-path-start answers are booleans.

`Residency.Hangout` and `Residency.Home` are plain reads of a field.

## Model

| member | source | states |
|---|---|---|
| Residency.Residency.constructor | common/src/main/java/mca/entity/ai/Residency.java:32-34 | A new villager starts with village and building -1 and the hangout at the origin. It has no HOME or JOB_SITE memory. |
| Residency.Residency.Workplace | common/src/main/java/mca/entity/ai/Residency.java:46-51 | The job site's tile when JOB_SITE is remembered, else the origin. |
| Residency.Residency.SetWorkplace | common/src/main/java/mca/entity/ai/Residency.java:53-56 | JOB_SITE becomes the player's tile in the player's world. Nothing else changes, and the success message is returned. |
| Residency.Residency.Hangout | common/src/main/java/mca/entity/ai/Residency.java:58-60 | Returns the tracked hangout tile, which `SetHangout` sets. |
| Residency.Residency.SetHangout | common/src/main/java/mca/entity/ai/Residency.java:62-65 | The hangout becomes the player's tile. Nothing else changes, and the success message is returned. |
| Residency.Residency.SetBuildingId | common/src/main/java/mca/entity/ai/Residency.java:67-69 | Only the building id changes. |
| Residency.Residency.SetVillageId | common/src/main/java/mca/entity/ai/Residency.java:71-73 | Only the village id changes. |
| Residency.Residency.HomeVillage | common/src/main/java/mca/entity/ai/Residency.java:75-77 | Present exactly when the registry holds the claimed village id, and then it is that village. |
| Residency.Residency.LeaveHome | common/src/main/java/mca/entity/ai/Residency.java:79-89 | The new state is `LeaveHome` of the old one. |
| ResidencyProperties.LeaveHomeEffects | common/src/main/java/mca/entity/ai/Residency.java:79-89 | When the claimed village and building exist, the registry differs only in that building's residents, which lose the villager. Otherwise nothing changes. The ids, memories and tickets are kept. |
| Residency.Residency.Home | common/src/main/java/mca/entity/ai/Residency.java:91-93 | Returns the HOME memory, if any, which `SetBed` sets on a bed tile. |
| Residency.Residency.Tick | common/src/main/java/mca/entity/ai/Residency.java:95-153 | The new state is `Tick` of the old state at the entity's age. |
| ResidencyProperties.TickCadence | common/src/main/java/mca/entity/ai/Residency.java:95-153 | Nothing happens off multiples of 600. On a multiple of 600 only the first phase runs. On a multiple of 1200 both run, seek-home first. |
| ResidencyProperties.Phase600Adopts | common/src/main/java/mca/entity/ai/Residency.java:99-102 | A villager without a village ends the phase in the nearest village when that village exists, and stays without one when no village is near. A villager whose village exists keeps it. |
| ResidencyProperties.Phase600Seeks | common/src/main/java/mca/entity/ai/Residency.java:104-116 | Without a building, in an existing village, the villager seeks a home. If none is found, only the adoption remains. A home found with a HOME memory is kept. A home found on a tile that set no HOME is given up by the bedless check. |
| ResidencyProperties.Phase600DropsMissingVillage | common/src/main/java/mca/entity/ai/Residency.java:99-107 | A villager without a building whose (adopted) village does not exist ends with village id -1 and nothing else changed. |
| ResidencyProperties.Phase600EvictsBedless | common/src/main/java/mca/entity/ai/Residency.java:109-116 | With a building but no HOME, the villager is removed from every building of its village and its building id becomes -1. The tickets are untouched. |
| ResidencyProperties.Phase600KeepsConsistent | common/src/main/java/mca/entity/ai/Residency.java:96-117 | The seek-home phase keeps "no village implies no building". It never adds or removes villages or buildings. |
| ResidencyProperties.Phase1200Outcomes | common/src/main/java/mca/entity/ai/Residency.java:120-151 | A vanished village resets both ids and clears the bed. A building that does not list the villager resets the building id and clears the bed. Mood, hearts, HOME and the ledgers stay. |
| ResidencyProperties.Phase1200Sync | common/src/main/java/mca/entity/ai/Residency.java:126-145 | With valid residency, mood grows by the pending mood. Every online player's pending hearts move into the villager's hearts and are removed from the ledger. Each such player's reputation of the villager becomes its new hearts. |
| Residency.Residency.SyncLedgers | common/src/main/java/mca/entity/ai/Residency.java:126-145 | The two loops over the players leave exactly the state `SyncLedgers` describes. |
| ResidencyProperties.PopAllHeartsEffect | common/src/main/java/mca/entity/ai/Residency.java:132-138 | Each listed player's pending hearts are added to its hearts once, even when the player is listed twice. They are removed from the ledger, and nothing else in the village changes. |
| ResidencyProperties.PushReputationEffect | common/src/main/java/mca/entity/ai/Residency.java:140-145 | Each listed player's reputation of this villager equals its hearts. The ledger gains exactly those keys, no other entry changes, and no other part of the village changes. |
| ResidencyProperties.TickKeepsConsistent | common/src/main/java/mca/entity/ai/Residency.java:95-153 | A tick keeps "no village implies no building". It keeps the village and building layout, and keeps -1 out of the registry. |
| ResidencySpec.FreeBuildings | common/src/main/java/mca/entity/ai/Residency.java:180-182 | The candidate buildings are buildings of the village. |
| Residency.Residency.SeekNewHome | common/src/main/java/mca/entity/ai/Residency.java:178-191 | The loop over the shuffled free buildings stops at the first bed found. It yields exactly `SeekNewHome` of the old state. |
| ResidencyProperties.SeekNewHomeOutcome | common/src/main/java/mca/entity/ai/Residency.java:178-191 | A home is found exactly when some free building has an open bed. The villager then moves into such a building with that building's open bed. With no home found, nothing changes. |
| ResidencyProperties.SeekNewHomeClaimsBedOfBuilding | common/src/main/java/mca/entity/ai/Residency.java:178-203 | A HOME set by seeking is a bed of the building the villager moved into. |
| ResidencyProperties.FirstWithBed | common/src/main/java/mca/entity/ai/Residency.java:185-190 | The index of the first building in the order with an open bed. Every earlier building has none. |
| ResidencyProperties.SeekInFirstMatch | common/src/main/java/mca/entity/ai/Residency.java:185-203 | The search succeeds exactly when some building in the order has an open bed. It takes the bed of the first such building, and with none it changes nothing. |
| Residency.Residency.SeekNewHomeIn | common/src/main/java/mca/entity/ai/Residency.java:193-203 | It takes the building's open bed when there is one, and reports whether it did. |
| Residency.Residency.SeekClosestHomeIn | common/src/main/java/mca/entity/ai/Residency.java:205-215 | It takes the open bed closest to the given tile when there is one, and reports whether it did. |
| Residency.Residency.SetBed | common/src/main/java/mca/entity/ai/Residency.java:217-234 | The new state is `SetBed` of the old one. |
| ResidencyProperties.SetBedEffects | common/src/main/java/mca/entity/ai/Residency.java:217-234 | The old ticket is released first. HOME and the new ticket are set only for a bed-tagged tile. The building id and resident entry are set for any tile, and nothing else changes. |
| ResidencyProperties.SetBedOnNonBedKeepsStaleHome | common/src/main/java/mca/entity/ai/Residency.java:217-234 | On a tile that is not a bed, the villager still moves in. The old HOME memory stays while its ticket is released. |
| Residency.Residency.ClearBed | common/src/main/java/mca/entity/ai/Residency.java:236-244 | The new state is `ClearBed` of the old one. |
| ResidencyProperties.ClearBedEffects | common/src/main/java/mca/entity/ai/Residency.java:236-244 | The remembered bed's ticket is released exactly when HOME is remembered and that tile is a HOME point of interest. HOME itself is kept, and nothing else changes. |
| Residency.Residency.SetHome | common/src/main/java/mca/entity/ai/Residency.java:246-265 | The returned message and the new state are those of `SetHome`. |
| ResidencyProperties.SetHomeOutcomes | common/src/main/java/mca/entity/ai/Residency.java:246-265 | No nearby village gives no message and no change. No building at the player gives "fail". Otherwise the result is "success" exactly when the closest open bed was taken, and "bedfail" with no change when there is none. |
| ResidencyProperties.SetHomeIgnoresVillageId | common/src/main/java/mca/entity/ai/Residency.java:246-265 | Setting a home never sets the village id. A villager without a village ends up with a building id but no village id. |
| Residency.Residency.GoHome | common/src/main/java/mca/entity/ai/Residency.java:267-274 | With HOME in the villager's own world, it walks there with the success message. Otherwise it reports "no home" and does not move. |
| Settlement.Village.AddResident | common/src/main/java/mca/entity/ai/Residency.java:233 | The villager joins the building's residents. No other building and no ledger changes. |
| Settlement.Village.RemoveResident | common/src/main/java/mca/entity/ai/Residency.java:113 | The villager leaves every building's residents. Beds, building ids and ledgers stay. |
| Settlement.Village.PopMood | common/src/main/java/mca/entity/ai/Residency.java:127 | Returns the pending mood and leaves it zero. |
| Settlement.Village.PopHearts | common/src/main/java/mca/entity/ai/Residency.java:134 | Returns the player's pending hearts and removes the entry. |
| Settlement.Village.SetReputation | common/src/main/java/mca/entity/ai/Residency.java:144 | The player's reputation of the villager becomes the given hearts. The ledger gains at most that key, and every other entry stays. |
| WanderTask.WanderOrTeleportToTargetTask.Default | common/src/main/java/mca/entity/ai/brain/tasks/WanderOrTeleportToTargetTask.java:43-45 | The default run time is 150 to 250 ticks, with no countdown, no path and no look target. |
| WanderTask.WanderOrTeleportToTargetTask.constructor | common/src/main/java/mca/entity/ai/brain/tasks/WanderOrTeleportToTargetTask.java:47-49 | The given run-time bounds, with no countdown, no path and no look target. |
| WanderTask.WanderOrTeleportToTargetTask.ShouldRun | common/src/main/java/mca/entity/ai/brain/tasks/WanderOrTeleportToTargetTask.java:52-73 | A running countdown ticks down and refuses. Otherwise the task starts exactly when the target is not reached, the mob is not staying and a path was found, and it then looks at the target. A refusal forgets WALK_TARGET, and a reached target also forgets the unreachable-since memory. |
| WanderTask.WanderOrTeleportToTargetTask.ShouldKeepRunning | common/src/main/java/mca/entity/ai/brain/tasks/WanderOrTeleportToTargetTask.java:76-84 | It goes on exactly while there is a path and a look target, the navigator is busy, and the walk target is present and not reached. |
| WanderTask.WanderOrTeleportToTargetTask.FinishRunning | common/src/main/java/mca/entity/ai/brain/tasks/WanderOrTeleportToTargetTask.java:87-96 | The countdown becomes the draw below 40 exactly when the walk target is present and unreached and the mob is near its path start. The navigator stops, and WALK_TARGET, PATH and the path are dropped. |
| WanderTask.WanderOrTeleportToTargetTask.Run | common/src/main/java/mca/entity/ai/brain/tasks/WanderOrTeleportToTargetTask.java:99-102 | PATH and the navigator hold the task's path at the task's speed. |
| WanderTask.WanderOrTeleportToTargetTask.KeepRunning | common/src/main/java/mca/entity/ai/brain/tasks/WanderOrTeleportToTargetTask.java:105-124 | The navigator's path is adopted and remembered when it changed. A drift over two blocks re-plans. A found path is then followed, or replaced by the teleport search's landing tile (or its error) when teleporting applies. |
| WanderSpec.DriftedExamples | common/src/main/java/mca/entity/ai/brain/tasks/WanderOrTeleportToTargetTask.java:115 | The drift test is measured from the walk target's block centre. A drift of one block on every axis re-plans, a drift of (-2, -1, 0) does not, no drift never re-plans, and three blocks on the x axis always re-plans. |
| WanderSpec.KeepRunningActionCases | common/src/main/java/mca/entity/ai/brain/tasks/WanderOrTeleportToTargetTask.java:113-123 | It re-plans exactly when the walk target has drifted from the look target by a squared block distance above 4, measured from the walk target's block centre. It teleports only with a path found, teleporting allowed, the target out of range and not reached. |
| WanderTask.WanderOrTeleportToTargetTask.HasFinishedPath | common/src/main/java/mca/entity/ai/brain/tasks/WanderOrTeleportToTargetTask.java:126-153 | It holds the primary path, or the fallback when the target is unreached and there is no primary path. It takes the target's speed and updates the unreachable-since memory as `CantReachAfter` says. |
| WanderSpec.CantReachTimestamp | common/src/main/java/mca/entity/ai/brain/tasks/WanderOrTeleportToTargetTask.java:126-153 | The unreachable-since time is cleared when the target is reached or a path reaches it. It is never overwritten, is set to the current time only when absent, and is always present otherwise. |
| WanderSpec.PathFinishedCases | common/src/main/java/mca/entity/ai/brain/tasks/WanderOrTeleportToTargetTask.java:126-153 | A reached target never finishes. Any primary path finishes, even one that does not reach. Without one the fallback decides. |
| WanderSpec.AtTargetClearsCantReach | common/src/main/java/mca/entity/ai/brain/tasks/WanderOrTeleportToTargetTask.java:131-132 | A mob on the target tile with a non-negative range has no unreachable-since time and never finishes. |
| WanderSpec.HasReachedProperties | common/src/main/java/mca/entity/ai/brain/tasks/WanderOrTeleportToTargetTask.java:155-157 | Standing on the target reaches it with any non-negative range. A larger range keeps a reached target reached. |
| WanderTask.WanderOrTeleportToTargetTask.TryTeleport | common/src/main/java/mca/entity/ai/brain/tasks/WanderOrTeleportToTargetTask.java:159-169 | The loop of ten attempts moves the mob exactly to the tile `TeleportSearch` finds. It raises exactly its error, and leaves the mob in place when none is found. |
| WanderSpec.TeleportSearch | common/src/main/java/mca/entity/ai/brain/tasks/WanderOrTeleportToTargetTask.java:159-169 | A landing attempt index is below ten. |
| WanderSpec.SearchFrom | common/src/main/java/mca/entity/ai/brain/tasks/WanderOrTeleportToTargetTask.java:160-168 | A found index lies among the remaining attempts, and that attempt lands. |
| WanderSpec.FirstDecisiveAttempt | common/src/main/java/mca/entity/ai/brain/tasks/WanderOrTeleportToTargetTask.java:160-168 | The first attempt that does not simply fail. Every earlier attempt failed. |
| WanderSpec.SearchFromFirstDecisive | common/src/main/java/mca/entity/ai/brain/tasks/WanderOrTeleportToTargetTask.java:160-168 | The first attempt that does not simply fail decides the search. Its success is the result, and its error aborts the search. |
| WanderSpec.TeleportSearchOutcome | common/src/main/java/mca/entity/ai/brain/tasks/WanderOrTeleportToTargetTask.java:159-169 | The search stops at the first successful attempt. It ends without a teleport exactly when all ten fail, and an error ends it at the first attempt that raises one. |
| WanderSpec.RandomInt | common/src/main/java/mca/entity/ai/brain/tasks/WanderOrTeleportToTargetTask.java:196-198 | The value lies in [min, max] and is the draw shifted by min. |
| WanderSpec.Candidate | common/src/main/java/mca/entity/ai/brain/tasks/WanderOrTeleportToTargetTask.java:161-164 | A candidate lies within 3 blocks of the target on x and z and within 1 block on y. |
| WanderTask.WanderOrTeleportToTargetTask.TryTeleportTo | common/src/main/java/mca/entity/ai/brain/tasks/WanderOrTeleportToTargetTask.java:171-180 | An attempt inside the exclusion zone or on a tile the mob may not land on fails, and the mob stays. Otherwise the mob is moved to the tile. |
| WanderTask.WanderOrTeleportToTargetTask.CanTeleportTo | common/src/main/java/mca/entity/ai/brain/tasks/WanderOrTeleportToTargetTask.java:182-194 | It allows a tile only when it is walkable, the block below passes the blacklist and the mob fits there. It raises exactly the blacklist's error. |
| Common.Below | common/src/main/java/mca/entity/ai/brain/tasks/WanderOrTeleportToTargetTask.java:187 | The tile below has the same x and z and y one less. |
| WanderSpec.TeleportDestinationIsSafe | common/src/main/java/mca/entity/ai/brain/tasks/WanderOrTeleportToTargetTask.java:159-194 | A landing tile is within range of the target and outside the exclusion zone. It is walkable, has room for the mob, and the block below is not blacklisted. |
| WanderTask.WanderOrTeleportToTargetTask.IsAreaSafe | common/src/main/java/mca/entity/ai/brain/tasks/WanderOrTeleportToTargetTask.java:204-225 | The scan of the blacklist returns exactly `AreaSafe`. |
| WanderSpec.FirstDecisiveEntry | common/src/main/java/mca/entity/ai/brain/tasks/WanderOrTeleportToTargetTask.java:209-223 | The first blacklist entry that matches the block or raises. Every earlier entry passes. |
| WanderSpec.AreaSafeFromFirstDecisive | common/src/main/java/mca/entity/ai/brain/tasks/WanderOrTeleportToTargetTask.java:209-224 | The scan's result is decided by the first entry that does not pass. A match makes the block unsafe, and an error is raised. |
| WanderSpec.AreaSafeScan | common/src/main/java/mca/entity/ai/brain/tasks/WanderOrTeleportToTargetTask.java:204-225 | The first matching or failing entry decides. The block is safe exactly when every entry passes. |
| WanderSpec.TagNameQualified | common/src/main/java/mca/entity/ai/brain/tasks/WanderOrTeleportToTargetTask.java:213 | A tag name always gets a non-empty namespace, a namespaced name is kept, and normalising twice changes nothing. |

## Left out

- Residency.Residency.Tick: the building reports to the settlement scanner every 600 ticks (`reportBuildings`) are not modelled. They are world scanning outside the controller.
- Residency.Residency.SetHome: refreshing the building under the player (`processBuilding`) before the lookup is not modelled. The lookup results come in as the parameters `nearest` and `buildingAt`.
- Settlement.Village.AddResident: the `Village` class is not part of this model. Its resident and ledger operations are modelled as a plain ledger: pop reads and clears, and removing a resident clears it from every building.
- Residency.Residency.SyncLedgers: mood is added as it is. Any clamping inside the villager brain is not part of this model.
- The world's dirty flag (`markDirty`), chat messages beyond the returned key, entity status 14 and the villager's movement are not modelled. `GoHome` returns the tile to walk to.
- Bed lookup, free space, bed tags, HOME points of interest, the nearest village and the shuffle are oracles. The shuffle is only required to be a permutation.
- The engine's `Vec3i` class is not part of this model. `WanderSpec.QuadrupledBlockDistance` follows its block-to-block squared distance in Minecraft 1.17, which offsets the first block by half a block on each axis.
- WanderTask.WanderOrTeleportToTargetTask.TryTeleportTo: the mob's position is its block position. The +0.5 centring of the teleport is not modelled, since it does not change that block.
- WanderTask.WanderOrTeleportToTargetTask.KeepRunning: the teleport range test (`isWithinDistance` on the mob's floating-point position) is the boolean `withinLimit`.
- The fallback search for a point near the target (`NoPenaltyTargeting`) and the path planner are reduced to the two answers in `Plan`. Whether the mob fits at a tile is `Terrain.spaceEmpty`.
- The memory requirements the task framework checks before starting (CANT_REACH_WALK_TARGET_SINCE registered, PATH absent, WALK_TARGET present) are not modelled. `ShouldRun` requires only WALK_TARGET, which it reads. `KeepRunning` requires it only where it is read. The run-time bounds are recorded in the task's fields but not enforced.
- WanderSpec.TagName: only the default namespace of identifiers is modelled. The engine's character validation of identifiers is not.
- The unused overload `isAreaSafe(Vec3d)` only converts to a block position and is not modelled separately.
- The renderer and network message files next to the core are not part of this model.
