# MineColonies colony mechanics, modelled in Dafny

This project models seven pieces of MineColonies' server-side bookkeeping:

- **Compost barrel** (`TileEntityBarrel`). The barrel takes compostable items, weighted by their recipe strength, up to its capacity. A full barrel counts compost ticks. After 1200 ticks (TIMER_END / AVERAGE_TICKS) it is empty and done. Harvesting a done barrel clears the flag.
- **Horde raid event** (`HordeRaidEvent`). This is the raid status machine:
  - STARTING becomes PREPARING or CANCELED, then PROGRESSING, and finally DONE.
  - Campfires are placed around the spawn position, and the raid waits out a campfire timer.
  - A counter of days left runs down, one per nightfall.
  - The raiders are tracked in three maps: bosses, archers and normal raiders.
  - Raiders that leave the world are queued for respawn, and the horde is topped up to its counts.
  - The event saves itself to NBT and loads itself back.
- **Norsemen raid** (`NorsemenRaidEvent`). Registration per raider category is capped at the horde's counts. A raider's death lowers those counts and the horde size. The raid ends when the horde size reaches zero.
- **Sifter building** (`BuildingSifter`).
  - A daily quota grows with building level: level squared times 64 below level 5, unlimited from level 5.
  - A daily counter is reset when the worker wakes up.
  - Quota and counter are sent to the client view in one order and read back in the same order.
- **Archery training AI** (`EntityAIArcherTraining`).
  - A session picks at most five targets per building level.
  - The archer waits out an attack delay of 10 calls, draws and fires.
  - The next state of each step is modelled.
- **Entity data stash** (`CommonProxy`). A map that holds entity data between a player's death and respawn. Reading an entry also removes it.
- **Vanilla recipe filter** (`RecipeCraftingType`). An order-preserving filter with four skip rules:
  - the optional predicate rejects the recipe;
  - the recipe has no result;
  - its conversion gives null or a recipe without inputs;
  - its conversion throws.

The imperative classes are Dafny classes with the source's fields:
- `TileEntityBarrel`, `HordeRaidEvent` and `NorsemenRaidEvent`;
- `BuildingSifter` and its `View`;
- `EntityAIArcherTraining`;
- the proxy's stash;
- the network buffer.

Each method is proved against a pure function of the old state, or states its new state outright. The properties that span several calls are lemmas about those functions. Examples:
- a full compost cycle;
- the horde event's NBT round trip;
- the counter and delay bounds of a training session;
- the order and skip rules of the recipe filter.

The host world is passed in as function parameters. This covers:
- path results;
- the search for a loaded position towards the colony center;
- random campfire spots, shooting targets and stands;
- entity liveness;
- the recipe conversion.

Module layout:
- `wrappers.dfy`: Option.
- `java_int.dfy`: Java int range and truncating division.
- `nbt.dfy`: NBT compounds and block positions in them.
- `bytebuf.dfy`: the network buffer's ints.
- The rest: one file per core class.

## Model

| member | source | states |
|---|---|---|
| Barrel.AfterUpdate | src/main/java/com/minecolonies/coremod/tileentities/TileEntityBarrel.java:82-95 | An update changes the barrel only when it is full; it keeps items in 0..MAX_ITEMS and the timer below 1200; a full barrel either counts one tick or, at the end, is emptied, reset and done |
| Barrel.FullBarrelCounts | src/main/java/com/minecolonies/coremod/tileentities/TileEntityBarrel.java:97-107 | While the cycle is not over, each update of a full barrel adds exactly one to the timer and changes nothing else |
| Barrel.FullCompostCycle | src/main/java/com/minecolonies/coremod/tileentities/TileEntityBarrel.java:97-107 | A just-filled barrel is still full after 1199 updates and is empty, reset and done after exactly 1200 |
| Barrel.ConsumeNeeded | src/main/java/com/minecolonies/coremod/tileentities/TileEntityBarrel.java:161-178 | The barrel receives min(MAX_ITEMS - items, count * strength) and stays within capacity; the stack shrinks by that amount divided by the strength, rounded down, never below zero; the barrel is full afterwards or the whole stack was used |
| Barrel.SaveLoad | src/main/java/com/minecolonies/coremod/tileentities/TileEntityBarrel.java:205-223 | Saving and then loading restores items, timer and done, whatever else the compound holds |
| Barrel.TileEntityBarrel.constructor | src/main/java/com/minecolonies/coremod/tileentities/TileEntityBarrel.java:37-45 | A new barrel is empty, with its timer at zero, and not done |
| Barrel.TileEntityBarrel.UpdateTick | src/main/java/com/minecolonies/coremod/tileentities/TileEntityBarrel.java:82-95 | The new state is AfterUpdate of the old one |
| Barrel.TileEntityBarrel.DoBarrelCompostTick | src/main/java/com/minecolonies/coremod/tileentities/TileEntityBarrel.java:97-107 | The timer advances; on reaching 1200 the timer and items are reset and the barrel is done |
| Barrel.TileEntityBarrel.UseBarrel | src/main/java/com/minecolonies/coremod/tileentities/TileEntityBarrel.java:118-159 | A done barrel hands out 6 compost, is no longer done, and keeps its items and timer; without a recipe or when full nothing changes and false is returned; otherwise the stack is consumed as ConsumeNeeded says and true is returned |
| Barrel.TileEntityBarrel.ConsumeNeededItems | src/main/java/com/minecolonies/coremod/tileentities/TileEntityBarrel.java:161-178 | Items and stack size change exactly by ConsumeNeeded's amounts |
| Barrel.TileEntityBarrel.AddItem | src/main/java/com/minecolonies/coremod/tileentities/TileEntityBarrel.java:305-315 | Succeeds exactly when a recipe exists and the barrel is not full, then consumes as ConsumeNeeded says; otherwise nothing changes |
| Barrel.TileEntityBarrel.RetrieveCompost | src/main/java/com/minecolonies/coremod/tileentities/TileEntityBarrel.java:322-331 | A done barrel gives its compost and is no longer done; otherwise it gives nothing |
| Barrel.TileEntityBarrel.CheckIfWorking | src/main/java/com/minecolonies/coremod/tileentities/TileEntityBarrel.java:294-297 | True exactly when the barrel is full |
| Barrel.TileEntityBarrel.SaveTo | src/main/java/com/minecolonies/coremod/tileentities/TileEntityBarrel.java:205-214 | The saved compound loads back to the barrel's current state |
| Barrel.TileEntityBarrel.LoadFrom | src/main/java/com/minecolonies/coremod/tileentities/TileEntityBarrel.java:217-223 | The new state is what the compound holds |
| JavaInt.Div | src/main/java/com/minecolonies/coremod/colony/colonyEvents/raidEvents/HordeRaidEvent.java:251 | Java int division truncates toward zero, bracketed for each sign |
| HordeRaid.StatusOfOrdinal | src/main/java/com/minecolonies/coremod/colony/colonyEvents/raidEvents/HordeRaidEvent.java:520 | An ordinal maps to a status exactly when it is in 0..5, and to the status with that ordinal |
| HordeRaid.OrdinalRoundTrip | src/main/java/com/minecolonies/coremod/colony/colonyEvents/raidEvents/HordeRaidEvent.java:500 | Every status's ordinal maps back to that status |
| HordeRaid.HordeSpawnsCounts | src/main/java/com/minecolonies/coremod/colony/colonyEvents/raidEvents/HordeRaidEvent.java:225-230 | spawnHorde asks for exactly the given number of bosses, archers and normal raiders |
| HordeRaid.TopUp | src/main/java/com/minecolonies/coremod/colony/colonyEvents/raidEvents/HordeRaidEvent.java:422-429 | Spawns happen only when fewer raiders are tracked than the horde counts and a loaded position exists; each category's deficit is then requested, in three calls of three distinct raider types, all at that loaded position |
| HordeRaid.FireCount | src/main/java/com/minecolonies/coremod/colony/colonyEvents/raidEvents/HordeRaidEvent.java:251 | At least one campfire; one per five raiders, rounded down |
| HordeRaid.PlacedFiresBound | src/main/java/com/minecolonies/coremod/colony/colonyEvents/raidEvents/HordeRaidEvent.java:249-265 | No more campfires are placed than fires are attempted |
| HordeRaid.PlacedFiresAll | src/main/java/com/minecolonies/coremod/colony/colonyEvents/raidEvents/HordeRaidEvent.java:252-264 | When every fire finds a spot within its three tries, exactly one campfire per fire is placed |
| HordeRaid.FirstSpotIsATry | src/main/java/com/minecolonies/coremod/colony/colonyEvents/raidEvents/HordeRaidEvent.java:254-262 | A placed campfire is one of the three random tries of its fire |
| HordeRaid.NightFallsCount | src/main/java/com/minecolonies/coremod/colony/colonyEvents/raidEvents/HordeRaidEvent.java:290-297 | After n nightfalls the counter has dropped by n; the status is DONE exactly when n exceeds the days that were left |
| HordeRaid.FreshEventNightFalls | src/main/java/com/minecolonies/coremod/colony/colonyEvents/raidEvents/HordeRaidEvent.java:124 | A fresh event (three days to go) is DONE exactly from its fourth nightfall on |
| HordeRaid.RespawnSpawns | src/main/java/com/minecolonies/coremod/colony/colonyEvents/raidEvents/HordeRaidEvent.java:408-420 | The respawn queue gives at most one spawn call per entry, each for a single raider |
| HordeRaid.RespawnSpawnsExact | src/main/java/com/minecolonies/coremod/colony/colonyEvents/raidEvents/HordeRaidEvent.java:410-417 | Every entry whose loaded position is found gets a one-raider call of its type at that position, and every call is such an entry's call |
| HordeRaid.RespawnSpawnsAppend | src/main/java/com/minecolonies/coremod/colony/colonyEvents/raidEvents/HordeRaidEvent.java:410-417 | The queue is served in order: the calls of a queue split in two are the first part's calls followed by the second's |
| HordeRaid.RespawnSpawnsSingle | src/main/java/com/minecolonies/coremod/colony/colonyEvents/raidEvents/HordeRaidEvent.java:412-416 | One entry yields its one-raider call at the found position, or no call when none is found |
| HordeRaid.DroppedRespawns | src/main/java/com/minecolonies/coremod/colony/colonyEvents/raidEvents/HordeRaidEvent.java:436-443 | Every visited raider that is dead or unloaded gets a respawn entry with its type and position, and there are at most as many entries as raiders visited |
| HordeRaid.DroppedRespawnsSources | src/main/java/com/minecolonies/coremod/colony/colonyEvents/raidEvents/HordeRaidEvent.java:436-443 | Conversely, every respawn entry is the type and position of a visited raider that is dead or unloaded |
| HordeRaid.DroppedRespawnsAppend | src/main/java/com/minecolonies/coremod/colony/colonyEvents/raidEvents/HordeRaidEvent.java:436-443 | Raiders are queued in visit order: the entries of a visit split in two are the first part's entries followed by the second's |
| HordeRaid.DroppedRespawnsSingle | src/main/java/com/minecolonies/coremod/colony/colonyEvents/raidEvents/HordeRaidEvent.java:438-443 | One visited raider adds exactly one entry when dead or unloaded, and none otherwise |
| HordeRaid.DecodeEvent | src/main/java/com/minecolonies/coremod/colony/colonyEvents/raidEvents/HordeRaidEvent.java:509-523 | Loading succeeds exactly when the stored status ordinal is valid |
| HordeRaid.EventRoundTrip | src/main/java/com/minecolonies/coremod/colony/colonyEvents/raidEvents/HordeRaidEvent.java:487-523 | Serialising and then deserialising gives back id, horde, spawn point, campfires, status, days left and waypoints |
| HordeRaid.HordeRaidEvent.constructor | src/main/java/com/minecolonies/coremod/colony/colonyEvents/raidEvents/HordeRaidEvent.java:141-145 | A new event has the given id, STARTING status, three days to go, and no raiders, campfires, respawns or waypoints |
| HordeRaid.HordeRaidEvent.Entities | src/main/java/com/minecolonies/coremod/colony/colonyEvents/raidEvents/HordeRaidEvent.java:160-167 | An entity is listed exactly when it is in one of the three raider maps |
| HordeRaid.HordeRaidEvent.SetHorde | src/main/java/com/minecolonies/coremod/colony/colonyEvents/raidEvents/HordeRaidEvent.java:299-302 | The horde is replaced |
| HordeRaid.HordeRaidEvent.SetSpawnPoint | src/main/java/com/minecolonies/coremod/colony/colonyEvents/raidEvents/HordeRaidEvent.java:148-151 | The spawn point is replaced |
| HordeRaid.HordeRaidEvent.UnregisterEntity | src/main/java/com/minecolonies/coremod/colony/colonyEvents/raidEvents/HordeRaidEvent.java:199-213 | A tracked raider leaving during PROGRESSING in an active colony is dropped from every map and queued for respawn; otherwise nothing changes |
| HordeRaid.HordeRaidEvent.PrepareEvent | src/main/java/com/minecolonies/coremod/colony/colonyEvents/raidEvents/HordeRaidEvent.java:235-242 | The campfire time drops by one; the raid starts progressing when it reaches zero |
| HordeRaid.HordeRaidEvent.SpawnCampFires | src/main/java/com/minecolonies/coremod/colony/colonyEvents/raidEvents/HordeRaidEvent.java:249-265 | The placed campfires are appended in order. One try count is returned per fire, each between one and three; a fire stops before its third try only when its last try found a spot |
| HordeRaid.HordeRaidEvent.OnStart | src/main/java/com/minecolonies/coremod/colony/colonyEvents/raidEvents/HordeRaidEvent.java:319-358 | A reached path end becomes the spawn point. With no loaded spawn position the raid is CANCELED and spawns nothing. Otherwise it is PREPARING, with its campfires placed, campfire time 6 near the center and 3 elsewhere, and the whole horde spawned |
| HordeRaid.HordeRaidEvent.OnNightFall | src/main/java/com/minecolonies/coremod/colony/colonyEvents/raidEvents/HordeRaidEvent.java:290-297 | Days left drops by one; the raid is DONE once that goes below zero |
| HordeRaid.HordeRaidEvent.SpawnRespawns | src/main/java/com/minecolonies/coremod/colony/colonyEvents/raidEvents/HordeRaidEvent.java:408-417 | The spawn calls are RespawnSpawns of the queue |
| HordeRaid.HordeRaidEvent.Tracked | src/main/java/com/minecolonies/coremod/colony/colonyEvents/raidEvents/HordeRaidEvent.java:422 | The number of tracked raiders over the three categories; it is zero exactly when no raider is tracked |
| HordeRaid.HordeRaidEvent.TopUpSpawns | src/main/java/com/minecolonies/coremod/colony/colonyEvents/raidEvents/HordeRaidEvent.java:422-429 | The top-up's spawn calls are TopUp of the tracked counts and the loaded spawn position |
| HordeRaid.HordeRaidEvent.QueueDropped | src/main/java/com/minecolonies/coremod/colony/colonyEvents/raidEvents/HordeRaidEvent.java:436-449 | Every tracked raider is visited once. The queue grows by exactly DroppedRespawns of the visit order, so the dead or unloaded raiders are queued in that order and nothing else is |
| HordeRaid.HordeRaidEvent.OnUpdate | src/main/java/com/minecolonies/coremod/colony/colonyEvents/raidEvents/HordeRaidEvent.java:392-450 | In PREPARING the campfire countdown runs first, and a horde size at or below zero sets DONE. Then a pending respawn queue is spawned and cleared, and the update stops there. Otherwise the horde is topped up, the raid ends below the threshold, and dropped raiders are queued. An event that is DONE stays DONE |
| HordeRaid.HordeRaidEvent.SerializeNBT | src/main/java/com/minecolonies/coremod/colony/colonyEvents/raidEvents/HordeRaidEvent.java:487-506 | The compound is the event's encoding and decodes back to the event's fields |
| HordeRaid.HordeRaidEvent.DeserializeNBT | src/main/java/com/minecolonies/coremod/colony/colonyEvents/raidEvents/HordeRaidEvent.java:509-523 | Fields are read from the compound and campfires appended. A bad status ordinal fails, leaving status, days left and waypoints untouched |
| Nbt.ReadWritePos | src/main/java/com/minecolonies/coremod/colony/colonyEvents/raidEvents/HordeRaidEvent.java:491 | A position written under a key reads back unchanged |
| Nbt.PosListRoundTrip | src/main/java/com/minecolonies/coremod/colony/colonyEvents/raidEvents/HordeRaidEvent.java:492-499 | The campfire list encoding reads back to the same positions in order |
| Nbt.PosListReadWrite | src/main/java/com/minecolonies/coremod/colony/colonyEvents/raidEvents/HordeRaidEvent.java:504 | A position list written under a key reads back unchanged |
| NorsemenRaid.Register | src/main/java/com/minecolonies/coremod/colony/colonyEvents/raidEvents/norsemenevent/NorsemenRaidEvent.java:51-78 | Dead entities and non-mobs are removed. An entity joins a map exactly when it is a living chief, archer or shieldmaiden whose category is below its horde count, and only that map changes. A category never grows past its count |
| NorsemenRaid.RegisterKeepsCaps | src/main/java/com/minecolonies/coremod/colony/colonyEvents/raidEvents/norsemenevent/NorsemenRaidEvent.java:59-75 | Registration keeps every category within its horde count |
| NorsemenRaid.OnDeath | src/main/java/com/minecolonies/coremod/colony/colonyEvents/raidEvents/norsemenevent/NorsemenRaidEvent.java:81-112 | A non-mob's death changes nothing. A mob's death lowers the horde size by one, and the raid is DONE exactly when the size reaches zero. A raider also leaves its map and lowers its category's count, and no other category changes. Another colony mob leaves the maps and every category's count as they were |
| NorsemenRaid.DeathKeepsCaps | src/main/java/com/minecolonies/coremod/colony/colonyEvents/raidEvents/norsemenevent/NorsemenRaidEvent.java:88-104 | The death of a tracked raider keeps every category within its (lowered) count |
| NorsemenRaid.TopUpNonNegative | src/main/java/com/minecolonies/coremod/colony/colonyEvents/raidEvents/HordeRaidEvent.java:422-429 | While categories are within their counts, a top-up never asks for a negative number of raiders |
| NorsemenRaid.NorsemenRaidEvent.constructor | src/main/java/com/minecolonies/coremod/colony/colonyEvents/raidEvents/norsemenevent/NorsemenRaidEvent.java:32-36 | A new Norsemen raid is a fresh horde event with empty maps |
| NorsemenRaid.NorsemenRaidEvent.RegisterEntity | src/main/java/com/minecolonies/coremod/colony/colonyEvents/raidEvents/norsemenevent/NorsemenRaidEvent.java:51-78 | The maps and the removal flag are those Register gives |
| NorsemenRaid.NorsemenRaidEvent.OnEntityDeath | src/main/java/com/minecolonies/coremod/colony/colonyEvents/raidEvents/norsemenevent/NorsemenRaidEvent.java:81-114 | The maps, horde and status are those OnDeath gives |
| NorsemenRaid.NorsemenRaidEvent.LoadFromNbt | src/main/java/com/minecolonies/coremod/colony/colonyEvents/raidEvents/norsemenevent/NorsemenRaidEvent.java:123-129 | Loading succeeds exactly when the compound decodes, and the new event then holds the decoded fields |
| NorsemenRaid.SaveAndReload | src/main/java/com/minecolonies/coremod/colony/colonyEvents/raidEvents/norsemenevent/NorsemenRaidEvent.java:123-129 | A saved and reloaded event has the same serialised fields as the original |
| Sifter.MaxDailyQuantity | src/main/java/com/minecolonies/coremod/colony/buildings/workerbuildings/BuildingSifter.java:85-93 | Level 5 and up gives Integer.MAX_VALUE; below that, level squared times 64; never negative |
| Sifter.MaxDailyQuantityValues | src/main/java/com/minecolonies/coremod/colony/buildings/workerbuildings/BuildingSifter.java:92 | Levels 0 to 4 give 0, 64, 256, 576 and 1024 |
| Sifter.MaxDailyQuantityMonotone | src/main/java/com/minecolonies/coremod/colony/buildings/workerbuildings/BuildingSifter.java:85-93 | A higher level never lowers the quota |
| Sifter.BuildingSifter.constructor | src/main/java/com/minecolonies/coremod/colony/buildings/workerbuildings/BuildingSifter.java:42-55 | A new building has sifted nothing today |
| Sifter.BuildingSifter.GetMaxDailyQuantity | src/main/java/com/minecolonies/coremod/colony/buildings/workerbuildings/BuildingSifter.java:85-93 | The building's quota is MaxDailyQuantity of its level |
| Sifter.BuildingSifter.GetCurrentDailyQuantity | src/main/java/com/minecolonies/coremod/colony/buildings/workerbuildings/BuildingSifter.java:107-110 | Returns today's count |
| Sifter.BuildingSifter.SetCurrentDailyQuantity | src/main/java/com/minecolonies/coremod/colony/buildings/workerbuildings/BuildingSifter.java:75-78 | The getter returns the value that was set |
| Sifter.BuildingSifter.OnWakeUp | src/main/java/com/minecolonies/coremod/colony/buildings/workerbuildings/BuildingSifter.java:96-100 | Today's count is reset to 0 |
| Sifter.BuildingSifter.SerializeNBT | src/main/java/com/minecolonies/coremod/colony/buildings/workerbuildings/BuildingSifter.java:121-128 | Today's count is stored under its key; every other key of the base compound is kept |
| Sifter.BuildingSifter.DeserializeNBT | src/main/java/com/minecolonies/coremod/colony/buildings/workerbuildings/BuildingSifter.java:113-118 | Today's count is what the compound holds under its key |
| Sifter.BuildingSifter.SerializeToView | src/main/java/com/minecolonies/coremod/colony/buildings/workerbuildings/BuildingSifter.java:131-136 | The quota's four bytes, then today's count's four bytes, are appended to the buffer |
| Sifter.View.constructor | src/main/java/com/minecolonies/coremod/colony/buildings/workerbuildings/BuildingSifter.java:146-162 | A new view shows 0 and 0 |
| Sifter.View.Deserialize | src/main/java/com/minecolonies/coremod/colony/buildings/workerbuildings/BuildingSifter.java:165-170 | Reads the quota, then today's count, from the next eight bytes. It fails exactly when fewer than eight remain, and today's count is then left as it was. With four to seven bytes left the quota is still read and the reader moves past it; with fewer than four neither the quota nor the reader moves |
| Sifter.NbtRoundTrip | src/main/java/com/minecolonies/coremod/colony/buildings/workerbuildings/BuildingSifter.java:113-128 | Saving a building and loading another from it carries today's count over |
| Sifter.SyncView | src/main/java/com/minecolonies/coremod/colony/buildings/workerbuildings/BuildingSifter.java:131-188 | The view's getters give the building's quota and today's count after a sync |
| ByteBuf.IntBytesRoundTrip | src/main/java/com/minecolonies/coremod/colony/buildings/workerbuildings/BuildingSifter.java:134-169 | The four bytes written for a Java int read back as that int |
| ByteBuf.Buffer.WriteInt | src/main/java/com/minecolonies/coremod/colony/buildings/workerbuildings/BuildingSifter.java:134-135 | The int's four bytes, most significant first, are appended |
| ByteBuf.Buffer.ReadInt | src/main/java/com/minecolonies/coremod/colony/buildings/workerbuildings/BuildingSifter.java:168-169 | The next four bytes are read as an int and consumed; fewer than four fail and consume nothing |
| ArcherTraining.Select | src/main/java/com/minecolonies/coremod/entity/ai/citizen/trainingcamps/EntityAIArcherTraining.java:105-123 | A used-up session returns DECIDE and resets the counter. With no target found it returns DECIDE and leaves the counter unchanged. Otherwise it stores the target, counts it and returns ARCHER_SHOOT. The counter stays within 0..level*5 |
| ArcherTraining.SelectRunBounded | src/main/java/com/minecolonies/coremod/entity/ai/citizen/trainingcamps/EntityAIArcherTraining.java:108-122 | For any sequence of random picks, a counter that starts within 0..level*5 stays within it |
| ArcherTraining.FullSession | src/main/java/com/minecolonies/coremod/entity/ai/citizen/trainingcamps/EntityAIArcherTraining.java:105-123 | With a target found every time, a session shoots exactly level*5 minus the counter times, then returns DECIDE with the counter reset |
| ArcherTraining.ReduceAttackDelay | src/main/java/com/minecolonies/coremod/entity/ai/citizen/trainingcamps/EntityAIArcherTraining.java:195 | A positive delay drops by one; otherwise it stays |
| ArcherTraining.ShootStep | src/main/java/com/minecolonies/coremod/entity/ai/citizen/trainingcamps/EntityAIArcherTraining.java:150-204 | Without a target or setup it returns START_WORKING and changes nothing. A drawn bow fires, resets the delay to 10 and returns ARCHER_CHECK_SHOT. Otherwise the delay runs down, the archer draws once it is over, and ARCHER_SHOOT is returned |
| ArcherTraining.DelayRunsDown | src/main/java/com/minecolonies/coremod/entity/ai/citizen/trainingcamps/EntityAIArcherTraining.java:193-200 | An undrawn bow with d ticks of delay is drawn after exactly d shoot calls, all returning ARCHER_SHOOT |
| ArcherTraining.ShotCycle | src/main/java/com/minecolonies/coremod/entity/ai/citizen/trainingcamps/EntityAIArcherTraining.java:158-203 | After a shot, exactly 10 ARCHER_SHOOT calls pass before the next ARCHER_CHECK_SHOT |
| ArcherTraining.EntityAIArcherTraining.constructor | src/main/java/com/minecolonies/coremod/entity/ai/citizen/trainingcamps/EntityAIArcherTraining.java:87-98 | A new AI has no target, no arrow and a zero counter |
| ArcherTraining.EntityAIArcherTraining.SelectTarget | src/main/java/com/minecolonies/coremod/entity/ai/citizen/trainingcamps/EntityAIArcherTraining.java:105-123 | State and result are those Select gives |
| ArcherTraining.EntityAIArcherTraining.FindShootingStandPosition | src/main/java/com/minecolonies/coremod/entity/ai/citizen/trainingcamps/EntityAIArcherTraining.java:130-143 | No stand returns DECIDE and changes nothing. A stand becomes the pathing target, with ARCHER_SELECT_TARGET after pathing, and GO_TO_TARGET is returned |
| ArcherTraining.EntityAIArcherTraining.ReduceAttackDelayTick | src/main/java/com/minecolonies/coremod/entity/ai/citizen/trainingcamps/EntityAIArcherTraining.java:195 | The delay becomes ReduceAttackDelay of the old one |
| ArcherTraining.EntityAIArcherTraining.Shoot | src/main/java/com/minecolonies/coremod/entity/ai/citizen/trainingcamps/EntityAIArcherTraining.java:150-204 | Bow state and result are those ShootStep gives |
| ArcherTraining.EntityAIArcherTraining.CheckShot | src/main/java/com/minecolonies/coremod/entity/ai/citizen/trainingcamps/EntityAIArcherTraining.java:206-219 | Always returns ARCHER_SELECT_TARGET when an arrow and target exist (the source dereferences both) |
| EntityData.PlayerPropertiesStash.constructor | src/main/java/com/minecolonies/coremod/proxy/CommonProxy.java:58 | The stash starts empty |
| EntityData.PlayerPropertiesStash.StoreEntityData | src/main/java/com/minecolonies/coremod/proxy/CommonProxy.java:79-82 | The compound replaces any entry under the name; other names keep their entries |
| EntityData.PlayerPropertiesStash.GetEntityData | src/main/java/com/minecolonies/coremod/proxy/CommonProxy.java:90-93 | Returns the stored compound, or None when there is none, and removes the entry; other names keep their entries |
| EntityData.DeathAndRespawn | src/main/java/com/minecolonies/coremod/proxy/CommonProxy.java:79-93 | After a store, the first read gets the compound and a second read gets nothing |
| EntityData.StoreTwice | src/main/java/com/minecolonies/coremod/proxy/CommonProxy.java:79-82 | A second store under a name overwrites the first |
| RecipeCrafting.Contribution | src/api/java/com/minecolonies/api/crafting/RecipeCraftingType.java:58-73 | A recipe contributes at most one generic recipe, namely exactly when it has a result and converts (without throwing) to a non-null recipe with inputs |
| RecipeCrafting.Filtered | src/api/java/com/minecolonies/api/crafting/RecipeCraftingType.java:45-56 | The output is never longer than the input |
| RecipeCrafting.FilteredSources | src/api/java/com/minecolonies/api/crafting/RecipeCraftingType.java:48-55 | The k-th output comes from the k-th kept recipe, with input positions increasing. A recipe is kept exactly when it passes the predicate and contributes |
| RecipeCrafting.FilteredAppend | src/api/java/com/minecolonies/api/crafting/RecipeCraftingType.java:49-54 | Filtering a concatenation is concatenating the filtered parts, so order is kept |
| RecipeCrafting.SkipIsLocal | src/api/java/com/minecolonies/api/crafting/RecipeCraftingType.java:62-72 | A recipe that is skipped for any reason, a throwing conversion included, drops out alone; the recipes after it are still processed |
| RecipeCrafting.NoPredicateAcceptsAll | src/api/java/com/minecolonies/api/crafting/RecipeCraftingType.java:51 | A missing predicate behaves as one accepting every recipe |
| RecipeCrafting.TryAddingVanillaRecipe | src/api/java/com/minecolonies/api/crafting/RecipeCraftingType.java:58-73 | The list grows by the recipe's Contribution |
| RecipeCrafting.FindRecipes | src/api/java/com/minecolonies/api/crafting/RecipeCraftingType.java:45-56 | The result is Filtered of the recipes, in the recipe manager's order |

## Left out

- Host effects are not modelled:
  - block updates, particles, sounds and messages;
  - the raid bar and the audio messages;
  - potion effects (spies) and entity removal from the world;
  - setting campfire blocks, visible citizen statuses, experience, item damage and the actions counter;
  - entity physics (arrow flight, worker movement) and the GUI windows.
  These operate on Minecraft's world and client, which is outside this model.
- TileEntityBarrel.tick is left out: its random update cadence depends on the game clock and a random draw. The model starts at updateTick.
- Barrel.MAX_ITEMS is a constant of AbstractTileEntityBarrel, which is not part of this model. It is taken as 64; the proofs need only that it is positive.
- Barrel.ConsumeNeeded: `count * factor` is computed without Java's 32-bit wrap-around. Stack sizes and recipe strengths are small in practice.
- Barrel.TileEntityBarrel.UseBarrel: the two ways of handing out compost (dropped as an entity, or into the inventory with overflow dropped) are one count. The hitFace parameter only chooses between them.
- Barrel.ConsumeNeeded: it requires a positive recipe strength. With strength 0 the source divides by zero in consumeNeededItems (TileEntityBarrel.java:161-178) and throws an ArithmeticException, which is not modelled.
- Barrel.TileEntityBarrel.ConsumeNeededItems: it requires a positive recipe strength, for the same division as Barrel.ConsumeNeeded.
- Barrel.TileEntityBarrel.UseBarrel: it requires a positive strength of a found recipe, because it consumes through ConsumeNeededItems.
- Barrel.TileEntityBarrel.AddItem: it requires a positive strength of a found recipe, because it consumes through ConsumeNeededItems.
- Barrel.TileEntityBarrel.RetrieveCompost: the floating-point `(int) (6 * multiplier)` is an input `amount`.
- findCompostRecipe is an input Option: it is a registry lookup.
- The NBT key strings of NbtTagConstants, Horde and BlockPosUtil are not part of this model. The model uses distinct keys of its own. Horde.loadFromNbt and writeToNbt are modelled as the five counts under five keys.
- HordeRaid.EventStatus: the declaration order of EventStatus is not part of this model. The ordinals are a fixed bijection with 0..5.
- HordeRaid.HordeRaidEvent.Entities is a set; the source's list could repeat an entity that sits in two maps.
- HordeRaid.HordeRaidEvent.OnStart: the path search, createWaypoints and getLoadedPositionTowardsCenter are inputs.
- HordeRaid.HordeRaidEvent.OnStart: the distance test to the colony center is an input predicate, because it is floating point.
- HordeRaid.HordeRaidEvent.OnUpdate: the floating-point `Math.round(initialSize * 0.05)` is an input `endThreshold`. setNightsSinceLastRaid is not modelled.
- The raider maps are WeakHashMaps in the source; entries that vanish on garbage collection are not modelled, and entities are identified by an id.
- HordeRaid.HordeRaidEvent.QueueDropped: the iteration order inside each WeakHashMap is not known. The model takes any order that visits each tracked raider once, carried as a ghost sequence. It therefore drops the fixed order between the maps that getEntities gives: archers, then bosses, then normal raiders.
- HordeRaid.HordeRaidEvent.SpawnCampFires: the random search around the spawn position is an input. The BlockPos.ZERO result that means failure is None.
- A null spawnPoint is Pos(0, 0, 0).
- ArcherTraining.EntityAIArcherTraining.constructor: stateAfterPathing is declared in a base class that is not part of this model, so its initial value is taken as Idle; only findShootingStandPosition sets it, to ARCHER_SELECT_TARGET.
- HordeRaid.HordeRaidEvent.constructor: the horde field, null in the source until setHorde, starts as the all-zero Horde(0, 0, 0, 0, 0); an update before setHorde, which throws in the source, is not modelled.
- The Horde object is shared by reference in the source; here it is a value held by the event. NorsemenRaidEvent, a subclass in the source, holds its horde event state as a field.
- onFinish, getRandomCampfire, setColony, setCampFireTime, addSpawner and setSpawnPath are outside the core that is modelled. They are host glue.
- NorsemenRaid.NorsemenRaidEvent.OnEntityDeath: sendHordeMessage, and its raid-bar percentage, are not modelled.
- Sifter.BuildingSifter.DeserializeNBT: compound ints are unbounded in the NBT model; an out-of-range value reads as 0.
- Sifter.MaxDailyQuantity: the source computes `(int) (Math.pow(level, 2) * 64)` in floating point. That is exact for levels 0 to 4, so the model uses integers.
- The base building's part of serializeNBT, serializeToView and deserialize (AbstractBuilding) is not part of this model. Sifter.SyncView starts from an empty buffer.
- ArcherTraining.ReduceAttackDelay: reduceAttackDelay lives in a base class that is not part of this model. It is assumed to lower a positive delay by one.
- ArcherTraining.EntityAIArcherTraining.Shoot: isSetup is an input `setupOk`. Its side effects (the request delay, the held bow) are not modelled.
- ArcherTraining.EntityAIArcherTraining.CheckShot: the hit test and the experience it awards are not modelled. It returns None where the source would dereference a missing arrow or target.
- EntityData.PlayerPropertiesStash: the static map is one object passed to the methods that use it.
- RecipeCrafting.FindRecipes: these are not modelled:
  - the recipe manager lookup;
  - the warning log;
  - an exception from the predicate or from getResultItem (both outside the try block).
  The conversion is an input function whose Failed result stands for an exception.
- The ArrayList that findRecipes passes to tryAddingVanillaRecipe is a value passed in and returned.
