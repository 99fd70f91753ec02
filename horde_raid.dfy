/**
  The horde raid event (HordeRaidEvent): a status machine
  STARTING -> PREPARING or CANCELED -> PROGRESSING -> DONE that counts down a
  campfire timer and a days-left counter, tracks the raiders it spawned in three
  maps (bosses, archers, normal raiders), queues respawns for raiders that drop
  out of the world, tops the horde up to its counts and serialises itself.
  The host's world (path results, loaded-position search, random campfire
  spots, entity liveness) enters as parameters.
 */
module HordeRaid {
  import opened Wrappers
  import opened Nbt
  import opened JavaInt

  /** Nightfalls an event lasts before it is over regardless of its raiders. */
  const INITIAL_DAYS: int := 3
  /** Campfire time when the spawn is within MIN_CENTER_DISTANCE of the colony center. */
  const CAMPFIRE_TIME_NEAR: int := 6
  /** Campfire time otherwise. */
  const CAMPFIRE_TIME_FAR: int := 3
  /** Random spots tried per campfire. */
  const CAMPFIRE_TRIES: nat := 3
  /** One campfire per this many raiders (at least one). */
  const RAIDERS_PER_CAMPFIRE: int := 5

  /** EventStatus, its constants in ordinal order. */
  datatype EventStatus = Starting | Progressing | Canceled | Done | Waiting | Preparing

  function Ordinal(s: EventStatus): nat
  {
    match s
    case Starting => 0
    case Progressing => 1
    case Canceled => 2
    case Done => 3
    case Waiting => 4
    case Preparing => 5
  }

  /** EventStatus.values()[n]; None where the source's array lookup throws. */
  function StatusOfOrdinal(n: int): (r: Option<EventStatus>)
    ensures r.Some? <==> 0 <= n < 6
    ensures r.Some? ==> Ordinal(r.value) == n
  {
    if n == 0 then Some(Starting)
    else if n == 1 then Some(Progressing)
    else if n == 2 then Some(Canceled)
    else if n == 3 then Some(Done)
    else if n == 4 then Some(Waiting)
    else if n == 5 then Some(Preparing)
    else None
  }

  lemma OrdinalRoundTrip(s: EventStatus)
    ensures StatusOfOrdinal(Ordinal(s)) == Some(s)
  {
  }

  /** The horde's composition: the five counts the event uses. */
  datatype Horde = Horde(hordeSize: int, initialSize: int, numberOfBosses: int, numberOfArchers: int, numberOfRaiders: int)

  function HordeTotal(h: Horde): int
  {
    h.numberOfBosses + h.numberOfArchers + h.numberOfRaiders
  }

  /** The three raider categories of a raid type. */
  datatype Role = BossRole | ArcherRole | NormalRole

  /** An entity's type as the raid sees it: one of its raider types, another colony mob, or no mob. */
  datatype EntityType = Raider(role: Role) | OtherMob | NotMob

  type EntityId = int
  type Uuid = int

  /** What the raid reads of an entity in the world. */
  datatype EntityInfo = EntityInfo(entityType: EntityType, uuid: Uuid, alive: bool, pos: Pos, blockLoaded: bool)

  /** A queued respawn: the type to spawn and where the raider was. */
  datatype Respawn = Respawn(entityType: EntityType, pos: Pos)

  /** A call RaiderMobUtils.spawn(type, count, pos). */
  datatype SpawnRequest = SpawnRequest(entityType: EntityType, count: int, pos: Pos)

  /** A finished path search: its end when the path reaches it, and the waypoints made from it. */
  datatype PathOutcome = PathOutcome(reachedEnd: Option<Pos>, wayPoints: seq<Pos>)

  /** spawnHorde: normal raiders, then bosses, then archers, all at `pos`. */
  function HordeSpawns(pos: Pos, bosses: int, archers: int, raiders: int): seq<SpawnRequest>
  {
    [SpawnRequest(Raider(NormalRole), raiders, pos),
     SpawnRequest(Raider(BossRole), bosses, pos),
     SpawnRequest(Raider(ArcherRole), archers, pos)]
  }

  /** spawnHorde asks for each category's count once. */
  lemma HordeSpawnsCounts(pos: Pos, bosses: int, archers: int, raiders: int)
    ensures SpawnedOf(HordeSpawns(pos, bosses, archers, raiders), Raider(BossRole)) == bosses
    ensures SpawnedOf(HordeSpawns(pos, bosses, archers, raiders), Raider(ArcherRole)) == archers
    ensures SpawnedOf(HordeSpawns(pos, bosses, archers, raiders), Raider(NormalRole)) == raiders
  {
    var r := HordeSpawns(pos, bosses, archers, raiders);
    var r1, r2 := r[1..], r[1..][1..];
    assert r2[1..] == [];
    assert r1[1..] == r2 && r[1..] == r1;
    forall t | t in {Raider(BossRole), Raider(ArcherRole), Raider(NormalRole)}
      ensures SpawnedOf(r, t) == (if r[0].entityType == t then r[0].count else 0)
        + (if r1[0].entityType == t then r1[0].count else 0) + (if r2[0].entityType == t then r2[0].count else 0)
    {
      assert SpawnedOf(r2, t) == (if r2[0].entityType == t then r2[0].count else 0) + SpawnedOf(r2[1..], t);
    }
  }

  /** The number of entities of type `t` a list of spawn calls asks for. */
  function SpawnedOf(reqs: seq<SpawnRequest>, t: EntityType): int
  {
    if reqs == [] then 0
    else (if reqs[0].entityType == t then reqs[0].count else 0) + SpawnedOf(reqs[1..], t)
  }

  /**
    The top-up of onUpdate: when fewer raiders are tracked than the horde
    counts and a loaded spawn position is found, spawn each category's deficit.
   */
  function TopUp(h: Horde, bosses: int, archers: int, normal: int, spawnPos: Option<Pos>): (r: seq<SpawnRequest>)
    ensures r != [] ==> bosses + archers + normal < HordeTotal(h) && spawnPos.Some?
    ensures r != [] ==>
      SpawnedOf(r, Raider(BossRole)) == h.numberOfBosses - bosses &&
      SpawnedOf(r, Raider(ArcherRole)) == h.numberOfArchers - archers &&
      SpawnedOf(r, Raider(NormalRole)) == h.numberOfRaiders - normal
    ensures bosses + archers + normal < HordeTotal(h) && spawnPos.Some? ==> |r| == 3
    ensures r != [] ==> forall q <- r :: q.pos == spawnPos.value && q.entityType.Raider?
    ensures r != [] ==>
      r[0].entityType != r[1].entityType && r[1].entityType != r[2].entityType && r[0].entityType != r[2].entityType
  {
    if bosses + archers + normal < HordeTotal(h) && spawnPos.Some? then
      HordeSpawnsCounts(spawnPos.value, h.numberOfBosses - bosses, h.numberOfArchers - archers, h.numberOfRaiders - normal);
      HordeSpawns(spawnPos.value, h.numberOfBosses - bosses, h.numberOfArchers - archers, h.numberOfRaiders - normal)
    else []
  }

  /** Math.max(1, hordeSize / 5) with Java's division. */
  function FireCount(hordeSize: int): (n: nat)
    ensures n >= 1
    ensures n * RAIDERS_PER_CAMPFIRE <= Max(hordeSize, RAIDERS_PER_CAMPFIRE)
    ensures hordeSize >= 2 * RAIDERS_PER_CAMPFIRE ==> hordeSize < (n + 1) * RAIDERS_PER_CAMPFIRE
  {
    Max(1, Div(hordeSize, RAIDERS_PER_CAMPFIRE))
  }

  /**
    The spot the campfire loop settles on for fire `i`, trying `t`, `t` + 1, ...
    up to CAMPFIRE_TRIES; `pick` gives each random try, None being the
    BlockPos.ZERO the source's random search returns on failure.
   */
  function FirstSpot(pick: (nat, nat) -> Option<Pos>, i: nat, t: nat): (r: Option<Pos>)
    decreases CAMPFIRE_TRIES - t
  {
    if t >= CAMPFIRE_TRIES then None
    else if pick(i, t).Some? then pick(i, t)
    else FirstSpot(pick, i, t + 1)
  }

  /** The campfires placed for fires 0 .. n-1, in order. */
  function PlacedFires(pick: (nat, nat) -> Option<Pos>, n: nat): seq<Pos>
  {
    if n == 0 then []
    else PlacedFires(pick, n - 1) + (match FirstSpot(pick, n - 1, 0) case Some(p) => [p] case None => [])
  }

  /** No more campfires than fires attempted. */
  lemma {:induction false} PlacedFiresBound(pick: (nat, nat) -> Option<Pos>, n: nat)
    ensures |PlacedFires(pick, n)| <= n
  {
    if n > 0 {
      PlacedFiresBound(pick, n - 1);
    }
  }

  /** When every fire finds a spot within its tries, exactly one campfire per fire is placed. */
  lemma {:induction false} PlacedFiresAll(pick: (nat, nat) -> Option<Pos>, n: nat)
    requires forall i: nat :: i < n ==> FirstSpot(pick, i, 0).Some?
    ensures |PlacedFires(pick, n)| == n
  {
    if n > 0 {
      PlacedFiresAll(pick, n - 1);
    }
  }

  /** A spot is only ever one of the tries of its own fire. */
  lemma {:induction false} FirstSpotIsATry(pick: (nat, nat) -> Option<Pos>, i: nat, t: nat)
    requires FirstSpot(pick, i, t).Some?
    ensures exists u: nat :: t <= u < CAMPFIRE_TRIES && pick(i, u) == FirstSpot(pick, i, t)
    decreases CAMPFIRE_TRIES - t
  {
    if pick(i, t).None? {
      FirstSpotIsATry(pick, i, t + 1);
    }
  }

  /** Status after prepareEvent, which decrements the campfire time first. */
  function AfterPrepare(status: EventStatus, campFireTime: int): EventStatus
  {
    if status == Preparing && campFireTime - 1 <= 0 then Progressing else status
  }

  /** onNightFall on the pair (daysToGo, status). */
  function NightFall(days: int, status: EventStatus): (int, EventStatus)
  {
    (days - 1, if days - 1 < 0 then Done else status)
  }

  function NightFalls(days: int, status: EventStatus, n: nat): (int, EventStatus)
    decreases n
  {
    if n == 0 then (days, status)
    else var d := NightFall(days, status); NightFalls(d.0, d.1, n - 1)
  }

  /** From `days` left, after n nightfalls the counter is `days - n`, and DONE from nightfall days + 1 on. */
  lemma {:induction false} NightFallsCount(days: int, status: EventStatus, n: nat)
    requires days >= 0
    ensures NightFalls(days, status, n).0 == days - n
    ensures NightFalls(days, status, n).1 == if n > days then Done else status
    decreases n
  {
    if n > 0 {
      var d := NightFall(days, status);
      if days == 0 {
        NightFallsStayDone(d.0, n - 1);
      } else {
        NightFallsCount(d.0, d.1, n - 1);
      }
    }
  }

  lemma {:induction false} NightFallsStayDone(days: int, n: nat)
    requires days < 0
    ensures NightFalls(days, Done, n) == (days - n, Done)
    decreases n
  {
    if n > 0 {
      NightFallsStayDone(days - 1, n - 1);
    }
  }

  /** A fresh event (three days to go) is DONE exactly from its fourth nightfall on. */
  lemma FreshEventNightFalls(status: EventStatus, n: nat)
    requires status != Done
    ensures NightFalls(INITIAL_DAYS, status, n).1 == Done <==> n >= 4
  {
    NightFallsCount(INITIAL_DAYS, status, n);
  }

  /**
    The spawn calls of the respawn queue: one raider per entry whose loaded
    position is found, at that position, and nothing else.
   */
  function RespawnSpawns(rs: seq<Respawn>, findLoaded: Pos -> Option<Pos>): (r: seq<SpawnRequest>)
    ensures |r| <= |rs|
    ensures forall q <- r :: q.count == 1
  {
    if rs == [] then []
    else
      var last := rs[|rs| - 1];
      RespawnSpawns(rs[..|rs| - 1], findLoaded) +
      (match findLoaded(last.pos) case Some(p) => [SpawnRequest(last.entityType, 1, p)] case None => [])
  }

  /**
    Both directions: every entry whose position is found gets its call, and
    every call is that of such an entry.
   */
  lemma {:induction false} RespawnSpawnsExact(rs: seq<Respawn>, findLoaded: Pos -> Option<Pos>)
    ensures forall e <- rs :: findLoaded(e.pos).Some? ==>
      SpawnRequest(e.entityType, 1, findLoaded(e.pos).value) in RespawnSpawns(rs, findLoaded)
    ensures forall q <- RespawnSpawns(rs, findLoaded) :: exists e <- rs ::
      findLoaded(e.pos).Some? && q == SpawnRequest(e.entityType, 1, findLoaded(e.pos).value)
    decreases |rs|
  {
    if rs != [] {
      var init, last := rs[..|rs| - 1], rs[|rs| - 1];
      RespawnSpawnsExact(init, findLoaded);
      assert forall e <- rs :: e in init || e == last;
      assert forall e <- init :: e in rs;
    }
  }

  /** The queue is served in order: the calls of a split queue are those of its parts, one after the other. */
  lemma {:induction false} RespawnSpawnsAppend(a: seq<Respawn>, b: seq<Respawn>, findLoaded: Pos -> Option<Pos>)
    ensures RespawnSpawns(a + b, findLoaded) == RespawnSpawns(a, findLoaded) + RespawnSpawns(b, findLoaded)
    decreases |b|
  {
    if b == [] {
      assert a + b == a;
    } else {
      var init := b[..|b| - 1];
      assert (a + b)[..|a + b| - 1] == a + init;
      assert (a + b)[|a + b| - 1] == b[|b| - 1];
      RespawnSpawnsAppend(a, init, findLoaded);
    }
  }

  /** A one-entry queue yields exactly that entry's call, if any. */
  lemma RespawnSpawnsSingle(e: Respawn, findLoaded: Pos -> Option<Pos>)
    ensures RespawnSpawns([e], findLoaded) ==
      if findLoaded(e.pos).Some? then [SpawnRequest(e.entityType, 1, findLoaded(e.pos).value)] else []
  {
  }

  /** A raider the world has unloaded or killed. */
  predicate Dropped(info: EntityInfo)
  {
    !info.alive || !info.blockLoaded
  }

  /**
    The respawns queued for the entities visited in `order`: one per raider
    that has dropped out, with its type and position, and nothing else.
   */
  function DroppedRespawns(order: seq<EntityId>, world: EntityId -> EntityInfo): (r: seq<Respawn>)
    ensures |r| <= |order|
    ensures forall e <- order :: Dropped(world(e)) ==> Respawn(world(e).entityType, world(e).pos) in r
  {
    if order == [] then []
    else
      var info := world(order[|order| - 1]);
      DroppedRespawns(order[..|order| - 1], world) +
      (if Dropped(info) then [Respawn(info.entityType, info.pos)] else [])
  }

  /** The converse: every queued respawn is that of a visited raider that has dropped out. */
  lemma {:induction false} DroppedRespawnsSources(order: seq<EntityId>, world: EntityId -> EntityInfo)
    ensures forall q <- DroppedRespawns(order, world) :: exists e <- order ::
      Dropped(world(e)) && q == Respawn(world(e).entityType, world(e).pos)
    decreases |order|
  {
    if order != [] {
      var init, last := order[..|order| - 1], order[|order| - 1];
      DroppedRespawnsSources(init, world);
      forall q | q in DroppedRespawns(order, world)
        ensures exists e <- order :: Dropped(world(e)) && q == Respawn(world(e).entityType, world(e).pos)
      {
        if q in DroppedRespawns(init, world) {
          var e :| e in init && Dropped(world(e)) && q == Respawn(world(e).entityType, world(e).pos);
          assert e in order;
        } else {
          assert last in order;
        }
      }
    }
  }

  /** Raiders are queued in visit order: the respawns of a split visit are those of its parts, one after the other. */
  lemma {:induction false} DroppedRespawnsAppend(a: seq<EntityId>, b: seq<EntityId>, world: EntityId -> EntityInfo)
    ensures DroppedRespawns(a + b, world) == DroppedRespawns(a, world) + DroppedRespawns(b, world)
    decreases |b|
  {
    if b == [] {
      assert a + b == a;
    } else {
      var init := b[..|b| - 1];
      assert (a + b)[..|a + b| - 1] == a + init;
      assert (a + b)[|a + b| - 1] == b[|b| - 1];
      DroppedRespawnsAppend(a, init, world);
    }
  }

  /** A single visited raider is queued exactly when it has dropped out. */
  lemma DroppedRespawnsSingle(e: EntityId, world: EntityId -> EntityInfo)
    ensures DroppedRespawns([e], world) ==
      if Dropped(world(e)) then [Respawn(world(e).entityType, world(e).pos)] else []
  {
  }

  predicate Distinct<T(==)>(s: seq<T>)
  {
    forall i, j :: 0 <= i < j < |s| ==> s[i] != s[j]
  }

  /** NBT keys of the event's fields. */
  const TAG_EVENT_ID: string := "eventID"
  const TAG_SPAWN_POS: string := "spawnPos"
  const TAG_CAMPFIRE_LIST: string := "campFires"
  const TAG_EVENT_STATUS: string := "eventStatus"
  const TAG_DAYS_LEFT: string := "daysLeft"
  const TAG_WAYPOINT: string := "wayPoints"
  const TAG_HORDE_SIZE: string := "hordeSize"
  const TAG_INITIAL_SIZE: string := "initialSize"
  const TAG_BOSSES: string := "numberOfBosses"
  const TAG_ARCHERS: string := "numberOfArchers"
  const TAG_RAIDERS: string := "numberOfRaiders"

  /** Horde.writeToNbt: the five counts. */
  function WriteHorde(c: Compound, h: Horde): Compound
  {
    PutInt(PutInt(PutInt(PutInt(PutInt(c,
      TAG_HORDE_SIZE, h.hordeSize), TAG_INITIAL_SIZE, h.initialSize),
      TAG_BOSSES, h.numberOfBosses), TAG_ARCHERS, h.numberOfArchers), TAG_RAIDERS, h.numberOfRaiders)
  }

  /** Horde.loadFromNbt */
  function ReadHorde(c: Compound): Horde
  {
    Horde(GetInt(c, TAG_HORDE_SIZE), GetInt(c, TAG_INITIAL_SIZE),
          GetInt(c, TAG_BOSSES), GetInt(c, TAG_ARCHERS), GetInt(c, TAG_RAIDERS))
  }

  /** The serialised fields of an event. */
  datatype EventData = EventData(
    id: int, horde: Horde, spawnPoint: Pos, campFires: seq<Pos>,
    status: EventStatus, daysToGo: int, wayPoints: seq<Pos>)

  /** serializeNBT, as a value. */
  function EncodeEvent(d: EventData): Compound
  {
    var c := WritePos(PutInt(map[], TAG_EVENT_ID, d.id), TAG_SPAWN_POS, d.spawnPoint);
    var c := c[TAG_CAMPFIRE_LIST := ListTag(PosListTags(d.campFires))];
    var c := PutInt(PutInt(c, TAG_EVENT_STATUS, Ordinal(d.status)), TAG_DAYS_LEFT, d.daysToGo);
    WritePosList(WriteHorde(c, d.horde), TAG_WAYPOINT, d.wayPoints)
  }

  /** deserializeNBT into a fresh event; None where the status lookup throws. */
  function DecodeEvent(c: Compound): (r: Option<EventData>)
    ensures r.Some? <==> StatusOfOrdinal(GetInt(c, TAG_EVENT_STATUS)).Some?
  {
    match StatusOfOrdinal(GetInt(c, TAG_EVENT_STATUS))
    case None => None
    case Some(s) =>
      Some(EventData(GetInt(c, TAG_EVENT_ID), ReadHorde(c), ReadPos(c, TAG_SPAWN_POS),
                     ReadPosListTag(c, TAG_CAMPFIRE_LIST), s, GetInt(c, TAG_DAYS_LEFT),
                     ReadPosListTag(c, TAG_WAYPOINT)))
  }

  /** The event's NBT keys are pairwise distinct. */
  lemma KeysDistinct()
    ensures
      var keys := [TAG_EVENT_ID, TAG_SPAWN_POS, TAG_CAMPFIRE_LIST, TAG_EVENT_STATUS, TAG_DAYS_LEFT,
                   TAG_HORDE_SIZE, TAG_INITIAL_SIZE, TAG_BOSSES, TAG_ARCHERS, TAG_RAIDERS, TAG_WAYPOINT];
      forall i, j :: 0 <= i < j < |keys| ==> keys[i] != keys[j]
  {
  }

  lemma EncodedHorde(d: EventData)
    ensures ReadHorde(EncodeEvent(d)) == d.horde
  {
  }

  lemma EncodedScalars(d: EventData)
    ensures GetInt(EncodeEvent(d), TAG_EVENT_ID) == d.id
    ensures GetInt(EncodeEvent(d), TAG_EVENT_STATUS) == Ordinal(d.status)
    ensures GetInt(EncodeEvent(d), TAG_DAYS_LEFT) == d.daysToGo
  {
  }

  lemma EncodedPositions(d: EventData)
    ensures ReadPos(EncodeEvent(d), TAG_SPAWN_POS) == d.spawnPoint
    ensures ReadPosListTag(EncodeEvent(d), TAG_CAMPFIRE_LIST) == d.campFires
    ensures ReadPosListTag(EncodeEvent(d), TAG_WAYPOINT) == d.wayPoints
  {
    KeysDistinct();
    var c := EncodeEvent(d);
    var c1 := WritePos(PutInt(map[], TAG_EVENT_ID, d.id), TAG_SPAWN_POS, d.spawnPoint);
    ReadWritePos(PutInt(map[], TAG_EVENT_ID, d.id), TAG_SPAWN_POS, d.spawnPoint);
    assert GetCompound(c, TAG_SPAWN_POS) == GetCompound(c1, TAG_SPAWN_POS);
    assert GetCompoundList(c, TAG_CAMPFIRE_LIST) == Entries(PosListTags(d.campFires));
    PosListRoundTrip(d.campFires);
    PosListReadWrite(WriteHorde(c1, d.horde), TAG_WAYPOINT, d.wayPoints);
  }

  /** Serialising then deserialising into a fresh event restores every serialised field. */
  lemma EventRoundTrip(d: EventData)
    ensures DecodeEvent(EncodeEvent(d)) == Some(d)
  {
    OrdinalRoundTrip(d.status);
    EncodedHorde(d);
    EncodedScalars(d);
    EncodedPositions(d);
  }

  /** A non-empty set has an element to choose. */
  lemma NonEmptyHasElement(s: set<EntityId>)
    requires s != {}
    ensures exists x :: x in s
  {
    if forall x :: x !in s {
      assert false;
    }
  }

  class HordeRaidEvent {
    var horde: Horde
    var normal: map<EntityId, Uuid>
    var archers: map<EntityId, Uuid>
    var boss: map<EntityId, Uuid>
    var respawns: seq<Respawn>
    var campFires: seq<Pos>
    var id: int
    var spawnPoint: Pos
    var status: EventStatus
    var daysToGo: int
    var campFireTime: int
    var wayPoints: seq<Pos>

    /** A new event with the id the colony's event manager hands out; the horde is set afterwards. */
    constructor (id: int)
      ensures this.id == id && status == Starting && daysToGo == INITIAL_DAYS && campFireTime == 0
      ensures normal == map[] && archers == map[] && boss == map[]
      ensures respawns == [] && campFires == [] && wayPoints == []
      ensures horde == Horde(0, 0, 0, 0, 0) && spawnPoint == Pos(0, 0, 0)
    {
      this.id := id;
      horde := Horde(0, 0, 0, 0, 0);
      normal, archers, boss := map[], map[], map[];
      respawns, campFires, wayPoints := [], [], [];
      spawnPoint := Pos(0, 0, 0);
      status := Starting;
      daysToGo := INITIAL_DAYS;
      campFireTime := 0;
    }

    /** The serialised fields. */
    function Data(): EventData
      reads this
    {
      EventData(id, horde, spawnPoint, campFires, status, daysToGo, wayPoints)
    }

    /** getEntities: every tracked raider, whatever its category. */
    function Entities(): (r: set<EntityId>)
      reads this
      ensures forall e :: e in r <==> e in archers || e in boss || e in normal
    {
      archers.Keys + boss.Keys + normal.Keys
    }

    /** How many raiders are tracked, over the three categories. */
    function Tracked(): (r: nat)
      reads this
      ensures r == 0 <==> Entities() == {}
    {
      |boss| + |archers| + |normal|
    }

    method SetHorde(h: Horde)
      modifies this`horde
      ensures horde == h
    {
      horde := h;
    }

    method SetSpawnPoint(p: Pos)
      modifies this`spawnPoint
      ensures spawnPoint == p
    {
      spawnPoint := p;
    }

    /**
      unregisterEntity: a tracked raider leaving the world while the raid is
      in progress and its colony active is dropped from the maps and queued
      for respawn; otherwise nothing happens.
     */
    method UnregisterEntity(e: EntityId, info: EntityInfo, colonyActive: bool)
      modifies this`archers, this`boss, this`normal, this`respawns
      ensures var acts := e in old(Entities()) && status == Progressing && colonyActive;
        if acts then
          e !in Entities() &&
          archers == old(archers) - {e} && boss == old(boss) - {e} && normal == old(normal) - {e} &&
          respawns == old(respawns) + [Respawn(info.entityType, info.pos)]
        else
          archers == old(archers) && boss == old(boss) && normal == old(normal) && respawns == old(respawns)
    {
      if !(e in archers || e in boss || e in normal) || status != Progressing || !colonyActive {
        return;
      }
      archers := archers - {e};
      boss := boss - {e};
      normal := normal - {e};
      respawns := respawns + [Respawn(info.entityType, info.pos)];
    }

    /** prepareEvent */
    method PrepareEvent()
      modifies this`campFireTime, this`status
      ensures campFireTime == old(campFireTime) - 1
      ensures status == if campFireTime <= 0 then Progressing else old(status)
    {
      campFireTime := campFireTime - 1;
      if campFireTime <= 0 {
        status := Progressing;
      }
    }

    /**
      spawnCampFires: up to CAMPFIRE_TRIES random spots per fire, the first
      one found becomes a campfire; `triesPerFire[i]` is how many random
      tries fire `i` made, fewer than CAMPFIRE_TRIES only when the last one
      found a spot.
     */
    method SpawnCampFires(pick: (nat, nat) -> Option<Pos>) returns (triesPerFire: seq<nat>)
      modifies this`campFires
      ensures campFires == old(campFires) + PlacedFires(pick, FireCount(horde.hordeSize))
      ensures |triesPerFire| == FireCount(horde.hordeSize)
      ensures forall i :: 0 <= i < |triesPerFire| ==> 1 <= triesPerFire[i] <= CAMPFIRE_TRIES
      ensures forall i: nat :: i < |triesPerFire| && 1 <= triesPerFire[i] < CAMPFIRE_TRIES ==>
        pick(i, triesPerFire[i] - 1).Some?
    {
      var fireCount := Max(1, Div(horde.hordeSize, RAIDERS_PER_CAMPFIRE));
      triesPerFire := [];
      var i := 0;
      while i < fireCount
        invariant 0 <= i <= fireCount
        invariant campFires == old(campFires) + PlacedFires(pick, i)
        invariant |triesPerFire| == i
        invariant forall j :: 0 <= j < i ==> 1 <= triesPerFire[j] <= CAMPFIRE_TRIES
        invariant forall j: nat :: j < i && 1 <= triesPerFire[j] < CAMPFIRE_TRIES ==>
          pick(j, triesPerFire[j] - 1).Some?
      {
        var tries := 0;
        var used := CAMPFIRE_TRIES;
        while tries < CAMPFIRE_TRIES
          invariant 0 <= tries <= CAMPFIRE_TRIES
          invariant campFires == old(campFires) + PlacedFires(pick, i)
          invariant FirstSpot(pick, i, 0) == FirstSpot(pick, i, tries)
          invariant used == CAMPFIRE_TRIES
        {
          var spawn := pick(i, tries);
          if spawn.Some? {
            campFires := campFires + [spawn.value];
            used := tries + 1;
            break;
          }
          tries := tries + 1;
        }
        triesPerFire := triesPerFire + [used];
        i := i + 1;
      }
    }

    /**
      onStart: `pathing` is the finished spawn path search, if any;
      `findLoaded` the loaded-position search towards the colony center;
      `nearCenter` whether a position is within MIN_CENTER_DISTANCE of the center.
      Returns the spawn calls of the horde.
     */
    method OnStart(pathing: Option<PathOutcome>, findLoaded: Pos -> Option<Pos>,
                   nearCenter: Pos -> bool, pick: (nat, nat) -> Option<Pos>)
      returns (spawns: seq<SpawnRequest>)
      modifies this`spawnPoint, this`wayPoints, this`status, this`campFires, this`campFireTime
      ensures spawnPoint ==
        if pathing.Some? && pathing.value.reachedEnd.Some? then pathing.value.reachedEnd.value else old(spawnPoint)
      ensures wayPoints == if pathing.Some? then pathing.value.wayPoints else old(wayPoints)
      ensures findLoaded(spawnPoint).None? ==>
        status == Canceled && spawns == [] && campFires == old(campFires) && campFireTime == old(campFireTime)
      ensures findLoaded(spawnPoint).Some? ==>
        var p := findLoaded(spawnPoint).value;
        status == Preparing &&
        campFireTime == (if nearCenter(p) then CAMPFIRE_TIME_NEAR else CAMPFIRE_TIME_FAR) &&
        campFires == old(campFires) + PlacedFires(pick, FireCount(horde.hordeSize)) &&
        spawns == HordeSpawns(p, horde.numberOfBosses, horde.numberOfArchers, horde.numberOfRaiders)
    {
      if pathing.Some? {
        if pathing.value.reachedEnd.Some? {
          spawnPoint := pathing.value.reachedEnd.value;
        }
        wayPoints := pathing.value.wayPoints;
      }
      var spawnPos := findLoaded(spawnPoint);
      if spawnPos.None? {
        status := Canceled;
        return [];
      }
      status := Preparing;
      var _ := SpawnCampFires(pick);
      if nearCenter(spawnPos.value) {
        campFireTime := CAMPFIRE_TIME_NEAR;
      } else {
        campFireTime := CAMPFIRE_TIME_FAR;
      }
      spawns := HordeSpawns(spawnPos.value, horde.numberOfBosses, horde.numberOfArchers, horde.numberOfRaiders);
    }

    /** onNightFall */
    method OnNightFall()
      modifies this`daysToGo, this`status
      ensures (daysToGo, status) == NightFall(old(daysToGo), old(status))
    {
      daysToGo := daysToGo - 1;
      if daysToGo < 0 {
        status := Done;
      }
    }

    /** The respawn loop of onUpdate: one spawn call per queued entry whose position can be loaded. */
    method SpawnRespawns(findLoaded: Pos -> Option<Pos>) returns (spawns: seq<SpawnRequest>)
      ensures spawns == RespawnSpawns(respawns, findLoaded)
    {
      spawns := [];
      var i := 0;
      while i < |respawns|
        invariant 0 <= i <= |respawns|
        invariant spawns == RespawnSpawns(respawns[..i], findLoaded)
      {
        var entry := respawns[i];
        assert respawns[..i + 1][..i] == respawns[..i];
        var spawnPos := findLoaded(entry.pos);
        if spawnPos.Some? {
          spawns := spawns + [SpawnRequest(entry.entityType, 1, spawnPos.value)];
        }
        i := i + 1;
      }
      assert respawns[..i] == respawns;
    }

    /** The top-up of onUpdate: each category's deficit, spawned at the loaded spawn position. */
    method TopUpSpawns(findLoaded: Pos -> Option<Pos>) returns (spawns: seq<SpawnRequest>)
      ensures spawns == TopUp(horde, |boss|, |archers|, |normal|, findLoaded(spawnPoint))
    {
      spawns := [];
      if Tracked() < horde.numberOfBosses + horde.numberOfRaiders + horde.numberOfArchers {
        var spawnPos := findLoaded(spawnPoint);
        if spawnPos.Some? {
          spawns := HordeSpawns(spawnPos.value, horde.numberOfBosses - |boss|,
                                horde.numberOfArchers - |archers|, horde.numberOfRaiders - |normal|);
        }
      }
    }

    /** The last loop of onUpdate: queue a respawn for each tracked raider that has dropped out. */
    method QueueDropped(world: EntityId -> EntityInfo) returns (ghost visited: seq<EntityId>)
      modifies this`respawns
      ensures Distinct(visited) && (forall e :: e in visited <==> e in Entities())
      ensures respawns == old(respawns) + DroppedRespawns(visited, world)
    {
      var pending := Entities();
      visited := [];
      while pending != {}
        invariant Distinct(visited)
        invariant forall e :: e in Entities() <==> e in visited || e in pending
        invariant forall e :: e in visited ==> e !in pending
        invariant respawns == old(respawns) + DroppedRespawns(visited, world)
        decreases pending
      {
        NonEmptyHasElement(pending);
        var e :| e in pending;
        var info := world(e);
        if !info.alive || !info.blockLoaded {
          respawns := respawns + [Respawn(info.entityType, info.pos)];
        }
        assert (visited + [e])[..|visited|] == visited;
        visited := visited + [e];
        pending := pending - {e};
      }
    }

    /**
      onUpdate: `findLoaded` is the loaded-position search used for respawns and
      top-ups, `endThreshold` the rounded 5% of the initial horde size below
      which the raid ends, `world` what the world says of each tracked raider.
      Returns the spawn calls made.
     */
    method OnUpdate(findLoaded: Pos -> Option<Pos>, endThreshold: int, world: EntityId -> EntityInfo)
      returns (spawns: seq<SpawnRequest>, ghost visited: seq<EntityId>)
      modifies this`campFireTime, this`status, this`respawns
      ensures campFireTime == if old(status) == Preparing then old(campFireTime) - 1 else old(campFireTime)
      ensures old(status) == Done ==> status == Done
      ensures
        var s := if horde.hordeSize <= 0 then Done else AfterPrepare(old(status), old(campFireTime));
        if old(respawns) != [] then
          spawns == RespawnSpawns(old(respawns), findLoaded) && respawns == [] && status == s
        else
          spawns == TopUp(horde, |boss|, |archers|, |normal|, findLoaded(spawnPoint)) &&
          status == (if HordeTotal(horde) < endThreshold then Done else s) &&
          Distinct(visited) && (forall e :: e in visited <==> e in Entities()) &&
          respawns == DroppedRespawns(visited, world)
    {
      visited := [];
      if status == Preparing {
        PrepareEvent();
      }
      if horde.hordeSize <= 0 {
        status := Done;
      }
      if respawns != [] {
        spawns := SpawnRespawns(findLoaded);
        respawns := [];
        return;
      }
      spawns := TopUpSpawns(findLoaded);
      if horde.numberOfBosses + horde.numberOfRaiders + horde.numberOfArchers < endThreshold {
        status := Done;
      }
      visited := QueueDropped(world);
    }

    /** serializeNBT */
    method SerializeNBT() returns (c: Compound)
      ensures c == EncodeEvent(Data())
      ensures DecodeEvent(c) == Some(Data())
    {
      c := PutInt(map[], TAG_EVENT_ID, id);
      c := WritePos(c, TAG_SPAWN_POS, spawnPoint);
      var campFiresNBT: seq<Tag> := [];
      var i := 0;
      while i < |campFires|
        invariant 0 <= i <= |campFires|
        invariant campFiresNBT == PosListTags(campFires[..i])
      {
        PosListTagsSnoc(campFires[..i], campFires[i]);
        assert campFires[..i + 1] == campFires[..i] + [campFires[i]];
        campFiresNBT := campFiresNBT + [CompoundTag(WritePos(map[], TAG_POS, campFires[i]))];
        i := i + 1;
      }
      assert campFires[..i] == campFires;
      c := c[TAG_CAMPFIRE_LIST := ListTag(campFiresNBT)];
      c := PutInt(c, TAG_EVENT_STATUS, Ordinal(status));
      c := PutInt(c, TAG_DAYS_LEFT, daysToGo);
      c := WriteHorde(c, horde);
      c := WritePosList(c, TAG_WAYPOINT, wayPoints);
      EventRoundTrip(Data());
    }

    /**
      deserializeNBT: the campfires read are appended to the current ones;
      `ok` is false where the status ordinal is out of range, in which case the
      source throws after the id, horde, spawn point and campfires are read.
     */
    method DeserializeNBT(c: Compound) returns (ok: bool)
      modifies this`id, this`horde, this`spawnPoint, this`campFires, this`status, this`daysToGo, this`wayPoints
      ensures id == GetInt(c, TAG_EVENT_ID) && horde == ReadHorde(c) && spawnPoint == ReadPos(c, TAG_SPAWN_POS)
      ensures campFires == old(campFires) + ReadPosListTag(c, TAG_CAMPFIRE_LIST)
      ensures ok <==> StatusOfOrdinal(GetInt(c, TAG_EVENT_STATUS)).Some?
      ensures ok ==> status == StatusOfOrdinal(GetInt(c, TAG_EVENT_STATUS)).value &&
                     daysToGo == GetInt(c, TAG_DAYS_LEFT) && wayPoints == ReadPosListTag(c, TAG_WAYPOINT)
      ensures !ok ==> status == old(status) && daysToGo == old(daysToGo) && wayPoints == old(wayPoints)
    {
      id := GetInt(c, TAG_EVENT_ID);
      horde := ReadHorde(c);
      spawnPoint := ReadPos(c, TAG_SPAWN_POS);
      var list := GetCompoundList(c, TAG_CAMPFIRE_LIST);
      var i := 0;
      while i < |list|
        invariant 0 <= i <= |list|
        invariant campFires == old(campFires) + ReadPosList(list[..i])
        invariant id == GetInt(c, TAG_EVENT_ID) && horde == ReadHorde(c) && spawnPoint == ReadPos(c, TAG_SPAWN_POS)
        invariant status == old(status) && daysToGo == old(daysToGo) && wayPoints == old(wayPoints)
      {
        ReadPosListSnoc(list[..i], list[i]);
        assert list[..i + 1] == list[..i] + [list[i]];
        campFires := campFires + [ReadPos(list[i], TAG_POS)];
        i := i + 1;
      }
      assert list[..i] == list;
      var s := StatusOfOrdinal(GetInt(c, TAG_EVENT_STATUS));
      if s.None? {
        return false;
      }
      status := s.value;
      daysToGo := GetInt(c, TAG_DAYS_LEFT);
      wayPoints := ReadPosListTag(c, TAG_WAYPOINT);
      return true;
    }
  }
}
