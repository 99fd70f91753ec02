/**
  The Norsemen raid (NorsemenRaidEvent), a horde raid whose raiders are
  chiefs (bosses), archers and shieldmaidens (normal raiders). It caps
  registration per category at the horde's counts and, on a raider's death,
  lowers the counts; the raid is done when the horde size reaches zero.
  The source extends HordeRaidEvent; here the event holds its horde event
  state as `base`.
 */
module NorsemenRaid {
  import opened Wrappers
  import opened Nbt
  import opened JavaInt
  import opened HordeRaid

  /** The three raider maps of a raid event, as values. */
  datatype Tracking = Tracking(boss: map<EntityId, Uuid>, archers: map<EntityId, Uuid>, normal: map<EntityId, Uuid>)

  function RoleMap(t: Tracking, role: Role): map<EntityId, Uuid>
  {
    match role
    case BossRole => t.boss
    case ArcherRole => t.archers
    case NormalRole => t.normal
  }

  /** The horde count a category is capped at. */
  function RoleCap(h: Horde, role: Role): int
  {
    match role
    case BossRole => h.numberOfBosses
    case ArcherRole => h.numberOfArchers
    case NormalRole => h.numberOfRaiders
  }

  /** `t` with `e` put into the map of `role`. */
  function Put(t: Tracking, role: Role, e: EntityId, u: Uuid): Tracking
  {
    match role
    case BossRole => t.(boss := t.boss[e := u])
    case ArcherRole => t.(archers := t.archers[e := u])
    case NormalRole => t.(normal := t.normal[e := u])
  }

  /** Every category holds no more raiders than its horde count. */
  predicate WithinCaps(t: Tracking, h: Horde)
  {
    forall role :: |RoleMap(t, role)| <= RoleCap(h, role)
  }

  /** What registerEntity does: the maps afterwards, and whether the entity was removed from the world. */
  datatype Registration = Registration(tracking: Tracking, removed: bool)

  /**
    registerEntity: a living raider of one of the three types joins its
    category while that category is below its count; every other entity
    (no mob, dead, another mob type, a full category) is removed.
   */
  function Register(t: Tracking, h: Horde, e: EntityId, info: EntityInfo): (r: Registration)
    ensures info.entityType == NotMob || !info.alive ==> r.removed
    ensures r.removed <==>
      !(info.alive && info.entityType.Raider? &&
        |RoleMap(t, info.entityType.role)| < RoleCap(h, info.entityType.role))
    ensures r.removed ==> r.tracking == t
    ensures !r.removed ==> r.tracking == Put(t, info.entityType.role, e, info.uuid)
    ensures forall role :: |RoleMap(r.tracking, role)| <= Max(|RoleMap(t, role)|, RoleCap(h, role))
  {
    if info.entityType == NotMob || !info.alive then Registration(t, true)
    else if info.entityType == Raider(BossRole) && |t.boss| < h.numberOfBosses then
      Registration(t.(boss := t.boss[e := info.uuid]), false)
    else if info.entityType == Raider(ArcherRole) && |t.archers| < h.numberOfArchers then
      Registration(t.(archers := t.archers[e := info.uuid]), false)
    else if info.entityType == Raider(NormalRole) && |t.normal| < h.numberOfRaiders then
      Registration(t.(normal := t.normal[e := info.uuid]), false)
    else Registration(t, true)
  }

  /** Registration keeps every category within its count. */
  lemma RegisterKeepsCaps(t: Tracking, h: Horde, e: EntityId, info: EntityInfo)
    requires WithinCaps(t, h)
    ensures WithinCaps(Register(t, h, e, info).tracking, h)
  {
  }

  /** What onEntityDeath does to the maps, the horde and the status. */
  datatype Death = Death(tracking: Tracking, horde: Horde, status: EventStatus)

  /** `h` with the count of `role` lowered by one. */
  function Lower(h: Horde, role: Role): Horde
  {
    match role
    case BossRole => h.(numberOfBosses := h.numberOfBosses - 1)
    case ArcherRole => h.(numberOfArchers := h.numberOfArchers - 1)
    case NormalRole => h.(numberOfRaiders := h.numberOfRaiders - 1)
  }

  /** `t` with `e` removed from the map of `role`. */
  function Forget(t: Tracking, role: Role, e: EntityId): Tracking
  {
    match role
    case BossRole => t.(boss := t.boss - {e})
    case ArcherRole => t.(archers := t.archers - {e})
    case NormalRole => t.(normal := t.normal - {e})
  }

  /**
    onEntityDeath: a non-mob is ignored; a mob's death lowers the horde size
    by one and, for a raider, its category's count, dropping it from its map;
    the raid is done when the horde size reaches exactly zero.
   */
  function OnDeath(t: Tracking, h: Horde, status: EventStatus, e: EntityId, info: EntityInfo): (r: Death)
    ensures info.entityType == NotMob ==> r == Death(t, h, status)
    ensures info.entityType != NotMob ==>
      r.horde.hordeSize == h.hordeSize - 1 && r.horde.initialSize == h.initialSize &&
      r.status == (if h.hordeSize - 1 == 0 then Done else status)
    ensures info.entityType.Raider? ==>
      var role := info.entityType.role;
      r.tracking == Forget(t, role, e) && e !in RoleMap(r.tracking, role) &&
      RoleCap(r.horde, role) == RoleCap(h, role) - 1 &&
      forall other :: other != role ==> RoleCap(r.horde, other) == RoleCap(h, other)
    ensures info.entityType == OtherMob ==>
      r.tracking == t && forall role :: RoleCap(r.horde, role) == RoleCap(h, role)
  {
    if info.entityType == NotMob then Death(t, h, status)
    else
      var t' := if info.entityType.Raider? then Forget(t, info.entityType.role, e) else t;
      var h' := if info.entityType.Raider? then Lower(h, info.entityType.role) else h;
      var h'' := h'.(hordeSize := h'.hordeSize - 1);
      Death(t', h'', if h''.hordeSize == 0 then Done else status)
  }

  /** The death of a raider tracked in its own category keeps every category within its count. */
  lemma DeathKeepsCaps(t: Tracking, h: Horde, status: EventStatus, e: EntityId, info: EntityInfo)
    requires WithinCaps(t, h)
    requires info.entityType.Raider? && e in RoleMap(t, info.entityType.role)
    ensures WithinCaps(OnDeath(t, h, status, e, info).tracking, OnDeath(t, h, status, e, info).horde)
  {
  }

  /** While the categories are within their counts, a top-up never asks for a negative number of raiders. */
  lemma TopUpNonNegative(t: Tracking, h: Horde, spawnPos: Option<Pos>)
    requires WithinCaps(t, h)
    ensures forall q <- TopUp(h, |t.boss|, |t.archers|, |t.normal|, spawnPos) :: q.count >= 0
  {
    assert |RoleMap(t, BossRole)| <= RoleCap(h, BossRole);
    assert |RoleMap(t, ArcherRole)| <= RoleCap(h, ArcherRole);
    assert |RoleMap(t, NormalRole)| <= RoleCap(h, NormalRole);
  }

  class NorsemenRaidEvent {
    const base: HordeRaidEvent

    constructor (id: int)
      ensures fresh(base)
      ensures base.id == id && base.status == Starting && base.daysToGo == INITIAL_DAYS
      ensures base.campFires == [] && base.wayPoints == [] && base.respawns == []
      ensures Maps() == Tracking(map[], map[], map[])
    {
      base := new HordeRaidEvent(id);
    }

    function Maps(): Tracking
      reads base
    {
      Tracking(base.boss, base.archers, base.normal)
    }

    /** registerEntity; `removed` says whether the entity was removed from the world. */
    method RegisterEntity(e: EntityId, info: EntityInfo) returns (removed: bool)
      modifies base`boss, base`archers, base`normal
      ensures Registration(Maps(), removed) == Register(old(Maps()), base.horde, e, info)
    {
      if info.entityType == NotMob || !info.alive {
        return true;
      }
      if info.entityType == Raider(BossRole) && |base.boss| < base.horde.numberOfBosses {
        base.boss := base.boss[e := info.uuid];
        return false;
      }
      if info.entityType == Raider(ArcherRole) && |base.archers| < base.horde.numberOfArchers {
        base.archers := base.archers[e := info.uuid];
        return false;
      }
      if info.entityType == Raider(NormalRole) && |base.normal| < base.horde.numberOfRaiders {
        base.normal := base.normal[e := info.uuid];
        return false;
      }
      return true;
    }

    /** onEntityDeath (the horde message and raid bar aside). */
    method OnEntityDeath(e: EntityId, info: EntityInfo)
      modifies base`boss, base`archers, base`normal, base`horde, base`status
      ensures Death(Maps(), base.horde, base.status) == OnDeath(old(Maps()), old(base.horde), old(base.status), e, info)
    {
      if info.entityType == NotMob {
        return;
      }
      if info.entityType == Raider(BossRole) {
        base.boss := base.boss - {e};
        base.horde := base.horde.(numberOfBosses := base.horde.numberOfBosses - 1);
      }
      if info.entityType == Raider(ArcherRole) {
        base.archers := base.archers - {e};
        base.horde := base.horde.(numberOfArchers := base.horde.numberOfArchers - 1);
      }
      if info.entityType == Raider(NormalRole) {
        base.normal := base.normal - {e};
        base.horde := base.horde.(numberOfRaiders := base.horde.numberOfRaiders - 1);
      }
      base.horde := base.horde.(hordeSize := base.horde.hordeSize - 1);
      if base.horde.hordeSize == 0 {
        base.status := Done;
      }
    }

    /**
      loadFromNBT: a new event (with the colony's next event id) deserialised
      from `c`; `ok` is false where the source throws on the status ordinal.
     */
    static method LoadFromNbt(nextId: int, c: Compound) returns (event: NorsemenRaidEvent, ok: bool)
      ensures fresh(event.base)
      ensures ok <==> DecodeEvent(c).Some?
      ensures ok ==> DecodeEvent(c) == Some(event.base.Data())
    {
      event := new NorsemenRaidEvent(nextId);
      ok := event.base.DeserializeNBT(c);
      assert event.base.campFires == ReadPosListTag(c, TAG_CAMPFIRE_LIST);
    }
  }

  /** Saving an event and loading it back gives an event with the same serialised fields. */
  method SaveAndReload(event: NorsemenRaidEvent, nextId: int) returns (loaded: NorsemenRaidEvent)
    ensures fresh(loaded.base)
    ensures loaded.base.Data() == event.base.Data()
  {
    var c := event.base.SerializeNBT();
    var ok;
    loaded, ok := NorsemenRaidEvent.LoadFromNbt(nextId, c);
  }
}
