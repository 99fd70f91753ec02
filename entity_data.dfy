/**
  The temporary store CommonProxy keeps for entity data between a player's
  death and respawn: a map from a name (player UUID plus property name) to
  an NBT compound, where reading an entry also removes it.
 */
module EntityData {
  import opened Wrappers
  import opened Nbt

  /** The static playerPropertiesData map, as an object of its own. */
  class PlayerPropertiesStash {
    var data: map<string, Compound>

    constructor ()
      ensures data == map[]
    {
      data := map[];
    }

    /** storeEntityData: the compound replaces whatever was stored under `name`. */
    method StoreEntityData(name: string, compound: Compound)
      modifies this
      ensures data == old(data)[name := compound]
      ensures name in data && data[name] == compound
      ensures forall other :: other != name ==> (other in data <==> other in old(data))
      ensures forall other :: other != name && other in data ==> data[other] == old(data)[other]
    {
      data := data[name := compound];
    }

    /** getEntityData: the compound stored under `name`, None when there is none, and the entry is gone. */
    method GetEntityData(name: string) returns (r: Option<Compound>)
      modifies this
      ensures name in old(data) ==> r == Some(old(data)[name])
      ensures name !in old(data) ==> r == None
      ensures data == old(data) - {name}
      ensures name !in data
      ensures forall other :: other != name ==> (other in data <==> other in old(data))
      ensures forall other :: other != name && other in data ==> data[other] == old(data)[other]
    {
      if name in data {
        r := Some(data[name]);
      } else {
        r := None;
      }
      data := data - {name};
    }
  }

  /**
    A death stores the data and the respawn reads it: the respawn gets the
    stored compound, a second read gets nothing, and other names keep their
    entries.
   */
  method DeathAndRespawn(stash: PlayerPropertiesStash, name: string, compound: Compound)
    returns (onRespawn: Option<Compound>, again: Option<Compound>)
    modifies stash
    ensures onRespawn == Some(compound)
    ensures again == None
    ensures stash.data == old(stash.data) - {name}
  {
    stash.StoreEntityData(name, compound);
    onRespawn := stash.GetEntityData(name);
    again := stash.GetEntityData(name);
  }

  /** A second store under a name replaces the first: the later compound is what the respawn gets. */
  method StoreTwice(stash: PlayerPropertiesStash, name: string, first: Compound, second: Compound)
    returns (onRespawn: Option<Compound>)
    modifies stash
    ensures onRespawn == Some(second)
  {
    stash.StoreEntityData(name, first);
    stash.StoreEntityData(name, second);
    onRespawn := stash.GetEntityData(name);
  }
}
