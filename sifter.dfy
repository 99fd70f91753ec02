/**
  The sifter building (BuildingSifter): a daily sifting quota that grows
  with the building level, a counter of what was sifted today that is
  reset when the worker wakes up, and the two numbers sent to the client
  view.
 */
module Sifter {
  import opened Wrappers
  import opened JavaInt
  import opened Nbt
  import opened ByteBuf

  const BUILDING_LEVEL_MULTIPLIER: int := 64
  const MAX_BUILDING_LEVEL: nat := 5
  const TAG_CURRENT_DAILY: string := "currentDailyQuantity"

  /** getMaxDailyQuantity: unlimited from the top level on, level squared times 64 below it. */
  function MaxDailyQuantity(level: nat): (r: Int32)
    ensures level >= MAX_BUILDING_LEVEL ==> r == INT_MAX
    ensures level < MAX_BUILDING_LEVEL ==> r == level * level * BUILDING_LEVEL_MULTIPLIER
    ensures 0 <= r
  {
    if level >= MAX_BUILDING_LEVEL then INT_MAX
    else level * level * BUILDING_LEVEL_MULTIPLIER
  }

  /** The quota per level below the top: 0, 64, 256, 576, 1024. */
  lemma MaxDailyQuantityValues()
    ensures [MaxDailyQuantity(0), MaxDailyQuantity(1), MaxDailyQuantity(2), MaxDailyQuantity(3), MaxDailyQuantity(4)]
         == [0, 64, 256, 576, 1024]
  {
  }

  /** A higher building level never lowers the quota. */
  lemma MaxDailyQuantityMonotone(a: nat, b: nat)
    requires a <= b
    ensures MaxDailyQuantity(a) <= MaxDailyQuantity(b)
  {
  }

  class BuildingSifter {
    var buildingLevel: nat
    var currentDailyQuantity: Int32

    constructor (level: nat)
      ensures buildingLevel == level && currentDailyQuantity == 0
    {
      buildingLevel := level;
      currentDailyQuantity := 0;
    }

    function GetMaxDailyQuantity(): (r: Int32)
      reads this
      ensures r == MaxDailyQuantity(buildingLevel)
    {
      MaxDailyQuantity(buildingLevel)
    }

    function GetCurrentDailyQuantity(): (r: Int32)
      reads this
      ensures r == currentDailyQuantity
    {
      currentDailyQuantity
    }

    method SetCurrentDailyQuantity(q: Int32)
      modifies this`currentDailyQuantity
      ensures GetCurrentDailyQuantity() == q
    {
      currentDailyQuantity := q;
    }

    /** onWakeUp: a new day starts with nothing sifted. */
    method OnWakeUp()
      modifies this`currentDailyQuantity
      ensures GetCurrentDailyQuantity() == 0
    {
      currentDailyQuantity := 0;
    }

    /** serializeNBT over the compound the base building wrote. */
    method SerializeNBT(superCompound: Compound) returns (c: Compound)
      ensures c == PutInt(superCompound, TAG_CURRENT_DAILY, currentDailyQuantity)
      ensures GetInt(c, TAG_CURRENT_DAILY) == currentDailyQuantity
      ensures forall k :: k in superCompound && k != TAG_CURRENT_DAILY ==> k in c && c[k] == superCompound[k]
    {
      c := PutInt(superCompound, TAG_CURRENT_DAILY, currentDailyQuantity);
    }

    /** deserializeNBT; a missing or out-of-range entry reads as 0. */
    method DeserializeNBT(c: Compound)
      modifies this`currentDailyQuantity
      ensures currentDailyQuantity == ToInt32(GetInt(c, TAG_CURRENT_DAILY))
    {
      currentDailyQuantity := ToInt32(GetInt(c, TAG_CURRENT_DAILY));
    }

    /** serializeToView: the quota, then today's count. */
    method SerializeToView(buf: Buffer)
      modifies buf`data
      ensures buf.data == old(buf.data) + IntBytes(GetMaxDailyQuantity()) + IntBytes(GetCurrentDailyQuantity())
    {
      buf.WriteInt(GetMaxDailyQuantity());
      buf.WriteInt(GetCurrentDailyQuantity());
    }
  }

  /** An int read from a compound; the compound model holds unbounded ints, a Java compound only ints. */
  function ToInt32(v: int): (r: Int32)
    ensures INT_MIN <= v <= INT_MAX ==> r == v
  {
    if INT_MIN <= v <= INT_MAX then v else 0
  }

  /** The client-side view of the sifter. */
  class View {
    var maxDailyQuantity: Int32
    var currentDailyQuantity: Int32

    constructor ()
      ensures maxDailyQuantity == 0 && currentDailyQuantity == 0
    {
      maxDailyQuantity := 0;
      currentDailyQuantity := 0;
    }

    function GetMaxDailyQuantity(): Int32
      reads this
    {
      maxDailyQuantity
    }

    function GetCurrentDailyQuantity(): Int32
      reads this
    {
      currentDailyQuantity
    }

    /**
      deserialize: the quota, then today's count, in the order they were
      written; `ok` is false where a read runs past the buffer's end and the
      source throws (the quota may then already be set).
     */
    method Deserialize(buf: Buffer) returns (ok: bool)
      modifies this, buf`readerIndex
      ensures var start := old(buf.readerIndex);
        ok <==> start + 8 <= |buf.data|
      ensures var start := old(buf.readerIndex);
        ok ==> maxDailyQuantity == BytesInt(buf.data[start..start + 4]) &&
               currentDailyQuantity == BytesInt(buf.data[start + 4..start + 8]) &&
               buf.readerIndex == start + 8
      ensures !ok ==> currentDailyQuantity == old(currentDailyQuantity)
      ensures var start := old(buf.readerIndex);
        !ok && start + 4 <= |buf.data| ==>
          maxDailyQuantity == BytesInt(buf.data[start..start + 4]) && buf.readerIndex == start + 4
      ensures var start := old(buf.readerIndex);
        start + 4 > |buf.data| ==>
          maxDailyQuantity == old(maxDailyQuantity) && buf.readerIndex == start
    {
      var max := buf.ReadInt();
      if max.None? {
        return false;
      }
      maxDailyQuantity := max.value;
      var current := buf.ReadInt();
      if current.None? {
        return false;
      }
      currentDailyQuantity := current.value;
      return true;
    }
  }

  /** A building saved and loaded into another building (or itself) carries today's count over. */
  method NbtRoundTrip(building: BuildingSifter, superCompound: Compound, into: BuildingSifter)
    modifies into`currentDailyQuantity
    ensures into.GetCurrentDailyQuantity() == old(building.GetCurrentDailyQuantity())
  {
    var c := building.SerializeNBT(superCompound);
    into.DeserializeNBT(c);
  }

  /**
    A building's view data written into a fresh buffer and read by a fresh
    view: the view's getters give the building's quota and count.
   */
  method SyncView(building: BuildingSifter) returns (max: Int32, current: Int32)
    ensures max == MaxDailyQuantity(building.buildingLevel)
    ensures current == building.currentDailyQuantity
  {
    var buf := new Buffer();
    building.SerializeToView(buf);
    var view := new View();
    var ok := view.Deserialize(buf);
    var m := building.GetMaxDailyQuantity();
    var q := building.GetCurrentDailyQuantity();
    assert buf.data[0..4] == IntBytes(m);
    assert buf.data[4..8] == IntBytes(q);
    IntBytesRoundTrip(m);
    IntBytesRoundTrip(q);
    max := view.GetMaxDailyQuantity();
    current := view.GetCurrentDailyQuantity();
  }
}
