/**
  The compost barrel (TileEntityBarrel): it is filled with compostable items,
  weighted by the strength of their compost recipe; once full it counts compost
  ticks, and after TIMER_END / AVERAGE_TICKS of them it empties and is done;
  harvesting clears the done flag.
 */
module Barrel {
  import opened Wrappers
  import opened Nbt
  import opened JavaInt

  /** Capacity of a barrel, AbstractTileEntityBarrel.MAX_ITEMS (positive). */
  const MAX_ITEMS: int := 64
  /** Game ticks in two whole days. */
  const TIMER_END: int := 24000
  /** Average number of game ticks between two barrel updates. */
  const AVERAGE_TICKS: int := 20
  /** Compost ticks a full barrel needs before it is done: 1200. */
  const COMPOST_TICKS: int := TIMER_END / AVERAGE_TICKS
  /** Compost handed out when a player harvests a done barrel. */
  const HARVEST_COMPOST: nat := 6

  /** The three fields of a barrel. */
  datatype BarrelState = BarrelState(items: int, timer: int, done: bool)

  /** The range the barrel's own operations keep its fields in. */
  predicate Valid(b: BarrelState)
  {
    0 <= b.items <= MAX_ITEMS && 0 <= b.timer < COMPOST_TICKS
  }

  /** A compost recipe, reduced to its strength: how much one item counts for. */
  datatype CompostRecipe = CompostRecipe(strength: int)

  /** doBarrelCompostTick: advance the timer; at the end, empty the barrel and mark it done. */
  function AfterCompostTick(b: BarrelState): BarrelState
  {
    if b.timer + 1 >= COMPOST_TICKS then BarrelState(0, 0, true)
    else b.(timer := b.timer + 1)
  }

  /** updateTick (the particle effect aside): compost only when full. */
  function AfterUpdate(b: BarrelState): (r: BarrelState)
    ensures r != b ==> b.items == MAX_ITEMS
    ensures b.items != MAX_ITEMS ==> r == b
    ensures Valid(b) ==> Valid(r)
    ensures b.items == MAX_ITEMS && b.timer + 1 < COMPOST_TICKS ==>
              r.items == b.items && r.done == b.done && r.timer == b.timer + 1
    ensures b.items == MAX_ITEMS && b.timer + 1 >= COMPOST_TICKS ==>
              r.items == 0 && r.timer == 0 && r.done
  {
    if b.items == MAX_ITEMS then AfterCompostTick(b) else b
  }

  /** `n` barrel updates in a row. */
  function Updates(b: BarrelState, n: nat): BarrelState
    decreases n
  {
    if n == 0 then b else Updates(AfterUpdate(b), n - 1)
  }

  /** A full barrel counts one compost tick per update while the cycle is not over. */
  lemma {:induction false} FullBarrelCounts(b: BarrelState, k: nat)
    requires Valid(b) && b.items == MAX_ITEMS
    requires b.timer + k < COMPOST_TICKS
    decreases k
    ensures Updates(b, k) == b.(timer := b.timer + k)
  {
    if k > 0 {
      FullBarrelCounts(AfterUpdate(b), k - 1);
    }
  }

  /**
    A barrel that has just been filled (timer 0) is done after exactly
    COMPOST_TICKS updates, and is empty with its timer reset; after one update
    fewer it is still full and, if it was not done, still not done.
   */
  lemma FullCompostCycle(b: BarrelState)
    requires Valid(b) && b.items == MAX_ITEMS && b.timer == 0
    ensures Updates(b, COMPOST_TICKS - 1) == b.(timer := COMPOST_TICKS - 1)
    ensures Updates(b, COMPOST_TICKS) == BarrelState(0, 0, true)
  {
    FullBarrelCounts(b, COMPOST_TICKS - 1);
    var c := b.(timer := COMPOST_TICKS - 1);
    assert Updates(c, 1) == Updates(AfterUpdate(c), 0);
    UpdatesSplit(b, COMPOST_TICKS - 1, 1);
  }

  lemma {:induction false} UpdatesSplit(b: BarrelState, m: nat, n: nat)
    ensures Updates(b, m + n) == Updates(Updates(b, m), n)
    decreases m
  {
    if m > 0 {
      UpdatesSplit(AfterUpdate(b), m - 1, n);
    }
  }

  /** What consumeNeededItems moves: strength added to the barrel, items taken from the stack. */
  datatype Fill = Fill(added: int, taken: int)

  /**
    consumeNeededItems: the barrel takes what it still needs, up to the weighted
    worth of the held stack; the stack shrinks by the whole items that covers,
    rounded down.
   */
  function ConsumeNeeded(items: int, count: int, factor: int): (f: Fill)
    requires factor > 0 && count >= 0
    ensures items <= MAX_ITEMS ==> 0 <= f.added <= MAX_ITEMS - items
    ensures f.added <= count * factor
    ensures f.added == MAX_ITEMS - items || f.added == count * factor
    ensures items <= MAX_ITEMS ==> 0 <= f.taken <= count
    ensures items <= MAX_ITEMS ==> f.taken * factor <= f.added < f.taken * factor + factor
    ensures items <= MAX_ITEMS ==> items + f.added == MAX_ITEMS || f.taken == count
  {
    var itemsToRemove := Min(MAX_ITEMS - items, count * factor);
    var taken := Div(itemsToRemove, factor);
    TakenBounds(itemsToRemove, count, factor, taken);
    Fill(itemsToRemove, taken)
  }

  lemma TakenBounds(removed: int, count: int, factor: int, taken: int)
    requires factor > 0 && count >= 0 && taken == Div(removed, factor)
    ensures 0 <= removed <= count * factor ==> 0 <= taken <= count
    ensures removed == count * factor ==> taken == count
  {
    if 0 <= removed <= count * factor {
      CancelFactor(taken, count, factor);
      CancelFactorStrict(count, taken + 1, factor);
    }
  }

  lemma CancelFactor(a: int, b: int, f: int)
    requires f > 0 && a * f <= b * f
    ensures a <= b
  {
  }

  lemma CancelFactorStrict(a: int, b: int, f: int)
    requires f > 0
    ensures a * f < b * f ==> a < b
  {
  }

  /** save: the three fields under their own keys. */
  function Save(b: BarrelState, c: Compound): Compound
  {
    PutBool(PutInt(PutInt(c, "items", b.items), "timer", b.timer), "done", b.done)
  }

  /** load: read the three fields back. */
  function Load(c: Compound): BarrelState
  {
    BarrelState(GetInt(c, "items"), GetInt(c, "timer"), GetBool(c, "done"))
  }

  /** save then load restores items, timer and done exactly, whatever else the compound holds. */
  lemma SaveLoad(b: BarrelState, c: Compound)
    ensures Load(Save(b, c)) == b
  {
  }

  /** A held item stack, reduced to its size; the barrel shrinks it in place. */
  class ItemStack {
    var count: int

    constructor (count: int)
      ensures this.count == count
    {
      this.count := count;
    }
  }

  class TileEntityBarrel {
    var done: bool
    var items: int
    var timer: int

    constructor ()
      ensures State() == BarrelState(0, 0, false)
    {
      done, items, timer := false, 0, 0;
    }

    function State(): BarrelState
      reads this
    {
      BarrelState(items, timer, done)
    }

    /** updateTick */
    method UpdateTick()
      modifies this
      ensures State() == AfterUpdate(old(State()))
    {
      if items == MAX_ITEMS {
        DoBarrelCompostTick();
      }
    }

    /** doBarrelCompostTick */
    method DoBarrelCompostTick()
      modifies this
      ensures State() == AfterCompostTick(old(State()))
    {
      timer := timer + 1;
      if timer >= TIMER_END / AVERAGE_TICKS {
        timer := 0;
        items := 0;
        done := true;
      }
    }

    /**
      useBarrel: `recipe` is the compost recipe found for the held item, if any;
      `compost` is the number of compost items handed to the player.
     */
    method UseBarrel(stack: ItemStack, recipe: Option<CompostRecipe>) returns (took: bool, compost: nat)
      requires stack.count >= 0
      requires recipe.Some? ==> recipe.value.strength > 0
      modifies this, stack
      ensures old(done) ==>
        took && compost == HARVEST_COMPOST && !done &&
        items == old(items) && timer == old(timer) && stack.count == old(stack.count)
      ensures !old(done) && (recipe.None? || old(items) == MAX_ITEMS) ==>
        !took && compost == 0 && State() == old(State()) && stack.count == old(stack.count)
      ensures !old(done) && recipe.Some? && old(items) != MAX_ITEMS ==>
        var f := ConsumeNeeded(old(items), old(stack.count), recipe.value.strength);
        took && compost == 0 && done == old(done) && timer == old(timer) &&
        items == old(items) + f.added && stack.count == old(stack.count) - f.taken
    {
      if done {
        done := false;
        return true, HARVEST_COMPOST;
      }
      if recipe.None? {
        return false, 0;
      }
      if items == MAX_ITEMS {
        return false, 0;
      }
      ConsumeNeededItems(stack, recipe.value);
      return true, 0;
    }

    /** consumeNeededItems */
    method ConsumeNeededItems(stack: ItemStack, recipe: CompostRecipe)
      requires stack.count >= 0 && recipe.strength > 0
      modifies this`items, stack
      ensures var f := ConsumeNeeded(old(items), old(stack.count), recipe.strength);
        items == old(items) + f.added && stack.count == old(stack.count) - f.taken
    {
      var factor := recipe.strength;
      var availableItems := stack.count * factor;
      var neededItems := MAX_ITEMS - items;
      var itemsToRemove := Min(neededItems, availableItems);
      items := items + itemsToRemove;
      itemsToRemove := Div(itemsToRemove, factor);
      stack.count := stack.count - itemsToRemove;
    }

    /** addItem: the worker's way of filling the barrel. */
    method AddItem(stack: ItemStack, recipe: Option<CompostRecipe>) returns (ok: bool)
      requires stack.count >= 0
      requires recipe.Some? ==> recipe.value.strength > 0
      modifies this, stack
      ensures ok <==> recipe.Some? && old(items) < MAX_ITEMS
      ensures done == old(done) && timer == old(timer)
      ensures !ok ==> items == old(items) && stack.count == old(stack.count)
      ensures ok ==>
        var f := ConsumeNeeded(old(items), old(stack.count), recipe.value.strength);
        items == old(items) + f.added && stack.count == old(stack.count) - f.taken
    {
      if recipe.Some? && items < MAX_ITEMS {
        ConsumeNeededItems(stack, recipe.value);
        return true;
      }
      return false;
    }

    /**
      retrieveCompost: `amount` stands for the compost count the source computes
      from its floating-point multiplier; 0 is the empty stack.
     */
    method RetrieveCompost(amount: nat) returns (compost: nat)
      modifies this`done
      ensures old(done) ==> compost == amount && !done
      ensures !old(done) ==> compost == 0 && !done
    {
      if done {
        done := false;
        return amount;
      }
      return 0;
    }

    /** checkIfWorking: the barrel is composting exactly when it is full. */
    function CheckIfWorking(): (working: bool)
      reads this
      ensures working <==> items == MAX_ITEMS
    {
      items == MAX_ITEMS
    }

    /** save */
    method SaveTo(compound: Compound) returns (c: Compound)
      ensures c == Save(State(), compound)
      ensures Load(c) == State()
    {
      c := PutInt(compound, "items", items);
      c := PutInt(c, "timer", timer);
      c := PutBool(c, "done", done);
      SaveLoad(State(), compound);
    }

    /** load */
    method LoadFrom(compound: Compound)
      modifies this
      ensures State() == Load(compound)
    {
      items := GetInt(compound, "items");
      timer := GetInt(compound, "timer");
      done := GetBool(compound, "done");
    }
  }
}
