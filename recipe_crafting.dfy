/**
  The vanilla recipe crafting type (RecipeCraftingType): the recipes of one
  vanilla recipe type, filtered by an optional predicate, each converted
  into the colony's generic recipe form; recipes without a result, whose
  conversion yields nothing or no inputs, or whose conversion fails, are
  skipped.
 */
module RecipeCrafting {
  import opened Wrappers

  /** A vanilla recipe, as far as the filter looks at it. */
  datatype Recipe = Recipe(id: string, resultEmpty: bool)

  /** A generic recipe: the inputs the colony must provide. */
  datatype GenericRecipe = GenericRecipe(source: string, inputs: seq<string>)

  /** What GenericRecipe.of does with a recipe: a generic recipe, null, or an exception. */
  datatype Conversion = Converted(generic: GenericRecipe) | NullRecipe | Failed

  /** The crafting type's filter: a missing predicate accepts every recipe. */
  predicate Accepts(predicate_: Option<Recipe -> bool>, r: Recipe)
  {
    predicate_.None? || predicate_.value(r)
  }

  /** Whether tryAddingVanillaRecipe adds a generic recipe for `r`. */
  predicate Usable(r: Recipe, convert: Recipe -> Conversion)
  {
    !r.resultEmpty && convert(r).Converted? && convert(r).generic.inputs != []
  }

  /** What tryAddingVanillaRecipe appends for `r`: its generic recipe or nothing. */
  function Contribution(r: Recipe, convert: Recipe -> Conversion): (out: seq<GenericRecipe>)
    ensures |out| <= 1
    ensures out != [] <==> Usable(r, convert)
    ensures out != [] ==> out == [convert(r).generic]
  {
    if r.resultEmpty then []
    else match convert(r)
      case Converted(g) => if g.inputs == [] then [] else [g]
      case NullRecipe => []
      case Failed => []
  }

  /** Whether findRecipes keeps a generic recipe for `r`. */
  predicate Kept(predicate_: Option<Recipe -> bool>, r: Recipe, convert: Recipe -> Conversion)
  {
    Accepts(predicate_, r) && Usable(r, convert)
  }

  /** The generic recipes findRecipes returns for the recipes `rs`, in their order. */
  function Filtered(rs: seq<Recipe>, predicate_: Option<Recipe -> bool>, convert: Recipe -> Conversion): (out: seq<GenericRecipe>)
    ensures |out| <= |rs|
    decreases |rs|
  {
    if rs == [] then []
    else
      var last := rs[|rs| - 1];
      Filtered(rs[..|rs| - 1], predicate_, convert) + (if Accepts(predicate_, last) then Contribution(last, convert) else [])
  }

  /** The positions in `rs` of the recipes that are kept, in increasing order. */
  function Sources(rs: seq<Recipe>, predicate_: Option<Recipe -> bool>, convert: Recipe -> Conversion): seq<nat>
    decreases |rs|
  {
    if rs == [] then []
    else
      Sources(rs[..|rs| - 1], predicate_, convert) + (if Kept(predicate_, rs[|rs| - 1], convert) then [|rs| - 1] else [])
  }

  /**
    The output is exactly the kept recipes' generic recipes, in input order:
    the k-th output comes from the k-th kept recipe, and a recipe is kept
    exactly when the predicate accepts it, it has a result and its
    conversion yields a recipe with inputs.
   */
  lemma {:induction false} FilteredSources(rs: seq<Recipe>, predicate_: Option<Recipe -> bool>, convert: Recipe -> Conversion)
    ensures var out, src := Filtered(rs, predicate_, convert), Sources(rs, predicate_, convert);
      |src| == |out| &&
      (forall k :: 0 <= k < |src| ==>
        src[k] < |rs| && Kept(predicate_, rs[src[k]], convert) && out[k] == convert(rs[src[k]]).generic) &&
      (forall j, k :: 0 <= j < k < |src| ==> src[j] < src[k]) &&
      (forall i :: 0 <= i < |rs| ==> (Kept(predicate_, rs[i], convert) <==> i in src))
    decreases |rs|
  {
    if rs != [] {
      var init := rs[..|rs| - 1];
      var last := rs[|rs| - 1];
      FilteredSources(init, predicate_, convert);
      var out0, src0 := Filtered(init, predicate_, convert), Sources(init, predicate_, convert);
      var out, src := Filtered(rs, predicate_, convert), Sources(rs, predicate_, convert);
      assert forall i :: 0 <= i < |init| ==> rs[i] == init[i];
      if Kept(predicate_, last, convert) {
        assert out == out0 + [convert(last).generic];
        assert src == src0 + [|rs| - 1];
      } else {
        assert out == out0;
        assert src == src0;
      }
    }
  }

  /** Filtering a concatenation filters each part: a recipe's fate depends on that recipe alone. */
  lemma {:induction false} FilteredAppend(a: seq<Recipe>, b: seq<Recipe>, predicate_: Option<Recipe -> bool>, convert: Recipe -> Conversion)
    ensures Filtered(a + b, predicate_, convert) == Filtered(a, predicate_, convert) + Filtered(b, predicate_, convert)
    decreases |b|
  {
    if b == [] {
      assert a + b == a;
    } else {
      var b0 := b[..|b| - 1];
      FilteredAppend(a, b0, predicate_, convert);
      assert (a + b)[..|a + b| - 1] == a + b0;
      assert (a + b)[|a + b| - 1] == b[|b| - 1];
    }
  }

  /**
    A skipped recipe (rejected by the predicate, without a result, converted
    to null or to a recipe without inputs, or whose conversion throws) is
    left out and the recipes after it are still converted.
   */
  lemma SkipIsLocal(a: seq<Recipe>, r: Recipe, b: seq<Recipe>, predicate_: Option<Recipe -> bool>, convert: Recipe -> Conversion)
    requires !Kept(predicate_, r, convert)
    ensures Filtered(a + [r] + b, predicate_, convert) == Filtered(a, predicate_, convert) + Filtered(b, predicate_, convert)
  {
    var ar := a + [r];
    var fa, fb := Filtered(a, predicate_, convert), Filtered(b, predicate_, convert);
    assert Filtered(ar, predicate_, convert) == fa by {
      FilteredAppend(a, [r], predicate_, convert);
      SkippedAlone(r, predicate_, convert);
    }
    FilteredAppend(ar, b, predicate_, convert);
  }

  /** A recipe that is not kept contributes nothing on its own. */
  lemma SkippedAlone(r: Recipe, predicate_: Option<Recipe -> bool>, convert: Recipe -> Conversion)
    requires !Kept(predicate_, r, convert)
    ensures Filtered([r], predicate_, convert) == []
  {
  }

  /** A missing predicate behaves as one that accepts every recipe. */
  lemma {:induction false} NoPredicateAcceptsAll(rs: seq<Recipe>, convert: Recipe -> Conversion)
    ensures Filtered(rs, None, convert) == Filtered(rs, Some(_ => true), convert)
    decreases |rs|
  {
    if rs != [] {
      NoPredicateAcceptsAll(rs[..|rs| - 1], convert);
    }
  }

  /** tryAddingVanillaRecipe: the list with `recipe`'s generic recipe appended, when it has one. */
  method TryAddingVanillaRecipe(recipes: seq<GenericRecipe>, recipe: Recipe, convert: Recipe -> Conversion)
    returns (out: seq<GenericRecipe>)
    ensures out == recipes + Contribution(recipe, convert)
  {
    out := recipes;
    if recipe.resultEmpty {
      return;
    }
    var generic := convert(recipe);
    if !generic.Converted? || generic.generic.inputs == [] {
      return;
    }
    out := out + [generic.generic];
  }

  /** findRecipes over the recipes of the type, in the recipe manager's order. */
  method FindRecipes(all: seq<Recipe>, predicate_: Option<Recipe -> bool>, convert: Recipe -> Conversion)
    returns (recipes: seq<GenericRecipe>)
    ensures recipes == Filtered(all, predicate_, convert)
  {
    recipes := [];
    var i := 0;
    while i < |all|
      invariant 0 <= i <= |all|
      invariant recipes == Filtered(all[..i], predicate_, convert)
    {
      assert all[..i + 1][..i] == all[..i];
      if predicate_.Some? && !predicate_.value(all[i]) {
        i := i + 1;
        continue;
      }
      recipes := TryAddingVanillaRecipe(recipes, all[i], convert);
      i := i + 1;
    }
    assert all[..i] == all;
  }
}
