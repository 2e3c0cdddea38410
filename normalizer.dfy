/**
 * The normalisation service: every ingredient quantity converted to metric and rounded,
 * a directory of recipe files read in one batch (failing fast, or skipping files that
 * fail with a domain error), the result sorted by name, and the clean export form.
 */
module Normalizer {
  import opened Wrappers
  import opened Text
  import opened Numbers
  import opened Document
  import opened Models
  import opened Exceptions
  import opened Units
  import RecipeFields
  import opened Registry

  /** The unit an ingredient shows after conversion: none when the converted unit is "". */
  function ShownUnit(converted: ConversionResult): Option<string> {
    if converted.unit == "" then None else Some(converted.unit)
  }

  /**
   * `_normalize_ingredient`: an ingredient without a quantity is returned as it is;
   * otherwise its quantity is converted, rounded and stored with the converted unit.
   * The rebuilt ingredient passes its validators again.
   */
  function NormalizeIngredient(units: UnitRegistry, i: Ingredient): (r: Ingredient)
    requires ValidIngredient(i)
    ensures ValidIngredient(r)
    ensures r.item == i.item && r.comment == i.comment
    ensures i.quantity.None? ==> r == i
    ensures i.quantity.Some? ==>
      var converted := Convert(units, Value(i.quantity.value), i.unit);
      r.quantity == Some(RoundQuantity(converted.quantity)) && r.unit == ShownUnit(converted)
  {
    if i.quantity.None? then i
    else
      var converted := Convert(units, Value(i.quantity.value), i.unit);
      ConvertNonNegative(units, Value(i.quantity.value), i.unit);
      RoundQuantityNonNegative(converted.quantity);
      StripTrimmed(i.item);
      var built := NewIngredient(i.item, Some(RoundQuantity(converted.quantity)), ShownUnit(converted), i.comment);
      if built.Success? then built.value else assert false; i
  }

  /**
   * The unit an ingredient ends up with: none for a missing or blank unit, "ml" or
   * "liter" for a volume, "gr" for a weight, and the ingredient's own unit otherwise.
   */
  lemma NormalizedUnit(units: UnitRegistry, i: Ingredient)
    requires ValidIngredient(i) && i.quantity.Some?
    ensures i.unit.None? || IsBlank(i.unit.value) ==> NormalizeIngredient(units, i).unit == None
    ensures i.unit.Some? && !IsBlank(i.unit.value) && KnownAs(units, i.unit.value, Volume) ==>
      NormalizeIngredient(units, i).unit == Some("ml") || NormalizeIngredient(units, i).unit == Some("liter")
    ensures i.unit.Some? && !IsBlank(i.unit.value) && KnownAs(units, i.unit.value, Mass) ==>
      NormalizeIngredient(units, i).unit == Some("gr")
    ensures i.unit.Some? && !IsBlank(i.unit.value) && !KnownAs(units, i.unit.value, Volume) && !KnownAs(units, i.unit.value, Mass)
      ==> NormalizeIngredient(units, i).unit == i.unit
  {
    var r := NormalizeIngredient(units, i);
    var c := Convert(units, Value(i.quantity.value), i.unit);
    assert r.unit == ShownUnit(c);
    if i.unit.Some? && !IsBlank(i.unit.value) {
      StripEmptyIffBlank(i.unit.value);
      assert i.unit.value != [];
    }
  }

  /**
   * A weight is shown in grams as the rounded gram amount: to the nearest integer from
   * 10 g up, cut down to hundredths below.
   */
  lemma NormalizedWeight(units: UnitRegistry, i: Ingredient)
    requires ValidIngredient(i) && i.quantity.Some? && i.unit.Some?
    requires !IsBlank(i.unit.value) && KnownAs(units, i.unit.value, Mass)
    ensures NormalizeIngredient(units, i).quantity.Some?
    ensures
      var grams := Value(i.quantity.value) * units[NormalizeUnitName(i.unit.value)].factor;
      var shown := Value(NormalizeIngredient(units, i).quantity.GetOr(Int(0)));
      && (grams >= 10.0 ==> grams - 0.5 <= shown <= grams + 0.5)
      && (grams < 10.0 ==> shown <= grams < shown + 0.01)
  {
    var grams := Value(i.quantity.value) * units[NormalizeUnitName(i.unit.value)].factor;
    var c := Convert(units, Value(i.quantity.value), i.unit);
    ConvertKnown(units, Value(i.quantity.value), i.unit.value);
    assert c.quantity == grams;
    assert NormalizeIngredient(units, i).quantity == Some(RoundQuantity(c.quantity));
  }

  /** An ingredient with a quantity is shown as its conversion, rounded. */
  lemma NormalizeConverted(units: UnitRegistry, i: Ingredient, converted: ConversionResult)
    requires ValidIngredient(i) && i.quantity.Some?
    requires Convert(units, Value(i.quantity.value), i.unit) == converted
    ensures NormalizeIngredient(units, i) == Ingredient(i.item, Some(RoundQuantity(converted.quantity)), ShownUnit(converted), i.comment)
  {
  }

  /** 453.59237 g is shown as 454 g. */
  lemma RoundPoundInGrams()
    ensures RoundQuantity(453.59237) == Int(454)
  {
    assert RoundHalfEven(453.59237) == 454;
  }

  /** 1.0 is shown as the int 1. */
  lemma RoundOne()
    ensures RoundQuantity(1.0) == Int(1)
  {
    assert (1.0 * 100.0).Floor == 100;
    assert TruncateToInt(1.0) == 1;
  }

  /** One diced onion: the quantity 1.0 read from the file is shown as 1, and the comment is kept. */
  lemma NormalizeKeepsCommentExample(units: UnitRegistry)
    ensures NormalizeIngredient(units, Ingredient("onion", Some(Float(1.0)), None, Some("diced")))
      == Ingredient("onion", Some(Int(1)), None, Some("diced"))
  {
    var i := Ingredient("onion", Some(Float(1.0)), None, Some("diced"));
    assert Convert(units, 1.0, None) == ConversionResult(1.0, "");
    RoundOne();
    NormalizeConverted(units, i, ConversionResult(1.0, ""));
  }

  /**
   * One pound of butter is shown as 454 g, with any unit table in which a pound is
   * 453.59237 g, as it is in `Units.Registry` (`Units.PoundRegistered`).
   */
  lemma NormalizeButterExample(units: UnitRegistry)
    requires "pound" in units && units["pound"] == UnitDefinition(Mass, 453.59237)
    ensures NormalizeIngredient(units, Ingredient("butter", Some(Int(1)), Some("pound"), None))
      == Ingredient("butter", Some(Int(454)), Some("gr"), None)
  {
    assert Lower("pound") == "pound";
    ConvertPlain(units, 1.0, "pound", UnitDefinition(Mass, 453.59237));
    RoundPoundInGrams();
    NormalizeConverted(units, Ingredient("butter", Some(Int(1)), Some("pound"), None), ConversionResult(453.59237, "gr"));
  }

  /** `[self._normalize_ingredient(ing) for ing in ingredients]` */
  function NormalizeIngredients(units: UnitRegistry, ingredients: seq<Ingredient>): (r: seq<Ingredient>)
    requires forall k | 0 <= k < |ingredients| :: ValidIngredient(ingredients[k])
    ensures |r| == |ingredients|
    ensures forall k | 0 <= k < |r| :: r[k] == NormalizeIngredient(units, ingredients[k]) && ValidIngredient(r[k])
  {
    if ingredients == [] then []
    else [NormalizeIngredient(units, ingredients[0])] + NormalizeIngredients(units, ingredients[1..])
  }

  /**
   * `_normalize_recipe`: the same name and preparations, and each ingredient normalised,
   * one for one and in order. The rebuilt recipe passes its validators again.
   */
  function NormalizeRecipe(units: UnitRegistry, recipe: Recipe): (r: Recipe)
    requires ValidRecipe(recipe)
    ensures ValidRecipe(r)
    ensures r.name == recipe.name && r.preparations == recipe.preparations
    ensures |r.ingredients| == |recipe.ingredients|
    ensures forall k | 0 <= k < |r.ingredients| :: r.ingredients[k] == NormalizeIngredient(units, recipe.ingredients[k])
  {
    var ingredients := NormalizeIngredients(units, recipe.ingredients);
    StripTrimmed(recipe.name);
    var built := NewRecipe(recipe.name, ingredients, recipe.preparations);
    if built.Success? then built.value else assert false; recipe
  }

  /** A recipe none of whose ingredients has a quantity is left as it is. */
  lemma NormalizeRecipeWithoutQuantities(units: UnitRegistry, recipe: Recipe)
    requires ValidRecipe(recipe)
    requires forall k | 0 <= k < |recipe.ingredients| :: recipe.ingredients[k].quantity.None?
    ensures NormalizeRecipe(units, recipe) == recipe
  {
    assert NormalizeRecipe(units, recipe).ingredients == recipe.ingredients;
  }

  // Sorting by name

  /** Python's `a < b` on strings: code point by code point, a proper prefix first. */
  predicate Below(a: string, b: string)
    decreases |a|
  {
    if a == [] then b != []
    else b != [] && (a[0] < b[0] || (a[0] == b[0] && Below(a[1..], b[1..])))
  }

  lemma {:induction false} BelowIrreflexive(a: string)
    ensures !Below(a, a)
    decreases |a|
  {
    if a != [] {
      BelowIrreflexive(a[1..]);
    }
  }

  lemma {:induction false} BelowTransitive(a: string, b: string, c: string)
    requires Below(a, b) && Below(b, c)
    ensures Below(a, c)
    decreases |a|
  {
    if a != [] && a[0] == b[0] && b[0] == c[0] {
      BelowTransitive(a[1..], b[1..], c[1..]);
    }
  }

  lemma {:induction false} BelowTotal(a: string, b: string)
    requires a != b
    ensures Below(a, b) || Below(b, a)
    decreases |a|
  {
    if a != [] && b != [] && a[0] == b[0] {
      assert a == [a[0]] + a[1..] && b == [b[0]] + b[1..];
      BelowTotal(a[1..], b[1..]);
    }
  }

  /** The sort key: the lower-cased name. */
  function Key(recipe: Recipe): string {
    Lower(recipe.name)
  }

  /** Non-increasing by key. */
  predicate SortedDescending(recipes: seq<Recipe>) {
    forall i, j | 0 <= i < j < |recipes| :: !Below(Key(recipes[i]), Key(recipes[j]))
  }

  /**
   * Places `recipe` into a list sorted by descending key: after every recipe whose key
   * is not below its own, so recipes of equal key stay in the order they came.
   */
  function Insert(recipe: Recipe, sorted: seq<Recipe>): seq<Recipe> {
    if sorted == [] then [recipe]
    else if Below(Key(sorted[0]), Key(recipe)) then [recipe] + sorted
    else [sorted[0]] + Insert(recipe, sorted[1..])
  }

  /** `_sort_recipes`: `sorted(recipes, key=name.lower(), reverse=True)`, a stable sort. */
  function SortRecipes(recipes: seq<Recipe>): seq<Recipe> {
    if recipes == [] then []
    else Insert(recipes[|recipes| - 1], SortRecipes(recipes[..|recipes| - 1]))
  }

  /** Inserting adds the recipe and loses none. */
  lemma {:induction false} InsertPermutes(recipe: Recipe, sorted: seq<Recipe>)
    ensures multiset(Insert(recipe, sorted)) == multiset(sorted) + multiset{recipe}
    decreases |sorted|
  {
    if sorted != [] && !Below(Key(sorted[0]), Key(recipe)) {
      InsertPermutes(recipe, sorted[1..]);
      assert sorted == [sorted[0]] + sorted[1..];
    }
  }

  /** Sorting one more recipe sorts it in: the permutation extends by that recipe. */
  lemma SortSnocPermutes(front: seq<Recipe>, last: Recipe)
    requires multiset(SortRecipes(front)) == multiset(front)
    ensures multiset(SortRecipes(front + [last])) == multiset(front + [last])
  {
    SortRecipesSnoc(front, last);
    InsertPermutes(last, SortRecipes(front));
  }

  /** The sort is a permutation: every recipe comes out exactly as often as it went in. */
  lemma {:induction false} SortRecipesPermutes(recipes: seq<Recipe>)
    ensures multiset(SortRecipes(recipes)) == multiset(recipes)
    decreases |recipes|
  {
    if recipes != [] {
      var front, last := recipes[..|recipes| - 1], recipes[|recipes| - 1];
      SortRecipesPermutes(front);
      SortSnocPermutes(front, last);
      assert recipes == front + [last];
    }
  }

  /** No key in `recipes` is above `key`. */
  predicate NoneAbove(key: string, recipes: seq<Recipe>) {
    forall k | 0 <= k < |recipes| :: !Below(key, Key(recipes[k]))
  }

  /** A recipe whose key is above none of a sorted list may go in front of it. */
  lemma SortedCons(recipe: Recipe, sorted: seq<Recipe>)
    requires NoneAbove(Key(recipe), sorted) && SortedDescending(sorted)
    ensures SortedDescending([recipe] + sorted)
  {
    var r := [recipe] + sorted;
    forall i, j | 0 <= i < j < |r| ensures !Below(Key(r[i]), Key(r[j])) {
      assert r[j] == sorted[j - 1];
      if i > 0 { assert r[i] == sorted[i - 1]; }
    }
  }

  /** Inserting a recipe whose key is not above `key` keeps every key of the list not above it. */
  lemma {:induction false} InsertNoneAbove(key: string, recipe: Recipe, sorted: seq<Recipe>)
    requires !Below(key, Key(recipe)) && NoneAbove(key, sorted)
    ensures NoneAbove(key, Insert(recipe, sorted))
    decreases |sorted|
  {
    if sorted != [] && !Below(Key(sorted[0]), Key(recipe)) {
      assert NoneAbove(key, sorted[1..]) by {
        forall k | 0 <= k < |sorted[1..]| ensures !Below(key, Key(sorted[1..][k])) {
          assert sorted[1..][k] == sorted[k + 1];
        }
      }
      InsertNoneAbove(key, recipe, sorted[1..]);
      var rest := Insert(recipe, sorted[1..]);
      var r := [sorted[0]] + rest;
      forall k | 0 <= k < |r| ensures !Below(key, Key(r[k])) {
        if k > 0 { assert r[k] == rest[k - 1]; }
      }
    } else if sorted != [] {
      var r := [recipe] + sorted;
      forall k | 0 <= k < |r| ensures !Below(key, Key(r[k])) {
        if k > 0 { assert r[k] == sorted[k - 1]; }
      }
    }
  }

  /** A recipe that goes in front has a key above none of the sorted list. */
  lemma FrontNoneAbove(recipe: Recipe, sorted: seq<Recipe>)
    requires sorted != [] && SortedDescending(sorted) && Below(Key(sorted[0]), Key(recipe))
    ensures NoneAbove(Key(recipe), sorted)
  {
    forall j | 0 <= j < |sorted| ensures !Below(Key(recipe), Key(sorted[j])) {
      if Below(Key(recipe), Key(sorted[j])) {
        BelowTransitive(Key(sorted[0]), Key(recipe), Key(sorted[j]));
        if j == 0 { BelowIrreflexive(Key(sorted[0])); }
      }
    }
  }

  lemma {:induction false} InsertSorted(recipe: Recipe, sorted: seq<Recipe>)
    requires SortedDescending(sorted)
    ensures SortedDescending(Insert(recipe, sorted))
    decreases |sorted|
  {
    if sorted == [] {
    } else if Below(Key(sorted[0]), Key(recipe)) {
      FrontNoneAbove(recipe, sorted);
      SortedCons(recipe, sorted);
    } else {
      SortedTail(sorted);
      InsertSorted(recipe, sorted[1..]);
      assert NoneAbove(Key(sorted[0]), sorted[1..]) by {
        forall k | 0 <= k < |sorted[1..]| ensures !Below(Key(sorted[0]), Key(sorted[1..][k])) {
          assert sorted[1..][k] == sorted[k + 1];
        }
      }
      InsertNoneAbove(Key(sorted[0]), recipe, sorted[1..]);
      SortedCons(sorted[0], Insert(recipe, sorted[1..]));
    }
  }

  /** The sorted list is in non-increasing order of lower-cased name. */
  lemma {:induction false} SortRecipesSorted(recipes: seq<Recipe>)
    ensures SortedDescending(SortRecipes(recipes))
    decreases |recipes|
  {
    if recipes != [] {
      SortRecipesSorted(recipes[..|recipes| - 1]);
      InsertSorted(recipes[|recipes| - 1], SortRecipes(recipes[..|recipes| - 1]));
    }
  }

  /** The recipes of the given key, in order. */
  function WithKey(recipes: seq<Recipe>, key: string): seq<Recipe> {
    if recipes == [] then []
    else (if Key(recipes[0]) == key then [recipes[0]] else []) + WithKey(recipes[1..], key)
  }

  lemma {:induction false} WithKeyAppend(a: seq<Recipe>, b: seq<Recipe>, key: string)
    ensures WithKey(a + b, key) == WithKey(a, key) + WithKey(b, key)
    decreases |a|
  {
    if a == [] {
      assert a + b == b;
    } else {
      var c := a + b;
      var head := if Key(a[0]) == key then [a[0]] else [];
      assert c[0] == a[0] && c[1..] == a[1..] + b;
      assert WithKey(c, key) == head + WithKey(a[1..] + b, key);
      assert WithKey(a, key) == head + WithKey(a[1..], key);
      WithKeyAppend(a[1..], b, key);
      assert head + (WithKey(a[1..], key) + WithKey(b, key)) == (head + WithKey(a[1..], key)) + WithKey(b, key);
    }
  }

  lemma {:induction false} WithKeyNone(recipes: seq<Recipe>, key: string)
    requires forall k | 0 <= k < |recipes| :: Key(recipes[k]) != key
    ensures WithKey(recipes, key) == []
    decreases |recipes|
  {
    if recipes != [] {
      WithKeyNone(recipes[1..], key);
    }
  }

  lemma SortedTail(sorted: seq<Recipe>)
    requires sorted != [] && SortedDescending(sorted)
    ensures SortedDescending(sorted[1..])
  {
    forall i, j | 0 <= i < j < |sorted[1..]| ensures !Below(Key(sorted[1..][i]), Key(sorted[1..][j])) {
      assert sorted[1..][i] == sorted[i + 1] && sorted[1..][j] == sorted[j + 1];
    }
  }

  /** A recipe whose key is above every key of a sorted list shares its key with none of them. */
  lemma KeyAboveAll(recipe: Recipe, sorted: seq<Recipe>)
    requires sorted != [] && SortedDescending(sorted) && Below(Key(sorted[0]), Key(recipe))
    ensures WithKey(sorted, Key(recipe)) == []
  {
    var key := Key(recipe);
    forall k | 0 <= k < |sorted| ensures Key(sorted[k]) != key {
      if k == 0 {
        BelowIrreflexive(key);
      }
    }
    WithKeyNone(sorted, key);
  }

  /** Inserting in front keeps the order within each key. */
  lemma InsertInFrontStable(recipe: Recipe, sorted: seq<Recipe>, key: string)
    requires sorted != [] && SortedDescending(sorted) && Below(Key(sorted[0]), Key(recipe))
    ensures WithKey([recipe] + sorted, key) == WithKey(sorted, key) + WithKey([recipe], key)
  {
    WithKeyAppend([recipe], sorted, key);
    assert [recipe][1..] == [];
    if Key(recipe) == key {
      KeyAboveAll(recipe, sorted);
      assert WithKey(sorted, key) == [];
    } else {
      assert WithKey([recipe], key) == [];
    }
  }

  /** Inserting places the new recipe after every earlier one of the same key. */
  lemma {:induction false} InsertStable(recipe: Recipe, sorted: seq<Recipe>, key: string)
    requires SortedDescending(sorted)
    ensures WithKey(Insert(recipe, sorted), key) == WithKey(sorted, key) + WithKey([recipe], key)
    decreases |sorted|
  {
    if sorted == [] {
      assert WithKey(sorted, key) == [];
    } else if Below(Key(sorted[0]), Key(recipe)) {
      InsertInFrontStable(recipe, sorted, key);
    } else {
      SortedTail(sorted);
      InsertStable(recipe, sorted[1..], key);
      var rest := Insert(recipe, sorted[1..]);
      assert Insert(recipe, sorted) == [sorted[0]] + rest;
      assert ([sorted[0]] + rest)[0] == sorted[0];
      assert ([sorted[0]] + rest)[1..] == rest;
    }
  }

  /**
   * The sort is stable: for every key, the recipes of that key come out in the order
   * they went in.
   */
  lemma {:induction false} SortRecipesStable(recipes: seq<Recipe>, key: string)
    ensures WithKey(SortRecipes(recipes), key) == WithKey(recipes, key)
    decreases |recipes|
  {
    if recipes != [] {
      var front, last := recipes[..|recipes| - 1], recipes[|recipes| - 1];
      SortRecipesStable(front, key);
      SortRecipesSorted(front);
      InsertStable(last, SortRecipes(front), key);
      assert recipes == front + [last];
      WithKeyAppend(front, [last], key);
    }
  }

  lemma SortRecipesSnoc(recipes: seq<Recipe>, last: Recipe)
    ensures SortRecipes(recipes + [last]) == Insert(last, SortRecipes(recipes))
  {
    assert (recipes + [last])[..|recipes|] == recipes;
  }

  lemma InsertAfterFirst(recipe: Recipe, sorted: seq<Recipe>)
    requires sorted != [] && !Below(Key(sorted[0]), Key(recipe))
    ensures Insert(recipe, sorted) == [sorted[0]] + Insert(recipe, sorted[1..])
  {
  }

  lemma ExampleKeys()
    ensures Key(Recipe("zebra", [], [])) == "zebra"
    ensures Key(Recipe("apple", [], [])) == "apple"
    ensures Key(Recipe("mango", [], [])) == "mango"
    ensures !Below("zebra", "apple") && !Below("zebra", "mango") && Below("apple", "mango")
  {
    assert Lower("zebra") == "zebra";
    assert Lower("apple") == "apple";
    assert Lower("mango") == "mango";
  }

  /** Two recipes already in order stay in order. */
  lemma SortTwo(a: Recipe, b: Recipe)
    requires !Below(Key(a), Key(b))
    ensures SortRecipes([a, b]) == [a, b]
  {
    assert [a, b][..1] == [a];
    assert [a][..0] == [];
    assert SortRecipes([a]) == [a];
    assert [a][1..] == [];
    assert Insert(b, [a]) == [a] + [b];
  }

  /** A recipe keyed between the two of a sorted pair goes between them. */
  lemma InsertBetween(a: Recipe, b: Recipe, c: Recipe)
    requires !Below(Key(a), Key(c)) && Below(Key(b), Key(c))
    ensures Insert(c, [a, b]) == [a, c, b]
  {
    InsertAfterFirst(c, [a, b]);
    assert [a, b][1..] == [b];
    assert Insert(c, [b]) == [c, b];
  }

  /** Three recipes whose keys are ordered first, third, second come out in that order. */
  lemma SortThree(a: Recipe, b: Recipe, c: Recipe)
    requires !Below(Key(a), Key(b)) && !Below(Key(a), Key(c)) && Below(Key(b), Key(c))
    ensures SortRecipes([a, b, c]) == [a, c, b]
  {
    SortTwo(a, b);
    SortRecipesSnoc([a, b], c);
    assert [a, b] + [c] == [a, b, c];
    InsertBetween(a, b, c);
  }

  /** zebra, apple, mango come out as zebra, mango, apple. */
  lemma SortRecipesExample()
    ensures SortRecipes([Recipe("zebra", [], []), Recipe("apple", [], []), Recipe("mango", [], [])])
      == [Recipe("zebra", [], []), Recipe("mango", [], []), Recipe("apple", [], [])]
  {
    ExampleKeys();
    SortThree(Recipe("zebra", [], []), Recipe("apple", [], []), Recipe("mango", [], []));
  }

  /** Names that differ only in case sort as equal, so they keep their order. */
  lemma SortRecipesCaseTie()
    ensures SortRecipes([Recipe("rice", [], []), Recipe("Rice", [], [])])
      == [Recipe("rice", [], []), Recipe("Rice", [], [])]
  {
    assert Key(Recipe("rice", [], [])) == "rice" && Key(Recipe("Rice", [], [])) == "rice";
    BelowIrreflexive("rice");
    SortTwo(Recipe("rice", [], []), Recipe("Rice", [], []));
  }

  // Export

  /** What a recipe looks like once exported. */
  function ExportedRecipe(recipe: Recipe): Recipe {
    Recipe(recipe.name, ExportedAll(recipe.ingredients), recipe.preparations)
  }

  /** `_recipes_to_dict`: the clean dump of each recipe, in order. */
  function RecipesToDict(recipes: seq<Recipe>): (r: seq<Json>)
    ensures |r| == |recipes|
  {
    seq(|recipes|, k requires 0 <= k < |recipes| => RecipeDump(recipes[k]))
  }

  /** Reads the export back, in order (the partner of `RecipesToDict`). */
  function RecipesOfDict(items: seq<Json>): Option<seq<Recipe>> {
    if items == [] then Some([])
    else
      match (RecipeOfDump(items[0]), RecipesOfDict(items[1..]))
      case (Some(recipe), Some(rest)) => Some([recipe] + rest)
      case _ => None
  }

  /** Reading back a non-empty export: the first recipe, then the rest. */
  lemma RecipesOfDictCons(item: Json, items: seq<Json>, recipe: Recipe, rest: seq<Recipe>)
    requires RecipeOfDump(item) == Some(recipe) && RecipesOfDict(items) == Some(rest)
    ensures RecipesOfDict([item] + items) == Some([recipe] + rest)
  {
    assert ([item] + items)[0] == item && ([item] + items)[1..] == items;
  }

  /** The exported form of each recipe, in order. */
  function ExportedRecipes(recipes: seq<Recipe>): (r: seq<Recipe>)
    ensures |r| == |recipes|
    ensures forall k | 0 <= k < |r| :: r[k] == ExportedRecipe(recipes[k])
  {
    if recipes == [] then [] else [ExportedRecipe(recipes[0])] + ExportedRecipes(recipes[1..])
  }

  /** The export keeps every recipe, in order, with the exported form of each ingredient. */
  lemma {:induction false} RecipesToDictRoundTrip(recipes: seq<Recipe>)
    ensures RecipesOfDict(RecipesToDict(recipes)) == Some(ExportedRecipes(recipes))
    decreases |recipes|
  {
    if recipes == [] {
      assert RecipesToDict(recipes) == [];
    } else {
      var rest := recipes[1..];
      assert RecipesToDict(recipes) == [RecipeDump(recipes[0])] + RecipesToDict(rest);
      assert RecipeOfDump(RecipeDump(recipes[0])) == Some(ExportedRecipe(recipes[0])) by {
        RecipeDumpRoundTrip(recipes[0]);
      }
      RecipesToDictRoundTrip(rest);
      RecipesOfDictCons(RecipeDump(recipes[0]), RecipesToDict(rest), ExportedRecipe(recipes[0]), ExportedRecipes(rest));
    }
  }

  // The batch over a directory

  const NotADirectory := "Input path is not a directory: "

  /** A directory path, whether it is a directory, and its entries in listing order. */
  datatype Directory = Directory(path: string, isDirectory: bool, files: seq<FileEntry>)

  /** Whether the batch reads a file: a regular file whose suffix, exactly as written, is advertised. */
  predicate Selected(extensions: set<string>, file: FileEntry) {
    file.isFile && Suffix(file.path) in extensions
  }

  /** `_normalize_file`: parse through the registry, then normalise. */
  function NormalizeFile(parsers: seq<Parser>, units: UnitRegistry, file: FileEntry): (r: Result<Recipe, Exception>)
    ensures r.Success? ==> ValidRecipe(r.value)
    ensures r.Failure? <==> ParseFile(parsers, file).Failure?
    ensures r.Failure? ==> r.error == ParseFile(parsers, file).error
  {
    var parsed := ParseFile(parsers, file);
    if parsed.Success? then Success(NormalizeRecipe(units, parsed.value)) else Failure(parsed.error)
  }

  /** What one directory entry contributes to the batch. */
  datatype Outcome = Ignored | Processed(path: string, result: Result<Recipe, Exception>)

  function OutcomeOf(parsers: seq<Parser>, units: UnitRegistry, file: FileEntry): (r: Outcome)
    ensures r.Ignored? <==> !Selected(AdvertisedUnion(parsers), file)
  {
    if Selected(AdvertisedUnion(parsers), file) then Processed(file.path, NormalizeFile(parsers, units, file))
    else Ignored
  }

  function Outcomes(parsers: seq<Parser>, units: UnitRegistry, files: seq<FileEntry>): (r: seq<Outcome>)
    ensures |r| == |files|
    ensures forall k | 0 <= k < |files| :: r[k] == OutcomeOf(parsers, units, files[k])
  {
    if files == [] then [] else [OutcomeOf(parsers, units, files[0])] + Outcomes(parsers, units, files[1..])
  }

  /** The recipes and the skipped errors gathered so far. */
  datatype Batch = Batch(recipes: seq<Recipe>, errors: seq<(string, Exception)>)

  /** An error ends the batch unless it is a domain error and errors are being skipped. */
  predicate Fatal(e: Exception, skipErrors: bool) {
    !(IsRecipeNormalizerError(e) && skipErrors)
  }

  /** One pass of the loop of `normalize_directory`: what one entry does to the batch so far. */
  function Step(so: Result<Batch, Exception>, outcome: Outcome, skipErrors: bool): Result<Batch, Exception> {
    match so
    case Failure(e) => Failure(e)
    case Success(batch) =>
      match outcome
      case Ignored => Success(batch)
      case Processed(path, Success(recipe)) => Success(Batch(batch.recipes + [recipe], batch.errors))
      case Processed(path, Failure(e)) =>
        if Fatal(e, skipErrors) then Failure(e)
        else Success(Batch(batch.recipes, batch.errors + [(path, e)]))
  }

  /** The loop of `normalize_directory`, one entry after the other. */
  function Fold(outcomes: seq<Outcome>, skipErrors: bool): Result<Batch, Exception>
    decreases |outcomes|
  {
    if outcomes == [] then Success(Batch([], []))
    else Step(Fold(outcomes[..|outcomes| - 1], skipErrors), outcomes[|outcomes| - 1], skipErrors)
  }

  /** The batch after the first `i + 1` entries is the batch after `i` entries, then one step. */
  lemma FoldPrefix(outcomes: seq<Outcome>, i: nat, skipErrors: bool)
    requires i < |outcomes|
    ensures Fold(outcomes[..i + 1], skipErrors) == Step(Fold(outcomes[..i], skipErrors), outcomes[i], skipErrors)
  {
    assert outcomes[..i + 1][..i] == outcomes[..i];
  }

  /** The recipes of the processed entries that succeeded, in order (front to back). */
  function Recipes(outcomes: seq<Outcome>): seq<Recipe> {
    if outcomes == [] then []
    else
      (if outcomes[0].Processed? && outcomes[0].result.Success? then [outcomes[0].result.value] else [])
      + Recipes(outcomes[1..])
  }

  /** The processed entries that failed, with their errors, in order. */
  function Errors(outcomes: seq<Outcome>): seq<(string, Exception)> {
    if outcomes == [] then []
    else
      (if outcomes[0].Processed? && outcomes[0].result.Failure? then [(outcomes[0].path, outcomes[0].result.error)] else [])
      + Errors(outcomes[1..])
  }

  /** The first error that ends the batch, if any. */
  function FirstFatal(outcomes: seq<Outcome>, skipErrors: bool): Option<Exception> {
    if outcomes == [] then None
    else if outcomes[0].Processed? && outcomes[0].result.Failure? && Fatal(outcomes[0].result.error, skipErrors) then
      Some(outcomes[0].result.error)
    else FirstFatal(outcomes[1..], skipErrors)
  }

  lemma {:induction false} RecipesAppend(outcomes: seq<Outcome>, last: Outcome)
    ensures Recipes(outcomes + [last]) == Recipes(outcomes) + Recipes([last])
    decreases |outcomes|
  {
    if outcomes == [] {
      assert outcomes + [last] == [last];
    } else {
      assert (outcomes + [last])[0] == outcomes[0];
      assert (outcomes + [last])[1..] == outcomes[1..] + [last];
      RecipesAppend(outcomes[1..], last);
    }
  }

  lemma {:induction false} ErrorsAppend(outcomes: seq<Outcome>, last: Outcome)
    ensures Errors(outcomes + [last]) == Errors(outcomes) + Errors([last])
    decreases |outcomes|
  {
    if outcomes == [] {
      assert outcomes + [last] == [last];
    } else {
      assert (outcomes + [last])[0] == outcomes[0];
      assert (outcomes + [last])[1..] == outcomes[1..] + [last];
      ErrorsAppend(outcomes[1..], last);
    }
  }

  lemma {:induction false} FirstFatalAppend(outcomes: seq<Outcome>, last: Outcome, skipErrors: bool)
    ensures FirstFatal(outcomes + [last], skipErrors) ==
      if FirstFatal(outcomes, skipErrors).Some? then FirstFatal(outcomes, skipErrors) else FirstFatal([last], skipErrors)
    decreases |outcomes|
  {
    if outcomes == [] {
      assert outcomes + [last] == [last];
    } else {
      assert (outcomes + [last])[0] == outcomes[0];
      assert (outcomes + [last])[1..] == outcomes[1..] + [last];
      FirstFatalAppend(outcomes[1..], last, skipErrors);
    }
  }

  /** One entry on its own: what it adds, or the error that ends the batch. */
  lemma SingleOutcome(last: Outcome, skipErrors: bool)
    ensures Recipes([last]) == if last.Processed? && last.result.Success? then [last.result.value] else []
    ensures Errors([last]) == if last.Processed? && last.result.Failure? then [(last.path, last.result.error)] else []
    ensures FirstFatal([last], skipErrors) ==
      if last.Processed? && last.result.Failure? && Fatal(last.result.error, skipErrors) then Some(last.result.error) else None
  {
    assert [last][1..] == [];
  }

  /**
   * The batch fails with the first error that ends it; without one it holds every
   * successful recipe and every skipped error, in directory order.
   */
  lemma {:induction false} FoldMeaning(outcomes: seq<Outcome>, skipErrors: bool)
    ensures Fold(outcomes, skipErrors) ==
      match FirstFatal(outcomes, skipErrors)
      case Some(e) => Failure(e)
      case None => Success(Batch(Recipes(outcomes), Errors(outcomes)))
    decreases |outcomes|
  {
    if outcomes != [] {
      var front, last := outcomes[..|outcomes| - 1], outcomes[|outcomes| - 1];
      assert outcomes == front + [last];
      FoldMeaning(front, skipErrors);
      RecipesAppend(front, last);
      ErrorsAppend(front, last);
      FirstFatalAppend(front, last, skipErrors);
      SingleOutcome(last, skipErrors);
      if FirstFatal(front, skipErrors).None? {
        assert Fold(front, skipErrors) == Success(Batch(Recipes(front), Errors(front)));
        assert Recipes(front) + [] == Recipes(front);
        assert Errors(front) + [] == Errors(front);
      }
    }
  }

  /** Once the batch has failed, the entries after the failure change nothing. */
  lemma {:induction false} FoldFailureSticks(outcomes: seq<Outcome>, n: nat, skipErrors: bool)
    requires 0 < n <= |outcomes| && Fold(outcomes[..n], skipErrors).Failure?
    ensures Fold(outcomes, skipErrors) == Fold(outcomes[..n], skipErrors)
    decreases |outcomes| - n
  {
    if n < |outcomes| {
      var m := n + 1;
      assert outcomes[..m][..m - 1] == outcomes[..n];
      FoldFailureSticks(outcomes, m, skipErrors);
    } else {
      assert outcomes[..n] == outcomes;
    }
  }

  /**
   * `normalize_directory`, as a function of the registered parsers: not a directory is a
   * ValueError; then the batch; an empty result is an EmptyDirectoryError; otherwise the
   * recipes sorted by name.
   */
  function NormalizedDirectory(parsers: seq<Parser>, units: UnitRegistry, dir: Directory, skipErrors: bool):
    (r: Result<seq<Recipe>, Exception>)
    ensures !dir.isDirectory ==> r == Failure(ValueError(NotADirectory + dir.path))
    ensures r.Success? ==> r.value != []
  {
    if !dir.isDirectory then Failure(ValueError(NotADirectory + dir.path))
    else
      match Fold(Outcomes(parsers, units, dir.files), skipErrors)
      case Failure(e) => Failure(e)
      case Success(batch) =>
        if batch.recipes == [] then Failure(Domain(EmptyDirectoryError(dir.path)))
        else Success(SortRecipes(batch.recipes))
  }

  /**
   * The whole batch: the first error that ends it is the result; otherwise the
   * successful recipes, sorted, unless there are none.
   */
  lemma NormalizedDirectoryMeaning(parsers: seq<Parser>, units: UnitRegistry, dir: Directory, skipErrors: bool)
    requires dir.isDirectory
    ensures
      var outcomes := Outcomes(parsers, units, dir.files);
      NormalizedDirectory(parsers, units, dir, skipErrors) ==
        if FirstFatal(outcomes, skipErrors).Some? then Failure(FirstFatal(outcomes, skipErrors).value)
        else if Recipes(outcomes) == [] then Failure(Domain(EmptyDirectoryError(dir.path)))
        else Success(SortRecipes(Recipes(outcomes)))
  {
    FoldMeaning(Outcomes(parsers, units, dir.files), skipErrors);
  }

  /**
   * A successful batch is every successful recipe, each once, sorted by descending
   * lower-cased name, with recipes of equal name in directory order.
   */
  lemma NormalizedDirectoryResult(parsers: seq<Parser>, units: UnitRegistry, dir: Directory, skipErrors: bool, key: string)
    requires NormalizedDirectory(parsers, units, dir, skipErrors).Success?
    ensures
      var result := NormalizedDirectory(parsers, units, dir, skipErrors).value;
      var recipes := Recipes(Outcomes(parsers, units, dir.files));
      && multiset(result) == multiset(recipes)
      && SortedDescending(result)
      && WithKey(result, key) == WithKey(recipes, key)
  {
    NormalizedDirectoryMeaning(parsers, units, dir, skipErrors);
    var recipes := Recipes(Outcomes(parsers, units, dir.files));
    SortRecipesPermutes(recipes);
    SortRecipesSorted(recipes);
    SortRecipesStable(recipes, key);
  }

  /** A non-directory fails before any file is looked at, and not with a domain error. */
  lemma NotADirectoryExample(units: UnitRegistry, skipErrors: bool)
    ensures
      var r := NormalizedDirectory(DefaultParsers, units, Directory("/nonexistent/path", false, []), skipErrors);
      r == Failure(ValueError("Input path is not a directory: /nonexistent/path")) && !IsRecipeNormalizerError(r.error)
  {
    assert NotADirectory + "/nonexistent/path" == "Input path is not a directory: /nonexistent/path";
  }

  /** The files the batch reads, in order. */
  function SelectedFiles(extensions: set<string>, files: seq<FileEntry>): seq<FileEntry> {
    if files == [] then []
    else (if Selected(extensions, files[0]) then [files[0]] else []) + SelectedFiles(extensions, files[1..])
  }

  /** The outcomes of the entries the batch reads. */
  function Relevant(outcomes: seq<Outcome>): seq<Outcome> {
    if outcomes == [] then []
    else (if outcomes[0].Ignored? then [] else [outcomes[0]]) + Relevant(outcomes[1..])
  }

  /** Ignored entries add no recipe and no error that ends the batch. */
  lemma {:induction false} RelevantOnly(outcomes: seq<Outcome>, skipErrors: bool)
    ensures Recipes(Relevant(outcomes)) == Recipes(outcomes)
    ensures FirstFatal(Relevant(outcomes), skipErrors) == FirstFatal(outcomes, skipErrors)
    decreases |outcomes|
  {
    if outcomes == [] {
      assert Relevant(outcomes) == [];
    } else {
      var rest := Relevant(outcomes[1..]);
      RelevantOnly(outcomes[1..], skipErrors);
      if !outcomes[0].Ignored? {
        var kept := [outcomes[0]] + rest;
        assert Relevant(outcomes) == kept;
        assert kept[0] == outcomes[0] && kept[1..] == rest;
      } else {
        assert Relevant(outcomes) == [] + rest;
        assert [] + rest == rest;
      }
    }
  }

  lemma OutcomesCons(parsers: seq<Parser>, units: UnitRegistry, file: FileEntry, files: seq<FileEntry>)
    ensures Outcomes(parsers, units, [file] + files) == [OutcomeOf(parsers, units, file)] + Outcomes(parsers, units, files)
  {
    var all := [file] + files;
    assert all[0] == file && all[1..] == files;
  }

  lemma RelevantCons(outcome: Outcome, outcomes: seq<Outcome>)
    ensures Relevant([outcome] + outcomes) == (if outcome.Ignored? then [] else [outcome]) + Relevant(outcomes)
  {
    var all := [outcome] + outcomes;
    assert all[0] == outcome && all[1..] == outcomes;
  }

  lemma SelectedFilesCons(extensions: set<string>, file: FileEntry, files: seq<FileEntry>)
    ensures SelectedFiles(extensions, [file] + files)
      == (if Selected(extensions, file) then [file] else []) + SelectedFiles(extensions, files)
  {
    var all := [file] + files;
    assert all[0] == file && all[1..] == files;
  }

  /** The outcomes of the files the batch reads are the relevant outcomes of all the files. */
  lemma {:induction false} OutcomesOfSelected(parsers: seq<Parser>, units: UnitRegistry, files: seq<FileEntry>)
    ensures Outcomes(parsers, units, SelectedFiles(AdvertisedUnion(parsers), files)) == Relevant(Outcomes(parsers, units, files))
    decreases |files|
  {
    var extensions := AdvertisedUnion(parsers);
    if files != [] {
      var first, rest := files[0], files[1..];
      assert files == [first] + rest;
      OutcomesOfSelected(parsers, units, rest);
      OutcomesCons(parsers, units, first, rest);
      RelevantCons(OutcomeOf(parsers, units, first), Outcomes(parsers, units, rest));
      SelectedFilesCons(extensions, first, rest);
      if Selected(extensions, first) {
        OutcomesCons(parsers, units, first, SelectedFiles(extensions, rest));
      } else {
        assert [] + SelectedFiles(extensions, rest) == SelectedFiles(extensions, rest);
      }
    }
  }

  /** Entries that are not regular files with an advertised suffix do not change the result. */
  lemma NormalizedDirectoryIgnoresUnselected(parsers: seq<Parser>, units: UnitRegistry, dir: Directory, skipErrors: bool)
    requires dir.isDirectory
    ensures NormalizedDirectory(parsers, units, dir, skipErrors)
      == NormalizedDirectory(parsers, units, Directory(dir.path, true, SelectedFiles(AdvertisedUnion(parsers), dir.files)), skipErrors)
  {
    NormalizedDirectoryMeaning(parsers, units, dir, skipErrors);
    NormalizedDirectoryMeaning(parsers, units, Directory(dir.path, true, SelectedFiles(AdvertisedUnion(parsers), dir.files)), skipErrors);
    OutcomesOfSelected(parsers, units, dir.files);
    RelevantOnly(Outcomes(parsers, units, dir.files), skipErrors);
  }

  /** Without a successful recipe and without an error that ends it, the batch is an EmptyDirectoryError. */
  lemma NoRecipesIsEmptyDirectory(parsers: seq<Parser>, units: UnitRegistry, dir: Directory, skipErrors: bool)
    requires dir.isDirectory
    requires forall k | 0 <= k < |dir.files| :: !Selected(AdvertisedUnion(parsers), dir.files[k])
    ensures NormalizedDirectory(parsers, units, dir, skipErrors) == Failure(Domain(EmptyDirectoryError(dir.path)))
  {
    NormalizedDirectoryIgnoresUnselected(parsers, units, dir, skipErrors);
    SelectedNone(AdvertisedUnion(parsers), dir.files);
    assert Outcomes(parsers, units, []) == [];
  }

  lemma {:induction false} SelectedNone(extensions: set<string>, files: seq<FileEntry>)
    requires forall k | 0 <= k < |files| :: !Selected(extensions, files[k])
    ensures SelectedFiles(extensions, files) == []
    decreases |files|
  {
    if files != [] {
      SelectedNone(extensions, files[1..]);
    }
  }

  /** The default registry's batch reads a regular ".yaml" file. */
  lemma SelectsYamlFile(asXml: RecipeFields.Load, asYaml: RecipeFields.Load)
    ensures Selected(AdvertisedUnion(DefaultParsers), FileEntry("d/rice.yaml", true, asXml, asYaml))
  {
    DefaultAdvertised();
    SuffixOfYamlFile();
  }

  /** It ignores a ".txt" file. */
  lemma IgnoresTextFile(isFile: bool, asXml: RecipeFields.Load, asYaml: RecipeFields.Load)
    ensures !Selected(AdvertisedUnion(DefaultParsers), FileEntry("d/ignored.txt", isFile, asXml, asYaml))
  {
    DefaultAdvertised();
    SuffixOfTextFile();
  }

  /**
   * It ignores a ".XML" file, since the suffix is matched exactly, although the
   * registry would hand that file to the XML parser.
   */
  lemma IgnoresUpperCaseXmlFile(isFile: bool, asXml: RecipeFields.Load, asYaml: RecipeFields.Load)
    ensures !Selected(AdvertisedUnion(DefaultParsers), FileEntry("d/rice.XML", isFile, asXml, asYaml))
    ensures FirstSupporting(DefaultParsers, Suffix("d/rice.XML")) == Some(XmlRecipeParser)
  {
    DefaultAdvertised();
    SuffixOfXmlFile();
    DefaultDispatch();
  }

  /** `RecipeNormalizer`: the registry and the unit converter it was built with. */
  class RecipeNormalizer {
    const registry: ParserRegistry
    const units: UnitRegistry

    constructor(registry: ParserRegistry, units: UnitRegistry)
      ensures this.registry == registry && this.units == units
    {
      this.registry := registry;
      this.units := units;
    }

    /** `_normalize_file`: parse the file through the registry, then normalise the recipe. */
    method NormalizeEntry(file: FileEntry) returns (r: Result<Recipe, Exception>)
      ensures r == NormalizeFile(registry.parsers, units, file)
    {
      var parsed := registry.Parse(file);
      if parsed.Failure? {
        return Failure(parsed.error);
      }
      return Success(NormalizeRecipe(units, parsed.value));
    }

    /**
     * The body of the loop of `normalize_directory` for one entry: a selected file is
     * normalised; its recipe is appended, or its error recorded when `skipErrors` is set
     * and the error is a domain error, or raised otherwise. Other entries change nothing.
     */
    method Visit(file: FileEntry, extensions: set<string>, batch: Batch, skipErrors: bool)
      returns (next: Result<Batch, Exception>)
      requires extensions == AdvertisedUnion(registry.parsers)
      ensures next == Step(Success(batch), OutcomeOf(registry.parsers, units, file), skipErrors)
    {
      if file.isFile && Suffix(file.path) in extensions {
        var normalized := NormalizeEntry(file);
        if normalized.Success? {
          return Success(Batch(batch.recipes + [normalized.value], batch.errors));
        } else if IsRecipeNormalizerError(normalized.error) && skipErrors {
          return Success(Batch(batch.recipes, batch.errors + [(file.path, normalized.error)]));
        }
        return Failure(normalized.error);
      }
      return Success(batch);
    }

    /**
     * `normalize_directory`: reads the selected entries in listing order, appending each
     * normalised recipe; a failing file is recorded and skipped when `skipErrors` is set
     * and the error is a domain error, and ends the batch otherwise.
     */
    method NormalizeDirectory(dir: Directory, skipErrors: bool) returns (r: Result<seq<Recipe>, Exception>)
      ensures r == NormalizedDirectory(registry.parsers, units, dir, skipErrors)
    {
      if !dir.isDirectory {
        return Failure(ValueError(NotADirectory + dir.path));
      }
      var extensions := registry.GetSupportedExtensions();
      var batch := Batch([], []);
      ghost var outcomes := Outcomes(registry.parsers, units, dir.files);
      var i := 0;
      while i < |dir.files|
        invariant 0 <= i <= |dir.files|
        invariant Fold(outcomes[..i], skipErrors) == Success(batch)
      {
        FoldPrefix(outcomes, i, skipErrors);
        var next := Visit(dir.files[i], extensions, batch, skipErrors);
        if next.Failure? {
          FoldFailureSticks(outcomes, i + 1, skipErrors);
          return Failure(next.error);
        }
        batch := next.value;
        i := i + 1;
      }
      assert outcomes[..i] == outcomes;
      if batch.recipes == [] {
        return Failure(Domain(EmptyDirectoryError(dir.path)));
      }
      return Success(SortRecipes(batch.recipes));
    }
  }
}
