/**
 * The recipe value model: an ingredient and a recipe, the validators that run when
 * one is built, the quantity serializer, and the "clean" dump used for export.
 */
module Models {
  import opened Wrappers
  import opened Text
  import opened Numbers
  import opened Document

  datatype Ingredient = Ingredient(item: string, quantity: Option<Number>, unit: Option<string>, comment: Option<string>)

  datatype Recipe = Recipe(name: string, ingredients: seq<Ingredient>, preparations: seq<string>)

  /** One failed field validator: the field and the validator's message. */
  datatype FieldError = FieldError(field: string, message: string)

  const ItemEmpty := "Item name cannot be empty"
  const QuantityNegative := "Quantity cannot be negative"
  const NameEmpty := "Recipe name cannot be empty"

  /** A quantity is absent or not negative. */
  predicate ValidQuantity(quantity: Option<Number>) {
    quantity.None? || Value(quantity.value) >= 0.0
  }

  /** What every stored ingredient satisfies: a stripped, non-empty item and a valid quantity. */
  predicate ValidIngredient(i: Ingredient) {
    i.item != [] && Trimmed(i.item) && ValidQuantity(i.quantity)
  }

  /** What every stored recipe satisfies: a stripped, non-empty name and valid ingredients. */
  predicate ValidRecipe(r: Recipe) {
    && r.name != [] && Trimmed(r.name)
    && forall k | 0 <= k < |r.ingredients| :: ValidIngredient(r.ingredients[k])
  }

  /**
   * `Ingredient(item=…, quantity=…, unit=…, comment=…)`: every field validator runs,
   * and the failures are reported together; otherwise the item is stored stripped.
   */
  function NewIngredient(item: string, quantity: Option<Number> := None, unit: Option<string> := None,
                         comment: Option<string> := None): (r: Result<Ingredient, seq<FieldError>>)
    ensures r.Success? <==> !IsBlank(item) && ValidQuantity(quantity)
    ensures r.Success? ==> r.value == Ingredient(Strip(item), quantity, unit, comment) && ValidIngredient(r.value)
    ensures r.Failure? ==>
      r.error == (if IsBlank(item) then [FieldError("item", ItemEmpty)] else [])
                    + (if ValidQuantity(quantity) then [] else [FieldError("quantity", QuantityNegative)])
  {
    var itemErrors := if Strip(item) == [] then [FieldError("item", ItemEmpty)] else [];
    var quantityErrors := if quantity.Some? && Value(quantity.value) < 0.0 then [FieldError("quantity", QuantityNegative)] else [];
    if itemErrors + quantityErrors == [] then Success(Ingredient(Strip(item), quantity, unit, comment))
    else Failure(itemErrors + quantityErrors)
  }

  /**
   * `Recipe(name=…, ingredients=…, preparations=…)` over already-built ingredients:
   * the name is stored stripped and a blank name is refused.
   */
  function NewRecipe(name: string, ingredients: seq<Ingredient> := [], preparations: seq<string> := []):
    (r: Result<Recipe, seq<FieldError>>)
    requires forall k | 0 <= k < |ingredients| :: ValidIngredient(ingredients[k])
    ensures r.Success? <==> !IsBlank(name)
    ensures r.Success? ==> r.value == Recipe(Strip(name), ingredients, preparations) && ValidRecipe(r.value)
    ensures r.Failure? ==> r.error == [FieldError("name", NameEmpty)]
  {
    if Strip(name) == [] then Failure([FieldError("name", NameEmpty)])
    else Success(Recipe(Strip(name), ingredients, preparations))
  }

  /** The text of a failed model validation: a count header, then each field and its message. */
  function ValidationText(model: string, errors: seq<FieldError>): string {
    NatToString(|errors|) + (if |errors| == 1 then " validation error for " else " validation errors for ") + model
    + Join(seq(|errors|, k requires 0 <= k < |errors| =>
        "\n" + errors[k].field + "\n  Value error, " + errors[k].message), "")
  }

  /** Only the item is required; the other fields default to `None`. */
  lemma IngredientDefaults()
    ensures NewIngredient("flour") == Success(Ingredient("flour", None, None, None))
  {
    StripTrimmed("flour");
  }

  /** The item is stored stripped. */
  lemma IngredientItemStripped()
    ensures NewIngredient("  flour  ") == Success(Ingredient("flour", None, None, None))
  {
    assert "  flour  " == "  " + "flour" + "  ";
    StripSurrounded("  ", "flour", "  ");
  }

  /** An empty item is refused. */
  lemma IngredientEmptyItem()
    ensures NewIngredient("") == Failure([FieldError("item", ItemEmpty)])
  {
    assert [FieldError("item", ItemEmpty)] + [] == [FieldError("item", ItemEmpty)];
  }

  /** A blank item is refused. */
  lemma IngredientBlankItem()
    ensures NewIngredient("   ") == Failure([FieldError("item", ItemEmpty)])
  {
    StripEmptyIffBlank("   ");
    assert [FieldError("item", ItemEmpty)] + [] == [FieldError("item", ItemEmpty)];
  }

  /** A negative quantity is refused. */
  lemma IngredientNegativeQuantity()
    ensures NewIngredient("flour", Some(Int(-1))) == Failure([FieldError("quantity", QuantityNegative)])
  {
    assert !ValidQuantity(Some(Int(-1)));
    assert !IsBlank("flour") by { StripTrimmed("flour"); }
    var r := NewIngredient("flour", Some(Int(-1)));
    assert r.Failure?;
    assert r.error == [] + [FieldError("quantity", QuantityNegative)];
    assert [] + [FieldError("quantity", QuantityNegative)] == [FieldError("quantity", QuantityNegative)];
  }

  /** Only the name is required; the lists default to empty. */
  lemma RecipeDefaults()
    ensures NewRecipe("Test Recipe") == Success(Recipe("Test Recipe", [], []))
  {
    StripTrimmed("Test Recipe");
  }

  /** The name is stored stripped. */
  lemma RecipeNameStripped()
    ensures NewRecipe("  Test Recipe  ") == Success(Recipe("Test Recipe", [], []))
  {
    assert "  Test Recipe  " == "  " + "Test Recipe" + "  ";
    StripSurrounded("  ", "Test Recipe", "  ");
  }

  /** A blank name is refused. */
  lemma RecipeBlankName()
    ensures NewRecipe("   ") == Failure([FieldError("name", NameEmpty)])
  {
    StripEmptyIffBlank("   ");
  }

  /**
   * `serialize_quantity`: a float is rounded to two decimals and becomes an int when
   * the rounded value is whole; an int and `None` are kept.
   */
  function SerializeQuantity(quantity: Option<Number>): (r: Option<Number>)
    ensures r.None? <==> quantity.None?
    ensures quantity.Some? && quantity.value.Int? ==> r == quantity
    ensures quantity.Some? && quantity.value.Float? ==>
      && IsCents(Value(r.value))
      && quantity.value.x - 0.005 <= Value(r.value) <= quantity.value.x + 0.005
      && (r.value.Int? <==> IsWhole(Value(r.value)))
  {
    match quantity
    case None => None
    case Some(Int(_)) => quantity
    case Some(Float(x)) =>
      var rounded := RoundCents(x);
      TruncateWhole(rounded);
      if rounded == TruncateToInt(rounded) as real then Some(Int(TruncateToInt(rounded)))
      else Some(Float(rounded))
  }

  /** Serializing a serialized quantity changes nothing. */
  lemma SerializeQuantityIdempotent(quantity: Option<Number>)
    ensures SerializeQuantity(SerializeQuantity(quantity)) == SerializeQuantity(quantity)
  {
    var r := SerializeQuantity(quantity);
    if r.Some? && r.value.Float? {
      RoundCentsOfCents(r.value.x);
    }
  }

  /** A quantity with at most two decimals keeps its value; a whole float becomes an int. */
  lemma SerializeQuantityOfCents(x: real)
    requires IsCents(x)
    ensures Value(SerializeQuantity(Some(Float(x))).value) == x
    ensures SerializeQuantity(Some(Float(x))).value.Float? <==> !IsWhole(x)
  {
    RoundCentsOfCents(x);
  }

  /** The two serializer examples: 3.78541 shows as 3.79, and 12.0 as the int 12. */
  lemma SerializeQuantityExamples()
    ensures SerializeQuantity(Some(Float(3.78541))) == Some(Float(3.79))
    ensures SerializeQuantity(Some(Float(12.0))) == Some(Int(12))
  {
    assert RoundHalfEven(378.541) == 379;
    assert RoundHalfEven(1200.0) == 1200;
  }

  /** The fields that the clean dump keeps: set fields, and the unit only when non-empty. */
  function IngredientEntries(i: Ingredient): seq<(string, Json)> {
    [("item", JStr(i.item))] + QuantityEntry(i) + UnitEntry(i) + CommentEntry(i)
  }

  /** `Ingredient.model_dump_clean()` */
  function IngredientDump(i: Ingredient): Json {
    JDict(IngredientEntries(i))
  }

  /** `Recipe.model_dump_clean()`: name, the clean dump of each ingredient in order, preparations. */
  function RecipeDump(r: Recipe): Json {
    JDict([
      ("name", JStr(r.name)),
      ("ingredients", JList(IngredientDumps(r.ingredients))),
      ("preparations", JList(TextDumps(r.preparations)))
    ])
  }

  /** What an ingredient looks like once exported: its serialized quantity, and no empty unit. */
  function Exported(i: Ingredient): Ingredient {
    Ingredient(i.item, SerializeQuantity(i.quantity), if i.unit == Some("") then None else i.unit, i.comment)
  }

  /** An optional text field read back from a dump: absent, or a string. */
  function OptionalText(entries: seq<(string, Json)>, key: string): Option<Option<string>> {
    match Lookup(entries, key)
    case None => Some(None)
    case Some(JStr(s)) => Some(Some(s))
    case Some(_) => None
  }

  /** Reads an ingredient back from its dump (the partner of `IngredientDump`). */
  function IngredientOfDump(j: Json): Option<Ingredient> {
    if !j.JDict? then None
    else
      var entries := j.entries;
      match (Lookup(entries, "item"), Lookup(entries, "quantity"), OptionalText(entries, "unit"), OptionalText(entries, "comment"))
      case (Some(JStr(item)), None, Some(unit), Some(comment)) => Some(Ingredient(item, None, unit, comment))
      case (Some(JStr(item)), Some(JNum(n)), Some(unit), Some(comment)) => Some(Ingredient(item, Some(n), unit, comment))
      case _ => None
  }

  /** Looking a key up past entries that do not carry it. */
  lemma {:induction false} LookupSkip(front: seq<(string, Json)>, back: seq<(string, Json)>, key: string)
    requires forall k | 0 <= k < |front| :: front[k].0 != key
    ensures Lookup(front + back, key) == Lookup(back, key)
    decreases |front|
  {
    if front != [] {
      assert (front + back)[0] == front[0] && front[0].0 != key;
      assert (front + back)[1..] == front[1..] + back;
      LookupSkip(front[1..], back, key);
    } else {
      assert front + back == back;
    }
  }

  function QuantityEntry(i: Ingredient): seq<(string, Json)> {
    if i.quantity.Some? then [("quantity", JNum(SerializeQuantity(i.quantity).value))] else []
  }

  function UnitEntry(i: Ingredient): seq<(string, Json)> {
    if i.unit.Some? && i.unit.value != [] then [("unit", JStr(i.unit.value))] else []
  }

  function CommentEntry(i: Ingredient): seq<(string, Json)> {
    if i.comment.Some? then [("comment", JStr(i.comment.value))] else []
  }

  lemma DumpedQuantity(i: Ingredient)
    ensures i.quantity.None? ==> Lookup(IngredientEntries(i), "quantity") == None
    ensures i.quantity.Some? ==> Lookup(IngredientEntries(i), "quantity") == Some(JNum(SerializeQuantity(i.quantity).value))
  {
    var front := [("item", JStr(i.item))];
    assert IngredientEntries(i) == front + (QuantityEntry(i) + UnitEntry(i) + CommentEntry(i));
    LookupSkip(front, QuantityEntry(i) + UnitEntry(i) + CommentEntry(i), "quantity");
  }

  lemma DumpedUnit(i: Ingredient)
    ensures OptionalText(IngredientEntries(i), "unit") == Some(Exported(i).unit)
  {
    var front := [("item", JStr(i.item))] + QuantityEntry(i);
    assert IngredientEntries(i) == front + (UnitEntry(i) + CommentEntry(i));
    LookupSkip(front, UnitEntry(i) + CommentEntry(i), "unit");
  }

  lemma DumpedComment(i: Ingredient)
    ensures OptionalText(IngredientEntries(i), "comment") == Some(i.comment)
  {
    var front := [("item", JStr(i.item))] + QuantityEntry(i) + UnitEntry(i);
    assert IngredientEntries(i) == front + CommentEntry(i);
    LookupSkip(front, CommentEntry(i), "comment");
  }

  /** The clean dump loses only what export drops: reading it back gives the exported ingredient. */
  lemma IngredientDumpRoundTrip(i: Ingredient)
    ensures IngredientOfDump(IngredientDump(i)) == Some(Exported(i))
  {
    var entries := IngredientEntries(i);
    assert Lookup(entries, "item") == Some(JStr(i.item));
    DumpedQuantity(i);
    DumpedUnit(i);
    DumpedComment(i);
    var unit, comment := Exported(i).unit, i.comment;
    if i.quantity.None? {
      assert IngredientOfDump(JDict(entries)) == Some(Ingredient(i.item, None, unit, comment));
    } else {
      var n := SerializeQuantity(i.quantity).value;
      assert IngredientOfDump(JDict(entries)) == Some(Ingredient(i.item, Some(n), unit, comment));
    }
  }

  /** Reads a list of ingredient dumps back, in order. */
  function IngredientsOfDump(items: seq<Json>): Option<seq<Ingredient>> {
    if items == [] then Some([])
    else
      match (IngredientOfDump(items[0]), IngredientsOfDump(items[1..]))
      case (Some(i), Some(rest)) => Some([i] + rest)
      case _ => None
  }

  /** Reads a list of strings back. */
  function TextsOfDump(items: seq<Json>): Option<seq<string>> {
    if items == [] then Some([])
    else
      match (items[0], TextsOfDump(items[1..]))
      case (JStr(s), Some(rest)) => Some([s] + rest)
      case _ => None
  }

  /** Reads a recipe back from its dump (the partner of `RecipeDump`). */
  function RecipeOfDump(j: Json): Option<Recipe> {
    if !j.JDict? || |j.entries| != 3 then None
    else
      var (nameKey, name) := j.entries[0];
      var (ingredientsKey, ingredients) := j.entries[1];
      var (preparationsKey, preparations) := j.entries[2];
      if nameKey != "name" || ingredientsKey != "ingredients" || preparationsKey != "preparations"
        || !name.JStr? || !ingredients.JList? || !preparations.JList? then None
      else
        match (IngredientsOfDump(ingredients.items), TextsOfDump(preparations.items))
        case (Some(ings), Some(preps)) => Some(Recipe(name.s, ings, preps))
        case _ => None
  }

  function IngredientDumps(ingredients: seq<Ingredient>): seq<Json> {
    seq(|ingredients|, k requires 0 <= k < |ingredients| => IngredientDump(ingredients[k]))
  }

  function ExportedAll(ingredients: seq<Ingredient>): seq<Ingredient> {
    seq(|ingredients|, k requires 0 <= k < |ingredients| => Exported(ingredients[k]))
  }

  function TextDumps(texts: seq<string>): seq<Json> {
    seq(|texts|, k requires 0 <= k < |texts| => JStr(texts[k]))
  }

  lemma {:induction false} IngredientsDumpRoundTrip(ingredients: seq<Ingredient>)
    ensures IngredientsOfDump(IngredientDumps(ingredients)) == Some(ExportedAll(ingredients))
    decreases |ingredients|
  {
    if ingredients != [] {
      var rest := ingredients[1..];
      assert IngredientDumps(ingredients)[0] == IngredientDump(ingredients[0]);
      assert IngredientDumps(ingredients)[1..] == IngredientDumps(rest);
      IngredientsDumpRoundTrip(rest);
      IngredientDumpRoundTrip(ingredients[0]);
      assert ExportedAll(ingredients) == [Exported(ingredients[0])] + ExportedAll(rest);
    } else {
      assert IngredientDumps(ingredients) == [] && ExportedAll(ingredients) == [];
    }
  }

  lemma {:induction false} TextsDumpRoundTrip(texts: seq<string>)
    ensures TextsOfDump(TextDumps(texts)) == Some(texts)
    decreases |texts|
  {
    if texts != [] {
      var rest := texts[1..];
      assert TextDumps(texts)[0] == JStr(texts[0]);
      assert TextDumps(texts)[1..] == TextDumps(rest);
      TextsDumpRoundTrip(rest);
      assert texts == [texts[0]] + rest;
    } else {
      assert TextDumps(texts) == [];
    }
  }

  /**
   * The recipe dump keeps exactly the name, every ingredient in order (as exported)
   * and the preparations: reading it back gives them.
   */
  lemma RecipeDumpRoundTrip(r: Recipe)
    ensures RecipeOfDump(RecipeDump(r)) == Some(Recipe(r.name, ExportedAll(r.ingredients), r.preparations))
  {
    IngredientsDumpRoundTrip(r.ingredients);
    TextsDumpRoundTrip(r.preparations);
    assert RecipeDump(r).entries[1] == ("ingredients", JList(IngredientDumps(r.ingredients)));
    assert RecipeDump(r).entries[2] == ("preparations", JList(TextDumps(r.preparations)));
  }

  /** The clean dump drops absent fields. */
  lemma IngredientDumpSalt()
    ensures IngredientDump(Ingredient("salt", Some(Int(5)), None, None))
      == JDict([("item", JStr("salt")), ("quantity", JNum(Int(5)))])
  {
  }

  /** The clean dump drops an empty unit. */
  lemma IngredientDumpEmptyUnit()
    ensures IngredientDump(Ingredient("egg", Some(Int(2)), Some(""), None))
      == JDict([("item", JStr("egg")), ("quantity", JNum(Int(2)))])
  {
  }

  /** A recipe dumps to its name, its ingredients' clean dumps and its preparations. */
  lemma RecipeDumpWater()
    ensures RecipeDump(Recipe("Test", [Ingredient("water", Some(Int(500)), Some("ml"), None)], ["Boil water"]))
      == JDict([
        ("name", JStr("Test")),
        ("ingredients", JList([JDict([("item", JStr("water")), ("quantity", JNum(Int(500))), ("unit", JStr("ml"))])])),
        ("preparations", JList([JStr("Boil water")]))])
  {
    var r := Recipe("Test", [Ingredient("water", Some(Int(500)), Some("ml"), None)], ["Boil water"]);
    assert IngredientDump(r.ingredients[0]) == JDict([("item", JStr("water")), ("quantity", JNum(Int(500))), ("unit", JStr("ml"))]);
    assert IngredientDumps(r.ingredients) == [IngredientDump(r.ingredients[0])];
    assert TextDumps(r.preparations) == [JStr("Boil water")];
  }
}
