/**
 * The field readers that the XML and the YAML recipe parser share, word for word:
 * the recipe name, one ingredient (quantity, unit, comment), the ingredient loop,
 * the preparation list, and the assembly of the recipe from them.
 */
module RecipeFields {
  import opened Wrappers
  import opened Text
  import opened Numbers
  import opened Document
  import opened Models
  import opened Exceptions

  /**
   * What opening and decoding a recipe file gave: the two read errors the parsers
   * name, any other read error, a decoding error, a syntax error of the format, or
   * the loaded document.
   */
  datatype Load =
    | Missing
    | PermissionDenied
    | ReadFailure(message: string)
    | DecodeFailure(message: string)
    | Malformed(message: string)
    | Loaded(doc: Json)

  const NameRequired := "Recipe name is required"

  /** `_parse_name`: a falsy name is refused; any other value is turned into stripped text. */
  function ParseName(data: seq<(string, Json)>, filePath: string): (r: Result<string, Exception>)
    ensures r.Failure? <==> !Truthy(Get(data, "name"))
    ensures r.Failure? ==> r.error == Domain(ParseError(filePath, NameRequired))
    ensures r.Success? ==> Trimmed(r.value) && r.value == Strip(Str(Get(data, "name")))
  {
    var name := Get(data, "name");
    if !Truthy(name) then Failure(Domain(ParseError(filePath, NameRequired)))
    else Success(Strip(Str(name)))
  }

  /** `_parse_quantity`: an absent quantity, or one `float()` refuses, is `None`; otherwise a float. */
  function ParseQuantity(data: seq<(string, Json)>): (r: Option<Number>)
    ensures r.None? <==> Get(data, "quantity").JNull? || PyFloat(Get(data, "quantity")).None?
    ensures r.Some? ==> r.value == Float(PyFloat(Get(data, "quantity")).value)
    ensures Get(data, "quantity").JNum? ==> r == Some(Float(Value(Get(data, "quantity").n)))
    ensures Get(data, "quantity").JNull? || Get(data, "quantity").JList? || Get(data, "quantity").JDict? ==> r == None
  {
    var quantity := Get(data, "quantity");
    if quantity.JNull? then None
    else
      match PyFloat(quantity)
      case Some(x) => Some(Float(x))
      case None => None
  }

  /** `_parse_unit`: the stripped text of the unit, and `None` for an absent or blank unit. */
  function ParseUnit(data: seq<(string, Json)>): (r: Option<string>)
    ensures r.None? <==> Get(data, "unit").JNull? || IsBlank(Str(Get(data, "unit")))
    ensures r.Some? ==> r.value != [] && Trimmed(r.value) && r.value == Strip(Str(Get(data, "unit")))
  {
    var unit := Get(data, "unit");
    if unit.JNull? then None
    else
      var text := Strip(Str(unit));
      if text != [] then Some(text) else None
  }

  /** `_parse_comment`: the stripped text of the comment (possibly empty), `None` when absent. */
  function ParseComment(data: seq<(string, Json)>): (r: Option<string>)
    ensures r.None? <==> Get(data, "comment").JNull?
    ensures r.Some? ==> Trimmed(r.value) && r.value == Strip(Str(Get(data, "comment")))
  {
    var comment := Get(data, "comment");
    if comment.JNull? then None else Some(Strip(Str(comment)))
  }

  /** A quantity given as plain decimal text, as XML gives every quantity, is read as its value. */
  lemma ParseQuantityOfDecimalText(data: seq<(string, Json)>, whole: string, frac: string)
    requires whole != [] && AllDigits(whole) && AllDigits(frac)
    requires Get(data, "quantity") == JStr(whole + "." + frac)
    ensures ParseQuantity(data) == Some(Float(DecimalValue(whole, frac)))
  {
    ParseDecimalOfPlain(whole, frac);
  }

  /** The text "2.5" is 2.5, a YAML `true` is 1.0, and text `float()` refuses is no quantity. */
  lemma ParseQuantityExamples()
    ensures ParseQuantity([("quantity", JStr("2.5"))]) == Some(Float(2.5))
    ensures ParseQuantity([("quantity", JBool(true))]) == Some(Float(1.0))
    ensures ParseQuantity([("quantity", JStr("a"))]) == None
  {
    var data := [("quantity", JStr("2.5"))];
    assert Get(data, "quantity") == JStr("2" + "." + "5");
    assert DecimalValue("2", "5") == 2.5 by {
      assert DigitsValue("2") == 2 && DigitsValue("5") == 5;
    }
    ParseQuantityOfDecimalText(data, "2", "5");
    StripTrimmed("a");
    assert DotIndex("a") == 1;
  }

  /** What `_parse_single_ingredient` does with one entry of the ingredient list. */
  datatype Parsed = Skipped | Built(ingredient: Ingredient) | Invalid(errors: seq<FieldError>)

  /**
   * `_parse_single_ingredient`: an entry that is no dict, or has a falsy item, is
   * skipped; otherwise the ingredient is built, and its validation may fail.
   */
  function SingleIngredient(entry: Json): (r: Parsed)
    ensures r.Built? ==> ValidIngredient(r.ingredient)
  {
    if !entry.JDict? then Skipped
    else
      var item := Get(entry.entries, "item");
      if !Truthy(item) then Skipped
      else
        match NewIngredient(Strip(Str(item)), ParseQuantity(entry.entries), ParseUnit(entry.entries), ParseComment(entry.entries))
        case Success(ingredient) => Built(ingredient)
        case Failure(errors) => Invalid(errors)
  }

  /**
   * An entry is skipped when it is no dict or its item is falsy; it is invalid when its
   * item text is blank or its quantity negative; otherwise it is built from its fields.
   */
  lemma SingleIngredientMeaning(entry: Json)
    ensures SingleIngredient(entry).Skipped? <==> !entry.JDict? || !Truthy(Get(entry.entries, "item"))
    ensures SingleIngredient(entry).Invalid? <==>
      && entry.JDict? && Truthy(Get(entry.entries, "item"))
      && (IsBlank(Str(Get(entry.entries, "item"))) || !ValidQuantity(ParseQuantity(entry.entries)))
    ensures SingleIngredient(entry).Built? ==>
      SingleIngredient(entry).ingredient == Ingredient(Strip(Str(Get(entry.entries, "item"))),
        ParseQuantity(entry.entries), ParseUnit(entry.entries), ParseComment(entry.entries))
  {
    if entry.JDict? && Truthy(Get(entry.entries, "item")) {
      var data := entry.entries;
      var text := Str(Get(data, "item"));
      var built := NewIngredient(Strip(text), ParseQuantity(data), ParseUnit(data), ParseComment(data));
      assert SingleIngredient(entry) == if built.Success? then Built(built.value) else Invalid(built.error);
      StripIdempotent(text);
    }
  }

  /** What `_parse_single_ingredient` makes of each entry of a list, in order. */
  function Outcomes(entries: seq<Json>): (r: seq<Parsed>)
    ensures |r| == |entries|
    ensures forall k | 0 <= k < |r| :: r[k] == SingleIngredient(entries[k])
  {
    seq(|entries|, k requires 0 <= k < |entries| => SingleIngredient(entries[k]))
  }

  /** Every built ingredient among the outcomes is valid. */
  predicate BuiltValid(outcomes: seq<Parsed>) {
    forall k | 0 <= k < |outcomes| :: outcomes[k].Built? ==> ValidIngredient(outcomes[k].ingredient)
  }

  /**
   * The ingredient loop of `_parse_ingredients`, outcome by outcome: the built ingredients
   * in order, or the validation errors of the first entry that fails (the loop stops there).
   */
  function Gather(outcomes: seq<Parsed>): (r: Result<seq<Ingredient>, seq<FieldError>>)
    ensures r.Success? ==> |r.value| <= |outcomes|
    ensures r.Success? && BuiltValid(outcomes) ==> forall k | 0 <= k < |r.value| :: ValidIngredient(r.value[k])
  {
    if outcomes == [] then Success([])
    else
      var last := outcomes[|outcomes| - 1];
      assert BuiltValid(outcomes) ==> BuiltValid(outcomes[..|outcomes| - 1]);
      match Gather(outcomes[..|outcomes| - 1])
      case Failure(errors) => Failure(errors)
      case Success(done) =>
        match last
        case Skipped => Success(done)
        case Built(ingredient) => Success(done + [ingredient])
        case Invalid(errors) => Failure(errors)
  }

  /** `_parse_ingredients` after the list has been picked out of the document. */
  function IngredientsFrom(entries: seq<Json>): (r: Result<seq<Ingredient>, seq<FieldError>>)
    ensures r.Success? ==> |r.value| <= |entries|
    ensures r.Success? ==> forall k | 0 <= k < |r.value| :: ValidIngredient(r.value[k])
  {
    Gather(Outcomes(entries))
  }

  /** The built ingredients among the outcomes, in order (an independent, front-to-back definition). */
  function Kept(outcomes: seq<Parsed>): seq<Ingredient> {
    if outcomes == [] then []
    else (if outcomes[0].Built? then [outcomes[0].ingredient] else []) + Kept(outcomes[1..])
  }

  /** The errors of the first outcome that failed validation, if any. */
  function FirstInvalid(outcomes: seq<Parsed>): Option<seq<FieldError>> {
    if outcomes == [] then None
    else if outcomes[0].Invalid? then Some(outcomes[0].errors)
    else FirstInvalid(outcomes[1..])
  }

  lemma {:induction false} KeptAppend(outcomes: seq<Parsed>, last: Parsed)
    ensures Kept(outcomes + [last]) == Kept(outcomes) + (if last.Built? then [last.ingredient] else [])
    decreases |outcomes|
  {
    if outcomes == [] {
      assert outcomes + [last] == [last];
      assert [last][1..] == [];
    } else {
      assert (outcomes + [last])[0] == outcomes[0];
      assert (outcomes + [last])[1..] == outcomes[1..] + [last];
      KeptAppend(outcomes[1..], last);
    }
  }

  lemma {:induction false} FirstInvalidAppend(outcomes: seq<Parsed>, last: Parsed)
    ensures FirstInvalid(outcomes + [last]) ==
      if FirstInvalid(outcomes).Some? then FirstInvalid(outcomes)
      else if last.Invalid? then Some(last.errors) else None
    decreases |outcomes|
  {
    if outcomes == [] {
      assert outcomes + [last] == [last];
      assert [last][1..] == [];
    } else {
      assert (outcomes + [last])[0] == outcomes[0];
      assert (outcomes + [last])[1..] == outcomes[1..] + [last];
      FirstInvalidAppend(outcomes[1..], last);
    }
  }

  /** An invalid entry fails the list, and the first one's errors are reported; otherwise every built ingredient is kept. */
  lemma {:induction false} GatherMeaning(outcomes: seq<Parsed>)
    ensures Gather(outcomes) ==
      match FirstInvalid(outcomes)
      case Some(errors) => Failure(errors)
      case None => Success(Kept(outcomes))
    decreases |outcomes|
  {
    if outcomes != [] {
      var front, last := outcomes[..|outcomes| - 1], outcomes[|outcomes| - 1];
      assert outcomes == front + [last];
      GatherMeaning(front);
      KeptAppend(front, last);
      FirstInvalidAppend(front, last);
      if FirstInvalid(front).None? && !last.Invalid? {
        assert Gather(front) == Success(Kept(front));
        assert Gather(outcomes) == match last
          case Skipped => Success(Kept(front))
          case Built(i) => Success(Kept(front) + [i])
          case Invalid(e) => Failure(e);
        assert Kept(front) + [] == Kept(front);
      }
    }
  }

  /** Once the ingredient loop has failed, the outcomes after the failure change nothing. */
  lemma {:induction false} FailureSticks(outcomes: seq<Parsed>, n: nat)
    requires 0 < n <= |outcomes| && Gather(outcomes[..n]).Failure?
    ensures Gather(outcomes) == Gather(outcomes[..n])
    decreases |outcomes| - n
  {
    if n < |outcomes| {
      var m := n + 1;
      assert outcomes[..m][..m - 1] == outcomes[..n];
      FailureSticks(outcomes, m);
    } else {
      assert outcomes[..n] == outcomes;
    }
  }

  /** `_parse_ingredients`' loop over the entries: built ingredients are appended, the first validation error escapes. */
  method CollectIngredients(entries: seq<Json>) returns (r: Result<seq<Ingredient>, seq<FieldError>>)
    ensures r == IngredientsFrom(entries)
  {
    ghost var outcomes := Outcomes(entries);
    var ingredients: seq<Ingredient> := [];
    var i := 0;
    while i < |entries|
      invariant 0 <= i <= |entries|
      invariant Gather(outcomes[..i]) == Success(ingredients)
    {
      var parsed := SingleIngredient(entries[i]);
      assert outcomes[..i + 1][..i] == outcomes[..i] && outcomes[..i + 1][i] == parsed;
      if parsed.Invalid? {
        FailureSticks(outcomes, i + 1);
        return Failure(parsed.errors);
      }
      if parsed.Built? {
        ingredients := ingredients + [parsed.ingredient];
      }
      i := i + 1;
    }
    assert outcomes[..i] == outcomes;
    return Success(ingredients);
  }

  /** `[str(p).strip() for p in entries if p]` */
  function Preparations(entries: seq<Json>): (r: seq<string>)
    ensures |r| <= |entries|
    ensures forall k | 0 <= k < |r| :: Trimmed(r[k])
  {
    if entries == [] then []
    else (if Truthy(entries[0]) then [Strip(Str(entries[0]))] else []) + Preparations(entries[1..])
  }

  function TextEntries(texts: seq<string>): seq<Json> {
    seq(|texts|, k requires 0 <= k < |texts| => JStr(texts[k]))
  }

  /** A first step that is already stripped and non-empty is kept as it is. */
  lemma PreparationsConsStripped(first: string, entries: seq<Json>)
    requires entries != [] && entries[0] == JStr(first) && first != [] && Trimmed(first)
    ensures Preparations(entries) == [first] + Preparations(entries[1..])
  {
    assert Strip(first) == first by { StripTrimmed(first); }
  }

  /** Steps that are already stripped and non-empty are kept as they are, in order. */
  lemma {:induction false} PreparationsOfStripped(texts: seq<string>)
    requires forall k | 0 <= k < |texts| :: texts[k] != [] && Trimmed(texts[k])
    ensures Preparations(TextEntries(texts)) == texts
    decreases |texts|
  {
    var entries := TextEntries(texts);
    if texts == [] {
      assert entries == [];
    } else {
      var first, rest := texts[0], texts[1..];
      assert entries[0] == JStr(first);
      assert entries[1..] == TextEntries(rest);
      PreparationsOfStripped(rest);
      PreparationsConsStripped(first, entries);
      assert texts == [first] + rest;
    }
  }

  /** A blank step in a list is truthy, so it is kept, as an empty string. */
  lemma PreparationsKeepBlankStep()
    ensures Preparations([JStr(" ")]) == [""]
  {
    var entries := [JStr(" ")];
    assert entries[1..] == [];
    assert Preparations(entries[1..]) == [];
    assert Str(entries[0]) == " ";
    assert Strip(" ") == [] by { StripEmptyIffBlank(" "); }
    assert Truthy(entries[0]);
  }

  /** Falsy steps (`None`, empty text) are dropped. */
  lemma PreparationsDropFalsy()
    ensures Preparations([JNull, JStr(""), JStr("Mix")]) == ["Mix"]
  {
    var entries := [JNull, JStr(""), JStr("Mix")];
    var last := entries[1..][1..];
    assert last == [JStr("Mix")];
    assert last[1..] == [];
    assert Preparations(last[1..]) == [];
    assert Str(last[0]) == "Mix";
    assert Strip("Mix") == "Mix" by { StripTrimmed("Mix"); }
    assert Preparations(last) == ["Mix"];
    assert !Truthy(entries[1..][0]);
    assert !Truthy(entries[0]);
  }

  /** The `ValidationError` a failed model validation becomes in the parsers. */
  function RecipeValidationError(model: string, errors: seq<FieldError>): Exception {
    Domain(ValidationError("recipe", ValidationText(model, errors)))
  }

  /**
   * The body of `parse` once the recipe dict is at hand: the name (a ParseError when it
   * is missing), then the ingredients (the first invalid one fails the parse), then the
   * recipe itself (a blank name fails it).
   */
  function BuildRecipe(filePath: string, data: seq<(string, Json)>, ingredientEntries: seq<Json>,
                       preparations: seq<string>): (r: Result<Recipe, Exception>)
    ensures r.Success? ==> ValidRecipe(r.value)
    ensures r.Failure? ==> r.error.Domain? && (r.error.error.ParseError? || r.error.error.ValidationError?)
  {
    match ParseName(data, filePath)
    case Failure(e) => Failure(e)
    case Success(name) =>
      match IngredientsFrom(ingredientEntries)
      case Failure(errors) => Failure(RecipeValidationError("Ingredient", errors))
      case Success(ingredients) =>
        match NewRecipe(name, ingredients, preparations)
        case Failure(errors) => Failure(RecipeValidationError("Recipe", errors))
        case Success(recipe) => Success(recipe)
  }

  /**
   * What a parse that succeeds returns, and exactly when it succeeds: a truthy name whose
   * text is not blank, and no invalid ingredient entry.
   */
  lemma BuildRecipeMeaning(filePath: string, data: seq<(string, Json)>, ingredientEntries: seq<Json>,
                           preparations: seq<string>)
    ensures
      var r := BuildRecipe(filePath, data, ingredientEntries, preparations);
      && (r.Success? <==>
            Truthy(Get(data, "name")) && !IsBlank(Str(Get(data, "name"))) && FirstInvalid(Outcomes(ingredientEntries)).None?)
      && (r.Success? ==>
            r.value == Recipe(Strip(Str(Get(data, "name"))), Kept(Outcomes(ingredientEntries)), preparations))
  {
    GatherMeaning(Outcomes(ingredientEntries));
    StripIdempotent(Str(Get(data, "name")));
  }

  /** A missing or falsy name is reported before anything else is looked at. */
  lemma BuildRecipeNameFirst(filePath: string, data: seq<(string, Json)>, ingredientEntries: seq<Json>,
                             preparations: seq<string>)
    requires !Truthy(Get(data, "name"))
    ensures BuildRecipe(filePath, data, ingredientEntries, preparations)
      == Failure(Domain(ParseError(filePath, NameRequired)))
  {
  }

  /** The method form of `BuildRecipe`, running the ingredient loop. */
  method Build(filePath: string, data: seq<(string, Json)>, ingredientEntries: seq<Json>, preparations: seq<string>)
    returns (r: Result<Recipe, Exception>)
    ensures r == BuildRecipe(filePath, data, ingredientEntries, preparations)
  {
    var name := ParseName(data, filePath);
    if name.Failure? {
      return Failure(name.error);
    }
    var ingredients := CollectIngredients(ingredientEntries);
    if ingredients.Failure? {
      return Failure(RecipeValidationError("Ingredient", ingredients.error));
    }
    var recipe := NewRecipe(name.value, ingredients.value, preparations);
    if recipe.Failure? {
      return Failure(RecipeValidationError("Recipe", recipe.error));
    }
    return Success(recipe.value);
  }
}
