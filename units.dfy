/**
 * The unit converter: classifies a unit as volume, weight or other, converts volume
 * to millilitres (litres from 1000 ml up) and weight to grams, and rounds quantities
 * with the cooking-friendly precision rule.
 */
module Units {
  import opened Wrappers
  import opened Text
  import opened Numbers

  datatype Dimension = Volume | Mass | Other

  /** A unit known to the registry: its dimension and its size in the base unit (ml or g). */
  datatype UnitDefinition = UnitDefinition(dimension: Dimension, factor: real)

  datatype ConversionResult = ConversionResult(quantity: real, unit: string)

  /** Spellings that the unit registry would not read as intended. */
  const UnitAliases: map<string, string> := map["fl. oz." := "floz", "fl oz" := "floz", "gr" := "gram"]

  const VolumeTarget := "milliliter"
  const VolumeTargetLarge := "liter"
  const WeightTarget := "gram"
  const VolumeThresholdMl: real := 1000.0

  /** The cooking cup, in millilitres (the US customary cup would be about 236.588). */
  const CupMl: real := 240.0

  /**
   * What the converter needs of its unit registry: positive sizes, and the three
   * target units and the cooking cup defined as the converter defines them.
   */
  predicate WellFormedRegistry(reg: map<string, UnitDefinition>) {
    && PositiveSizes(reg)
    && VolumeTarget in reg && reg[VolumeTarget] == UnitDefinition(Volume, 1.0)
    && "ml" in reg && reg["ml"] == UnitDefinition(Volume, 1.0)
    && VolumeTargetLarge in reg && reg[VolumeTargetLarge] == UnitDefinition(Volume, 1000.0)
    && WeightTarget in reg && reg[WeightTarget] == UnitDefinition(Mass, 1.0)
    && "cup" in reg && reg["cup"] == UnitDefinition(Volume, CupMl)
  }

  /** A unit registry, by lower-case unit name. */
  type UnitRegistry = reg: map<string, UnitDefinition> | WellFormedRegistry(reg)
    witness map[
      VolumeTarget := UnitDefinition(Volume, 1.0),
      "ml" := UnitDefinition(Volume, 1.0),
      VolumeTargetLarge := UnitDefinition(Volume, 1000.0),
      WeightTarget := UnitDefinition(Mass, 1.0),
      "cup" := UnitDefinition(Volume, CupMl)]

  /** Every unit of the map has a positive size. */
  predicate PositiveSizes(reg: map<string, UnitDefinition>) {
    forall name | name in reg :: reg[name].factor > 0.0
  }

  /**
   * A sample registry: the target units, the cooking cup, and the customary units
   * the recipes use, sized as the units library defines them (volume in millilitres,
   * mass in grams); units of other dimensions carry their own base size.
   */
  const Registry: UnitRegistry := map[
    "milliliter" := UnitDefinition(Volume, 1.0),
    "ml" := UnitDefinition(Volume, 1.0),
    "liter" := UnitDefinition(Volume, 1000.0),
    "cup" := UnitDefinition(Volume, 240.0),
    "cups" := UnitDefinition(Volume, 240.0),
    "gallon" := UnitDefinition(Volume, 3785.411784),
    "floz" := UnitDefinition(Volume, 29.5735295625),
    "tablespoon" := UnitDefinition(Volume, 14.78676478125),
    "teaspoon" := UnitDefinition(Volume, 4.92892159375),
    "gram" := UnitDefinition(Mass, 1.0),
    "pound" := UnitDefinition(Mass, 453.59237),
    "ounce" := UnitDefinition(Mass, 28.349523125),
    "meter" := UnitDefinition(Other, 1.0)
  ]

  /** `unit.lower().strip()` followed by the alias lookup. */
  function NormalizeUnitName(unit: string): string {
    var normalized := Strip(Lower(unit));
    if normalized in UnitAliases then UnitAliases[normalized] else normalized
  }

  /** The registry knows `unit`, after normalisation, as a unit of dimension `dim`. */
  predicate KnownAs(units: UnitRegistry, unit: string, dim: Dimension) {
    var name := NormalizeUnitName(unit);
    name in units && units[name].dimension == dim
  }

  /** The short display form of a target unit. */
  function FormatOutputUnit(unit: string): (r: string)
    ensures r == unit || (unit == VolumeTarget && r == "ml") || (unit == WeightTarget && r == "gr")
    ensures r != VolumeTarget && r != WeightTarget
  {
    if unit == "milliliter" then "ml"
    else if unit == "liter" then "liter"
    else if unit == "gram" then "gr"
    else unit
  }

  /** Formatting is idempotent: the short forms are left as they are. */
  lemma FormatOutputUnitIdempotent(unit: string)
    ensures FormatOutputUnit(FormatOutputUnit(unit)) == FormatOutputUnit(unit)
  {
  }

  /** The size, in base units, that a converted result denotes. */
  function BaseAmount(r: ConversionResult): real {
    if r.unit == "liter" then r.quantity * 1000.0 else r.quantity
  }

  /**
   * `quantity` units of `source`, expressed in the registry unit of size `target`
   * (the base unit has size 1, so the millilitre and the gram need no division).
   */
  function MagnitudeIn(quantity: real, source: UnitDefinition, target: real): real
    requires target > 0.0
  {
    if target == 1.0 then quantity * source.factor else quantity * source.factor / target
  }

  /** Volume to millilitres, or, from 1000 ml up, to litres computed afresh from the source. */
  function ConvertVolume(quantity: real, source: UnitDefinition): (r: ConversionResult)
    ensures BaseAmount(r) == quantity * source.factor
    ensures r.unit == "liter" <==> quantity * source.factor >= VolumeThresholdMl
    ensures r.unit != "liter" ==> r.unit == "ml"
  {
    var ml := MagnitudeIn(quantity, source, 1.0);
    if ml >= VolumeThresholdMl then
      ConversionResult(MagnitudeIn(quantity, source, 1000.0), FormatOutputUnit(VolumeTargetLarge))
    else
      ConversionResult(ml, FormatOutputUnit(VolumeTarget))
  }

  /** Weight to grams. */
  function ConvertWeight(quantity: real, source: UnitDefinition): (r: ConversionResult)
    ensures r.quantity == quantity * source.factor && r.unit == "gr"
  {
    ConversionResult(MagnitudeIn(quantity, source, 1.0), FormatOutputUnit(WeightTarget))
  }

  /**
   * `UnitConverter.convert`. A missing or blank unit gives the quantity with unit "";
   * an unknown unit, or a known one that is neither volume nor weight, gives the
   * quantity with the caller's own unit string; volume comes back in "ml" below
   * 1000 ml and in "liter" from there on, weight in "gr", both of the same amount.
   */
  function Convert(units: UnitRegistry, quantity: real, unit: Option<string>): (r: ConversionResult)
    ensures (unit.None? || IsBlank(unit.value)) ==> r == ConversionResult(quantity, "")
    ensures unit.Some? && !IsBlank(unit.value) && !KnownAs(units, unit.value, Volume) && !KnownAs(units, unit.value, Mass)
      ==> r == ConversionResult(quantity, unit.value)
    ensures unit.Some? && !IsBlank(unit.value) && KnownAs(units, unit.value, Volume) ==>
      && BaseAmount(r) == quantity * units[NormalizeUnitName(unit.value)].factor
      && (r.unit == "liter" <==> quantity * units[NormalizeUnitName(unit.value)].factor >= VolumeThresholdMl)
      && (r.unit != "liter" ==> r.unit == "ml")
    ensures unit.Some? && !IsBlank(unit.value) && KnownAs(units, unit.value, Mass) ==>
      r == ConversionResult(quantity * units[NormalizeUnitName(unit.value)].factor, "gr")
  {
    if unit.None? then ConversionResult(quantity, "")
    else
      var u := unit.value;
      if Strip(u) == "" then ConversionResult(quantity, "")
      else
        var name := NormalizeUnitName(u);
        if name !in units then ConversionResult(quantity, u)
        else
          var def := units[name];
          if def.dimension == Volume then ConvertVolume(quantity, def)
          else if def.dimension == Mass then ConvertWeight(quantity, def)
          else ConversionResult(quantity, u)
  }

  /**
   * `UnitConverter.round_quantity`. From 10 up: the nearest integer. Below 10: the
   * largest multiple of 0.01 not above the value, an `int` exactly when it is whole.
   */
  function RoundQuantity(quantity: real): (r: Number)
    ensures quantity >= 10.0 ==> r.Int? && quantity - 0.5 <= Value(r) <= quantity + 0.5
    ensures quantity >= 10.0 && (Value(r) - quantity == 0.5 || quantity - Value(r) == 0.5) ==> r.i % 2 == 0
    ensures quantity < 10.0 ==>
      && IsCents(Value(r))
      && Value(r) <= quantity < Value(r) + 0.01
      && (r.Int? <==> IsWhole(Value(r)))
  {
    if quantity >= 10.0 then Int(RoundHalfEven(quantity))
    else
      var truncated := (quantity * 100.0).Floor as real / 100.0;
      TruncateWhole(truncated);
      if truncated == TruncateToInt(truncated) as real then Int(TruncateToInt(truncated))
      else Float(truncated)
  }

  /** Every alias stands for a lower-case unit name that is not itself an alias. */
  lemma AliasTargetsAreCanonical(name: string)
    requires name in UnitAliases
    ensures UnitAliases[name] in {"floz", "gram"}
    ensures Trimmed(UnitAliases[name]) && Lower(UnitAliases[name]) == UnitAliases[name]
    ensures UnitAliases[name] !in UnitAliases
  {
    assert UnitAliases[name] in {"floz", "gram"};
  }

  /** A normalised name is canonical: lower-case and without surrounding white space. */
  lemma NormalizeUnitNameCanonical(unit: string)
    ensures Trimmed(NormalizeUnitName(unit))
    ensures Lower(NormalizeUnitName(unit)) == NormalizeUnitName(unit)
    ensures NormalizeUnitName(unit) !in UnitAliases
  {
    var n := Strip(Lower(unit));
    if n in UnitAliases {
      AliasTargetsAreCanonical(n);
    } else {
      LowerStrip(Lower(unit));
      LowerIdempotent(unit);
    }
  }

  /** Normalising ignores letter case. */
  lemma NormalizeUnitNameIgnoresCase(unit: string)
    ensures NormalizeUnitName(Lower(unit)) == NormalizeUnitName(unit)
  {
    LowerIdempotent(unit);
    assert Strip(Lower(Lower(unit))) == Strip(Lower(unit));
  }

  /** Normalising ignores white space around the name. */
  lemma NormalizeUnitNameIgnoresBlanks(unit: string)
    ensures NormalizeUnitName(Strip(unit)) == NormalizeUnitName(unit)
  {
    LowerStrip(unit);
    StripIdempotent(Lower(unit));
    assert Strip(Lower(Strip(unit))) == Strip(Lower(unit));
  }

  /** Normalising a normalised name changes nothing. */
  lemma NormalizeUnitNameIdempotent(unit: string)
    ensures NormalizeUnitName(NormalizeUnitName(unit)) == NormalizeUnitName(unit)
  {
    var m := NormalizeUnitName(unit);
    NormalizeUnitNameCanonical(unit);
    StripTrimmed(m);
    assert Strip(Lower(m)) == m;
  }

  /** The dotted fluid-ounce spelling names "floz". */
  lemma NormalizeUnitNameDottedFluidOunce()
    ensures !IsBlank("fl. oz.") && NormalizeUnitName("fl. oz.") == "floz"
  {
    assert Lower("fl. oz.") == "fl. oz.";
    StripTrimmed("fl. oz.");
  }

  /** The spaced fluid-ounce spelling names "floz" in any case and with surrounding blanks. */
  lemma NormalizeUnitNameSpacedFluidOunce()
    ensures NormalizeUnitName(" Fl Oz ") == "floz"
  {
    assert Lower(" Fl Oz ") == " " + "fl oz" + " ";
    StripSurrounded(" ", "fl oz", " ");
  }

  /** "gr" is read as grams, not as the units library's grain. */
  lemma NormalizeUnitNameGram()
    ensures NormalizeUnitName("GR") == "gram"
    ensures !IsBlank("gr") && NormalizeUnitName("gr") == "gram"
  {
    assert Lower("GR") == "gr" && Lower("gr") == "gr";
    StripTrimmed("gr");
  }

  /** A name that is no alias is only lower-cased and stripped. */
  lemma NormalizeUnitNameCups()
    ensures NormalizeUnitName(" Cups\t") == "cups"
  {
    assert Lower(" Cups\t") == " " + "cups" + "\t";
    StripSurrounded(" ", "cups", "\t");
  }

  /** A lower-case, stripped name that is no alias is its own normal form. */
  lemma PlainUnitName(name: string)
    requires name != [] && Trimmed(name) && Lower(name) == name && name !in UnitAliases
    ensures !IsBlank(name) && NormalizeUnitName(name) == name
  {
    StripTrimmed(name);
  }

  /** The converter's own output units read back as themselves. */
  lemma MillilitreNormalized()
    ensures !IsBlank("ml") && NormalizeUnitName("ml") == "ml"
  {
    assert Lower("ml") == "ml";
    PlainUnitName("ml");
  }

  lemma LitreNormalized()
    ensures !IsBlank("liter") && NormalizeUnitName("liter") == "liter"
  {
    assert Lower("liter") == "liter";
    PlainUnitName("liter");
  }

  /** A registered volume or weight unit is converted by `ConvertVolume` or `ConvertWeight`. */
  lemma ConvertKnown(units: UnitRegistry, quantity: real, u: string)
    requires !IsBlank(u) && NormalizeUnitName(u) in units
    ensures units[NormalizeUnitName(u)].dimension == Volume ==>
      Convert(units, quantity, Some(u)) == ConvertVolume(quantity, units[NormalizeUnitName(u)])
    ensures units[NormalizeUnitName(u)].dimension == Mass ==>
      Convert(units, quantity, Some(u)) == ConvertWeight(quantity, units[NormalizeUnitName(u)])
  {
  }

  /** A plain registered name converts by its own definition. */
  lemma ConvertPlain(units: UnitRegistry, quantity: real, name: string, def: UnitDefinition)
    requires name != [] && Trimmed(name) && Lower(name) == name && name !in UnitAliases
    requires name in units && units[name] == def
    ensures def.dimension == Volume ==> Convert(units, quantity, Some(name)) == ConvertVolume(quantity, def)
    ensures def.dimension == Mass ==> Convert(units, quantity, Some(name)) == ConvertWeight(quantity, def)
  {
    PlainUnitName(name);
    ConvertKnown(units, quantity, name);
  }

  /** A plain name the registry does not know passes through with its quantity. */
  lemma ConvertUnregistered(units: UnitRegistry, quantity: real, name: string)
    requires name != [] && Trimmed(name) && Lower(name) == name && name !in UnitAliases
    requires name !in units
    ensures Convert(units, quantity, Some(name)) == ConversionResult(quantity, name)
  {
    PlainUnitName(name);
  }

  /** Millilitres and litres convert to themselves, in the unit they are already in. */
  lemma ConvertVolumeAgain(quantity: real, source: UnitDefinition)
    ensures
      var r := ConvertVolume(quantity, source);
      ConvertVolume(r.quantity, UnitDefinition(Volume, if r.unit == "liter" then 1000.0 else 1.0)) == r
  {
  }

  /** Grams convert to themselves. */
  lemma ConvertWeightAgain(quantity: real, source: UnitDefinition)
    ensures
      var r := ConvertWeight(quantity, source);
      ConvertWeight(r.quantity, UnitDefinition(Mass, 1.0)) == r
  {
  }

  lemma ConvertIdempotentVolume(units: UnitRegistry, quantity: real, u: string)
    requires !IsBlank(u) && KnownAs(units, u, Volume)
    ensures
      var r := Convert(units, quantity, Some(u));
      Convert(units, r.quantity, Some(r.unit)) == r
  {
    var def := units[NormalizeUnitName(u)];
    var r := ConvertVolume(quantity, def);
    ConvertKnown(units, quantity, u);
    ConvertVolumeAgain(quantity, def);
    if r.unit == "liter" {
      LitreNormalized();
      ConvertKnown(units, r.quantity, "liter");
    } else {
      MillilitreNormalized();
      ConvertKnown(units, r.quantity, "ml");
    }
  }

  lemma ConvertIdempotentWeight(units: UnitRegistry, quantity: real, u: string)
    requires !IsBlank(u) && KnownAs(units, u, Mass)
    ensures
      var r := Convert(units, quantity, Some(u));
      Convert(units, r.quantity, Some(r.unit)) == r
  {
    var def := units[NormalizeUnitName(u)];
    var r := ConvertWeight(quantity, def);
    ConvertKnown(units, quantity, u);
    ConvertWeightAgain(quantity, def);
    NormalizeUnitNameGram();
    ConvertKnown(units, r.quantity, "gr");
  }

  /**
   * Converting a converted result again gives it back: "ml", "liter" and "gr"
   * quantities are already normalised, and anything else passes through.
   */
  lemma ConvertIdempotent(units: UnitRegistry, quantity: real, unit: Option<string>)
    ensures
      var r := Convert(units, quantity, unit);
      Convert(units, r.quantity, Some(r.unit)) == r
  {
    if unit.None? || IsBlank(unit.value) {
      assert Convert(units, quantity, unit).unit == [];
    } else if KnownAs(units, unit.value, Volume) {
      ConvertIdempotentVolume(units, quantity, unit.value);
    } else if KnownAs(units, unit.value, Mass) {
      ConvertIdempotentWeight(units, quantity, unit.value);
    }
  }

  /** Converting a non-negative amount of a unit of positive size gives a non-negative amount. */
  lemma ConvertByDimensionNonNegative(quantity: real, source: UnitDefinition)
    requires quantity >= 0.0 && source.factor > 0.0
    ensures ConvertVolume(quantity, source).quantity >= 0.0
    ensures ConvertWeight(quantity, source).quantity >= 0.0
  {
  }

  lemma ConvertKnownNonNegative(units: UnitRegistry, quantity: real, u: string)
    requires quantity >= 0.0 && !IsBlank(u) && NormalizeUnitName(u) in units
    ensures Convert(units, quantity, Some(u)).quantity >= 0.0
  {
    var def := units[NormalizeUnitName(u)];
    assert def.factor > 0.0;
    ConvertKnown(units, quantity, u);
    ConvertByDimensionNonNegative(quantity, def);
  }

  /** A non-negative quantity stays non-negative: every registered size is positive. */
  lemma ConvertNonNegative(units: UnitRegistry, quantity: real, unit: Option<string>)
    requires quantity >= 0.0
    ensures Convert(units, quantity, unit).quantity >= 0.0
  {
    if unit.Some? && !IsBlank(unit.value) && NormalizeUnitName(unit.value) in units {
      ConvertKnownNonNegative(units, quantity, unit.value);
    }
  }

  /** Rounding a rounded quantity changes nothing. */
  lemma RoundQuantityIdempotent(quantity: real)
    ensures RoundQuantity(Value(RoundQuantity(quantity))) == RoundQuantity(quantity)
  {
    var v := Value(RoundQuantity(quantity));
    if quantity >= 10.0 {
      RoundHalfEvenOfWhole(RoundHalfEven(quantity));
    } else {
      assert (v * 100.0).Floor as real == v * 100.0;
      assert (v * 100.0).Floor as real / 100.0 == v;
    }
  }

  /** Rounding never makes a non-negative quantity negative. */
  lemma RoundQuantityNonNegative(quantity: real)
    requires quantity >= 0.0
    ensures Value(RoundQuantity(quantity)) >= 0.0
  {
    if quantity < 10.0 {
      assert (quantity * 100.0).Floor >= 0;
    }
  }

  /** Two cups are 480 ml: the cup is the 240 ml cooking cup. */
  lemma ConvertCupsExample()
    ensures Convert(Registry, 2.0, Some("cups")) == ConversionResult(480.0, "ml")
  {
    var def := UnitDefinition(Volume, 240.0);
    assert Lower("cups") == "cups";
    assert Registry["cups"] == def;
    ConvertPlain(Registry, 2.0, "cups", def);
  }

  /** A gallon is past the threshold and comes back as 3.78 to 3.79 litres. */
  lemma ConvertGallonExample()
    ensures
      var r := Convert(Registry, 1.0, Some("gallon"));
      r.unit == "liter" && 3.78 <= r.quantity <= 3.79
  {
    var def := UnitDefinition(Volume, 3785.411784);
    assert Lower("gallon") == "gallon";
    assert Registry["gallon"] == def;
    ConvertPlain(Registry, 1.0, "gallon", def);
  }

  /** The table's pound is 453.59237 g. */
  lemma PoundRegistered()
    ensures "pound" in Registry && Registry["pound"] == UnitDefinition(Mass, 453.59237)
  {
  }

  /** 0.44 pound is between 199 and 200 grams. */
  lemma ConvertPoundExample()
    ensures
      var r := Convert(Registry, 0.44, Some("pound"));
      r.unit == "gr" && 199.0 <= r.quantity <= 200.0
  {
    var def := UnitDefinition(Mass, 453.59237);
    assert Lower("pound") == "pound";
    assert Registry["pound"] == def;
    ConvertPlain(Registry, 0.44, "pound", def);
  }

  /** The dotted fluid-ounce alias converts: 2.02 fl. oz. is between 59 and 60 ml. */
  lemma ConvertFluidOunceExample()
    ensures
      var r := Convert(Registry, 2.02, Some("fl. oz."));
      r.unit == "ml" && 59.0 <= r.quantity <= 60.0
  {
    var def := UnitDefinition(Volume, 29.5735295625);
    assert Registry["floz"] == def;
    NormalizeUnitNameDottedFluidOunce();
    ConvertKnown(Registry, 2.02, "fl. oz.");
    assert 2.02 * def.factor == 59.73852971625;
  }

  /** A tablespoon is between 14 and 15 ml. */
  lemma ConvertTablespoonExample()
    ensures
      var r := Convert(Registry, 1.0, Some("tablespoon"));
      r.unit == "ml" && 14.0 <= r.quantity <= 15.0
  {
    var def := UnitDefinition(Volume, 14.78676478125);
    assert Lower("tablespoon") == "tablespoon";
    assert Registry["tablespoon"] == def;
    ConvertPlain(Registry, 1.0, "tablespoon", def);
  }

  /** A teaspoon is between 4 and 5 ml. */
  lemma ConvertTeaspoonExample()
    ensures
      var r := Convert(Registry, 1.0, Some("teaspoon"));
      r.unit == "ml" && 4.0 <= r.quantity <= 5.0
  {
    var def := UnitDefinition(Volume, 4.92892159375);
    assert Lower("teaspoon") == "teaspoon";
    assert Registry["teaspoon"] == def;
    ConvertPlain(Registry, 1.0, "teaspoon", def);
  }

  /** An ounce is between 28 and 29 grams. */
  lemma ConvertOunceExample()
    ensures
      var r := Convert(Registry, 1.0, Some("ounce"));
      r.unit == "gr" && 28.0 <= r.quantity <= 29.0
  {
    var def := UnitDefinition(Mass, 28.349523125);
    assert Lower("ounce") == "ounce";
    assert Registry["ounce"] == def;
    ConvertPlain(Registry, 1.0, "ounce", def);
  }

  /** Millilitres are kept as they are. */
  lemma ConvertMillilitreExample()
    ensures Convert(Registry, 10.0, Some("ml")) == ConversionResult(10.0, "ml")
  {
    MillilitreNormalized();
    ConvertKnown(Registry, 10.0, "ml");
  }

  /** Count-based and unknown units pass through. */
  lemma ConvertNoUnitExample()
    ensures Convert(Registry, 12.0, None) == ConversionResult(12.0, "")
  {
  }

  lemma ConvertEmptyUnitExample()
    ensures Convert(Registry, 5.0, Some("")) == ConversionResult(5.0, "")
  {
  }

  lemma ConvertUnknownUnitExample()
    ensures Convert(Registry, 3.0, Some("pinch")) == ConversionResult(3.0, "pinch")
  {
    assert Lower("pinch") == "pinch";
    assert "pinch" !in Registry by {
      assert "pinch"[0] != "liter"[0] && "pinch"[1] != "pound"[1];
      assert "pinch"[0] != "ounce"[0] && "pinch"[0] != "meter"[0];
    }
    ConvertUnregistered(Registry, 3.0, "pinch");
  }

  /** The rounding rule on the values a recipe shows. */
  lemma RoundQuantityExamples()
    ensures RoundQuantity(3.78541) == Float(3.78)
    ensures RoundQuantity(5.0) == Int(5)
    ensures RoundQuantity(2.5) == Float(2.5)
    ensures RoundQuantity(12.5) == Int(12)
  {
    assert (3.78541 * 100.0).Floor == 378;
    assert (5.0 * 100.0).Floor == 500;
    assert (2.5 * 100.0).Floor == 250;
    assert (12.5).Floor == 12;
  }
}
