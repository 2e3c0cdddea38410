# recipe_normalizer in Dafny

A Dafny model of the metric-normalisation pipeline of `recipe_normalizer`. The pipeline reads
recipe files (XML and YAML), converts ingredient quantities to metric units, rounds them with a
cooking-friendly rule, sorts the recipes and exports them as clean dictionaries.

The model has one module per core source file:

- `Units` (`converters/units.py`): the unit converter. It normalises unit names, converts volume
  to ml or litres and weight to grams, and rounds quantities.
- `Models` (`models.py`): the `Ingredient` and `Recipe` values, their validators, the quantity
  serializer and the clean dump.
- `Exceptions` (`exceptions.py`): the error hierarchy as one datatype, with its messages.
- `XmlParser` and `YamlParser` (`parsers/xml_parser.py`, `parsers/yaml_parser.py`): the parsers,
  walking an already-loaded document tree.
- `RecipeFields`: the field helpers the two parsers share line for line, including the
  ingredient loop.
- `Registry` (`parsers/registry.py`): the parser registry, a class over an ordered list of parsers.
- `Normalizer` (`services/normalizer.py`): the batch normaliser. It selects files, parses and
  normalises each one, applies fail-fast or skip-errors handling, refuses an empty result and
  sorts the recipes.

Several helper modules model the pieces of Python the core relies on:

- `Wrappers`: `Option` and `Result`.
- `Text`: `str.strip`, `str.lower` on ASCII letters, and integer and decimal text.
- `Numbers`: Python's `int | float` as the `Number` datatype, truncation and round-half-to-even.
- `Document`: a loaded XML/YAML tree as the `Json` datatype. It provides `dict.get`, Python
  truthiness, `str()` and `float()` on it.

Quantities are exact `real` numbers.

State that the source updates in place is modelled as classes:

- `Registry.ParserRegistry` holds its parser list, which `Register` appends to.
- `Normalizer.RecipeNormalizer` holds the registry and the unit table.

Each loop of the source is a method proved equal to a recursive specification function, and the
properties are lemmas about that function:

- `ParserRegistry.GetParserForFile` and `GetSupportedExtensions`;
- `RecipeFields.CollectIngredients`, the `_parse_ingredients` loop;
- `RecipeNormalizer.NormalizeDirectory`.

A file on disk is a `Registry.FileEntry`. It holds:

- its path;
- whether it is a regular file;
- what the XML loader and the YAML loader make of it, each as a `RecipeFields.Load`: missing,
  permission denied, another read error, a decoding error, malformed, or loaded into a document.

A directory is a `Normalizer.Directory`: its path, whether it is a directory, and its entries in
`iterdir` order.

## Model

| member | source | states |
|---|---|---|
| Text.StripTrimmed | src/recipe_normalizer/models.py:22 | `strip` leaves a string without surrounding white space unchanged |
| Text.StripIdempotent | src/recipe_normalizer/models.py:22 | stripping twice is stripping once |
| Text.StripEmptyIffBlank | src/recipe_normalizer/models.py:22-24 | the stripped text is empty exactly when the text is all white space |
| Text.StripSurrounded | src/recipe_normalizer/models.py:22 | white space around a trimmed, non-empty text is removed and the text kept |
| Text.LowerStrip | src/recipe_normalizer/converters/units.py:54 | lowering then stripping equals stripping then lowering |
| Text.ParseDecimalOfPlain | src/recipe_normalizer/parsers/xml_parser.py:102 | `float()` of plain decimal text `whole.frac` is the value of its digits |
| Units.NormalizeUnitName | src/recipe_normalizer/converters/units.py:52-55 | `unit.lower().strip()`, then the alias table, the name itself when it is no alias; its properties are the rows that follow |
| Units.NormalizeUnitNameCanonical | src/recipe_normalizer/converters/units.py:52-55 | a normalised unit name is trimmed, lower-case and never itself an alias |
| Units.NormalizeUnitNameIgnoresCase | src/recipe_normalizer/converters/units.py:52-55 | normalising ignores letter case |
| Units.NormalizeUnitNameIgnoresBlanks | src/recipe_normalizer/converters/units.py:52-55 | normalising ignores surrounding whitespace |
| Units.NormalizeUnitNameIdempotent | src/recipe_normalizer/converters/units.py:52-55 | normalising a normalised name changes nothing |
| Units.AliasTargetsAreCanonical | src/recipe_normalizer/converters/units.py:26-30 | the aliases map "fl. oz.", "fl oz" to "floz" and "gr" to "gram"; no alias target is an alias |
| Units.NormalizeUnitNameDottedFluidOunce | src/recipe_normalizer/converters/units.py:26-30 | "fl. oz." normalises to "floz" |
| Units.NormalizeUnitNameSpacedFluidOunce | src/recipe_normalizer/converters/units.py:52-55 | " Fl Oz " is lowered and stripped before the alias lookup and becomes "floz" |
| Units.NormalizeUnitNameGram | src/recipe_normalizer/converters/units.py:26-30 | "gr" and "GR" normalise to "gram", not to the grain |
| Units.NormalizeUnitNameCups | src/recipe_normalizer/converters/units.py:52-55 | a plural name is kept, only lowered and stripped |
| Units.PlainUnitName | src/recipe_normalizer/converters/units.py:52-55 | a trimmed lower-case name that is not an alias is returned as is |
| Units.FormatOutputUnit | src/recipe_normalizer/converters/units.py:73-80 | "milliliter" shows as "ml" and "gram" as "gr"; every other name, "liter" included, is kept, so no long target name is ever shown |
| Units.FormatOutputUnitIdempotent | src/recipe_normalizer/converters/units.py:73-80 | formatting a formatted unit changes nothing |
| Units.ConvertVolume | src/recipe_normalizer/converters/units.py:111-119 | the amount in ml is quantity times the unit size; the unit is "liter" exactly when that amount is at least 1000 ml, and "ml" otherwise |
| Units.ConvertWeight | src/recipe_normalizer/converters/units.py:121-127 | the weight in grams, shown as "gr" |
| Units.Convert | src/recipe_normalizer/converters/units.py:82-109 | no unit or a blank unit gives the quantity with unit ""; an unknown unit, or a known one of another dimension, gives the quantity and the unit as written; volume and weight convert as above |
| Units.ConvertKnown | src/recipe_normalizer/converters/units.py:95-104 | a known unit is converted by its dimension after normalising its name |
| Units.ConvertIdempotent | src/recipe_normalizer/converters/units.py:82-127 | converting a converted result again gives that result back: metric results are already normalised and anything else passes through |
| Units.ConvertNonNegative | src/recipe_normalizer/converters/units.py:82-127 | a non-negative quantity converts to a non-negative quantity |
| Units.RoundQuantity | src/recipe_normalizer/converters/units.py:129-146 | from 10 up: an int within 0.5 of the quantity, the even one on a tie; below 10: a multiple of 0.01 not above the quantity and less than 0.01 below it, an int exactly when it is whole |
| Units.RoundQuantityIdempotent | src/recipe_normalizer/converters/units.py:129-146 | rounding a rounded quantity changes nothing |
| Units.RoundQuantityNonNegative | src/recipe_normalizer/converters/units.py:141-146 | a non-negative quantity rounds to a non-negative value, so the rounded ingredient stays valid |
| Units.ConvertCupsExample | src/recipe_normalizer/converters/units.py:50 | 2 cups are 480 ml, the cup being 240 ml |
| Units.ConvertGallonExample | tests/test_converters.py:15-20 | one gallon is between 3.78 and 3.79 liter |
| Units.ConvertPoundExample | tests/test_converters.py:22-27 | a pound converts to grams shown as "gr" |
| Units.ConvertFluidOunceExample | tests/test_converters.py:29-34 | "fl oz" converts to between 59 and 60 ml |
| Units.ConvertTablespoonExample | tests/test_converters.py:66-71 | a tablespoon converts to between 14 and 15 ml |
| Units.ConvertTeaspoonExample | tests/test_converters.py:73-78 | a teaspoon converts to between 4 and 5 ml |
| Units.ConvertOunceExample | tests/test_converters.py:80-85 | an ounce converts to between 28 and 29 gr |
| Units.ConvertMillilitreExample | tests/test_converters.py:42-46 | 10 ml stays 10 ml |
| Units.ConvertNoUnitExample | tests/test_converters.py:48-52 | 12 with no unit stays 12 with unit "" |
| Units.ConvertEmptyUnitExample | tests/test_converters.py:54-58 | 5 with unit "" stays 5 with unit "" |
| Units.ConvertUnknownUnitExample | tests/test_converters.py:60-64 | 3 "pinch" passes through as 3 "pinch" |
| Units.ConvertPlain | src/recipe_normalizer/converters/units.py:95-104 | a plain registered name converts by its dimension: volume to ml or litres, mass to grams |
| Units.ConvertUnregistered | src/recipe_normalizer/converters/units.py:95-109 | a plain name the unit table does not know passes through with the quantity unchanged |
| Units.RoundQuantityExamples | tests/test_converters.py:95-109 | 3.78541 truncates to 3.78, 5.0 becomes the int 5, 2.5 stays 2.5, 12.5 rounds to 12 |
| Numbers.RoundHalfEven | src/recipe_normalizer/converters/units.py:142 | the nearest integer, the even one on a tie |
| Numbers.RoundCents | src/recipe_normalizer/models.py:41 | a multiple of 0.01 within 0.005 of the value |
| Numbers.TruncateWhole | src/recipe_normalizer/converters/units.py:144 | `truncated == int(truncated)` holds exactly when the value is whole |
| Exceptions.Message | src/recipe_normalizer/exceptions.py:8-58 | the message each exception class builds in its constructor, written out per class |
| Exceptions.ParseMessageShowsKind | src/recipe_normalizer/exceptions.py:8-14 | a ParseError's message starts "Failed to parse '" and reads back as a parse error |
| Exceptions.ValidationMessageShowsKind | src/recipe_normalizer/exceptions.py:17-23 | a ValidationError's message starts "Validation error in '" and reads back as a validation error |
| Exceptions.FileReadMessageShowsKind | src/recipe_normalizer/exceptions.py:26-32 | a FileReadError's message starts "Cannot read file '" and reads back as a read error |
| Exceptions.FileWriteMessageShowsKind | src/recipe_normalizer/exceptions.py:35-41 | a FileWriteError's message starts "Cannot write to '" and reads back as a write error |
| Exceptions.UnsupportedMessageShowsKind | src/recipe_normalizer/exceptions.py:44-50 | an UnsupportedFormatError's message starts "Unsupported file format '" and reads back as such |
| Exceptions.EmptyMessageShowsKind | src/recipe_normalizer/exceptions.py:53-58 | an EmptyDirectoryError's message starts "No recipe files found in '" and reads back as such |
| Exceptions.MessageShowsKind | src/recipe_normalizer/exceptions.py:8-58 | each error class renders with its own message prefix, so the class can be read back from the message |
| Exceptions.MessageEndsWithDetail | src/recipe_normalizer/exceptions.py:8-23 | the message of a parse or validation error ends with the detail text it was given |
| Models.NewIngredient | src/recipe_normalizer/models.py:8-33 | an ingredient is built exactly when its item is not blank and its quantity is absent or non-negative; the item is stored stripped; otherwise the failing fields are reported |
| Models.NewRecipe | src/recipe_normalizer/models.py:55-71 | a recipe is built exactly when its name is not blank; the name is stored stripped |
| Models.IngredientDefaults | src/recipe_normalizer/models.py:13-16 | quantity, unit and comment default to none |
| Models.IngredientItemStripped | src/recipe_normalizer/models.py:18-25 | the item is stored stripped |
| Models.IngredientEmptyItem | src/recipe_normalizer/models.py:18-25 | an empty item is rejected |
| Models.IngredientBlankItem | src/recipe_normalizer/models.py:18-25 | a whitespace-only item is rejected |
| Models.IngredientNegativeQuantity | src/recipe_normalizer/models.py:27-33 | a negative quantity is rejected |
| Models.RecipeDefaults | src/recipe_normalizer/models.py:60-62 | ingredients and preparations default to empty |
| Models.RecipeNameStripped | src/recipe_normalizer/models.py:64-71 | the name is stored stripped |
| Models.RecipeBlankName | src/recipe_normalizer/models.py:64-71 | a blank name is rejected |
| Models.SerializeQuantity | src/recipe_normalizer/models.py:35-45 | none stays none and an int is kept; a float becomes its value rounded to 2 decimals, an int when that is whole |
| Models.SerializeQuantityIdempotent | src/recipe_normalizer/models.py:35-45 | serializing twice is serializing once |
| Models.SerializeQuantityOfCents | src/recipe_normalizer/models.py:35-45 | a value with at most 2 decimals keeps its value; it is an int exactly when whole |
| Models.SerializeQuantityExamples | tests/test_models.py:48-61 | 3.78541 serializes to 3.79 (rounded, unlike the truncating converter) and 12.0 to the int 12 |
| Models.IngredientDump | src/recipe_normalizer/models.py:47-52 | `model_dump_clean` of an ingredient: the item, then quantity, unit and comment when set, the unit only when not empty; read back by the next row |
| Models.RecipeDump | src/recipe_normalizer/models.py:73-79 | `model_dump_clean` of a recipe: its name, the clean dump of each ingredient in order, and its preparations |
| Models.IngredientDumpRoundTrip | src/recipe_normalizer/models.py:47-52 | the clean dump of an ingredient reads back as that ingredient with its quantity serialized and an empty unit dropped |
| Models.IngredientsDumpRoundTrip | src/recipe_normalizer/models.py:73-79 | a dumped ingredient list reads back element by element, in order |
| Models.TextsDumpRoundTrip | src/recipe_normalizer/models.py:73-79 | dumped preparations read back unchanged |
| Models.RecipeDumpRoundTrip | src/recipe_normalizer/models.py:73-79 | the clean dump of a recipe is exactly its name, its dumped ingredients in order and its preparations |
| Models.IngredientDumpSalt | tests/test_models.py:31-38 | absent fields are left out of the dump |
| Models.IngredientDumpEmptyUnit | tests/test_models.py:40-46 | an empty unit is left out of the dump |
| Models.RecipeDumpWater | tests/test_models.py:110-124 | the dump of a one-ingredient recipe |
| RecipeFields.ParseName | src/recipe_normalizer/parsers/xml_parser.py:54-60 | a missing or falsy name is the ParseError "Recipe name is required"; otherwise exactly the stripped `str()` of the name |
| RecipeFields.ParseQuantity | src/recipe_normalizer/parsers/xml_parser.py:95-104 | none exactly when the quantity is absent or `float()` refuses it; otherwise a float of `float()`'s value: a number keeps its value, a boolean is 1.0 or 0.0, text is read as decimal text |
| RecipeFields.ParseQuantityOfDecimalText | src/recipe_normalizer/parsers/xml_parser.py:101-102 | a quantity given as text `whole.frac` is read as the value of those digits |
| RecipeFields.ParseQuantityExamples | src/recipe_normalizer/parsers/xml_parser.py:101-104 | "2.5" gives 2.5, `true` gives 1.0, and "a", which `float()` refuses, gives none |
| RecipeFields.ParseUnit | src/recipe_normalizer/parsers/xml_parser.py:106-113 | none exactly when the unit is absent or blank; otherwise the stripped text |
| RecipeFields.ParseComment | src/recipe_normalizer/parsers/xml_parser.py:115-121 | none exactly when the comment is absent; otherwise exactly the stripped `str()` of the comment, possibly empty |
| RecipeFields.SingleIngredient | src/recipe_normalizer/parsers/xml_parser.py:79-93 | `_parse_single_ingredient`: an ingredient it builds is valid; what it builds, skips or refuses is stated by the next row |
| RecipeFields.SingleIngredientMeaning | src/recipe_normalizer/parsers/xml_parser.py:79-93 | an entry is skipped when it is not a dict or has no truthy item; it is invalid when the model refuses it; otherwise it is built from the parsed fields |
| RecipeFields.Outcomes | src/recipe_normalizer/parsers/xml_parser.py:71-76 | one outcome per entry, in order |
| RecipeFields.IngredientsFrom | src/recipe_normalizer/parsers/xml_parser.py:62-77 | the built ingredients are valid and no more than the entries |
| RecipeFields.GatherMeaning | src/recipe_normalizer/parsers/xml_parser.py:71-77 | the loop fails with the first invalid entry's errors; otherwise it keeps the built ingredients in document order |
| RecipeFields.FailureSticks | src/recipe_normalizer/parsers/xml_parser.py:71-77 | once the loop has failed, later entries change nothing |
| RecipeFields.CollectIngredients | src/recipe_normalizer/parsers/xml_parser.py:62-77 | the `_parse_ingredients` loop computes exactly `IngredientsFrom` |
| RecipeFields.Preparations | src/recipe_normalizer/parsers/yaml_parser.py:124-131 | the preparation steps are stripped and no more than the entries |
| RecipeFields.PreparationsOfStripped | src/recipe_normalizer/parsers/yaml_parser.py:124-131 | a list of stripped, non-empty steps reads back unchanged |
| RecipeFields.PreparationsKeepBlankStep | src/recipe_normalizer/parsers/yaml_parser.py:124-131 | a truthy blank step is kept as "" |
| RecipeFields.PreparationsDropFalsy | src/recipe_normalizer/parsers/yaml_parser.py:124-131 | falsy steps are dropped |
| RecipeFields.BuildRecipe | src/recipe_normalizer/parsers/xml_parser.py:26-39 | a built recipe is valid; a failure is a ParseError or a ValidationError |
| RecipeFields.BuildRecipeMeaning | src/recipe_normalizer/parsers/xml_parser.py:33-39 | a recipe is built exactly when the name is truthy and not blank and no ingredient is invalid; it holds the stripped name, the kept ingredients and the preparations |
| RecipeFields.BuildRecipeNameFirst | src/recipe_normalizer/parsers/xml_parser.py:33 | a missing name fails before the ingredients are read |
| RecipeFields.Build | src/recipe_normalizer/parsers/xml_parser.py:33-39 | runs the ingredient loop and computes the specified recipe |
| XmlParser.SupportsExtension | src/recipe_normalizer/parsers/xml_parser.py:20-24 | the lower-cased extension is ".xml" |
| XmlParser.SupportsExtensionIgnoresCase | src/recipe_normalizer/parsers/xml_parser.py:20-24 | the extension check ignores case |
| XmlParser.SupportsExtensionExamples | tests/test_parsers.py:24-28 | ".xml" and ".XML" are accepted and ".yaml" is not |
| XmlParser.LoadXml | src/recipe_normalizer/parsers/xml_parser.py:41-52 | a missing file and a refused read are FileReadErrors; any other failure is a ParseError starting "Invalid XML: " |
| XmlParser.IngredientEntries | src/recipe_normalizer/parsers/xml_parser.py:62-70 | a single ingredient element is one entry; anything but a dict or a list is none |
| XmlParser.XmlPreparations | src/recipe_normalizer/parsers/xml_parser.py:123-133 | a single text element gives no step exactly when it is blank, and otherwise its stripped text as the one step; a list gives the shared comprehension `RecipeFields.Preparations` of its items; anything else gives no step; every step is stripped |
| XmlParser.SinglePreparationAsList | src/recipe_normalizer/parsers/xml_parser.py:127-129 | a single non-blank step element reads the same as a list holding only it: one stripped step |
| XmlParser.XmlPreparationsSingleBlank | src/recipe_normalizer/parsers/xml_parser.py:123-133 | a single blank step is dropped, while a blank step in a list is kept as "" |
| XmlParser.Parse | src/recipe_normalizer/parsers/xml_parser.py:26-39 | a parsed recipe is valid; every failure is a domain error or the AttributeError of `.get` on a non-dict |
| XmlParser.ParseFile | src/recipe_normalizer/parsers/xml_parser.py:26-39 | computes the specified parse |
| XmlParser.ParseMeaning | src/recipe_normalizer/parsers/xml_parser.py:26-39 | a parse succeeds exactly for a loaded dict whose `root` is a dict with a usable name and no invalid ingredient; the recipe holds the stripped name, the kept ingredients in order and the preparations |
| XmlParser.ParseErrors | src/recipe_normalizer/parsers/xml_parser.py:41-60 | a missing file, a refused read, malformed XML and a missing name each fail with their own error |
| XmlParser.ParseRootNotDict | src/recipe_normalizer/parsers/xml_parser.py:32-33 | a `root` that is not a dict fails with AttributeError |
| XmlParser.ParseEmptyRoot | src/recipe_normalizer/parsers/xml_parser.py:32-33 | an empty `root` element fails with AttributeError on `NoneType` |
| XmlParser.SingleIngredientElementAsList | src/recipe_normalizer/parsers/xml_parser.py:66-69 | a single ingredient element reads like a one-element list |
| YamlParser.SupportsExtension | src/recipe_normalizer/parsers/yaml_parser.py:20-24 | the lower-cased extension is ".yaml" or ".yml" |
| YamlParser.SupportsExtensionIgnoresCase | src/recipe_normalizer/parsers/yaml_parser.py:20-24 | the extension check ignores case |
| YamlParser.SupportsExtensionExamples | tests/test_parsers.py:115-120 | ".yaml", ".yml" and ".YAML" are accepted and ".xml" is not |
| YamlParser.ExtensionsDisjoint | src/recipe_normalizer/parsers/yaml_parser.py:20-24 | no extension is claimed by both parsers |
| YamlParser.LoadYaml | src/recipe_normalizer/parsers/yaml_parser.py:26-38 | a missing file and a refused read are FileReadErrors and a syntax error is a ParseError; any other read error and a decoding error escape uncaught |
| YamlParser.IngredientEntries | src/recipe_normalizer/parsers/yaml_parser.py:60-70 | a non-list `ingredients` gives no entries, so a single dict is not wrapped |
| YamlParser.YamlPreparations | src/recipe_normalizer/parsers/yaml_parser.py:124-131 | a non-list `preparations` gives no steps; the steps are stripped |
| YamlParser.Parse | src/recipe_normalizer/parsers/yaml_parser.py:26-50 | a parsed recipe is valid; a loaded document that is not a dict is the ParseError "Invalid YAML structure: expected a dict"; only the uncaught read and decoding errors are not domain errors |
| YamlParser.ParseFile | src/recipe_normalizer/parsers/yaml_parser.py:26-50 | computes the specified parse |
| YamlParser.ParseMeaning | src/recipe_normalizer/parsers/yaml_parser.py:26-50 | a parse succeeds exactly for a loaded dict with a usable name and no invalid ingredient; the recipe holds the stripped name, the kept ingredients in order and the preparations |
| YamlParser.ParseMissingName | src/recipe_normalizer/parsers/yaml_parser.py:52-58 | a missing or falsy name is the ParseError "Recipe name is required" |
| YamlParser.ParseEmptyFile | src/recipe_normalizer/parsers/yaml_parser.py:40-41 | an empty file loads as none, which is not a dict |
| YamlParser.AgreesWithXml | src/recipe_normalizer/parsers/yaml_parser.py:26-131 | on a document whose lists are lists, the XML parser reading it under `root` and the YAML parser agree |
| Registry.ParseWith | src/recipe_normalizer/parsers/registry.py:59 | a parser's recipe is valid |
| Registry.LastIndexOf | src/recipe_normalizer/parsers/registry.py:38 | the last position of a character, or none when it does not occur |
| Registry.LastIndexOfAt | src/recipe_normalizer/parsers/registry.py:38 | a position holding the character with none after it is the last index |
| Registry.FileName | src/recipe_normalizer/parsers/registry.py:38 | the file name holds no slash |
| Registry.Suffix | src/recipe_normalizer/parsers/registry.py:38 | `Path.suffix`: empty, or a dot followed by no other dot or slash |
| Registry.SuffixAt | src/recipe_normalizer/parsers/registry.py:38 | when the last dot of the file name is neither its first nor its last character, the suffix runs from that dot to the end |
| Registry.SuffixWithoutDot | src/recipe_normalizer/parsers/registry.py:38 | a file name without a dot has no suffix |
| Registry.SuffixOfDotFile | src/recipe_normalizer/parsers/registry.py:38 | a file name whose only dot is its first character has no suffix |
| Registry.SuffixOfXmlFile | src/recipe_normalizer/parsers/registry.py:38 | the suffix of "d/rice.XML" is ".XML", case kept |
| Registry.SuffixOfYamlFile | src/recipe_normalizer/parsers/registry.py:38 | the suffix of "d/rice.yaml" is ".yaml" |
| Registry.SuffixOfTextFile | src/recipe_normalizer/parsers/registry.py:38 | the suffix of "d/ignored.txt" is ".txt" |
| Registry.SuffixOfDoubleExtension | src/recipe_normalizer/parsers/registry.py:38 | only the last extension counts |
| Registry.SuffixOfHiddenFile | src/recipe_normalizer/parsers/registry.py:38 | a name that only starts with a dot has no suffix |
| Registry.SuffixIgnoresDirectories | src/recipe_normalizer/parsers/registry.py:38 | a dot in a directory name is not a suffix |
| Registry.FirstSupporting | src/recipe_normalizer/parsers/registry.py:38-42 | none exactly when no registered parser supports the extension; otherwise a registered parser that supports it |
| Registry.FirstSupportingIsFirst | src/recipe_normalizer/parsers/registry.py:39-41 | the first supporting parser in registration order wins |
| Registry.FirstSupportingKeepsEarlier | src/recipe_normalizer/parsers/registry.py:20-42 | registering another parser does not change an extension that is already served |
| Registry.ParseFile | src/recipe_normalizer/parsers/registry.py:44-59 | without a parser for the suffix: UnsupportedFormatError with the path and the suffix; otherwise exactly that parser's result |
| Registry.AdvertisedUnionMembers | src/recipe_normalizer/parsers/registry.py:61-71 | an extension is supported exactly when some registered parser advertises it |
| Registry.DefaultAdvertised | tests/test_parsers.py:221-226 | the default parsers support ".xml", ".yaml" and ".yml" |
| Registry.DefaultDispatch | tests/test_parsers.py:200-213 | ".xml" and ".XML" go to the XML parser, ".yml" to the YAML parser, ".txt" to none |
| Registry.UnsupportedExample | tests/test_parsers.py:215-219 | a ".txt" file is an UnsupportedFormatError naming ".txt" |
| Registry.ParserRegistry.constructor | src/recipe_normalizer/parsers/registry.py:16-18 | a new registry is empty |
| Registry.ParserRegistry.Register | src/recipe_normalizer/parsers/registry.py:20-27 | appends the parser, keeping registration order |
| Registry.ParserRegistry.GetParserForFile | src/recipe_normalizer/parsers/registry.py:29-42 | the loop finds the first parser supporting the file's suffix |
| Registry.ParserRegistry.Parse | src/recipe_normalizer/parsers/registry.py:44-59 | computes the specified dispatch |
| Registry.ParserRegistry.GetSupportedExtensions | src/recipe_normalizer/parsers/registry.py:61-71 | the loop builds the union of the advertised extensions |
| Normalizer.NormalizeIngredient | src/recipe_normalizer/services/normalizer.py:95-108 | without a quantity the ingredient is unchanged; otherwise item and comment are kept, the quantity is the rounded converted quantity and the unit the converted unit, none when that is "" |
| Normalizer.NormalizedUnit | src/recipe_normalizer/services/normalizer.py:95-108 | the normalised unit: none for no unit, "ml" or "liter" for volume, "gr" for weight, the unit as written otherwise |
| Normalizer.NormalizedWeight | src/recipe_normalizer/services/normalizer.py:100-101 | a weight ends up in grams, within 0.5 from 10 g up and within 0.01 below |
| Normalizer.NormalizeButterExample | tests/test_normalizer.py:62-82 | with any unit table whose pound is 453.59237 g, one pound of butter becomes 454 gr |
| Normalizer.NormalizeIngredients | src/recipe_normalizer/services/normalizer.py:86-88 | each ingredient is normalised, one to one, in order |
| Normalizer.NormalizeRecipe | src/recipe_normalizer/services/normalizer.py:84-93 | the name and preparations are kept; the ingredients are normalised one to one in order; the result is valid |
| Normalizer.NormalizeRecipeWithoutQuantities | src/recipe_normalizer/services/normalizer.py:84-98 | a recipe none of whose ingredients has a quantity is returned unchanged |
| Normalizer.NormalizeKeepsCommentExample | tests/test_normalizer.py:84-100 | a diced onion with quantity 1.0 and no unit is shown with the int 1 and keeps its comment "diced" |
| Normalizer.BelowIrreflexive | src/recipe_normalizer/services/normalizer.py:113 | the string order is strict |
| Normalizer.BelowTransitive | src/recipe_normalizer/services/normalizer.py:113 | the string order is transitive |
| Normalizer.BelowTotal | src/recipe_normalizer/services/normalizer.py:113 | distinct strings are ordered one way or the other |
| Normalizer.Insert | src/recipe_normalizer/services/normalizer.py:113 | places a recipe after every recipe whose key is not below its own; its properties are the rows that follow |
| Normalizer.SortRecipes | src/recipe_normalizer/services/normalizer.py:110-113 | `sorted(key=name.lower(), reverse=True)` as insertion of each recipe in input order; its properties are the rows that follow |
| Normalizer.InsertPermutes | src/recipe_normalizer/services/normalizer.py:113 | inserting adds exactly that recipe and loses none |
| Normalizer.SortRecipesPermutes | src/recipe_normalizer/services/normalizer.py:110-113 | the sorted list is a permutation of the input |
| Normalizer.InsertSorted | src/recipe_normalizer/services/normalizer.py:113 | inserting into a sorted list keeps it sorted |
| Normalizer.SortRecipesSorted | src/recipe_normalizer/services/normalizer.py:110-113 | recipes come out by non-increasing lower-cased name |
| Normalizer.InsertStable | src/recipe_normalizer/services/normalizer.py:113 | an inserted recipe goes after the recipes of equal key |
| Normalizer.SortRecipesStable | src/recipe_normalizer/services/normalizer.py:110-113 | recipes of equal lower-cased name keep their input order |
| Normalizer.SortRecipesExample | tests/test_normalizer.py:125-137 | zebra, apple, mango sort to zebra, mango, apple |
| Normalizer.SortThree | src/recipe_normalizer/services/normalizer.py:113 | three recipes with distinct keys come out by descending key |
| Normalizer.SortRecipesCaseTie | src/recipe_normalizer/services/normalizer.py:113 | "rice" and "Rice" have the same key and keep their order |
| Normalizer.RecipesToDict | src/recipe_normalizer/services/normalizer.py:125-128 | one dump per recipe |
| Normalizer.RecipesToDictRoundTrip | src/recipe_normalizer/services/normalizer.py:125-128 | the dumps read back as the exported recipes, in the same order |
| Normalizer.NormalizeFile | src/recipe_normalizer/services/normalizer.py:78-82 | a file fails exactly when its parse fails, with that error; a recipe is valid |
| Normalizer.OutcomeOf | src/recipe_normalizer/services/normalizer.py:57 | an entry is ignored exactly when it is not a regular file with a supported suffix |
| Normalizer.Outcomes | src/recipe_normalizer/services/normalizer.py:56-57 | one outcome per directory entry, in order |
| Normalizer.Step | src/recipe_normalizer/services/normalizer.py:58-67 | one pass of the loop: an ignored entry changes nothing, a recipe is appended, an error is raised when fatal and otherwise recorded, and a raised error stays raised |
| Normalizer.Fold | src/recipe_normalizer/services/normalizer.py:56-67 | the loop over the entries as repeated steps from an empty batch; its meaning is the next row |
| Normalizer.FoldMeaning | src/recipe_normalizer/services/normalizer.py:56-67 | the loop fails with the first error that is fatal; otherwise it collects every successful recipe and every skipped error, in order |
| Normalizer.FoldFailureSticks | src/recipe_normalizer/services/normalizer.py:62-67 | once an error is raised, the later entries change nothing |
| Normalizer.NormalizedDirectory | src/recipe_normalizer/services/normalizer.py:35-76 | a non-directory is a ValueError; a successful result is never empty |
| Normalizer.NormalizedDirectoryMeaning | src/recipe_normalizer/services/normalizer.py:35-76 | the first fatal error is the result; with no recipe the result is EmptyDirectoryError, whatever skip_errors is; otherwise the recipes sorted |
| Normalizer.NormalizedDirectoryResult | src/recipe_normalizer/services/normalizer.py:69-76 | the result is a permutation of the successful recipes, sorted by descending lower-cased name, stable on ties |
| Normalizer.NotADirectoryExample | tests/test_normalizer.py:139-143 | a non-directory fails with "Input path is not a directory: ...", which is not a RecipeNormalizerError |
| Normalizer.RelevantOnly | src/recipe_normalizer/services/normalizer.py:57 | ignored entries contribute neither recipes nor errors |
| Normalizer.OutcomesOfSelected | src/recipe_normalizer/services/normalizer.py:53-57 | processing the selected files alone gives the same outcomes as the whole directory without its ignored entries |
| Normalizer.NormalizedDirectoryIgnoresUnselected | src/recipe_normalizer/services/normalizer.py:53-57 | the result depends only on the selected files |
| Normalizer.NoRecipesIsEmptyDirectory | src/recipe_normalizer/services/normalizer.py:69-70 | a directory without a selected file is an EmptyDirectoryError |
| Normalizer.SelectsYamlFile | tests/test_normalizer.py:27-60 | a ".yaml" file is selected |
| Normalizer.IgnoresTextFile | tests/test_normalizer.py:145-157 | a ".txt" file is ignored |
| Normalizer.IgnoresUpperCaseXmlFile | src/recipe_normalizer/services/normalizer.py:57 | a ".XML" file is ignored although the registry would dispatch it to the XML parser |
| Normalizer.RecipeNormalizer.constructor | src/recipe_normalizer/services/normalizer.py:23-33 | the normaliser holds the given registry and unit table |
| Normalizer.RecipeNormalizer.NormalizeEntry | src/recipe_normalizer/services/normalizer.py:78-82 | `_normalize_file`: dispatches through the registry, then normalises the recipe, as specified |
| Normalizer.RecipeNormalizer.Visit | src/recipe_normalizer/services/normalizer.py:57-67 | the loop body for one entry performs exactly one specified step: a selected file's recipe is appended, its domain error recorded under skip_errors, any other error raised; an ignored entry changes nothing |
| Normalizer.RecipeNormalizer.NormalizeDirectory | src/recipe_normalizer/services/normalizer.py:35-76 | the loop over the entries computes exactly the specified batch result |

## Left out

- Units.Convert: pint's parsing of the unit text is not modelled. `convert` catches only `UndefinedUnitError` (`converters/units.py:97-109`). Text pint cannot read as a unit expression (one with a number in it, such as "2 tbsp", or one its tokenizer refuses) raises another error. That error is no RecipeNormalizerError, so `normalize_directory` stops even with skip_errors. The model passes such text through as an unknown unit.
- The unit library is a sample table of 13 units (`Units.Registry`), sized as the library defines them. Its parsing is not modelled: prefixes, and plurals other than "cups". The converter's lemmas hold for any well-formed table.
- Floating point is not modelled. Quantities are exact reals and Python `round` is exact round-half-to-even. `float()` of text reads plain decimals only (`Text.ParseDecimal`): no exponents, `inf` or `nan`. As a result, the litre value is exactly the ml value divided by 1000.
- A quantity that Python reads as `nan` or `inf` (the text "nan" or "inf", YAML's `.nan` or `.inf`) is not representable here: text of that kind is read as no quantity, so the ingredient is kept without one. In the source such a quantity passes validation (`nan < 0` is false) and then stops the whole batch during normalisation. `nan` makes `math.floor` raise ValueError (`converters/units.py:143`), and `inf` makes `round` raise OverflowError (`converters/units.py:142`). Neither error is a RecipeNormalizerError, so `normalize_directory` fails even with skip_errors. A `-inf` quantity is refused by validation as negative. Text with an exponent (`"1e3"`) is likewise read as no quantity, where Python reads 1000.0.
- `str.lower` is modelled for ASCII letters only. `str.strip` strips the characters Python counts as white space.
- Pydantic's message text is modelled in part (`Models.ValidationText`): the error count, the model name, and each field with its message. The input value, the error-type tag and the documentation link are left out.
- `repr` of non-string values is an approximation: strings are quoted without escapes, and floats are printed by `Numbers.FloatRepr`.
- File-system I/O is not modelled. `iterdir`, `is_dir`, `is_file` and the reading of files become `Normalizer.Directory` and `Registry.FileEntry`. The XML and YAML loaders become the `RecipeFields.Load` value of each entry.
- `export_to_json` and `_write_json` are not modelled: the JSON writer is I/O. As a consequence FileWriteError is never produced, though its message is.
- The `errors` list of `normalize_directory` is only logged. The model computes it (`Normalizer.Errors`) and does not return it.
- Logging is not modelled, and neither is `cli.py`.
- `parsers/base.py` is modelled as the `Registry.Parser` datatype. A parser other than the two built-in ones is a function value (`OtherParser`).
- The normaliser's default construction is not modelled: it builds a registry with both parsers and a fresh unit converter. The constructor takes them as parameters.
- Pydantic's type coercion and `extra="ignore"` are not modelled. Model fields are built from already-typed values.
- `round_quantity` calls Python `round` (`converters/units.py:142`), which rounds half to even; the model does the same, so 12.5 gives 12 (`Units.RoundQuantityExamples`).
