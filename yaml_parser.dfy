/**
 * The YAML recipe parser. The file is loaded into a tree of dicts, lists and scalars;
 * the recipe is the top-level dict itself.
 */
module YamlParser {
  import opened Wrappers
  import opened Text
  import opened Document
  import opened Models
  import opened Exceptions
  import opened RecipeFields
  import XmlParser

  const SupportedExtensions: set<string> := {".yaml", ".yml"}

  const InvalidYaml := "Invalid YAML: "
  const NotADict := "Invalid YAML structure: expected a dict"

  /** `supports_extension`: the lower-cased extension is one of the supported ones. */
  predicate SupportsExtension(extension: string) {
    Lower(extension) in SupportedExtensions
  }

  /** The extension check ignores case. */
  lemma SupportsExtensionIgnoresCase(extension: string)
    ensures SupportsExtension(extension) <==> SupportsExtension(Lower(extension))
  {
    LowerIdempotent(extension);
  }

  lemma SupportsExtensionExamples()
    ensures SupportsExtension(".yaml") && SupportsExtension(".yml") && SupportsExtension(".YAML")
    ensures !SupportsExtension(".xml")
  {
    assert Lower(".yaml") == ".yaml";
    assert Lower(".yml") == ".yml";
    assert Lower(".YAML") == ".yaml";
    assert Lower(".xml") == ".xml";
  }

  /** No extension is claimed by both parsers. */
  lemma ExtensionsDisjoint(extension: string)
    ensures !(SupportsExtension(extension) && XmlParser.SupportsExtension(extension))
  {
  }

  /**
   * The `open` and `safe_load` step of `parse`: a missing file and a refused read become
   * a FileReadError and a YAML syntax error a ParseError; any other read error (an
   * OSError) and a decoding error (a ValueError) are not caught and escape.
   */
  function LoadYaml(filePath: string, load: Load): (r: Result<Json, Exception>)
    ensures r.Success? <==> load.Loaded?
    ensures r.Success? ==> r.value == load.doc
    ensures load.Missing? ==> r.error == Domain(FileReadError(filePath, "File not found"))
    ensures load.PermissionDenied? ==> r.error == Domain(FileReadError(filePath, "Permission denied"))
    ensures load.Malformed? ==> r.error == Domain(ParseError(filePath, InvalidYaml + load.message))
    ensures load.ReadFailure? ==> r.error == OSError(load.message)
    ensures load.DecodeFailure? ==> r.error == ValueError(load.message)
  {
    match load
    case Missing => Failure(Domain(FileReadError(filePath, "File not found")))
    case PermissionDenied => Failure(Domain(FileReadError(filePath, "Permission denied")))
    case ReadFailure(message) => Failure(OSError(message))
    case DecodeFailure(message) => Failure(ValueError(message))
    case Malformed(message) => Failure(Domain(ParseError(filePath, InvalidYaml + message)))
    case Loaded(doc) => Success(doc)
  }

  /** The entries `_parse_ingredients` walks: the `ingredients` list, or none when it is not a list. */
  function IngredientEntries(data: seq<(string, Json)>): (r: seq<Json>)
    ensures GetOr(data, "ingredients", JList([])).JList? ==> r == GetOr(data, "ingredients", JList([])).items
    ensures !GetOr(data, "ingredients", JList([])).JList? ==> r == []
  {
    var entries := GetOr(data, "ingredients", JList([]));
    if entries.JList? then entries.items else []
  }

  /** `_parse_preparations`: the `preparations` list stripped, dropping the falsy steps; nothing when it is not a list. */
  function YamlPreparations(data: seq<(string, Json)>): (r: seq<string>)
    ensures forall k | 0 <= k < |r| :: Trimmed(r[k])
    ensures !GetOr(data, "preparations", JList([])).JList? ==> r == []
  {
    var steps := GetOr(data, "preparations", JList([]));
    if steps.JList? then Preparations(steps.items) else []
  }

  /**
   * `parse`: load the file; a document that is not a dict is a ParseError; otherwise the
   * recipe is read from it. Only a read or decoding error other than the two named ones
   * escapes as a built-in exception.
   */
  function Parse(filePath: string, load: Load): (r: Result<Recipe, Exception>)
    ensures r.Success? ==> ValidRecipe(r.value)
    ensures r.Failure? && !r.error.Domain? ==> load.ReadFailure? || load.DecodeFailure?
    ensures load.Loaded? && !load.doc.JDict? ==> r == Failure(Domain(ParseError(filePath, NotADict)))
  {
    match LoadYaml(filePath, load)
    case Failure(e) => Failure(e)
    case Success(data) =>
      if !data.JDict? then Failure(Domain(ParseError(filePath, NotADict)))
      else BuildRecipe(filePath, data.entries, IngredientEntries(data.entries), YamlPreparations(data.entries))
  }

  /** `YamlRecipeParser.parse`, running the ingredient loop. */
  method ParseFile(filePath: string, load: Load) returns (r: Result<Recipe, Exception>)
    ensures r == Parse(filePath, load)
  {
    var data := LoadYaml(filePath, load);
    if data.Failure? {
      return Failure(data.error);
    }
    if !data.value.JDict? {
      return Failure(Domain(ParseError(filePath, NotADict)));
    }
    r := Build(filePath, data.value.entries, IngredientEntries(data.value.entries), YamlPreparations(data.value.entries));
  }

  /**
   * A parse succeeds exactly for a loaded dict with a truthy, non-blank name and no
   * invalid ingredient; the recipe holds the stripped name, the built ingredients in
   * document order and the preparations.
   */
  lemma ParseMeaning(filePath: string, load: Load)
    ensures Parse(filePath, load).Success? <==>
      && load.Loaded? && load.doc.JDict?
      && Truthy(Get(load.doc.entries, "name")) && !IsBlank(Str(Get(load.doc.entries, "name")))
      && FirstInvalid(Outcomes(IngredientEntries(load.doc.entries))).None?
    ensures Parse(filePath, load).Success? ==>
      var data := load.doc.entries;
      Parse(filePath, load).value ==
        Recipe(Strip(Str(Get(data, "name"))), Kept(Outcomes(IngredientEntries(data))), YamlPreparations(data))
  {
    if load.Loaded? && load.doc.JDict? {
      var data := load.doc.entries;
      BuildRecipeMeaning(filePath, data, IngredientEntries(data), YamlPreparations(data));
    }
  }

  /** A loaded dict without a truthy name fails with the ParseError that names it. */
  lemma ParseMissingName(filePath: string, data: seq<(string, Json)>)
    requires !Truthy(Get(data, "name"))
    ensures Parse(filePath, Loaded(JDict(data))) == Failure(Domain(ParseError(filePath, NameRequired)))
  {
    BuildRecipeNameFirst(filePath, data, IngredientEntries(data), YamlPreparations(data));
  }

  /** An empty file loads as `None`, which is not a dict. */
  lemma ParseEmptyFile(filePath: string)
    ensures Parse(filePath, Loaded(JNull)) == Failure(Domain(ParseError(filePath, NotADict)))
  {
  }

  /**
   * On a document whose ingredients and preparations are lists (or absent), the XML
   * parser reading it under `root` and the YAML parser reading it directly agree.
   */
  lemma AgreesWithXml(filePath: string, data: seq<(string, Json)>)
    requires !GetOr(data, "ingredients", JList([])).JDict?
    requires GetOr(data, "preparations", JList([])).JList?
    ensures XmlParser.Parse(filePath, Loaded(JDict([("root", JDict(data))]))) == Parse(filePath, Loaded(JDict(data)))
  {
    assert GetOr([("root", JDict(data))], "root", JDict([])) == JDict(data);
    assert XmlParser.IngredientEntries(data) == IngredientEntries(data);
    assert XmlParser.XmlPreparations(data) == YamlPreparations(data);
  }
}
