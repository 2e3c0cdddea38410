/**
 * The XML recipe parser. The file is loaded into a dict tree (one key per element,
 * repeated elements as a list, empty elements as `None`); the recipe lives under `root`.
 */
module XmlParser {
  import opened Wrappers
  import opened Text
  import opened Document
  import opened Models
  import opened Exceptions
  import opened RecipeFields

  const SupportedExtensions: set<string> := {".xml"}

  const InvalidXml := "Invalid XML: "

  /** `supports_extension`: the lower-cased extension is one of the supported ones. */
  predicate SupportsExtension(extension: string) {
    Lower(extension) in SupportedExtensions
  }

  /** The extension check ignores case. */
  lemma SupportsExtensionIgnoresCase(extension: string)
    ensures SupportsExtension(extension) <==> SupportsExtension(Lower(extension))
  {
    LowerIdempotent(extension);
  }

  lemma SupportsExtensionExamples()
    ensures SupportsExtension(".xml") && SupportsExtension(".XML")
    ensures !SupportsExtension(".yaml")
  {
    assert Lower(".xml") == ".xml";
    assert Lower(".XML") == ".xml";
    assert Lower(".yaml") == ".yaml";
  }

  /**
   * `_load_xml`: a missing file and a refused read become a FileReadError; every other
   * failure, while reading or while parsing, becomes a ParseError.
   */
  function LoadXml(filePath: string, load: Load): (r: Result<Json, Exception>)
    ensures r.Success? <==> load.Loaded?
    ensures r.Success? ==> r.value == load.doc
    ensures r.Failure? ==> r.error.Domain?
    ensures load.Missing? ==> r.error == Domain(FileReadError(filePath, "File not found"))
    ensures load.PermissionDenied? ==> r.error == Domain(FileReadError(filePath, "Permission denied"))
    ensures load.ReadFailure? || load.DecodeFailure? || load.Malformed? ==>
      r.error.error.ParseError? && r.error.error.filePath == filePath && StartsWith(r.error.error.message, InvalidXml)
  {
    match load
    case Missing => Failure(Domain(FileReadError(filePath, "File not found")))
    case PermissionDenied => Failure(Domain(FileReadError(filePath, "Permission denied")))
    case ReadFailure(message) => StartsWithConcat(InvalidXml, message); Failure(Domain(ParseError(filePath, InvalidXml + message)))
    case DecodeFailure(message) => StartsWithConcat(InvalidXml, message); Failure(Domain(ParseError(filePath, InvalidXml + message)))
    case Malformed(message) => StartsWithConcat(InvalidXml, message); Failure(Domain(ParseError(filePath, InvalidXml + message)))
    case Loaded(doc) => Success(doc)
  }

  /**
   * The entries `_parse_ingredients` walks: a single `ingredients` element (a dict) is
   * one entry, repeated ones (a list) are all entries, anything else is none.
   */
  function IngredientEntries(root: seq<(string, Json)>): (r: seq<Json>)
    ensures GetOr(root, "ingredients", JList([])).JDict? ==> r == [GetOr(root, "ingredients", JList([]))]
    ensures !GetOr(root, "ingredients", JList([])).JDict? && !GetOr(root, "ingredients", JList([])).JList? ==> r == []
  {
    var data := GetOr(root, "ingredients", JList([]));
    if data.JDict? then [data]
    else if data.JList? then data.items
    else []
  }

  /**
   * `_parse_preparations`: a single `preparations` element (text) is one step unless
   * blank; repeated ones are each stripped, dropping the falsy ones.
   */
  function XmlPreparations(root: seq<(string, Json)>): (r: seq<string>)
    ensures forall k | 0 <= k < |r| :: Trimmed(r[k])
    ensures GetOr(root, "preparations", JList([])).JStr? ==>
      var text := GetOr(root, "preparations", JList([])).s;
      (r == [] <==> IsBlank(text)) && (r != [] ==> r == [Strip(text)])
    ensures GetOr(root, "preparations", JList([])).JList? ==> r == Preparations(GetOr(root, "preparations", JList([])).items)
    ensures !GetOr(root, "preparations", JList([])).JStr? && !GetOr(root, "preparations", JList([])).JList? ==> r == []
  {
    var data := GetOr(root, "preparations", JList([]));
    if data.JStr? then (if Strip(data.s) != [] then [Strip(data.s)] else [])
    else if data.JList? then Preparations(data.items)
    else []
  }

  /** A single step is dropped when blank, although a blank step in a list is kept as "". */
  lemma XmlPreparationsSingleBlank(root: seq<(string, Json)>)
    requires Lookup(root, "preparations") == Some(JStr(" "))
    ensures XmlPreparations(root) == []
    ensures XmlPreparations([("preparations", JList([JStr(" ")]))]) == [""]
  {
    assert Strip(" ") == [] by { StripEmptyIffBlank(" "); }
    PreparationsKeepBlankStep();
  }

  /**
   * `parse`: load, take `root` (an empty dict when absent), then read the recipe from it.
   * Calling `.get` on a document or a root that is not a dict raises AttributeError.
   */
  function Parse(filePath: string, load: Load): (r: Result<Recipe, Exception>)
    ensures r.Success? ==> ValidRecipe(r.value)
    ensures r.Failure? ==> r.error.Domain? || r.error.AttributeError?
  {
    match LoadXml(filePath, load)
    case Failure(e) => Failure(e)
    case Success(data) =>
      if !data.JDict? then Failure(AttributeError(NoAttributeGet(data)))
      else
        var root := GetOr(data.entries, "root", JDict([]));
        if !root.JDict? then Failure(AttributeError(NoAttributeGet(root)))
        else BuildRecipe(filePath, root.entries, IngredientEntries(root.entries), XmlPreparations(root.entries))
  }

  /** `XmlRecipeParser.parse`, running the ingredient loop. */
  method ParseFile(filePath: string, load: Load) returns (r: Result<Recipe, Exception>)
    ensures r == Parse(filePath, load)
  {
    var data := LoadXml(filePath, load);
    if data.Failure? {
      return Failure(data.error);
    }
    if !data.value.JDict? {
      return Failure(AttributeError(NoAttributeGet(data.value)));
    }
    var root := GetOr(data.value.entries, "root", JDict([]));
    if !root.JDict? {
      return Failure(AttributeError(NoAttributeGet(root)));
    }
    r := Build(filePath, root.entries, IngredientEntries(root.entries), XmlPreparations(root.entries));
  }

  /**
   * A parse succeeds exactly for a loaded dict whose root is a dict with a truthy,
   * non-blank name and no invalid ingredient; the recipe holds the stripped name, the
   * built ingredients in document order and the preparations.
   */
  lemma ParseMeaning(filePath: string, load: Load)
    ensures Parse(filePath, load).Success? <==>
      && load.Loaded? && load.doc.JDict?
      && GetOr(load.doc.entries, "root", JDict([])).JDict?
      && var root := GetOr(load.doc.entries, "root", JDict([])).entries;
         Truthy(Get(root, "name")) && !IsBlank(Str(Get(root, "name")))
         && FirstInvalid(Outcomes(IngredientEntries(root))).None?
    ensures Parse(filePath, load).Success? ==>
      var root := GetOr(load.doc.entries, "root", JDict([])).entries;
      Parse(filePath, load).value ==
        Recipe(Strip(Str(Get(root, "name"))), Kept(Outcomes(IngredientEntries(root))), XmlPreparations(root))
  {
    if load.Loaded? && load.doc.JDict? && GetOr(load.doc.entries, "root", JDict([])).JDict? {
      var root := GetOr(load.doc.entries, "root", JDict([])).entries;
      BuildRecipeMeaning(filePath, root, IngredientEntries(root), XmlPreparations(root));
    }
  }

  /** A file that cannot be opened or parsed fails with the matching error, and so does a missing name. */
  lemma ParseErrors(filePath: string, load: Load)
    ensures load.Missing? ==> Parse(filePath, load) == Failure(Domain(FileReadError(filePath, "File not found")))
    ensures load.PermissionDenied? ==> Parse(filePath, load) == Failure(Domain(FileReadError(filePath, "Permission denied")))
    ensures load.Malformed? ==> Parse(filePath, load) == Failure(Domain(ParseError(filePath, InvalidXml + load.message)))
    ensures (load.Loaded? && load.doc.JDict? && GetOr(load.doc.entries, "root", JDict([])).JDict?
             && !Truthy(Get(GetOr(load.doc.entries, "root", JDict([])).entries, "name"))) ==>
      Parse(filePath, load) == Failure(Domain(ParseError(filePath, NameRequired)))
  {
    if load.Loaded? && load.doc.JDict? && GetOr(load.doc.entries, "root", JDict([])).JDict? {
      var root := GetOr(load.doc.entries, "root", JDict([])).entries;
      if !Truthy(Get(root, "name")) {
        BuildRecipeNameFirst(filePath, root, IngredientEntries(root), XmlPreparations(root));
      }
    }
  }

  /** A root that is not a dict fails the parse with the AttributeError of its `.get`. */
  lemma ParseRootNotDict(filePath: string, entries: seq<(string, Json)>)
    requires !GetOr(entries, "root", JDict([])).JDict?
    ensures Parse(filePath, Loaded(JDict(entries))) == Failure(AttributeError(NoAttributeGet(GetOr(entries, "root", JDict([])))))
  {
  }

  /** An empty `root` element loads as `None`, and reading its name raises AttributeError. */
  lemma ParseEmptyRoot(filePath: string, entries: seq<(string, Json)>)
    requires Lookup(entries, "root") == Some(JNull)
    ensures Parse(filePath, Loaded(JDict(entries))) == Failure(AttributeError(NoAttributeGet(JNull)))
    ensures TypeName(JNull) == "NoneType"
  {
    ParseRootNotDict(filePath, entries);
  }

  /** A single ingredient element reads the same as a list holding only it. */
  /** A single non-blank step reads like a list holding only that step. */
  lemma SinglePreparationAsList(root: seq<(string, Json)>, other: seq<(string, Json)>, text: string)
    requires !IsBlank(text)
    requires Lookup(root, "preparations") == Some(JStr(text))
    requires Lookup(other, "preparations") == Some(JList([JStr(text)]))
    ensures XmlPreparations(root) == XmlPreparations(other) == [Strip(text)]
  {
    StripEmptyIffBlank(text);
    var items := [JStr(text)];
    assert items[1..] == [];
    assert Truthy(items[0]);
  }

  lemma SingleIngredientElementAsList(root: seq<(string, Json)>, other: seq<(string, Json)>, entry: Json)
    requires entry.JDict?
    requires Lookup(root, "ingredients") == Some(entry)
    requires Lookup(other, "ingredients") == Some(JList([entry]))
    ensures IngredientEntries(root) == IngredientEntries(other)
  {
  }
}
