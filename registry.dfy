/**
 * The parser registry: an ordered list of parsers, asked in registration order which
 * one supports a file's extension, and the union of the extensions they advertise.
 */
module Registry {
  import opened Wrappers
  import opened Text
  import opened Models
  import opened Exceptions
  import opened RecipeFields
  import XmlParser
  import YamlParser

  /** A recipe that passed its model's validators, as every parser returns. */
  type CheckedRecipe = r: Recipe | ValidRecipe(r) witness Recipe("r", [], [])

  /** A file as the parsers see it: its path, whether it is a regular file, and what each loader makes of it. */
  datatype FileEntry = FileEntry(path: string, isFile: bool, asXml: Load, asYaml: Load)

  /**
   * A registered parser: the two built-in ones, or any other implementation of the parser
   * interface, given by its extension test, its `SUPPORTED_EXTENSIONS` attribute when it
   * has one, and what it returns for each file.
   */
  datatype Parser =
    | XmlRecipeParser
    | YamlRecipeParser
    | OtherParser(accepts: string -> bool, advertised: Option<set<string>>,
                  parseFile: FileEntry -> Result<CheckedRecipe, Exception>)

  /** `parser.supports_extension(extension)` */
  predicate Supports(parser: Parser, extension: string) {
    match parser
    case XmlRecipeParser => XmlParser.SupportsExtension(extension)
    case YamlRecipeParser => YamlParser.SupportsExtension(extension)
    case OtherParser(accepts, _, _) => accepts(extension)
  }

  /** `parser.SUPPORTED_EXTENSIONS`, or `None` for a parser without that attribute. */
  function Advertised(parser: Parser): Option<set<string>> {
    match parser
    case XmlRecipeParser => Some(XmlParser.SupportedExtensions)
    case YamlRecipeParser => Some(YamlParser.SupportedExtensions)
    case OtherParser(_, advertised, _) => advertised
  }

  /** `parser.parse(file_path)` */
  function ParseWith(parser: Parser, file: FileEntry): (r: Result<Recipe, Exception>)
    ensures r.Success? ==> ValidRecipe(r.value)
  {
    match parser
    case XmlRecipeParser => XmlParser.Parse(file.path, file.asXml)
    case YamlRecipeParser => YamlParser.Parse(file.path, file.asYaml)
    case OtherParser(_, _, parseFile) =>
      match parseFile(file)
      case Success(recipe) => Success(recipe)
      case Failure(e) => Failure(e)
  }

  /** No position of `s` from `lo` on holds `c`. */
  predicate LacksFrom(s: string, c: char, lo: nat) {
    forall k | lo <= k < |s| :: s[k] != c
  }

  /** The last position before `n` that holds `c`, if any. */
  function LastIndexBefore(s: string, c: char, n: nat): (r: Option<nat>)
    requires n <= |s|
    ensures r.Some? ==> r.value < n && s[r.value] == c && forall k | r.value < k < n :: s[k] != c
    ensures r.None? ==> forall k | 0 <= k < n :: s[k] != c
  {
    if n == 0 then None
    else if s[n - 1] == c then Some(n - 1)
    else LastIndexBefore(s, c, n - 1)
  }

  /** The last position of `c` in `s`, if any (`str.rfind`). */
  function LastIndexOf(s: string, c: char): (r: Option<nat>)
    ensures r.Some? ==> r.value < |s| && s[r.value] == c && LacksFrom(s, c, r.value + 1)
    ensures r.None? ==> LacksFrom(s, c, 0)
  {
    LastIndexBefore(s, c, |s|)
  }

  /** The final component of a `/`-separated path. */
  function FileName(path: string): (r: string)
    ensures LacksFrom(r, '/', 0)
  {
    match LastIndexOf(path, '/')
    case None => path
    case Some(i) =>
      var rest := path[i + 1..];
      assert forall k | 0 <= k < |rest| :: rest[k] == path[i + 1 + k];
      rest
  }

  /**
   * `Path(path).suffix`: the final component's text from its last dot, when that dot is
   * neither its first nor its last character; "" otherwise.
   */
  function Suffix(path: string): (r: string)
    ensures r != [] ==> |r| >= 2 && r[0] == '.' && LacksFrom(r, '.', 1) && LacksFrom(r, '/', 0)
  {
    var name := FileName(path);
    match LastIndexOf(name, '.')
    case Some(i) =>
      if 0 < i < |name| - 1 then
        var extension := name[i..];
        assert forall k | 0 <= k < |extension| :: extension[k] == name[i + k];
        extension
      else ""
    case None => ""
  }

  /** A position holding `c` with no `c` after it is the last position of `c`. */
  lemma LastIndexOfAt(s: string, c: char, i: nat)
    requires i < |s| && s[i] == c && LacksFrom(s, c, i + 1)
    ensures LastIndexOf(s, c) == Some(i)
  {
    var r := LastIndexOf(s, c);
    assert r.Some? ==> r.value <= i;
  }

  /** The file name of a path whose last slash is at `i` is what follows that slash. */
  lemma FileNameAt(path: string, i: nat)
    requires i < |path| && path[i] == '/' && LacksFrom(path, '/', i + 1)
    ensures FileName(path) == path[i + 1..]
  {
    LastIndexOfAt(path, '/', i);
  }

  /** The suffix read off a file name and the position of its last dot. */
  lemma SuffixFromParts(path: string, name: string, k: nat)
    requires FileName(path) == name && LastIndexOf(name, '.') == Some(k) && 0 < k < |name| - 1
    ensures Suffix(path) == name[k..]
  {
  }

  /**
   * The suffix of a path whose last slash is at `i` and whose last dot is at `j`, with
   * at least one character between them and one after the dot, runs from that dot.
   */
  lemma SuffixAt(path: string, i: nat, j: nat)
    requires i + 1 < j < |path| - 1
    requires path[i] == '/' && LacksFrom(path, '/', i + 1)
    requires path[j] == '.' && LacksFrom(path, '.', j + 1)
    ensures Suffix(path) == path[j..]
  {
    FileNameAt(path, i);
    var name := path[i + 1..];
    assert forall k | 0 <= k < |name| :: name[k] == path[i + 1 + k];
    LastIndexOfAt(name, '.', j - i - 1);
    SuffixFromParts(path, name, j - i - 1);
    assert name[j - i - 1..] == path[j..];
  }

  /** A final component without a dot has no suffix. */
  lemma SuffixWithoutDot(path: string, i: nat)
    requires i < |path| && path[i] == '/' && LacksFrom(path, '/', i + 1) && LacksFrom(path, '.', i + 1)
    ensures Suffix(path) == ""
  {
    FileNameAt(path, i);
    var name := path[i + 1..];
    assert forall k | 0 <= k < |name| :: name[k] == path[i + 1 + k];
    assert LastIndexOf(name, '.') == None;
  }

  /** A final component whose only dot is its first character has no suffix. */
  lemma SuffixOfDotFile(path: string, i: nat)
    requires i + 1 < |path| && path[i] == '/' && LacksFrom(path, '/', i + 1)
    requires path[i + 1] == '.' && LacksFrom(path, '.', i + 2)
    ensures Suffix(path) == ""
  {
    FileNameAt(path, i);
    var name := path[i + 1..];
    assert forall k | 0 <= k < |name| :: name[k] == path[i + 1 + k];
    LastIndexOfAt(name, '.', 0);
  }

  /** A path's suffix is the final component's extension, with its case kept. */
  lemma SuffixOfXmlFile()
    ensures Suffix("d/rice.XML") == ".XML"
  {
    SuffixAt("d/rice.XML", 1, 6);
  }

  lemma SuffixOfYamlFile()
    ensures Suffix("d/rice.yaml") == ".yaml"
  {
    SuffixAt("d/rice.yaml", 1, 6);
  }

  lemma SuffixOfTextFile()
    ensures Suffix("d/ignored.txt") == ".txt"
  {
    SuffixAt("d/ignored.txt", 1, 9);
  }

  /** Only the last extension of a multi-dotted name counts. */
  lemma SuffixOfDoubleExtension()
    ensures Suffix("d/a.tar.gz") == ".gz"
  {
    SuffixAt("d/a.tar.gz", 1, 7);
  }

  /** A leading dot does not start a suffix. */
  lemma SuffixOfHiddenFile()
    ensures Suffix("d/.yml") == ""
  {
    SuffixOfDotFile("d/.yml", 1);
  }

  /** A dot in a directory name is not the file's suffix. */
  lemma SuffixIgnoresDirectories()
    ensures Suffix("a.d/notes") == ""
  {
    SuffixWithoutDot("a.d/notes", 3);
  }

  /** The first parser, in registration order, that supports the extension. */
  function FirstSupporting(parsers: seq<Parser>, extension: string): (r: Option<Parser>)
    ensures r.None? <==> forall k | 0 <= k < |parsers| :: !Supports(parsers[k], extension)
    ensures r.Some? ==> r.value in parsers && Supports(r.value, extension)
  {
    if parsers == [] then None
    else if Supports(parsers[0], extension) then Some(parsers[0])
    else
      var r := FirstSupporting(parsers[1..], extension);
      assert forall k | 1 <= k < |parsers| :: parsers[k] == parsers[1..][k - 1];
      r
  }

  /** A parser registered later never takes over an extension an earlier one supports. */
  lemma {:induction false} FirstSupportingKeepsEarlier(parsers: seq<Parser>, later: Parser, extension: string)
    requires FirstSupporting(parsers, extension).Some?
    ensures FirstSupporting(parsers + [later], extension) == FirstSupporting(parsers, extension)
    decreases |parsers|
  {
    assert (parsers + [later])[0] == parsers[0];
    if !Supports(parsers[0], extension) {
      assert (parsers + [later])[1..] == parsers[1..] + [later];
      FirstSupportingKeepsEarlier(parsers[1..], later, extension);
    }
  }

  /** `registry.parse`, as a function of the registered parsers. */
  function ParseFile(parsers: seq<Parser>, file: FileEntry): (r: Result<Recipe, Exception>)
    ensures FirstSupporting(parsers, Suffix(file.path)).None? ==>
      r == Failure(Domain(UnsupportedFormatError(file.path, Suffix(file.path))))
    ensures FirstSupporting(parsers, Suffix(file.path)).Some? ==>
      r == ParseWith(FirstSupporting(parsers, Suffix(file.path)).value, file)
    ensures r.Success? ==> ValidRecipe(r.value)
  {
    match FirstSupporting(parsers, Suffix(file.path))
    case None => Failure(Domain(UnsupportedFormatError(file.path, Suffix(file.path))))
    case Some(parser) => ParseWith(parser, file)
  }

  /** The union of the advertised extension sets, over the parsers that have one. */
  function AdvertisedUnion(parsers: seq<Parser>): set<string> {
    if parsers == [] then {}
    else
      var last := parsers[|parsers| - 1];
      AdvertisedUnion(parsers[..|parsers| - 1]) + (if Advertised(last).Some? then Advertised(last).value else {})
  }

  /** An extension is in the union exactly when some registered parser advertises it. */
  lemma {:induction false} AdvertisedUnionMembers(parsers: seq<Parser>, extension: string)
    ensures extension in AdvertisedUnion(parsers) <==>
      exists k | 0 <= k < |parsers| :: Advertised(parsers[k]).Some? && extension in Advertised(parsers[k]).value
    decreases |parsers|
  {
    if parsers != [] {
      var front := parsers[..|parsers| - 1];
      AdvertisedUnionMembers(front, extension);
      if extension in AdvertisedUnion(front) {
        var k :| 0 <= k < |front| && Advertised(front[k]).Some? && extension in Advertised(front[k]).value;
        assert parsers[k] == front[k];
      }
      if exists k | 0 <= k < |parsers| :: Advertised(parsers[k]).Some? && extension in Advertised(parsers[k]).value {
        var k :| 0 <= k < |parsers| && Advertised(parsers[k]).Some? && extension in Advertised(parsers[k]).value;
        if k < |front| {
          assert front[k] == parsers[k];
        }
      }
    }
  }

  /** The registry that the command line builds: XML first, then YAML. */
  const DefaultParsers: seq<Parser> := [XmlRecipeParser, YamlRecipeParser]

  /** The default registry advertises ".xml", ".yaml" and ".yml", and nothing else. */
  lemma DefaultAdvertised()
    ensures AdvertisedUnion(DefaultParsers) == {".xml", ".yaml", ".yml"}
  {
    assert DefaultParsers[..1] == [XmlRecipeParser];
    assert [XmlRecipeParser][..0] == [];
  }

  /** The default registry dispatches by extension, case-insensitively; other extensions have no parser. */
  lemma DefaultDispatch()
    ensures FirstSupporting(DefaultParsers, ".xml") == Some(XmlRecipeParser)
    ensures FirstSupporting(DefaultParsers, ".XML") == Some(XmlRecipeParser)
    ensures FirstSupporting(DefaultParsers, ".yml") == Some(YamlRecipeParser)
    ensures FirstSupporting(DefaultParsers, ".txt") == None
  {
    XmlParser.SupportsExtensionExamples();
    YamlParser.SupportsExtensionExamples();
    assert Lower(".yml") == ".yml";
    assert Lower(".txt") == ".txt";
    assert DefaultParsers[1..] == [YamlRecipeParser];
    assert [YamlRecipeParser][1..] == [];
  }

  /** A file whose extension no parser supports is refused with the suffix named. */
  lemma UnsupportedExample(file: FileEntry)
    requires file.path == "recipes/notes.txt"
    ensures ParseFile(DefaultParsers, file) == Failure(Domain(UnsupportedFormatError("recipes/notes.txt", ".txt")))
  {
    SuffixAt("recipes/notes.txt", 7, 13);
    DefaultDispatch();
  }

  class ParserRegistry {
    var parsers: seq<Parser>

    /** An empty registry. */
    constructor()
      ensures parsers == []
    {
      parsers := [];
    }

    /** `register`: the parser is appended, after the ones already registered. */
    method Register(parser: Parser)
      modifies this
      ensures parsers == old(parsers) + [parser]
    {
      parsers := parsers + [parser];
    }

    /** `get_parser_for_file`: the first registered parser that supports the file's suffix. */
    method GetParserForFile(path: string) returns (r: Option<Parser>)
      ensures r == FirstSupporting(parsers, Suffix(path))
    {
      var extension := Suffix(path);
      var candidates := parsers;
      var i := 0;
      while i < |candidates|
        invariant 0 <= i <= |candidates|
        invariant forall j | 0 <= j < i :: !Supports(candidates[j], extension)
      {
        if Supports(candidates[i], extension) {
          FirstSupportingIsFirst(candidates, extension, i);
          return Some(candidates[i]);
        }
        i := i + 1;
      }
      return None;
    }

    /** `parse`: UnsupportedFormatError when no parser supports the suffix, else the parser's result. */
    method Parse(file: FileEntry) returns (r: Result<Recipe, Exception>)
      ensures r == ParseFile(parsers, file)
    {
      var parser := GetParserForFile(file.path);
      if parser.None? {
        return Failure(Domain(UnsupportedFormatError(file.path, Suffix(file.path))));
      }
      match parser.value {
        case XmlRecipeParser =>
          r := XmlParser.ParseFile(file.path, file.asXml);
        case YamlRecipeParser =>
          r := YamlParser.ParseFile(file.path, file.asYaml);
        case OtherParser(_, _, parseFile) =>
          var result := parseFile(file);
          r := if result.Success? then Success(result.value) else Failure(result.error);
      }
    }

    /** `get_supported_extensions`: the union grown parser by parser. */
    method GetSupportedExtensions() returns (extensions: set<string>)
      ensures extensions == AdvertisedUnion(parsers)
    {
      extensions := {};
      var i := 0;
      while i < |parsers|
        invariant 0 <= i <= |parsers|
        invariant extensions == AdvertisedUnion(parsers[..i])
      {
        assert parsers[..i + 1][..i] == parsers[..i];
        var advertised := Advertised(parsers[i]);
        if advertised.Some? {
          extensions := extensions + advertised.value;
        }
        i := i + 1;
      }
      assert parsers[..i] == parsers;
    }
  }

  /** The parser at a position no earlier parser claims is the first supporting one. */
  lemma {:induction false} FirstSupportingIsFirst(parsers: seq<Parser>, extension: string, i: nat)
    requires i < |parsers| && Supports(parsers[i], extension)
    requires forall j | 0 <= j < i :: !Supports(parsers[j], extension)
    ensures FirstSupporting(parsers, extension) == Some(parsers[i])
    decreases i
  {
    if i > 0 {
      assert !Supports(parsers[0], extension);
      assert parsers[1..][i - 1] == parsers[i];
      FirstSupportingIsFirst(parsers[1..], extension, i - 1);
    }
  }
}
