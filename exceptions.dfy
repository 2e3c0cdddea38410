/**
 * The recipe normalizer's error hierarchy. Every `Error` is a `RecipeNormalizerError`;
 * `Exception` adds the built-in Python exceptions that can also escape the pipeline
 * and that the skip-errors handler does not catch.
 */
module Exceptions {
  import opened Wrappers

  datatype Error =
    | ParseError(filePath: string, message: string)
    | ValidationError(field: string, message: string)
    | FileReadError(filePath: string, reason: string)
    | FileWriteError(filePath: string, reason: string)
    | UnsupportedFormatError(filePath: string, extension: string)
    | EmptyDirectoryError(directory: string)

  /** What Python raises: one of the recipe normalizer's own errors, or a built-in exception. */
  datatype Exception =
    | Domain(error: Error)
    | ValueError(message: string)
    | AttributeError(message: string)
    | OSError(message: string)

  /** `isinstance(e, RecipeNormalizerError)`: the exceptions the skip-errors handler catches. */
  predicate IsRecipeNormalizerError(e: Exception) {
    e.Domain?
  }

  /** `str(e)` for each error kind. */
  function Message(e: Error): string {
    match e
    case ParseError(p, m) => "Failed to parse '" + p + "': " + m
    case ValidationError(f, m) => "Validation error in '" + f + "': " + m
    case FileReadError(p, r) => "Cannot read file '" + p + "': " + r
    case FileWriteError(p, r) => "Cannot write to '" + p + "': " + r
    case UnsupportedFormatError(p, x) => "Unsupported file format '" + x + "' for '" + p + "'"
    case EmptyDirectoryError(d) => "No recipe files found in '" + d + "'"
  }

  /** `str(e)` for any exception that can leave the pipeline. */
  function Render(e: Exception): string {
    match e
    case Domain(err) => Message(err)
    case ValueError(m) => m
    case AttributeError(m) => m
    case OSError(m) => m
  }

  /** The error classes, without their fields. */
  datatype Kind = ParseKind | ValidationKind | FileReadKind | FileWriteKind | UnsupportedKind | EmptyKind

  function KindOf(e: Error): Kind {
    match e
    case ParseError(_, _) => ParseKind
    case ValidationError(_, _) => ValidationKind
    case FileReadError(_, _) => FileReadKind
    case FileWriteError(_, _) => FileWriteKind
    case UnsupportedFormatError(_, _) => UnsupportedKind
    case EmptyDirectoryError(_) => EmptyKind
  }

  predicate StartsWith(s: string, prefix: string) {
    |prefix| <= |s| && s[..|prefix|] == prefix
  }

  /** Recognises the error class from the fixed opening words of a rendered message. */
  function KindOfMessage(m: string): Option<Kind> {
    if StartsWith(m, "Failed to parse '") then Some(ParseKind)
    else if StartsWith(m, "Validation error in '") then Some(ValidationKind)
    else if StartsWith(m, "Cannot read file '") then Some(FileReadKind)
    else if StartsWith(m, "Cannot write to '") then Some(FileWriteKind)
    else if StartsWith(m, "Unsupported file format '") then Some(UnsupportedKind)
    else if StartsWith(m, "No recipe files found in '") then Some(EmptyKind)
    else None
  }

  lemma StartsWithConcat(prefix: string, rest: string)
    ensures StartsWith(prefix + rest, prefix)
  {
    assert (prefix + rest)[..|prefix|] == prefix;
  }

  lemma DiffersAt(m: string, prefix: string, i: nat)
    requires i < |prefix| && i < |m| && m[i] != prefix[i]
    ensures !StartsWith(m, prefix)
  {
  }

  lemma ParseMessageShowsKind(p: string, d: string)
    ensures KindOfMessage(Message(ParseError(p, d))) == Some(ParseKind)
  {
    StartsWithConcat("Failed to parse '", p + "': " + d);
  }

  lemma ValidationMessageShowsKind(f: string, d: string)
    ensures KindOfMessage(Message(ValidationError(f, d))) == Some(ValidationKind)
  {
    var m := Message(ValidationError(f, d));
    StartsWithConcat("Validation error in '", f + "': " + d);
    DiffersAt(m, "Failed to parse '", 0);
  }

  lemma FileReadMessageShowsKind(p: string, r: string)
    ensures KindOfMessage(Message(FileReadError(p, r))) == Some(FileReadKind)
  {
    var m := Message(FileReadError(p, r));
    StartsWithConcat("Cannot read file '", p + "': " + r);
    DiffersAt(m, "Failed to parse '", 0);
    DiffersAt(m, "Validation error in '", 0);
  }

  lemma FileWriteMessageShowsKind(p: string, r: string)
    ensures KindOfMessage(Message(FileWriteError(p, r))) == Some(FileWriteKind)
  {
    var m := Message(FileWriteError(p, r));
    StartsWithConcat("Cannot write to '", p + "': " + r);
    DiffersAt(m, "Failed to parse '", 0);
    DiffersAt(m, "Validation error in '", 0);
    DiffersAt(m, "Cannot read file '", 7);
  }

  lemma UnsupportedMessageShowsKind(p: string, x: string)
    ensures KindOfMessage(Message(UnsupportedFormatError(p, x))) == Some(UnsupportedKind)
  {
    var m := Message(UnsupportedFormatError(p, x));
    StartsWithConcat("Unsupported file format '", x + "' for '" + p + "'");
    DiffersAt(m, "Failed to parse '", 0);
    DiffersAt(m, "Validation error in '", 0);
    DiffersAt(m, "Cannot read file '", 0);
    DiffersAt(m, "Cannot write to '", 0);
  }

  lemma EmptyMessageShowsKind(d: string)
    ensures KindOfMessage(Message(EmptyDirectoryError(d))) == Some(EmptyKind)
  {
    var m := Message(EmptyDirectoryError(d));
    StartsWithConcat("No recipe files found in '", d + "'");
    DiffersAt(m, "Failed to parse '", 0);
    DiffersAt(m, "Validation error in '", 0);
    DiffersAt(m, "Cannot read file '", 0);
    DiffersAt(m, "Cannot write to '", 0);
    DiffersAt(m, "Unsupported file format '", 0);
  }

  /** The message of every error names its class: no two classes render alike. */
  lemma MessageShowsKind(e: Error)
    ensures KindOfMessage(Message(e)) == Some(KindOf(e))
  {
    match e
    case ParseError(p, d) => ParseMessageShowsKind(p, d);
    case ValidationError(f, d) => ValidationMessageShowsKind(f, d);
    case FileReadError(p, r) => FileReadMessageShowsKind(p, r);
    case FileWriteError(p, r) => FileWriteMessageShowsKind(p, r);
    case UnsupportedFormatError(p, x) => UnsupportedMessageShowsKind(p, x);
    case EmptyDirectoryError(d) => EmptyMessageShowsKind(d);
  }

  /** The caller's detail text closes the message of a parse or validation error. */
  lemma MessageEndsWithDetail(e: Error)
    requires e.ParseError? || e.ValidationError?
    ensures |e.message| <= |Message(e)|
    ensures Message(e)[|Message(e)| - |e.message|..] == e.message
  {
  }
}
