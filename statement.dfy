/**
 * The print statement wrapped around the divider, chosen by the document's language
 * identifier. The divider is placed between the quotes as it is: quotes or backslashes
 * inside it are not escaped.
 */
module PrintStatements {
  import opened Options

  /** The text placed before and after the divider. */
  datatype Wrapper = Wrapper(prefix: string, suffix: string)

  /** The twelve language identifiers that have a print statement. */
  const KnownLanguageIds: set<string> :=
    {"java", "python", "javascript", "typescript", "c", "cpp",
     "csharp", "php", "ruby", "swift", "go", "rust"}

  /**
   * The closed switch on the language identifier. In the C family and in PHP the suffix
   * holds a backslash followed by `n` (two characters), not a newline.
   */
  function WrapperFor(languageId: string): (w: Option<Wrapper>)
    ensures w.Some? <==> languageId in KnownLanguageIds
  {
    match languageId
    case "java" => Some(Wrapper("System.out.println(\"", "\");"))
    case "python" => Some(Wrapper("print(\"", "\")"))
    case "javascript" => Some(Wrapper("console.log(\"", "\");"))
    case "typescript" => Some(Wrapper("console.log(\"", "\");"))
    case "c" => Some(Wrapper("printf(\"", "\\n\");"))
    case "cpp" => Some(Wrapper("printf(\"", "\\n\");"))
    case "csharp" => Some(Wrapper("Console.WriteLine(\"", "\");"))
    case "php" => Some(Wrapper("echo \"", "\\n\";"))
    case "ruby" => Some(Wrapper("puts \"", "\""))
    case "swift" => Some(Wrapper("print(\"", "\")"))
    case "go" => Some(Wrapper("fmt.Println(\"", "\")"))
    case "rust" => Some(Wrapper("println!(\"", "\");"))
    case _ => None
  }

  /** The statement inserted for a language: the divider wrapped in that language's print call, or the bare divider. */
  function PrintStatement(languageId: string, divider: string): (r: string)
    ensures languageId !in KnownLanguageIds ==> r == divider
    ensures languageId in KnownLanguageIds ==>
      var w := WrapperFor(languageId).value;
      |r| == |w.prefix| + |divider| + |w.suffix| && w.prefix <= r &&
      r[|w.prefix|..|w.prefix| + |divider|] == divider &&
      r[|w.prefix| + |divider|..] == w.suffix
  {
    match WrapperFor(languageId)
    case Some(w) => w.prefix + divider + w.suffix
    case None => divider
  }

  /** `needle` occurs in `text` starting at offset `k`. */
  ghost predicate OccursAt(needle: string, text: string, k: int) {
    0 <= k <= |text| - |needle| && text[k..k + |needle|] == needle
  }

  /** `needle` occurs somewhere in `text`, as a contiguous run of characters. */
  ghost predicate OccursIn(needle: string, text: string) {
    exists k :: OccursAt(needle, text, k)
  }

  /** Recovers the divider from a print statement: the inverse of PrintStatement for a fixed language. */
  function StripStatement(languageId: string, statement: string): (r: Option<string>)
  {
    match WrapperFor(languageId)
    case None => Some(statement)
    case Some(w) =>
      if |w.prefix| + |w.suffix| <= |statement| && w.prefix <= statement
         && statement[|statement| - |w.suffix|..] == w.suffix
      then Some(statement[|w.prefix|..|statement| - |w.suffix|])
      else None
  }

  /** Every statement holds the divider verbatim, for known and unknown languages alike. */
  lemma StatementContainsDivider(languageId: string, divider: string)
    ensures OccursIn(divider, PrintStatement(languageId, divider))
  {
    var r := PrintStatement(languageId, divider);
    if languageId in KnownLanguageIds {
      assert OccursAt(divider, r, |WrapperFor(languageId).value.prefix|);
    } else {
      assert OccursAt(divider, r, 0);
    }
  }

  /** Stripping the wrapper gives back the divider that was wrapped. */
  lemma StripPrintStatement(languageId: string, divider: string)
    ensures StripStatement(languageId, PrintStatement(languageId, divider)) == Some(divider)
  {
  }

  /** Whatever strips to a divider is exactly the print statement of that divider. */
  lemma PrintStrippedStatement(languageId: string, statement: string, divider: string)
    requires StripStatement(languageId, statement) == Some(divider)
    ensures PrintStatement(languageId, divider) == statement
  {
  }

  /** Distinct dividers give distinct statements in the same language. */
  lemma PrintStatementInjective(languageId: string, d1: string, d2: string)
    requires PrintStatement(languageId, d1) == PrintStatement(languageId, d2)
    ensures d1 == d2
  {
  }

  /** The exact statement for each of the twelve known identifiers. */
  lemma KnownStatements(d: string)
    ensures PrintStatement("java", d) == "System.out.println(\"" + d + "\");"
    ensures PrintStatement("python", d) == "print(\"" + d + "\")"
    ensures PrintStatement("javascript", d) == "console.log(\"" + d + "\");"
    ensures PrintStatement("typescript", d) == "console.log(\"" + d + "\");"
    ensures PrintStatement("c", d) == "printf(\"" + d + "\\n\");"
    ensures PrintStatement("cpp", d) == "printf(\"" + d + "\\n\");"
    ensures PrintStatement("csharp", d) == "Console.WriteLine(\"" + d + "\");"
    ensures PrintStatement("php", d) == "echo \"" + d + "\\n\";"
    ensures PrintStatement("ruby", d) == "puts \"" + d + "\""
    ensures PrintStatement("swift", d) == "print(\"" + d + "\")"
    ensures PrintStatement("go", d) == "fmt.Println(\"" + d + "\")"
    ensures PrintStatement("rust", d) == "println!(\"" + d + "\");"
  {
    assert WrapperFor("java") == Some(Wrapper("System.out.println(\"", "\");"));
    assert WrapperFor("python") == Some(Wrapper("print(\"", "\")"));
    assert WrapperFor("javascript") == Some(Wrapper("console.log(\"", "\");"));
    assert WrapperFor("typescript") == Some(Wrapper("console.log(\"", "\");"));
    assert WrapperFor("c") == Some(Wrapper("printf(\"", "\\n\");"));
    assert WrapperFor("cpp") == Some(Wrapper("printf(\"", "\\n\");"));
    assert WrapperFor("csharp") == Some(Wrapper("Console.WriteLine(\"", "\");"));
    assert WrapperFor("php") == Some(Wrapper("echo \"", "\\n\";"));
    assert WrapperFor("ruby") == Some(Wrapper("puts \"", "\""));
    assert WrapperFor("swift") == Some(Wrapper("print(\"", "\")"));
    assert WrapperFor("go") == Some(Wrapper("fmt.Println(\"", "\")"));
    assert WrapperFor("rust") == Some(Wrapper("println!(\"", "\");"));
  }

  /** The aliased identifiers produce identical statements. */
  lemma AliasedLanguages(d: string)
    ensures PrintStatement("javascript", d) == PrintStatement("typescript", d)
    ensures PrintStatement("c", d) == PrintStatement("cpp", d)
    ensures PrintStatement("python", d) == PrintStatement("swift", d)
  {
    KnownStatements(d);
  }

  /**
   * The `\\n` written in the C-family and PHP templates is two characters, a backslash and
   * an `n`, not a newline.
   */
  lemma EscapedNewlineIsTwoCharacters(d: string)
    ensures PrintStatement("c", d) == "printf(\"" + d + ['\\', 'n', '"', ')', ';']
    ensures PrintStatement("cpp", d) == "printf(\"" + d + ['\\', 'n', '"', ')', ';']
    ensures PrintStatement("php", d) == "echo \"" + d + ['\\', 'n', '"', ';']
  {
    KnownStatements(d);
  }
}
