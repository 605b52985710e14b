/**
 * The two commands, "configure divider" and "insert divider", as methods on the state they
 * touch: the global `printDivider.token` setting and the active text editor, if any.
 * The input box's answer is a parameter, since it comes from the user.
 */
module Commands {
  import opened Options
  import opened DividerToken
  import opened DividerBuilder
  import opened PrintStatements

  /** The active editor: its document's language identifier and text, and the cursor offset. */
  datatype Editor = Editor(languageId: string, text: string, cursor: nat)

  /** A message shown to the user: an error message or an information message. */
  datatype Message = Error(text: string) | Info(text: string)

  /** The error message both commands show when no editor is active. */
  const NoEditorMessage: Message := Error("No active editor found!")

  /** The information message the configure command shows after storing the token. */
  function ConfirmationMessage(token: string): (m: Message)
    ensures m.Info? && OccursIn(token, m.text)
  {
    var text := "Divider token set to \"" + token + "\".";
    assert OccursAt(token, text, 22);
    Info(text)
  }

  /** The text the insert command places at the cursor, for a setting and a language. */
  function InsertionText(setting: Option<string>, languageId: string): (r: string)
    ensures OccursIn(Divider(GetDividerToken(setting)), r)
    ensures |r| >= PrintWidth
    ensures languageId !in KnownLanguageIds ==> r == Divider(GetDividerToken(setting)) && |r| == PrintWidth
  {
    StatementContainsDivider(languageId, Divider(GetDividerToken(setting)));
    PrintStatement(languageId, Divider(GetDividerToken(setting)))
  }

  /** The editor after `text` is inserted at the cursor. */
  function Splice(e: Editor, text: string): (r: Editor)
    requires e.cursor <= |e.text|
    ensures r.languageId == e.languageId && r.cursor == e.cursor
    ensures |r.text| == |e.text| + |text|
    ensures r.text[..e.cursor] == e.text[..e.cursor]
    ensures r.text[e.cursor..e.cursor + |text|] == text
    ensures r.text[e.cursor + |text|..] == e.text[e.cursor..]
  {
    e.(text := e.text[..e.cursor] + text + e.text[e.cursor..])
  }

  /** Cutting the inserted range out of the document gives back the document before the insertion. */
  lemma SpliceThenCut(e: Editor, text: string)
    requires e.cursor <= |e.text|
    ensures var t := Splice(e, text).text;
      t[..e.cursor] + t[e.cursor + |text|..] == e.text
  {
  }

  class Workbench {
    /** The stored `printDivider.token` setting; None when it has no value. */
    var setting: Option<string>
    /** The active text editor, if any. */
    var editor: Option<Editor>

    ghost predicate Valid()
      reads this
    {
      editor.Some? ==> editor.value.cursor <= |editor.value.text|
    }

    constructor (setting: Option<string>, editor: Option<Editor>)
      requires editor.Some? ==> editor.value.cursor <= |editor.value.text|
      ensures Valid() && this.setting == setting && this.editor == editor
    {
      this.setting := setting;
      this.editor := editor;
    }

    /** The token an insertion would use now. */
    function Token(): (t: string)
      reads this
      ensures t != []
    {
      GetDividerToken(setting)
    }

    /**
     * The configure command. With no editor it reports the error and changes nothing;
     * otherwise it stores the normalised answer and confirms it. The editor is untouched.
     */
    method ConfigureDivider(input: Option<string>) returns (message: Message)
      requires Valid()
      modifies this`setting
      ensures Valid()
      ensures old(editor).None? ==> setting == old(setting) && message == NoEditorMessage
      ensures old(editor).Some? ==>
        setting == Some(ConfigureToken(input)) && message == ConfirmationMessage(ConfigureToken(input))
      ensures old(editor).Some? ==> Token() == ConfigureToken(input)
    {
      if editor.None? {
        return NoEditorMessage;
      }
      var token := ConfigureToken(input);
      setting := Some(token);
      message := ConfirmationMessage(token);
      ConfiguredTokenReadsBack(input);
    }

    /**
     * The insert command. With no editor it reports the error and changes nothing;
     * otherwise it inserts the print statement at the cursor. The setting is untouched.
     */
    method InsertDivider() returns (message: Option<Message>)
      requires Valid()
      modifies this`editor
      ensures Valid()
      ensures old(editor).None? ==> editor == old(editor) && message == Some(NoEditorMessage)
      ensures old(editor).Some? ==> message == None
      ensures old(editor).Some? ==>
        editor == Some(Splice(old(editor).value, InsertionText(setting, old(editor).value.languageId)))
    {
      if editor.None? {
        return Some(NoEditorMessage);
      }
      var e := editor.value;
      var token := GetDividerToken(setting);
      var divider := Divider(token);
      var statement := PrintStatement(e.languageId, divider);
      editor := Some(Splice(e, statement));
      message := None;
    }
  }

  /** Token "=" in a Python document: `print("` then 80 `=` then `")`. */
  lemma PythonEqualsScenario()
    ensures InsertionText(Some("="), "python") == "print(\"" + seq(PrintWidth, _ => '=') + "\")"
  {
    SingleCharacterDivider('=');
    KnownStatements(seq(PrintWidth, _ => '='));
  }

  /** Token "*" in a C++ document: `printf("` then 80 `*` then a backslash, `n`, `");`. */
  lemma CppStarScenario()
    ensures InsertionText(Some("*"), "cpp") == "printf(\"" + seq(PrintWidth, _ => '*') + "\\n\");"
  {
    SingleCharacterDivider('*');
    KnownStatements(seq(PrintWidth, _ => '*'));
  }

  /** An empty setting inserts the default divider: 80 `-` characters in the chosen statement. */
  lemma EmptySettingUsesDefault(languageId: string)
    ensures InsertionText(Some([]), languageId) == PrintStatement(languageId, seq(PrintWidth, _ => '-'))
    ensures InsertionText(None, languageId) == PrintStatement(languageId, seq(PrintWidth, _ => '-'))
  {
    SingleCharacterDivider('-');
  }
}
