# Print Divider, modelled in Dafny

Print Divider is an editor add-on with two commands. "Configure divider" asks the user for a
divider token and stores it in the global setting `printDivider.token`. "Insert divider" builds an
80-character line by repeating the token and wraps it in the print statement of the active
document's language (Java, Python, JavaScript, TypeScript, C, C++, C#, PHP, Ruby, Swift, Go, Rust).
Then it inserts that statement at the cursor. Any other language gets the bare line.

The model has five modules:

- `Options` (options.dfy): the `Option` type, used for an unset setting, a dismissed input box and
  the absence of an active editor.
- `DividerToken` (token.dfy): the two normalisations of the token. A missing or empty setting reads
  as `"-"`. A dismissed or empty answer to the input box is stored as `"-"`.
- `DividerBuilder` (divider.dfy): `token.repeat(80).slice(0, 80)` as `Repeat`, `SliceFromStart` and
  `Divider`. It is proved that character `i` of the divider is character `i mod len(token)` of the token.
- `PrintStatements` (statement.dfy): the language switch, as a table from language identifier to a
  prefix and a suffix, plus `PrintStatement` and its inverse `StripStatement`. The `\\n` of the
  C-family and PHP templates is two characters, a backslash and `n`. The divider is inserted raw:
  a `"` or `\` in the token is not escaped.
- `Commands` (commands.dfy): a `Workbench` class holding the setting and the optional active
  editor. The editor is a language identifier, the document text and a cursor offset. The two
  command handlers are methods on it.

`getDividerToken` (src/extension.ts:5) ends in `|| "-"`, so the insert command never uses an
empty token and its divider always has 80 characters (`InsertionText`). `Divider` still models the
empty-token case, which gives the empty string.

## Model

| member | source | states |
|---|---|---|
| DividerToken.GetDividerToken | src/extension.ts:3-6 | the token read is never empty; a missing or empty setting yields `"-"`; any non-empty setting is returned unchanged; the result is `"-"` exactly when the setting is missing, empty or `"-"` |
| DividerToken.ConfigureToken | src/extension.ts:22-26 | the stored token is never empty; a dismissed box or an empty answer gives `"-"`; a non-empty answer is stored verbatim |
| DividerToken.ConfiguredTokenReadsBack | src/extension.ts:5 | reading back a token stored by the configure command yields that same token |
| DividerToken.GetDividerTokenIdempotent | src/extension.ts:5 | normalising an already normalised token changes nothing |
| DividerBuilder.Repeat | src/extension.ts:50 | `s.repeat(n)` has length n times the length of `s` |
| DividerBuilder.SliceFromStart | src/extension.ts:50 | `s.slice(0, end)` is a prefix of `s` of length the smaller of `end` and the length of `s` |
| DividerBuilder.BuildDivider | src/extension.ts:50 | the divider of a given width is a prefix of the repeated token; it has that width for a non-empty token and is empty for an empty one |
| DividerBuilder.Divider | src/extension.ts:47-50 | for a non-empty token the divider has exactly 80 characters; for an empty token it is empty |
| DividerBuilder.RepeatAt | src/extension.ts:50 | character `i` of `s.repeat(n)` is character `i mod len(s)` of `s` |
| DividerBuilder.DividerAt | src/extension.ts:50 | character `i` of the divider, for `i < 80`, is character `i mod len(token)` of the token |
| DividerBuilder.DividerIsPeriodicLine | src/extension.ts:50 | a string equals the divider of a non-empty token if and only if it has 80 characters and character `i` is character `i mod len(token)` of the token |
| DividerBuilder.SingleCharacterDivider | src/extension.ts:50 | a one-character token gives 80 copies of that character (token `"="` gives 80 `=`) |
| DividerBuilder.DividerOfLongTokenIsItsPrefix | src/extension.ts:50 | a token of 80 or more characters is cut to its first 80 |
| PrintStatements.WrapperFor | src/extension.ts:56-91 | a language identifier has a print-statement wrapper if and only if it is one of the twelve known identifiers |
| PrintStatements.PrintStatement | src/extension.ts:56-91 | an unknown identifier yields the divider unwrapped; a known one yields its prefix, then the divider verbatim, then its suffix |
| PrintStatements.KnownStatements | src/extension.ts:57-88 | the exact statement for each of the twelve identifiers, e.g. `System.out.println("` + divider + `");` for java |
| PrintStatements.AliasedLanguages | src/extension.ts:60-81 | javascript and typescript (lines 63-65), c and cpp (lines 67-69), python and swift (lines 60-61 and 80-81) give identical statements |
| PrintStatements.StatementContainsDivider | src/extension.ts:56-91 | every statement, for any identifier, contains the divider verbatim |
| PrintStatements.StripPrintStatement | src/extension.ts:56-91 | stripping the language's wrapper from a statement gives back the divider |
| PrintStatements.PrintStrippedStatement | src/extension.ts:56-91 | any text that strips to a divider is exactly the statement of that divider |
| PrintStatements.PrintStatementInjective | src/extension.ts:56-91 | in a fixed language, distinct dividers give distinct statements: nothing is escaped or lost |
| PrintStatements.EscapedNewlineIsTwoCharacters | src/extension.ts:67-76 | the C and C++ statements end in the five characters backslash, `n`, `"`, `)`, `;` and the PHP statement in backslash, `n`, `"`, `;`: the escape is two characters, not a newline |
| Commands.ConfirmationMessage | src/extension.ts:33 | the confirmation is an information message whose text contains the stored token |
| Commands.InsertionText | src/extension.ts:47-91 | the inserted text contains the 80-character divider of the normalised token, so it is at least 80 characters long; for an unknown language it is the 80-character divider itself, unwrapped |
| Commands.Splice | src/extension.ts:94-96 | inserting at the cursor keeps the text before the cursor, places the statement at the cursor, and shifts the rest after it |
| Commands.SpliceThenCut | src/extension.ts:94-96 | removing the inserted range restores the document |
| Commands.Workbench.Token | src/extension.ts:49 | the token an insertion uses is never empty |
| Commands.Workbench.ConfigureDivider | src/extension.ts:12-35 | with no editor: the error message, setting unchanged; otherwise the setting becomes the normalised answer, reading it back gives that token, and the information message confirming it is shown; the editor is never changed |
| Commands.Workbench.InsertDivider | src/extension.ts:38-98 | with no editor: the error message, editor unchanged; otherwise the document becomes `text[..cursor] + statement + text[cursor..]`; the setting is never changed |
| Commands.PythonEqualsScenario | src/extension.ts:49-61 | token `"="` in Python inserts `print("` + 80 `=` + `")` |
| Commands.CppStarScenario | src/extension.ts:49-69 | token `"*"` in C++ inserts `printf("` + 80 `*` + backslash `n` + `");` |
| Commands.EmptySettingUsesDefault | src/extension.ts:5 | an unset or empty setting inserts the statement around 80 `-` characters |

## Left out

- The editor host API (`activate`, `registerCommand`, `context.subscriptions`, `showInputBox`, `showErrorMessage`, `showInformationMessage`, `ConfigurationTarget`, `editor.edit`): these calls are host behaviour. The model keeps only their effect. The input box's answer is a parameter, messages are returned as error or information values, and the edit is a splice of the document text. The configuration scopes are covered by the `Commands.Workbench.ConfigureDivider` lines below.
- The pre-filled value of the input box (src/extension.ts:25) does not affect what is stored, so it is not modelled; the user's answer is the parameter.
- `console.log` calls (src/extension.ts:9, 104): logging only.
- `async`/`await`: each handler runs to completion, and the host runs one command at a time.
- Commands.Workbench.ConfigureDivider: only the user-level (global) scope of `printDivider.token` is modelled, as the single `setting` field. The source writes with `ConfigurationTarget.Global` (src/extension.ts:28-30) but reads the merged value (src/extension.ts:4-5), so a workspace or folder value shadows the one just written. The read-back clause `Token() == ConfigureToken(input)` holds in the source only when no workspace or folder value is set.
- Commands.Workbench.ConfigureDivider: a rejected `update` is not modelled. In the source the awaited rejection skips the confirmation (src/extension.ts:28-33); the model always stores the token and confirms.
- Commands.Workbench.InsertDivider: keeps the cursor offset as it was. Where the host moves the selection after an insertion is not visible in this code.
- The promise returned by `editor.edit` is neither awaited nor checked. A rejected edit is not modelled: the model always applies the insertion.
- The setting is modelled as an optional string. A non-string value stored under the key by hand is not modelled.
- Strings are sequences of Unicode scalar values, while the source's strings are sequences of UTF-16 code units. So in the source the width 80 and the index `i mod len(token)` count code units, and in the model they count scalar values. For a token outside the Basic Multilingual Plane the two differ: the token `"😀"` gives 40 emoji in the source and 80 in the model, and the token `"a😀"` (three code units) leaves the source's divider ending in half a surrogate pair.
- `repeat` throws when the result would exceed the engine's maximum string length (a token of millions of characters). That limit is engine-specific and not modelled.
