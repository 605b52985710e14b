/**
 * The divider token: the string that is repeated to build the divider line.
 * It lives under the configuration key `printDivider.token`; the model represents
 * that setting as an optional string (None when the key has no value).
 */
module DividerToken {
  import opened Options

  /** The token used when the setting is missing or empty. */
  const DefaultToken: string := "-"

  /**
   * `config.get("token", "-") || "-"`: a missing setting reads as the default,
   * and an empty one is falsy and also replaced by the default.
   */
  function GetDividerToken(setting: Option<string>): (token: string)
    ensures token != []
    ensures token == DefaultToken <==> (setting.None? || setting.value == [] || setting.value == DefaultToken)
    ensures setting.Some? && setting.value != [] ==> token == setting.value
  {
    match setting
    case None => DefaultToken
    case Some(s) => if s == [] then DefaultToken else s
  }

  /**
   * The token the configure command stores: the input box's answer, or the default
   * when the box was dismissed (no answer) or answered with the empty string: the same
   * `|| "-"` rule as the read.
   */
  function ConfigureToken(input: Option<string>): (token: string)
    ensures token != []
    ensures input.Some? && input.value != [] ==> token == input.value
    ensures input.None? || input.value == [] ==> token == DefaultToken
  {
    GetDividerToken(input)
  }

  /** Reading back what the configure command stored gives exactly that token. */
  lemma ConfiguredTokenReadsBack(input: Option<string>)
    ensures GetDividerToken(Some(ConfigureToken(input))) == ConfigureToken(input)
  {
  }

  /** Normalisation is idempotent: storing the token that was read changes nothing on the next read. */
  lemma GetDividerTokenIdempotent(setting: Option<string>)
    ensures GetDividerToken(Some(GetDividerToken(setting))) == GetDividerToken(setting)
  {
  }
}
